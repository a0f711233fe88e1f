/**
 * The capture side of the detector once the OpenCV calls are gone: when a
 * camera's frame counts as an object in the middle of the belt, the
 * per-camera cooldown that decides whether it is taken, the flag handed to
 * the coordinator, the camera counters that end the post-processing loop,
 * and the /proc/meminfo reader. Clock readings are parameters, in seconds.
 */
module Capture {
  import opened Wrappers
  import opened Tone
  import opened Geometry

  /** COOLDOWN_SECONDS: at least this long between two captures of one camera. */
  const Cooldown: real := 5.0
  /** CAMERA_NUMBER. */
  const CameraNumber := 3

  // ------------------------------------------------------------ the trigger

  /**
   * isCenterBetweenPoints: false for a width of zero or less, and false
   * when either point is the (-1, -1) "nothing found" marker; otherwise
   * whether the middle of the width lies between the two x coordinates.
   */
  function IsCenterBetweenPoints(p1: Point, p2: Point, width: real): (r: bool)
    ensures r <==> (width > 0.0 && p1.x != -1.0 && p2.x != -1.0
      && ((p1.x <= width / 2.0 <= p2.x) || (p2.x <= width / 2.0 <= p1.x)))
  {
    if width <= 0.0 then false
    else
      var centerX := width * 0.5;
      var minX := if p1.x < p2.x then p1.x else p2.x;
      var maxX := if p1.x < p2.x then p2.x else p1.x;
      if minX == -1.0 || maxX == -1.0 then false
      else centerX >= minX && centerX <= maxX
  }

  /** The test is symmetric in its two points. */
  lemma CenterTestSymmetric(p1: Point, p2: Point, width: real)
    ensures IsCenterBetweenPoints(p1, p2, width) == IsCenterBetweenPoints(p2, p1, width)
  {
  }

  /**
   * A frame right after one in which nothing was found never triggers; in
   * particular the first frame after start, whose previous difference is
   * the background compared with itself.
   */
  lemma NothingBeforeNeverTriggers(p: Point, width: real)
    ensures !IsCenterBetweenPoints(p, NotFound, width)
  {
  }

  /** The stamp of a camera in the shared map, if it has one. */
  function StampOf(stamps: map<int, real>, camId: int): Option<real>
  {
    if camId in stamps then Some(stamps[camId]) else None
  }

  /** A centred hit is captured unless the camera was stamped less than Cooldown ago. */
  predicate CanCapture(last: Option<real>, now: real)
  {
    !(last.Some? && now - last.value < Cooldown)
  }

  /**
   * One frame of grabLoop for one camera: the stamp and the flag after it.
   * A captured hit stamps the time and raises the flag; a hit during the
   * cooldown leaves both as they were; a frame that is not centred lowers
   * the flag and keeps the stamp.
   */
  function FrameStep(last: Option<real>, flag: bool, now: real, centred: bool): (Option<real>, bool)
  {
    if centred then
      if CanCapture(last, now) then (Some(now), true) else (last, flag)
    else (last, false)
  }

  /** The buffer a camera shares with the coordinator; only the object flag is modelled. */
  class CamBuf {
    const camId: int
    var objectDetection: bool

    constructor (camId: int)
      ensures this.camId == camId && !objectDetection
    {
      this.camId := camId;
      objectDetection := false;
    }
  }

  /** last_capture_ts: one stamp per camera, shared by all grab loops. */
  class Stamps {
    var last: map<int, real>

    constructor ()
      ensures last == map[]
    {
      last := map[];
    }
  }

  /** out is the whitening of width columns of frame from column first on, over the full height. */
  ghost predicate WhitenedColumns(out: array2<Pixel>, frame: array2<Pixel>, first: nat, width: nat, mean: Rgb)
    reads out, frame
  {
    out.Length0 == frame.Length0 && out.Length1 == width && first + width <= frame.Length1
    && forall y, x :: 0 <= y < out.Length0 && 0 <= x < width ==>
         out[y, x] == Whiten(frame[y, first + x], mean, WhitenTolerance)
  }

  /**
   * The state one grab loop keeps between frames: the belt edges (after the
   * fallback), the reference colour of the background, the camera's
   * difference threshold, the previous whitened frame and the previous
   * difference.
   */
  class Grab {
    const camId: int
    const leftX: int
    const rightX: int
    const mean: Rgb
    const threshold: real
    var previousFrame: array2<Pixel>
    var previousDifference: Point

    /**
     * The loop starts from the whitened, cropped background and from the
     * centroid of that background against itself, under the camera's own
     * difference threshold.
     */
    constructor (camId: int, leftX: int, rightX: int, mean: Rgb, background: array2<Pixel>, threshold: real)
      ensures this.camId == camId && this.leftX == leftX && this.rightX == rightX
      ensures this.mean == mean && this.threshold == threshold && previousFrame == background
      ensures previousDifference == DiffCentroid(background, background, threshold, DiffTolerance)
    {
      this.camId := camId;
      this.leftX := leftX;
      this.rightX := rightX;
      this.mean := mean;
      this.threshold := threshold;
      previousFrame := background;
      var initial := DiffCentroidTol(background, background, threshold, DiffTolerance);
      previousDifference := initial;
    }

    /**
     * One iteration of grabLoop on a frame that was read: crop it, whiten
     * it (camera 2 whitens the whole frame, not the crop), compare it with
     * the previous whitened frame, run the trigger, and keep the whitened
     * frame for the next turn. The centre test uses the width between the
     * edges, whichever frame was whitened.
     */
    method Step(frame: array2<Pixel>, now: real, stamps: Stamps, buf: CamBuf) returns (whitened: array2<Pixel>)
      requires frame.Length0 > 0 && frame.Length1 > 0
      requires !CropOf(frame.Length1, leftX, rightX).Invalid?
      requires stamps != buf as object
      modifies this, stamps, buf
      ensures fresh(whitened)
      ensures camId == 2 ==> WhitenedColumns(whitened, frame, 0, frame.Length1, mean)
      ensures camId != 2 && CropOf(frame.Length1, leftX, rightX).Uncropped? ==>
        WhitenedColumns(whitened, frame, 0, frame.Length1, mean)
      ensures camId != 2 && CropOf(frame.Length1, leftX, rightX).Columns? ==>
        WhitenedColumns(whitened, frame, CropOf(frame.Length1, leftX, rightX).first,
          CropOf(frame.Length1, leftX, rightX).last - CropOf(frame.Length1, leftX, rightX).first + 1, mean)
      ensures previousFrame == whitened
      ensures previousDifference == DiffCentroid(whitened, old(previousFrame), threshold, DiffTolerance)
      ensures var step := FrameStep(StampOf(old(stamps.last), camId), old(buf.objectDetection), now,
          IsCenterBetweenPoints(previousDifference, old(previousDifference), (rightX - leftX) as real));
        StampOf(stamps.last, camId) == step.0 && buf.objectDetection == step.1
      ensures forall c :: c != camId ==> StampOf(stamps.last, c) == StampOf(old(stamps.last), c)
    {
      var cropped := CropFrame(frame, leftX, rightX);
      if camId == 2 {
        whitened := WhiteOutSameTone(frame, mean, WhitenTolerance);
      } else {
        whitened := WhiteOutSameTone(cropped, mean, WhitenTolerance);
      }
      var difference := DiffCentroidTol(whitened, previousFrame, threshold, DiffTolerance);
      OnFrame(now, difference, (rightX - leftX) as real, stamps, buf);
      previousFrame := whitened;
    }

    /**
     * The trigger part of one iteration: test the new difference against
     * the previous one, apply the cooldown, update the flag, and keep the
     * difference for the next frame. Only this camera's stamp can change.
     */
    method OnFrame(now: real, difference: Point, width: real, stamps: Stamps, buf: CamBuf)
      modifies this, stamps, buf
      ensures previousDifference == difference
      ensures var step := FrameStep(StampOf(old(stamps.last), camId), old(buf.objectDetection), now,
          IsCenterBetweenPoints(difference, old(previousDifference), width));
        StampOf(stamps.last, camId) == step.0 && buf.objectDetection == step.1
      ensures forall c :: c != camId ==> StampOf(stamps.last, c) == StampOf(old(stamps.last), c)
    {
      if IsCenterBetweenPoints(difference, previousDifference, width) {
        var canCapture := true;
        if camId in stamps.last && now - stamps.last[camId] < Cooldown {
          canCapture := false;
        }
        if canCapture {
          stamps.last := stamps.last[camId := now];
          buf.objectDetection := true;
        }
      } else {
        buf.objectDetection := false;
      }
      previousDifference := difference;
    }
  }

  /**
   * The coordinator's turn for one camera: when the system is ready and
   * the flag is up, the frame is queued and the flag lowered.
   */
  method Poll(systemReady: bool, buf: CamBuf) returns (pushed: bool)
    modifies buf
    ensures pushed <==> systemReady && old(buf.objectDetection)
    ensures buf.objectDetection == (old(buf.objectDetection) && !pushed)
  {
    pushed := false;
    if systemReady && buf.objectDetection {
      pushed := true;
      buf.objectDetection := false;
    }
  }

  // ------------------------------------------------------------ traces

  /** What happens to one camera: a frame of its grab loop, or a turn of the coordinator. */
  datatype Event = Frame(now: real, centred: bool) | Turn(systemReady: bool)

  /** One camera's history: its stamp and flag, the capture times, and how many frames were queued. */
  datatype History = History(last: Option<real>, flag: bool, captures: seq<real>, pushes: nat)

  function Apply(h: History, e: Event): History
  {
    match e
    case Frame(now, centred) =>
      var step := FrameStep(h.last, h.flag, now, centred);
      var captured := centred && CanCapture(h.last, now);
      History(step.0, step.1, if captured then h.captures + [now] else h.captures, h.pushes)
    case Turn(ready) =>
      if ready && h.flag then History(h.last, false, h.captures, h.pushes + 1) else h
  }

  function Run(h: History, events: seq<Event>): History
    decreases |events|
  {
    if events == [] then h else Run(Apply(h, events[0]), events[1..])
  }

  const Start := History(None, false, [], 0)

  /** Consecutive captures of a camera are at least Cooldown apart, and the stamp is the last capture. */
  predicate Spaced(h: History)
  {
    (forall i :: 0 < i < |h.captures| ==> h.captures[i] - h.captures[i - 1] >= Cooldown)
    && (h.captures == [] ==> h.last == None)
    && (h.captures != [] ==> h.last == Some(h.captures[|h.captures| - 1]))
  }

  /** No frame is queued without a capture before it: the queued frames plus a raised flag never exceed the captures. */
  predicate Accounted(h: History)
  {
    h.pushes + (if h.flag then 1 else 0) <= |h.captures|
  }

  lemma ApplyKeeps(h: History, e: Event)
    requires Spaced(h) && Accounted(h)
    ensures Spaced(Apply(h, e)) && Accounted(Apply(h, e))
  {
  }

  lemma {:induction false} RunKeeps(h: History, events: seq<Event>)
    requires Spaced(h) && Accounted(h)
    ensures Spaced(Run(h, events)) && Accounted(Run(h, events))
    decreases |events|
  {
    if events != [] {
      ApplyKeeps(h, events[0]);
      RunKeeps(Apply(h, events[0]), events[1..]);
    }
  }

  /**
   * Whatever the clock readings and the order of frames and coordinator
   * turns, two captures of one camera are at least five seconds apart, and
   * the coordinator queues at most one frame per capture.
   */
  lemma CaptureGuarantees(events: seq<Event>)
    ensures var h := Run(Start, events);
      (forall i :: 0 < i < |h.captures| ==> h.captures[i] - h.captures[i - 1] >= Cooldown)
      && h.pushes <= |h.captures|
  {
    RunKeeps(Start, events);
  }

  /** A hit four seconds after a capture is ignored, one five seconds after is taken. */
  lemma CooldownBoundary(t: real)
    ensures FrameStep(Some(t), false, t + 4.0, true) == (Some(t), false)
    ensures FrameStep(Some(t), false, t + 5.0, true) == (Some(t + 5.0), true)
  {
  }

  // ------------------------------------------------------------ camera counters

  /** active_cameras, num_camera, all_cameras_done and the per-camera active flags. */
  datatype Counters = Counters(active: int, numCamera: int, allDone: bool, cameraOn: seq<bool>)

  const InitialCounters := Counters(CameraNumber, CameraNumber, false, [true, true, true])

  function SwitchOff(on: seq<bool>, camId: int): seq<bool>
  {
    if 0 <= camId < |on| then on[camId := false] else on
  }

  /** A camera that could not be opened, as written: both counts drop, but all_cameras_done is never looked at. */
  function OpenFailedAsWritten(c: Counters, camId: int): Counters
  {
    Counters(c.active - 1, c.numCamera - 1, c.allDone, SwitchOff(c.cameraOn, camId))
  }

  /** A camera that could not be opened, with the same last-camera test as the end of the grab loop. */
  function OpenFailed(c: Counters, camId: int): (r: Counters)
    ensures r.active == c.active - 1 && r.numCamera == c.numCamera - 1
    ensures r.allDone <==> c.allDone || r.active == 0
  {
    Counters(c.active - 1, c.numCamera - 1, c.allDone || c.active - 1 == 0, SwitchOff(c.cameraOn, camId))
  }

  /** The end of a grab loop: the last camera to stop raises all_cameras_done. */
  function Finished(c: Counters): (r: Counters)
    ensures r.active == c.active - 1 && r.numCamera == c.numCamera && r.cameraOn == c.cameraOn
    ensures r.allDone <==> c.allDone || r.active == 0
  {
    Counters(c.active - 1, c.numCamera, c.allDone || c.active - 1 == 0, c.cameraOn)
  }

  /** What each camera's thread does to the counters: fail to open, or run and stop. */
  datatype Outcome = Failed(camId: int) | Stopped

  function Outcomes(c: Counters, os: seq<Outcome>, asWritten: bool): Counters
    decreases |os|
  {
    if os == [] then c
    else
      var next := match os[0]
        case Failed(id) => if asWritten then OpenFailedAsWritten(c, id) else OpenFailed(c, id)
        case Stopped => Finished(c);
      Outcomes(next, os[1..], asWritten)
  }

  function FailureCount(os: seq<Outcome>): (n: nat)
    ensures n <= |os|
  {
    if os == [] then 0 else (if os[0].Failed? then 1 else 0) + FailureCount(os[1..])
  }

  lemma {:induction false} OutcomesCount(c: Counters, os: seq<Outcome>, asWritten: bool)
    ensures Outcomes(c, os, asWritten).active == c.active - |os|
    ensures Outcomes(c, os, asWritten).numCamera == c.numCamera - FailureCount(os)
    decreases |os|
  {
    if os != [] {
      match os[0]
      case Failed(id) =>
        OutcomesCount(if asWritten then OpenFailedAsWritten(c, id) else OpenFailed(c, id), os[1..], asWritten);
      case Stopped =>
        OutcomesCount(Finished(c), os[1..], asWritten);
    }
  }

  lemma {:induction false} CorrectedDoneIffZero(c: Counters, os: seq<Outcome>)
    requires c.active >= |os| && (c.allDone ==> c.active == 0)
    ensures Outcomes(c, os, false).allDone <==> c.allDone || (os != [] && c.active == |os|)
    decreases |os|
  {
    if os != [] {
      var next := match os[0]
        case Failed(id) => OpenFailed(c, id)
        case Stopped => Finished(c);
      CorrectedDoneIffZero(next, os[1..]);
    }
  }

  /**
   * With one outcome from each of the three cameras, in any order, the
   * counters reach zero, num_camera counts the cameras that opened, and
   * all_cameras_done is raised; before the third outcome it is not.
   */
  lemma AllOutcomesEndTheRun(os: seq<Outcome>)
    requires |os| <= CameraNumber
    ensures Outcomes(InitialCounters, os, false).numCamera == CameraNumber - FailureCount(os)
    ensures Outcomes(InitialCounters, os, false).allDone <==> |os| == CameraNumber
  {
    OutcomesCount(InitialCounters, os, false);
    CorrectedDoneIffZero(InitialCounters, os);
  }

  /** As written, the run only ends when the last camera to report is one that opened. */
  lemma {:induction false} AsWrittenDoneIffLastStopped(c: Counters, os: seq<Outcome>)
    requires c.active == |os| && !c.allDone
    ensures Outcomes(c, os, true).allDone <==> os != [] && os[|os| - 1].Stopped?
    decreases |os|
  {
    if os != [] {
      var next := match os[0]
        case Failed(id) => OpenFailedAsWritten(c, id)
        case Stopped => Finished(c);
      if |os| > 1 {
        assert !next.allDone;
        AsWrittenDoneIffLastStopped(next, os[1..]);
        assert os[1..][|os| - 2] == os[|os| - 1];
      }
    }
  }

  /** As written, three cameras that all fail to open leave all_cameras_done false with no camera left. */
  lemma AllFailedNeverDone()
    ensures var c := Outcomes(InitialCounters, [Failed(0), Failed(1), Failed(2)], true);
      c.active == 0 && !c.allDone
  {
    AsWrittenDoneIffLastStopped(InitialCounters, [Failed(0), Failed(1), Failed(2)]);
    OutcomesCount(InitialCounters, [Failed(0), Failed(1), Failed(2)], true);
  }

  /** The shared counters, updated in place by the camera threads. */
  class Cameras {
    var active: int
    var numCamera: int
    var allDone: bool
    var cameraOn: seq<bool>

    function Snapshot(): Counters
      reads this
    {
      Counters(active, numCamera, allDone, cameraOn)
    }

    constructor ()
      ensures Snapshot() == InitialCounters
    {
      active, numCamera, allDone := CameraNumber, CameraNumber, false;
      cameraOn := [true, true, true];
    }

    /** A camera could not be opened (with the last-camera test added). */
    method OnOpenFailed(camId: int)
      modifies this
      ensures Snapshot() == OpenFailed(old(Snapshot()), camId)
    {
      if 0 <= camId < |cameraOn| {
        cameraOn := cameraOn[camId := false];
      }
      active := active - 1;
      numCamera := numCamera - 1;
      if active == 0 {
        allDone := true;
      }
    }

    /** A grab loop has ended. */
    method OnLoopEnded()
      modifies this
      ensures Snapshot() == Finished(old(Snapshot()))
    {
      active := active - 1;
      if active == 0 {
        allDone := true;
      }
    }
  }

  // ------------------------------------------------------------ memory

  /** One "key value unit" line of /proc/meminfo that parsed. */
  datatype MemEntry = MemEntry(key: string, value: int)

  /** Free and total memory; zero means "not seen yet", as in the source. */
  datatype MemInfo = MemInfo(free: int, total: int)

  function Note(m: MemInfo, e: MemEntry): (r: MemInfo)
    ensures e.key == "MemTotal:" ==> r.total == e.value
    ensures e.key == "MemAvailable:" ==> r.free == e.value
    ensures e.key != "MemTotal:" && e.key != "MemAvailable:" ==> r == m
  {
    var withTotal := if e.key == "MemTotal:" then m.(total := e.value) else m;
    if e.key == "MemAvailable:" then withTotal.(free := e.value) else withTotal
  }

  predicate BothKnown(m: MemInfo) { m.free != 0 && m.total != 0 }

  /** The reading loop: note each line, and stop as soon as both values are non-zero. */
  function ScanMem(m: MemInfo, entries: seq<MemEntry>): MemInfo
    decreases |entries|
  {
    if entries == [] then m
    else
      var next := Note(m, entries[0]);
      if BothKnown(next) then next else ScanMem(next, entries[1..])
  }

  /**
   * C++ integer division, which truncates toward zero: the quotient times
   * the divisor stays on the same side of zero as the dividend, and within
   * one divisor of it.
   */
  function TruncDiv(a: int, b: int): (q: int)
    requires b > 0
    ensures a >= 0 ==> 0 <= q && q * b <= a < q * b + b
    ensures a < 0 ==> q <= 0 && q * b - b < a <= q * b
  {
    if a >= 0 then a / b else -((-a) / b)
  }

  /** kB to MiB. */
  function InMiB(m: MemInfo): MemInfo
  {
    MemInfo(TruncDiv(m.free, 1024), TruncDiv(m.total, 1024))
  }

  /** get_mem, on the lines that parsed. */
  method GetMem(entries: seq<MemEntry>) returns (m: MemInfo)
    ensures m == InMiB(ScanMem(MemInfo(0, 0), entries))
  {
    m := MemInfo(0, 0);
    var k := 0;
    while k < |entries|
      invariant 0 <= k <= |entries|
      invariant ScanMem(m, entries[k..]) == ScanMem(MemInfo(0, 0), entries)
    {
      assert entries[k..][1..] == entries[k + 1..];
      var e := entries[k];
      if e.key == "MemTotal:" {
        m := m.(total := e.value);
      }
      if e.key == "MemAvailable:" {
        m := m.(free := e.value);
      }
      if m.free != 0 && m.total != 0 {
        break;
      }
      k := k + 1;
    }
    if k == |entries| {
      assert entries[k..] == [];
    }
    m := InMiB(m);
  }

  /** Lines without either key leave the values as they were. */
  lemma {:induction false} OtherLinesIgnored(m: MemInfo, entries: seq<MemEntry>)
    requires !BothKnown(m)
    requires forall i :: 0 <= i < |entries| ==> entries[i].key != "MemTotal:" && entries[i].key != "MemAvailable:"
    ensures ScanMem(m, entries) == m
    decreases |entries|
  {
    if entries != [] {
      OtherLinesIgnored(Note(m, entries[0]), entries[1..]);
    }
  }

  /** Nothing after the point where both values are known is read. */
  lemma {:induction false} StopsOnceKnown(m: MemInfo, a: seq<MemEntry>, b: seq<MemEntry>)
    requires BothKnown(ScanMem(m, a)) && !BothKnown(m)
    ensures ScanMem(m, a + b) == ScanMem(m, a)
    decreases |a|
  {
    if a == [] {
      assert false;
    } else {
      assert (a + b)[0] == a[0] && (a + b)[1..] == a[1..] + b;
      if !BothKnown(Note(m, a[0])) {
        StopsOnceKnown(Note(m, a[0]), a[1..], b);
      }
    }
  }

  /**
   * For a meminfo that lists the total, then other lines, then the
   * available memory, both non-zero, the result is the two values in MiB,
   * whatever follows.
   */
  lemma MeminfoRead(total: int, others: seq<MemEntry>, available: int, rest: seq<MemEntry>)
    requires total != 0 && available != 0
    requires forall i :: 0 <= i < |others| ==> others[i].key != "MemTotal:" && others[i].key != "MemAvailable:"
    ensures ScanMem(MemInfo(0, 0), [MemEntry("MemTotal:", total)] + others + [MemEntry("MemAvailable:", available)] + rest)
      == MemInfo(available, total)
  {
    var head := [MemEntry("MemTotal:", total)];
    var tail := [MemEntry("MemAvailable:", available)] + rest;
    var m1 := MemInfo(0, total);
    assert Note(MemInfo(0, 0), head[0]) == m1;
    OtherLinesIgnored(m1, others);
    ScanAppend(m1, others, tail);
    assert ([MemEntry("MemTotal:", total)] + others + [MemEntry("MemAvailable:", available)] + rest)
      == head + (others + tail);
    assert (head + (others + tail))[1..] == others + tail;
  }

  /** Lines that change nothing can be skipped. */
  lemma {:induction false} ScanAppend(m: MemInfo, others: seq<MemEntry>, tail: seq<MemEntry>)
    requires !BothKnown(m)
    requires forall i :: 0 <= i < |others| ==> others[i].key != "MemTotal:" && others[i].key != "MemAvailable:"
    ensures ScanMem(m, others + tail) == ScanMem(m, tail)
    decreases |others|
  {
    if others != [] {
      assert (others + tail)[0] == others[0] && (others + tail)[1..] == others[1..] + tail;
      assert others[0].key != "MemTotal:" && others[0].key != "MemAvailable:";
      assert Note(m, others[0]) == m;
      assert ScanMem(m, others + tail) == ScanMem(m, others[1..] + tail);
      ScanAppend(m, others[1..], tail);
    } else {
      assert others + tail == tail;
    }
  }
}
