/**
 * The detector's decision core: reading a class tag "<product>_<state>",
 * keeping the top-confidence detection of each frame as a scan, and judging
 * a batch of one scan per camera healthy or not, which turns the servo to
 * the accept (30 degrees) or the reject (150 degrees) side.
 *
 * Confidences are doubles in the source and reals here; rounding is not
 * modelled.
 */
module Decision {
  import opened Wrappers
  import opened Text
  import opened Dto

  /** The health score a batch must reach unless /threshold changes it. */
  const DefaultThreshold: real := 70.0
  /** Servo angles commanded for an accepted and a rejected product. */
  const AcceptAngle: int := 30
  const RejectAngle: int := 150

  predicate IsRottenState(state: string) { state == "Rotten" || state == "rotten" }

  /**
   * parse_class_string: the text before the first '_' and whether the text
   * after it is anything but "Rotten"/"rotten". Without '_' the whole tag
   * comes back and is taken as healthy.
   */
  function ParseClassString(full: string): (r: (string, bool))
    ensures '_' !in r.0
    ensures '_' !in full ==> r == (full, true)
    ensures '_' in full ==> StartsWith(full, r.0 + "_") && (r.1 <==> !IsRottenState(full[|r.0| + 1..]))
  {
    match IndexOf(full, '_')
    case None => (full, true)
    case Some(p) =>
      assert full[..p] + "_" == full[..p + 1];
      (full[..p], !IsRottenState(full[p + 1..]))
  }

  /** Parsing a tag built from a product name and a state gives both back. */
  lemma ParseClassStringOfLabel(product: string, state: string)
    requires '_' !in product
    ensures ParseClassString(product + "_" + state) == (product, !IsRottenState(state))
  {
    var full := product + "_" + state;
    assert forall i :: 0 <= i < |product| ==> full[i] == product[i];
    assert full[|product|] == '_';
    assert IndexOf(full, '_') == Some(|product|);
    assert full[..|product|] == product;
    assert full[|product| + 1..] == state;
  }

  /**
   * The "result" text isProductHealthy reads from a tag with two getline
   * calls: after the first '_' up to the first newline, empty when the tag
   * has no '_'.
   */
  function ResultField(tag: string): (r: string)
    ensures '\n' !in r
    ensures '_' !in tag ==> r == ""
  {
    if tag == [] then ""
    else if tag[0] == '_' then LineOf(tag[1..])
    else ResultField(tag[1..])
  }

  /**
   * Where the result text sits: right after the first '_', running to the
   * first newline or to the end of the tag.
   */
  lemma {:induction false} ResultFieldPlace(tag: string, p: nat)
    requires p < |tag| && tag[p] == '_' && '_' !in tag[..p]
    ensures ResultField(tag) == LineOf(tag[p + 1..])
  {
    if p > 0 {
      assert tag[0] == tag[..p][0];
      assert tag[1..][..p - 1] == tag[1..p];
      assert forall c :: c in tag[1..p] ==> c in tag[..p];
      ResultFieldPlace(tag[1..], p - 1);
      assert tag[1..][p..] == tag[p + 1..];
    }
  }

  /** A scan counts as a success exactly when its result text is "Healthy". */
  predicate ScanIsHealthy(s: ScanRequest) { ResultField(s.productResult) == "Healthy" }

  /** The signed confidence a scan contributes: positive for a success, negative otherwise. */
  function Health(s: ScanRequest): real
  {
    if ScanIsHealthy(s) then s.confidence else -1.0 * s.confidence
  }

  /** The signed confidences of a batch, scan by scan. */
  function Healths(scans: seq<ScanRequest>): (xs: seq<real>)
    ensures |xs| == |scans|
  {
    seq(|scans|, i requires 0 <= i < |scans| => Health(scans[i]))
  }

  function SumReals(xs: seq<real>): real
  {
    if xs == [] then 0.0 else SumReals(xs[..|xs| - 1]) + xs[|xs| - 1]
  }

  function CountHealthy(scans: seq<ScanRequest>): nat
  {
    if scans == [] then 0
    else CountHealthy(scans[..|scans| - 1]) + (if ScanIsHealthy(scans[|scans| - 1]) then 1 else 0)
  }

  /** The batch's health score: the mean signed confidence, 0 for an empty batch. */
  function HealthScore(scans: seq<ScanRequest>): real
  {
    if scans == [] then 0.0 else SumReals(Healths(scans)) / (|scans| as real)
  }

  predicate AllHealthy(scans: seq<ScanRequest>)
  {
    forall i :: 0 <= i < |scans| ==> ScanIsHealthy(scans[i])
  }

  /** The verdict: every scan a success and the score at least the threshold. */
  predicate ProductHealthy(scans: seq<ScanRequest>, threshold: real)
  {
    AllHealthy(scans) && HealthScore(scans) >= threshold
  }

  /** The success count reaches the batch size exactly when every scan is a success. */
  lemma {:induction false} CountHealthyAll(scans: seq<ScanRequest>)
    ensures CountHealthy(scans) <= |scans|
    ensures CountHealthy(scans) == |scans| <==> AllHealthy(scans)
  {
    if scans != [] {
      var n := |scans|;
      var init := scans[..n - 1];
      var lastHealthy := ScanIsHealthy(scans[n - 1]);
      CountHealthyAll(init);
      assert CountHealthy(scans) == CountHealthy(init) + (if lastHealthy then 1 else 0);
      assert forall i :: 0 <= i < |init| ==> init[i] == scans[i];
      if AllHealthy(scans) {
        assert lastHealthy && AllHealthy(init);
      }
      if CountHealthy(scans) == n {
        assert lastHealthy && CountHealthy(init) == n - 1;
        forall i | 0 <= i < n ensures ScanIsHealthy(scans[i]) {
          if i < n - 1 { assert ScanIsHealthy(init[i]); }
        }
      }
    }
  }

  /** Adding x / n to the mean so far of a sum over n is the mean of the extended sum. */
  lemma SumOverCount(score: real, sum: real, x: real, share: real, n: real)
    requires n > 0.0 && score == sum / n && share == x / n
    ensures score + share == (sum + x) / n
  {
  }

  /** The running success count of isProductHealthy after one more scan. */
  lemma CountStep(scans: seq<ScanRequest>, i: nat, count: nat, isSuccess: bool)
    requires i < |scans| && count == CountHealthy(scans[..i]) && isSuccess == ScanIsHealthy(scans[i])
    ensures CountHealthy(scans[..i + 1]) == if isSuccess then count + 1 else count
  {
    CountHealthyStep(scans, i);
  }

  /** The running sum and score of isProductHealthy after one more scan. */
  lemma ScoreStep(scans: seq<ScanRequest>, i: nat, total: real, score: real, health: real, share: real, nr: real)
    requires i < |scans| && nr == |scans| as real
    requires total == SumReals(Healths(scans)[..i]) && score == total / nr
    requires health == Health(scans[i]) && share == health / nr
    ensures total + health == SumReals(Healths(scans)[..i + 1])
    ensures score + share == (total + health) / nr
  {
    SumHealthsStep(scans, i);
    SumOverCount(score, total, health, share, nr);
  }

  /** Extending a prefix by one scan adds one to the count exactly when that scan is a success. */
  lemma CountHealthyStep(scans: seq<ScanRequest>, i: nat)
    requires i < |scans|
    ensures CountHealthy(scans[..i + 1]) == CountHealthy(scans[..i]) + (if ScanIsHealthy(scans[i]) then 1 else 0)
  {
    assert scans[..i + 1][..i] == scans[..i];
  }

  /** Extending a prefix by one scan adds that scan's signed confidence to the sum. */
  lemma SumHealthsStep(scans: seq<ScanRequest>, i: nat)
    requires i < |scans|
    ensures SumReals(Healths(scans)[..i + 1]) == SumReals(Healths(scans)[..i]) + Health(scans[i])
  {
    var xs := Healths(scans);
    assert xs[..i + 1][..i] == xs[..i];
  }

  /**
   * isProductHealthy: one pass that counts the successes and adds each
   * scan's signed confidence divided by the batch size.
   */
  method IsProductHealthy(scans: seq<ScanRequest>, threshold: real) returns (healthy: bool)
    ensures healthy <==> ProductHealthy(scans, threshold)
  {
    var n := |scans|;
    var count, score := TallyScans(scans);
    CountHealthyAll(scans);
    var flag1 := count == n;
    var flag2 := score >= threshold;
    healthy := flag1 && flag2;
  }

  /**
   * The loop of isProductHealthy: the number of successful scans, and the
   * sum of each scan's signed confidence divided by the batch size.
   */
  method TallyScans(scans: seq<ScanRequest>) returns (count: nat, score: real)
    ensures count == CountHealthy(scans)
    ensures |scans| > 0 ==> score == SumReals(Healths(scans)) / (|scans| as real)
    ensures |scans| == 0 ==> score == 0.0
  {
    score := 0.0;
    var n := |scans|;
    var nr := n as real;
    count := 0;
    var i := 0;
    ghost var total := 0.0;
    while i < n
      invariant 0 <= i <= n
      invariant count == CountHealthy(scans[..i])
      invariant total == SumReals(Healths(scans)[..i])
      invariant n > 0 ==> score == total / nr
      invariant n == 0 ==> score == 0.0
    {
      var isSuccess, health := ScanHealth(scans[i]);
      CountStep(scans, i, count, isSuccess);
      if isSuccess {
        count := count + 1;
      }
      var share := health / nr;
      ScoreStep(scans, i, total, score, health, share, nr);
      score := score + share;
      total := total + health;
      i := i + 1;
    }
    assert scans[..n] == scans;
    assert Healths(scans)[..n] == Healths(scans);
  }

  /** One scan's part in isProductHealthy: whether it succeeded, and its signed confidence. */
  method ScanHealth(s: ScanRequest) returns (isSuccess: bool, health: real)
    ensures isSuccess == ScanIsHealthy(s) && health == Health(s)
  {
    isSuccess := ResultField(s.productResult) == "Healthy";
    health := if isSuccess then s.confidence else -1.0 * s.confidence;
  }

  /** When every term is at least t, the sum is at least t per term. */
  lemma {:induction false} SumRealsAtLeast(xs: seq<real>, t: real)
    requires forall i :: 0 <= i < |xs| ==> xs[i] >= t
    ensures SumReals(xs) >= (|xs| as real) * t
  {
    if xs != [] {
      var init := xs[..|xs| - 1];
      assert forall i :: 0 <= i < |init| ==> init[i] == xs[i];
      SumRealsAtLeast(init, t);
      assert (|xs| as real) * t == (|init| as real) * t + t;
    }
  }

  /** When every term is below t, the sum of a non-empty sequence is below t per term. */
  lemma {:induction false} SumRealsBelow(xs: seq<real>, t: real)
    requires xs != []
    requires forall i :: 0 <= i < |xs| ==> xs[i] < t
    ensures SumReals(xs) < (|xs| as real) * t
  {
    var init := xs[..|xs| - 1];
    if init != [] {
      assert forall i :: 0 <= i < |init| ==> init[i] == xs[i];
      SumRealsBelow(init, t);
      assert (|xs| as real) * t == (|init| as real) * t + t;
    }
  }

  lemma MeanAtLeast(sum: real, n: real, t: real)
    requires n > 0.0 && sum >= n * t
    ensures sum / n >= t
  {
  }

  lemma MeanBelow(sum: real, n: real, t: real)
    requires n > 0.0 && sum < n * t
    ensures sum / n < t
  {
  }

  /** A non-empty batch of successes each at least as confident as the threshold is accepted. */
  lemma ConfidentBatchAccepted(scans: seq<ScanRequest>, threshold: real)
    requires scans != [] && AllHealthy(scans)
    requires forall i :: 0 <= i < |scans| ==> scans[i].confidence >= threshold
    ensures ProductHealthy(scans, threshold)
  {
    var xs := Healths(scans);
    forall i | 0 <= i < |xs|
      ensures xs[i] >= threshold
    {
      assert ScanIsHealthy(scans[i]);
    }
    SumRealsAtLeast(xs, threshold);
    MeanAtLeast(SumReals(xs), |scans| as real, threshold);
  }

  /** A non-empty batch whose every signed confidence is below the threshold is rejected. */
  lemma UnconfidentBatchRejected(scans: seq<ScanRequest>, threshold: real)
    requires scans != []
    requires forall i :: 0 <= i < |scans| ==> Health(scans[i]) < threshold
    ensures !ProductHealthy(scans, threshold)
  {
    SumRealsBelow(Healths(scans), threshold);
    MeanBelow(SumReals(Healths(scans)), |scans| as real, threshold);
  }

  /** One scan whose result is not "Healthy" rejects the batch at every threshold. */
  lemma FailedScanRejects(scans: seq<ScanRequest>, k: nat, threshold: real)
    requires k < |scans| && ResultField(scans[k].productResult) != "Healthy"
    ensures !ProductHealthy(scans, threshold)
  {
  }

  /** The empty batch passes the success test vacuously, so it is accepted iff the threshold is at most 0. */
  lemma EmptyBatchVerdict(threshold: real)
    ensures ProductHealthy([], threshold) <==> threshold <= 0.0
  {
  }

  /**
   * The two tag readers disagree on a tag without '_': parse_class_string
   * calls it healthy, the batch verdict counts it as a failure.
   */
  lemma LabelReadersDisagree(tag: string)
    requires '_' !in tag
    ensures ParseClassString(tag).1
    ensures !ScanIsHealthy(ScanRequest(tag, 0.0, 0.0, 0.0))
  {
  }

  // ------------------------------------------------------- top detection

  /** One detection of the network: class name, score in [0, 1] and box corners. */
  datatype Detection = Detection(className: string, score: real, xMin: real, yMin: real, xMax: real, yMax: real)

  /** A detection's confidence in percent. */
  function Confidence(d: Detection): real { d.score * 100.0 }

  /**
   * The detection the frame loop keeps: the first one whose confidence is
   * strictly above every earlier one and above the starting mark -1.
   */
  function TopIndex(boxes: seq<Detection>): (k: Option<nat>)
    ensures k.None? ==> forall j :: 0 <= j < |boxes| ==> Confidence(boxes[j]) <= -1.0
    ensures k.Some? ==> k.value < |boxes| && Confidence(boxes[k.value]) > -1.0
    ensures k.Some? ==> forall j :: 0 <= j < |boxes| ==> Confidence(boxes[j]) <= Confidence(boxes[k.value])
    ensures k.Some? ==> forall j :: 0 <= j < k.value ==> Confidence(boxes[j]) < Confidence(boxes[k.value])
  {
    if boxes == [] then None
    else
      var init := boxes[..|boxes| - 1];
      var last := |boxes| - 1;
      var k := TopIndex(init);
      assert forall j :: 0 <= j < |init| ==> init[j] == boxes[j];
      var best := if k.None? then -1.0 else Confidence(init[k.value]);
      if Confidence(boxes[last]) > best then Some(last) else k
  }

  /** The scan a frame's detections produce: top class, confidence, and y/x of its box's far corner. */
  function TopScan(boxes: seq<Detection>): ScanRequest
  {
    match TopIndex(boxes)
    case None => ScanRequest("", -1.0, 0.0, 0.0)
    case Some(k) => ScanRequest(boxes[k].className, Confidence(boxes[k]), boxes[k].yMax, boxes[k].xMax)
  }

  /**
   * The frame loop over the detections: a running maximum that starts at -1
   * and moves on a strictly greater confidence. The scan is built with the
   * box's y_max in the x place and x_max in the y place, as the source does.
   */
  method SelectTop(boxes: seq<Detection>) returns (scan: ScanRequest)
    ensures scan == TopScan(boxes)
  {
    var maxClassName := "";
    var max := -1.0;
    var maxX := 0.0;
    var maxY := 0.0;
    ghost var k: Option<nat> := None;
    var j := 0;
    while j < |boxes|
      invariant 0 <= j <= |boxes|
      invariant k == TopIndex(boxes[..j])
      invariant k.None? ==> maxClassName == "" && max == -1.0 && maxX == 0.0 && maxY == 0.0
      invariant k.Some? ==> (k.value < j && maxClassName == boxes[k.value].className
        && max == Confidence(boxes[k.value]) && maxX == boxes[k.value].xMax && maxY == boxes[k.value].yMax)
    {
      var confidence := boxes[j].score * 100.0;
      assert boxes[..j + 1][..j] == boxes[..j];
      if confidence > max {
        max := confidence;
        maxClassName := boxes[j].className;
        maxX := boxes[j].xMax;
        maxY := boxes[j].yMax;
        k := Some(j);
      }
      j := j + 1;
    }
    assert boxes[..j] == boxes;
    scan := ScanRequest(maxClassName, max, maxY, maxX);
  }

  // ------------------------------------------------------------- engine

  /**
   * The post-process state: the scans of the current product, the camera
   * count a batch needs, the health threshold, and what left the engine —
   * the batches posted to the backend and the servo angles commanded.
   */
  class DecisionEngine {
    var scans: seq<ScanRequest>
    var numCamera: int
    var threshold: real
    var postedBatches: seq<seq<ScanRequest>>
    var servoAngles: seq<int>

    /** A batch is never left full: it is judged and cleared as soon as it reaches the camera count. */
    predicate Valid()
      reads this
    {
      numCamera >= 1 ==> |scans| < numCamera
    }

    constructor (numCamera: int)
      ensures scans == [] && this.numCamera == numCamera && threshold == DefaultThreshold
      ensures postedBatches == [] && servoAngles == []
      ensures Valid()
    {
      scans := [];
      this.numCamera := numCamera;
      threshold := DefaultThreshold;
      postedBatches := [];
      servoAngles := [];
    }

    /**
     * One frame's inference output. A frame without detections adds nothing.
     * Otherwise its top scan joins the batch; a batch that reaches the camera
     * count is posted, judged, answered with the accept or reject angle, and
     * cleared. The returned object_info carries the parsed top tag.
     */
    method OnInference(boxes: seq<Detection>) returns (info: ObjectInfo)
      modifies this
      ensures old(Valid()) ==> Valid()
      ensures !old(Valid()) ==> !Valid() && postedBatches == old(postedBatches) && servoAngles == old(servoAngles)
      ensures numCamera == old(numCamera) && threshold == old(threshold)
      ensures boxes == [] ==> scans == old(scans) && postedBatches == old(postedBatches) && servoAngles == old(servoAngles)
      ensures boxes != [] && |old(scans)| + 1 != numCamera ==>
        scans == old(scans) + [TopScan(boxes)] && postedBatches == old(postedBatches) && servoAngles == old(servoAngles)
      ensures boxes != [] && |old(scans)| + 1 == numCamera ==>
        var batch := old(scans) + [TopScan(boxes)];
        scans == [] && postedBatches == old(postedBatches) + [batch]
        && servoAngles == old(servoAngles) + [if ProductHealthy(batch, threshold) then AcceptAngle else RejectAngle]
      ensures fresh(info)
      ensures (info.className, info.isHealthy) == ParseClassString(TopScan(boxes).productResult)
      ensures info.confidence == TopScan(boxes).confidence && info.x == 0.0 && info.y == 0.0
    {
      var top := SelectTop(boxes);
      if boxes != [] {
        scans := scans + [top];
        if |scans| == numCamera {
          postedBatches := postedBatches + [scans];
          var shouldDoorOpen := IsProductHealthy(scans, threshold);
          if shouldDoorOpen {
            servoAngles := servoAngles + [AcceptAngle];
          } else {
            servoAngles := servoAngles + [RejectAngle];
          }
          scans := [];
        }
      }
      var parsed := ParseClassString(top.productResult);
      info := new ObjectInfo(parsed.0, top.confidence, 0.0, 0.0, parsed.1);
    }

    /** The /threshold endpoint's effect: later batches are judged against the new value. */
    method SetThreshold(t: real)
      modifies this
      ensures threshold == t
      ensures scans == old(scans) && numCamera == old(numCamera)
      ensures postedBatches == old(postedBatches) && servoAngles == old(servoAngles)
    {
      threshold := t;
    }

    /**
     * A camera that fails to open lowers the count a batch needs. The count
     * is lowered without a look at the pending batch: when that batch already
     * holds as many scans as the new count, it stays full, and the equality
     * test of OnInference never fires for it again.
     */
    method CameraLost()
      modifies this
      ensures numCamera == old(numCamera) - 1
      ensures old(Valid()) && (old(numCamera) <= 1 || |old(scans)| + 1 < old(numCamera)) ==> Valid()
      ensures old(numCamera) >= 2 && |old(scans)| + 1 == old(numCamera) ==> !Valid()
      ensures scans == old(scans) && threshold == old(threshold)
      ensures postedBatches == old(postedBatches) && servoAngles == old(servoAngles)
    {
      numCamera := numCamera - 1;
    }
  }

  /** A frame without detections yields an object_info for an empty, healthy tag. */
  lemma EmptyFrameInfo()
    ensures TopScan([]) == ScanRequest("", -1.0, 0.0, 0.0)
    ensures ParseClassString(TopScan([]).productResult) == ("", true)
  {
  }
}
