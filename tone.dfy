/**
 * The pixel tests of the detector on 8-bit BGR frames: the reference tone
 * taken from the centre window, the whitening of pixels of that tone, and
 * the comparison of two frames (how many pixels changed and where their
 * centroid lies). Ratios divide by max(value, 1e-6), as the source does.
 */
module Tone {
  import opened Geometry

  type Channel = x: int | 0 <= x < 256

  /** One pixel in OpenCV's channel order. */
  datatype Pixel = Pixel(b: Channel, g: Channel, r: Channel)

  /** A colour in R, G, B order, as meanCenterRGB returns it. */
  datatype Rgb = Rgb(r: real, g: real, b: real)

  /** The tolerances as fractions: luminance, then one per channel. */
  datatype Tolerance = Tolerance(lumin: real, r: real, g: real, b: real)

  /** Per-channel ratios against a reference. */
  datatype Ratios = Ratios(b: real, g: real, r: real)

  /** A point of the frame; (-1, -1) says that nothing was found. */
  datatype Point = Point(x: real, y: real)

  const White := Pixel(255, 255, 255)
  const NotFound := Point(-1.0, -1.0)
  const Eps: real := 0.000001

  /** The constants the detector passes: 60 % luminance and 7 % per channel for whitening. */
  const WhitenTolerance := Percent(60.0, 7.0, 7.0, 7.0)
  /** diffCentroidTol's default tolerances: 10 % luminance and 5 % per channel. */
  const DiffTolerance := Percent(10.0, 5.0, 5.0, 5.0)

  /** Tolerances given in percent, as the source's parameters are. */
  function Percent(lumin: real, r: real, g: real, b: real): Tolerance
  {
    Tolerance(lumin / 100.0, r / 100.0, g / 100.0, b / 100.0)
  }

  /** std::max(v, eps). */
  function Guard(v: real): (m: real)
    ensures m >= Eps && (m == v || m == Eps)
  {
    if v < Eps then Eps else v
  }

  function Average(q: Ratios): real { (q.b + q.g + q.r) / 3.0 }

  /** The luminance test and the three colour tests, all within tolerance. */
  predicate SameTone(q: Ratios, t: Tolerance)
  {
    var avg := Average(q);
    Abs(avg - 1.0) <= t.lumin && Abs(q.b - avg) <= t.b && Abs(q.g - avg) <= t.g && Abs(q.r - avg) <= t.r
  }

  // ------------------------------------------------------------ whitening

  function ToneRatios(p: Pixel, mean: Rgb): Ratios
  {
    Ratios(p.b as real / Guard(mean.b), p.g as real / Guard(mean.g), p.r as real / Guard(mean.r))
  }

  /** What whiteOutSameTone writes for one pixel. */
  function Whiten(p: Pixel, mean: Rgb, t: Tolerance): Pixel
  {
    if SameTone(ToneRatios(p, mean), t) then White else p
  }

  /** A pixel comes out white or unchanged, and it is white whenever it has the reference tone. */
  lemma WhitenWhiteOrSame(p: Pixel, mean: Rgb, t: Tolerance)
    ensures Whiten(p, mean, t) == White || Whiten(p, mean, t) == p
    ensures SameTone(ToneRatios(p, mean), t) ==> Whiten(p, mean, t) == White
    ensures Whiten(p, mean, t) != p ==> SameTone(ToneRatios(p, mean), t)
  {
  }

  /** A channel over itself: 1, except a zero channel, which is 0 over 1e-6. */
  lemma SelfRatio(v: Channel)
    ensures v as real / Guard(v as real) == if v == 0 then 0.0 else 1.0
  {
    if v > 0 {
      assert Guard(v as real) == v as real;
    }
  }

  /** A pixel of exactly the reference colour, no channel zero, is whitened under any tolerances. */
  lemma ReferenceColourWhitened(p: Pixel, t: Tolerance)
    requires p.b > 0 && p.g > 0 && p.r > 0
    requires t.lumin >= 0.0 && t.r >= 0.0 && t.g >= 0.0 && t.b >= 0.0
    ensures Whiten(p, Rgb(p.r as real, p.g as real, p.b as real), t) == White
  {
    SelfRatio(p.b);
    SelfRatio(p.g);
    SelfRatio(p.r);
  }

  /**
   * whiteOutSameTone: a copy of the frame in which each pixel of the
   * reference tone is painted white.
   */
  method WhiteOutSameTone(frame: array2<Pixel>, mean: Rgb, t: Tolerance) returns (out: array2<Pixel>)
    requires frame.Length0 > 0 && frame.Length1 > 0
    ensures fresh(out)
    ensures out.Length0 == frame.Length0 && out.Length1 == frame.Length1
    ensures forall y, x :: 0 <= y < out.Length0 && 0 <= x < out.Length1 ==> out[y, x] == Whiten(frame[y, x], mean, t)
  {
    out := new Pixel[frame.Length0, frame.Length1]((y, x) reads frame =>
      if 0 <= y < frame.Length0 && 0 <= x < frame.Length1 then frame[y, x] else White);
    var y := 0;
    while y < frame.Length0
      invariant 0 <= y <= frame.Length0
      invariant forall i, j :: 0 <= i < y && 0 <= j < out.Length1 ==> out[i, j] == Whiten(frame[i, j], mean, t)
      invariant forall i, j :: y <= i < out.Length0 && 0 <= j < out.Length1 ==> out[i, j] == frame[i, j]
    {
      var x := 0;
      while x < frame.Length1
        invariant 0 <= x <= frame.Length1
        invariant forall i, j :: 0 <= i < y && 0 <= j < out.Length1 ==> out[i, j] == Whiten(frame[i, j], mean, t)
        invariant forall j :: 0 <= j < x ==> out[y, j] == Whiten(frame[y, j], mean, t)
        invariant forall j :: x <= j < out.Length1 ==> out[y, j] == frame[y, j]
        invariant forall i, j :: y < i < out.Length0 && 0 <= j < out.Length1 ==> out[i, j] == frame[i, j]
      {
        var same := HasSameTone(frame[y, x], mean, t);
        if same {
          out[y, x] := White;
        }
        x := x + 1;
      }
      y := y + 1;
    }
  }

  /**
   * cropBetweenXs on a frame: the frame itself when there is no crop, else a
   * fresh copy of the kept columns over the full height.
   */
  method CropFrame(frame: array2<Pixel>, leftX: int, rightX: int) returns (out: array2<Pixel>)
    requires !CropOf(frame.Length1, leftX, rightX).Invalid?
    ensures CropOf(frame.Length1, leftX, rightX).Uncropped? ==> out == frame
    ensures CropOf(frame.Length1, leftX, rightX).Columns? ==>
      var c := CropOf(frame.Length1, leftX, rightX);
      fresh(out) && out.Length0 == frame.Length0 && out.Length1 == c.last - c.first + 1
      && forall y, x :: 0 <= y < out.Length0 && 0 <= x < out.Length1 ==> out[y, x] == frame[y, c.first + x]
  {
    match CropOf(frame.Length1, leftX, rightX)
    case Uncropped =>
      out := frame;
    case Columns(first, last) =>
      out := new Pixel[frame.Length0, last - first + 1]((y, x) reads frame =>
        if 0 <= y < frame.Length0 && 0 <= x && first + x < frame.Length1 then frame[y, first + x] else White);
  }

  /** The test whiteOutSameTone makes for one pixel: its ratios to the mean are of the reference tone. */
  method HasSameTone(p: Pixel, mean: Rgb, t: Tolerance) returns (same: bool)
    ensures same == SameTone(ToneRatios(p, mean), t)
  {
    var q := Ratios(p.b as real / Guard(mean.b), p.g as real / Guard(mean.g), p.r as real / Guard(mean.r));
    var avg := (q.b + q.g + q.r) / 3.0;
    var okLumin := Abs(avg - 1.0) <= t.lumin;
    var okColor := Abs(q.b - avg) <= t.b && Abs(q.g - avg) <= t.g && Abs(q.r - avg) <= t.r;
    same := okLumin && okColor;
  }

  // ------------------------------------------------------------ differences

  /** Second frame over first, channel by channel. */
  function PixelRatios(p1: Pixel, p2: Pixel): Ratios
  {
    Ratios(p2.b as real / Guard(p1.b as real), p2.g as real / Guard(p1.g as real), p2.r as real / Guard(p1.r as real))
  }

  /** A pixel counts as changed unless it passes both tone tests. */
  predicate Changed(p1: Pixel, p2: Pixel, t: Tolerance)
  {
    !SameTone(PixelRatios(p1, p2), t)
  }

  predicate HasZeroChannel(p: Pixel) { p.b == 0 || p.g == 0 || p.r == 0 }

  /**
   * Because a zero channel is divided by 1e-6 rather than by itself, a
   * pixel compared with itself is "changed" exactly when it has a zero
   * channel (at the default 10 % / 5 % tolerances).
   */
  lemma SelfCompareChangedIffZeroChannel(p: Pixel)
    ensures Changed(p, p, DiffTolerance) <==> HasZeroChannel(p)
  {
    SelfRatio(p.b);
    SelfRatio(p.g);
    SelfRatio(p.r);
  }

  predicate SameSize(f1: array2<Pixel>, f2: array2<Pixel>)
    reads {}
  {
    f1.Length0 == f2.Length0 && f1.Length1 == f2.Length1
  }

  predicate ChangedAt(f1: array2<Pixel>, f2: array2<Pixel>, t: Tolerance, y: nat, x: nat)
    requires SameSize(f1, f2) && y < f1.Length0 && x < f1.Length1
    reads f1, f2
  {
    Changed(f1[y, x], f2[y, x], t)
  }

  /** Changed pixels among the first n of row y. */
  function RowCount(f1: array2<Pixel>, f2: array2<Pixel>, t: Tolerance, y: nat, n: nat): (c: nat)
    requires SameSize(f1, f2) && y < f1.Length0 && n <= f1.Length1
    reads f1, f2
    ensures c <= n
  {
    if n == 0 then 0 else RowCount(f1, f2, t, y, n - 1) + (if ChangedAt(f1, f2, t, y, n - 1) then 1 else 0)
  }

  /** The sum of the x of those pixels. */
  function RowSumX(f1: array2<Pixel>, f2: array2<Pixel>, t: Tolerance, y: nat, n: nat): nat
    requires SameSize(f1, f2) && y < f1.Length0 && n <= f1.Length1
    reads f1, f2
  {
    if n == 0 then 0 else RowSumX(f1, f2, t, y, n - 1) + (if ChangedAt(f1, f2, t, y, n - 1) then n - 1 else 0)
  }

  /** Changed pixels in the first m rows. */
  function Count(f1: array2<Pixel>, f2: array2<Pixel>, t: Tolerance, m: nat): nat
    requires SameSize(f1, f2) && m <= f1.Length0
    reads f1, f2
  {
    if m == 0 then 0 else Count(f1, f2, t, m - 1) + RowCount(f1, f2, t, m - 1, f1.Length1)
  }

  function SumX(f1: array2<Pixel>, f2: array2<Pixel>, t: Tolerance, m: nat): nat
    requires SameSize(f1, f2) && m <= f1.Length0
    reads f1, f2
  {
    if m == 0 then 0 else SumX(f1, f2, t, m - 1) + RowSumX(f1, f2, t, m - 1, f1.Length1)
  }

  function SumY(f1: array2<Pixel>, f2: array2<Pixel>, t: Tolerance, m: nat): nat
    requires SameSize(f1, f2) && m <= f1.Length0
    reads f1, f2
  {
    if m == 0 then 0
    else
      var y: nat := m - 1;
      var c := RowCount(f1, f2, t, y, f1.Length1);
      ProductNat(y, c);
      SumY(f1, f2, t, y) + y * c
  }

  lemma ProductNat(a: nat, b: nat)
    ensures a * b >= 0
  {
  }

  /** The share of changed pixels in percent. */
  function ChangedPercent(f1: array2<Pixel>, f2: array2<Pixel>, t: Tolerance): real
    requires SameSize(f1, f2) && f1.Length0 > 0 && f1.Length1 > 0
    reads f1, f2
  {
    (Count(f1, f2, t, f1.Length0) as real / (f1.Length0 * f1.Length1) as real) * 100.0
  }

  predicate Comparable(f1: array2<Pixel>, f2: array2<Pixel>)
    reads {}
  {
    f1.Length0 > 0 && f1.Length1 > 0 && SameSize(f1, f2)
  }

  /** framesDifferAboveTol, stated on the counts. */
  predicate FramesDiffer(f1: array2<Pixel>, f2: array2<Pixel>, threshold: real, t: Tolerance)
    reads f1, f2
  {
    Comparable(f1, f2) && ChangedPercent(f1, f2, t) > threshold
  }

  /** diffCentroidTol, stated on the counts. */
  function DiffCentroid(f1: array2<Pixel>, f2: array2<Pixel>, threshold: real, t: Tolerance): Point
    reads f1, f2
  {
    if !Comparable(f1, f2) then NotFound
    else
      var c := Count(f1, f2, t, f1.Length0);
      if c == 0 || ChangedPercent(f1, f2, t) <= threshold then NotFound
      else Point(SumX(f1, f2, t, f1.Length0) as real / c as real, SumY(f1, f2, t, f1.Length0) as real / c as real)
  }

  /**
   * Frames of different widths are never compared: camera 2's first
   * whitened frame, taken over the whole width, against the cropped
   * background, finds nothing.
   */
  lemma WidthMismatchFindsNothing(f1: array2<Pixel>, f2: array2<Pixel>, threshold: real, t: Tolerance)
    requires f1.Length1 != f2.Length1
    ensures DiffCentroid(f1, f2, threshold, t) == NotFound
  {
  }

  /** Counting one more pixel of a row. */
  method CountPixel(f1: array2<Pixel>, f2: array2<Pixel>, t: Tolerance, y: nat, x: nat) returns (changed: bool)
    requires SameSize(f1, f2) && y < f1.Length0 && x < f1.Length1
    ensures changed == ChangedAt(f1, f2, t, y, x)
  {
    var p1, p2 := f1[y, x], f2[y, x];
    var q := Ratios(p2.b as real / Guard(p1.b as real), p2.g as real / Guard(p1.g as real), p2.r as real / Guard(p1.r as real));
    var avg := (q.b + q.g + q.r) / 3.0;
    var okLumin := Abs(avg - 1.0) <= t.lumin;
    var okColor := Abs(q.b - avg) <= t.b && Abs(q.g - avg) <= t.g && Abs(q.r - avg) <= t.r;
    changed := !(okLumin && okColor);
  }

  /** One row of the scan: its changed pixels and the sums of their x and their y. */
  method ScanRow(f1: array2<Pixel>, f2: array2<Pixel>, t: Tolerance, y: nat) returns (count: nat, sumX: nat, sumY: nat)
    requires SameSize(f1, f2) && y < f1.Length0
    ensures count == RowCount(f1, f2, t, y, f1.Length1)
    ensures sumX == RowSumX(f1, f2, t, y, f1.Length1)
    ensures sumY == y * count
  {
    count, sumX, sumY := 0, 0, 0;
    var x := 0;
    while x < f1.Length1
      invariant 0 <= x <= f1.Length1
      invariant count == RowCount(f1, f2, t, y, x)
      invariant sumX == RowSumX(f1, f2, t, y, x)
      invariant sumY == y * count
    {
      var c := CountPixel(f1, f2, t, y, x);
      if c {
        MulSucc(y, count);
        count := count + 1;
        sumX := sumX + x;
        sumY := sumY + y;
      }
      x := x + 1;
    }
  }

  lemma MulSucc(a: nat, b: nat)
    ensures a * (b + 1) == a * b + a
  {
  }

  /** The row loop of diffCentroidTol: the changed pixels of the whole frame and the sums of their coordinates. */
  method ScanFrames(f1: array2<Pixel>, f2: array2<Pixel>, t: Tolerance) returns (changed: nat, sumX: nat, sumY: nat)
    requires SameSize(f1, f2)
    ensures changed == Count(f1, f2, t, f1.Length0)
    ensures sumX == SumX(f1, f2, t, f1.Length0) && sumY == SumY(f1, f2, t, f1.Length0)
  {
    changed, sumX, sumY := 0, 0, 0;
    var y := 0;
    while y < f1.Length0
      invariant 0 <= y <= f1.Length0
      invariant changed == Count(f1, f2, t, y)
      invariant sumX == SumX(f1, f2, t, y) && sumY == SumY(f1, f2, t, y)
    {
      var c, sx, sy := ScanRow(f1, f2, t, y);
      FrameTotalsStep(f1, f2, t, y, c, sx, sy);
      changed, sumX, sumY := changed + c, sumX + sx, sumY + sy;
      y := y + 1;
    }
  }

  /** The whole-frame totals over one more row add that row's totals. */
  lemma FrameTotalsStep(f1: array2<Pixel>, f2: array2<Pixel>, t: Tolerance, y: nat, c: nat, sx: nat, sy: nat)
    requires SameSize(f1, f2) && y < f1.Length0
    requires c == RowCount(f1, f2, t, y, f1.Length1) && sx == RowSumX(f1, f2, t, y, f1.Length1) && sy == y * c
    ensures Count(f1, f2, t, y + 1) == Count(f1, f2, t, y) + c
    ensures SumX(f1, f2, t, y + 1) == SumX(f1, f2, t, y) + sx
    ensures SumY(f1, f2, t, y + 1) == SumY(f1, f2, t, y) + sy
  {
  }

  /** The row loop of framesDifferAboveTol: the changed pixels of the whole frame. */
  method CountFrames(f1: array2<Pixel>, f2: array2<Pixel>, t: Tolerance) returns (changed: nat)
    requires SameSize(f1, f2)
    ensures changed == Count(f1, f2, t, f1.Length0)
  {
    changed := 0;
    var y := 0;
    while y < f1.Length0
      invariant 0 <= y <= f1.Length0
      invariant changed == Count(f1, f2, t, y)
    {
      var c, _, _ := ScanRow(f1, f2, t, y);
      changed := changed + c;
      y := y + 1;
    }
  }

  lemma AreaPositive(h: int, w: int)
    requires h > 0 && w > 0
    ensures h * w > 0
  {
  }

  /**
   * diffCentroidTol: NotFound for empty or differently sized frames, when
   * no pixel changed, or when the changed share is at most the threshold;
   * otherwise the mean position of the changed pixels.
   */
  method DiffCentroidTol(f1: array2<Pixel>, f2: array2<Pixel>, threshold: real, t: Tolerance) returns (p: Point)
    ensures p == DiffCentroid(f1, f2, threshold, t)
  {
    if f1.Length0 == 0 || f1.Length1 == 0 || f2.Length0 == 0 || f2.Length1 == 0 {
      return NotFound;
    }
    if !SameSize(f1, f2) {
      return NotFound;
    }
    var changed, sumX, sumY := ScanFrames(f1, f2, t);
    if changed == 0 {
      return NotFound;
    }
    AreaPositive(f1.Length0, f1.Length1);
    var diffPercent := (changed as real / (f1.Length0 * f1.Length1) as real) * 100.0;
    assert diffPercent == ChangedPercent(f1, f2, t);
    if diffPercent <= threshold {
      return NotFound;
    }
    p := Point(sumX as real / changed as real, sumY as real / changed as real);
  }

  /** framesDifferAboveTol: false for empty or differently sized frames, else whether the changed share exceeds the threshold. */
  method FramesDifferAboveTol(f1: array2<Pixel>, f2: array2<Pixel>, threshold: real, t: Tolerance) returns (differ: bool)
    ensures differ == FramesDiffer(f1, f2, threshold, t)
  {
    if f1.Length0 == 0 || f1.Length1 == 0 || f2.Length0 == 0 || f2.Length1 == 0 {
      return false;
    }
    if !SameSize(f1, f2) {
      return false;
    }
    var changed := CountFrames(f1, f2, t);
    AreaPositive(f1.Length0, f1.Length1);
    var diffPercent := (changed as real / (f1.Length0 * f1.Length1) as real) * 100.0;
    assert diffPercent == ChangedPercent(f1, f2, t);
    differ := diffPercent > threshold;
  }

  /** (a + c) * b, for c either 0 or 1, bounds a sum that grew by at most b. */
  lemma StepBound(s: nat, a: nat, d: nat, c: nat, b: nat)
    requires s <= a * b && d <= c * b
    ensures s + d <= (a + c) * b
  {
    assert (a + c) * b == a * b + c * b;
  }

  lemma ScaledBound(i: nat, c: nat, b: nat)
    requires i <= b
    ensures i * c <= c * b
  {
    assert i * c <= b * c;
  }

  lemma {:induction false} RowSumXBound(f1: array2<Pixel>, f2: array2<Pixel>, t: Tolerance, y: nat, n: nat, bound: nat)
    requires SameSize(f1, f2) && y < f1.Length0 && n <= f1.Length1 && n <= bound + 1
    ensures RowSumX(f1, f2, t, y, n) <= RowCount(f1, f2, t, y, n) * bound
  {
    if n > 0 {
      RowSumXBound(f1, f2, t, y, n - 1, bound);
      var changed := ChangedAt(f1, f2, t, y, n - 1);
      var c: nat := if changed then 1 else 0;
      var d: nat := if changed then n - 1 else 0;
      var sum, prev := RowSumX(f1, f2, t, y, n - 1), RowCount(f1, f2, t, y, n - 1);
      assert sum <= prev * bound;
      assert d <= c * bound;
      StepBound(sum, prev, d, c, bound);
      assert RowSumX(f1, f2, t, y, n) == sum + d && RowCount(f1, f2, t, y, n) == prev + c;
    }
  }

  lemma {:induction false} SumXBound(f1: array2<Pixel>, f2: array2<Pixel>, t: Tolerance, m: nat)
    requires SameSize(f1, f2) && m <= f1.Length0 && f1.Length1 > 0
    ensures SumX(f1, f2, t, m) <= Count(f1, f2, t, m) * (f1.Length1 - 1)
  {
    if m > 0 {
      var b: nat := f1.Length1 - 1;
      SumXBound(f1, f2, t, m - 1);
      var prev, sum := Count(f1, f2, t, m - 1), SumX(f1, f2, t, m - 1);
      var rc, rs := RowCount(f1, f2, t, m - 1, f1.Length1), RowSumX(f1, f2, t, m - 1, f1.Length1);
      assert sum <= prev * b;
      RowSumXBound(f1, f2, t, m - 1, f1.Length1, b);
      assert rs <= rc * b;
      StepBound(sum, prev, rs, rc, b);
      assert SumX(f1, f2, t, m) == sum + rs && Count(f1, f2, t, m) == prev + rc;
    }
  }

  lemma {:induction false} SumYBound(f1: array2<Pixel>, f2: array2<Pixel>, t: Tolerance, m: nat)
    requires SameSize(f1, f2) && m <= f1.Length0
    ensures SumY(f1, f2, t, m) <= Count(f1, f2, t, m) * (f1.Length0 - 1)
  {
    if m > 0 {
      SumYBound(f1, f2, t, m - 1);
      var prev, sum := Count(f1, f2, t, m - 1), SumY(f1, f2, t, m - 1);
      var rc := RowCount(f1, f2, t, m - 1, f1.Length1);
      RowYStep(sum, prev, m - 1, rc, f1.Length0 - 1);
    }
  }

  /** Adding row i's rc pixels at height i <= b keeps the sum of heights within b per pixel. */
  lemma RowYStep(sum: nat, prev: nat, i: nat, rc: nat, b: nat)
    requires sum <= prev * b && i <= b
    ensures sum + i * rc <= (prev + rc) * b
  {
    ScaledBound(i, rc, b);
    StepBound(sum, prev, i * rc, rc, b);
  }

  /** The centroid, when there is one, lies inside the frame. */
  lemma CentroidInsideFrame(f1: array2<Pixel>, f2: array2<Pixel>, threshold: real, t: Tolerance)
    ensures var p := DiffCentroid(f1, f2, threshold, t);
      p == NotFound || (0.0 <= p.x <= (f1.Length1 - 1) as real && 0.0 <= p.y <= (f1.Length0 - 1) as real)
  {
    if Comparable(f1, f2) {
      var c := Count(f1, f2, t, f1.Length0);
      if c > 0 {
        SumXBound(f1, f2, t, f1.Length0);
        SumYBound(f1, f2, t, f1.Length0);
        QuotientBound(SumX(f1, f2, t, f1.Length0), c, f1.Length1 - 1);
        QuotientBound(SumY(f1, f2, t, f1.Length0), c, f1.Length0 - 1);
      }
    }
  }

  lemma QuotientBound(s: nat, c: nat, b: nat)
    requires c > 0 && s <= c * b
    ensures 0.0 <= s as real / c as real <= b as real
  {
    assert (s as real) <= (c as real) * (b as real);
  }

  /** The two frame comparisons agree: a centroid is reported exactly when the frames differ above the threshold. */
  lemma CentroidIffDiffer(f1: array2<Pixel>, f2: array2<Pixel>, threshold: real, t: Tolerance)
    requires threshold >= 0.0
    ensures DiffCentroid(f1, f2, threshold, t) != NotFound <==> FramesDiffer(f1, f2, threshold, t)
  {
    CentroidInsideFrame(f1, f2, threshold, t);
  }

  // ------------------------------------------------------------- self compare

  lemma {:induction false} RowCountZero(f: array2<Pixel>, y: nat, n: nat)
    requires y < f.Length0 && n <= f.Length1
    requires forall x :: 0 <= x < n ==> !HasZeroChannel(f[y, x])
    ensures RowCount(f, f, DiffTolerance, y, n) == 0
  {
    if n > 0 {
      SelfCompareChangedIffZeroChannel(f[y, n - 1]);
      RowCountZero(f, y, n - 1);
    }
  }

  lemma {:induction false} CountZero(f: array2<Pixel>, m: nat)
    requires m <= f.Length0
    requires forall y, x :: 0 <= y < m && 0 <= x < f.Length1 ==> !HasZeroChannel(f[y, x])
    ensures Count(f, f, DiffTolerance, m) == 0
  {
    if m > 0 {
      RowCountZero(f, m - 1, f.Length1);
      CountZero(f, m - 1);
    }
  }

  /**
   * The first previous_difference of grabLoop compares the whitened
   * background with itself: with no zero channel anywhere it is NotFound,
   * whatever the threshold.
   */
  lemma SelfCompareFindsNothing(f: array2<Pixel>, threshold: real)
    requires forall y, x :: 0 <= y < f.Length0 && 0 <= x < f.Length1 ==> !HasZeroChannel(f[y, x])
    ensures DiffCentroid(f, f, threshold, DiffTolerance) == NotFound
  {
    CountZero(f, f.Length0);
  }

  /** A whitened pixel has no zero channel, so it never counts as changed against itself. */
  lemma WhiteNeverSelfChanged()
    ensures !Changed(White, White, DiffTolerance)
  {
    SelfCompareChangedIffZeroChannel(White);
  }

  // ------------------------------------------------------------ centre mean

  /** Channel k of a pixel: 0 blue, 1 green, 2 red. */
  function Chan(p: Pixel, k: nat): real
  {
    if k == 0 then p.b as real else if k == 1 then p.g as real else p.r as real
  }

  /** The sum of channel k over columns x0 .. x0+n-1 of row y. */
  function RowChanSum(f: array2<Pixel>, k: nat, y: nat, x0: nat, n: nat): real
    requires y < f.Length0 && x0 + n <= f.Length1
    reads f
  {
    if n == 0 then 0.0 else RowChanSum(f, k, y, x0, n - 1) + Chan(f[y, x0 + n - 1], k)
  }

  /** The sum of channel k over the first m rows of the window. */
  function WinChanSum(f: array2<Pixel>, k: nat, w: Window, m: nat): real
    requires 0 <= w.x0 && 0 <= w.y0 && 0 <= w.w && w.x0 + w.w <= f.Length1 && w.y0 + m <= f.Length0
    reads f
  {
    if m == 0 then 0.0 else WinChanSum(f, k, w, m - 1) + RowChanSum(f, k, w.y0 + m - 1, w.x0, w.w)
  }

  /** meanCenterRGB: the mean of each channel over the centre window, returned red first. */
  function MeanCenterRgb(f: array2<Pixel>, winW: int, winH: int): Rgb
    requires f.Length0 > 0 && f.Length1 > 0 && winW > 0 && winH > 0
    reads f
  {
    var w := CenterWindow(f.Length1, f.Length0, winW, winH);
    var area := (w.w * w.h) as real;
    Rgb(WinChanSum(f, 2, w, w.h) / area, WinChanSum(f, 1, w, w.h) / area, WinChanSum(f, 0, w, w.h) / area)
  }

  /** r added n times. */
  function Scaled(n: nat, r: real): real
  {
    if n == 0 then 0.0 else Scaled(n - 1, r) + r
  }

  lemma {:induction false} ScaledIsProduct(n: nat, r: real)
    ensures Scaled(n, r) == n as real * r
  {
    if n > 0 {
      ScaledIsProduct(n - 1, r);
      assert (n - 1) as real * r + r == n as real * r;
    }
  }

  lemma {:induction false} RowChanSumUniform(f: array2<Pixel>, k: nat, y: nat, x0: nat, n: nat, p: Pixel)
    requires y < f.Length0 && x0 + n <= f.Length1
    requires forall x :: x0 <= x < x0 + n ==> f[y, x] == p
    ensures RowChanSum(f, k, y, x0, n) == Scaled(n, Chan(p, k))
  {
    if n > 0 {
      RowChanSumUniform(f, k, y, x0, n - 1, p);
    }
  }

  lemma {:induction false} WinChanSumUniform(f: array2<Pixel>, k: nat, w: Window, m: nat, p: Pixel)
    requires 0 <= w.x0 && 0 <= w.y0 && 0 <= w.w && w.x0 + w.w <= f.Length1 && w.y0 + m <= f.Length0
    requires forall y, x :: w.y0 <= y < w.y0 + m && w.x0 <= x < w.x0 + w.w ==> f[y, x] == p
    ensures WinChanSum(f, k, w, m) == Scaled(m, Scaled(w.w, Chan(p, k)))
  {
    if m > 0 {
      WinChanSumUniform(f, k, w, m - 1, p);
      RowChanSumUniform(f, k, w.y0 + m - 1, w.x0, w.w, p);
    }
  }

  /** h rows of w pixels of value c, divided by the area, give c back. */
  lemma AreaMean(h: nat, w: nat, c: real)
    requires h > 0 && w > 0
    ensures Scaled(h, Scaled(w, c)) / (w * h) as real == c
  {
    var inner := Scaled(w, c);
    var total := Scaled(h, inner);
    ScaledIsProduct(w, c);
    ScaledIsProduct(h, inner);
    MeanOfProduct(h, w, c, inner, total);
  }

  lemma MeanOfProduct(h: nat, w: nat, c: real, inner: real, total: real)
    requires h > 0 && w > 0 && inner == w as real * c && total == h as real * inner
    ensures total / (w * h) as real == c
  {
    AreaPositive(h, w);
    AreaProduct(h, w, c, inner);
    DivCancel(total, (w * h) as real, c);
  }

  lemma AreaProduct(h: nat, w: nat, c: real, inner: real)
    requires inner == w as real * c
    ensures h as real * inner == (w * h) as real * c
  {
    assert (w * h) as real == w as real * h as real;
  }

  lemma DivCancel(total: real, a: real, c: real)
    requires a != 0.0 && total == a * c
    ensures total / a == c
  {
  }

  /** One channel of the centre mean of a uniform frame. */
  lemma UniformChannelMean(f: array2<Pixel>, w: Window, p: Pixel, k: nat)
    requires 0 <= w.x0 && 0 <= w.y0 && 0 < w.w && 0 < w.h && w.x0 + w.w <= f.Length1 && w.y0 + w.h <= f.Length0
    requires forall y, x :: w.y0 <= y < w.y0 + w.h && w.x0 <= x < w.x0 + w.w ==> f[y, x] == p
    ensures WinChanSum(f, k, w, w.h) / (w.w * w.h) as real == Chan(p, k)
  {
    WinChanSumUniform(f, k, w, w.h, p);
    AreaMean(w.h, w.w, Chan(p, k));
  }

  /** A uniform frame's centre mean is its colour, red first. */
  lemma UniformMean(f: array2<Pixel>, winW: int, winH: int, p: Pixel)
    requires f.Length0 > 0 && f.Length1 > 0 && winW > 0 && winH > 0
    requires forall y, x :: 0 <= y < f.Length0 && 0 <= x < f.Length1 ==> f[y, x] == p
    ensures MeanCenterRgb(f, winW, winH) == Rgb(p.r as real, p.g as real, p.b as real)
  {
    var w := CenterWindow(f.Length1, f.Length0, winW, winH);
    UniformChannelMean(f, w, p, 0);
    UniformChannelMean(f, w, p, 1);
    UniformChannelMean(f, w, p, 2);
  }

  /** A uniform background with no zero channel is whitened everywhere by its own centre mean. */
  lemma UniformBackgroundTurnsWhite(f: array2<Pixel>, p: Pixel, y: nat, x: nat)
    requires f.Length0 > 0 && f.Length1 > 0
    requires forall i, j :: 0 <= i < f.Length0 && 0 <= j < f.Length1 ==> f[i, j] == p
    requires !HasZeroChannel(p) && y < f.Length0 && x < f.Length1
    ensures Whiten(f[y, x], MeanCenterRgb(f, 10, 10), WhitenTolerance) == White
  {
    UniformMean(f, 10, 10, p);
    ReferenceColourWhitened(p, WhitenTolerance);
  }
}
