/**
 * The geometry the detector computes once per camera from its background
 * frame: the vertical belt edges nearest the centre (from the Hough line
 * segments, given here as input), the crop between them, and the centre
 * window whose mean colour is the reference tone.
 */
module Geometry {
  import opened Wrappers

  /** A Hough segment from (x1, y1) to (x2, y2). */
  datatype Segment = Segment(x1: int, y1: int, x2: int, y2: int)

  /** A group of near-vertical segments: the sum of their mid x and how many there are. */
  datatype Group = Group(xSum: real, cnt: nat)

  const DefaultSlopeTol: real := 0.5
  const DefaultMergeTol: real := 15.0
  /** The edges grabLoop uses when no vertical line is found on either side. */
  const FallbackLeft := 0
  const FallbackRight := 640

  function Abs(r: real): real { if r < 0.0 then -r else r }
  function IntAbs(i: int): int { if i < 0 then -i else i }

  /** std::round: to the nearest integer, halves away from zero. */
  function Round(x: real): (r: int)
    ensures x >= 0.0 ==> r >= 0 && Abs(r as real - x) <= 0.5
    ensures x < 0.0 ==> r <= 0 && Abs(r as real - x) <= 0.5
  {
    if x >= 0.0 then (x + 0.5).Floor else -((-x + 0.5).Floor)
  }

  /** A segment is kept when |dx| <= slopeTol * |dy|. */
  predicate NearVertical(s: Segment, slopeTol: real)
  {
    IntAbs(s.x2 - s.x1) as real <= slopeTol * IntAbs(s.y2 - s.y1) as real
  }

  function XMid(s: Segment): real { 0.5 * (s.x1 + s.x2) as real }

  function Mean(g: Group): real
    requires g.cnt > 0
  {
    g.xSum / g.cnt as real
  }

  predicate AllCounted(groups: seq<Group>) { forall i :: 0 <= i < |groups| ==> groups[i].cnt > 0 }

  predicate Joins(g: Group, xMid: real, mergeTol: real)
    requires g.cnt > 0
  {
    Abs(xMid - Mean(g)) <= mergeTol
  }

  /** The first group whose running mean is within mergeTol of xMid. */
  function FirstMatch(groups: seq<Group>, xMid: real, mergeTol: real): (r: Option<nat>)
    requires AllCounted(groups)
    ensures r.Some? ==> r.value < |groups| && Joins(groups[r.value], xMid, mergeTol)
    ensures r.Some? ==> forall k :: 0 <= k < r.value ==> !Joins(groups[k], xMid, mergeTol)
    ensures r.None? ==> forall k :: 0 <= k < |groups| ==> !Joins(groups[k], xMid, mergeTol)
  {
    if groups == [] then None
    else if Joins(groups[0], xMid, mergeTol) then Some(0)
    else match FirstMatch(groups[1..], xMid, mergeTol)
      case None => None
      case Some(k) => Some(k + 1)
  }

  /** One kept segment joins the first matching group, or starts a group of its own at the end. */
  function Absorb(groups: seq<Group>, xMid: real, mergeTol: real): (r: seq<Group>)
    requires AllCounted(groups)
    ensures AllCounted(r)
  {
    match FirstMatch(groups, xMid, mergeTol)
    case Some(j) => groups[j := Group(groups[j].xSum + xMid, groups[j].cnt + 1)]
    case None => groups + [Group(xMid, 1)]
  }

  /** The groups after the given segments, in order. */
  function Grouped(segs: seq<Segment>, slopeTol: real, mergeTol: real): (r: seq<Group>)
    ensures AllCounted(r)
  {
    if segs == [] then []
    else
      var before := Grouped(segs[..|segs| - 1], slopeTol, mergeTol);
      var s := segs[|segs| - 1];
      if NearVertical(s, slopeTol) then Absorb(before, XMid(s), mergeTol) else before
  }

  function KeptCount(segs: seq<Segment>, slopeTol: real): nat
  {
    if segs == [] then 0
    else KeptCount(segs[..|segs| - 1], slopeTol) + (if NearVertical(segs[|segs| - 1], slopeTol) then 1 else 0)
  }

  function KeptMidSum(segs: seq<Segment>, slopeTol: real): real
  {
    if segs == [] then 0.0
    else KeptMidSum(segs[..|segs| - 1], slopeTol) + (if NearVertical(segs[|segs| - 1], slopeTol) then XMid(segs[|segs| - 1]) else 0.0)
  }

  function TotalCount(groups: seq<Group>): nat
  {
    if groups == [] then 0 else TotalCount(groups[..|groups| - 1]) + groups[|groups| - 1].cnt
  }

  function TotalSum(groups: seq<Group>): real
  {
    if groups == [] then 0.0 else TotalSum(groups[..|groups| - 1]) + groups[|groups| - 1].xSum
  }

  lemma {:induction false} TotalsAppend(groups: seq<Group>, g: Group)
    ensures TotalCount(groups + [g]) == TotalCount(groups) + g.cnt
    ensures TotalSum(groups + [g]) == TotalSum(groups) + g.xSum
  {
    assert (groups + [g])[..|groups|] == groups;
  }

  lemma {:induction false} TotalsUpdate(groups: seq<Group>, j: nat, g: Group)
    requires j < |groups|
    ensures TotalCount(groups[j := g]) + groups[j].cnt == TotalCount(groups) + g.cnt
    ensures TotalSum(groups[j := g]) + groups[j].xSum == TotalSum(groups) + g.xSum
    decreases |groups|
  {
    var n := |groups|;
    if j == n - 1 {
      assert groups[j := g][..n - 1] == groups[..n - 1];
    } else {
      assert groups[j := g][..n - 1] == groups[..n - 1][j := g];
      TotalsUpdate(groups[..n - 1], j, g);
    }
  }

  /** Absorbing one segment adds one to the total count and its mid x to the total sum. */
  lemma AbsorbTotals(groups: seq<Group>, xMid: real, mergeTol: real)
    requires AllCounted(groups)
    ensures TotalCount(Absorb(groups, xMid, mergeTol)) == TotalCount(groups) + 1
    ensures TotalSum(Absorb(groups, xMid, mergeTol)) == TotalSum(groups) + xMid
  {
    match FirstMatch(groups, xMid, mergeTol)
    case Some(j) =>
      TotalsUpdate(groups, j, Group(groups[j].xSum + xMid, groups[j].cnt + 1));
    case None =>
      TotalsAppend(groups, Group(xMid, 1));
  }

  /** Every kept segment lands in exactly one group: the counts and the mid sums add up. */
  lemma {:induction false} GroupedTotals(segs: seq<Segment>, slopeTol: real, mergeTol: real)
    ensures TotalCount(Grouped(segs, slopeTol, mergeTol)) == KeptCount(segs, slopeTol)
    ensures TotalSum(Grouped(segs, slopeTol, mergeTol)) == KeptMidSum(segs, slopeTol)
  {
    if segs != [] {
      var init := segs[..|segs| - 1];
      GroupedTotals(init, slopeTol, mergeTol);
      if NearVertical(segs[|segs| - 1], slopeTol) {
        AbsorbTotals(Grouped(init, slopeTol, mergeTol), XMid(segs[|segs| - 1]), mergeTol);
      }
    }
  }

  /**
   * The group chosen on the left of cx among the first n, as the loop
   * keeps it: a group replaces the current choice when its mean is below cx
   * and strictly closer to it.
   */
  function NearestLeft(groups: seq<Group>, n: nat, cx: real): (r: Option<nat>)
    requires AllCounted(groups) && n <= |groups|
    ensures r.Some? ==> r.value < n
  {
    if n == 0 then None
    else
      var prev := NearestLeft(groups, n - 1, cx);
      var x := Mean(groups[n - 1]);
      if x < cx && (prev.None? || cx - x < cx - Mean(groups[prev.value])) then Some(n - 1) else prev
  }

  /** The mirror choice on the right of cx. */
  function NearestRight(groups: seq<Group>, n: nat, cx: real): (r: Option<nat>)
    requires AllCounted(groups) && n <= |groups|
    ensures r.Some? ==> r.value < n
  {
    if n == 0 then None
    else
      var prev := NearestRight(groups, n - 1, cx);
      var x := Mean(groups[n - 1]);
      if x > cx && (prev.None? || x - cx < Mean(groups[prev.value]) - cx) then Some(n - 1) else prev
  }

  /**
   * The left choice is the first group of largest mean among those strictly
   * below cx; there is none exactly when no mean is below cx.
   */
  lemma {:induction false} NearestLeftIsNearest(groups: seq<Group>, n: nat, cx: real)
    requires AllCounted(groups) && n <= |groups|
    ensures var r := NearestLeft(groups, n, cx);
      (r.None? <==> forall k :: 0 <= k < n ==> Mean(groups[k]) >= cx)
      && (r.Some? ==>
            Mean(groups[r.value]) < cx
            && (forall k :: 0 <= k < n && Mean(groups[k]) < cx ==> Mean(groups[k]) <= Mean(groups[r.value]))
            && (forall k :: 0 <= k < r.value && Mean(groups[k]) < cx ==> Mean(groups[k]) < Mean(groups[r.value])))
  {
    if n > 0 {
      NearestLeftIsNearest(groups, n - 1, cx);
    }
  }

  /** The right choice is the first group of smallest mean among those strictly above cx. */
  lemma {:induction false} NearestRightIsNearest(groups: seq<Group>, n: nat, cx: real)
    requires AllCounted(groups) && n <= |groups|
    ensures var r := NearestRight(groups, n, cx);
      (r.None? <==> forall k :: 0 <= k < n ==> Mean(groups[k]) <= cx)
      && (r.Some? ==>
            Mean(groups[r.value]) > cx
            && (forall k :: 0 <= k < n && Mean(groups[k]) > cx ==> Mean(groups[r.value]) <= Mean(groups[k]))
            && (forall k :: 0 <= k < r.value && Mean(groups[k]) > cx ==> Mean(groups[r.value]) < Mean(groups[k])))
  {
    if n > 0 {
      NearestRightIsNearest(groups, n - 1, cx);
    }
  }

  /** The x reported for a side: the rounded mean of the chosen group, or -1 when there is none. */
  function SideX(groups: seq<Group>, choice: Option<nat>): int
    requires AllCounted(groups) && (choice.Some? ==> choice.value < |groups|)
  {
    match choice
    case None => -1
    case Some(i) => Round(Mean(groups[i]))
  }

  /** The pair firstVerticalLineXsFromCenter returns, stated on the segments. */
  function EdgeXs(empty: bool, cols: nat, segs: seq<Segment>, slopeTol: real, mergeTol: real): (int, int)
  {
    if empty then (-1, -1)
    else
      var groups := Grouped(segs, slopeTol, mergeTol);
      var cx := (cols / 2) as real;
      (SideX(groups, NearestLeft(groups, |groups|, cx)), SideX(groups, NearestRight(groups, |groups|, cx)))
  }

  /** The inner loop of the grouping: the first matching group takes the segment, else a new group is pushed. */
  method AbsorbSegment(groups: seq<Group>, xMid: real, mergeTol: real) returns (r: seq<Group>)
    requires AllCounted(groups)
    ensures r == Absorb(groups, xMid, mergeTol)
  {
    r := groups;
    var j := 0;
    while j < |r|
      invariant 0 <= j <= |r| && r == groups
      invariant forall k :: 0 <= k < j ==> !Joins(groups[k], xMid, mergeTol)
    {
      if Abs(xMid - r[j].xSum / r[j].cnt as real) <= mergeTol {
        r := r[j := Group(r[j].xSum + xMid, r[j].cnt + 1)];
        return;
      }
      j := j + 1;
    }
    r := r + [Group(xMid, 1)];
  }

  /** The grouping loop over the Hough segments. */
  method GroupSegments(raw: seq<Segment>, slopeTol: real, mergeTol: real) returns (groups: seq<Group>)
    ensures groups == Grouped(raw, slopeTol, mergeTol)
  {
    groups := [];
    var i := 0;
    while i < |raw|
      invariant 0 <= i <= |raw|
      invariant groups == Grouped(raw[..i], slopeTol, mergeTol)
    {
      assert raw[..i + 1][..i] == raw[..i];
      var l := raw[i];
      if NearVertical(l, slopeTol) {
        groups := AbsorbSegment(groups, XMid(l), mergeTol);
      }
      i := i + 1;
    }
    assert raw[..i] == raw;
  }

  /** The choice loop: the nearest group on each side of cx, with -1 for a side without one. */
  method NearestSides(groups: seq<Group>, cx: real) returns (leftX: int, rightX: int)
    requires AllCounted(groups)
    ensures leftX == SideX(groups, NearestLeft(groups, |groups|, cx))
    ensures rightX == SideX(groups, NearestRight(groups, |groups|, cx))
  {
    leftX, rightX := -1, -1;
    var left: Option<nat> := None;
    var right: Option<nat> := None;
    var k := 0;
    while k < |groups|
      invariant 0 <= k <= |groups|
      invariant left == NearestLeft(groups, k, cx) && right == NearestRight(groups, k, cx)
      invariant leftX == SideX(groups, left) && rightX == SideX(groups, right)
    {
      var x := groups[k].xSum / groups[k].cnt as real;
      if x < cx && (left.None? || cx - x < cx - Mean(groups[left.value])) {
        left := Some(k);
        leftX := Round(x);
      }
      if x > cx && (right.None? || x - cx < Mean(groups[right.value]) - cx) {
        right := Some(k);
        rightX := Round(x);
      }
      k := k + 1;
    }
  }

  /**
   * firstVerticalLineXsFromCenter after the Hough transform: the kept
   * segments are merged into groups, then the groups nearest the centre
   * column on either side are picked. An empty frame gives (-1, -1).
   */
  method FirstVerticalLineXs(empty: bool, cols: nat, raw: seq<Segment>, slopeTol: real, mergeTol: real)
    returns (leftX: int, rightX: int)
    ensures (leftX, rightX) == EdgeXs(empty, cols, raw, slopeTol, mergeTol)
  {
    if empty {
      return -1, -1;
    }
    var groups := GroupSegments(raw, slopeTol, mergeTol);
    leftX, rightX := NearestSides(groups, (cols / 2) as real);
  }

  /** A group whose mean is exactly the centre column is on neither side. */
  lemma CentredGroupIgnored(cols: nat, segs: seq<Segment>, slopeTol: real, mergeTol: real)
    requires forall g :: g in Grouped(segs, slopeTol, mergeTol) ==> g.cnt > 0 && Mean(g) == (cols / 2) as real
    ensures EdgeXs(false, cols, segs, slopeTol, mergeTol) == (-1, -1)
  {
    var groups := Grouped(segs, slopeTol, mergeTol);
    var cx := (cols / 2) as real;
    assert forall k :: 0 <= k < |groups| ==> groups[k] in groups && Mean(groups[k]) == cx;
    NearestLeftIsNearest(groups, |groups|, cx);
    NearestRightIsNearest(groups, |groups|, cx);
    assert NearestLeft(groups, |groups|, cx).None? && NearestRight(groups, |groups|, cx).None?;
  }

  /** Without any near-vertical segment both sides are missing. */
  lemma {:induction false} NoVerticalSegmentNoEdges(cols: nat, segs: seq<Segment>, slopeTol: real, mergeTol: real)
    requires forall k :: 0 <= k < |segs| ==> !NearVertical(segs[k], slopeTol)
    ensures Grouped(segs, slopeTol, mergeTol) == []
    ensures EdgeXs(false, cols, segs, slopeTol, mergeTol) == (-1, -1)
  {
    if segs != [] {
      NoVerticalSegmentNoEdges(cols, segs[..|segs| - 1], slopeTol, mergeTol);
    }
  }

  /** grabLoop's substitute for a background with no vertical line on either side. */
  function WithFallback(leftX: int, rightX: int): (r: (int, int))
    ensures r != (-1, -1)
    ensures (leftX, rightX) != (-1, -1) ==> r == (leftX, rightX)
    ensures (leftX, rightX) == (-1, -1) ==> r == (FallbackLeft, FallbackRight)
  {
    if leftX == -1 && rightX == -1 then (FallbackLeft, FallbackRight) else (leftX, rightX)
  }

  // ------------------------------------------------------------------ crop

  /** What cropBetweenXs does with a frame of the given width. */
  datatype Crop =
    | Uncropped                          // an edge missing or in the wrong order: the frame as it is
    | Columns(first: nat, last: nat)     // the columns first..last inclusive, all rows
    | Invalid                            // the region leaves the frame: cv::Rect is rejected

  function CropOf(cols: nat, leftX: int, rightX: int): (c: Crop)
    ensures c == Uncropped <==> leftX < 0 || rightX < 0 || leftX >= rightX
    ensures c.Columns? ==> c.first == leftX && c.last == if rightX < cols then rightX else cols - 1
    ensures c.Columns? ==> c.first <= c.last < cols
    ensures c.Invalid? <==> 0 <= leftX < rightX && leftX >= cols
    ensures 0 <= leftX < rightX && leftX < cols ==> c == Columns(leftX, if rightX < cols then rightX else cols - 1)
  {
    if leftX < 0 || rightX < 0 || leftX >= rightX then Uncropped
    else
      var first := if 0 < leftX then leftX else 0;
      var last := if cols - 1 < rightX then cols - 1 else rightX;
      if last - first + 1 <= 0 then Invalid else Columns(first, last)
  }

  /** A frame as rows of pixels, with the cropped frame its column window. */
  function CropRows<P>(rows: seq<seq<P>>, cols: nat, leftX: int, rightX: int): (r: seq<seq<P>>)
    requires forall y :: 0 <= y < |rows| ==> |rows[y]| == cols
    requires !CropOf(cols, leftX, rightX).Invalid?
    ensures |r| == |rows|
    ensures CropOf(cols, leftX, rightX).Columns? ==> forall y :: 0 <= y < |r| ==>
      |r[y]| == CropOf(cols, leftX, rightX).last - CropOf(cols, leftX, rightX).first + 1
    ensures CropOf(cols, leftX, rightX).Uncropped? ==> r == rows
    ensures CropOf(cols, leftX, rightX).Columns? ==> forall y :: 0 <= y < |r| ==>
      r[y] == rows[y][CropOf(cols, leftX, rightX).first .. CropOf(cols, leftX, rightX).last + 1]
  {
    match CropOf(cols, leftX, rightX)
    case Uncropped => rows
    case Columns(first, last) => seq(|rows|, y requires 0 <= y < |rows| => rows[y][first..last + 1])
  }

  /** With the fallback edges a frame at least 641 pixels wide is cut to its first 641 columns. */
  lemma FallbackCropsFirstColumns(cols: nat)
    requires cols > FallbackRight
    ensures CropOf(cols, FallbackLeft, FallbackRight) == Columns(0, 640)
  {
  }

  /** A frame 640 pixels wide or narrower is kept whole by the fallback crop. */
  lemma FallbackCropKeepsNarrowFrame(cols: nat)
    requires 0 < cols <= FallbackRight + 1
    ensures CropOf(cols, FallbackLeft, FallbackRight) == Columns(0, cols - 1)
  {
  }

  /** One side found and the other not: there is no crop at all. */
  lemma OneSidedEdgesDoNotCrop(cols: nat, x: int)
    requires x != -1
    ensures CropOf(cols, WithFallback(-1, x).0, WithFallback(-1, x).1) == Uncropped
    ensures CropOf(cols, WithFallback(x, -1).0, WithFallback(x, -1).1) == Uncropped
  {
  }

  // ------------------------------------------------------------ centre window

  function Clamp(v: int, lo: int, hi: int): int
    requires lo <= hi
  {
    if v < lo then lo else if hi < v then hi else v
  }

  function Min(a: int, b: int): int { if a <= b then a else b }

  /** meanCenterRGB's window: the top-left corner and the size of the region averaged. */
  datatype Window = Window(x0: int, y0: int, w: int, h: int)

  function CenterWindow(cols: nat, rows: nat, winW: int, winH: int): (r: Window)
    requires cols > 0 && rows > 0 && winW > 0 && winH > 0
    ensures 0 <= r.x0 && 1 <= r.w <= winW && r.x0 + r.w <= cols
    ensures 0 <= r.y0 && 1 <= r.h <= winH && r.y0 + r.h <= rows
  {
    var x0 := Clamp(cols / 2 - winW / 2, 0, cols - 1);
    var y0 := Clamp(rows / 2 - winH / 2, 0, rows - 1);
    Window(x0, y0, Min(winW, cols - x0), Min(winH, rows - y0))
  }

  /** In a frame at least as large as the window, the window keeps its full size and sits at the centre. */
  lemma CenterWindowCentred(cols: nat, rows: nat, winW: int, winH: int)
    requires winW > 0 && winH > 0 && cols >= winW && rows >= winH
    ensures CenterWindow(cols, rows, winW, winH) == Window(cols / 2 - winW / 2, rows / 2 - winH / 2, winW, winH)
  {
    HalfFits(cols, winW);
    HalfFits(rows, winH);
  }

  /** Centring a window of size w in a length n >= w leaves room for the whole window. */
  lemma HalfFits(n: int, w: int)
    requires 0 < w <= n
    ensures 0 <= n / 2 - w / 2 <= n - 1
    ensures n - (n / 2 - w / 2) >= w
  {
    var a, b := n / 2, w / 2;
    assert n == 2 * a + n % 2 && 0 <= n % 2 < 2;
    assert w == 2 * b + w % 2 && 0 <= w % 2 < 2;
    assert a >= b;
  }
}
