/**
 * Conversion of a vertex list into bezier path segments (ConvertPointsToSegments
 * and UpdateSegments, identical in MovinShape and BodyShape). Unity's y axis points
 * up, so every y value is negated.
 */
module Segments {
  import opened Wrappers
  import opened Vectors

  /** A BezierPathSegment: start point and the two control points towards the next segment's start. */
  datatype Segment = Segment(p0: Vec2, p1: Vec2, p2: Vec2)

  const ZeroSegment: Segment := Segment(Zero2, Zero2, Zero2)

  /** The y-flip applied to every coordinate. */
  function Flip(v: Vec2): Vec2 {
    Vec2(v.x, v.y * -1.0)
  }

  /** The segment leaving point j of a contour of n = |pts| points. */
  function SegmentAt(pts: seq<BodyPoint>, j: nat): (r: Segment)
    requires j < |pts|
    ensures var next := pts[(j + 1) % |pts|];
      r.p0 == Vec2(pts[j].p.x, -pts[j].p.y) &&
      r.p1 == Vec2(pts[j].p.x + pts[j].o.x, -(pts[j].p.y + pts[j].o.y)) &&
      r.p2 == Vec2(next.p.x + next.i.x, -(next.p.y + next.i.y))
  {
    var next := if j >= |pts| - 1 then pts[0] else pts[j + 1];
    Segment(Flip(pts[j].p), Flip(pts[j].p.Add(pts[j].o)), Flip(next.p.Add(next.i)))
  }

  /** The extra segment of a closed contour: it starts at the first point and has zero control points. */
  function Closing(pts: seq<BodyPoint>): Segment
    requires |pts| > 0
  {
    Segment(Flip(pts[0].p), Zero2, Zero2)
  }

  /**
   * ConvertPointsToSegments: one segment per point, wrapping to the first point
   * after the last, plus the closing segment for a closed contour. A closed
   * contour with no points gets one all-zero segment.
   */
  function Convert(pts: seq<BodyPoint>, closed: bool): (r: seq<Segment>)
    ensures |r| == |pts| + (if closed then 1 else 0)
    ensures forall j :: 0 <= j < |pts| ==> r[j] == SegmentAt(pts, j)
    ensures closed && |pts| > 0 ==> r[|pts|].p0 == Vec2(pts[0].p.x, -pts[0].p.y) && r[|pts|].p1 == Zero2 && r[|pts|].p2 == Zero2
    ensures closed && |pts| == 0 ==> r == [ZeroSegment]
  {
    var open := seq(|pts|, j requires 0 <= j < |pts| => SegmentAt(pts, j));
    if !closed then open
    else if |pts| > 0 then open + [Closing(pts)]
    else [ZeroSegment]
  }

  /** The in-place loop of UpdateSegments from slot i on: slot j takes point j's segment. */
  function Rewrite(pts: seq<BodyPoint>, segs: seq<Segment>, i: nat): (r: Result<seq<Segment>>)
    requires i <= |pts| && i <= |segs|
    ensures r.Ok? <==> |segs| >= |pts|
    ensures r.Ok? ==> |r.value| == |segs|
    ensures r.Ok? ==> forall j :: i <= j < |pts| ==> r.value[j] == SegmentAt(pts, j)
    ensures r.Ok? ==> forall j :: 0 <= j < |segs| && (j < i || j >= |pts|) ==> r.value[j] == segs[j]
    decreases |pts| - i
  {
    if i == |pts| then Ok(segs)
    else if i >= |segs| then Err(IndexOutOfRange)
    else Rewrite(pts, segs[i := SegmentAt(pts, i)], i + 1)
  }

  /**
   * UpdateSegments: rewrites segments 0..n-1 from the points in place, then forces
   * the last slot to the closing segment. It reads out of range when there are no
   * points or fewer slots than points. On the segments of a closed contour of the
   * same size it reproduces Convert; on an open contour's it replaces the last real
   * segment with the closing one.
   */
  function UpdateSegments(pts: seq<BodyPoint>, segs: seq<Segment>): (r: Result<seq<Segment>>)
    ensures r.Ok? <==> |pts| > 0 && |segs| >= |pts|
    ensures r.Ok? ==> |r.value| == |segs| && r.value[|segs| - 1] == Closing(pts)
    ensures r.Ok? ==> forall j :: 0 <= j < |pts| && j != |segs| - 1 ==> r.value[j] == SegmentAt(pts, j)
    ensures r.Ok? ==> forall j :: |pts| <= j < |segs| - 1 ==> r.value[j] == segs[j]
    ensures |pts| > 0 && |segs| == |pts| + 1 ==> r == Ok(Convert(pts, true))
    ensures |pts| > 0 && |segs| == |pts| ==> r == Ok(Convert(pts, false)[|pts| - 1 := Closing(pts)])
  {
    var out := Rewrite(pts, segs, 0);
    if out.Err? then Err(out.fault)
    else if |segs| == 0 || |pts| == 0 then Err(IndexOutOfRange)
    else
      var r := out.value[|segs| - 1 := Closing(pts)];
      if |segs| == |pts| + 1 then ClosedAgrees(pts, r); Ok(r)
      else if |segs| == |pts| then OpenOverwritten(pts, r); Ok(r)
      else Ok(r)
  }

  lemma ClosedAgrees(pts: seq<BodyPoint>, out: seq<Segment>)
    requires |pts| > 0 && |out| == |pts| + 1 && out[|pts|] == Closing(pts)
    requires forall j :: 0 <= j < |pts| ==> out[j] == SegmentAt(pts, j)
    ensures out == Convert(pts, true)
  {
  }

  lemma OpenOverwritten(pts: seq<BodyPoint>, out: seq<Segment>)
    requires |pts| > 0 && |out| == |pts| && out[|pts| - 1] == Closing(pts)
    requires forall j :: 0 <= j < |pts| - 1 ==> out[j] == SegmentAt(pts, j)
    ensures out == Convert(pts, false)[|pts| - 1 := Closing(pts)]
  {
  }
}
