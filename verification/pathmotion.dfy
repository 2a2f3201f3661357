/**
 * The path-vertex track shared by MovinShape, MovinShapeSlave and BodyShape: a
 * MotionProps plus the start and end vertex arrays of the current segment, and the
 * per-vertex interpolation of UpdateProperty.
 */
module PathMotion {
  import opened Wrappers
  import opened Vectors
  import opened Content
  import Ease
  import Track

  /**
   * What a `startPoints` field refers to: nothing yet, an array of its own (a
   * keyframe's start set), or the live `points` array itself, which is what
   * CreatePathKeyframe installs.
   */
  datatype PointsRef = NullPoints | Own(pts: seq<BodyPoint>) | LivePoints

  /** The array a `startPoints` reference reads, given the current `points`. */
  function Resolve(r: PointsRef, points: Option<seq<BodyPoint>>): (a: Option<seq<BodyPoint>>)
    ensures r.NullPoints? ==> a.None?
    ensures r.Own? ==> a == Some(r.pts)
    ensures r.LivePoints? ==> a == points
  {
    match r
    case NullPoints => None
    case Own(pts) => Some(pts)
    case LivePoints => points
  }

  /** A path track: its MotionProps and the current segment's start and end vertex arrays. */
  datatype PathTrack = PathTrack(animated: bool, m: Track.Motion, start: PointsRef, end: Option<seq<BodyPoint>>)

  const BlankPath: PathTrack := PathTrack(false, Track.Blank, NullPoints, None)

  /** The track is animated and not completed, so Update steps it. */
  predicate Live(t: PathTrack) {
    t.animated && !t.m.completed
  }

  /** The timing a path keyframe gives its track; path tracks store no values in MotionProps. */
  function KeyOf(k: ShapeKeyframe): (r: Track.Key)
    ensures r.t == k.t && r.i == k.i && r.o == k.o
  {
    Track.Key(k.t, k.i, k.o, Zero3, Zero3)
  }

  function KeysOf(sets: Option<seq<ShapeKeyframe>>): (r: Option<seq<Track.Key>>)
    ensures sets.None? <==> r.None?
    ensures sets.Some? ==> |r.value| == |sets.value| && forall j :: 0 <= j < |sets.value| ==> r.value[j] == KeyOf(sets.value[j])
  {
    match sets
    case None => None
    case Some(s) => Some(seq(|s|, j requires 0 <= j < |s| => KeyOf(s[j])))
  }

  /**
   * The path SetKeyframe: the track's SetKeyframe, and, when a segment was loaded,
   * startPoints/endPoints pointed at that keyframe's start and end sets.
   */
  function SetKeyframe(t: PathTrack, sets: Option<seq<ShapeKeyframe>>, k: nat, rule: Track.Rule): (r: Result<PathTrack>)
    ensures r.Ok? <==> Track.SetKeyframe(t.m, KeysOf(sets), k, rule).Ok?
    ensures r.Ok? ==> r.value.m == Track.SetKeyframe(t.m, KeysOf(sets), k, rule).value && r.value.animated == t.animated
    ensures r.Ok? && t.m.keys > 0 && sets.Some? ==>
      var j := Track.Target(t.m, k, rule);
      j < |sets.value| && r.value.start == Own(sets.value[j].startPoints) && r.value.end == Some(sets.value[j].endPoints)
    ensures r.Ok? && (t.m.keys <= 0 || sets.None?) ==> r.value.start == t.start && r.value.end == t.end
  {
    var m :- Track.SetKeyframe(t.m, KeysOf(sets), k, rule);
    if t.m.keys <= 0 || sets.None? then Ok(t.(m := m))
    else
      var j := Track.Target(t.m, k, rule);
      Ok(t.(m := m, start := Own(sets.value[j].startPoints), end := Some(sets.value[j].endPoints)))
  }

  /** MotionSetup on a path: animated iff the set is non-null and non-empty, then segment 0 is loaded. */
  function MotionSetup(t: PathTrack, sets: Option<seq<ShapeKeyframe>>, rule: Track.Rule): (r: Result<PathTrack>)
    ensures (sets.None? || |sets.value| == 0) ==> r == Ok(t.(animated := false))
    ensures sets.Some? && |sets.value| > 0 ==>
      (r.Ok? <==> (rule.guard == Track.Successor || |sets.value| > 1)) &&
      (r.Ok? ==> r.value.animated && r.value.m.key == 0 && r.value.m.keys == |sets.value| && !r.value.m.completed &&
                 r.value.start == Own(sets.value[0].startPoints) && r.value.end == Some(sets.value[0].endPoints))
  {
    if sets.Some? && |sets.value| > 0 then
      SetKeyframe(PathTrack(true, Track.Blank.(keys := |sets.value|), t.start, t.end), sets, 0, rule)
    else Ok(t.(animated := false))
  }

  /** CreatePathKeyframe: a one-key segment whose start is the live `points` array and whose end is `target`. */
  function CreatePathKeyframe(t: PathTrack, start: real, end: real, outTangent: Vec2, inTangent: Vec2, target: Option<seq<BodyPoint>>): (r: PathTrack)
    ensures r.m == Track.CreateKeyframe(t.m, start, end, outTangent, inTangent, t.m.startValue, t.m.endValue)
    ensures r.start == LivePoints && r.end == target && r.animated == t.animated
  {
    t.(m := Track.CreateKeyframe(t.m, start, end, outTangent, inTangent, t.m.startValue, t.m.endValue),
       start := LivePoints, end := target)
  }

  /** What a path UpdateProperty decided before touching the vertices. */
  datatype PathTick = PathHold(t: PathTrack) | PathMoved(t: PathTrack, ease: real)

  /**
   * The path UpdateProperty up to the vertex loop: it never skips more than one
   * segment, and completes at the last segment (or, where the class allows it, on a
   * null set) without touching the vertices.
   */
  function Step(n: Ease.Numerics, frame: real, t: PathTrack, sets: Option<seq<ShapeKeyframe>>, rule: Track.Rule): (r: Result<PathTick>)
    requires !rule.skip
    ensures r.Ok? <==> Track.Step(n, frame, t.m, KeysOf(sets), rule).Ok?
    ensures r.Ok? ==> (r.value.PathHold? <==> Track.Step(n, frame, t.m, KeysOf(sets), rule).value.Hold?)
    ensures r.Ok? ==> r.value.t.m == Track.Step(n, frame, t.m, KeysOf(sets), rule).value.m
    ensures r.Ok? && r.value.PathMoved? ==> r.value.ease == Track.Step(n, frame, t.m, KeysOf(sets), rule).value.ease
    ensures r.Ok? && frame < t.m.endFrame ==> r.value.t.start == t.start && r.value.t.end == t.end
  {
    var m := t.m;
    if m.keys <= 0 then Ok(PathHold(t.(m := m.(completed := true))))
    else if frame >= m.endFrame && sets.None? then
      (if rule.nullCompletes then Ok(PathHold(t.(m := m.(completed := true)))) else Err(NullReference))
    else if frame >= m.endFrame && m.key + 1 == |sets.value| - 1 then Ok(PathHold(t.(m := m.(completed := true))))
    else
      var t' :- if frame >= m.endFrame then SetKeyframe(t, sets, m.key + 1, rule) else Ok(t);
      var p := Track.PercentOf(frame, t'.m.startFrame, t'.m.endFrame);
      Ok(PathMoved(t'.(m := t'.m.(percent := p)), Track.EaseOf(n, t'.m.outTangent, t'.m.inTangent, p)))
  }

  /**
   * The vertex loop: every vertex's position and both handles move from the start
   * set towards the end set by the same ease, or snap to the start set when
   * `freeze` holds. It reads out of range (or through a null array) when a set is
   * shorter than `points`; with no points nothing is read.
   */
  function Interpolate(points: Option<seq<BodyPoint>>, start: Option<seq<BodyPoint>>, end: Option<seq<BodyPoint>>, freeze: bool, ease: real): (r: Result<seq<BodyPoint>>)
    ensures points.None? ==> r.Err?
    ensures points.Some? ==> (r.Ok? <==> (|points.value| == 0 ||
      (start.Some? && |start.value| >= |points.value| && (freeze || (end.Some? && |end.value| >= |points.value|)))))
    ensures r.Ok? ==> |r.value| == |points.value|
    ensures r.Ok? ==> forall i :: 0 <= i < |points.value| ==>
      r.value[i] == (if freeze then start.value[i] else LerpPoint(start.value[i], end.value[i], ease))
  {
    if points.None? then Err(NullReference)
    else
      var n := |points.value|;
      if n == 0 then Ok([])
      else if start.None? then Err(NullReference)
      else if |start.value| < n then Err(IndexOutOfRange)
      else if freeze then Ok(start.value[..n])
      else if end.None? then Err(NullReference)
      else if |end.value| < n then Err(IndexOutOfRange)
      else Ok(seq(n, i requires 0 <= i < n => LerpPoint(start.value[i], end.value[i], ease)))
  }

  /**
   * With the start aliased to the live points, two ticks compound: the second
   * moves from where the first left the vertex, so the overall fraction is
   * 1 - (1 - e1)(1 - e2) rather than e2.
   */
  lemma AliasedTicksCompound(p: BodyPoint, target: BodyPoint, e1: real, e2: real)
    ensures LerpPoint(LerpPoint(p, target, e1), target, e2) == LerpPoint(p, target, 1.0 - (1.0 - e1) * (1.0 - e2))
  {
    Lerp2Compound(p.p, target.p, e1, e2);
    Lerp2Compound(p.i, target.i, e1, e2);
    Lerp2Compound(p.o, target.o, e1, e2);
  }

  lemma Lerp2Compound(a: Vec2, b: Vec2, e1: real, e2: real)
    ensures Lerp2(Lerp2(a, b, e1), b, e2) == Lerp2(a, b, 1.0 - (1.0 - e1) * (1.0 - e2))
  {
    ScalarCompound(a.x, b.x, e1, e2);
    ScalarCompound(a.y, b.y, e1, e2);
  }

  lemma ScalarCompound(a: real, b: real, e1: real, e2: real)
    ensures a + (b - a) * e1 + (b - (a + (b - a) * e1)) * e2 == a + (b - a) * (1.0 - (1.0 - e1) * (1.0 - e2))
  {
    assert b - (a + (b - a) * e1) == (b - a) * (1.0 - e1);
  }

  /**
   * Aliasing makes the tick depend on where the vertices are: a copied start set
   * gives the same vertices whatever `points` held, the live one does not.
   */
  lemma OwnStartIgnoresCurrentPoints(a: seq<BodyPoint>, b: seq<BodyPoint>, start: seq<BodyPoint>, end: seq<BodyPoint>, freeze: bool, ease: real)
    requires |a| == |b| <= |start| && |a| <= |end|
    ensures Interpolate(Some(a), Resolve(Own(start), Some(a)), Some(end), freeze, ease) ==
            Interpolate(Some(b), Resolve(Own(start), Some(b)), Some(end), freeze, ease)
  {
    var ra := Interpolate(Some(a), Some(start), Some(end), freeze, ease);
    var rb := Interpolate(Some(b), Some(start), Some(end), freeze, ease);
    assert ra.Ok? && rb.Ok?;
    assert forall i :: 0 <= i < |a| ==> ra.value[i] == rb.value[i];
    assert ra.value == rb.value;
  }

  /** With the live start, a frozen tick leaves the vertices where they are. */
  lemma LiveFreezeKeepsPoints(points: seq<BodyPoint>, end: Option<seq<BodyPoint>>, ease: real)
    ensures Interpolate(Some(points), Resolve(LivePoints, Some(points)), end, true, ease) == Ok(points)
  {
    assert points[..|points|] == points;
  }
}
