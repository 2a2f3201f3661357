/**
 * MovinShapeSlave: every path of a shape group after the first. It keeps its own
 * vertices and path track (with the older track rules: no wrap, a null set
 * faults) but builds and rewrites its segments with its master's conversion.
 */
module MovinShapeSlave {
  import opened Wrappers
  import opened Vectors
  import opened Content
  import Ease
  import Track
  import Segments
  import PathMotion

  /**
   * A built slave: its vertices, its own closed flag, its segments, its path track
   * and animSets, and the colours of its stroke and fill objects (None for a null
   * object, which the slave creates exactly when its master does).
   */
  datatype Slave = Slave(points: seq<BodyPoint>, closed: bool, segments: seq<Segments.Segment>,
                         path: PathMotion.PathTrack, animSets: Option<seq<ShapeKeyframe>>,
                         stroke: Option<Vec3>, fill: Option<Vec3>)

  /**
   * The constructor: copies the path's vertices (faulting on a null array), sets up
   * the path track, and converts the vertices with the master's conversion, whose
   * segment count follows the master's closed flag rather than the slave's own.
   */
  function Build(masterClosed: bool, masterStroke: Option<Vec3>, masterFill: Option<Vec3>, path: ShapePath): (r: Result<Slave>)
    ensures r.Ok? <==> path.points.Some? && (path.animSets.None? || |path.animSets.value| != 1)
    ensures r.Ok? ==> r.value.points == path.points.value && r.value.closed == path.closed && r.value.animSets == path.animSets
    ensures r.Ok? ==> |r.value.segments| == |path.points.value| + (if masterClosed then 1 else 0)
    ensures r.Ok? ==> r.value.segments == Segments.Convert(path.points.value, masterClosed)
    ensures r.Ok? ==> (r.value.path.animated <==> path.animSets.Some? && |path.animSets.value| > 0)
    ensures r.Ok? ==> r.value.stroke == masterStroke && r.value.fill == masterFill
  {
    if path.points.None? then Err(NullReference)
    else
      var t :- PathMotion.MotionSetup(PathMotion.BlankPath, path.animSets, Track.OlderRule);
      Ok(Slave(path.points.value, path.closed, Segments.Convert(path.points.value, masterClosed), t, path.animSets, masterStroke, masterFill))
  }

  /** The track is live: animated and not completed. */
  predicate Live(s: Slave) {
    s.path.animated && !s.path.m.completed
  }

  /**
   * The vertex loop and the segment rewrite of a step that moved: every vertex takes
   * the start set's vertex while the percent is below 0, and otherwise moves from the
   * start set towards the end set by the ease.
   */
  function Advance(s: Slave, t: PathMotion.PathTrack, e: real): (r: Result<Slave>)
    ensures r.Ok? ==> |r.value.points| == |s.points| && |r.value.segments| == |s.segments| && r.value.path == t
    ensures r.Ok? ==> r.value.closed == s.closed && r.value.animSets == s.animSets && r.value.stroke == s.stroke && r.value.fill == s.fill
    ensures r.Ok? && |s.points| > 0 ==>
      var start := PathMotion.Resolve(t.start, Some(s.points));
      start.Some? && |start.value| >= |s.points| &&
      (!Track.Below(t.m.percent) ==> t.end.Some? && |t.end.value| >= |s.points|) &&
      forall i :: 0 <= i < |s.points| ==>
        r.value.points[i] == (if Track.Below(t.m.percent) then start.value[i] else LerpPoint(start.value[i], t.end.value[i], e))
    ensures r.Ok? ==> Segments.UpdateSegments(r.value.points, s.segments) == Ok(r.value.segments)
  {
    var pts :- PathMotion.Interpolate(Some(s.points), PathMotion.Resolve(t.start, Some(s.points)), t.end, Track.Below(t.m.percent), e);
    var segs :- Segments.UpdateSegments(pts, s.segments);
    Ok(s.(points := pts, segments := segs, path := t))
  }

  /**
   * Update: a live track steps once (a completed or keyless track only sets
   * `completed` and leaves the vertices alone); a step that moves goes on to the
   * vertex loop.
   */
  function Update(n: Ease.Numerics, frame: real, s: Slave): (r: Result<Slave>)
    ensures !Live(s) ==> r == Ok(s)
    ensures r.Ok? ==> |r.value.points| == |s.points| && |r.value.segments| == |s.segments|
    ensures r.Ok? ==> r.value.closed == s.closed && r.value.animSets == s.animSets
    ensures Live(s) ==>
      var tick := PathMotion.Step(n, frame, s.path, s.animSets, Track.OlderRule);
      (tick.Err? ==> r.Err?) &&
      (tick.Ok? && tick.value.PathHold? ==> r == Ok(s.(path := tick.value.t))) &&
      (tick.Ok? && tick.value.PathMoved? ==> r == Advance(s, tick.value.t, tick.value.ease))
  {
    if !Live(s) then Ok(s)
    else
      var tick :- PathMotion.Step(n, frame, s.path, s.animSets, Track.OlderRule);
      match tick
      case PathHold(t) => Ok(s.(path := t))
      case PathMoved(t, e) => Advance(s, t, e)
  }

  /**
   * For a slave whose master is closed, the in-place rewrite keeps the segments
   * equal to a fresh conversion of the current vertices, tick after tick.
   */
  lemma ClosedMasterKeepsConversion(n: Ease.Numerics, frame: real, s: Slave)
    requires |s.points| > 0 && s.segments == Segments.Convert(s.points, true)
    ensures Update(n, frame, s).Ok? ==> Update(n, frame, s).value.segments == Segments.Convert(Update(n, frame, s).value.points, true)
  {
    var r := Update(n, frame, s);
    if r.Ok? && Live(s) {
      var tick := PathMotion.Step(n, frame, s.path, s.animSets, Track.OlderRule).value;
      if tick.PathMoved? {
        assert r == Advance(s, tick.t, tick.ease);
      }
    }
  }

  /**
   * For a slave whose master is open, the first tick that moves the vertices
   * replaces the last real segment with the closing one.
   */
  lemma OpenMasterOverwritesLast(n: Ease.Numerics, frame: real, s: Slave)
    requires |s.points| > 0 && s.segments == Segments.Convert(s.points, false)
    ensures Update(n, frame, s).Ok? && Update(n, frame, s).value.points != s.points ==>
      var p := Update(n, frame, s).value.points;
      Update(n, frame, s).value.segments == Segments.Convert(p, false)[|p| - 1 := Segments.Closing(p)]
  {
    var r := Update(n, frame, s);
    if r.Ok? && Live(s) {
      var tick := PathMotion.Step(n, frame, s.path, s.animSets, Track.OlderRule).value;
      if tick.PathMoved? {
        assert r == Advance(s, tick.t, tick.ease);
      }
    }
  }

  /** ResetKeyframes: an animated path reloads segment 0 of its animSets; otherwise nothing changes. */
  function ResetKeyframes(s: Slave): (r: Result<Slave>)
    ensures !s.path.animated ==> r == Ok(s)
    ensures s.path.animated && s.animSets.None? ==> (s.path.m.keys > 0 <==> r.Err?)
    ensures s.path.animated && r.Ok? && s.path.m.keys > 0 ==>
      s.animSets.Some? && |s.animSets.value| > 1 && r.value.path.m.key == 0 && !r.value.path.m.completed &&
      r.value.path.m.startFrame == s.animSets.value[0].t && r.value.path.m.endFrame == s.animSets.value[1].t &&
      r.value.path.start == PathMotion.Own(s.animSets.value[0].startPoints) && r.value.path.end == Some(s.animSets.value[0].endPoints)
    ensures r.Ok? ==> r.value.points == s.points && r.value.segments == s.segments
  {
    if !s.path.animated then Ok(s)
    else
      var t :- PathMotion.SetKeyframe(s.path, s.animSets, 0, Track.OlderRule);
      Ok(s.(path := t))
  }

  /** The master pushes its stroke colour to the slave's stroke object. */
  function UpdateStrokeColor(s: Slave, c: Vec3): (r: Result<Slave>)
    ensures r.Ok? <==> s.stroke.Some?
    ensures r.Ok? ==> r.value == s.(stroke := Some(c))
  {
    if s.stroke.None? then Err(NullReference) else Ok(s.(stroke := Some(c)))
  }

  /** The master pushes its fill colour to the slave's fill object. */
  function UpdateFillColor(s: Slave, c: Vec3): (r: Result<Slave>)
    ensures r.Ok? <==> s.fill.Some?
    ensures r.Ok? ==> r.value == s.(fill := Some(c))
  {
    if s.fill.None? then Err(NullReference) else Ok(s.(fill := Some(c)))
  }
}
