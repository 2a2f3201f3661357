/**
 * BodyShape: the older shape class that BodyLayer builds. It draws one vertex set
 * (the legacy `points`, `closed` and `animSets` of the shape record) with the older
 * track rules, and its path step always interpolates: there is no freeze while the
 * percent is below 0.
 */
module BodyShape {
  import opened Wrappers
  import opened Vectors
  import opened Content
  import Ease
  import Track
  import Segments
  import PathMotion
  import TrackKeys

  /**
   * The shape's state. `built` is false when the constructor returned early (a null
   * vertex array, or fewer than two vertices): then no track is animated and there
   * is no renderer (alpha None). `stroke`/`fill` hold the colour of the stroke and
   * fill objects, None for a null object.
   */
  datatype BodyShapeState = BodyShapeState(
    content: Shape, built: bool,
    points: seq<BodyPoint>, closed: bool, segments: seq<Segments.Segment>,
    path: PathMotion.PathTrack, strokeTrack: Track.Setup, fillTrack: Track.Setup,
    stroke: Option<Vec3>, fill: Option<Vec3>, alpha: Option<real>)

  function Unbuilt(content: Shape): BodyShapeState {
    BodyShapeState(content, false, [], false, [], PathMotion.BlankPath,
                   Track.Setup(false, Track.Blank), Track.Setup(false, Track.Blank), None, None, None)
  }

  /** The colour tracks read the keyframes' start and end vectors. */
  function StrokeKeys(bs: BodyShapeState): Option<seq<Track.Key>> {
    TrackKeys.OptKeysOf(bs.content.strokeColorSets, true)
  }

  function FillKeys(bs: BodyShapeState): Option<seq<Track.Key>> {
    TrackKeys.OptKeysOf(bs.content.fillColorSets, true)
  }

  /**
   * The constructor. A null or one-vertex array leaves the shape unbuilt. Otherwise
   * the vertices are copied, the path and colour tracks are set up under the older
   * rules (a set with a single key faults), the paint objects exist exactly when
   * the colour is given and not hidden, and the vertices are converted with the
   * shape's own closed flag.
   */
  function Build(content: Shape): (r: Result<BodyShapeState>)
    ensures (content.points.None? || |content.points.value| <= 1) ==> r == Ok(Unbuilt(content))
    ensures content.points.Some? && |content.points.value| > 1 ==>
      (r.Ok? <==> (content.animSets.None? || |content.animSets.value| != 1) &&
                  (content.strokeColorSets.None? || |content.strokeColorSets.value| != 1) &&
                  (content.fillColorSets.None? || |content.fillColorSets.value| != 1))
    ensures r.Ok? && r.value.built ==>
      var bs := r.value;
      content.points.Some? && bs.points == content.points.value && bs.closed == content.closed &&
      bs.segments == Segments.Convert(bs.points, bs.closed) &&
      (bs.path.animated <==> content.animSets.Some? && |content.animSets.value| > 0) &&
      (bs.strokeTrack.animated <==> content.strokeColorSets.Some? && |content.strokeColorSets.value| > 0) &&
      (bs.fillTrack.animated <==> content.fillColorSets.Some? && |content.fillColorSets.value| > 0) &&
      (bs.stroke.Some? <==> !content.strokeHidden && content.strokeColor.Some?) &&
      (bs.fill.Some? <==> !content.fillHidden && content.fillColor.Some?) &&
      bs.alpha == Some(1.0)
  {
    if content.points.None? || |content.points.value| <= 1 then Ok(Unbuilt(content))
    else
      var pts := content.points.value;
      var tracks :- BuildTracks(content);
      Ok(BodyShapeState(content, true, pts, content.closed, Segments.Convert(pts, content.closed), tracks.0, tracks.1, tracks.2,
                        PaintObject(content.strokeHidden, content.strokeColor),
                        PaintObject(content.fillHidden, content.fillColor), Some(1.0)))
  }

  /** The path, stroke and fill tracks; a set with a single key has no second key to end on. */
  function BuildTracks(content: Shape): (r: Result<(PathMotion.PathTrack, Track.Setup, Track.Setup)>)
    ensures r.Ok? <==>
      ((content.animSets.None? || |content.animSets.value| != 1) &&
       (content.strokeColorSets.None? || |content.strokeColorSets.value| != 1) &&
       (content.fillColorSets.None? || |content.fillColorSets.value| != 1))
    ensures r.Ok? ==>
      (r.value.0.animated <==> content.animSets.Some? && |content.animSets.value| > 0) &&
      (r.value.1.animated <==> content.strokeColorSets.Some? && |content.strokeColorSets.value| > 0) &&
      (r.value.2.animated <==> content.fillColorSets.Some? && |content.fillColorSets.value| > 0)
  {
    var path :- PathMotion.MotionSetup(PathMotion.BlankPath, content.animSets, Track.OlderRule);
    var st :- Track.MotionSetup(Track.Blank, TrackKeys.OptKeysOf(content.strokeColorSets, true), Track.OlderRule);
    var fl :- Track.MotionSetup(Track.Blank, TrackKeys.OptKeysOf(content.fillColorSets, true), Track.OlderRule);
    Ok((path, st, fl))
  }

  /**
   * UpdateOpacity: the material's alpha becomes the opacity percentage as a
   * fraction. There is no guard, so an unbuilt shape (no renderer) faults.
   */
  function UpdateOpacity(bs: BodyShapeState, opacity: real): (r: Result<BodyShapeState>)
    ensures r.Ok? <==> bs.alpha.Some?
    ensures r.Ok? ==> r.value.alpha.Some? && r.value.alpha.value * 100.0 == opacity && r.value == bs.(alpha := r.value.alpha)
  {
    if bs.alpha.None? then Err(NullReference) else Ok(bs.(alpha := Some(opacity * 0.01)))
  }

  /**
   * The path UpdateProperty: one step of the path track; a step that moves rewrites
   * every vertex from the start set towards the end set by the ease, whatever the
   * percent, and then rewrites the segments in place.
   */
  function UpdatePath(n: Ease.Numerics, frame: real, bs: BodyShapeState): (r: Result<BodyShapeState>)
    ensures r.Ok? ==> |r.value.points| == |bs.points| && r.value.closed == bs.closed && r.value.content == bs.content
    ensures r.Ok? ==> r.value.strokeTrack == bs.strokeTrack && r.value.fillTrack == bs.fillTrack &&
                      r.value.stroke == bs.stroke && r.value.fill == bs.fill && r.value.alpha == bs.alpha
    ensures var tick := PathMotion.Step(n, frame, bs.path, bs.content.animSets, Track.OlderRule);
      (tick.Err? ==> r.Err?) &&
      (tick.Ok? && tick.value.PathHold? ==> r == Ok(bs.(path := tick.value.t))) &&
      (tick.Ok? && tick.value.PathMoved? && r.Ok? ==>
        var t := tick.value.t;
        var start := PathMotion.Resolve(t.start, Some(bs.points));
        r.value.path == t &&
        Segments.UpdateSegments(r.value.points, bs.segments) == Ok(r.value.segments) &&
        (|bs.points| > 0 ==> start.Some? && |start.value| >= |bs.points| && t.end.Some? && |t.end.value| >= |bs.points|) &&
        (forall i :: 0 <= i < |bs.points| ==> r.value.points[i] == LerpPoint(start.value[i], t.end.value[i], tick.value.ease)))
  {
    var tick :- PathMotion.Step(n, frame, bs.path, bs.content.animSets, Track.OlderRule);
    match tick
    case PathHold(t) => Ok(bs.(path := t))
    case PathMoved(t, e) =>
      var pts :- PathMotion.Interpolate(Some(bs.points), PathMotion.Resolve(t.start, Some(bs.points)), t.end, false, e);
      var segs :- Segments.UpdateSegments(pts, bs.segments);
      Ok(bs.(points := pts, segments := segs, path := t))
  }

  /**
   * The colour half of UpdateProperty for one track: a single step under the older
   * rules; on a step that moves, the colour object must exist and takes the
   * keyframe value read from the set (frozen at its start value only while the
   * percent is below 0). Returns the track's motion and the new colour.
   */
  function StepColour(n: Ease.Numerics, frame: real, m: Track.Motion, sets: Option<seq<Track.Key>>, paint: Option<Vec3>): (r: Result<(Track.Motion, Option<Vec3>)>)
    ensures var tick := Track.Step(n, frame, m, sets, Track.OlderRule);
      (tick.Err? ==> r.Err?) &&
      (tick.Ok? && tick.value.Hold? ==> r == Ok((tick.value.m, paint))) &&
      (tick.Ok? && tick.value.Advance? ==>
        (paint.None? ==> r == Err(NullReference)) &&
        (paint.Some? ==> (r.Ok? <==> Track.KeyValue3(tick.value.m, sets, tick.value.ease).Ok?)) &&
        (r.Ok? ==> r.value == (tick.value.m, Some(Track.KeyValue3(tick.value.m, sets, tick.value.ease).value))))
  {
    var tick :- Track.Step(n, frame, m, sets, Track.OlderRule);
    match tick
    case Hold(m') => Ok((m', paint))
    case Advance(m', e) =>
      if paint.None? then Err(NullReference)
      else
        var v :- Track.KeyValue3(m', sets, e);
        Ok((m', Some(v)))
  }

  predicate Live(t: Track.Setup) {
    t.animated && !t.m.completed
  }

  /**
   * Update: the path, stroke and fill tracks in that order, each only while
   * animated and not completed. Each colour track writes its own colour.
   */
  function Update(n: Ease.Numerics, frame: real, bs: BodyShapeState): (r: Result<BodyShapeState>)
    ensures !PathMotion.Live(bs.path) && !Live(bs.strokeTrack) && !Live(bs.fillTrack) ==> r == Ok(bs)
    ensures r.Ok? ==> |r.value.points| == |bs.points| && r.value.closed == bs.closed && r.value.content == bs.content &&
                      r.value.alpha == bs.alpha && r.value.built == bs.built
    ensures r.Ok? && !PathMotion.Live(bs.path) ==> r.value.points == bs.points && r.value.segments == bs.segments
    ensures r.Ok? && !Live(bs.strokeTrack) ==> r.value.stroke == bs.stroke
    ensures r.Ok? && !Live(bs.fillTrack) ==> r.value.fill == bs.fill
  {
    var a :- if PathMotion.Live(bs.path) then UpdatePath(n, frame, bs) else Ok(bs);
    var s :- if Live(a.strokeTrack) then StepColour(n, frame, a.strokeTrack.m, StrokeKeys(a), a.stroke) else Ok((a.strokeTrack.m, a.stroke));
    var f :- if Live(a.fillTrack) then StepColour(n, frame, a.fillTrack.m, FillKeys(a), a.fill) else Ok((a.fillTrack.m, a.fill));
    Ok(a.(strokeTrack := a.strokeTrack.(m := s.0), stroke := s.1, fillTrack := a.fillTrack.(m := f.0), fill := f.1))
  }

  /** Reloads segment 0 of a colour track when it is animated. */
  function ResetColour(t: Track.Setup, sets: Option<seq<Track.Key>>): (r: Result<Track.Setup>)
    ensures !t.animated ==> r == Ok(t)
    ensures t.animated ==> (r.Ok? <==> Track.SetKeyframe(t.m, sets, 0, Track.OlderRule).Ok?)
    ensures t.animated && r.Ok? ==> r.value == Track.Setup(true, Track.SetKeyframe(t.m, sets, 0, Track.OlderRule).value)
  {
    if !t.animated then Ok(t)
    else
      var m :- Track.SetKeyframe(t.m, sets, 0, Track.OlderRule);
      Ok(t.(m := m))
  }

  /**
   * ResetKeyframes: every animated track reloads segment 0, and then the loop over
   * the slaves reads a field the class never assigns, so the call always faults.
   */
  function ResetKeyframes(bs: BodyShapeState): (r: Result<BodyShapeState>)
    ensures r.Err?
    ensures !bs.path.animated && !bs.strokeTrack.animated && !bs.fillTrack.animated ==> r == Err(NullReference)
  {
    var path :- if bs.path.animated then PathMotion.SetKeyframe(bs.path, bs.content.animSets, 0, Track.OlderRule) else Ok(bs.path);
    var st :- ResetColour(bs.strokeTrack, StrokeKeys(bs));
    var fl :- ResetColour(bs.fillTrack, FillKeys(bs));
    Err(NullReference)
  }

  /**
   * A built shape resets its tracks without fault, so what ends ResetKeyframes is
   * always the null slave array.
   */
  lemma BuiltResetFaultsOnSlaves(content: Shape)
    requires Build(content).Ok?
    ensures ResetKeyframes(Build(content).value) == Err(NullReference)
  {
    var bs := Build(content).value;
    if bs.built {
      var pts := content.points.value;
      var sets := content.animSets;
      if bs.path.animated {
        assert PathMotion.SetKeyframe(bs.path, sets, 0, Track.OlderRule).Ok?;
      }
      if bs.strokeTrack.animated {
        assert Track.SetKeyframe(bs.strokeTrack.m, StrokeKeys(bs), 0, Track.OlderRule).Ok?;
      }
      if bs.fillTrack.animated {
        assert Track.SetKeyframe(bs.fillTrack.m, FillKeys(bs), 0, Track.OlderRule).Ok?;
      }
    }
  }

  /**
   * For a closed shape the in-place rewrite keeps the segments equal to a fresh
   * conversion of the current vertices.
   */
  lemma ClosedKeepsConversion(n: Ease.Numerics, frame: real, bs: BodyShapeState)
    requires bs.closed && |bs.points| > 0 && bs.segments == Segments.Convert(bs.points, true)
    ensures UpdatePath(n, frame, bs).Ok? ==>
      UpdatePath(n, frame, bs).value.segments == Segments.Convert(UpdatePath(n, frame, bs).value.points, true)
  {
    var r := UpdatePath(n, frame, bs);
    if r.Ok? {
      var tick := PathMotion.Step(n, frame, bs.path, bs.content.animSets, Track.OlderRule).value;
      if tick.PathMoved? {
        assert |r.value.points| == |bs.points|;
      }
    }
  }
}
