/**
 * MovinShape: one shape group of a MovinLayer. The first path is drawn by the
 * shape itself (its vertices, segments and path track); every further path is a
 * MovinShapeSlave. Stroke and fill colours run on their own tracks and are pushed
 * to the slaves.
 */
module MovinShape {
  import opened Wrappers
  import opened Vectors
  import opened Content
  import Ease
  import Track
  import Segments
  import PathMotion
  import TrackKeys
  import MovinShapeSlave
  import BodymovinParse

  /**
   * The shape's state. `built` is false when the constructor returned early on a
   * shape without paths: no renderer (alpha None), no vertices, no segments, no
   * slaves. `stroke`/`fill` hold the colour of the stroke and fill objects, None
   * for a null object.
   */
  datatype ShapeState = ShapeState(
    content: Shape, built: bool,
    points: Option<seq<BodyPoint>>, closed: bool, segments: Option<seq<Segments.Segment>>,
    path: PathMotion.PathTrack, motionSet: Option<seq<ShapeKeyframe>>,
    strokeTrack: Track.Setup, fillTrack: Track.Setup,
    currentStroke: Vec3, currentFill: Vec3,
    stroke: Option<Vec3>, fill: Option<Vec3>,
    alpha: Option<real>,
    slaves: Option<seq<MovinShapeSlave.Slave>>)

  /** What the constructor leaves behind when it returns early. */
  function Unbuilt(content: Shape): ShapeState {
    ShapeState(content, false, None, false, None, PathMotion.BlankPath, None,
               Track.Setup(false, Track.Blank), Track.Setup(false, Track.Blank),
               Zero3, Zero3, None, None, None, None)
  }

  /** The slaves, built in path order from paths[1..], each with the master's closed flag. */
  function BuildSlaves(closed: bool, stroke: Option<Vec3>, fill: Option<Vec3>, paths: seq<ShapePath>): (r: Result<seq<MovinShapeSlave.Slave>>)
    ensures r.Ok? <==> forall i :: 0 <= i < |paths| ==> MovinShapeSlave.Build(closed, stroke, fill, paths[i]).Ok?
    ensures r.Ok? ==> |r.value| == |paths| && forall i :: 0 <= i < |paths| ==> MovinShapeSlave.Build(closed, stroke, fill, paths[i]) == Ok(r.value[i])
  {
    var rs := seq(|paths|, i requires 0 <= i < |paths| => MovinShapeSlave.Build(closed, stroke, fill, paths[i]));
    assert forall i :: 0 <= i < |paths| ==> rs[i] == MovinShapeSlave.Build(closed, stroke, fill, paths[i]);
    CollectInOrder(rs)
  }


  /**
   * The constructor. A shape without paths is left unbuilt. Otherwise the first
   * path's vertices are copied (a null array faults), the three tracks are set up,
   * the colours default to white, the vertices are converted to segments, and
   * slave i is built from path i + 1.
   */
  function Build(content: Shape): (r: Result<ShapeState>)
    ensures |content.paths| == 0 ==> r == Ok(Unbuilt(content))
    ensures |content.paths| > 0 && content.paths[0].points.None? ==> r == Err(NullReference)
    ensures r.Ok? && |content.paths| > 0 ==>
      var p := content.paths[0];
      var sh := r.value;
      sh.built && sh.content == content && sh.points == p.points && sh.closed == p.closed && sh.motionSet == p.animSets &&
      sh.segments == Some(Segments.Convert(p.points.value, p.closed)) &&
      (sh.path.animated <==> p.animSets.Some? && |p.animSets.value| > 0) &&
      sh.currentStroke == RgbOrWhite(content.strokeColor) && sh.currentFill == RgbOrWhite(content.fillColor) &&
      (sh.stroke.Some? <==> !content.strokeHidden && content.strokeColor.Some?) &&
      (sh.fill.Some? <==> !content.fillHidden && content.fillColor.Some?) &&
      sh.slaves.Some? && |sh.slaves.value| == |content.paths| - 1 &&
      forall i :: 1 <= i < |content.paths| ==>
        MovinShapeSlave.Build(p.closed, sh.stroke, sh.fill, content.paths[i]) == Ok(sh.slaves.value[i - 1])
  {
    if |content.paths| == 0 then Ok(Unbuilt(content))
    else
      var p := content.paths[0];
      if p.points.None? then Err(NullReference)
      else
        var path :- PathMotion.MotionSetup(PathMotion.BlankPath, p.animSets, Track.PathRule);
        var st :- Track.MotionSetup(Track.Blank, TrackKeys.OptKeysOf(content.strokeColorSets, true), Track.ColourRule);
        var fl :- Track.MotionSetup(Track.Blank, TrackKeys.OptKeysOf(content.fillColorSets, true), Track.ColourRule);
        var stroke := PaintObject(content.strokeHidden, content.strokeColor);
        var fill := PaintObject(content.fillHidden, content.fillColor);
        var slaves :- BuildSlaves(p.closed, stroke, fill, content.paths[1..]);
        Ok(ShapeState(content, true, p.points, p.closed, Some(Segments.Convert(p.points.value, p.closed)),
                      path, p.animSets, st, fl,
                      RgbOrWhite(content.strokeColor), RgbOrWhite(content.fillColor), stroke, fill,
                      Some(1.0), Some(slaves)))
  }

  /**
   * UpdateOpacity: an unbuilt shape (no renderer) ignores it; otherwise the
   * material's alpha becomes the opacity percentage as a fraction.
   */
  function UpdateOpacity(sh: ShapeState, opacity: real): (r: ShapeState)
    ensures sh.alpha.None? ==> r == sh
    ensures sh.alpha.Some? ==> r.alpha.Some? && r.alpha.value * 100.0 == opacity && r == sh.(alpha := r.alpha)
  {
    if sh.alpha.None? then sh else sh.(alpha := Some(opacity * 0.01))
  }

  /**
   * UpdateMesh after a vertex change: the first call converts, every later one
   * rewrites the existing segments in place.
   */
  function UpdateMesh(sh: ShapeState, pts: seq<BodyPoint>): (r: Result<seq<Segments.Segment>>)
    ensures sh.segments.None? ==> r == (if sh.built then Ok(Segments.Convert(pts, sh.closed)) else Err(NullReference))
    ensures sh.segments.Some? ==> r == Segments.UpdateSegments(pts, sh.segments.value)
  {
    if sh.segments.None? then (if sh.built then Ok(Segments.Convert(pts, sh.closed)) else Err(NullReference))
    else Segments.UpdateSegments(pts, sh.segments.value)
  }

  /**
   * The path UpdateProperty: one step of the path track; a step that moves rewrites
   * every vertex (frozen at the start set while the percent is below 0) and then
   * the segments.
   */
  function UpdatePath(n: Ease.Numerics, frame: real, sh: ShapeState): (r: Result<ShapeState>)
    ensures r.Ok? ==> r.value.slaves == sh.slaves
    ensures var tick := PathMotion.Step(n, frame, sh.path, sh.motionSet, Track.PathRule);
      (tick.Err? ==> r.Err?) &&
      (tick.Ok? && tick.value.PathHold? ==> r == Ok(sh.(path := tick.value.t))) &&
      (tick.Ok? && tick.value.PathMoved? && r.Ok? ==>
        var t := tick.value.t;
        var start := PathMotion.Resolve(t.start, sh.points);
        r.value.path == t && sh.points.Some? && r.value.points.Some? && |r.value.points.value| == |sh.points.value| &&
        (|sh.points.value| > 0 ==>
          start.Some? && |start.value| >= |sh.points.value| &&
          (!Track.Below(t.m.percent) ==> t.end.Some? && |t.end.value| >= |sh.points.value|)) &&
        (forall i :: 0 <= i < |sh.points.value| ==>
          r.value.points.value[i] == (if Track.Below(t.m.percent) then start.value[i] else LerpPoint(start.value[i], t.end.value[i], tick.value.ease))))
  {
    var tick :- PathMotion.Step(n, frame, sh.path, sh.motionSet, Track.PathRule);
    match tick
    case PathHold(t) => Ok(sh.(path := t))
    case PathMoved(t, e) =>
      var pts :- PathMotion.Interpolate(sh.points, PathMotion.Resolve(t.start, sh.points), t.end, Track.Below(t.m.percent), e);
      var segs :- UpdateMesh(sh, pts);
      Ok(sh.(points := Some(pts), segments := Some(segs), path := t))
  }

  datatype Channel = StrokeChannel | FillChannel

  function TrackOf(sh: ShapeState, c: Channel): Track.Setup {
    match c
    case StrokeChannel => sh.strokeTrack
    case FillChannel => sh.fillTrack
  }

  function SetsOf(sh: ShapeState, c: Channel): Option<seq<Keyframe>> {
    match c
    case StrokeChannel => sh.content.strokeColorSets
    case FillChannel => sh.content.fillColorSets
  }

  function WithTrack(sh: ShapeState, c: Channel, m: Track.Motion): ShapeState {
    match c
    case StrokeChannel => sh.(strokeTrack := sh.strokeTrack.(m := m))
    case FillChannel => sh.(fillTrack := sh.fillTrack.(m := m))
  }

  /**
   * Which colour a channel's track writes. The source compares the track's sets
   * with the stroke sets by reference, so when both sets are null the fill track
   * writes the stroke colour.
   */
  function Writes(sh: ShapeState, c: Channel): (w: Channel)
    ensures c == StrokeChannel ==> w == StrokeChannel
    ensures c == FillChannel ==> (w == StrokeChannel <==> sh.content.strokeColorSets.None? && sh.content.fillColorSets.None?)
  {
    if c == StrokeChannel || (sh.content.strokeColorSets.None? && sh.content.fillColorSets.None?) then StrokeChannel
    else FillChannel
  }

  /** UpdateStrokeColor / UpdateFillColor: the colour goes to every slave. */
  function PushToSlaves(slaves: seq<MovinShapeSlave.Slave>, c: Channel, v: Vec3): (r: Result<seq<MovinShapeSlave.Slave>>)
    ensures r.Ok? <==> forall i :: 0 <= i < |slaves| ==> (if c == StrokeChannel then slaves[i].stroke.Some? else slaves[i].fill.Some?)
    ensures r.Ok? ==> |r.value| == |slaves| && forall i :: 0 <= i < |slaves| ==>
      (if c == StrokeChannel then r.value[i] == slaves[i].(stroke := Some(v)) else r.value[i] == slaves[i].(fill := Some(v)))
  {
    if |slaves| == 0 then Ok([])
    else
      var first :- if c == StrokeChannel then MovinShapeSlave.UpdateStrokeColor(slaves[0], v) else MovinShapeSlave.UpdateFillColor(slaves[0], v);
      var rest :- PushToSlaves(slaves[1..], c, v);
      assert forall i :: 1 <= i < |slaves| ==> slaves[i] == slaves[1..][i - 1];
      Ok([first] + rest)
  }

  /** Writes a resolved colour: the paint object must exist; the current colour and every slave follow. */
  function WriteColour(sh: ShapeState, w: Channel, v: Vec3): (r: Result<ShapeState>)
    ensures w == StrokeChannel && sh.stroke.None? ==> r == Err(NullReference)
    ensures w == StrokeChannel && r.Ok? ==>
      r.value.currentStroke == v && r.value.stroke == Some(v) && r.value.currentFill == sh.currentFill && r.value.fill == sh.fill
    ensures w == FillChannel && sh.fill.None? ==> r == Err(NullReference)
    ensures w == FillChannel && r.Ok? ==>
      r.value.currentFill == v && r.value.fill == Some(v) && r.value.currentStroke == sh.currentStroke && r.value.stroke == sh.stroke
    ensures r.Ok? ==> r.value.points == sh.points && r.value.segments == sh.segments && r.value.path == sh.path
    ensures r.Ok? ==> r.value.strokeTrack == sh.strokeTrack && r.value.fillTrack == sh.fillTrack
    ensures r.Ok? ==> SameSlaves(sh, r.value)
  {
    match w
    case StrokeChannel =>
      if sh.stroke.None? then Err(NullReference)
      else
        var slaves :- if sh.slaves.None? then Ok(None) else var s :- PushToSlaves(sh.slaves.value, w, v); Ok(Some(s));
        Ok(sh.(currentStroke := v, stroke := Some(v), slaves := slaves))
    case FillChannel =>
      if sh.fill.None? then Err(NullReference)
      else
        var slaves :- if sh.slaves.None? then Ok(None) else var s :- PushToSlaves(sh.slaves.value, w, v); Ok(Some(s));
        Ok(sh.(currentFill := v, fill := Some(v), slaves := slaves))
  }

  /**
   * The colour UpdateProperty: a step of the channel's track with the skip loop;
   * on a step that moves, the newer Value3 (start value outside [0,1]) is written to
   * the colour the dispatch selects.
   */
  function UpdateColour(n: Ease.Numerics, frame: real, sh: ShapeState, c: Channel): (r: Result<ShapeState>)
    ensures r.Ok? ==> SameSlaves(sh, r.value)
    ensures var tick := Track.Step(n, frame, TrackOf(sh, c).m, TrackKeys.OptKeysOf(SetsOf(sh, c), true), Track.ColourRule);
      (tick.Err? ==> r.Err?) &&
      (tick.Ok? && tick.value.Hold? ==> r == Ok(WithTrack(sh, c, tick.value.m))) &&
      (tick.Ok? && tick.value.Advance? ==>
        r == WriteColour(WithTrack(sh, c, tick.value.m), Writes(sh, c), Track.Value3(tick.value.m, tick.value.ease)))
  {
    var tick :- Track.Step(n, frame, TrackOf(sh, c).m, TrackKeys.OptKeysOf(SetsOf(sh, c), true), Track.ColourRule);
    match tick
    case Hold(m) => Ok(WithTrack(sh, c, m))
    case Advance(m, e) => WriteColour(WithTrack(sh, c, m), Writes(sh, c), Track.Value3(m, e))
  }

  predicate Live(t: Track.Setup) {
    t.animated && !t.m.completed
  }

  function UpdateSlaves(n: Ease.Numerics, frame: real, slaves: seq<MovinShapeSlave.Slave>): (r: Result<seq<MovinShapeSlave.Slave>>)
    ensures r.Ok? <==> forall i :: 0 <= i < |slaves| ==> MovinShapeSlave.Update(n, frame, slaves[i]).Ok?
    ensures r.Ok? ==> |r.value| == |slaves| && forall i :: 0 <= i < |slaves| ==> MovinShapeSlave.Update(n, frame, slaves[i]) == Ok(r.value[i])
  {
    var rs := seq(|slaves|, i requires 0 <= i < |slaves| => MovinShapeSlave.Update(n, frame, slaves[i]));
    assert forall i :: 0 <= i < |slaves| ==> rs[i] == MovinShapeSlave.Update(n, frame, slaves[i]);
    CollectInOrder(rs)
  }


  /** Both states have the same number of slaves (or neither has any). */
  predicate SameSlaves(a: ShapeState, b: ShapeState) {
    (a.slaves.Some? <==> b.slaves.Some?) && (a.slaves.Some? ==> |a.slaves.value| == |b.slaves.value|)
  }

  /** The shape's own three tracks, in the order Update runs them. */
  function UpdateTracks(n: Ease.Numerics, frame: real, sh: ShapeState): (r: Result<ShapeState>)
    ensures r.Ok? ==> SameSlaves(sh, r.value)
  {
    var a :- if PathMotion.Live(sh.path) then UpdatePath(n, frame, sh) else Ok(sh);
    var b :- if Live(a.strokeTrack) then UpdateColour(n, frame, a, StrokeChannel) else Ok(a);
    if Live(b.fillTrack) then UpdateColour(n, frame, b, FillChannel) else Ok(b)
  }

  /**
   * Update: the path, stroke and fill tracks in that order, each only while animated
   * and not completed; then every slave.
   */
  function Update(n: Ease.Numerics, frame: real, sh: ShapeState): (r: Result<ShapeState>)
    ensures r.Ok? ==> (r.value.slaves.Some? <==> sh.slaves.Some?)
    ensures r.Ok? && sh.slaves.Some? ==> |r.value.slaves.value| == |sh.slaves.value|
    ensures !PathMotion.Live(sh.path) && !Live(sh.strokeTrack) && !Live(sh.fillTrack) && sh.slaves.None? ==> r == Ok(sh)
  {
    var c :- UpdateTracks(n, frame, sh);
    if c.slaves.None? then Ok(c)
    else
      var slaves :- UpdateSlaves(n, frame, c.slaves.value);
      Ok(c.(slaves := Some(slaves)))
  }

  function ResetSlaves(slaves: seq<MovinShapeSlave.Slave>): (r: Result<seq<MovinShapeSlave.Slave>>)
    ensures r.Ok? <==> forall i :: 0 <= i < |slaves| ==> MovinShapeSlave.ResetKeyframes(slaves[i]).Ok?
    ensures r.Ok? ==> |r.value| == |slaves| && forall i :: 0 <= i < |slaves| ==> MovinShapeSlave.ResetKeyframes(slaves[i]) == Ok(r.value[i])
  {
    var rs := seq(|slaves|, i requires 0 <= i < |slaves| => MovinShapeSlave.ResetKeyframes(slaves[i]));
    assert forall i :: 0 <= i < |slaves| ==> rs[i] == MovinShapeSlave.ResetKeyframes(slaves[i]);
    CollectInOrder(rs)
  }


  /** Reloads segment 0 of a colour track when it is animated. */
  function ResetColour(t: Track.Setup, sets: Option<seq<Keyframe>>): (r: Result<Track.Setup>)
    ensures !t.animated ==> r == Ok(t)
    ensures t.animated ==> r.Ok? == Track.SetKeyframe(t.m, TrackKeys.OptKeysOf(sets, true), 0, Track.ColourRule).Ok?
    ensures t.animated && r.Ok? ==> r.value == Track.Setup(true, Track.SetKeyframe(t.m, TrackKeys.OptKeysOf(sets, true), 0, Track.ColourRule).value)
  {
    if !t.animated then Ok(t)
    else
      var m :- Track.SetKeyframe(t.m, TrackKeys.OptKeysOf(sets, true), 0, Track.ColourRule);
      Ok(t.(m := m))
  }

  /**
   * ResetKeyframes: every animated track reloads segment 0 and is no longer
   * completed; then every slave resets.
   */
  function ResetKeyframes(sh: ShapeState): (r: Result<ShapeState>)
    ensures r.Ok? && sh.path.animated ==> !r.value.path.m.completed && (sh.path.m.keys > 0 && sh.motionSet.Some? ==> r.value.path.m.key == 0)
    ensures r.Ok? && sh.strokeTrack.animated ==> !r.value.strokeTrack.m.completed && (sh.strokeTrack.m.keys > 0 && sh.content.strokeColorSets.Some? ==> r.value.strokeTrack.m.key == 0)
    ensures r.Ok? && sh.fillTrack.animated ==> !r.value.fillTrack.m.completed && (sh.fillTrack.m.keys > 0 && sh.content.fillColorSets.Some? ==> r.value.fillTrack.m.key == 0)
    ensures r.Ok? ==> r.value.points == sh.points && r.value.segments == sh.segments && r.value.currentStroke == sh.currentStroke
    ensures r.Ok? && sh.slaves.Some? ==> r.value.slaves.Some? && |r.value.slaves.value| == |sh.slaves.value|
  {
    var path :- if sh.path.animated then PathMotion.SetKeyframe(sh.path, sh.motionSet, 0, Track.PathRule) else Ok(sh.path);
    var st :- ResetColour(sh.strokeTrack, sh.content.strokeColorSets);
    var fl :- ResetColour(sh.fillTrack, sh.content.fillColorSets);
    var slaves :- if sh.slaves.None? then Ok(None) else var s :- ResetSlaves(sh.slaves.value); Ok(Some(s));
    Ok(sh.(path := path, strokeTrack := st, fillTrack := fl, slaves := slaves))
  }

  /**
   * The slaves' half of CreateBlendKeyframe: slave i gets a one-key path segment
   * towards the vertices of target path i + 1, starting from its live vertices.
   */
  function BlendSlaves(slaves: seq<MovinShapeSlave.Slave>, targets: seq<ShapePath>, duration: real, outTangent: Vec2, inTangent: Vec2): (r: Result<seq<MovinShapeSlave.Slave>>)
    ensures r.Ok? <==> |targets| >= |slaves| && forall i :: 0 <= i < |slaves| ==> targets[i].points.Some?
    ensures r.Ok? ==> |r.value| == |slaves| && forall i :: 0 <= i < |slaves| ==>
      r.value[i] == slaves[i].(path := PathMotion.CreatePathKeyframe(slaves[i].path.(animated := true), 0.0, duration, outTangent, inTangent, targets[i].points))
  {
    if |slaves| == 0 then Ok([])
    else if |targets| == 0 then Err(IndexOutOfRange)
    else if targets[0].points.None? then Err(NullReference)
    else
      var first := slaves[0].(path := PathMotion.CreatePathKeyframe(slaves[0].path.(animated := true), 0.0, duration, outTangent, inTangent, targets[0].points));
      var rest :- BlendSlaves(slaves[1..], targets[1..], duration, outTangent, inTangent);
      assert forall i :: 1 <= i < |slaves| ==> slaves[i] == slaves[1..][i - 1];
      assert forall i :: 1 <= i < |targets| ==> targets[i] == targets[1..][i - 1];
      Ok([first] + rest)
  }

  /**
   * CreateBlendKeyframe: a one-key segment [0, duration] with the given tangents on
   * the path (from the live vertices to the target's first path), on the stroke and
   * fill colours (from the current colours to the target's, white when it has
   * none), and on slave i (towards target path i + 1).
   */
  function CreateBlendKeyframe(sh: ShapeState, target: Shape, duration: real, ease: seq<Vec2>): (r: Result<ShapeState>)
    ensures r.Ok? <==> (
      |target.paths| > 0 && target.paths[0].points.Some? && |ease| >= 2 &&
      (sh.slaves.Some? ==> |target.paths| > |sh.slaves.value| && forall i :: 1 <= i <= |sh.slaves.value| ==> target.paths[i].points.Some?))
    ensures r.Ok? ==>
      var b := r.value;
      b.path.animated && b.path.m.keys == 1 && b.path.m.key == 0 && !b.path.m.completed &&
      b.path.m.startFrame == 0.0 && b.path.m.endFrame == duration &&
      b.path.m.outTangent == ease[0] && b.path.m.inTangent == ease[1] &&
      b.path.start == PathMotion.LivePoints && b.path.end == target.paths[0].points && b.points == sh.points
    ensures r.Ok? ==>
      var b := r.value;
      b.strokeTrack.animated && b.strokeTrack.m.keys == 1 && b.strokeTrack.m.endFrame == duration &&
      b.strokeTrack.m.startValue == sh.currentStroke && b.strokeTrack.m.endValue == RgbOrWhite(target.strokeColor) &&
      b.fillTrack.animated && b.fillTrack.m.keys == 1 && b.fillTrack.m.endFrame == duration &&
      b.fillTrack.m.startValue == sh.currentFill && b.fillTrack.m.endValue == RgbOrWhite(target.fillColor)
    ensures r.Ok? && sh.slaves.Some? ==>
      r.value.slaves.Some? && |r.value.slaves.value| == |sh.slaves.value| &&
      forall i :: 1 <= i <= |sh.slaves.value| ==>
        r.value.slaves.value[i - 1].path.end == target.paths[i].points && r.value.slaves.value[i - 1].path.start == PathMotion.LivePoints
  {
    if |target.paths| == 0 then Err(IndexOutOfRange)
    else if target.paths[0].points.None? then Err(NullReference)
    else if |ease| < 2 then Err(IndexOutOfRange)
    else
      var path := PathMotion.CreatePathKeyframe(sh.path.(animated := true), 0.0, duration, ease[0], ease[1], target.paths[0].points);
      var st := Track.Setup(true, Track.CreateKeyframe(sh.strokeTrack.m, 0.0, duration, ease[0], ease[1], sh.currentStroke, RgbOrWhite(target.strokeColor)));
      var fl := Track.Setup(true, Track.CreateKeyframe(sh.fillTrack.m, 0.0, duration, ease[0], ease[1], sh.currentFill, RgbOrWhite(target.fillColor)));
      var slaves :- if sh.slaves.None? then Ok(None)
                    else var s :- BlendSlaves(sh.slaves.value, target.paths[1..], duration, ease[0], ease[1]); Ok(Some(s));
      Ok(sh.(path := path, strokeTrack := st, fillTrack := fl, slaves := slaves))
  }

  /**
   * A blend starts where the shape is: the first colour update of a blend of
   * positive duration, at frame 0, writes back the colour the shape already showed.
   */
  lemma BlendColourStartsInPlace(n: Ease.Numerics, sh: ShapeState, target: Shape, duration: real, ease: seq<Vec2>)
    requires duration > 0.0 && CreateBlendKeyframe(sh, target, duration, ease).Ok?
    ensures var b := CreateBlendKeyframe(sh, target, duration, ease).value;
      UpdateColour(n, 0.0, b, StrokeChannel).Ok? ==> UpdateColour(n, 0.0, b, StrokeChannel).value.currentStroke == sh.currentStroke
  {
    var b := CreateBlendKeyframe(sh, target, duration, ease).value;
    var sets := TrackKeys.OptKeysOf(SetsOf(b, StrokeChannel), true);
    Track.BlendSegmentEndpoints(n, sh.strokeTrack.m, duration, ease[0], ease[1], sh.currentStroke, RgbOrWhite(target.strokeColor),
                                sets, Track.ColourRule);
    assert TrackOf(b, StrokeChannel).m == Track.CreateKeyframe(sh.strokeTrack.m, 0.0, duration, ease[0], ease[1], sh.currentStroke, RgbOrWhite(target.strokeColor));
    var tick := Track.Step(n, 0.0, TrackOf(b, StrokeChannel).m, sets, Track.ColourRule);
    assert tick.Ok? && tick.value.Advance? && Track.Value3(tick.value.m, tick.value.ease) == sh.currentStroke;
    assert Writes(b, StrokeChannel) == StrokeChannel;
  }

  /**
   * With both colour set arrays null and a stroke object present, a blended fill
   * track writes the stroke colour: at frame 0 the stroke takes the old fill
   * colour and the fill colour stays as it was. The parser never produces this
   * combination (BodymovinParse.PaintHasSets); the reachable case is
   * BareBlendFaultsOnFill.
   */
  lemma FillBlendWritesStroke(n: Ease.Numerics, sh: ShapeState, target: Shape, duration: real, ease: seq<Vec2>)
    requires duration > 0.0 && CreateBlendKeyframe(sh, target, duration, ease).Ok?
    requires sh.content.strokeColorSets.None? && sh.content.fillColorSets.None?
    requires sh.stroke.Some?
    ensures var b := CreateBlendKeyframe(sh, target, duration, ease).value;
      var u := UpdateColour(n, 0.0, b, FillChannel);
      u.Ok? ==> u.value.currentStroke == sh.currentFill && u.value.currentFill == sh.currentFill
  {
    var b := CreateBlendKeyframe(sh, target, duration, ease).value;
    var sets := TrackKeys.OptKeysOf(SetsOf(b, FillChannel), true);
    Track.BlendSegmentEndpoints(n, sh.fillTrack.m, duration, ease[0], ease[1], sh.currentFill, RgbOrWhite(target.fillColor),
                                sets, Track.ColourRule);
    assert TrackOf(b, FillChannel).m == Track.CreateKeyframe(sh.fillTrack.m, 0.0, duration, ease[0], ease[1], sh.currentFill, RgbOrWhite(target.fillColor));
    var tick := Track.Step(n, 0.0, TrackOf(b, FillChannel).m, sets, Track.ColourRule);
    assert tick.Ok? && tick.value.Advance? && Track.Value3(tick.value.m, tick.value.ease) == sh.currentFill;
    assert Writes(b, FillChannel) == StrokeChannel;
  }

  /**
   * The reachable case of the shared set reference: a parsed shape with neither
   * an "st" nor an "fl" item has both colour set arrays null and no stroke object,
   * so after a blend the first fill update, at frame 0, takes the stroke branch
   * and faults on the missing stroke.
   */
  lemma BareBlendFaultsOnFill(n: Ease.Numerics, s: BodymovinParse.RawShape, target: Shape, duration: real, ease: seq<Vec2>)
    requires BodymovinParse.ParseShape(s).Ok?
    requires BodymovinParse.LastOf(s.items, BodymovinParse.Stroke).None? && BodymovinParse.LastOf(s.items, BodymovinParse.Fill).None?
    requires duration > 0.0 && Build(BodymovinParse.ParseShape(s).value).Ok?
    requires CreateBlendKeyframe(Build(BodymovinParse.ParseShape(s).value).value, target, duration, ease).Ok?
    ensures var b := CreateBlendKeyframe(Build(BodymovinParse.ParseShape(s).value).value, target, duration, ease).value;
      UpdateColour(n, 0.0, b, FillChannel) == Err(NullReference)
  {
    var c := BodymovinParse.ParseShape(s).value;
    BodymovinParse.PaintHasSets(s);
    StrokelessFillBlendFaults(n, Build(c).value, target, duration, ease);
  }

  /** The fill blend of a shape with null colour set arrays and no stroke object faults on its first update. */
  lemma StrokelessFillBlendFaults(n: Ease.Numerics, sh: ShapeState, target: Shape, duration: real, ease: seq<Vec2>)
    requires duration > 0.0 && CreateBlendKeyframe(sh, target, duration, ease).Ok?
    requires sh.content.strokeColorSets.None? && sh.content.fillColorSets.None? && sh.stroke.None?
    ensures UpdateColour(n, 0.0, CreateBlendKeyframe(sh, target, duration, ease).value, FillChannel) == Err(NullReference)
  {
    var b := CreateBlendKeyframe(sh, target, duration, ease).value;
    var sets := TrackKeys.OptKeysOf(SetsOf(b, FillChannel), true);
    Track.BlendSegmentEndpoints(n, sh.fillTrack.m, duration, ease[0], ease[1], sh.currentFill, RgbOrWhite(target.fillColor),
                                sets, Track.ColourRule);
    assert TrackOf(b, FillChannel).m == Track.CreateKeyframe(sh.fillTrack.m, 0.0, duration, ease[0], ease[1], sh.currentFill, RgbOrWhite(target.fillColor));
    var tick := Track.Step(n, 0.0, TrackOf(b, FillChannel).m, sets, Track.ColourRule);
    assert tick.Ok? && tick.value.Advance?;
    assert Writes(b, FillChannel) == StrokeChannel;
    assert b.stroke.None?;
  }
}
