/**
 * MovinLayer: one layer of the newer player. Six tracks (opacity, position,
 * scale, and rotation about x, y and z) drive the displayed transform; the layer
 * is shown only inside its [inFrame, outFrame) window, and its shapes are updated
 * before its own tracks.
 */
module MovinLayer {
  import opened Wrappers
  import opened Vectors
  import opened Content
  import Ease
  import Track
  import opened TrackKeys
  import MovinShape

  /**
   * The layer: its document record, its position offset (a field of the document
   * layer record the parser does not define, taken here as given), whether it is
   * shown, the displayed transform and opacity, its tracks and its shapes.
   */
  datatype LayerState = LayerState(
    content: Layer, offset: Vec3, active: bool,
    position: Vec3, scale: Vec3, rotation: Vec3, opacity: real,
    opacityTrack: Track.Setup, positionTrack: Track.Setup, scaleTrack: Track.Setup,
    rotationXTrack: Track.Setup, rotationYTrack: Track.Setup, rotationZTrack: Track.Setup,
    shapes: seq<MovinShape.ShapeState>)

  function TrackOf(l: LayerState, k: Kind): Track.Setup {
    match k
    case Opacity => l.opacityTrack
    case Position => l.positionTrack
    case Scale => l.scaleTrack
    case RotationX => l.rotationXTrack
    case RotationY => l.rotationYTrack
    case RotationZ => l.rotationZTrack
  }

  function WithTrack(l: LayerState, k: Kind, t: Track.Setup): (r: LayerState)
    ensures TrackOf(r, k) == t
    ensures forall k' :: k' != k ==> TrackOf(r, k') == TrackOf(l, k')
  {
    match k
    case Opacity => l.(opacityTrack := t)
    case Position => l.(positionTrack := t)
    case Scale => l.(scaleTrack := t)
    case RotationX => l.(rotationXTrack := t)
    case RotationY => l.(rotationYTrack := t)
    case RotationZ => l.(rotationZTrack := t)
  }

  /** MotionSetup on a layer track: animated iff the set is non-empty, then segment 0 is loaded. */
  function Setup(c: Layer, k: Kind): (r: Track.Setup)
    ensures r.animated <==> |SetsOf(c, k)| > 0
    ensures r.animated ==> (
      r.m.key == 0 && r.m.keys == |SetsOf(c, k)| && !r.m.completed &&
      r.m.startFrame == SetsOf(c, k)[0].t &&
      r.m.endFrame == (if |SetsOf(c, k)| > 1 then SetsOf(c, k)[1].t else SetsOf(c, k)[0].t) &&
      r.m.startValue == LayerKeys(c, k)[0].s && r.m.endValue == LayerKeys(c, k)[0].e)
  {
    var s := Track.MotionSetup(Track.Blank, Some(LayerKeys(c, k)), Track.LayerRule);
    s.value
  }

  /** One shape as the layer builds it: built, then given the layer's opacity. */
  function BuildShape(sh: Shape, opacity: real): Result<MovinShape.ShapeState> {
    var b :- MovinShape.Build(sh);
    Ok(MovinShape.UpdateOpacity(b, opacity))
  }

  /** Every shape, built from the last to the first, and given the layer's opacity. */
  function BuildShapes(shapes: seq<Shape>, opacity: real): (r: Result<seq<MovinShape.ShapeState>>)
    ensures r.Ok? <==> forall i :: 0 <= i < |shapes| ==> BuildShape(shapes[i], opacity).Ok?
    ensures r.Ok? ==> |r.value| == |shapes|
    ensures r.Ok? ==> forall i :: 0 <= i < |shapes| ==> Ok(r.value[i]) == BuildShape(shapes[i], opacity)
  {
    var rs := seq(|shapes|, i requires 0 <= i < |shapes| => BuildShape(shapes[i], opacity));
    assert forall i :: 0 <= i < |shapes| ==> rs[i] == BuildShape(shapes[i], opacity);
    CollectFromEnd(rs)
  }

  /**
   * The constructor: the displayed position is the document position plus the
   * offset, scale and rotation are the document's, each track is set up, and each
   * shape is built and given the layer's opacity. The layer starts shown.
   */
  function Build(c: Layer, offset: Vec3): (r: Result<LayerState>)
    ensures r.Ok? <==> forall i :: 0 <= i < |c.shapes| ==> MovinShape.Build(c.shapes[i]).Ok?
    ensures r.Ok? ==> r.value.position == c.position.Add(offset) && r.value.scale == c.scale && r.value.rotation == c.rotationEuler
    ensures r.Ok? ==> r.value.opacity == c.opacity && r.value.active && r.value.offset == offset
    ensures r.Ok? ==> forall k :: TrackOf(r.value, k) == Setup(c, k)
    ensures r.Ok? ==> |r.value.shapes| == |c.shapes|
  {
    var shapes :- BuildShapes(c.shapes, c.opacity);
    Ok(LayerState(c, offset, true, c.position.Add(offset), c.scale, c.rotationEuler, c.opacity,
                  Setup(c, Opacity), Setup(c, Position), Setup(c, Scale),
                  Setup(c, RotationX), Setup(c, RotationY), Setup(c, RotationZ), shapes))
  }

  function OpacityToShapes(shapes: seq<MovinShape.ShapeState>, v: real): (r: seq<MovinShape.ShapeState>)
    ensures |r| == |shapes| && forall i :: 0 <= i < |shapes| ==> r[i] == MovinShape.UpdateOpacity(shapes[i], v)
  {
    seq(|shapes|, i requires 0 <= i < |shapes| => MovinShape.UpdateOpacity(shapes[i], v))
  }

  /** What a layer shows for one kind: a vector for position and scale, a number otherwise. */
  datatype Reading = Vector(v: Vec3) | Scalar(x: real)

  /** The displayed value a kind drives: the transform's position, scale or Euler component, or the opacity. */
  function Shown(l: LayerState, k: Kind): Reading {
    match k
    case Opacity => Scalar(l.opacity)
    case Position => Vector(l.position)
    case Scale => Vector(l.scale)
    case RotationX => Scalar(l.rotation.x)
    case RotationY => Scalar(l.rotation.y)
    case RotationZ => Scalar(l.rotation.z)
  }

  /** The value a track's motion and ease put on show for its kind: position carries the layer's offset. */
  function NewReading(l: LayerState, k: Kind, m: Track.Motion, ease: real): Reading {
    match k
    case Position => Vector(Track.Value3(m, ease).Add(l.offset))
    case Scale => Vector(Track.Value3(m, ease))
    case _ => Scalar(Track.Value1(m, ease))
  }

  /**
   * Writes a track's resolved value: the kind's displayed value becomes the new
   * reading, every other kind keeps what it showed, and the tracks, document,
   * offset and shown flag stay. Opacity also goes to every shape.
   */
  function Apply(l: LayerState, k: Kind, m: Track.Motion, ease: real): (r: LayerState)
    ensures Shown(r, k) == NewReading(l, k, m, ease)
    ensures forall k' :: k' != k ==> Shown(r, k') == Shown(l, k')
    ensures SameLayer(l, r) && forall k' :: TrackOf(r, k') == TrackOf(l, k')
    ensures k == Opacity ==> forall i :: 0 <= i < |r.shapes| ==> r.shapes[i] == MovinShape.UpdateOpacity(l.shapes[i], r.opacity)
    ensures k != Opacity ==> r.shapes == l.shapes
  {
    match k
    case Position => l.(position := Track.Value3(m, ease).Add(l.offset))
    case Scale => l.(scale := Track.Value3(m, ease))
    case RotationX => l.(rotation := l.rotation.(x := Track.Value1(m, ease)))
    case RotationY => l.(rotation := l.rotation.(y := Track.Value1(m, ease)))
    case RotationZ => l.(rotation := l.rotation.(z := Track.Value1(m, ease)))
    case Opacity =>
      var v := Track.Value1(m, ease);
      l.(opacity := v, shapes := OpacityToShapes(l.shapes, v))
  }

  /**
   * UpdateProperty: a step of the track with the skip loop over the document's
   * keys; a finished track writes nothing, otherwise the value is written.
   */
  function UpdateProperty(n: Ease.Numerics, frame: real, l: LayerState, k: Kind): (r: Result<LayerState>)
    ensures r.Ok? ==> SameLayer(l, r.value)
    ensures var tick := Track.Step(n, frame, TrackOf(l, k).m, Some(LayerKeys(l.content, k)), Track.LayerRule);
      (tick.Err? <==> r.Err?) &&
      (tick.Ok? && tick.value.Hold? ==> r == Ok(WithTrack(l, k, TrackOf(l, k).(m := tick.value.m)))) &&
      (tick.Ok? && tick.value.Advance? ==> r == Ok(Apply(WithTrack(l, k, TrackOf(l, k).(m := tick.value.m)), k, tick.value.m, tick.value.ease)))
  {
    var tick :- Track.Step(n, frame, TrackOf(l, k).m, Some(LayerKeys(l.content, k)), Track.LayerRule);
    var l' := WithTrack(l, k, TrackOf(l, k).(m := tick.m));
    match tick
    case Hold(_) => Ok(l')
    case Advance(m, e) => Ok(Apply(l', k, m, e))
  }

  predicate Live(t: Track.Setup) {
    t.animated && !t.m.completed
  }

  /** What a tick leaves alone: the document, the offset, the active flag and the number of shapes. */
  predicate SameLayer(a: LayerState, b: LayerState) {
    b.content == a.content && b.offset == a.offset && b.active == a.active && |b.shapes| == |a.shapes|
  }

  /** The tracks in `order`, each only while animated and not completed. */
  function UpdateTracks(n: Ease.Numerics, frame: real, l: LayerState, order: seq<Kind>): (r: Result<LayerState>)
    ensures r.Ok? ==> SameLayer(l, r.value)
    ensures (forall i :: 0 <= i < |order| ==> !Live(TrackOf(l, order[i]))) ==> r == Ok(l)
    decreases |order|
  {
    if |order| == 0 then Ok(l)
    else
      var l' :- if Live(TrackOf(l, order[0])) then UpdateProperty(n, frame, l, order[0]) else Ok(l);
      UpdateTracks(n, frame, l', order[1..])
  }

  function UpdateShapes(n: Ease.Numerics, frame: real, shapes: seq<MovinShape.ShapeState>): (r: Result<seq<MovinShape.ShapeState>>)
    ensures r.Ok? <==> forall i :: 0 <= i < |shapes| ==> MovinShape.Update(n, frame, shapes[i]).Ok?
    ensures r.Ok? ==> |r.value| == |shapes| && forall i :: 0 <= i < |shapes| ==> MovinShape.Update(n, frame, shapes[i]) == Ok(r.value[i])
  {
    var rs := seq(|shapes|, i requires 0 <= i < |shapes| => MovinShape.Update(n, frame, shapes[i]));
    assert forall i :: 0 <= i < |shapes| ==> rs[i] == MovinShape.Update(n, frame, shapes[i]);
    CollectInOrder(rs)
  }


  /** Inside the layer's window: inFrame <= frame < outFrame. */
  predicate InWindow(c: Layer, frame: real) {
    c.inFrame <= frame < c.outFrame
  }

  /**
   * Update: an inactive layer becomes active once the frame reaches inFrame; an
   * active one outside [inFrame, outFrame) is deactivated and nothing else happens;
   * otherwise the shapes and then the tracks are updated.
   */
  function Update(n: Ease.Numerics, frame: real, l: LayerState): (r: Result<LayerState>)
    ensures r.Ok? ==> (r.value.active <==> InWindow(l.content, frame))
    ensures !InWindow(l.content, frame) ==> r == Ok(l.(active := false))
    ensures InWindow(l.content, frame) ==> (r.Ok? <==> (
      UpdateShapes(n, frame, l.shapes).Ok? &&
      UpdateTracks(n, frame, l.(active := true, shapes := UpdateShapes(n, frame, l.shapes).value), UpdateOrder).Ok?))
  {
    var active := l.active || frame >= l.content.inFrame;
    if !active then Ok(l)
    else if frame >= l.content.outFrame || frame < l.content.inFrame then Ok(l.(active := false))
    else
      var shapes :- UpdateShapes(n, frame, l.shapes);
      UpdateTracks(n, frame, l.(active := true, shapes := shapes), UpdateOrder)
  }

  /** A finished or non-animated track is left exactly as it was by Update. */
  lemma {:induction false} IdleTracksUntouched(n: Ease.Numerics, frame: real, l: LayerState, order: seq<Kind>, k: Kind)
    requires !Live(TrackOf(l, k))
    ensures UpdateTracks(n, frame, l, order).Ok? ==> TrackOf(UpdateTracks(n, frame, l, order).value, k) == TrackOf(l, k)
    decreases |order|
  {
    if |order| > 0 {
      var next := if Live(TrackOf(l, order[0])) then UpdateProperty(n, frame, l, order[0]) else Ok(l);
      if next.Ok? {
        if Live(TrackOf(l, order[0])) {
          assert order[0] != k;
          var tick := Track.Step(n, frame, TrackOf(l, order[0]).m, Some(LayerKeys(l.content, order[0])), Track.LayerRule);
          var w := WithTrack(l, order[0], TrackOf(l, order[0]).(m := tick.value.m));
          assert TrackOf(w, k) == TrackOf(l, k);
          if tick.value.Advance? {
            assert TrackOf(Apply(w, order[0], tick.value.m, tick.value.ease), k) == TrackOf(w, k);
          }
        }
        IdleTracksUntouched(n, frame, next.value, order[1..], k);
      }
    }
  }

  /** A track after a reload: still animated, same key count, not completed, at segment 0 when it has keys. */
  predicate Reloaded(before: Track.Setup, after: Track.Setup) {
    after.animated && after.m.keys == before.m.keys && !after.m.completed && (before.m.keys > 0 ==> after.m.key == 0)
  }

  /** Reloads segment 0 of an animated track. */
  function ResetTrack(l: LayerState, k: Kind): (r: Result<LayerState>)
    ensures !TrackOf(l, k).animated ==> r == Ok(l)
    ensures TrackOf(l, k).animated ==>
      var s := Track.SetKeyframe(TrackOf(l, k).m, Some(LayerKeys(l.content, k)), 0, Track.LayerRule);
      (r.Ok? <==> s.Ok?) && (r.Ok? ==> r.value == WithTrack(l, k, TrackOf(l, k).(m := s.value)))
    ensures r.Ok? ==> r.value.shapes == l.shapes && r.value.content == l.content && r.value.position == l.position
    ensures r.Ok? ==> SameLayer(l, r.value) && forall k' :: Shown(r.value, k') == Shown(l, k')
    ensures r.Ok? ==> forall k' :: k' != k ==> TrackOf(r.value, k') == TrackOf(l, k')
    ensures r.Ok? && TrackOf(l, k).animated ==> Reloaded(TrackOf(l, k), TrackOf(r.value, k))
  {
    if !TrackOf(l, k).animated then Ok(l)
    else
      var m :- Track.SetKeyframe(TrackOf(l, k).m, Some(LayerKeys(l.content, k)), 0, Track.LayerRule);
      Ok(WithTrack(l, k, TrackOf(l, k).(m := m)))
  }

  function ResetTracks(l: LayerState, order: seq<Kind>): (r: Result<LayerState>)
    ensures r.Ok? ==> r.value.shapes == l.shapes && r.value.content == l.content && r.value.position == l.position
    ensures r.Ok? ==> SameLayer(l, r.value) && forall k :: Shown(r.value, k) == Shown(l, k)
    ensures r.Ok? ==> forall k :: k !in order || !TrackOf(l, k).animated ==> TrackOf(r.value, k) == TrackOf(l, k)
    ensures r.Ok? ==> forall k :: k in order && TrackOf(l, k).animated ==> Reloaded(TrackOf(l, k), TrackOf(r.value, k))
    decreases |order|
  {
    if |order| == 0 then Ok(l)
    else
      var l' :- ResetTrack(l, order[0]);
      var r :- ResetTracks(l', order[1..]);
      assert forall k :: k in order ==> k == order[0] || k in order[1..];
      Ok(r)
  }

  function ResetShapes(shapes: seq<MovinShape.ShapeState>): (r: Result<seq<MovinShape.ShapeState>>)
    ensures r.Ok? <==> forall i :: 0 <= i < |shapes| ==> MovinShape.ResetKeyframes(shapes[i]).Ok?
    ensures r.Ok? ==> |r.value| == |shapes| && forall i :: 0 <= i < |shapes| ==> MovinShape.ResetKeyframes(shapes[i]) == Ok(r.value[i])
  {
    var rs := seq(|shapes|, i requires 0 <= i < |shapes| => MovinShape.ResetKeyframes(shapes[i]));
    assert forall i :: 0 <= i < |shapes| ==> rs[i] == MovinShape.ResetKeyframes(shapes[i]);
    CollectInOrder(rs)
  }


  /**
   * ResetKeyframes: every animated track reloads segment 0 and is no longer
   * completed, then every shape resets. Nothing displayed changes: the
   * transform, opacity, document, offset and shown flag are kept.
   */
  function ResetKeyframes(l: LayerState): (r: Result<LayerState>)
    ensures r.Ok? ==> forall k :: TrackOf(l, k).animated ==>
      !TrackOf(r.value, k).m.completed && (TrackOf(l, k).m.keys > 0 ==> TrackOf(r.value, k).m.key == 0)
    ensures r.Ok? ==> forall k :: !TrackOf(l, k).animated ==> TrackOf(r.value, k) == TrackOf(l, k)
    ensures r.Ok? ==> r.value.position == l.position && |r.value.shapes| == |l.shapes|
    ensures r.Ok? ==> SameLayer(l, r.value) && forall k :: Shown(r.value, k) == Shown(l, k)
    ensures r.Ok? ==> forall i :: 0 <= i < |l.shapes| ==> MovinShape.ResetKeyframes(l.shapes[i]) == Ok(r.value.shapes[i])
  {
    var t :- ResetTracks(l, ResetOrder);
    EveryKindResets();
    var shapes :- ResetShapes(l.shapes);
    Ok(WithShapes(t, shapes))
  }

  function WithShapes(l: LayerState, shapes: seq<MovinShape.ShapeState>): (r: LayerState)
    ensures forall k :: TrackOf(r, k) == TrackOf(l, k)
    ensures r.shapes == shapes && r.position == l.position
    ensures r.content == l.content && r.offset == l.offset && r.active == l.active
    ensures forall k :: Shown(r, k) == Shown(l, k)
  {
    l.(shapes := shapes)
  }

  // ---------- blending ----------

  /** The value a track of kind k currently displays, as the track stores it. */
  function Displayed(l: LayerState, k: Kind): Vec3 {
    match k
    case Position => l.position
    case Scale => l.scale
    case RotationX => Vec3(l.rotation.x, 0.0, 0.0)
    case RotationY => Vec3(l.rotation.y, 0.0, 0.0)
    case RotationZ => Vec3(l.rotation.z, 0.0, 0.0)
    case Opacity => Vec3(l.opacity, 0.0, 0.0)
  }

  /** The value the target layer's document gives a track of kind k. */
  function TargetValue(c: Layer, k: Kind): Vec3 {
    match k
    case Position => c.position
    case Scale => c.scale
    case RotationX => Vec3(c.rotationEuler.x, 0.0, 0.0)
    case RotationY => Vec3(c.rotationEuler.y, 0.0, 0.0)
    case RotationZ => Vec3(c.rotationEuler.z, 0.0, 0.0)
    case Opacity => Vec3(c.opacity, 0.0, 0.0)
  }

  /** A live one-key [0, duration] segment with the linear tangents. */
  predicate BlendSegment(t: Track.Setup, duration: real) {
    t.animated && t.m.keys == 1 && t.m.key == 0 && !t.m.completed &&
    t.m.startFrame == 0.0 && t.m.endFrame == duration &&
    t.m.outTangent == Ease.LinearOut && t.m.inTangent == Ease.LinearIn
  }

  /** The one-key [0, duration] segment with the linear tangents. */
  function BlendTrack(l: LayerState, k: Kind, duration: real, a: Vec3, b: Vec3): Track.Setup {
    Track.Setup(true, Track.CreateKeyframe(TrackOf(l, k).m, 0.0, duration, Ease.LinearOut, Ease.LinearIn, a, b))
  }

  /**
   * CreateBlendKeyframe as written: every track gets a one-key segment from the
   * displayed value to the target's, but the position segment starts at the
   * displayed position (which already includes the offset) and ends at the target
   * position plus the offset, while UpdateProperty adds the offset once more.
   */
  function CreateBlendKeyframe(l: LayerState, target: Layer, duration: real): (r: LayerState)
    ensures forall k :: BlendSegment(TrackOf(r, k), duration)
    ensures forall k :: TrackOf(r, k).m.startValue == Displayed(l, k)
    ensures forall k :: k != Position ==> TrackOf(r, k).m.endValue == TargetValue(target, k)
    ensures TrackOf(r, Position).m.endValue == target.position.Add(l.offset)
    ensures forall k :: Displayed(r, k) == Displayed(l, k)
    ensures r.offset == l.offset && r.content == l.content && r.shapes == l.shapes
  {
    l.(positionTrack := BlendTrack(l, Position, duration, l.position, target.position.Add(l.offset)),
       scaleTrack := BlendTrack(l, Scale, duration, l.scale, target.scale),
       rotationXTrack := BlendTrack(l, RotationX, duration, Displayed(l, RotationX), TargetValue(target, RotationX)),
       rotationYTrack := BlendTrack(l, RotationY, duration, Displayed(l, RotationY), TargetValue(target, RotationY)),
       rotationZTrack := BlendTrack(l, RotationZ, duration, Displayed(l, RotationZ), TargetValue(target, RotationZ)),
       opacityTrack := BlendTrack(l, Opacity, duration, Displayed(l, Opacity), TargetValue(target, Opacity)))
  }

  /**
   * CreateBlendKeyframe with the position segment in the track's own terms (without
   * the offset that UpdateProperty adds): from the displayed position minus the
   * offset to the target's document position.
   */
  function CreateBlendKeyframeCorrected(l: LayerState, target: Layer, duration: real): (r: LayerState)
    ensures forall k :: BlendSegment(TrackOf(r, k), duration)
    ensures forall k :: k != Position ==> TrackOf(r, k) == TrackOf(CreateBlendKeyframe(l, target, duration), k)
    ensures TrackOf(r, Position).m.startValue.Add(l.offset) == l.position
    ensures TrackOf(r, Position).m.endValue.Add(l.offset) == target.position.Add(l.offset)
    ensures r.offset == l.offset && r.content == l.content && r.shapes == l.shapes
  {
    var b := CreateBlendKeyframe(l, target, duration);
    b.(positionTrack := BlendTrack(l, Position, duration, l.position.Sub(l.offset), target.position))
  }

  /** The value a blend track shows on its first update, at frame 0. */
  lemma FirstBlendUpdate(n: Ease.Numerics, b: LayerState, k: Kind, duration: real)
    requires duration > 0.0
    requires TrackOf(b, k).m.keys == 1 && TrackOf(b, k).m.startFrame == 0.0 && TrackOf(b, k).m.endFrame == duration
    ensures UpdateProperty(n, 0.0, b, k).Ok?
    ensures k == Position ==> UpdateProperty(n, 0.0, b, k).value.position == TrackOf(b, k).m.startValue.Add(b.offset)
    ensures k == Scale ==> UpdateProperty(n, 0.0, b, k).value.scale == TrackOf(b, k).m.startValue
    ensures !IsVector(k) ==> Displayed(UpdateProperty(n, 0.0, b, k).value, k) == Vec3(TrackOf(b, k).m.startValue.x, 0.0, 0.0)
  {
    var m := TrackOf(b, k).m;
    Track.BlendSegmentEndpoints(n, m, duration, m.outTangent, m.inTangent, m.startValue, m.endValue,
                                Some(LayerKeys(b.content, k)), Track.LayerRule);
    assert Track.CreateKeyframe(m, 0.0, duration, m.outTangent, m.inTangent, m.startValue, m.endValue) == m.(key := 0, completed := false);
  }

  /**
   * As written, a blend with a non-zero offset makes the position jump on its first
   * update: at frame 0 the layer moves by the offset, and the segment ends one
   * offset beyond where the target layer is displayed.
   */
  lemma BlendPositionJumps(n: Ease.Numerics, l: LayerState, target: Layer, duration: real)
    requires duration > 0.0 && l.offset != Zero3
    ensures var b := CreateBlendKeyframe(l, target, duration);
      UpdateProperty(n, 0.0, b, Position).Ok? &&
      UpdateProperty(n, 0.0, b, Position).value.position == l.position.Add(l.offset) &&
      UpdateProperty(n, 0.0, b, Position).value.position != l.position
    ensures TrackOf(CreateBlendKeyframe(l, target, duration), Position).m.endValue.Add(l.offset) != target.position.Add(l.offset)
  {
    var b := CreateBlendKeyframe(l, target, duration);
    FirstBlendUpdate(n, b, Position, duration);
    OffsetMoves(l.position, l.offset);
    OffsetMoves(target.position.Add(l.offset), l.offset);
  }

  lemma OffsetMoves(p: Vec3, offset: Vec3)
    requires offset != Zero3
    ensures p.Add(offset) != p
  {
  }

  /**
   * Corrected, the blend is continuous: the first update leaves every displayed
   * value where it was, and the position segment ends where the target layer is
   * displayed.
   */
  lemma BlendCorrectedStartsInPlace(n: Ease.Numerics, l: LayerState, target: Layer, duration: real, k: Kind)
    requires duration > 0.0
    ensures var b := CreateBlendKeyframeCorrected(l, target, duration);
      UpdateProperty(n, 0.0, b, k).Ok? && Displayed(UpdateProperty(n, 0.0, b, k).value, k) == Displayed(l, k)
    ensures TrackOf(CreateBlendKeyframeCorrected(l, target, duration), Position).m.endValue.Add(l.offset) == target.position.Add(l.offset)
  {
    var b := CreateBlendKeyframeCorrected(l, target, duration);
    FirstBlendUpdate(n, b, k, duration);
    var u := UpdateProperty(n, 0.0, b, k).value;
    if k == Position {
      assert u.position == TrackOf(b, k).m.startValue.Add(l.offset);
    } else {
      var w := CreateBlendKeyframe(l, target, duration);
      assert TrackOf(b, k) == TrackOf(w, k);
      assert TrackOf(b, k).m.startValue == Displayed(l, k);
      if k == Scale {
        assert u.scale == l.scale;
      } else {
        assert Displayed(u, k) == Vec3(Displayed(l, k).x, 0.0, 0.0);
      }
    }
  }
}
