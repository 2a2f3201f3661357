/**
 * BodyLayer: one layer of the older player that Movin builds. It has the same six
 * tracks as MovinLayer, but under the older rules (no wrap-around, a single-key
 * set faults, the value is read from the document keyframe), a position offset of
 * half the composition size, and no stored opacity: the opacity value goes
 * straight to every shape.
 */
module BodyLayer {
  import opened Wrappers
  import opened Vectors
  import opened Content
  import Ease
  import Track
  import opened TrackKeys
  import BodyShape

  /** Integer division by 2 as C# does it: the quotient is truncated toward zero. */
  function Half(x: int): (r: int)
    ensures x >= 0 ==> 0 <= r && (2 * r == x || 2 * r == x - 1)
    ensures x < 0 ==> r <= 0 && (2 * r == x || 2 * r == x + 1)
  {
    if x >= 0 then x / 2 else -((-x) / 2)
  }

  /**
   * The offset subtracted from every position: half the composition width, minus
   * half its height (each halved in integers), and 0.
   */
  function PositionOffset(w: int, h: int): (r: Vec3)
    ensures r.z == 0.0
    ensures w >= 0 ==> 2.0 * r.x == w as real || 2.0 * r.x == (w - 1) as real
    ensures h >= 0 ==> -2.0 * r.y == h as real || -2.0 * r.y == (h - 1) as real
  {
    Vec3(Half(w) as real, -(Half(h) as real), 0.0)
  }

  /** The layer: its document record, the offset, whether it is shown, the displayed transform, its tracks and shapes. */
  datatype BodyLayerState = BodyLayerState(
    content: Layer, offset: Vec3, active: bool,
    position: Vec3, scale: Vec3, rotation: Vec3,
    opacityTrack: Track.Setup, positionTrack: Track.Setup, scaleTrack: Track.Setup,
    rotationXTrack: Track.Setup, rotationYTrack: Track.Setup, rotationZTrack: Track.Setup,
    shapes: seq<BodyShape.BodyShapeState>)

  function TrackOf(l: BodyLayerState, k: Kind): Track.Setup {
    match k
    case Opacity => l.opacityTrack
    case Position => l.positionTrack
    case Scale => l.scaleTrack
    case RotationX => l.rotationXTrack
    case RotationY => l.rotationYTrack
    case RotationZ => l.rotationZTrack
  }

  function WithTrack(l: BodyLayerState, k: Kind, t: Track.Setup): (r: BodyLayerState)
    ensures TrackOf(r, k) == t
    ensures forall k' :: k' != k ==> TrackOf(r, k') == TrackOf(l, k')
    ensures r.shapes == l.shapes && r.content == l.content && r.offset == l.offset && r.active == l.active
    ensures r.position == l.position && r.scale == l.scale && r.rotation == l.rotation
  {
    match k
    case Opacity => l.(opacityTrack := t)
    case Position => l.(positionTrack := t)
    case Scale => l.(scaleTrack := t)
    case RotationX => l.(rotationXTrack := t)
    case RotationY => l.(rotationYTrack := t)
    case RotationZ => l.(rotationZTrack := t)
  }

  function Keys(l: BodyLayerState, k: Kind): Option<seq<Track.Key>> {
    Some(LayerKeys(l.content, k))
  }

  /** MotionSetup under the older rules: a set with exactly one key faults. */
  function Setup(c: Layer, k: Kind): (r: Result<Track.Setup>)
    ensures r.Ok? <==> |SetsOf(c, k)| != 1
  {
    Track.MotionSetup(Track.Blank, Some(LayerKeys(c, k)), Track.OlderRule)
  }

  /** A set-up track with keys holds the first segment, from key 0 to key 1. */
  lemma SetupLoadsFirstSegment(c: Layer, k: Kind)
    requires Setup(c, k).Ok?
    ensures var t := Setup(c, k).value;
      (t.animated <==> |SetsOf(c, k)| > 0) &&
      (t.animated ==>
        t.m.key == 0 && t.m.keys == |SetsOf(c, k)| && !t.m.completed &&
        t.m.startFrame == SetsOf(c, k)[0].t && t.m.endFrame == SetsOf(c, k)[1].t)
  {
    var keys := LayerKeys(c, k);
    if |keys| > 0 {
      assert Track.Loaded(Setup(c, k).value.m, keys);
    }
  }

  /** Every shape, built from the last to the first. */
  function BuildShapes(shapes: seq<Shape>): (r: Result<seq<BodyShape.BodyShapeState>>)
    ensures r.Ok? <==> forall i :: 0 <= i < |shapes| ==> BodyShape.Build(shapes[i]).Ok?
    ensures r.Ok? ==> |r.value| == |shapes| && forall i :: 0 <= i < |shapes| ==> BodyShape.Build(shapes[i]) == Ok(r.value[i])
  {
    var rs := seq(|shapes|, i requires 0 <= i < |shapes| => BodyShape.Build(shapes[i]));
    assert forall i :: 0 <= i < |shapes| ==> rs[i] == BodyShape.Build(shapes[i]);
    CollectFromEnd(rs)
  }

  /** No property of the layer has exactly one key, kind by kind. */
  predicate Loadable(c: Layer) {
    |SetsOf(c, Position)| != 1 && |SetsOf(c, Scale)| != 1 && |SetsOf(c, RotationX)| != 1 &&
    |SetsOf(c, RotationY)| != 1 && |SetsOf(c, RotationZ)| != 1 && |SetsOf(c, Opacity)| != 1
  }

  /** Each track of l is the one Setup gives for its kind, kind by kind. */
  predicate SetUp(c: Layer, l: BodyLayerState) {
    Setup(c, Position) == Ok(l.positionTrack) && Setup(c, Scale) == Ok(l.scaleTrack) &&
    Setup(c, RotationX) == Ok(l.rotationXTrack) && Setup(c, RotationY) == Ok(l.rotationYTrack) &&
    Setup(c, RotationZ) == Ok(l.rotationZTrack) && Setup(c, Opacity) == Ok(l.opacityTrack)
  }

  lemma LoadableEveryKind(c: Layer)
    ensures Loadable(c) <==> forall k :: |SetsOf(c, k)| != 1
  {
    if Loadable(c) {
      forall k ensures |SetsOf(c, k)| != 1 {
        match k
        case Position => case Scale => case RotationX => case RotationY => case RotationZ => case Opacity =>
      }
    }
  }

  lemma SetUpEveryKind(c: Layer, l: BodyLayerState)
    requires SetUp(c, l)
    ensures forall k :: Setup(c, k) == Ok(TrackOf(l, k))
  {
    forall k ensures Setup(c, k) == Ok(TrackOf(l, k)) {
      match k
      case Position => case Scale => case RotationX => case RotationY => case RotationZ => case Opacity =>
    }
  }

  /**
   * The constructor's first half: the displayed position is the document position
   * minus the offset, and the tracks are set up in the order position, scale, the
   * rotations, opacity.
   */
  function BuildTracks(c: Layer, offset: Vec3): (r: Result<BodyLayerState>)
    ensures r.Ok? <==> Loadable(c)
    ensures r.Ok? ==> SetUp(c, r.value)
    ensures r.Ok? ==> r.value.content == c && r.value.offset == offset && r.value.active && r.value.shapes == []
    ensures r.Ok? ==> r.value.position == c.position.Sub(offset) && r.value.scale == c.scale && r.value.rotation == c.rotationEuler
  {
    var pos :- Setup(c, Position);
    var sc :- Setup(c, Scale);
    var rx :- Setup(c, RotationX);
    var ry :- Setup(c, RotationY);
    var rz :- Setup(c, RotationZ);
    var op :- Setup(c, Opacity);
    Ok(BodyLayerState(c, offset, true, c.position.Sub(offset), c.scale, c.rotationEuler, op, pos, sc, rx, ry, rz, []))
  }

  function WithShapes(l: BodyLayerState, shapes: seq<BodyShape.BodyShapeState>): (r: BodyLayerState)
    ensures forall k :: TrackOf(r, k) == TrackOf(l, k)
    ensures r.shapes == shapes && r.position == l.position && r.scale == l.scale && r.rotation == l.rotation
    ensures r.offset == l.offset && r.content == l.content && r.active == l.active
  {
    l.(shapes := shapes)
  }

  /**
   * The constructor: the tracks are set up and then the shapes are built. The
   * layer starts shown, at its document position less the offset.
   */
  function Build(c: Layer, w: int, h: int): (r: Result<BodyLayerState>)
    ensures r.Ok? <==> (forall k :: |SetsOf(c, k)| != 1) && (forall i :: 0 <= i < |c.shapes| ==> BodyShape.Build(c.shapes[i]).Ok?)
    ensures r.Ok? ==> r.value.offset == PositionOffset(w, h) && r.value.position.Add(r.value.offset) == c.position
    ensures r.Ok? ==> r.value.content == c && r.value.scale == c.scale && r.value.rotation == c.rotationEuler && r.value.active
    ensures r.Ok? ==> forall k :: Setup(c, k) == Ok(TrackOf(r.value, k))
    ensures r.Ok? ==> |r.value.shapes| == |c.shapes|
  {
    LoadableEveryKind(c);
    var offset := PositionOffset(w, h);
    var t :- BuildTracks(c, offset);
    SetUpEveryKind(c, t);
    var shapes :- BuildShapes(c.shapes);
    assert t.position.Add(offset) == c.position;
    Ok(WithShapes(t, shapes))
  }

  /** The opacity goes to each shape in turn; an unbuilt shape faults. */
  function OpacityToShapes(shapes: seq<BodyShape.BodyShapeState>, v: real): (r: Result<seq<BodyShape.BodyShapeState>>)
    ensures r.Ok? <==> forall i :: 0 <= i < |shapes| ==> shapes[i].alpha.Some?
    ensures r.Ok? ==> |r.value| == |shapes| && forall i :: 0 <= i < |shapes| ==> BodyShape.UpdateOpacity(shapes[i], v) == Ok(r.value[i])
  {
    var rs := seq(|shapes|, i requires 0 <= i < |shapes| => BodyShape.UpdateOpacity(shapes[i], v));
    assert forall i :: 0 <= i < |shapes| ==> rs[i] == BodyShape.UpdateOpacity(shapes[i], v);
    CollectInOrder(rs)
  }


  /**
   * Writes a track's value, read from the document keyframe: position subtracts
   * the offset, scale is the vector, rotations set one Euler component, and
   * opacity is read once per shape (so not at all without shapes) and pushed to
   * every shape.
   */
  function Apply(l: BodyLayerState, k: Kind, m: Track.Motion, ease: real): (r: Result<BodyLayerState>)
    ensures k == Position ==> (r.Ok? <==> Track.KeyValue3(m, Keys(l, k), ease).Ok?)
    ensures k == Position && r.Ok? ==>
      r.value.position.Add(l.offset) == Track.KeyValue3(m, Keys(l, k), ease).value && r.value == l.(position := r.value.position)
    ensures k == Scale ==> (r.Ok? <==> Track.KeyValue3(m, Keys(l, k), ease).Ok?)
    ensures k == Scale && r.Ok? ==> r.value == l.(scale := Track.KeyValue3(m, Keys(l, k), ease).value)
    ensures k in {RotationX, RotationY, RotationZ} ==> (r.Ok? <==> Track.KeyValue1(m, Keys(l, k), ease).Ok?)
    ensures k == RotationX && r.Ok? ==> r.value == l.(rotation := l.rotation.(x := Track.KeyValue1(m, Keys(l, k), ease).value))
    ensures k == RotationY && r.Ok? ==> r.value == l.(rotation := l.rotation.(y := Track.KeyValue1(m, Keys(l, k), ease).value))
    ensures k == RotationZ && r.Ok? ==> r.value == l.(rotation := l.rotation.(z := Track.KeyValue1(m, Keys(l, k), ease).value))
    ensures k == Opacity && |l.shapes| == 0 ==> r == Ok(l)
    ensures k == Opacity && |l.shapes| > 0 ==>
      (r.Ok? <==> Track.KeyValue1(m, Keys(l, k), ease).Ok? && forall i :: 0 <= i < |l.shapes| ==> l.shapes[i].alpha.Some?)
    ensures k == Opacity && r.Ok? && |l.shapes| > 0 ==>
      r.value == l.(shapes := OpacityToShapes(l.shapes, Track.KeyValue1(m, Keys(l, k), ease).value).value)
  {
    var keys := Keys(l, k);
    match k
    case Position =>
      var v :- Track.KeyValue3(m, keys, ease);
      Ok(l.(position := v.Sub(l.offset)))
    case Scale =>
      var v :- Track.KeyValue3(m, keys, ease);
      Ok(l.(scale := v))
    case RotationX =>
      var v :- Track.KeyValue1(m, keys, ease);
      Ok(l.(rotation := l.rotation.(x := v)))
    case RotationY =>
      var v :- Track.KeyValue1(m, keys, ease);
      Ok(l.(rotation := l.rotation.(y := v)))
    case RotationZ =>
      var v :- Track.KeyValue1(m, keys, ease);
      Ok(l.(rotation := l.rotation.(z := v)))
    case Opacity =>
      if |l.shapes| == 0 then Ok(l)
      else
        var v :- Track.KeyValue1(m, keys, ease);
        var shapes :- OpacityToShapes(l.shapes, v);
        Ok(l.(shapes := shapes))
  }

  /** UpdateProperty: a single step of the track (no skip loop), then the value is written. */
  function UpdateProperty(n: Ease.Numerics, frame: real, l: BodyLayerState, k: Kind): (r: Result<BodyLayerState>)
    ensures var tick := Track.Step(n, frame, TrackOf(l, k).m, Keys(l, k), Track.OlderRule);
      (tick.Err? ==> r.Err?) &&
      (tick.Ok? && tick.value.Hold? ==> r == Ok(WithTrack(l, k, TrackOf(l, k).(m := tick.value.m)))) &&
      (tick.Ok? && tick.value.Advance? ==> r == Apply(WithTrack(l, k, TrackOf(l, k).(m := tick.value.m)), k, tick.value.m, tick.value.ease))
    ensures r.Ok? ==> r.value.content == l.content && r.value.offset == l.offset && r.value.active == l.active && |r.value.shapes| == |l.shapes|
  {
    var tick :- Track.Step(n, frame, TrackOf(l, k).m, Keys(l, k), Track.OlderRule);
    var l' := WithTrack(l, k, TrackOf(l, k).(m := tick.m));
    match tick
    case Hold(_) => Ok(l')
    case Advance(m, e) => Apply(l', k, m, e)
  }

  predicate Live(t: Track.Setup) {
    t.animated && !t.m.completed
  }

  /** The tracks in `order`, each only while animated and not completed. */
  function UpdateTracks(n: Ease.Numerics, frame: real, l: BodyLayerState, order: seq<Kind>): (r: Result<BodyLayerState>)
    ensures r.Ok? ==> r.value.content == l.content && r.value.offset == l.offset && r.value.active == l.active && |r.value.shapes| == |l.shapes|
    ensures (forall i :: 0 <= i < |order| ==> !Live(TrackOf(l, order[i]))) ==> r == Ok(l)
    decreases |order|
  {
    if |order| == 0 then Ok(l)
    else
      var l' :- if Live(TrackOf(l, order[0])) then UpdateProperty(n, frame, l, order[0]) else Ok(l);
      UpdateTracks(n, frame, l', order[1..])
  }

  function UpdateShapes(n: Ease.Numerics, frame: real, shapes: seq<BodyShape.BodyShapeState>): (r: Result<seq<BodyShape.BodyShapeState>>)
    ensures r.Ok? <==> forall i :: 0 <= i < |shapes| ==> BodyShape.Update(n, frame, shapes[i]).Ok?
    ensures r.Ok? ==> |r.value| == |shapes| && forall i :: 0 <= i < |shapes| ==> BodyShape.Update(n, frame, shapes[i]) == Ok(r.value[i])
  {
    var rs := seq(|shapes|, i requires 0 <= i < |shapes| => BodyShape.Update(n, frame, shapes[i]));
    assert forall i :: 0 <= i < |shapes| ==> rs[i] == BodyShape.Update(n, frame, shapes[i]);
    CollectInOrder(rs)
  }


  predicate InWindow(c: Layer, frame: real) {
    c.inFrame <= frame < c.outFrame
  }

  /**
   * Update: an inactive layer becomes active once the frame reaches inFrame; an
   * active one outside [inFrame, outFrame) is deactivated and nothing else happens;
   * otherwise the shapes and then the tracks (opacity, position, scale, rotations)
   * are updated.
   */
  function Update(n: Ease.Numerics, frame: real, l: BodyLayerState): (r: Result<BodyLayerState>)
    ensures r.Ok? ==> (r.value.active <==> InWindow(l.content, frame))
    ensures !InWindow(l.content, frame) ==> r == Ok(l.(active := false))
    ensures InWindow(l.content, frame) ==> (r.Ok? <==> (
      UpdateShapes(n, frame, l.shapes).Ok? &&
      UpdateTracks(n, frame, l.(active := true, shapes := UpdateShapes(n, frame, l.shapes).value), UpdateOrder).Ok?))
  {
    var active := l.active || frame >= l.content.inFrame;
    if !active then Ok(l)
    else if frame >= l.content.outFrame || frame < l.content.inFrame then Ok(l.(active := false))
    else
      var shapes :- UpdateShapes(n, frame, l.shapes);
      UpdateTracks(n, frame, l.(active := true, shapes := shapes), UpdateOrder)
  }

  /**
   * An opacity track that moves while the layer has an unbuilt shape faults: the
   * shape has no renderer to take the alpha.
   */
  lemma OpacityFaultsOnUnbuiltShape(n: Ease.Numerics, frame: real, l: BodyLayerState, i: nat)
    requires i < |l.shapes| && l.shapes[i].alpha.None?
    requires Track.Step(n, frame, l.opacityTrack.m, Keys(l, Opacity), Track.OlderRule).Ok?
    requires Track.Step(n, frame, l.opacityTrack.m, Keys(l, Opacity), Track.OlderRule).value.Advance?
    ensures UpdateProperty(n, frame, l, Opacity).Err?
  {
    var tick := Track.Step(n, frame, l.opacityTrack.m, Keys(l, Opacity), Track.OlderRule).value;
    var w := WithTrack(l, Opacity, l.opacityTrack.(m := tick.m));
    assert w.shapes[i].alpha.None?;
  }

  /** Everything but the tracks is as it was: document, offset, shown flag, transform and shapes. */
  predicate OnlyTracksDiffer(a: BodyLayerState, b: BodyLayerState) {
    b.content == a.content && b.offset == a.offset && b.active == a.active &&
    b.position == a.position && b.scale == a.scale && b.rotation == a.rotation && b.shapes == a.shapes
  }

  /** Reloads segment 0 of an animated track, under the older rules. */
  function ResetTrack(l: BodyLayerState, k: Kind): (r: Result<BodyLayerState>)
    ensures !TrackOf(l, k).animated ==> r == Ok(l)
    ensures r.Ok? ==> OnlyTracksDiffer(l, r.value) && forall k' :: k' != k ==> TrackOf(r.value, k') == TrackOf(l, k')
    ensures TrackOf(l, k).animated ==>
      var s := Track.SetKeyframe(TrackOf(l, k).m, Keys(l, k), 0, Track.OlderRule);
      (r.Ok? <==> s.Ok?) && (r.Ok? ==> r.value == WithTrack(l, k, TrackOf(l, k).(m := s.value)))
  {
    if !TrackOf(l, k).animated then Ok(l)
    else
      var m :- Track.SetKeyframe(TrackOf(l, k).m, Keys(l, k), 0, Track.OlderRule);
      Ok(WithTrack(l, k, TrackOf(l, k).(m := m)))
  }

  function ResetTracks(l: BodyLayerState, order: seq<Kind>): (r: Result<BodyLayerState>)
    ensures r.Ok? ==> r.value.shapes == l.shapes && r.value.content == l.content && r.value.position == l.position
    ensures r.Ok? ==> OnlyTracksDiffer(l, r.value)
    ensures r.Ok? ==> forall k :: k !in order || !TrackOf(l, k).animated ==> TrackOf(r.value, k) == TrackOf(l, k)
    ensures r.Ok? ==> forall k :: k in order && TrackOf(l, k).animated ==>
      TrackOf(r.value, k).animated && !TrackOf(r.value, k).m.completed && (TrackOf(l, k).m.keys > 0 ==> TrackOf(r.value, k).m.key == 0)
    decreases |order|
  {
    if |order| == 0 then Ok(l)
    else
      var l' :- ResetTrack(l, order[0]);
      var r :- ResetTracks(l', order[1..]);
      assert forall k :: k in order ==> k == order[0] || k in order[1..];
      Ok(r)
  }

  /** Every shape resets in turn; the first shape's reset faults, so only an empty list gets through. */
  function ResetShapes(shapes: seq<BodyShape.BodyShapeState>): (r: Result<seq<BodyShape.BodyShapeState>>)
    ensures r.Ok? <==> |shapes| == 0
    ensures r.Ok? ==> r.value == shapes
  {
    if |shapes| == 0 then Ok([])
    else
      // the first shape's reset always faults, so the loop ends there
      var first := BodyShape.ResetKeyframes(shapes[0]);
      Err(first.fault)
  }

  /**
   * ResetKeyframes: every animated track reloads segment 0 (position, scale,
   * rotations, opacity), then every shape resets, which always faults; so only a
   * layer without shapes resets. No transform is written: only the tracks change.
   */
  function ResetKeyframes(l: BodyLayerState): (r: Result<BodyLayerState>)
    ensures r.Ok? <==> |l.shapes| == 0 && ResetTracks(l, ResetOrder).Ok?
    ensures r.Ok? ==> forall k :: TrackOf(l, k).animated ==>
      !TrackOf(r.value, k).m.completed && (TrackOf(l, k).m.keys > 0 ==> TrackOf(r.value, k).m.key == 0)
    ensures r.Ok? ==> forall k :: !TrackOf(l, k).animated ==> TrackOf(r.value, k) == TrackOf(l, k)
    ensures r.Ok? ==> r.value.position == l.position && r.value.shapes == l.shapes
    ensures r.Ok? ==> OnlyTracksDiffer(l, r.value)
  {
    var t :- ResetTracks(l, ResetOrder);
    EveryKindResets();
    var shapes :- ResetShapes(l.shapes);
    Ok(t)
  }

  /** When every track of the order is already at its reset state, resetting the order changes nothing. */
  lemma {:induction false} ResetTracksFixed(l: BodyLayerState, order: seq<Kind>)
    requires forall i :: 0 <= i < |order| ==> ResetTrack(l, order[i]) == Ok(l)
    ensures ResetTracks(l, order) == Ok(l)
    decreases |order|
  {
    if |order| > 0 {
      assert ResetTrack(l, order[0]) == Ok(l);
      assert forall i :: 0 <= i < |order[1..]| ==> order[1..][i] == order[i + 1];
      ResetTracksFixed(l, order[1..]);
    }
  }

  /**
   * A freshly built layer is already in its reset state: resetting a built layer
   * without shapes gives back the same layer.
   */
  lemma ResetAfterBuild(c: Layer, w: int, h: int)
    requires Build(c, w, h).Ok? && |c.shapes| == 0
    ensures ResetKeyframes(Build(c, w, h).value) == Ok(Build(c, w, h).value)
  {
    var b := Build(c, w, h).value;
    forall i | 0 <= i < |ResetOrder|
      ensures ResetTrack(b, ResetOrder[i]) == Ok(b)
    {
      var k := ResetOrder[i];
      var t := TrackOf(b, k);
      assert Setup(c, k) == Ok(t);
      if t.animated {
        var sets := Some(LayerKeys(c, k));
        var blank := Track.Blank.(keys := |SetsOf(c, k)|);
        assert |LayerKeys(c, k)| == |SetsOf(c, k)| > 0;
        assert Track.SetKeyframe(blank, sets, 0, Track.OlderRule) == Ok(t.m);
        Track.ReloadIsIdentity(blank, sets, 0, Track.OlderRule);
        assert WithTrack(b, k, t.(m := t.m)) == b;
      }
    }
    ResetTracksFixed(b, ResetOrder);
  }
}
