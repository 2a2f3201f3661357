/**
 * Movin: the player. It builds one BodyLayer per document layer, places each in
 * the slot its `ind` selects, resolves each layer's parent slot, and on every tick
 * advances its clock and updates every layer with the same frame, stopping (and,
 * when looping, resetting every layer and playing again) at the document's out frame.
 * The tick's elapsed time is a parameter.
 */
module Movin {
  import opened Wrappers
  import opened Content
  import Ease
  import BodyLayer

  /**
   * The player: whether it plays, its frame rate and frame count, the local time and
   * frame, whether it loops, its layer slots (None for a slot no layer filled) and
   * the parent slot of each slot (None for a root layer).
   */
  datatype Player = Player(playing: bool, frameRate: real, totalFrames: real, time: real, frame: real, loop: bool,
                           layers: seq<Option<BodyLayer.BodyLayerState>>, parents: seq<Option<nat>>)

  // ---------- construction ----------

  /** The amount subtracted from every `ind`: the first layer's ind less 1 when that is above 1, else 0. */
  function IndexOffset(firstInd: int): (r: int)
    ensures r >= 0
    ensures firstInd >= 1 ==> firstInd - r - 1 == 0
    ensures firstInd <= 1 ==> r == 0
  {
    if firstInd > 1 then firstInd - 1 else 0
  }

  /** The slot a layer (or a parent reference) with index `ind` maps to. */
  function Slot(ind: int, offset: int): int {
    ind - offset - 1
  }

  /** Every layer from `i` on was built and its slot is in range. */
  predicate Placeable(built: seq<Result<BodyLayer.BodyLayerState>>, inds: seq<int>, offset: int, i: nat, n: nat)
    requires |built| == |inds|
  {
    forall j :: i <= j < |built| ==> built[j].Ok? && 0 <= Slot(inds[j], offset) < n
  }

  /**
   * The construction loop from layer `i` on, given each layer's construction and
   * `ind`: each layer is stored at its slot, a later layer overwriting an earlier
   * one with the same slot; a failed construction or a slot out of range faults.
   */
  function PlaceLayers(built: seq<Result<BodyLayer.BodyLayerState>>, inds: seq<int>, offset: int, i: nat,
                       slots: seq<Option<BodyLayer.BodyLayerState>>): (r: Result<seq<Option<BodyLayer.BodyLayerState>>>)
    requires |built| == |inds| && i <= |built|
    ensures r.Ok? <==> Placeable(built, inds, offset, i, |slots|)
    ensures r.Ok? ==> |r.value| == |slots|
    ensures r.Ok? ==> forall j :: i <= j < |built| && (forall k :: j < k < |built| ==> inds[k] != inds[j]) ==>
      r.value[Slot(inds[j], offset)] == Some(built[j].value)
    ensures r.Ok? ==> forall s :: 0 <= s < |slots| && (forall j :: i <= j < |built| ==> Slot(inds[j], offset) != s) ==>
      r.value[s] == slots[s]
    decreases |built| - i
  {
    if i == |built| then Ok(slots)
    else
      var l :- built[i];
      var s := Slot(inds[i], offset);
      if s < 0 || s >= |slots| then Err(IndexOutOfRange)
      else PlaceLayers(built, inds, offset, i + 1, slots[s := Some(l)])
  }

  /** Each document layer's BodyLayer, in document order. */
  function BuildAll(d: Document): (r: seq<Result<BodyLayer.BodyLayerState>>)
    ensures |r| == |d.layers| && forall j :: 0 <= j < |d.layers| ==> r[j] == BodyLayer.Build(d.layers[j], d.w, d.h)
  {
    seq(|d.layers|, j requires 0 <= j < |d.layers| => BodyLayer.Build(d.layers[j], d.w, d.h))
  }

  function Inds(d: Document): (r: seq<int>)
    ensures |r| == |d.layers| && forall j :: 0 <= j < |d.layers| ==> r[j] == d.layers[j].ind
  {
    seq(|d.layers|, j requires 0 <= j < |d.layers| => d.layers[j].ind)
  }

  /** The slots the construction loop fills, starting from all-empty slots. */
  function Slots(d: Document, offset: int): Result<seq<Option<BodyLayer.BodyLayerState>>> {
    PlaceLayers(BuildAll(d), Inds(d), offset, 0, seq(|d.layers|, _ => None))
  }

  /**
   * The parent slot of slot i: the slot itself must be filled; a parent reference
   * at or below the offset means a root layer; otherwise the parent slot must be in
   * range and filled. There is no cycle check.
   */
  function ParentOf(slots: seq<Option<BodyLayer.BodyLayerState>>, offset: int, i: nat): (r: Result<Option<nat>>)
    requires i < |slots|
    ensures slots[i].None? ==> r == Err(NullReference)
    ensures slots[i].Some? ==>
      var p := slots[i].value.content.parent - offset;
      (p <= 0 ==> r == Ok(None)) &&
      (p > 0 ==> (r.Ok? <==> p - 1 < |slots| && slots[p - 1].Some?)) &&
      (r.Ok? && p > 0 ==> r.value == Some(Slot(slots[i].value.content.parent, offset)))
  {
    if slots[i].None? then Err(NullReference)
    else
      var p := slots[i].value.content.parent - offset;
      if p <= 0 then Ok(None)
      else if p - 1 >= |slots| then Err(IndexOutOfRange)
      else if slots[p - 1].None? then Err(NullReference)
      else Ok(Some(p - 1))
  }

  function ResolveParents(slots: seq<Option<BodyLayer.BodyLayerState>>, offset: int, i: nat): (r: Result<seq<Option<nat>>>)
    requires i <= |slots|
    ensures r.Ok? <==> forall j :: i <= j < |slots| ==> ParentOf(slots, offset, j).Ok?
    ensures r.Ok? ==> |r.value| == |slots| - i && forall j :: i <= j < |slots| ==> r.value[j - i] == ParentOf(slots, offset, j).value
    decreases |slots| - i
  {
    if i == |slots| then Ok([])
    else
      var p :- ParentOf(slots, offset, i);
      var rest :- ResolveParents(slots, offset, i + 1);
      Ok([p] + rest)
  }

  /**
   * The constructor: frame rate and frame count come from the document; a
   * document without layers gives a player without layers; otherwise the layers
   * are placed and their parents resolved. The player starts stopped, looping, at
   * time 0.
   */
  function Construct(d: Document): (r: Result<Player>)
    ensures r.Ok? ==> !r.value.playing && r.value.loop && r.value.time == 0.0 && r.value.frame == 0.0
    ensures r.Ok? ==> r.value.frameRate == d.fr && r.value.totalFrames == d.op
    ensures r.Ok? ==> |r.value.layers| == |d.layers| && |r.value.parents| == |d.layers|
    ensures |d.layers| > 0 ==>
      var offset := IndexOffset(d.layers[0].ind);
      var slots := Slots(d, offset);
      (r.Ok? <==> slots.Ok? && ResolveParents(slots.value, offset, 0).Ok?) &&
      (r.Ok? ==> r.value.layers == slots.value && r.value.parents == ResolveParents(slots.value, offset, 0).value)
  {
    if |d.layers| == 0 then Ok(Player(false, d.fr, d.op, 0.0, 0.0, true, [], []))
    else
      var offset := IndexOffset(d.layers[0].ind);
      var slots :- Slots(d, offset);
      var parents :- ResolveParents(slots, offset, 0);
      Ok(Player(false, d.fr, d.op, 0.0, 0.0, true, slots, parents))
  }

  /**
   * Layers numbered consecutively from their first `ind` (the usual export) land in
   * document order: slot j holds layer j, whatever the first index is.
   */
  lemma ConsecutiveLayersInOrder(d: Document)
    requires |d.layers| > 0 && d.layers[0].ind >= 1
    requires forall j :: 0 <= j < |d.layers| ==> d.layers[j].ind == d.layers[0].ind + j
    requires forall j :: 0 <= j < |d.layers| ==> BodyLayer.Build(d.layers[j], d.w, d.h).Ok?
    ensures var slots := Slots(d, IndexOffset(d.layers[0].ind));
      slots.Ok? && forall j :: 0 <= j < |d.layers| ==> slots.value[j] == Some(BodyLayer.Build(d.layers[j], d.w, d.h).value)
  {
    var offset := IndexOffset(d.layers[0].ind);
    var empty: seq<Option<BodyLayer.BodyLayerState>> := seq(|d.layers|, _ => None);
    var built, inds := BuildAll(d), Inds(d);
    forall j | 0 <= j < |d.layers|
      ensures Slot(inds[j], offset) == j
    {
    }
    assert Placeable(built, inds, offset, 0, |empty|);
  }

  /** A layer whose `ind` no later layer repeats stays in its slot. */
  lemma PlacedAt(d: Document, j: nat)
    requires |d.layers| > 0 && j < |d.layers|
    requires Slots(d, IndexOffset(d.layers[0].ind)).Ok?
    requires forall m :: j < m < |d.layers| ==> d.layers[m].ind != d.layers[j].ind
    ensures var s := Slot(d.layers[j].ind, IndexOffset(d.layers[0].ind));
      var slots := Slots(d, IndexOffset(d.layers[0].ind)).value;
      0 <= s < |slots| && BodyLayer.Build(d.layers[j], d.w, d.h).Ok? &&
      slots[s] == Some(BodyLayer.Build(d.layers[j], d.w, d.h).value) && slots[s].value.content == d.layers[j]
  {
    var built, inds := BuildAll(d), Inds(d);
    assert forall m :: j < m < |built| ==> inds[m] != inds[j];
  }

  /**
   * A parent reference resolves to the slot where the layer with that `ind` was
   * placed, so parent and placement agree whenever the parent exists.
   */
  lemma ParentIsPlacedLayer(d: Document, j: nat, k: nat)
    requires |d.layers| > 0 && j < |d.layers| && k < |d.layers|
    requires d.layers[j].parent == d.layers[k].ind
    requires d.layers[j].parent - IndexOffset(d.layers[0].ind) > 0
    requires forall m :: j < m < |d.layers| ==> d.layers[m].ind != d.layers[j].ind
    requires forall m :: k < m < |d.layers| ==> d.layers[m].ind != d.layers[k].ind
    requires Construct(d).Ok?
    ensures var offset := IndexOffset(d.layers[0].ind);
      var s := Slot(d.layers[j].ind, offset);
      var p := Construct(d).value;
      0 <= s < |p.parents| && p.parents[s] == Some(Slot(d.layers[k].ind, offset)) &&
      p.layers[Slot(d.layers[k].ind, offset)] == Some(BodyLayer.Build(d.layers[k], d.w, d.h).value)
  {
    var offset := IndexOffset(d.layers[0].ind);
    var slots := Slots(d, offset).value;
    PlacedAt(d, j);
    PlacedAt(d, k);
    var s := Slot(d.layers[j].ind, offset);
    var parents := ResolveParents(slots, offset, 0).value;
    assert parents[s - 0] == ParentOf(slots, offset, s).value;
  }

  // ---------- the clock ----------

  function Play(p: Player): (r: Player)
    ensures r.playing && r.(playing := p.playing) == p
  {
    p.(playing := true)
  }

  function Stop(p: Player): (r: Player)
    ensures !r.playing && r.(playing := p.playing) == p
  {
    p.(playing := false)
  }

  /** Every slot's layer takes the same frame; an unfilled slot faults. */
  function UpdateLayers(n: Ease.Numerics, frame: real, layers: seq<Option<BodyLayer.BodyLayerState>>): (r: Result<seq<Option<BodyLayer.BodyLayerState>>>)
    ensures r.Ok? <==> forall i :: 0 <= i < |layers| ==> layers[i].Some? && BodyLayer.Update(n, frame, layers[i].value).Ok?
    ensures r.Ok? ==> |r.value| == |layers| && forall i :: 0 <= i < |layers| ==>
      layers[i].Some? && r.value[i] == Some(BodyLayer.Update(n, frame, layers[i].value).value)
  {
    var rs := seq(|layers|, i requires 0 <= i < |layers| => UpdateLayer(n, frame, layers[i]));
    assert forall i :: 0 <= i < |layers| ==> rs[i] == UpdateLayer(n, frame, layers[i]);
    CollectInOrder(rs)
  }

  function UpdateLayer(n: Ease.Numerics, frame: real, slot: Option<BodyLayer.BodyLayerState>): Result<Option<BodyLayer.BodyLayerState>> {
    if slot.None? then Err(NullReference)
    else var l :- BodyLayer.Update(n, frame, slot.value); Ok(Some(l))
  }

  function ResetLayers(layers: seq<Option<BodyLayer.BodyLayerState>>): (r: Result<seq<Option<BodyLayer.BodyLayerState>>>)
    ensures r.Ok? <==> forall i :: 0 <= i < |layers| ==> layers[i].Some? && BodyLayer.ResetKeyframes(layers[i].value).Ok?
    ensures r.Ok? ==> |r.value| == |layers| && forall i :: 0 <= i < |layers| ==>
      layers[i].Some? && r.value[i] == Some(BodyLayer.ResetKeyframes(layers[i].value).value)
  {
    var rs := seq(|layers|, i requires 0 <= i < |layers| => ResetLayer(layers[i]));
    assert forall i :: 0 <= i < |layers| ==> rs[i] == ResetLayer(layers[i]);
    CollectInOrder(rs)
  }

  function ResetLayer(slot: Option<BodyLayer.BodyLayerState>): Result<Option<BodyLayer.BodyLayerState>> {
    if slot.None? then Err(NullReference)
    else var l :- BodyLayer.ResetKeyframes(slot.value); Ok(Some(l))
  }

  /** ResetKeyframes: the time returns to 0 and every layer reloads segment 0 of its tracks. */
  function ResetKeyframes(p: Player): (r: Result<Player>)
    ensures r.Ok? <==> ResetLayers(p.layers).Ok?
    ensures r.Ok? ==> r.value.time == 0.0 && r.value.layers == ResetLayers(p.layers).value
    ensures r.Ok? ==> r.value.(time := p.time, layers := p.layers) == p
  {
    var layers :- ResetLayers(p.layers);
    Ok(p.(time := 0.0, layers := layers))
  }

  /** The clock half of a tick: the time advances by `dt` and the frame follows it. */
  function Advance(p: Player, dt: real): (r: Player)
    ensures r.time == p.time + dt && r.frame == r.time * p.frameRate
    ensures r.(time := p.time, frame := p.frame) == p
  {
    var time := p.time + dt;
    p.(time := time, frame := time * p.frameRate)
  }

  /**
   * The end of the animation: playback stops; a looping player resets every layer
   * and plays again. The frame keeps the value it reached.
   */
  function AtEnd(p: Player): (r: Result<Player>)
    ensures !p.loop ==> r == Ok(p.(playing := false))
    ensures p.loop ==> (r.Ok? <==> ResetLayers(p.layers).Ok?)
    ensures p.loop && r.Ok? ==> r.value == p.(playing := true, time := 0.0, layers := r.value.layers) &&
                                r.value.layers == ResetLayers(p.layers).value
  {
    var stopped := Stop(p);
    if p.loop then
      var reset :- ResetKeyframes(stopped);
      Ok(Play(reset))
    else Ok(stopped)
  }

  /** Before the end: every layer takes the tick's frame. */
  function UpdateAll(n: Ease.Numerics, p: Player): (r: Result<Player>)
    ensures r.Ok? <==> UpdateLayers(n, p.frame, p.layers).Ok?
    ensures r.Ok? ==> r.value == p.(layers := UpdateLayers(n, p.frame, p.layers).value)
  {
    var layers :- UpdateLayers(n, p.frame, p.layers);
    Ok(p.(layers := layers))
  }

  /**
   * Update, once per engine tick with the elapsed time `dt`: nothing while stopped;
   * otherwise the time advances and the frame follows it. At or past the last frame
   * playback stops and no layer is updated; a looping player then resets every
   * layer and plays again, keeping the frame it reached. Before that, every layer
   * is updated with the new frame.
   */
  function Update(n: Ease.Numerics, dt: real, p: Player): (r: Result<Player>)
    ensures !p.playing ==> r == Ok(p)
    ensures p.playing && r.Ok? ==> r.value.frame == Advance(p, dt).frame
    ensures p.playing && r.Ok? ==> r.value.frameRate == p.frameRate && r.value.totalFrames == p.totalFrames &&
                                    r.value.loop == p.loop && r.value.parents == p.parents
    ensures p.playing && Advance(p, dt).frame < p.totalFrames ==>
      (r.Ok? <==> UpdateLayers(n, Advance(p, dt).frame, p.layers).Ok?) &&
      (r.Ok? ==> r.value.playing && r.value.time == p.time + dt &&
                 r.value.layers == UpdateLayers(n, Advance(p, dt).frame, p.layers).value)
    ensures p.playing && Advance(p, dt).frame >= p.totalFrames && !p.loop ==>
      r == Ok(Advance(p, dt).(playing := false))
    ensures p.playing && Advance(p, dt).frame >= p.totalFrames && p.loop ==>
      (r.Ok? <==> ResetLayers(p.layers).Ok?) &&
      (r.Ok? ==> r.value.playing && r.value.time == 0.0 && r.value.frame >= p.totalFrames &&
                 r.value.layers == ResetLayers(p.layers).value)
  {
    if !p.playing then Ok(p)
    else
      var q := Advance(p, dt);
      if q.frame >= p.totalFrames then AtEnd(q) else UpdateAll(n, q)
  }

  /**
   * A looping player whose layers include one with shapes faults at the end of
   * the animation: the shapes' reset reads a slave array that is never assigned.
   */
  lemma LoopFaultsWithShapes(n: Ease.Numerics, dt: real, p: Player, i: nat)
    requires p.playing && p.loop && Advance(p, dt).frame >= p.totalFrames
    requires i < |p.layers| && p.layers[i].Some? && |p.layers[i].value.shapes| > 0
    ensures Update(n, dt, p).Err?
  {
    assert !BodyLayer.ResetKeyframes(p.layers[i].value).Ok?;
  }

  /** Two ticks that stay before the last frame add their elapsed times. */
  lemma TicksAccumulate(n: Ease.Numerics, dt1: real, dt2: real, p: Player)
    requires p.playing && Update(n, dt1, p).Ok?
    requires Advance(p, dt1).frame < p.totalFrames
    ensures var q := Update(n, dt1, p).value;
      q.playing && q.time == p.time + dt1 &&
      (Update(n, dt2, q).Ok? ==> Update(n, dt2, q).value.frame == Advance(p, dt1 + dt2).frame)
  {
    var q := Update(n, dt1, p).value;
    assert q.time + dt2 == p.time + (dt1 + dt2);
  }
}
