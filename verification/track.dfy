/**
 * The per-property keyframe track shared by every animated property: the
 * MotionProps record (Movin.cs) with the startValue/endValue fields the newer
 * classes use, and the SetKeyframe / MotionSetup / UpdateProperty / Value logic.
 * The classes differ in a handful of observable ways, collected in `Rule`.
 */
module Track {
  import opened Wrappers
  import opened Vectors
  import Ease

  /**
   * The float `(frame - start) / (end - start)`. A zero-length segment divides by
   * zero: +Infinity above the start, -Infinity below it, NaN at it.
   */
  datatype Percent = At(value: real) | PosInf | NegInf | NaN

  function PercentOf(frame: real, start: real, end: real): (r: Percent)
    ensures r.At? <==> end != start
    ensures r.At? ==> r.value * (end - start) == frame - start
    ensures end == start ==> (r == PosInf <==> frame > start) && (r == NegInf <==> frame < start) && (r == NaN <==> frame == start)
  {
    if end != start then At((frame - start) / (end - start))
    else if frame > start then PosInf
    else if frame < start then NegInf
    else NaN
  }

  /**
   * The eased fraction of a percent. A non-finite percent makes every comparison
   * inside the solver false, so the result is the failure value -1.
   */
  function EaseOf(n: Ease.Numerics, outTangent: Vec2, inTangent: Vec2, p: Percent): (r: real)
    ensures p == At(0.0) ==> r == 0.0
    ensures p == At(1.0) ==> r == 1.0
    ensures !p.At? ==> r == -1.0
  {
    match p
    case At(x) => Ease.Evaluate(n, outTangent, inTangent, x)
    case _ => -1.0
  }

  /** Percent < 0, as a float comparison (false for NaN). */
  predicate Below(p: Percent) {
    p == NegInf || (p.At? && p.value < 0.0)
  }

  /** Percent > 1, as a float comparison (false for NaN). */
  predicate Above(p: Percent) {
    p == PosInf || (p.At? && p.value > 1.0)
  }

  /** MotionProps, including the start and end values the newer classes store in it. */
  datatype Motion = Motion(key: nat, keys: int, startFrame: real, endFrame: real, percent: Percent, completed: bool,
                           outTangent: Vec2, inTangent: Vec2, startValue: Vec3, endValue: Vec3)

  /** The zero-initialised struct. */
  const Blank: Motion := Motion(0, 0, 0.0, 0.0, At(0.0), false, Zero2, Zero2, Zero3, Zero3)

  /** What a track reads from one keyframe: time, tangents and start/end value. */
  datatype Key = Key(t: real, i: Vec2, o: Vec2, s: Vec3, e: Vec3)

  /**
   * How SetKeyframe bounds its successor read: `Successor` is `set.Length > k + 1`
   * (the last key gets a zero-length segment), `LengthOnly` is `set.Length > k`
   * (always true once set[k] was read, so the last key reads past the end).
   */
  datatype Guard = Successor | LengthOnly

  /**
   * The behaviour of one class's track:
   * wrap: SetKeyframe sends k >= keys to 0; loadValues: SetKeyframe stores the key's values;
   * nullSafeLoad: SetKeyframe returns on a null set; nullCompletes: UpdateProperty treats a
   * null set as finished; skip: UpdateProperty loops over segments instead of stepping once.
   */
  datatype Rule = Rule(wrap: bool, guard: Guard, loadValues: bool, nullSafeLoad: bool, nullCompletes: bool, skip: bool)

  /** MovinLayer's six tracks. */
  const LayerRule: Rule := Rule(true, Successor, true, false, false, true)
  /** MovinShape's stroke and fill colour tracks. */
  const ColourRule: Rule := Rule(true, Successor, true, true, false, true)
  /** MovinShape's path track. */
  const PathRule: Rule := Rule(true, LengthOnly, false, true, true, false)
  /** MovinShapeSlave's path track and every track of BodyLayer and BodyShape. */
  const OlderRule: Rule := Rule(false, LengthOnly, false, false, false, false)

  /** The key index SetKeyframe actually loads. */
  function Target(m: Motion, k: nat, rule: Rule): nat {
    if rule.wrap && k >= m.keys then 0 else k
  }

  /**
   * SetKeyframe: clears `completed`, then (for a track with keys) loads segment k:
   * its start time, the next key's time as end (or the start time again at the last
   * key under `Successor`), its tangents and, where the class stores them, its values.
   */
  function SetKeyframe(m: Motion, sets: Option<seq<Key>>, k: nat, rule: Rule): (r: Result<Motion>)
    ensures m.keys <= 0 ==> r == Ok(m.(completed := false))
    ensures m.keys > 0 && sets.None? ==> r == (if rule.nullSafeLoad then Ok(m.(completed := false)) else Err(NullReference))
    ensures m.keys > 0 && sets.Some? ==>
      var j := Target(m, k, rule);
      var s := sets.value;
      (r.Ok? <==> (j < |s| && (rule.guard == LengthOnly ==> j + 1 < |s|))) &&
      (r.Ok? ==> r.value.key == j && r.value.keys == m.keys && !r.value.completed && r.value.percent == m.percent &&
                 r.value.startFrame == s[j].t && r.value.outTangent == s[j].o && r.value.inTangent == s[j].i &&
                 r.value.endFrame == (if j + 1 < |s| then s[j + 1].t else s[j].t) &&
                 (rule.loadValues ==> r.value.startValue == s[j].s && r.value.endValue == s[j].e) &&
                 (!rule.loadValues ==> r.value.startValue == m.startValue && r.value.endValue == m.endValue))
  {
    var m := m.(completed := false);
    if m.keys <= 0 then Ok(m)
    else if sets.None? then (if rule.nullSafeLoad then Ok(m) else Err(NullReference))
    else
      var s := sets.value;
      var j := Target(m, k, rule);
      if j >= |s| then Err(IndexOutOfRange)
      else
        var guarded := match rule.guard case Successor => |s| > j + 1 case LengthOnly => |s| > j;
        if guarded && j + 1 >= |s| then Err(IndexOutOfRange)
        else
          var end := if guarded then s[j + 1].t else s[j].t;
          var m := m.(key := j, startFrame := s[j].t, endFrame := end, outTangent := s[j].o, inTangent := s[j].i);
          Ok(if rule.loadValues then m.(startValue := s[j].s, endValue := s[j].e) else m)
  }

  /** Loading the same key twice changes nothing: a segment loaded from key k reloads to itself. */
  lemma ReloadIsIdentity(m0: Motion, sets: Option<seq<Key>>, k: nat, rule: Rule)
    requires SetKeyframe(m0, sets, k, rule).Ok?
    requires Target(m0, k, rule) == k
    ensures var m := SetKeyframe(m0, sets, k, rule).value;
      SetKeyframe(m, sets, k, rule) == Ok(m)
  {
    var m := SetKeyframe(m0, sets, k, rule).value;
    assert m.keys == m0.keys;
    assert Target(m, k, rule) == k;
  }

  /** MotionSetup: the track is animated iff its sets is non-null and non-empty; then it holds segment 0. */
  datatype Setup = Setup(animated: bool, m: Motion)

  function MotionSetup(m: Motion, sets: Option<seq<Key>>, rule: Rule): (r: Result<Setup>)
    ensures (sets.None? || |sets.value| == 0) ==> r == Ok(Setup(false, m))
    ensures sets.Some? && |sets.value| > 0 ==>
      (r.Ok? <==> (rule.guard == Successor || |sets.value| > 1)) &&
      (r.Ok? ==> r.value.animated && r.value.m.key == 0 && r.value.m.keys == |sets.value| && !r.value.m.completed &&
                 r.value.m.startFrame == sets.value[0].t)
  {
    if sets.Some? && |sets.value| > 0 then
      var m :- SetKeyframe(Blank.(keys := |sets.value|), sets, 0, rule);
      Ok(Setup(true, m))
    else Ok(Setup(false, m))
  }

  /** The segment m holds was loaded from `sets`: its end is the next key's time. */
  predicate Loaded(m: Motion, s: seq<Key>) {
    m.key + 1 < |s| && m.startFrame == s[m.key].t && m.endFrame == s[m.key + 1].t
  }

  /**
   * The segment-skip loop: load the next segment until the frame falls before its
   * end or the index wraps to 0.
   */
  function Skip(frame: real, m: Motion, s: seq<Key>, rule: Rule): (r: Result<Motion>)
    requires m.keys > 0
    ensures r.Ok? ==> r.value.key == 0 || frame < r.value.endFrame
    ensures r.Ok? ==> r.value.keys == m.keys && !r.value.completed
    decreases m.keys + |s| - m.key
  {
    var next := SetKeyframe(m, Some(s), m.key + 1, rule);
    if next.Err? then next
    else
      var m' := next.value;
      if m'.key == 0 then next
      else if frame >= m'.endFrame then Skip(frame, m', s, rule)
      else next
  }

  /** m holds segment m.key of s as SetKeyframe loads it under the `Successor` guard. */
  predicate LoadedAt(m: Motion, s: seq<Key>) {
    m.key < |s| && m.startFrame == s[m.key].t &&
    m.endFrame == (if m.key + 1 < |s| then s[m.key + 1].t else s[m.key].t)
  }

  /**
   * The skip loop as a search: from a loaded segment whose end the frame has
   * reached, it passes every key whose time the frame has reached and lands on the
   * segment that contains the frame, or on segment 0 when it runs off the end.
   */
  lemma {:induction false} SkipFindsSegment(frame: real, m: Motion, s: seq<Key>)
    requires m.keys == |s| && LoadedAt(m, s) && frame >= m.endFrame
    ensures Skip(frame, m, s, LayerRule).Ok?
    ensures var r := Skip(frame, m, s, LayerRule).value;
      (r.key == 0 ==> forall i :: m.key < i < |s| ==> s[i].t <= frame) &&
      (r.key != 0 ==> r.key > m.key && Loaded(r, s) && r.startFrame <= frame < r.endFrame &&
                      forall i :: m.key < i <= r.key ==> s[i].t <= frame)
    decreases |s| - m.key
  {
    var next := SetKeyframe(m, Some(s), m.key + 1, LayerRule);
    assert next.Ok?;
    var m' := next.value;
    if m'.key != 0 {
      assert m'.key == m.key + 1 && LoadedAt(m', s) && m'.startFrame == m.endFrame;
      if frame >= m'.endFrame {
        assert Skip(frame, m, s, LayerRule) == Skip(frame, m', s, LayerRule);
        SkipFindsSegment(frame, m', s);
      } else {
        assert Skip(frame, m, s, LayerRule) == next;
      }
    }
  }

  /** With ordered key times, a frame at or past the last key wraps the track back to segment 0. */
  lemma SkipWrapsPastLastKey(frame: real, m: Motion, s: seq<Key>)
    requires m.keys == |s| && LoadedAt(m, s) && frame >= m.endFrame
    requires forall a, b :: 0 <= a <= b < |s| ==> s[a].t <= s[b].t
    requires frame >= s[|s| - 1].t
    ensures Skip(frame, m, s, LayerRule).Ok? && Skip(frame, m, s, LayerRule).value.key == 0
  {
    SkipFindsSegment(frame, m, s);
  }

  /** What UpdateProperty decided: the track finished (no value written), or a new eased position. */
  datatype Tick = Hold(m: Motion) | Advance(m: Motion, ease: real)

  /**
   * UpdateProperty up to the value write: completes a keyless track, completes at the
   * last segment, otherwise moves on (one segment, or the skip loop) once the frame
   * reaches the segment's end, and computes percent and ease.
   */
  function Step(n: Ease.Numerics, frame: real, m: Motion, sets: Option<seq<Key>>, rule: Rule): (r: Result<Tick>)
    ensures m.keys <= 0 ==> r == Ok(Hold(m.(completed := true)))
    ensures m.keys > 0 && frame >= m.endFrame && sets.Some? && m.key + 1 == |sets.value| - 1 ==> r == Ok(Hold(m.(completed := true)))
    ensures m.keys > 0 && frame >= m.endFrame && sets.None? ==>
      r == (if rule.nullCompletes then Ok(Hold(m.(completed := true))) else Err(NullReference))
    ensures m.keys > 0 && frame < m.endFrame ==>
      r == Ok(Advance(m.(percent := PercentOf(frame, m.startFrame, m.endFrame)),
                      EaseOf(n, m.outTangent, m.inTangent, PercentOf(frame, m.startFrame, m.endFrame))))
    ensures r.Ok? && r.value.Advance? ==>
      r.value.m.percent == PercentOf(frame, r.value.m.startFrame, r.value.m.endFrame) &&
      r.value.ease == EaseOf(n, r.value.m.outTangent, r.value.m.inTangent, r.value.m.percent)
    ensures m.keys > 0 && frame >= m.endFrame && sets.Some? && m.key + 1 != |sets.value| - 1 && !rule.skip ==>
      (r.Ok? <==> SetKeyframe(m, sets, m.key + 1, rule).Ok?) &&
      (r.Ok? ==> r.value.Advance? && r.value.m.key == Target(m, m.key + 1, rule))
  {
    if m.keys <= 0 then Ok(Hold(m.(completed := true)))
    else
      var m' :-
        if frame < m.endFrame then Ok(m)
        else if sets.None? then (if rule.nullCompletes then Ok(m.(completed := true)) else Err(NullReference))
        else if m.key + 1 == |sets.value| - 1 then Ok(m.(completed := true))
        else if rule.skip then Skip(frame, m, sets.value, rule)
        else SetKeyframe(m, sets, m.key + 1, rule);
      if frame >= m.endFrame && (sets.None? || m.key + 1 == |sets.value| - 1) then Ok(Hold(m'))
      else
        var p := PercentOf(frame, m'.startFrame, m'.endFrame);
        Ok(Advance(m'.(percent := p), EaseOf(n, m'.outTangent, m'.inTangent, p)))
  }

  /**
   * The newer classes' Value3: the start value while percent is below 0 or above 1,
   * otherwise start + (end - start) * ease.
   */
  function Value3(m: Motion, ease: real): (r: Vec3)
    ensures Below(m.percent) || Above(m.percent) ==> r == m.startValue
    ensures !Below(m.percent) && !Above(m.percent) ==> r == Lerp3(m.startValue, m.endValue, ease)
  {
    if Below(m.percent) || Above(m.percent) then m.startValue
    else m.startValue.Add(m.endValue.Sub(m.startValue).Scale(ease))
  }

  /** The newer classes' Value1: the same rule on the x component. */
  function Value1(m: Motion, ease: real): (r: real)
    ensures r == Value3(m, ease).x
  {
    if Below(m.percent) || Above(m.percent) then m.startValue.x
    else m.startValue.x + (m.endValue.x - m.startValue.x) * ease
  }

  /**
   * The older classes' Value3: reads key m.key of the sets, and freezes only below 0,
   * so a percent above 1 extrapolates.
   */
  function KeyValue3(m: Motion, sets: Option<seq<Key>>, ease: real): (r: Result<Vec3>)
    ensures sets.None? ==> r == Err(NullReference)
    ensures sets.Some? ==> (r.Ok? <==> m.key < |sets.value|)
    ensures r.Ok? && Below(m.percent) ==> r.value == sets.value[m.key].s
    ensures r.Ok? && !Below(m.percent) ==> r.value == Lerp3(sets.value[m.key].s, sets.value[m.key].e, ease)
  {
    if sets.None? then Err(NullReference)
    else if m.key >= |sets.value| then Err(IndexOutOfRange)
    else
      var k := sets.value[m.key];
      Ok(if Below(m.percent) then k.s else k.s.Add(k.e.Sub(k.s).Scale(ease)))
  }

  /** The older classes' Value1: the same rule on the x component. */
  function KeyValue1(m: Motion, sets: Option<seq<Key>>, ease: real): (r: Result<real>)
    ensures r.Ok? <==> KeyValue3(m, sets, ease).Ok?
    ensures r.Ok? ==> r.value == KeyValue3(m, sets, ease).value.x
  {
    var v :- KeyValue3(m, sets, ease);
    Ok(v.x)
  }

  /** CreateKeyframe: a single-key track holding one segment [start, end] between two given values. */
  function CreateKeyframe(m: Motion, start: real, end: real, outTangent: Vec2, inTangent: Vec2, startValue: Vec3, endValue: Vec3): (r: Motion)
    ensures r.keys == 1 && r.key == 0 && !r.completed && r.percent == m.percent
    ensures r.startFrame == start && r.endFrame == end && r.outTangent == outTangent && r.inTangent == inTangent
    ensures r.startValue == startValue && r.endValue == endValue
  {
    Motion(0, 1, start, end, m.percent, false, outTangent, inTangent, startValue, endValue)
  }

  /**
   * A blend segment starts where it should: at frame 0 the track shows the start
   * value, and the segment's value rule gives the end value at percent 1. A tick
   * at or past the end frame never shows that end value: under a wrapping class it
   * completes (a two-key document set), faults, or reloads the document's segment 0.
   */
  lemma BlendSegmentEndpoints(n: Ease.Numerics, m: Motion, duration: real, outTangent: Vec2, inTangent: Vec2, a: Vec3, b: Vec3,
                               sets: Option<seq<Key>>, rule: Rule)
    requires duration > 0.0
    ensures var c := CreateKeyframe(m, 0.0, duration, outTangent, inTangent, a, b);
      var t0 := Step(n, 0.0, c, sets, rule);
      t0.Ok? && t0.value.Advance? && Value3(t0.value.m, t0.value.ease) == a
    ensures var c := CreateKeyframe(m, 0.0, duration, outTangent, inTangent, a, b);
      var p := PercentOf(duration, 0.0, duration);
      p == At(1.0) && Value3(c.(percent := p), EaseOf(n, outTangent, inTangent, p)) == b
    ensures forall frame: real | frame >= duration && rule.wrap ::
      var c := CreateKeyframe(m, 0.0, duration, outTangent, inTangent, a, b);
      var t := Step(n, frame, c, sets, rule);
      (sets == Some([]) ==> t.Err?) &&
      (sets.Some? && |sets.value| == 2 ==> t == Ok(Hold(c.(completed := true)))) &&
      (t.Ok? && t.value.Advance? ==>
        sets.Some? && |sets.value| > 0 && t.value.m.key == 0 && t.value.m.startFrame == sets.value[0].t &&
        (rule.loadValues ==> t.value.m.startValue == sets.value[0].s && t.value.m.endValue == sets.value[0].e))
  {
    var c := CreateKeyframe(m, 0.0, duration, outTangent, inTangent, a, b);
    var p := PercentOf(duration, 0.0, duration);
    assert p.value * duration == duration;
    forall frame: real | frame >= duration && rule.wrap
      ensures var t := Step(n, frame, c, sets, rule);
        (sets == Some([]) ==> t.Err?) &&
        (sets.Some? && |sets.value| == 2 ==> t == Ok(Hold(c.(completed := true)))) &&
        (t.Ok? && t.value.Advance? ==>
          sets.Some? && |sets.value| > 0 && t.value.m.key == 0 && t.value.m.startFrame == sets.value[0].t &&
          (rule.loadValues ==> t.value.m.startValue == sets.value[0].s && t.value.m.endValue == sets.value[0].e))
    {
      WrapReloadsFirst(n, frame, c, sets, rule);
    }
  }

  /** At or past the end of a one-key segment, a wrapping class reloads the document's segment 0. */
  lemma WrapReloadsFirst(n: Ease.Numerics, frame: real, c: Motion, sets: Option<seq<Key>>, rule: Rule)
    requires c.keys == 1 && c.key == 0 && frame >= c.endFrame && rule.wrap
    ensures var t := Step(n, frame, c, sets, rule);
      (sets == Some([]) ==> t.Err?) &&
      (sets.Some? && |sets.value| == 2 ==> t == Ok(Hold(c.(completed := true)))) &&
      (t.Ok? && t.value.Advance? ==>
        sets.Some? && |sets.value| > 0 && t.value.m.key == 0 && t.value.m.startFrame == sets.value[0].t &&
        (rule.loadValues ==> t.value.m.startValue == sets.value[0].s && t.value.m.endValue == sets.value[0].e))
  {
    if sets.Some? && |sets.value| != 2 {
      var s := sets.value;
      assert Target(c, 1, rule) == 0;
      var next := SetKeyframe(c, sets, 1, rule);
      if rule.skip && next.Ok? {
        assert Skip(frame, c, s, rule) == next;
      }
    }
  }

  // ---------- how the variants differ ----------

  /**
   * At the last key the newer layer track loads a zero-length segment, while the
   * older tracks read past the end of the sets.
   */
  lemma LastKeyDiffers(m: Motion, s: seq<Key>)
    requires m.keys == |s| > 0
    ensures var r := SetKeyframe(m, Some(s), |s| - 1, LayerRule);
      r.Ok? && r.value.startFrame == r.value.endFrame == s[|s| - 1].t
    ensures SetKeyframe(m, Some(s), |s| - 1, OlderRule) == Err(IndexOutOfRange)
    ensures SetKeyframe(m, Some(s), |s| - 1, PathRule) == Err(IndexOutOfRange)
  {
  }

  /** Past the last key the newer tracks wrap to segment 0; the older ones read out of range. */
  lemma OvershootDiffers(m: Motion, s: seq<Key>)
    requires m.keys == |s| > 1
    ensures var r := SetKeyframe(m, Some(s), |s|, LayerRule); r.Ok? && r.value.key == 0 && r.value.endFrame == s[1].t
    ensures SetKeyframe(m, Some(s), |s|, OlderRule) == Err(IndexOutOfRange)
  {
  }

  /** A one-key track: the layer and colour tracks sets up (with a zero-length segment), the others fault. */
  lemma SingleKeySetup(m: Motion, s: seq<Key>)
    requires |s| == 1
    ensures MotionSetup(m, Some(s), LayerRule).Ok? && MotionSetup(m, Some(s), ColourRule).Ok?
    ensures MotionSetup(m, Some(s), OlderRule).Err? && MotionSetup(m, Some(s), PathRule).Err?
  {
  }

  /** The freeze rules differ above 1: the newer value holds the start, the older one extrapolates. */
  lemma FreezeDiffers(m: Motion, s: seq<Key>, ease: real)
    requires m.key < |s| && m.percent.At? && m.percent.value > 1.0
    requires m.startValue == s[m.key].s && m.endValue == s[m.key].e
    ensures Value3(m, ease) == s[m.key].s
    ensures KeyValue3(m, Some(s), ease) == Ok(Lerp3(s[m.key].s, s[m.key].e, ease))
  {
  }

  /** With an ease in [0,1] the displayed value stays between the segment's values, component-wise. */
  lemma ValueBetween(m: Motion, ease: real)
    requires 0.0 <= ease <= 1.0
    ensures var v := Value3(m, ease);
      Between(m.startValue.x, m.endValue.x, v.x) && Between(m.startValue.y, m.endValue.y, v.y) && Between(m.startValue.z, m.endValue.z, v.z)
  {
    if !Below(m.percent) && !Above(m.percent) {
      Lerp3Between(m.startValue, m.endValue, ease);
    } else {
      ScalarBetween(m.startValue.x, m.endValue.x, 0.0);
      ScalarBetween(m.startValue.y, m.endValue.y, 0.0);
      ScalarBetween(m.startValue.z, m.endValue.z, 0.0);
    }
  }
}
