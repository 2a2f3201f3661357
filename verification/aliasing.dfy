/**
 * The vertex arrays of a path as the C# classes hold them: `points`, and the
 * `startPoints`/`endPoints` references the path track reads. CreatePathKeyframe
 * makes `startPoints` the very array `points` is, so each tick of the vertex loop
 * starts from where the previous tick left the vertices.
 */
module Aliasing {
  import opened Wrappers
  import opened Vectors
  import PathMotion

  /** The fraction of the way still to go after ticks with these eases, each starting where the last one ended. */
  function Remaining(eases: seq<real>): (r: real)
    ensures |eases| == 0 ==> r == 1.0
    ensures |eases| > 0 && eases[0] == 1.0 ==> r == 0.0
  {
    if |eases| == 0 then 1.0 else (1.0 - eases[0]) * Remaining(eases[1..])
  }

  /** Successive ticks of one vertex towards a fixed target, each from the vertex's current place. */
  function Ticks(p: BodyPoint, target: BodyPoint, eases: seq<real>): (r: BodyPoint)
    ensures |eases| == 0 ==> r == p
    decreases |eases|
  {
    if |eases| == 0 then p else Ticks(LerpPoint(p, target, eases[0]), target, eases[1..])
  }

  /**
   * Aliased ticks compound: after ticks with eases e1 .. ek the vertex has moved
   * the fraction 1 - (1 - e1) .. (1 - ek) of the way, not ek.
   */
  lemma {:induction false} AliasedTicksFold(p: BodyPoint, target: BodyPoint, eases: seq<real>)
    ensures Ticks(p, target, eases) == LerpPoint(p, target, 1.0 - Remaining(eases))
    decreases |eases|
  {
    if |eases| == 0 {
      LerpZero(p, target);
    } else {
      var e := eases[0];
      var q := LerpPoint(p, target, e);
      var rest := Remaining(eases[1..]);
      assert Remaining(eases) == (1.0 - e) * rest;
      assert Ticks(p, target, eases) == Ticks(q, target, eases[1..]);
      AliasedTicksFold(q, target, eases[1..]);
      var moved := 1.0 - rest;
      assert Ticks(q, target, eases[1..]) == LerpPoint(q, target, moved);
      PathMotion.AliasedTicksCompound(p, target, e, moved);
      FractionStep(e, rest, moved, Remaining(eases));
      var f := 1.0 - (1.0 - e) * (1.0 - moved);
      assert Ticks(p, target, eases) == LerpPoint(p, target, f);
    }
  }

  lemma FractionStep(e: real, rest: real, moved: real, remaining: real)
    requires moved == 1.0 - rest && remaining == (1.0 - e) * rest
    ensures 1.0 - (1.0 - e) * (1.0 - moved) == 1.0 - remaining
  {
  }

  lemma LerpZero(p: BodyPoint, target: BodyPoint)
    ensures LerpPoint(p, target, 0.0) == p
  {
  }

  /** Appending a tick to a run of ticks is one more step from where the run ended. */
  lemma {:induction false} TicksSnoc(p: BodyPoint, target: BodyPoint, eases: seq<real>, e: real)
    ensures Ticks(p, target, eases + [e]) == LerpPoint(Ticks(p, target, eases), target, e)
    decreases |eases|
  {
    if |eases| == 0 {
      assert eases + [e] == [e];
      assert [e][1..] == [];
    } else {
      assert (eases + [e])[1..] == eases[1..] + [e];
      TicksSnoc(LerpPoint(p, target, eases[0]), target, eases[1..], e);
    }
  }

  /** A path's vertex array and the arrays its track's start and end references point at. */
  class PathBuffers {
    var points: array<BodyPoint>
    var startPoints: array<BodyPoint>
    var endPoints: array<BodyPoint>

    /** A path whose start and end sets are arrays of their own, as SetKeyframe leaves them. */
    constructor (pts: seq<BodyPoint>, start: seq<BodyPoint>, end: seq<BodyPoint>)
      ensures points[..] == pts && startPoints[..] == start && endPoints[..] == end
      ensures fresh(points) && fresh(startPoints) && fresh(endPoints)
    {
      points := new BodyPoint[|pts|](i requires 0 <= i < |pts| => pts[i]);
      startPoints := new BodyPoint[|start|](i requires 0 <= i < |start| => start[i]);
      endPoints := new BodyPoint[|end|](i requires 0 <= i < |end| => end[i]);
    }

    /** What the track's start reference reads, in the functional model's terms. */
    function StartRef(): PathMotion.PointsRef
      reads this, startPoints
    {
      if startPoints == points then PathMotion.LivePoints else PathMotion.Own(startPoints[..])
    }

    /** CreatePathKeyframe's reference moves: the start becomes the live vertex array, the end the target's. */
    method CreatePathKeyframe(target: array<BodyPoint>)
      modifies this
      ensures startPoints == points && endPoints == target && points == old(points)
      ensures StartRef() == PathMotion.LivePoints
    {
      startPoints := points;
      endPoints := target;
    }

    /**
     * The vertex loop, in place: vertex i becomes the start set's vertex i (when
     * frozen) or moves from it towards the end set's vertex i. Vertex i is read
     * before it is written, so with the start aliased to `points` the loop reads
     * the vertices as they were before the tick, as the functional model does.
     */
    method Interpolate(freeze: bool, ease: real)
      requires startPoints.Length >= points.Length && endPoints.Length >= points.Length
      requires endPoints != points
      modifies points
      ensures PathMotion.Interpolate(Some(old(points[..])), PathMotion.Resolve(old(StartRef()), Some(old(points[..]))),
                                     Some(old(endPoints[..])), freeze, ease) == Ok(points[..])
    {
      ghost var pts := points[..];
      ghost var start := if startPoints == points then points[..] else startPoints[..];
      ghost var end := endPoints[..];
      ghost var ref := StartRef();
      assert PathMotion.Resolve(ref, Some(pts)) == Some(start);
      var i := 0;
      while i < points.Length
        invariant 0 <= i <= points.Length
        invariant forall j :: 0 <= j < i ==> points[j] == (if freeze then start[j] else LerpPoint(start[j], end[j], ease))
        invariant forall j :: i <= j < points.Length ==> points[j] == pts[j]
        invariant startPoints != points ==> startPoints[..] == start
        invariant endPoints[..] == end
      {
        var s := startPoints[i];
        points[i] := if freeze then s else LerpPoint(s, endPoints[i], ease);
        i := i + 1;
      }
      var r := PathMotion.Interpolate(Some(pts), Some(start), Some(end), freeze, ease);
      assert r.Ok? && |r.value| == points.Length;
      assert forall j :: 0 <= j < points.Length ==> r.value[j] == points[j];
      assert r.value == points[..];
    }

    /**
     * After CreatePathKeyframe, a run of ticks with the given eases leaves every
     * vertex the compounded fraction of the way to the target.
     */
    method RunAliased(eases: seq<real>)
      requires startPoints == points && endPoints != points && endPoints.Length >= points.Length
      modifies points
      ensures forall i :: 0 <= i < points.Length ==>
        points[i] == LerpPoint(old(points[i]), endPoints[i], 1.0 - Remaining(eases))
    {
      ghost var pts := points[..];
      var k := 0;
      while k < |eases|
        invariant 0 <= k <= |eases|
        invariant startPoints == points && endPoints != points
        invariant forall i :: 0 <= i < points.Length ==> points[i] == Ticks(pts[i], endPoints[i], eases[..k])
      {
        ghost var before := points[..];
        Interpolate(false, eases[k]);
        forall i | 0 <= i < points.Length
          ensures points[i] == Ticks(pts[i], endPoints[i], eases[..k + 1])
        {
          assert points[i] == LerpPoint(before[i], endPoints[i], eases[k]);
          TicksSnoc(pts[i], endPoints[i], eases[..k], eases[k]);
          assert eases[..k + 1] == eases[..k] + [eases[k]];
        }
        k := k + 1;
      }
      assert eases[..k] == eases;
      forall i | 0 <= i < points.Length
        ensures points[i] == LerpPoint(pts[i], endPoints[i], 1.0 - Remaining(eases))
      {
        AliasedTicksFold(pts[i], endPoints[i], eases);
      }
    }
  }
}
