/**
 * Cubic-bezier easing (Ease.cs). Floats are modelled as reals; Mathf.Sqrt,
 * the cube root (Mathf.Pow(v, 1/3)), Mathf.Acos and Mathf.Cos are uninterpreted
 * parameters. Where the C# code produces NaN or an infinity (the square root of a
 * negative, Acos outside [-1,1], a division by zero) every later range check is
 * false, so the model goes straight to the failure sentinel -1.
 */
module Ease {
  import opened Vectors

  /** The float library the solver calls, left uninterpreted. */
  datatype Numerics = Numerics(sqrt: real -> real, cbrt: real -> real, acos: real -> real, cos: real -> real)

  /** Mathf.PI as a float. */
  const PI: real := 3.14159274

  /** The `Linear` tangent pair: out-tangent (1,1), in-tangent (0,0). */
  const LinearOut: Vec2 := Vec2(1.0, 1.0)
  const LinearIn: Vec2 := Vec2(0.0, 0.0)

  function Squared(v: real): (r: real)
    ensures r >= 0.0
  {
    v * v
  }

  function Cubed(v: real): real {
    v * Squared(v)
  }

  predicate InUnit(x: real) {
    0.0 <= x <= 1.0
  }

  /** The solver's range check: the first candidate in [0,1], otherwise -1. */
  function FirstInUnit(cands: seq<real>): (r: real)
    ensures r == -1.0 || InUnit(r)
    ensures r == -1.0 <==> forall i :: 0 <= i < |cands| ==> !InUnit(cands[i])
    ensures r != -1.0 ==> exists i :: 0 <= i < |cands| && cands[i] == r && forall j :: 0 <= j < i ==> !InUnit(cands[j])
  {
    if |cands| == 0 then -1.0
    else if InUnit(cands[0]) then cands[0]
    else
      var r := FirstInUnit(cands[1..]);
      assert forall i :: 1 <= i < |cands| ==> cands[i] == cands[1..][i - 1];
      if r != -1.0 then
        var k :| 0 <= k < |cands[1..]| && cands[1..][k] == r && forall j :: 0 <= j < k ==> !InUnit(cands[1..][j]);
        assert cands[k + 1] == r;
        r
      else r
  }

  /** The cube root of a signed value as the solver takes it: -cbrt(-x) below zero. */
  function SignedCbrt(n: Numerics, x: real): real {
    if x < 0.0 then -n.cbrt(-x) else n.cbrt(x)
  }

  /** The two quadratic-formula candidates, + root first. */
  function QuadraticCandidates(n: Numerics, a: real, b: real, c: real): seq<real>
    requires a != 0.0 && Squared(b) - 4.0 * a * c >= 0.0
  {
    var s := n.sqrt(Squared(b) - 4.0 * a * c);
    [(-b + s) / (2.0 * a), (-b - s) / (2.0 * a)]
  }

  /**
   * SolveQuadratic: the + root if it lies in [0,1], else the - root if it does,
   * else -1. A negative discriminant (Sqrt gives NaN) or a zero leading
   * coefficient (division by zero) makes both range checks fail.
   */
  function SolveQuadratic(n: Numerics, a: real, b: real, c: real): (r: real)
    ensures r == -1.0 || InUnit(r)
    ensures Squared(b) - 4.0 * a * c < 0.0 || a == 0.0 ==> r == -1.0
    ensures a != 0.0 && Squared(b) - 4.0 * a * c >= 0.0 ==>
      var cs := QuadraticCandidates(n, a, b, c);
      (InUnit(cs[0]) ==> r == cs[0]) &&
      (!InUnit(cs[0]) && InUnit(cs[1]) ==> r == cs[1]) &&
      (!InUnit(cs[0]) && !InUnit(cs[1]) ==> r == -1.0)
  {
    var disc := Squared(b) - 4.0 * a * c;
    if disc < 0.0 || a == 0.0 then -1.0
    else FirstInUnit(QuadraticCandidates(n, a, b, c))
  }

  /** With an exact square root, a result other than -1 is a genuine root of a x^2 + b x + c. */
  lemma QuadraticRootIsExact(n: Numerics, a: real, b: real, c: real)
    requires a != 0.0
    requires var d := Squared(b) - 4.0 * a * c; d >= 0.0 ==> n.sqrt(d) * n.sqrt(d) == d
    ensures var r := SolveQuadratic(n, a, b, c); r != -1.0 ==> a * r * r + b * r + c == 0.0
  {
    var r := SolveQuadratic(n, a, b, c);
    if r != -1.0 {
      var d := Squared(b) - 4.0 * a * c;
      assert d >= 0.0;
      var s := n.sqrt(d);
      assert s * s == b * b - 4.0 * a * c;
      var cs := QuadraticCandidates(n, a, b, c);
      assert r == cs[0] || r == cs[1];
      CandidateIsRoot(a, b, c, s, r);
    }
  }

  /** Either quadratic-formula candidate, with an exact square root s of the discriminant, is a root. */
  lemma CandidateIsRoot(a: real, b: real, c: real, s: real, r: real)
    requires a != 0.0 && s * s == b * b - 4.0 * a * c
    requires r == (-b + s) / (2.0 * a) || r == (-b - s) / (2.0 * a)
    ensures a * r * r + b * r + c == 0.0
  {
    var t := 2.0 * a * r + b;
    if r == (-b + s) / (2.0 * a) {
      TimesQuotient(-b + s, 2.0 * a);
      assert t == s;
    } else {
      TimesQuotient(-b - s, 2.0 * a);
      assert t == -s;
    }
    assert t * t == s * s;
    SquareOfLinear(a, b, r);
    ZeroFactor(4.0 * a, a * r * r + b * r + c);
  }

  lemma TimesQuotient(x: real, y: real)
    requires y != 0.0
    ensures y * (x / y) == x
  {
  }

  lemma SquareOfLinear(a: real, b: real, r: real)
    ensures (2.0 * a * r + b) * (2.0 * a * r + b) == 4.0 * a * (a * r * r + b * r) + b * b
  {
  }

  lemma ZeroFactor(x: real, y: real)
    requires x != 0.0 && x * y == 0.0
    ensures y == 0.0
  {
  }

  /** The three trigonometric candidates of the three-real-root case. */
  function TrigCandidates(n: Numerics, term1: real, r13: real, theta: real): seq<real> {
    [-term1 + r13 * n.cos(theta / 3.0),
     -term1 + r13 * n.cos((theta + 2.0 * PI) / 3.0),
     -term1 + r13 * n.cos((theta + 4.0 * PI) / 3.0)]
  }

  /**
   * SolveCubic: a root of a t^3 + b t^2 + c t + d in [0,1], or -1. A zero
   * leading coefficient delegates to SolveQuadratic; d = 0 gives the root 0.
   */
  function SolveCubic(n: Numerics, a: real, b: real, c: real, d: real): (r: real)
    ensures r == -1.0 || InUnit(r)
    ensures a == 0.0 ==> r == SolveQuadratic(n, b, c, d)
    ensures a != 0.0 && d == 0.0 ==> r == 0.0
  {
    if a == 0.0 then SolveQuadratic(n, b, c, d)
    else if d == 0.0 then 0.0
    else
      var b := b / a;
      var c := c / a;
      var d := d / a;
      var q := (3.0 * c - Squared(b)) / 9.0;
      var r := (-27.0 * d + b * (9.0 * c - 2.0 * Squared(b))) / 54.0;
      var disc := Cubed(q) + Squared(r);
      var term1 := b / 3.0;
      if disc > 0.0 then
        var s := SignedCbrt(n, r + n.sqrt(disc));
        var t := SignedCbrt(n, r - n.sqrt(disc));
        FirstInUnit([-term1 + s + t])
      else if disc == 0.0 then
        var r13 := SignedCbrt(n, r);
        FirstInUnit([-term1 + 2.0 * r13, -(r13 + term1)])
      else
        var q := -q;
        var dum1 := q * q * q;
        if dum1 < 0.0 then -1.0
        else
          var root := n.sqrt(dum1);
          if root == 0.0 || !(-1.0 <= r / root <= 1.0) then -1.0
          else if q < 0.0 then -1.0
          else
            var theta := n.acos(r / root);
            FirstInUnit(TrigCandidates(n, term1, 2.0 * n.sqrt(q), theta))
  }

  /** The power-basis coefficients of the x-polynomial (Ease.cs lines 28-31). */
  function CoeffA(p0: real, p1: real, p2: real, p3: real): real { -p0 + 3.0 * p1 - 3.0 * p2 + p3 }
  function CoeffB(p0: real, p1: real, p2: real, p3: real): real { 3.0 * p0 - 6.0 * p1 + 3.0 * p2 }
  function CoeffC(p0: real, p1: real): real { -3.0 * p0 + 3.0 * p1 }

  /** The Bernstein form of a cubic bezier, as the source evaluates the y-polynomial. */
  function Bernstein(p0: real, p1: real, p2: real, p3: real, v: real): real {
    Cubed(1.0 - v) * p0 + 3.0 * v * Squared(1.0 - v) * p1 + 3.0 * Squared(v) * (1.0 - v) * p2 + Cubed(v) * p3
  }

  /** An independent definition of the same curve: de Casteljau's repeated interpolation. */
  function DeCasteljau(p0: real, p1: real, p2: real, p3: real, v: real): real {
    var a := p0 + (p1 - p0) * v;
    var b := p1 + (p2 - p1) * v;
    var c := p2 + (p3 - p2) * v;
    var d := a + (b - a) * v;
    var e := b + (c - b) * v;
    d + (e - d) * v
  }

  /**
   * CubicBezier: an input equal to the first endpoint's x returns that endpoint's y,
   * one equal to the last endpoint's x returns the last y, both without calling the
   * solver; otherwise the solver's parameter is substituted into the y-curve, and a
   * solver failure (-1) is returned as is.
   */
  function CubicBezier(n: Numerics, p0: Vec2, p1: Vec2, p2: Vec2, p3: Vec2, p: real): (r: real)
    ensures p == p0.x ==> r == p0.y
    ensures p != p0.x && p == p3.x ==> r == p3.y
    ensures p != p0.x && p != p3.x ==>
      var v := SolveCubic(n, CoeffA(p0.x, p1.x, p2.x, p3.x), CoeffB(p0.x, p1.x, p2.x, p3.x), CoeffC(p0.x, p1.x), p0.x - p);
      (v == -1.0 ==> r == -1.0) && (v != -1.0 ==> r == DeCasteljau(p0.y, p1.y, p2.y, p3.y, v))
  {
    var v :=
      if p == p0.x then 0.0
      else if p == p3.x then 1.0
      else
        var a := -p0.x + 3.0 * p1.x - 3.0 * p2.x + p3.x;
        var b := 3.0 * p0.x - 6.0 * p1.x + 3.0 * p2.x;
        var c := -3.0 * p0.x + 3.0 * p1.x;
        var d := p0.x - p;
        SolveCubic(n, a, b, c, d);
    if v == -1.0 then -1.0
    else
      BernsteinIsDeCasteljau(p0.y, p1.y, p2.y, p3.y, v);
      Bernstein(p0.y, p1.y, p2.y, p3.y, v)
  }

  /** The Bernstein expression the source evaluates is the bezier curve. */
  lemma BernsteinIsDeCasteljau(p0: real, p1: real, p2: real, p3: real, v: real)
    ensures Bernstein(p0, p1, p2, p3, v) == DeCasteljau(p0, p1, p2, p3, v)
  {
    var u := 1.0 - v;
    assert DeCasteljau(p0, p1, p2, p3, v) == u * u * u * p0 + 3.0 * v * u * u * p1 + 3.0 * v * v * u * p2 + v * v * v * p3;
  }

  /** The power-basis coefficients with constant p0 describe the same curve as the Bernstein form. */
  lemma PowerBasis(p0: real, p1: real, p2: real, p3: real, t: real)
    ensures CoeffA(p0, p1, p2, p3) * t * t * t + CoeffB(p0, p1, p2, p3) * t * t + CoeffC(p0, p1) * t + p0
         == Bernstein(p0, p1, p2, p3, t)
  {
    var u := 1.0 - t;
    assert Cubed(u) == 1.0 - 3.0 * t + 3.0 * t * t - t * t * t;
    assert Squared(u) == 1.0 - 2.0 * t + t * t;
  }

  /** The eased fraction every track computes: endpoints (0,0) and (1,1). */
  function Evaluate(n: Numerics, outTangent: Vec2, inTangent: Vec2, p: real): (r: real)
    ensures p == 0.0 ==> r == 0.0
    ensures p == 1.0 ==> r == 1.0
    ensures p != 0.0 && p != 1.0 ==>
      var v := SolveCubic(n, CoeffA(0.0, outTangent.x, inTangent.x, 1.0), CoeffB(0.0, outTangent.x, inTangent.x, 1.0), CoeffC(0.0, outTangent.x), -p);
      (v == -1.0 ==> r == -1.0) && (v != -1.0 ==> r == DeCasteljau(0.0, outTangent.y, inTangent.y, 1.0, v))
  {
    assert 0.0 - p == -p;
    CubicBezier(n, Zero2, outTangent, inTangent, One2, p)
  }

  /**
   * Tangents on the diagonal (the `Linear` pair is one) ease linearly: whenever the
   * solver's parameter is an exact root of the x-equation, the eased value is p itself.
   */
  lemma DiagonalTangentsEaseLinearly(n: Numerics, outTangent: Vec2, inTangent: Vec2, p: real)
    requires outTangent.x == outTangent.y && inTangent.x == inTangent.y
    requires p != 0.0 && p != 1.0
    requires var v := SolveCubic(n, CoeffA(0.0, outTangent.x, inTangent.x, 1.0), CoeffB(0.0, outTangent.x, inTangent.x, 1.0), CoeffC(0.0, outTangent.x), -p);
      v != -1.0 && ExactRoot(outTangent.x, inTangent.x, v, p)
    ensures Evaluate(n, outTangent, inTangent, p) == p
  {
    var x1, x2 := outTangent.x, inTangent.x;
    var v := SolveCubic(n, CoeffA(0.0, x1, x2, 1.0), CoeffB(0.0, x1, x2, 1.0), CoeffC(0.0, x1), -p);
    DiagonalCurve(x1, x2, v, p);
  }

  /** v solves x(v) = p for the curve with endpoints 0 and 1 and inner x values x1, x2. */
  predicate ExactRoot(x1: real, x2: real, v: real, p: real) {
    CoeffA(0.0, x1, x2, 1.0) * v * v * v + CoeffB(0.0, x1, x2, 1.0) * v * v + CoeffC(0.0, x1) * v == p
  }

  /** On a diagonal curve, an exact root v of x(v) = p has y(v) = p. */
  lemma DiagonalCurve(x1: real, x2: real, v: real, p: real)
    requires ExactRoot(x1, x2, v, p)
    ensures DeCasteljau(0.0, x1, x2, 1.0, v) == p
  {
    BernsteinIsDeCasteljau(0.0, x1, x2, 1.0, v);
    PowerBasis(0.0, x1, x2, 1.0, v);
  }
}
