/** Unity's Vector2/Vector3 arithmetic over reals, and the path vertex record. */
module Vectors {

  datatype Vec2 = Vec2(x: real, y: real) {
    function Add(v: Vec2): Vec2 { Vec2(x + v.x, y + v.y) }
    function Sub(v: Vec2): Vec2 { Vec2(x - v.x, y - v.y) }
    function Scale(k: real): Vec2 { Vec2(x * k, y * k) }
  }

  datatype Vec3 = Vec3(x: real, y: real, z: real) {
    function Add(v: Vec3): Vec3 { Vec3(x + v.x, y + v.y, z + v.z) }
    function Sub(v: Vec3): Vec3 { Vec3(x - v.x, y - v.y, z - v.z) }
    function Scale(k: real): Vec3 { Vec3(x * k, y * k, z * k) }
  }

  const Zero2: Vec2 := Vec2(0.0, 0.0)
  const One2: Vec2 := Vec2(1.0, 1.0)
  const Zero3: Vec3 := Vec3(0.0, 0.0, 0.0)
  const One3: Vec3 := Vec3(1.0, 1.0, 1.0)

  /** `a + (b - a) * t`, the interpolation every track uses, on one component. */
  function Lerp(a: real, b: real, t: real): real {
    a + (b - a) * t
  }

  /** `a + (b - a) * t` on a Vector2: each component interpolated with the same fraction. */
  function Lerp2(a: Vec2, b: Vec2, t: real): (r: Vec2)
    ensures t == 0.0 ==> r == a
    ensures t == 1.0 ==> r == b
  {
    Vec2(Lerp(a.x, b.x, t), Lerp(a.y, b.y, t))
  }

  /** `a + (b - a) * t` on a Vector3: each component interpolated with the same fraction. */
  function Lerp3(a: Vec3, b: Vec3, t: real): (r: Vec3)
    ensures t == 0.0 ==> r == a
    ensures t == 1.0 ==> r == b
  {
    Vec3(Lerp(a.x, b.x, t), Lerp(a.y, b.y, t), Lerp(a.z, b.z, t))
  }

  /** One path vertex: position `p` with in-handle `i` and out-handle `o` (BodyPoint). */
  datatype BodyPoint = BodyPoint(p: Vec2, i: Vec2, o: Vec2)

  const DefaultPoint: BodyPoint := BodyPoint(Zero2, Zero2, Zero2)

  /** Position and both handles interpolated with the same fraction. */
  function LerpPoint(s: BodyPoint, e: BodyPoint, t: real): (r: BodyPoint)
    ensures t == 0.0 ==> r == s
    ensures t == 1.0 ==> r == e
  {
    BodyPoint(Lerp2(s.p, e.p, t), Lerp2(s.i, e.i, t), Lerp2(s.o, e.o, t))
  }

  predicate Between(a: real, b: real, v: real) {
    (a <= v <= b) || (b <= v <= a)
  }

  /** With a fraction in [0,1] every component of the result lies between the endpoints. */
  lemma Lerp3Between(a: Vec3, b: Vec3, t: real)
    requires 0.0 <= t <= 1.0
    ensures Between(a.x, b.x, Lerp3(a, b, t).x)
    ensures Between(a.y, b.y, Lerp3(a, b, t).y)
    ensures Between(a.z, b.z, Lerp3(a, b, t).z)
  {
    ScalarBetween(a.x, b.x, t);
    ScalarBetween(a.y, b.y, t);
    ScalarBetween(a.z, b.z, t);
  }

  lemma ScalarBetween(a: real, b: real, t: real)
    requires 0.0 <= t <= 1.0
    ensures Between(a, b, a + (b - a) * t)
  {
    var d := b - a;
    if a <= b {
      MulNonneg(d, t);
      MulNonneg(d, 1.0 - t);
      assert d * (1.0 - t) == d - d * t;
    } else {
      MulNonneg(-d, t);
      MulNonneg(-d, 1.0 - t);
      assert (-d) * (1.0 - t) == -d + d * t;
      assert (-d) * t == -(d * t);
    }
  }

  lemma MulNonneg(x: real, y: real)
    requires x >= 0.0 && y >= 0.0
    ensures x * y >= 0.0
  {
  }
}
