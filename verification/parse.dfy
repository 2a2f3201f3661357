/**
 * The value conversions of the document parser (BodymovinContent.ParseLayers,
 * ParseShapes, ParseItems). The JSON text and SimpleJSON are replaced by an
 * abstract node tree that already tells static values from keyframe lists.
 */
module BodymovinParse {
  import opened Wrappers
  import opened Vectors
  import opened Content

  /** A scalar keyframe: tangents (x[0], y[0]) and start/end value s[0], e[0]; absent values read as 0. */
  datatype RawScalarKey = RawScalarKey(t: real, i: Vec2, o: Vec2, s: real, e: real)
  /** A vector keyframe as stored in the file. */
  datatype RawVectorKey = RawVectorKey(t: real, i: Vec2, o: Vec2, s: Vec3, e: Vec3)
  datatype RawScalar = StaticScalar(v: real) | KeyedScalar(keys: seq<RawScalarKey>)
  /** A vector property; `KeyedVector` is the node whose "a" flag is 1. */
  datatype RawVector = StaticVector(v: Vec3) | KeyedVector(keys: seq<RawVectorKey>)
  /** The "ks" transform block of a layer. */
  datatype RawTransform = RawTransform(anchor: RawVector, position: RawVector, scale: RawVector,
                                       rx: RawScalar, ry: RawScalar, rz: RawScalar, opacity: RawScalar)

  datatype RawColourKey = RawColourKey(t: real, i: Vec2, o: Vec2, s: Vec3, e: Vec3)
  /** A colour; `KeyedColour` is the node whose "a" flag is 1. */
  datatype RawColour = StaticColour(c: Colour) | KeyedColour(keys: seq<RawColourKey>)

  /** One vertex set: closed flag and the parallel in-tangent, out-tangent and vertex lists. */
  datatype RawPathShape = RawPathShape(closed: bool, i: seq<Vec2>, o: seq<Vec2>, v: seq<Vec2>)
  datatype RawPathKey = RawPathKey(t: real, i: Vec2, o: Vec2, s: RawPathShape, e: RawPathShape)
  datatype RawPath = StaticPath(shape: RawPathShape) | KeyedPath(keys: seq<RawPathKey>)

  /** The item types the parser distinguishes: "st", "fl", "sh", anything else. */
  datatype ItemType = Stroke | Fill | PathItem | OtherItem
  datatype RawItem = RawItem(ty: ItemType, hidden: bool, width: real, colour: RawColour, path: RawPath)
  datatype RawShape = RawShape(items: seq<RawItem>)
  datatype RawLayer = RawLayer(ind: int, parent: int, ip: real, op: real, ks: RawTransform, shapes: seq<RawShape>)
  datatype RawDocument = RawDocument(fr: real, ip: real, op: real, w: int, h: int, layers: seq<RawLayer>)

  function FlipY(v: Vec3): Vec3 {
    Vec3(v.x, -v.y, v.z)
  }

  /** Applies a fallible conversion to every element; the first failure fails the whole. */
  function MapResult<A, B>(xs: seq<A>, f: A -> Result<B>): (r: Result<seq<B>>)
    ensures r.Ok? <==> forall j :: 0 <= j < |xs| ==> f(xs[j]).Ok?
    ensures r.Ok? ==> |r.value| == |xs| && forall j :: 0 <= j < |xs| ==> r.value[j] == f(xs[j]).value
  {
    if |xs| == 0 then Ok([])
    else
      var head :- f(xs[0]);
      var tail := MapResult(xs[1..], f);
      assert forall j :: 1 <= j < |xs| ==> xs[j] == xs[1..][j - 1];
      if tail.Err? then Err(tail.fault) else Ok([head] + tail.value)
  }

  // ---------- transform ----------

  /** A scalar keyframe; rotation X and Z pass `negate`. Vector fields stay zero. */
  function ScalarKey(k: RawScalarKey, negate: bool): (r: Keyframe)
    ensures r.t == k.t && r.i == k.i && r.o == k.o && r.s == Zero3 && r.e == Zero3
    ensures negate ==> r.sf == -k.s && r.ef == -k.e
    ensures !negate ==> r.sf == k.s && r.ef == k.e
  {
    Keyframe(k.t, k.i, k.o, Zero3, Zero3, if negate then -k.s else k.s, if negate then -k.e else k.e)
  }

  function ScalarSets(p: RawScalar, negate: bool): (r: seq<Keyframe>)
    ensures p.StaticScalar? ==> r == []
    ensures p.KeyedScalar? ==> |r| == |p.keys| && forall j :: 0 <= j < |r| ==> r[j] == ScalarKey(p.keys[j], negate)
  {
    match p
    case StaticScalar(_) => []
    case KeyedScalar(keys) => seq(|keys|, j requires 0 <= j < |keys| => ScalarKey(keys[j], negate))
  }

  /** A static scalar's value; a keyframe list read as a float is 0. */
  function ScalarValue(p: RawScalar): real {
    match p
    case StaticScalar(v) => v
    case KeyedScalar(_) => 0.0
  }

  /** A rotation angle: the (possibly negated) static value, replaced by the first keyframe's start. */
  function Angle(p: RawScalar, negate: bool): (r: real)
    ensures p.StaticScalar? ==> r == (if negate then -p.v else p.v)
    ensures p.KeyedScalar? && |p.keys| > 0 ==> r == ScalarSets(p, negate)[0].sf
  {
    var sets := ScalarSets(p, negate);
    if |sets| > 0 then sets[0].sf
    else if negate then -ScalarValue(p) else ScalarValue(p)
  }

  /** A position keyframe: y of both ends negated. Scalar fields stay zero. */
  function PositionKey(k: RawVectorKey): (r: Keyframe)
    ensures r.t == k.t && r.i == k.i && r.o == k.o
    ensures r.s == Vec3(k.s.x, -k.s.y, k.s.z) && r.e == Vec3(k.e.x, -k.e.y, k.e.z)
    ensures r.sf == 0.0 && r.ef == 0.0
  {
    Keyframe(k.t, k.i, k.o, FlipY(k.s), FlipY(k.e), 0.0, 0.0)
  }

  /** A scale keyframe: both ends divided by 100; the tangents are not read and stay zero. */
  function ScaleKey(k: RawVectorKey): (r: Keyframe)
    ensures r.t == k.t && r.i == Zero2 && r.o == Zero2
    ensures r.s.x * 100.0 == k.s.x && r.s.y * 100.0 == k.s.y && r.s.z * 100.0 == k.s.z
    ensures r.e.x * 100.0 == k.e.x && r.e.y * 100.0 == k.e.y && r.e.z * 100.0 == k.e.z
  {
    Keyframe(k.t, Zero2, Zero2, k.s.Scale(0.01), k.e.Scale(0.01), 0.0, 0.0)
  }

  function PositionSets(p: RawVector): (r: seq<Keyframe>)
    ensures p.StaticVector? ==> r == []
    ensures p.KeyedVector? ==> |r| == |p.keys| && forall j :: 0 <= j < |r| ==> r[j] == PositionKey(p.keys[j])
  {
    match p
    case StaticVector(_) => []
    case KeyedVector(keys) => seq(|keys|, j requires 0 <= j < |keys| => PositionKey(keys[j]))
  }

  function ScaleSets(p: RawVector): (r: seq<Keyframe>)
    ensures p.StaticVector? ==> r == []
    ensures p.KeyedVector? ==> |r| == |p.keys| && forall j :: 0 <= j < |r| ==> r[j] == ScaleKey(p.keys[j])
  {
    match p
    case StaticVector(_) => []
    case KeyedVector(keys) => seq(|keys|, j requires 0 <= j < |keys| => ScaleKey(keys[j]))
  }

  /** A static vector's value; a keyframe list read component-wise is zero. */
  function VectorValue(p: RawVector): Vec3 {
    match p
    case StaticVector(v) => v
    case KeyedVector(_) => Zero3
  }

  /** The anchor point, y negated; it never has keyframes. */
  function Anchor(p: RawVector): (r: Vec3)
    ensures p.StaticVector? ==> r == Vec3(p.v.x, -p.v.y, p.v.z)
    ensures p.KeyedVector? ==> r == Zero3
  {
    FlipY(VectorValue(p))
  }

  /** The static position, y negated, replaced by the first keyframe's start. */
  function Position(p: RawVector): (r: Vec3)
    ensures p.StaticVector? ==> r == Vec3(p.v.x, -p.v.y, p.v.z)
    ensures p.KeyedVector? && |p.keys| > 0 ==> r == Vec3(p.keys[0].s.x, -p.keys[0].s.y, p.keys[0].s.z)
    ensures p.KeyedVector? && |p.keys| == 0 ==> r == Zero3
  {
    var sets := PositionSets(p);
    if |sets| > 0 then sets[0].s else FlipY(VectorValue(p))
  }

  /** The static scale divided by 100, replaced by the first keyframe's start. */
  function Scale(p: RawVector): (r: Vec3)
    ensures p.StaticVector? ==> r.x * 100.0 == p.v.x && r.y * 100.0 == p.v.y && r.z * 100.0 == p.v.z
    ensures p.KeyedVector? && |p.keys| > 0 ==> r.x * 100.0 == p.keys[0].s.x && r.y * 100.0 == p.keys[0].s.y && r.z * 100.0 == p.keys[0].s.z
    ensures p.KeyedVector? && |p.keys| == 0 ==> r == Zero3
  {
    var sets := ScaleSets(p);
    if |sets| > 0 then sets[0].s else VectorValue(p).Scale(0.01)
  }

  // ---------- colours ----------

  function Clamp(v: real): (r: real)
    ensures -1.0 <= r <= 1.0
    ensures -1.0 <= v <= 1.0 ==> r == v
    ensures v < -1.0 ==> r == -1.0
    ensures v > 1.0 ==> r == 1.0
  {
    if v < -1.0 then -1.0 else if v > 1.0 then 1.0 else v
  }

  /** A colour keyframe: clamped tangents, the out-tangent using its x value twice. */
  function ColourKey(k: RawColourKey): (r: Keyframe)
    ensures r.t == k.t && r.s == k.s && r.e == k.e
    ensures r.i == Vec2(Clamp(k.i.x), Clamp(k.i.y))
    ensures r.o.x == r.o.y == Clamp(k.o.x)
  {
    Keyframe(k.t, Vec2(Clamp(k.i.x), Clamp(k.i.y)), Vec2(Clamp(k.o.x), Clamp(k.o.x)), k.s, k.e, 0.0, 0.0)
  }

  /** The item's four colour floats; keyframes read component-wise give zeros. */
  function ItemColour(c: RawColour): Colour {
    match c
    case StaticColour(v) => v
    case KeyedColour(_) => Colour(0.0, 0.0, 0.0, 0.0)
  }

  /** The colour track a stroke or fill gets: the keyframes, or an empty track when not animated. */
  function ColourSets(c: RawColour): (r: seq<Keyframe>)
    ensures c.StaticColour? ==> r == []
    ensures c.KeyedColour? ==> |r| == |c.keys| && forall j :: 0 <= j < |r| ==> r[j] == ColourKey(c.keys[j])
  {
    match c
    case StaticColour(_) => []
    case KeyedColour(keys) => seq(|keys|, j requires 0 <= j < |keys| => ColourKey(keys[j]))
  }

  // ---------- paths ----------

  /** Zips a vertex set into points; fails when a tangent list is shorter than the vertex list. */
  function Vertices(sh: RawPathShape): (r: Result<seq<BodyPoint>>)
    ensures r.Ok? <==> |sh.i| >= |sh.v| && |sh.o| >= |sh.v|
    ensures r.Ok? ==> (|r.value| == |sh.v| &&
      forall c :: 0 <= c < |sh.v| ==> r.value[c].p == sh.v[c] && r.value[c].i == sh.i[c] && r.value[c].o == sh.o[c])
  {
    if |sh.i| < |sh.v| || |sh.o| < |sh.v| then Err(IndexOutOfRange)
    else Ok(Zip(sh, |sh.v|))
  }

  /** The first n points of a vertex set. */
  function Zip(sh: RawPathShape, n: nat): (r: seq<BodyPoint>)
    requires n <= |sh.i| && n <= |sh.o| && n <= |sh.v|
    ensures |r| == n && forall c :: 0 <= c < n ==> r[c] == BodyPoint(sh.v[c], sh.i[c], sh.o[c])
  {
    seq(n, c requires 0 <= c < n => BodyPoint(sh.v[c], sh.i[c], sh.o[c]))
  }

  /** The inverse of `Vertices`: a vertex set listing the points' positions and tangents. */
  function Unzip(closed: bool, pts: seq<BodyPoint>): RawPathShape {
    RawPathShape(closed, seq(|pts|, c requires 0 <= c < |pts| => pts[c].i),
                 seq(|pts|, c requires 0 <= c < |pts| => pts[c].o),
                 seq(|pts|, c requires 0 <= c < |pts| => pts[c].p))
  }

  lemma VerticesRoundTrip(closed: bool, pts: seq<BodyPoint>)
    ensures Vertices(Unzip(closed, pts)) == Ok(pts)
  {
    var sh := Unzip(closed, pts);
    var r := Vertices(sh);
    assert r.Ok?;
    forall c | 0 <= c < |pts|
      ensures r.value[c] == pts[c]
    {
      assert sh.v[c] == pts[c].p && sh.i[c] == pts[c].i && sh.o[c] == pts[c].o;
    }
    assert r.value == pts;
  }

  function Defaults(n: nat): (r: seq<BodyPoint>)
    ensures |r| == n && forall c :: 0 <= c < n ==> r[c] == DefaultPoint
  {
    seq(n, c => DefaultPoint)
  }

  /**
   * One path keyframe. Both point arrays are indexed by the start set's vertex
   * count, so every list of the start and end sets must be at least that long; the
   * end array has the end set's length and keeps default points past the start count.
   */
  function ShapeKey(k: RawPathKey): (r: Result<ShapeKeyframe>)
    ensures var n := |k.s.v|;
      r.Ok? <==> (|k.s.i| >= n && |k.s.o| >= n && |k.e.i| >= n && |k.e.o| >= n && |k.e.v| >= n)
    ensures r.Ok? ==> r.value.t == k.t && r.value.i == k.i && r.value.o == k.o && r.value.startClosed == k.s.closed
    ensures r.Ok? ==> Vertices(k.s) == Ok(r.value.startPoints)
    ensures r.Ok? ==> (|r.value.endPoints| == |k.e.v| &&
      (forall c :: 0 <= c < |k.s.v| ==> r.value.endPoints[c] == BodyPoint(k.e.v[c], k.e.i[c], k.e.o[c])) &&
      (forall c :: |k.s.v| <= c < |k.e.v| ==> r.value.endPoints[c] == DefaultPoint))
  {
    var n := |k.s.v|;
    if |k.s.i| < n || |k.s.o| < n || |k.e.i| < n || |k.e.o| < n || |k.e.v| < n then Err(IndexOutOfRange)
    else
      var start := Zip(k.s, n);
      var end := Zip(k.e, n) + Defaults(|k.e.v| - n);
      Ok(ShapeKeyframe(k.t, k.i, k.o, k.s.closed, start, end))
  }

  /**
   * The path of any item: its static vertices when there are some; otherwise its
   * keyframes, with `points` set to the first keyframe's start set. `closed` is
   * filled in only for "sh" items (see `PathClosed`).
   */
  function ItemPath(p: RawPath): (r: Result<ShapePath>)
    ensures p.StaticPath? && |p.shape.v| > 0 ==>
      (r.Ok? <==> Vertices(p.shape).Ok?) &&
      (r.Ok? ==> r.value.points == Some(Vertices(p.shape).value) && r.value.animSets == None)
    ensures p.KeyedPath? ==>
      (r.Ok? <==> forall j :: 0 <= j < |p.keys| ==> ShapeKey(p.keys[j]).Ok?) &&
      (r.Ok? ==> (r.value.animSets.Some? && |r.value.animSets.value| == |p.keys| &&
         (|p.keys| > 0 ==> r.value.points == Some(r.value.animSets.value[0].startPoints)) &&
         (|p.keys| == 0 ==> r.value.points == None)))
  {
    if p.StaticPath? && |p.shape.v| > 0 then
      var pts :- Vertices(p.shape);
      Ok(ShapePath(false, Some(pts), None))
    else
      var keys := if p.KeyedPath? then p.keys else [];
      var sets :- MapResult(keys, ShapeKey);
      Ok(ShapePath(false, if |sets| > 0 then Some(sets[0].startPoints) else None, Some(sets)))
  }

  /** An "sh" item's closed flag: the static shape's, else the first keyframe's start set's. */
  function PathClosed(p: RawPath, path: ShapePath): (r: Result<bool>)
    ensures path.animSets.None? ==> r == Ok(if p.StaticPath? then p.shape.closed else false)
    ensures path.animSets.Some? ==> (r.Ok? <==> |path.animSets.value| > 0)
    ensures path.animSets.Some? && r.Ok? ==> r.value == path.animSets.value[0].startClosed
  {
    match path.animSets
    case None => Ok(if p.StaticPath? then p.shape.closed else false)
    case Some(sets) => if |sets| == 0 then Err(IndexOutOfRange) else Ok(sets[0].startClosed)
  }

  // ---------- shapes ----------

  /** An item the parser gets through. */
  predicate WellFormedItem(it: RawItem) {
    var path := ItemPath(it.path);
    path.Ok? && (it.ty == PathItem ==> PathClosed(it.path, path.value).Ok?)
  }

  /** The number of "sh" items, the length the parser gives `paths` up front. */
  function PathCount(items: seq<RawItem>): nat {
    if |items| == 0 then 0 else (if items[0].ty == PathItem then 1 else 0) + PathCount(items[1..])
  }

  /** The last item of a type, if any. */
  function LastOf(items: seq<RawItem>, ty: ItemType): (r: Option<RawItem>)
    ensures r.Some? ==> r.value in items && r.value.ty == ty
    ensures r.None? <==> forall j :: 0 <= j < |items| ==> items[j].ty != ty
  {
    if |items| == 0 then None
    else
      var rest := LastOf(items[1..], ty);
      assert forall j :: 1 <= j < |items| ==> items[j] == items[1..][j - 1];
      if rest.Some? then rest else if items[0].ty == ty then Some(items[0]) else None
  }

  /** What one item does to the shape being built. */
  function ApplyItem(acc: Shape, it: RawItem, path: ShapePath): (r: Result<Shape>)
    ensures r.Ok? <==> (it.ty == PathItem ==> PathClosed(it.path, path).Ok?)
    ensures r.Ok? ==> |r.value.paths| == |acc.paths| + (if it.ty == PathItem then 1 else 0)
    ensures r.Ok? ==> r.value.paths[..|acc.paths|] == acc.paths
    ensures r.Ok? && it.ty == PathItem ==> r.value.paths == acc.paths + [path.(closed := PathClosed(it.path, path).value)]
    ensures r.Ok? && it.ty != PathItem ==> r.value.paths == acc.paths
    ensures r.Ok? ==> r.value.points == acc.points && r.value.closed == acc.closed && r.value.animSets == acc.animSets
  {
    match it.ty
    case Stroke => Ok(acc.(strokeColor := Some(ItemColour(it.colour)), strokeColorSets := Some(ColourSets(it.colour)),
                           strokeHidden := it.hidden, strokeWidth := it.width))
    case Fill => Ok(acc.(fillColor := Some(ItemColour(it.colour)), fillColorSets := Some(ColourSets(it.colour)),
                         fillHidden := it.hidden))
    case PathItem =>
      var closed :- PathClosed(it.path, path);
      Ok(acc.(paths := acc.paths + [path.(closed := closed)]))
    case OtherItem => Ok(acc)
  }

  /**
   * The item loop of ParseItems. It fails exactly when some item does not parse;
   * otherwise one path is appended per "sh" item after the ones already there.
   */
  function ParseItems(items: seq<RawItem>, acc: Shape): (r: Result<Shape>)
    ensures r.Ok? <==> forall j :: 0 <= j < |items| ==> WellFormedItem(items[j])
    ensures r.Ok? ==> |r.value.paths| == |acc.paths| + PathCount(items) && r.value.paths[..|acc.paths|] == acc.paths
    decreases |items|
  {
    if |items| == 0 then Ok(acc)
    else
      assert forall j :: 1 <= j < |items| ==> items[j] == items[1..][j - 1];
      var it := items[0];
      var path := ItemPath(it.path);
      if path.Err? then
        assert !WellFormedItem(it);
        Err(path.fault)
      else
        var next := ApplyItem(acc, it, path.value);
        assert WellFormedItem(it) <==> next.Ok?;
        if next.Err? then Err(next.fault)
        else
          var r := ParseItems(items[1..], next.value);
          assert r.Ok? ==> r.value.paths[..|acc.paths|] == next.value.paths[..|acc.paths|];
          r
  }

  /** The stroke fields come from the last "st" item; with none they are left as they were. */
  lemma {:induction false} LastStrokeWins(items: seq<RawItem>, acc: Shape)
    requires ParseItems(items, acc).Ok?
    ensures var y := ParseItems(items, acc).value;
      match LastOf(items, Stroke)
      case None => y.strokeColor == acc.strokeColor && y.strokeColorSets == acc.strokeColorSets &&
                   y.strokeHidden == acc.strokeHidden && y.strokeWidth == acc.strokeWidth
      case Some(st) => y.strokeColor == Some(ItemColour(st.colour)) && y.strokeColorSets == Some(ColourSets(st.colour)) &&
                       y.strokeHidden == st.hidden && y.strokeWidth == st.width
    decreases |items|
  {
    if |items| > 0 {
      var next := ApplyItem(acc, items[0], ItemPath(items[0].path).value).value;
      LastStrokeWins(items[1..], next);
    }
  }

  /** The fill fields come from the last "fl" item; with none they are left as they were. */
  lemma {:induction false} LastFillWins(items: seq<RawItem>, acc: Shape)
    requires ParseItems(items, acc).Ok?
    ensures var y := ParseItems(items, acc).value;
      match LastOf(items, Fill)
      case None => y.fillColor == acc.fillColor && y.fillColorSets == acc.fillColorSets && y.fillHidden == acc.fillHidden
      case Some(fl) => y.fillColor == Some(ItemColour(fl.colour)) && y.fillColorSets == Some(ColourSets(fl.colour)) &&
                       y.fillHidden == fl.hidden
    decreases |items|
  {
    if |items| > 0 {
      var next := ApplyItem(acc, items[0], ItemPath(items[0].path).value).value;
      LastFillWins(items[1..], next);
    }
  }

  /**
   * A parsed shape has a colour exactly when it has a colour set array (an "st"
   * or "fl" item assigns both, the set possibly empty), and a shape with no such
   * item has neither.
   */
  lemma PaintHasSets(s: RawShape)
    requires ParseShape(s).Ok?
    ensures var y := ParseShape(s).value;
      (y.strokeColor.Some? <==> y.strokeColorSets.Some?) && (y.fillColor.Some? <==> y.fillColorSets.Some?)
    ensures var y := ParseShape(s).value;
      (LastOf(s.items, Stroke).None? ==> y.strokeColor.None? && y.strokeColorSets.None?) &&
      (LastOf(s.items, Fill).None? ==> y.fillColor.None? && y.fillColorSets.None?)
  {
    LastStrokeWins(s.items, EmptyShape);
    LastFillWins(s.items, EmptyShape);
  }

  function ParseShape(s: RawShape): (r: Result<Shape>)
    ensures r.Ok? <==> forall j :: 0 <= j < |s.items| ==> WellFormedItem(s.items[j])
    ensures r.Ok? ==> |r.value.paths| == PathCount(s.items)
    ensures r.Ok? ==> r.value.points == None && r.value.animSets == None
  {
    ParseItemsKeepsLegacy(s.items, EmptyShape);
    ParseItems(s.items, EmptyShape)
  }

  /** The parser never touches the single-path fields the older shape reads. */
  lemma {:induction false} ParseItemsKeepsLegacy(items: seq<RawItem>, acc: Shape)
    ensures var r := ParseItems(items, acc);
      r.Ok? ==> r.value.points == acc.points && r.value.closed == acc.closed && r.value.animSets == acc.animSets
    decreases |items|
  {
    if |items| > 0 && ParseItems(items, acc).Ok? {
      ParseItemsStep(items, acc);
      ParseItemsKeepsLegacy(items[1..], ApplyItem(acc, items[0], ItemPath(items[0].path).value).value);
    }
  }

  /** The position of the j-th "sh" item, counting from 0. */
  function NthPathIndex(items: seq<RawItem>, j: nat): (k: nat)
    requires j < PathCount(items)
    ensures k < |items| && items[k].ty == PathItem
    decreases |items|
  {
    if items[0].ty == PathItem && j == 0 then 0
    else if items[0].ty == PathItem then 1 + NthPathIndex(items[1..], j - 1)
    else 1 + NthPathIndex(items[1..], j)
  }

  /** The path an "sh" item contributes: its path with the closed flag filled in. */
  function PathEntry(it: RawItem): ShapePath
    requires it.ty == PathItem && WellFormedItem(it)
  {
    var path := ItemPath(it.path).value;
    path.(closed := PathClosed(it.path, path).value)
  }

  /** One turn of the item loop: the first item parses and the rest continue from its result. */
  lemma ParseItemsStep(items: seq<RawItem>, acc: Shape)
    requires |items| > 0 && ParseItems(items, acc).Ok?
    ensures WellFormedItem(items[0])
    ensures var next := ApplyItem(acc, items[0], ItemPath(items[0].path).value);
      next.Ok? && ParseItems(items, acc) == ParseItems(items[1..], next.value) &&
      next.value.paths == acc.paths + (if items[0].ty == PathItem then [PathEntry(items[0])] else [])
  {
    assert WellFormedItem(items[0]);
  }

  /**
   * Paths are stored in item order: the j-th new path is the j-th "sh" item's path
   * with its closed flag.
   */
  lemma {:induction false} PathsInItemOrder(items: seq<RawItem>, acc: Shape, j: nat)
    requires ParseItems(items, acc).Ok?
    requires j < PathCount(items)
    ensures WellFormedItem(items[NthPathIndex(items, j)])
    ensures ParseItems(items, acc).value.paths[|acc.paths| + j] == PathEntry(items[NthPathIndex(items, j)])
    decreases |items|
  {
    ParseItemsStep(items, acc);
    var next := ApplyItem(acc, items[0], ItemPath(items[0].path).value).value;
    if items[0].ty == PathItem && j == 0 {
      FirstPathIsHead(items, acc, next);
    } else {
      var j' := if items[0].ty == PathItem then j - 1 else j;
      NthPathShift(items, j, j');
      PathsInItemOrder(items[1..], next, j');
    }
  }

  lemma FirstPathIsHead(items: seq<RawItem>, acc: Shape, next: Shape)
    requires |items| > 0 && items[0].ty == PathItem && WellFormedItem(items[0])
    requires next.paths == acc.paths + [PathEntry(items[0])]
    requires ParseItems(items, acc) == ParseItems(items[1..], next) && ParseItems(items[1..], next).Ok?
    ensures ParseItems(items, acc).value.paths[|acc.paths|] == PathEntry(items[0])
  {
    var r := ParseItems(items[1..], next).value;
    assert r.paths[..|next.paths|] == next.paths;
    assert next.paths[|acc.paths|] == PathEntry(items[0]);
  }

  /** Past a leading item, the j-th "sh" item is the (j - 1)-th or j-th of the rest. */
  lemma NthPathShift(items: seq<RawItem>, j: nat, j': nat)
    requires j < PathCount(items) && !(items[0].ty == PathItem && j == 0)
    requires j' == if items[0].ty == PathItem then j - 1 else j
    ensures j' < PathCount(items[1..])
    ensures NthPathIndex(items, j) == 1 + NthPathIndex(items[1..], j')
    ensures items[NthPathIndex(items, j)] == items[1..][NthPathIndex(items[1..], j')]
  {
  }

  // ---------- layers ----------

  /**
   * One layer: the transform conversions of ParseShapes and its shapes. It fails
   * exactly when one of its shapes does.
   */
  function ParseLayer(l: RawLayer): (r: Result<Layer>)
    ensures r.Ok? <==> forall j :: 0 <= j < |l.shapes| ==> ParseShape(l.shapes[j]).Ok?
    ensures r.Ok? ==> r.value.ind == l.ind && r.value.parent == l.parent && r.value.inFrame == l.ip && r.value.outFrame == l.op
    ensures r.Ok? ==> |r.value.shapes| == |l.shapes| && forall j :: 0 <= j < |l.shapes| ==> r.value.shapes[j] == ParseShape(l.shapes[j]).value
    ensures r.Ok? ==> (r.value.anchorPoint == Anchor(l.ks.anchor) && r.value.position == Position(l.ks.position) &&
      r.value.positionSets == PositionSets(l.ks.position) && r.value.scale == Scale(l.ks.scale) && r.value.scaleSets == ScaleSets(l.ks.scale))
    ensures r.Ok? ==> r.value.opacity == ScalarValue(l.ks.opacity) && r.value.opacitySets == ScalarSets(l.ks.opacity, false)
    ensures r.Ok? ==> (r.value.rotationEuler == Vec3(Angle(l.ks.rx, true), Angle(l.ks.ry, false), Angle(l.ks.rz, true)) &&
      r.value.rotationXSets == ScalarSets(l.ks.rx, true) && r.value.rotationYSets == ScalarSets(l.ks.ry, false) &&
      r.value.rotationZSets == ScalarSets(l.ks.rz, true))
  {
    var shapes :- MapResult(l.shapes, ParseShape);
    var ks := l.ks;
    Ok(Layer(l.ind, l.parent, l.ip, l.op, Anchor(ks.anchor),
             Position(ks.position), PositionSets(ks.position),
             Scale(ks.scale), ScaleSets(ks.scale),
             ScalarValue(ks.opacity), ScalarSets(ks.opacity, false),
             Vec3(Angle(ks.rx, true), Angle(ks.ry, false), Angle(ks.rz, true)),
             ScalarSets(ks.rx, true), ScalarSets(ks.ry, false), ScalarSets(ks.rz, true),
             shapes))
  }

  function ParseDocument(d: RawDocument): (r: Result<Document>)
    ensures r.Ok? <==> forall j :: 0 <= j < |d.layers| ==> ParseLayer(d.layers[j]).Ok?
    ensures r.Ok? ==> r.value.fr == d.fr && r.value.op == d.op && r.value.w == d.w && r.value.h == d.h
    ensures r.Ok? ==> |r.value.layers| == |d.layers| && forall j :: 0 <= j < |d.layers| ==> r.value.layers[j] == ParseLayer(d.layers[j]).value
  {
    var layers :- MapResult(d.layers, ParseLayer);
    Ok(Document(d.fr, d.ip, d.op, d.w, d.h, layers))
  }

  /**
   * Every animated track's static value is its first keyframe's start: position,
   * scale and the three rotations. Opacity is the exception: keyed opacity reads 0.
   */
  lemma StaticIsFirstKeyStart(l: RawLayer)
    requires ParseLayer(l).Ok?
    ensures var y := ParseLayer(l).value;
      (|y.positionSets| > 0 ==> y.position == y.positionSets[0].s) &&
      (|y.scaleSets| > 0 ==> y.scale == y.scaleSets[0].s) &&
      (|y.rotationXSets| > 0 ==> y.rotationEuler.x == y.rotationXSets[0].sf) &&
      (|y.rotationYSets| > 0 ==> y.rotationEuler.y == y.rotationYSets[0].sf) &&
      (|y.rotationZSets| > 0 ==> y.rotationEuler.z == y.rotationZSets[0].sf) &&
      (l.ks.opacity.KeyedScalar? ==> y.opacity == 0.0)
  {
  }

  /** Flipping y back recovers the file's position keyframes, static position and anchor. */
  lemma PositionFlipInverts(p: RawVector, j: nat)
    ensures j < |PositionSets(p)| ==> FlipY(PositionSets(p)[j].s) == p.keys[j].s && FlipY(PositionSets(p)[j].e) == p.keys[j].e
    ensures p.StaticVector? ==> FlipY(Position(p)) == p.v && FlipY(Anchor(p)) == p.v
  {
    if j < |PositionSets(p)| {
      assert PositionSets(p)[j] == PositionKey(p.keys[j]);
    }
  }

  /** Negating X and Z back recovers the file's rotation keyframe values; Y is stored as is. */
  lemma RotationSignsInvert(l: RawLayer, j: nat)
    requires ParseLayer(l).Ok?
    ensures var y := ParseLayer(l).value;
      (j < |y.rotationXSets| ==> -y.rotationXSets[j].sf == l.ks.rx.keys[j].s && -y.rotationXSets[j].ef == l.ks.rx.keys[j].e) &&
      (j < |y.rotationYSets| ==> y.rotationYSets[j].sf == l.ks.ry.keys[j].s && y.rotationYSets[j].ef == l.ks.ry.keys[j].e) &&
      (j < |y.rotationZSets| ==> -y.rotationZSets[j].sf == l.ks.rz.keys[j].s && -y.rotationZSets[j].ef == l.ks.rz.keys[j].e)
  {
    var y := ParseLayer(l).value;
    assert y.rotationXSets == ScalarSets(l.ks.rx, true);
    assert y.rotationYSets == ScalarSets(l.ks.ry, false);
    assert y.rotationZSets == ScalarSets(l.ks.rz, true);
    ScalarSignInverts(l.ks.rx, true, j);
    ScalarSignInverts(l.ks.ry, false, j);
    ScalarSignInverts(l.ks.rz, true, j);
  }

  lemma ScalarSignInverts(p: RawScalar, negate: bool, j: nat)
    ensures var sets := ScalarSets(p, negate);
      j < |sets| ==>
        (p.KeyedScalar? && j < |p.keys| &&
         (if negate then -sets[j].sf else sets[j].sf) == p.keys[j].s &&
         (if negate then -sets[j].ef else sets[j].ef) == p.keys[j].e)
  {
  }
}
