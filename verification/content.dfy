/**
 * The parsed document records (BodymovinContent.cs): layers, shapes, paths and
 * keyframes after the parser's unit and sign conversions.
 */
module Content {
  import opened Wrappers
  import opened Vectors

  /**
   * One keyframe of a property track (BodymovinAnimatedProperties). Vector tracks
   * use `s`/`e`, scalar tracks use `sf`/`ef`; the fields a track does not use are zero.
   */
  datatype Keyframe = Keyframe(t: real, i: Vec2, o: Vec2, s: Vec3, e: Vec3, sf: real, ef: real)

  /** One keyframe of an animated path: its start and end vertex sets. */
  datatype ShapeKeyframe = ShapeKeyframe(t: real, i: Vec2, o: Vec2, startClosed: bool,
                                         startPoints: seq<BodyPoint>, endPoints: seq<BodyPoint>)

  /**
   * A path (BodymovinShapePath): static points, or keyframes whose first start set
   * also becomes `points`. `None` stands for a null array.
   */
  datatype ShapePath = ShapePath(closed: bool, points: Option<seq<BodyPoint>>, animSets: Option<seq<ShapeKeyframe>>)

  /** An RGBA colour as four floats. */
  datatype Colour = Colour(r: real, g: real, b: real, a: real)

  const White: Colour := Colour(1.0, 1.0, 1.0, 1.0)

  /**
   * A shape group (BodymovinShape). `points`, `closed` and `animSets` are the
   * single-path fields the older BodyShape reads; the parser never fills them.
   */
  datatype Shape = Shape(
    strokeColor: Option<Colour>, strokeColorSets: Option<seq<Keyframe>>,
    fillColor: Option<Colour>, fillColorSets: Option<seq<Keyframe>>,
    strokeHidden: bool, strokeWidth: real, fillHidden: bool,
    paths: seq<ShapePath>,
    points: Option<seq<BodyPoint>>, closed: bool, animSets: Option<seq<ShapeKeyframe>>)

  /** A layer (BodymovinLayer); `parent` 0 means no parent. */
  datatype Layer = Layer(
    ind: int, parent: int, inFrame: real, outFrame: real,
    anchorPoint: Vec3,
    position: Vec3, positionSets: seq<Keyframe>,
    scale: Vec3, scaleSets: seq<Keyframe>,
    opacity: real, opacitySets: seq<Keyframe>,
    rotationEuler: Vec3,
    rotationXSets: seq<Keyframe>, rotationYSets: seq<Keyframe>, rotationZSets: seq<Keyframe>,
    shapes: seq<Shape>)

  /** The document (BodymovinContent): frame rate, in/out frame, canvas size, layers. */
  datatype Document = Document(fr: real, ip: real, op: real, w: int, h: int, layers: seq<Layer>)

  const EmptyShape: Shape := Shape(None, None, None, None, false, 0.0, false, [], None, false, None)

  function Rgb(c: Colour): Vec3 {
    Vec3(c.r, c.g, c.b)
  }

  /** A colour field's RGB, white when the field is null. */
  function RgbOrWhite(c: Option<Colour>): (r: Vec3)
    ensures c.None? ==> r == One3
    ensures c.Some? ==> r == Vec3(c.value.r, c.value.g, c.value.b)
  {
    if c.None? then One3 else Rgb(c.value)
  }

  /** The stroke or fill object: absent when hidden or when the document gives no colour. */
  function PaintObject(hidden: bool, c: Option<Colour>): (r: Option<Vec3>)
    ensures r.Some? <==> !hidden && c.Some?
    ensures r.Some? ==> r.value == Vec3(c.value.r, c.value.g, c.value.b)
  {
    if hidden || c.None? then None else Some(Rgb(c.value))
  }
}
