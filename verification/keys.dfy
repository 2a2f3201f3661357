/**
 * What a track reads from a document keyframe. Vector tracks (position, scale,
 * colours) take the keyframe's start and end vectors; scalar tracks (rotations,
 * opacity) take the scalar start and end in x, with y and z zero.
 */
module TrackKeys {
  import opened Wrappers
  import opened Vectors
  import opened Content
  import Track

  function KeyOf(k: Keyframe, vector: bool): (r: Track.Key)
    ensures r.t == k.t && r.i == k.i && r.o == k.o
    ensures vector ==> r.s == k.s && r.e == k.e
    ensures !vector ==> r.s == Vec3(k.sf, 0.0, 0.0) && r.e == Vec3(k.ef, 0.0, 0.0)
  {
    if vector then Track.Key(k.t, k.i, k.o, k.s, k.e)
    else Track.Key(k.t, k.i, k.o, Vec3(k.sf, 0.0, 0.0), Vec3(k.ef, 0.0, 0.0))
  }

  function KeysOf(sets: seq<Keyframe>, vector: bool): (r: seq<Track.Key>)
    ensures |r| == |sets| && forall j :: 0 <= j < |sets| ==> r[j] == KeyOf(sets[j], vector)
  {
    seq(|sets|, j requires 0 <= j < |sets| => KeyOf(sets[j], vector))
  }

  /** A possibly null set of keyframes. */
  function OptKeysOf(sets: Option<seq<Keyframe>>, vector: bool): (r: Option<seq<Track.Key>>)
    ensures sets.None? <==> r.None?
    ensures sets.Some? ==> r == Some(KeysOf(sets.value, vector))
  {
    match sets
    case None => None
    case Some(s) => Some(KeysOf(s, vector))
  }

  // ---------- the six layer tracks ----------

  /** The six tracks, in the order Update runs them. */
  datatype Kind = Opacity | Position | Scale | RotationX | RotationY | RotationZ

  const UpdateOrder: seq<Kind> := [Opacity, Position, Scale, RotationX, RotationY, RotationZ]
  const ResetOrder: seq<Kind> := [Position, Scale, RotationX, RotationY, RotationZ, Opacity]

  /** Position and scale tracks carry vectors; the others a scalar in x. */
  predicate IsVector(k: Kind) {
    k == Position || k == Scale
  }

  function SetsOf(c: Layer, k: Kind): seq<Keyframe> {
    match k
    case Opacity => c.opacitySets
    case Position => c.positionSets
    case Scale => c.scaleSets
    case RotationX => c.rotationXSets
    case RotationY => c.rotationYSets
    case RotationZ => c.rotationZSets
  }

  /** What the track of kind k reads from the document. */
  function LayerKeys(c: Layer, k: Kind): (r: seq<Track.Key>)
    ensures |r| == |SetsOf(c, k)|
    ensures forall j :: 0 <= j < |r| ==> r[j].t == SetsOf(c, k)[j].t
    ensures IsVector(k) ==> forall j :: 0 <= j < |r| ==> r[j].s == SetsOf(c, k)[j].s && r[j].e == SetsOf(c, k)[j].e
    ensures !IsVector(k) ==> forall j :: 0 <= j < |r| ==>
      r[j].s == Vec3(SetsOf(c, k)[j].sf, 0.0, 0.0) && r[j].e == Vec3(SetsOf(c, k)[j].ef, 0.0, 0.0)
  {
    KeysOf(SetsOf(c, k), IsVector(k))
  }

  lemma EveryKindResets()
    ensures forall k: Kind :: k in ResetOrder
  {
    forall k: Kind ensures k in ResetOrder {
      match k
      case Position => assert ResetOrder[0] == k;
      case Scale => assert ResetOrder[1] == k;
      case RotationX => assert ResetOrder[2] == k;
      case RotationY => assert ResetOrder[3] == k;
      case RotationZ => assert ResetOrder[4] == k;
      case Opacity => assert ResetOrder[5] == k;
    }
  }
}
