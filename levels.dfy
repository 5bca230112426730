/** The fourteen mesh levels of the regional mesh code grid (JIS X 0410),
    their numeric discriminants, the order derived from them, and their names. */
module Levels {

  datatype MeshLevel =
    | Lv1   // 80km cells, 4 digits
    | X40   // 40km
    | X20   // 20km
    | X16   // 16km
    | Lv2   // 10km, 6 digits
    | X8    // 8km
    | X5    // 5km
    | X4    // 4km
    | X2_5  // 2.5km
    | X2    // 2km
    | Lv3   // 1km, 8 digits
    | Lv4   // 500m
    | Lv5   // 250m
    | Lv6   // 125m

  /** The explicit discriminant each variant is declared with. */
  function Discriminant(level: MeshLevel): (d: nat)
    ensures d > 0
  {
    match level
    case Lv1 => 1
    case X40 => 40000
    case X20 => 20000
    case X16 => 16000
    case Lv2 => 2
    case X8 => 8000
    case X5 => 5000
    case X4 => 4000
    case X2_5 => 2500
    case X2 => 2000
    case Lv3 => 3
    case Lv4 => 4
    case Lv5 => 5
    case Lv6 => 6
  }

  /** The derived ordering compares discriminants, not cell sizes. */
  predicate Less(a: MeshLevel, b: MeshLevel) {
    Discriminant(a) < Discriminant(b)
  }

  predicate LessOrEqual(a: MeshLevel, b: MeshLevel) {
    Discriminant(a) <= Discriminant(b)
  }

  lemma DiscriminantInjective(a: MeshLevel, b: MeshLevel)
    ensures Discriminant(a) == Discriminant(b) <==> a == b
  {
  }

  /** The ordering is a strict total order on the levels. */
  lemma LessIsStrictTotalOrder(a: MeshLevel, b: MeshLevel, c: MeshLevel)
    ensures !Less(a, a)
    ensures Less(a, b) && Less(b, c) ==> Less(a, c)
    ensures a == b || Less(a, b) || Less(b, a)
    ensures Less(a, b) ==> !Less(b, a)
  {
    DiscriminantInjective(a, b);
  }

  /** The basic levels sort as Lv1 < Lv2 < ... < Lv6, and every multiplier
      level sorts above Lv6, even those that are coarser than Lv2. */
  lemma OrderOfLevels(m: MeshLevel)
    ensures Less(Lv1, Lv2) && Less(Lv2, Lv3) && Less(Lv3, Lv4) && Less(Lv4, Lv5) && Less(Lv5, Lv6)
    ensures IsMultiplier(m) <==> Less(Lv6, m)
    ensures Less(Lv2, X40)
  {
  }

  predicate IsMultiplier(level: MeshLevel) {
    level in {X40, X20, X16, X8, X5, X4, X2_5, X2}
  }

  /** Every level in declaration order. */
  const AllLevels: seq<MeshLevel> :=
    [Lv1, X40, X20, X16, Lv2, X8, X5, X4, X2_5, X2, Lv3, Lv4, Lv5, Lv6]

  lemma AllLevelsEnumeration(level: MeshLevel)
    ensures |AllLevels| == 14 && AllLevels[0] == Lv1 && AllLevels[13] == Lv6
    ensures level in AllLevels
    ensures forall i, j :: 0 <= i < j < |AllLevels| ==> AllLevels[i] != AllLevels[j]
  {
  }

  /** The name that Display prints: the variant's identifier. */
  function Name(level: MeshLevel): (s: string)
    ensures |s| >= 2
  {
    match level
    case Lv1 => "Lv1"
    case X40 => "X40"
    case X20 => "X20"
    case X16 => "X16"
    case Lv2 => "Lv2"
    case X8 => "X8"
    case X5 => "X5"
    case X4 => "X4"
    case X2_5 => "X2_5"
    case X2 => "X2"
    case Lv3 => "Lv3"
    case Lv4 => "Lv4"
    case Lv5 => "Lv5"
    case Lv6 => "Lv6"
  }

  lemma NameInjective(a: MeshLevel, b: MeshLevel)
    ensures Name(a) == Name(b) <==> a == b
  {
    if Name(a) == Name(b) {
      assert Name(a)[|Name(a)| - 1] == Name(b)[|Name(b)| - 1];
    }
  }
}
