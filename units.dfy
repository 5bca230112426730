/** Cell sizes, in degrees, of every mesh level. Latitude sizes derive from
    2/3 of a degree and longitude sizes from one degree, by the same divisors. */
module Units {
  import opened Levels

  // Every size is written as the exact fraction it derives to; the
  // derivation from the parent level is noted beside it and proved in
  // UnitsSubdivide.
  const UnitLatLv1: real := 2.0 / 3.0
  const UnitLonLv1: real := 1.0
  const UnitLat40000: real := 1.0 / 3.0             // UnitLatLv1 / 2
  const UnitLon40000: real := 1.0 / 2.0             // UnitLonLv1 / 2
  const UnitLat20000: real := 1.0 / 6.0             // UnitLat40000 / 2
  const UnitLon20000: real := 1.0 / 4.0             // UnitLon40000 / 2
  const UnitLat16000: real := 2.0 / 15.0            // UnitLatLv1 / 5
  const UnitLon16000: real := 1.0 / 5.0             // UnitLonLv1 / 5
  const UnitLatLv2: real := 1.0 / 12.0              // UnitLatLv1 / 8
  const UnitLonLv2: real := 1.0 / 8.0               // UnitLonLv1 / 8
  const UnitLat8000: real := 1.0 / 15.0             // UnitLatLv1 / 10
  const UnitLon8000: real := 1.0 / 10.0             // UnitLonLv1 / 10
  const UnitLat5000: real := 1.0 / 24.0             // UnitLatLv2 / 2
  const UnitLon5000: real := 1.0 / 16.0             // UnitLonLv2 / 2
  const UnitLat4000: real := 1.0 / 30.0             // UnitLat8000 / 2
  const UnitLon4000: real := 1.0 / 20.0             // UnitLon8000 / 2
  const UnitLat2500: real := 1.0 / 48.0             // UnitLat5000 / 2
  const UnitLon2500: real := 1.0 / 32.0             // UnitLon5000 / 2
  const UnitLat2000: real := 1.0 / 60.0             // UnitLatLv2 / 5
  const UnitLon2000: real := 1.0 / 40.0             // UnitLonLv2 / 5
  const UnitLatLv3: real := 1.0 / 120.0             // UnitLatLv2 / 10
  const UnitLonLv3: real := 1.0 / 80.0              // UnitLonLv2 / 10
  const UnitLatLv4: real := 1.0 / 240.0             // UnitLatLv3 / 2
  const UnitLonLv4: real := 1.0 / 160.0             // UnitLonLv3 / 2
  const UnitLatLv5: real := 1.0 / 480.0             // UnitLatLv4 / 2
  const UnitLonLv5: real := 1.0 / 320.0             // UnitLonLv4 / 2
  const UnitLatLv6: real := 1.0 / 960.0             // UnitLatLv5 / 2
  const UnitLonLv6: real := 1.0 / 640.0             // UnitLonLv5 / 2

  /** The (latitude, longitude) size of a cell at the given level. */
  function UnitLatLon(level: MeshLevel): (u: (real, real))
    ensures 0.0 < u.0 <= UnitLatLv1 && 0.0 < u.1 <= UnitLonLv1
  {
    match level
    case Lv1 => (UnitLatLv1, UnitLonLv1)
    case X40 => (UnitLat40000, UnitLon40000)
    case X20 => (UnitLat20000, UnitLon20000)
    case X16 => (UnitLat16000, UnitLon16000)
    case Lv2 => (UnitLatLv2, UnitLonLv2)
    case X8 => (UnitLat8000, UnitLon8000)
    case X5 => (UnitLat5000, UnitLon5000)
    case X4 => (UnitLat4000, UnitLon4000)
    case X2_5 => (UnitLat2500, UnitLon2500)
    case X2 => (UnitLat2000, UnitLon2000)
    case Lv3 => (UnitLatLv3, UnitLonLv3)
    case Lv4 => (UnitLatLv4, UnitLonLv4)
    case Lv5 => (UnitLatLv5, UnitLonLv5)
    case Lv6 => (UnitLatLv6, UnitLonLv6)
  }

  function UnitLat(level: MeshLevel): (u: real)
    ensures u > 0.0
  {
    UnitLatLon(level).0
  }

  function UnitLon(level: MeshLevel): (u: real)
    ensures u > 0.0
  {
    UnitLatLon(level).1
  }

  /** Each level's cell is its parent's cell divided by a fixed integer,
      in both axes. */
  lemma UnitsSubdivide()
    ensures UnitLatLon(Lv1) == (2.0 / 3.0, 1.0)
    ensures UnitLatLon(X40) == (UnitLat(Lv1) / 2.0, UnitLon(Lv1) / 2.0)
    ensures UnitLatLon(X20) == (UnitLat(X40) / 2.0, UnitLon(X40) / 2.0)
    ensures UnitLatLon(X16) == (UnitLat(Lv1) / 5.0, UnitLon(Lv1) / 5.0)
    ensures UnitLatLon(Lv2) == (UnitLat(Lv1) / 8.0, UnitLon(Lv1) / 8.0)
    ensures UnitLatLon(X8) == (UnitLat(Lv1) / 10.0, UnitLon(Lv1) / 10.0)
    ensures UnitLatLon(X5) == (UnitLat(Lv2) / 2.0, UnitLon(Lv2) / 2.0)
    ensures UnitLatLon(X4) == (UnitLat(X8) / 2.0, UnitLon(X8) / 2.0)
    ensures UnitLatLon(X2_5) == (UnitLat(X5) / 2.0, UnitLon(X5) / 2.0)
    ensures UnitLatLon(X2) == (UnitLat(Lv2) / 5.0, UnitLon(Lv2) / 5.0)
    ensures UnitLatLon(Lv3) == (UnitLat(Lv2) / 10.0, UnitLon(Lv2) / 10.0)
    ensures UnitLatLon(Lv4) == (UnitLat(Lv3) / 2.0, UnitLon(Lv3) / 2.0)
    ensures UnitLatLon(Lv5) == (UnitLat(Lv4) / 2.0, UnitLon(Lv4) / 2.0)
    ensures UnitLatLon(Lv6) == (UnitLat(Lv5) / 2.0, UnitLon(Lv5) / 2.0)
  {
  }

  /** Longitude cells are always one and a half times as wide (in degrees)
      as latitude cells are tall. */
  lemma LonIsThreeHalvesLat(level: MeshLevel)
    ensures UnitLon(level) == 3.0 / 2.0 * UnitLat(level)
  {
  }

  /** Along the basic chain Lv1 > Lv2 > ... > Lv6 cells shrink strictly in both axes. */
  lemma BasicChainShrinks()
    ensures UnitLat(Lv1) > UnitLat(Lv2) > UnitLat(Lv3) > UnitLat(Lv4) > UnitLat(Lv5) > UnitLat(Lv6) > 0.0
    ensures UnitLon(Lv1) > UnitLon(Lv2) > UnitLon(Lv3) > UnitLon(Lv4) > UnitLon(Lv5) > UnitLon(Lv6) > 0.0
  {
  }
}
