/** The encoder: from a latitude/longitude pair to the mesh code of the cell
    containing it, at each of the fourteen levels, and its batch form with
    bounds checking and broadcasting. */
module MeshCodes {
  import opened Levels
  import opened Errors
  import opened Units
  import opened RealOps
  import opened Digits

  /** The accepted coordinate ranges, both half-open. */
  predicate ValidLat(lat: real) { 0.0 <= lat < 66.66 }
  predicate ValidLon(lon: real) { 100.0 <= lon < 180.0 }

  // The remainders of latitude and longitude within the enclosing cell of
  // each level, taken in the order the encoder takes them.
  function RemLatLv1(lat: real): real { FRem(lat, UnitLatLv1) }
  function RemLonLv1(lon: real): real { FRem(FRem(lon, 100.0), UnitLonLv1) }
  function RemLat40000(lat: real): real { FRem(RemLatLv1(lat), UnitLat40000) }
  function RemLon40000(lon: real): real { FRem(RemLonLv1(lon), UnitLon40000) }
  function RemLat8000(lat: real): real { FRem(RemLatLv1(lat), UnitLat8000) }
  function RemLon8000(lon: real): real { FRem(RemLonLv1(lon), UnitLon8000) }
  function RemLatLv2(lat: real): real { FRem(RemLatLv1(lat), UnitLatLv2) }
  function RemLonLv2(lon: real): real { FRem(RemLonLv1(lon), UnitLonLv2) }
  function RemLat5000(lat: real): real { FRem(RemLatLv2(lat), UnitLat5000) }
  function RemLon5000(lon: real): real { FRem(RemLonLv2(lon), UnitLon5000) }
  function RemLatLv3(lat: real): real { FRem(RemLatLv2(lat), UnitLatLv3) }
  function RemLonLv3(lon: real): real { FRem(RemLonLv2(lon), UnitLonLv3) }
  function RemLatLv4(lat: real): real { FRem(RemLatLv3(lat), UnitLatLv4) }
  function RemLonLv4(lon: real): real { FRem(RemLonLv3(lon), UnitLonLv4) }
  function RemLatLv5(lat: real): real { FRem(RemLatLv4(lat), UnitLatLv5) }
  function RemLonLv5(lon: real): real { FRem(RemLonLv4(lon), UnitLonLv5) }

  /** A quadrant digit: 1 south-west, 2 south-east, 3 north-west, 4 north-east
      of the enclosing cell whose halves are given. */
  function Quadrant(remLat: real, halfLat: real, remLon: real, halfLon: real): (q: nat)
    requires halfLat > 0.0 && halfLon > 0.0
    ensures remLat < 2.0 * halfLat && remLon < 2.0 * halfLon ==> 1 <= q <= 4
  {
    CountBelow(remLat, halfLat, 2);
    CountBelow(remLon, halfLon, 2);
    DivAsU64(remLat, halfLat) * 2 + DivAsU64(remLon, halfLon) + 1
  }

  /** Four digits: the latitude band `ab` (in 2/3 degree steps) and the
      longitude band `cd` (in one degree steps above 100 degrees East). */
  function MeshcodeLv1(lat: real, lon: real): (code: nat)
    ensures ValidLat(lat) && ValidLon(lon) ==> code / 100 <= 99 && code % 100 <= 79
  {
    var ab := DivAsU64(lat, UnitLatLv1);
    var cd := DivAsU64(FRem(lon, 100.0), UnitLonLv1);
    ab * 100 + cd
  }

  function Meshcode40000(lat: real, lon: real): (code: nat)
    ensures code / 10 == MeshcodeLv1(lat, lon)
    ensures 1 <= code % 10 <= 4
  {
    var e := Quadrant(RemLatLv1(lat), UnitLat40000, RemLonLv1(lon), UnitLon40000);
    AppendDigit(MeshcodeLv1(lat, lon), e);
    MeshcodeLv1(lat, lon) * 10 + e
  }

  function Meshcode20000(lat: real, lon: real): (code: nat)
    ensures code / 100 == Meshcode40000(lat, lon)
    ensures 1 <= code / 10 % 10 <= 4 && code % 10 == 5
  {
    var f := Quadrant(RemLat40000(lat), UnitLat20000, RemLon40000(lon), UnitLon20000);
    AppendTwoDigits(Meshcode40000(lat, lon), f, 5);
    Meshcode40000(lat, lon) * 100 + f * 10 + 5
  }

  function Meshcode16000(lat: real, lon: real): (code: nat)
    ensures code / 1000 == MeshcodeLv1(lat, lon)
    ensures code / 100 % 10 in {0, 2, 4, 6, 8} && code / 10 % 10 in {0, 2, 4, 6, 8}
    ensures code % 10 == 7
  {
    var e := DivAsU64(RemLatLv1(lat), UnitLat16000) * 2;
    var f := DivAsU64(RemLonLv1(lon), UnitLon16000) * 2;
    CountBelow(RemLatLv1(lat), UnitLat16000, 5);
    CountBelow(RemLonLv1(lon), UnitLon16000, 5);
    AppendThreeDigits(MeshcodeLv1(lat, lon), e, f, 7);
    MeshcodeLv1(lat, lon) * 1000 + e * 100 + f * 10 + 7
  }

  function MeshcodeLv2(lat: real, lon: real): (code: nat)
    ensures code / 100 == MeshcodeLv1(lat, lon)
    ensures code / 10 % 10 <= 7 && code % 10 <= 7
  {
    var e := DivAsU64(RemLatLv1(lat), UnitLatLv2);
    var f := DivAsU64(RemLonLv1(lon), UnitLonLv2);
    CountBelow(RemLatLv1(lat), UnitLatLv2, 8);
    CountBelow(RemLonLv1(lon), UnitLonLv2, 8);
    AppendTwoDigits(MeshcodeLv1(lat, lon), e, f);
    MeshcodeLv1(lat, lon) * 100 + e * 10 + f
  }

  function Meshcode8000(lat: real, lon: real): (code: nat)
    ensures code / 1000 == MeshcodeLv1(lat, lon)
    ensures code / 100 % 10 == DivAsU64(RemLatLv1(lat), UnitLat8000)
    ensures code / 10 % 10 == DivAsU64(RemLonLv1(lon), UnitLon8000)
    ensures code % 10 == 6
  {
    var e := DivAsU64(RemLatLv1(lat), UnitLat8000);
    var f := DivAsU64(RemLonLv1(lon), UnitLon8000);
    CountBelow(RemLatLv1(lat), UnitLat8000, 10);
    CountBelow(RemLonLv1(lon), UnitLon8000, 10);
    AppendThreeDigits(MeshcodeLv1(lat, lon), e, f, 6);
    MeshcodeLv1(lat, lon) * 1000 + e * 100 + f * 10 + 6
  }

  function Meshcode5000(lat: real, lon: real): (code: nat)
    ensures code / 10 == MeshcodeLv2(lat, lon)
    ensures 1 <= code % 10 <= 4
  {
    var g := Quadrant(RemLatLv2(lat), UnitLat5000, RemLonLv2(lon), UnitLon5000);
    AppendDigit(MeshcodeLv2(lat, lon), g);
    MeshcodeLv2(lat, lon) * 10 + g
  }

  function Meshcode4000(lat: real, lon: real): (code: nat)
    ensures code / 100 == Meshcode8000(lat, lon)
    ensures 1 <= code / 10 % 10 <= 4 && code % 10 == 7
  {
    var h := Quadrant(RemLat8000(lat), UnitLat4000, RemLon8000(lon), UnitLon4000);
    AppendTwoDigits(Meshcode8000(lat, lon), h, 7);
    Meshcode8000(lat, lon) * 100 + h * 10 + 7
  }

  function Meshcode2500(lat: real, lon: real): (code: nat)
    ensures code / 100 == Meshcode5000(lat, lon)
    ensures 1 <= code / 10 % 10 <= 4 && code % 10 == 6
  {
    var h := Quadrant(RemLat5000(lat), UnitLat2500, RemLon5000(lon), UnitLon2500);
    AppendTwoDigits(Meshcode5000(lat, lon), h, 6);
    Meshcode5000(lat, lon) * 100 + h * 10 + 6
  }

  function Meshcode2000(lat: real, lon: real): (code: nat)
    ensures code / 1000 == MeshcodeLv2(lat, lon)
    ensures code / 100 % 10 in {0, 2, 4, 6, 8} && code / 10 % 10 in {0, 2, 4, 6, 8}
    ensures code % 10 == 5
  {
    var g := DivAsU64(RemLatLv2(lat), UnitLat2000) * 2;
    var h := DivAsU64(RemLonLv2(lon), UnitLon2000) * 2;
    CountBelow(RemLatLv2(lat), UnitLat2000, 5);
    CountBelow(RemLonLv2(lon), UnitLon2000, 5);
    AppendThreeDigits(MeshcodeLv2(lat, lon), g, h, 5);
    MeshcodeLv2(lat, lon) * 1000 + g * 100 + h * 10 + 5
  }

  function MeshcodeLv3(lat: real, lon: real): (code: nat)
    ensures code / 100 == MeshcodeLv2(lat, lon)
    ensures code / 10 % 10 == DivAsU64(RemLatLv2(lat), UnitLatLv3)
    ensures code % 10 == DivAsU64(RemLonLv2(lon), UnitLonLv3)
  {
    var g := DivAsU64(RemLatLv2(lat), UnitLatLv3);
    var h := DivAsU64(RemLonLv2(lon), UnitLonLv3);
    CountBelow(RemLatLv2(lat), UnitLatLv3, 10);
    CountBelow(RemLonLv2(lon), UnitLonLv3, 10);
    AppendTwoDigits(MeshcodeLv2(lat, lon), g, h);
    MeshcodeLv2(lat, lon) * 100 + g * 10 + h
  }

  function MeshcodeLv4(lat: real, lon: real): (code: nat)
    ensures code / 10 == MeshcodeLv3(lat, lon)
    ensures 1 <= code % 10 <= 4
  {
    var i := Quadrant(RemLatLv3(lat), UnitLatLv4, RemLonLv3(lon), UnitLonLv4);
    AppendDigit(MeshcodeLv3(lat, lon), i);
    MeshcodeLv3(lat, lon) * 10 + i
  }

  function MeshcodeLv5(lat: real, lon: real): (code: nat)
    ensures code / 10 == MeshcodeLv4(lat, lon)
    ensures 1 <= code % 10 <= 4
  {
    var j := Quadrant(RemLatLv4(lat), UnitLatLv5, RemLonLv4(lon), UnitLonLv5);
    AppendDigit(MeshcodeLv4(lat, lon), j);
    MeshcodeLv4(lat, lon) * 10 + j
  }

  function MeshcodeLv6(lat: real, lon: real): (code: nat)
    ensures code / 10 == MeshcodeLv5(lat, lon)
    ensures 1 <= code % 10 <= 4
  {
    var k := Quadrant(RemLatLv5(lat), UnitLatLv6, RemLonLv5(lon), UnitLonLv6);
    AppendDigit(MeshcodeLv5(lat, lon), k);
    MeshcodeLv5(lat, lon) * 10 + k
  }

  /** The per-level encoder selected by `level`. */
  function Meshcode(lat: real, lon: real, level: MeshLevel): nat {
    match level
    case Lv1 => MeshcodeLv1(lat, lon)
    case X40 => Meshcode40000(lat, lon)
    case X20 => Meshcode20000(lat, lon)
    case X16 => Meshcode16000(lat, lon)
    case Lv2 => MeshcodeLv2(lat, lon)
    case X8 => Meshcode8000(lat, lon)
    case X5 => Meshcode5000(lat, lon)
    case X4 => Meshcode4000(lat, lon)
    case X2_5 => Meshcode2500(lat, lon)
    case X2 => Meshcode2000(lat, lon)
    case Lv3 => MeshcodeLv3(lat, lon)
    case Lv4 => MeshcodeLv4(lat, lon)
    case Lv5 => MeshcodeLv5(lat, lon)
    case Lv6 => MeshcodeLv6(lat, lon)
  }

  /** The index of the first latitude outside the accepted range, or the
      length of the sequence when there is none. */
  function FirstInvalidLat(lats: seq<real>): (k: nat)
    ensures k <= |lats|
    ensures forall j :: 0 <= j < k ==> ValidLat(lats[j])
    ensures k < |lats| ==> !ValidLat(lats[k])
  {
    if |lats| == 0 then 0
    else if !ValidLat(lats[0]) then 0
    else 1 + FirstInvalidLat(lats[1..])
  }

  function FirstInvalidLon(lons: seq<real>): (k: nat)
    ensures k <= |lons|
    ensures forall j :: 0 <= j < k ==> ValidLon(lons[j])
    ensures k < |lons| ==> !ValidLon(lons[k])
  {
    if |lons| == 0 then 0
    else if !ValidLon(lons[0]) then 0
    else 1 + FirstInvalidLon(lons[1..])
  }

  /** Broadcasting takes element `i % len` of each input, which has no
      meaning when exactly one input is empty and both pass the checks. */
  predicate EncodeDefined(lats: seq<real>, lons: seq<real>) {
    || FirstInvalidLat(lats) < |lats|
    || FirstInvalidLon(lons) < |lons|
    || (|lats| == 0) == (|lons| == 0)
  }

  /** The result of the batch encoder: the first out-of-range latitude, else
      the first out-of-range longitude, else one code per broadcast pair. */
  function EncodeBatch(lats: seq<real>, lons: seq<real>, level: MeshLevel): (r: Result<seq<nat>>)
    requires EncodeDefined(lats, lons)
    ensures r.Err? <==> ((exists j :: 0 <= j < |lats| && !ValidLat(lats[j]))
                         || (exists j :: 0 <= j < |lons| && !ValidLon(lons[j])))
    ensures r.Err? && r.error.LatitudeOutOfBounds? ==>
      exists j :: 0 <= j < |lats| && !ValidLat(lats[j]) && r.error.lat == lats[j] &&
        forall i :: 0 <= i < j ==> ValidLat(lats[i])
    ensures r.Err? && !r.error.LatitudeOutOfBounds? ==>
      (forall j :: 0 <= j < |lats| ==> ValidLat(lats[j])) &&
      exists j :: 0 <= j < |lons| && !ValidLon(lons[j]) && r.error == LongitudeOutOfBounds(lons[j]) &&
        forall i :: 0 <= i < j ==> ValidLon(lons[i])
    ensures r.Ok? ==> |r.value| == if |lats| < |lons| then |lons| else |lats|
    ensures r.Ok? ==> forall i :: 0 <= i < |r.value| ==>
      r.value[i] == Meshcode(lats[i % |lats|], lons[i % |lons|], level)
  {
    var bl := FirstInvalidLat(lats);
    var bn := FirstInvalidLon(lons);
    if bl < |lats| then Err(LatitudeOutOfBounds(lats[bl]))
    else if bn < |lons| then Err(LongitudeOutOfBounds(lons[bn]))
    else Ok(Broadcast(lats, lons, level))
  }

  /** One code per broadcast pair: element i encodes `lats[i % |lats|]`
      with `lons[i % |lons|]`, over the longer of the two inputs. */
  function Broadcast(lats: seq<real>, lons: seq<real>, level: MeshLevel): (codes: seq<nat>)
    requires (|lats| == 0) == (|lons| == 0)
    ensures |codes| == if |lats| < |lons| then |lons| else |lats|
    ensures forall i :: 0 <= i < |codes| ==> codes[i] == Meshcode(lats[i % |lats|], lons[i % |lons|], level)
  {
    var n := if |lats| < |lons| then |lons| else |lats|;
    seq(n, i requires 0 <= i < n => Meshcode(lats[i % |lats|], lons[i % |lons|], level))
  }

  /** The batch encoder: both inputs are checked in full, latitudes first,
      before any code is computed into the result buffer. */
  method ToMeshcode(lats: seq<real>, lons: seq<real>, level: MeshLevel) returns (r: Result<seq<nat>>)
    requires EncodeDefined(lats, lons)
    ensures r == EncodeBatch(lats, lons, level)
  {
    for t := 0 to |lats|
      invariant forall j :: 0 <= j < t ==> ValidLat(lats[j])
    {
      if !(0.0 <= lats[t] && lats[t] < 66.66) {
        assert FirstInvalidLat(lats) == t by { FirstInvalidLatIs(lats, t); }
        return Err(LatitudeOutOfBounds(lats[t]));
      }
    }
    FirstInvalidLatIs(lats, |lats|);
    for t := 0 to |lons|
      invariant forall j :: 0 <= j < t ==> ValidLon(lons[j])
    {
      if !(100.0 <= lons[t] && lons[t] < 180.0) {
        assert FirstInvalidLon(lons) == t by { FirstInvalidLonIs(lons, t); }
        return Err(LongitudeOutOfBounds(lons[t]));
      }
    }
    FirstInvalidLonIs(lons, |lons|);
    var codes := FillCodes(lats, lons, level);
    r := Ok(codes);
  }

  /** The result buffer of the batch encoder, filled index by index. */
  method FillCodes(lats: seq<real>, lons: seq<real>, level: MeshLevel) returns (codes: seq<nat>)
    requires (|lats| == 0) == (|lons| == 0)
    ensures codes == Broadcast(lats, lons, level)
  {
    ghost var expected := Broadcast(lats, lons, level);
    var n := if |lats| < |lons| then |lons| else |lats|;
    var result := new nat[n];
    for i := 0 to n
      invariant forall k :: 0 <= k < i ==> result[k] == expected[k]
    {
      var lat, lon := lats[i % |lats|], lons[i % |lons|];
      assert expected[i] == Meshcode(lat, lon, level);
      result[i] := Meshcode(lat, lon, level);
    }
    codes := result[..];
    assert |codes| == |expected|;
  }

  /** The first invalid index is the one before which every entry is valid. */
  lemma FirstInvalidLatIs(lats: seq<real>, t: nat)
    requires t <= |lats| && forall j :: 0 <= j < t ==> ValidLat(lats[j])
    requires t < |lats| ==> !ValidLat(lats[t])
    ensures FirstInvalidLat(lats) == t
  {
  }

  lemma FirstInvalidLonIs(lons: seq<real>, t: nat)
    requires t <= |lons| && forall j :: 0 <= j < t ==> ValidLon(lons[j])
    requires t < |lons| ==> !ValidLon(lons[t])
    ensures FirstInvalidLon(lons) == t
  {
  }

  /** The remainders the encoder computes for the Tokyo test point. */
  lemma TokyoRemainders(lat: real, lon: real)
    requires lat == 35.658581 && lon == 139.745433
    ensures RemLatLv1(lat) == 975743.0 / 3000000.0 && RemLonLv1(lon) == 745433.0 / 1000000.0
    ensures RemLat40000(lat) == 975743.0 / 3000000.0 && RemLon40000(lon) == 245433.0 / 1000000.0
    ensures RemLat8000(lat) == 58581.0 / 1000000.0 && RemLon8000(lon) == 45433.0 / 1000000.0
    ensures RemLatLv2(lat) == 225743.0 / 3000000.0 && RemLonLv2(lon) == 120433.0 / 1000000.0
    ensures RemLat5000(lat) == 33581.0 / 1000000.0 && RemLon5000(lon) == 57933.0 / 1000000.0
    ensures RemLatLv3(lat) == 743.0 / 3000000.0 && RemLonLv3(lon) == 7933.0 / 1000000.0
    ensures RemLatLv4(lat) == 743.0 / 3000000.0 && RemLonLv4(lon) == 1683.0 / 1000000.0
    ensures RemLatLv5(lat) == 743.0 / 3000000.0 && RemLonLv5(lon) == 1683.0 / 1000000.0
  {
    assert FRem(lon, 100.0) == lon - 100.0;
    assert RemLatLv1(lat) == lat - 53.0 * UnitLatLv1;
    assert RemLonLv1(lon) == (lon - 100.0) - 39.0 * UnitLonLv1;
    assert RemLat40000(lat) == RemLatLv1(lat) - 0.0 * UnitLat40000;
    assert RemLon40000(lon) == RemLonLv1(lon) - 1.0 * UnitLon40000;
    assert RemLat8000(lat) == RemLatLv1(lat) - 4.0 * UnitLat8000;
    assert RemLon8000(lon) == RemLonLv1(lon) - 7.0 * UnitLon8000;
    assert RemLatLv2(lat) == RemLatLv1(lat) - 3.0 * UnitLatLv2;
    assert RemLonLv2(lon) == RemLonLv1(lon) - 5.0 * UnitLonLv2;
    assert RemLat5000(lat) == RemLatLv2(lat) - 1.0 * UnitLat5000;
    assert RemLon5000(lon) == RemLonLv2(lon) - 1.0 * UnitLon5000;
    assert RemLatLv3(lat) == RemLatLv2(lat) - 9.0 * UnitLatLv3;
    assert RemLonLv3(lon) == RemLonLv2(lon) - 9.0 * UnitLonLv3;
    assert RemLatLv4(lat) == RemLatLv3(lat) - 0.0 * UnitLatLv4;
    assert RemLonLv4(lon) == RemLonLv3(lon) - 1.0 * UnitLonLv4;
    assert RemLatLv5(lat) == RemLatLv4(lat) - 0.0 * UnitLatLv5;
    assert RemLonLv5(lon) == RemLonLv4(lon) - 0.0 * UnitLonLv5;
  }

  /** The encoder's codes for the Tokyo test point, one per level. */
  lemma TokyoMeshcodes()
    ensures Meshcode(35.658581, 139.745433, Lv1) == 5339
    ensures Meshcode(35.658581, 139.745433, X40) == 53392
    ensures Meshcode(35.658581, 139.745433, X20) == 5339235
    ensures Meshcode(35.658581, 139.745433, X16) == 5339467
    ensures Meshcode(35.658581, 139.745433, Lv2) == 533935
    ensures Meshcode(35.658581, 139.745433, X8) == 5339476
    ensures Meshcode(35.658581, 139.745433, X5) == 5339354
    ensures Meshcode(35.658581, 139.745433, X4) == 533947637
    ensures Meshcode(35.658581, 139.745433, X2_5) == 533935446
    ensures Meshcode(35.658581, 139.745433, X2) == 533935885
    ensures Meshcode(35.658581, 139.745433, Lv3) == 53393599
    ensures Meshcode(35.658581, 139.745433, Lv4) == 533935992
    ensures Meshcode(35.658581, 139.745433, Lv5) == 5339359921
    ensures Meshcode(35.658581, 139.745433, Lv6) == 53393599212
  {
    var lat, lon := 35.658581, 139.745433;
    TokyoRemainders(lat, lon);
    assert MeshcodeLv1(lat, lon) == 5339;
    assert Meshcode40000(lat, lon) == 53392;
    assert Meshcode20000(lat, lon) == 5339235;
    assert Meshcode16000(lat, lon) == 5339467;
    assert MeshcodeLv2(lat, lon) == 533935;
    assert Meshcode8000(lat, lon) == 5339476;
    assert Meshcode5000(lat, lon) == 5339354;
    assert Meshcode4000(lat, lon) == 533947637;
    assert Meshcode2500(lat, lon) == 533935446;
    assert Meshcode2000(lat, lon) == 533935885;
    assert MeshcodeLv3(lat, lon) == 53393599;
    assert MeshcodeLv4(lat, lon) == 533935992;
    assert MeshcodeLv5(lat, lon) == 5339359921;
    assert MeshcodeLv6(lat, lon) == 53393599212;
  }

  /** The remainders the encoder computes for the Kyoto test point. */
  lemma KyotoRemainders(lat: real, lon: real)
    requires lat == 34.987574 && lon == 135.759363
    ensures RemLatLv1(lat) == 481361.0 / 1500000.0 && RemLonLv1(lon) == 759363.0 / 1000000.0
    ensures RemLat40000(lat) == 481361.0 / 1500000.0 && RemLon40000(lon) == 259363.0 / 1000000.0
    ensures RemLat8000(lat) == 81361.0 / 1500000.0 && RemLon8000(lon) == 59363.0 / 1000000.0
    ensures RemLatLv2(lat) == 106361.0 / 1500000.0 && RemLonLv2(lon) == 9363.0 / 1000000.0
    ensures RemLat5000(lat) == 43861.0 / 1500000.0 && RemLon5000(lon) == 9363.0 / 1000000.0
    ensures RemLatLv3(lat) == 6361.0 / 1500000.0 && RemLonLv3(lon) == 9363.0 / 1000000.0
    ensures RemLatLv4(lat) == 37.0 / 500000.0 && RemLonLv4(lon) == 3113.0 / 1000000.0
    ensures RemLatLv5(lat) == 37.0 / 500000.0 && RemLonLv5(lon) == 3113.0 / 1000000.0
  {
    assert FRem(lon, 100.0) == lon - 100.0;
    assert RemLatLv1(lat) == lat - 52.0 * UnitLatLv1;
    assert RemLonLv1(lon) == (lon - 100.0) - 35.0 * UnitLonLv1;
    assert RemLat40000(lat) == RemLatLv1(lat) - 0.0 * UnitLat40000;
    assert RemLon40000(lon) == RemLonLv1(lon) - 1.0 * UnitLon40000;
    assert RemLat8000(lat) == RemLatLv1(lat) - 4.0 * UnitLat8000;
    assert RemLon8000(lon) == RemLonLv1(lon) - 7.0 * UnitLon8000;
    assert RemLatLv2(lat) == RemLatLv1(lat) - 3.0 * UnitLatLv2;
    assert RemLonLv2(lon) == RemLonLv1(lon) - 6.0 * UnitLonLv2;
    assert RemLat5000(lat) == RemLatLv2(lat) - 1.0 * UnitLat5000;
    assert RemLon5000(lon) == RemLonLv2(lon) - 0.0 * UnitLon5000;
    assert RemLatLv3(lat) == RemLatLv2(lat) - 8.0 * UnitLatLv3;
    assert RemLonLv3(lon) == RemLonLv2(lon) - 0.0 * UnitLonLv3;
    assert RemLatLv4(lat) == RemLatLv3(lat) - 1.0 * UnitLatLv4;
    assert RemLonLv4(lon) == RemLonLv3(lon) - 1.0 * UnitLonLv4;
    assert RemLatLv5(lat) == RemLatLv4(lat) - 0.0 * UnitLatLv5;
    assert RemLonLv5(lon) == RemLonLv4(lon) - 0.0 * UnitLonLv5;
  }

  /** The encoder's codes for the Kyoto test point, one per level. */
  lemma KyotoMeshcodes()
    ensures Meshcode(34.987574, 135.759363, Lv1) == 5235
    ensures Meshcode(34.987574, 135.759363, X40) == 52352
    ensures Meshcode(34.987574, 135.759363, X20) == 5235245
    ensures Meshcode(34.987574, 135.759363, X16) == 5235467
    ensures Meshcode(34.987574, 135.759363, Lv2) == 523536
    ensures Meshcode(34.987574, 135.759363, X8) == 5235476
    ensures Meshcode(34.987574, 135.759363, X5) == 5235363
    ensures Meshcode(34.987574, 135.759363, X4) == 523547647
    ensures Meshcode(34.987574, 135.759363, X2_5) == 523536336
    ensures Meshcode(34.987574, 135.759363, X2) == 523536805
    ensures Meshcode(34.987574, 135.759363, Lv3) == 52353680
    ensures Meshcode(34.987574, 135.759363, Lv4) == 523536804
    ensures Meshcode(34.987574, 135.759363, Lv5) == 5235368041
    ensures Meshcode(34.987574, 135.759363, Lv6) == 52353680412
  {
    var lat, lon := 34.987574, 135.759363;
    KyotoRemainders(lat, lon);
    assert MeshcodeLv1(lat, lon) == 5235;
    assert Meshcode40000(lat, lon) == 52352;
    assert Meshcode20000(lat, lon) == 5235245;
    assert Meshcode16000(lat, lon) == 5235467;
    assert MeshcodeLv2(lat, lon) == 523536;
    assert Meshcode8000(lat, lon) == 5235476;
    assert Meshcode5000(lat, lon) == 5235363;
    assert Meshcode4000(lat, lon) == 523547647;
    assert Meshcode2500(lat, lon) == 523536336;
    assert Meshcode2000(lat, lon) == 523536805;
    assert MeshcodeLv3(lat, lon) == 52353680;
    assert MeshcodeLv4(lat, lon) == 523536804;
    assert MeshcodeLv5(lat, lon) == 5235368041;
    assert MeshcodeLv6(lat, lon) == 52353680412;
  }

  /** The four rejected inputs of the encoder's tests, the latitude being
      reported when both coordinates are out of range, and the empty batch. */
  lemma BoundsRejected()
    ensures EncodeBatch([-0.1], [139.745433], Lv1) == Err(LatitudeOutOfBounds(-0.1))
    ensures EncodeBatch([66.66], [139.745433], Lv1) == Err(LatitudeOutOfBounds(66.66))
    ensures EncodeBatch([35.658581], [99.99], Lv1) == Err(LongitudeOutOfBounds(99.99))
    ensures EncodeBatch([35.658581], [180.0], Lv1) == Err(LongitudeOutOfBounds(180.0))
    ensures EncodeBatch([66.66], [180.0], Lv1) == Err(LatitudeOutOfBounds(66.66))
    ensures EncodeBatch([35.658581, 70.0], [99.0, 139.745433], Lv3) == Err(LatitudeOutOfBounds(70.0))
    ensures EncodeBatch([], [], Lv3) == Ok([])
  {
    assert FirstInvalidLat([35.658581, 70.0]) == 1 by {
      FirstInvalidLatIs([35.658581, 70.0], 1);
    }
  }

  /** A single longitude is paired with every latitude. */
  lemma BroadcastPairs()
    ensures EncodeBatch([35.658581, 34.987574], [139.745433], Lv1) == Ok([5339, 5239])
  {
    var r := EncodeBatch([35.658581, 34.987574], [139.745433], Lv1);
    assert FirstInvalidLat([35.658581, 34.987574]) == 2 by {
      FirstInvalidLatIs([35.658581, 34.987574], 2);
    }
    assert r.Ok? && |r.value| == 2;
    assert FRem(139.745433, 100.0) == 39.745433;
    assert r.value[0] == MeshcodeLv1(35.658581, 139.745433) == 5339;
    assert r.value[1] == MeshcodeLv1(34.987574, 139.745433) == 5239;
    assert r.value == [5339, 5239];
  }
}
