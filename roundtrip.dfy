/** Encoding then decoding: for every point whose first-level row has two
    digits, the code the encoder produces at a level infers back to that
    level, and the cell it decodes to contains the point. */
module RoundTrip {
  import opened Levels
  import opened Errors
  import opened Units
  import opened RealOps
  import opened Digits
  import opened MeshLevelInference
  import opened MeshCodes
  import opened MeshPoints

  /** A point the encoder accepts whose row number `ab` has two digits
      (below 20/3 degrees North the row, and so the code, is one digit short). */
  predicate Encodable(lat: real, lon: real) {
    ValidLat(lat) && ValidLon(lon) && lat >= 20.0 / 3.0
  }

  /** The point lies in the cell of the given level whose south-west corner is `sw`. */
  predicate InCell(lat: real, lon: real, sw: (real, real), level: MeshLevel) {
    sw.0 <= lat < sw.0 + UnitLat(level) && sw.1 <= lon < sw.1 + UnitLon(level)
  }

  // ---------------------------------------------------------------- quadrants

  /** The decoder's quadrant tests invert the encoder's quadrant digit
      q = 2a + b + 1: q / 3 == 1 exactly for the northern half a = 1, and
      q is even exactly for the eastern half b = 1. */
  lemma QuadrantInverse(a: nat, b: nat)
    requires a <= 1 && b <= 1
    ensures (a * 2 + b + 1) / 3 == 1 <==> a == 1
    ensures (a * 2 + b + 1) % 2 == 0 <==> b == 1
  {
  }

  /** The quadrant digit of two remainders selects offsets equal to the
      whole halves those remainders contain. */
  lemma QuadrantOffsets(remLat: real, halfLat: real, remLon: real, halfLon: real)
    requires halfLat > 0.0 && halfLon > 0.0
    requires 0.0 <= remLat < 2.0 * halfLat && 0.0 <= remLon < 2.0 * halfLon
    ensures var q := Quadrant(remLat, halfLat, remLon, halfLon);
      && 1 <= q <= 4
      && QuadLat(q, halfLat) == DivAsU64(remLat, halfLat) as real * halfLat
      && QuadLon(q, halfLon) == DivAsU64(remLon, halfLon) as real * halfLon
  {
    var a, b := DivAsU64(remLat, halfLat), DivAsU64(remLon, halfLon);
    CountBelow(remLat, halfLat, 2);
    CountBelow(remLon, halfLon, 2);
    QuadrantInverse(a, b);
  }

  /** The same step seen from the remainder: it splits into the offset of
      its quadrant and the remainder inside that quadrant. */
  lemma QuadrantSplit(remLat: real, halfLat: real, remLon: real, halfLon: real)
    requires halfLat > 0.0 && halfLon > 0.0
    requires 0.0 <= remLat < 2.0 * halfLat && 0.0 <= remLon < 2.0 * halfLon
    ensures var q := Quadrant(remLat, halfLat, remLon, halfLon);
      && 1 <= q <= 4
      && remLat == QuadLat(q, halfLat) + FRem(remLat, halfLat) && 0.0 <= FRem(remLat, halfLat) < halfLat
      && remLon == QuadLon(q, halfLon) + FRem(remLon, halfLon) && 0.0 <= FRem(remLon, halfLon) < halfLon
  {
    QuadrantOffsets(remLat, halfLat, remLon, halfLon);
  }

  // ---------------------------------------------------------------- digit layout of a code

  function DigitOr0(ds: seq<nat>, i: nat): nat {
    if i < |ds| then ds[i] else 0
  }

  lemma CodeAppend(ab: nat, cd: nat, ds: seq<nat>, d: nat)
    ensures Code(ab, cd, ds + [d]) == Code(ab, cd, ds) * 10 + d
  {
    var ds' := ds + [d];
    assert ds'[..|ds'| - 1] == ds;
    assert Digits.Digits(ds') == Digits.Digits(ds) * 10 + d;
    assert Pow10(|ds'|) == 10 * Pow10(|ds|);
    var p, x := Pow10(|ds|), ab * 100 + cd;
    assert x * (10 * p) == (x * p) * 10;
  }

  lemma AllDecimalAppend(ds: seq<nat>, d: nat)
    requires AllDecimal(ds) && d <= 9
    ensures AllDecimal(ds + [d])
  {
    assert forall t :: 0 <= t < |ds| ==> (ds + [d])[t] == ds[t];
  }

  /** A laid-out code has 4 + |ds| digits, ends in the last of `ds`, and
      its south-west corner is the corner of its digit groups. */
  lemma Layout(ab: nat, cd: nat, ds: seq<nat>, level: MeshLevel)
    requires 10 <= ab <= 99 && cd <= 99 && AllDecimal(ds) && |ds| <= 7
    ensures NumDigits(Code(ab, cd, ds)) == 4 + |ds|
    ensures |ds| > 0 ==> Code(ab, cd, ds) % 10 == ds[|ds| - 1]
    ensures SouthWest(Code(ab, cd, ds), level) ==
      Corner(level, ab, cd, DigitOr0(ds, 0), DigitOr0(ds, 1), DigitOr0(ds, 2), DigitOr0(ds, 3),
             DigitOr0(ds, 4), DigitOr0(ds, 5), DigitOr0(ds, 6))
  {
    var c := Code(ab, cd, ds);
    CodeLayout(ab, cd, ds);
    if |ds| > 0 {
      var init := ds[..|ds| - 1];
      assert init + [ds[|ds| - 1]] == ds;
      CodeAppend(ab, cd, init, ds[|ds| - 1]);
      AppendDigit(Code(ab, cd, init), ds[|ds| - 1]);
    }
    var e, f, g, h := DigitOr0(ds, 0), DigitOr0(ds, 1), DigitOr0(ds, 2), DigitOr0(ds, 3);
    var i, j, k := DigitOr0(ds, 4), DigitOr0(ds, 5), DigitOr0(ds, 6);
    assert Slice(c, 4, 5) == e by { if 0 < |ds| { assert Slice(c, 4 + 0, 5 + 0) == ds[0]; } }
    assert Slice(c, 5, 6) == f by { if 1 < |ds| { assert Slice(c, 4 + 1, 5 + 1) == ds[1]; } }
    assert Slice(c, 6, 7) == g by { if 2 < |ds| { assert Slice(c, 4 + 2, 5 + 2) == ds[2]; } }
    assert Slice(c, 7, 8) == h by { if 3 < |ds| { assert Slice(c, 4 + 3, 5 + 3) == ds[3]; } }
    assert Slice(c, 8, 9) == i by { if 4 < |ds| { assert Slice(c, 4 + 4, 5 + 4) == ds[4]; } }
    assert Slice(c, 9, 10) == j by { if 5 < |ds| { assert Slice(c, 4 + 5, 5 + 5) == ds[5]; } }
    assert Slice(c, 10, 11) == k by { if 6 < |ds| { assert Slice(c, 4 + 6, 5 + 6) == ds[6]; } }
    SouthWestBySlices(c, level, Slice(c, 0, 2), Slice(c, 2, 4), e, f, g, h, i, j, k);
  }

  // ---------------------------------------------------------------- first level

  function Row(lat: real): nat { DivAsU64(lat, UnitLatLv1) }
  function Column(lon: real): nat { DivAsU64(FRem(lon, 100.0), UnitLonLv1) }

  /** The first-level code: a two-digit row, a column below 80, and the
      remainders left inside the first-level cell. */
  lemma FirstLevel(lat: real, lon: real)
    requires Encodable(lat, lon)
    ensures 10 <= Row(lat) <= 99 && Column(lon) <= 79
    ensures MeshcodeLv1(lat, lon) == Code(Row(lat), Column(lon), [])
    ensures lat == Row(lat) as real * UnitLatLv1 + RemLatLv1(lat) && 0.0 <= RemLatLv1(lat) < UnitLatLv1
    ensures lon == Column(lon) as real + 100.0 + RemLonLv1(lon) && 0.0 <= RemLonLv1(lon) < UnitLonLv1
  {
    assert DivAsU64(lon, 100.0) == 1;
    assert FRem(lon, 100.0) == lon - 100.0;
    assert Pow10(0) == 1 && Digits.Digits([]) == 0;
  }

  // ---------------------------------------------------------------- the basic chain

  // The digits the basic levels append: the Lv2 cell indices e and f, the
  // Lv3 cell indices g and h, and the quadrant digits i, j and k.
  function DigitE(lat: real): nat { DivAsU64(RemLatLv1(lat), UnitLatLv2) }
  function DigitF(lon: real): nat { DivAsU64(RemLonLv1(lon), UnitLonLv2) }
  function DigitG(lat: real): nat { DivAsU64(RemLatLv2(lat), UnitLatLv3) }
  function DigitH(lon: real): nat { DivAsU64(RemLonLv2(lon), UnitLonLv3) }
  function DigitI(lat: real, lon: real): nat { Quadrant(RemLatLv3(lat), UnitLatLv4, RemLonLv3(lon), UnitLonLv4) }
  function DigitJ(lat: real, lon: real): nat { Quadrant(RemLatLv4(lat), UnitLatLv5, RemLonLv4(lon), UnitLonLv5) }
  function DigitK(lat: real, lon: real): nat { Quadrant(RemLatLv5(lat), UnitLatLv6, RemLonLv5(lon), UnitLonLv6) }

  /** The basic levels' codes lay out the row, the column and the digits e..k. */
  lemma CodesLv2(lat: real, lon: real)
    requires Encodable(lat, lon)
    ensures DigitE(lat) <= 7 && DigitF(lon) <= 7
    ensures MeshcodeLv2(lat, lon) == Code(Row(lat), Column(lon), [DigitE(lat), DigitF(lon)])
    ensures AllDecimal([DigitE(lat), DigitF(lon)])
  {
    FirstLevel(lat, lon);
    var ab, cd, e, f := Row(lat), Column(lon), DigitE(lat), DigitF(lon);
    CountBelow(RemLatLv1(lat), UnitLatLv2, 8);
    CountBelow(RemLonLv1(lon), UnitLonLv2, 8);
    assert [] + [e] == [e] && [e] + [f] == [e, f];
    CodeAppend(ab, cd, [], e);
    AllDecimalAppend([], e);
    CodeAppend(ab, cd, [e], f);
    AllDecimalAppend([e], f);
  }

  lemma CodesLv3(lat: real, lon: real)
    requires Encodable(lat, lon)
    ensures DigitE(lat) <= 7 && DigitF(lon) <= 7 && DigitG(lat) <= 9 && DigitH(lon) <= 9
    ensures MeshcodeLv3(lat, lon) == Code(Row(lat), Column(lon), [DigitE(lat), DigitF(lon), DigitG(lat), DigitH(lon)])
    ensures AllDecimal([DigitE(lat), DigitF(lon), DigitG(lat), DigitH(lon)])
  {
    CodesLv2(lat, lon);
    var ab, cd, e, f, g, h := Row(lat), Column(lon), DigitE(lat), DigitF(lon), DigitG(lat), DigitH(lon);
    CountBelow(RemLatLv2(lat), UnitLatLv3, 10);
    CountBelow(RemLonLv2(lon), UnitLonLv3, 10);
    assert [e, f] + [g] == [e, f, g] && [e, f, g] + [h] == [e, f, g, h];
    CodeAppend(ab, cd, [e, f], g);
    AllDecimalAppend([e, f], g);
    CodeAppend(ab, cd, [e, f, g], h);
    AllDecimalAppend([e, f, g], h);
  }

  lemma CodesLv4(lat: real, lon: real)
    requires Encodable(lat, lon)
    ensures DigitE(lat) <= 7 && DigitF(lon) <= 7 && DigitG(lat) <= 9 && DigitH(lon) <= 9
    ensures 1 <= DigitI(lat, lon) <= 4
    ensures MeshcodeLv4(lat, lon) ==
      Code(Row(lat), Column(lon), [DigitE(lat), DigitF(lon), DigitG(lat), DigitH(lon), DigitI(lat, lon)])
    ensures AllDecimal([DigitE(lat), DigitF(lon), DigitG(lat), DigitH(lon), DigitI(lat, lon)])
  {
    CodesLv3(lat, lon);
    var ab, cd, e, f, g, h := Row(lat), Column(lon), DigitE(lat), DigitF(lon), DigitG(lat), DigitH(lon);
    var i := DigitI(lat, lon);
    assert [e, f, g, h] + [i] == [e, f, g, h, i];
    CodeAppend(ab, cd, [e, f, g, h], i);
    AllDecimalAppend([e, f, g, h], i);
  }

  lemma CodesLv5(lat: real, lon: real)
    requires Encodable(lat, lon)
    ensures DigitE(lat) <= 7 && DigitF(lon) <= 7 && DigitG(lat) <= 9 && DigitH(lon) <= 9
    ensures 1 <= DigitI(lat, lon) <= 4 && 1 <= DigitJ(lat, lon) <= 4
    ensures MeshcodeLv5(lat, lon) ==
      Code(Row(lat), Column(lon), [DigitE(lat), DigitF(lon), DigitG(lat), DigitH(lon), DigitI(lat, lon), DigitJ(lat, lon)])
    ensures AllDecimal([DigitE(lat), DigitF(lon), DigitG(lat), DigitH(lon), DigitI(lat, lon), DigitJ(lat, lon)])
  {
    CodesLv4(lat, lon);
    var ab, cd, e, f, g, h := Row(lat), Column(lon), DigitE(lat), DigitF(lon), DigitG(lat), DigitH(lon);
    var i, j := DigitI(lat, lon), DigitJ(lat, lon);
    assert [e, f, g, h, i] + [j] == [e, f, g, h, i, j];
    CodeAppend(ab, cd, [e, f, g, h, i], j);
    AllDecimalAppend([e, f, g, h, i], j);
  }

  lemma CodesLv6(lat: real, lon: real)
    requires Encodable(lat, lon)
    ensures DigitE(lat) <= 7 && DigitF(lon) <= 7 && DigitG(lat) <= 9 && DigitH(lon) <= 9
    ensures 1 <= DigitI(lat, lon) <= 4 && 1 <= DigitJ(lat, lon) <= 4 && 1 <= DigitK(lat, lon) <= 4
    ensures MeshcodeLv6(lat, lon) ==
      Code(Row(lat), Column(lon), [DigitE(lat), DigitF(lon), DigitG(lat), DigitH(lon), DigitI(lat, lon),
                                   DigitJ(lat, lon), DigitK(lat, lon)])
    ensures AllDecimal([DigitE(lat), DigitF(lon), DigitG(lat), DigitH(lon), DigitI(lat, lon),
                                   DigitJ(lat, lon), DigitK(lat, lon)])
  {
    CodesLv5(lat, lon);
    var ab, cd, e, f, g, h := Row(lat), Column(lon), DigitE(lat), DigitF(lon), DigitG(lat), DigitH(lon);
    var i, j, k := DigitI(lat, lon), DigitJ(lat, lon), DigitK(lat, lon);
    assert [e, f, g, h, i, j] + [k] == [e, f, g, h, i, j, k];
    CodeAppend(ab, cd, [e, f, g, h, i, j], k);
    AllDecimalAppend([e, f, g, h, i, j], k);
  }

  /** The basic levels' digits account for the point up to a remainder
      inside the cell of that level. */
  lemma OffsetsLv2(lat: real, lon: real)
    requires Encodable(lat, lon)
    ensures lat == Row(lat) as real * UnitLatLv1 + DigitE(lat) as real * UnitLatLv2 + RemLatLv2(lat)
    ensures lon == Column(lon) as real + 100.0 + DigitF(lon) as real * UnitLonLv2 + RemLonLv2(lon)
    ensures 0.0 <= RemLatLv2(lat) < UnitLatLv2 && 0.0 <= RemLonLv2(lon) < UnitLonLv2
  {
    FirstLevel(lat, lon);
  }

  lemma OffsetsLv3(lat: real, lon: real)
    requires Encodable(lat, lon)
    ensures lat == Row(lat) as real * UnitLatLv1 + DigitE(lat) as real * UnitLatLv2
                   + DigitG(lat) as real * UnitLatLv3 + RemLatLv3(lat)
    ensures lon == Column(lon) as real + 100.0 + DigitF(lon) as real * UnitLonLv2
                   + DigitH(lon) as real * UnitLonLv3 + RemLonLv3(lon)
    ensures 0.0 <= RemLatLv3(lat) < UnitLatLv3 && 0.0 <= RemLonLv3(lon) < UnitLonLv3
  {
    OffsetsLv2(lat, lon);
  }

  lemma OffsetsLv4(lat: real, lon: real)
    requires Encodable(lat, lon)
    ensures lat == Row(lat) as real * UnitLatLv1 + DigitE(lat) as real * UnitLatLv2
                   + DigitG(lat) as real * UnitLatLv3 + QuadLat(DigitI(lat, lon), UnitLatLv4) + RemLatLv4(lat)
    ensures lon == Column(lon) as real + 100.0 + DigitF(lon) as real * UnitLonLv2
                   + DigitH(lon) as real * UnitLonLv3 + QuadLon(DigitI(lat, lon), UnitLonLv4) + RemLonLv4(lon)
    ensures 0.0 <= RemLatLv4(lat) < UnitLatLv4 && 0.0 <= RemLonLv4(lon) < UnitLonLv4
  {
    OffsetsLv3(lat, lon);
    QuadrantSplit(RemLatLv3(lat), UnitLatLv4, RemLonLv3(lon), UnitLonLv4);
  }

  lemma OffsetsLv5(lat: real, lon: real)
    requires Encodable(lat, lon)
    ensures lat == Row(lat) as real * UnitLatLv1 + DigitE(lat) as real * UnitLatLv2
                   + DigitG(lat) as real * UnitLatLv3 + QuadLat(DigitI(lat, lon), UnitLatLv4)
                   + QuadLat(DigitJ(lat, lon), UnitLatLv5) + RemLatLv5(lat)
    ensures lon == Column(lon) as real + 100.0 + DigitF(lon) as real * UnitLonLv2
                   + DigitH(lon) as real * UnitLonLv3 + QuadLon(DigitI(lat, lon), UnitLonLv4)
                   + QuadLon(DigitJ(lat, lon), UnitLonLv5) + RemLonLv5(lon)
    ensures 0.0 <= RemLatLv5(lat) < UnitLatLv5 && 0.0 <= RemLonLv5(lon) < UnitLonLv5
  {
    OffsetsLv4(lat, lon);
    QuadrantSplit(RemLatLv4(lat), UnitLatLv5, RemLonLv4(lon), UnitLonLv5);
  }

  lemma OffsetsLv6(lat: real, lon: real)
    requires Encodable(lat, lon)
    ensures lat == Row(lat) as real * UnitLatLv1 + DigitE(lat) as real * UnitLatLv2
                   + DigitG(lat) as real * UnitLatLv3 + QuadLat(DigitI(lat, lon), UnitLatLv4)
                   + QuadLat(DigitJ(lat, lon), UnitLatLv5) + QuadLat(DigitK(lat, lon), UnitLatLv6)
                   + FRem(RemLatLv5(lat), UnitLatLv6)
    ensures lon == Column(lon) as real + 100.0 + DigitF(lon) as real * UnitLonLv2
                   + DigitH(lon) as real * UnitLonLv3 + QuadLon(DigitI(lat, lon), UnitLonLv4)
                   + QuadLon(DigitJ(lat, lon), UnitLonLv5) + QuadLon(DigitK(lat, lon), UnitLonLv6)
                   + FRem(RemLonLv5(lon), UnitLonLv6)
    ensures 0.0 <= FRem(RemLatLv5(lat), UnitLatLv6) < UnitLatLv6
    ensures 0.0 <= FRem(RemLonLv5(lon), UnitLonLv6) < UnitLonLv6
  {
    OffsetsLv5(lat, lon);
    QuadrantSplit(RemLatLv5(lat), UnitLatLv6, RemLonLv5(lon), UnitLonLv6);
  }

  lemma CellLv1(lat: real, lon: real)
    requires Encodable(lat, lon)
    ensures LevelOf(MeshcodeLv1(lat, lon)) == Ok(Lv1)
    ensures InCell(lat, lon, SouthWest(MeshcodeLv1(lat, lon), Lv1), Lv1)
  {
    FirstLevel(lat, lon);
    var ab, cd := Row(lat), Column(lon);
    Layout(ab, cd, [], Lv1);
    LevelOfRules(Code(ab, cd, []));
  }

  lemma LevelLv2(lat: real, lon: real)
    requires Encodable(lat, lon)
    ensures LevelOf(MeshcodeLv2(lat, lon)) == Ok(Lv2)
  {
    CodesLv2(lat, lon);
    Layout(Row(lat), Column(lon), [DigitE(lat), DigitF(lon)], Lv2);
    LevelOfRules(MeshcodeLv2(lat, lon));
  }

  lemma CellLv2(lat: real, lon: real)
    requires Encodable(lat, lon)
    ensures InCell(lat, lon, SouthWest(MeshcodeLv2(lat, lon), Lv2), Lv2)
  {
    CodesLv2(lat, lon);
    OffsetsLv2(lat, lon);
    Layout(Row(lat), Column(lon), [DigitE(lat), DigitF(lon)], Lv2);
  }

  lemma LevelLv3(lat: real, lon: real)
    requires Encodable(lat, lon)
    ensures LevelOf(MeshcodeLv3(lat, lon)) == Ok(Lv3)
  {
    CodesLv3(lat, lon);
    Layout(Row(lat), Column(lon), [DigitE(lat), DigitF(lon), DigitG(lat), DigitH(lon)], Lv3);
    LevelOfRules(MeshcodeLv3(lat, lon));
  }

  lemma CellLv3(lat: real, lon: real)
    requires Encodable(lat, lon)
    ensures InCell(lat, lon, SouthWest(MeshcodeLv3(lat, lon), Lv3), Lv3)
  {
    CodesLv3(lat, lon);
    OffsetsLv3(lat, lon);
    Layout(Row(lat), Column(lon), [DigitE(lat), DigitF(lon), DigitG(lat), DigitH(lon)], Lv3);
  }

  lemma LevelLv4(lat: real, lon: real)
    requires Encodable(lat, lon)
    ensures LevelOf(MeshcodeLv4(lat, lon)) == Ok(Lv4)
  {
    CodesLv4(lat, lon);
    Layout(Row(lat), Column(lon), [DigitE(lat), DigitF(lon), DigitG(lat), DigitH(lon), DigitI(lat, lon)], Lv4);
    LevelOfRules(MeshcodeLv4(lat, lon));
  }

  /** The fourth-level cell of a code laid out from plain digits holds
      every point that those digits and an in-cell remainder add up to. */
  lemma CellFromDigitsLv4(lat: real, lon: real, ab: nat, cd: nat, e: nat, f: nat, g: nat, h: nat,
                          i: nat, remLat: real, remLon: real)
    requires 10 <= ab <= 99 && cd <= 99 && AllDecimal([e, f, g, h, i])
    requires lat == ab as real * UnitLatLv1 + e as real * UnitLatLv2 + g as real * UnitLatLv3
                    + QuadLat(i, UnitLatLv4) + remLat
    requires lon == cd as real + 100.0 + f as real * UnitLonLv2 + h as real * UnitLonLv3
                    + QuadLon(i, UnitLonLv4) + remLon
    requires 0.0 <= remLat < UnitLatLv4 && 0.0 <= remLon < UnitLonLv4
    ensures InCell(lat, lon, SouthWest(Code(ab, cd, [e, f, g, h, i]), Lv4), Lv4)
  {
    Layout(ab, cd, [e, f, g, h, i], Lv4);
  }

  lemma CellLv4(lat: real, lon: real)
    requires Encodable(lat, lon)
    ensures InCell(lat, lon, SouthWest(MeshcodeLv4(lat, lon), Lv4), Lv4)
  {
    CodesLv4(lat, lon);
    OffsetsLv4(lat, lon);
    CellFromDigitsLv4(lat, lon, Row(lat), Column(lon), DigitE(lat), DigitF(lon), DigitG(lat), DigitH(lon),
                      DigitI(lat, lon), RemLatLv4(lat), RemLonLv4(lon));
  }


  lemma LevelLv5(lat: real, lon: real)
    requires Encodable(lat, lon)
    ensures LevelOf(MeshcodeLv5(lat, lon)) == Ok(Lv5)
  {
    CodesLv5(lat, lon);
    Layout(Row(lat), Column(lon), [DigitE(lat), DigitF(lon), DigitG(lat), DigitH(lon), DigitI(lat, lon), DigitJ(lat, lon)], Lv5);
    LevelOfRules(MeshcodeLv5(lat, lon));
  }

  /** The fifth-level cell of a code laid out from plain digits holds every
      point that those digits and an in-cell remainder add up to. */
  lemma CellFromDigitsLv5(lat: real, lon: real, ab: nat, cd: nat, e: nat, f: nat, g: nat, h: nat,
                          i: nat, j: nat, remLat: real, remLon: real)
    requires 10 <= ab <= 99 && cd <= 99 && AllDecimal([e, f, g, h, i, j])
    requires lat == ab as real * UnitLatLv1 + e as real * UnitLatLv2 + g as real * UnitLatLv3
                    + QuadLat(i, UnitLatLv4) + QuadLat(j, UnitLatLv5) + remLat
    requires lon == cd as real + 100.0 + f as real * UnitLonLv2 + h as real * UnitLonLv3
                    + QuadLon(i, UnitLonLv4) + QuadLon(j, UnitLonLv5) + remLon
    requires 0.0 <= remLat < UnitLatLv5 && 0.0 <= remLon < UnitLonLv5
    ensures InCell(lat, lon, SouthWest(Code(ab, cd, [e, f, g, h, i, j]), Lv5), Lv5)
  {
    Layout(ab, cd, [e, f, g, h, i, j], Lv5);
  }

  lemma CellLv5(lat: real, lon: real)
    requires Encodable(lat, lon)
    ensures InCell(lat, lon, SouthWest(MeshcodeLv5(lat, lon), Lv5), Lv5)
  {
    CodesLv5(lat, lon);
    OffsetsLv5(lat, lon);
    CellFromDigitsLv5(lat, lon, Row(lat), Column(lon), DigitE(lat), DigitF(lon), DigitG(lat), DigitH(lon),
                      DigitI(lat, lon), DigitJ(lat, lon), RemLatLv5(lat), RemLonLv5(lon));
  }


  lemma LevelLv6(lat: real, lon: real)
    requires Encodable(lat, lon)
    ensures LevelOf(MeshcodeLv6(lat, lon)) == Ok(Lv6)
  {
    CodesLv6(lat, lon);
    Layout(Row(lat), Column(lon), [DigitE(lat), DigitF(lon), DigitG(lat), DigitH(lon), DigitI(lat, lon), DigitJ(lat, lon), DigitK(lat, lon)], Lv6);
    LevelOfRules(MeshcodeLv6(lat, lon));
  }

  /** The sixth-level cell of a code laid out from plain digits holds every
      point that those digits and an in-cell remainder add up to. */
  lemma CellFromDigitsLv6(lat: real, lon: real, ab: nat, cd: nat, e: nat, f: nat, g: nat, h: nat,
                          i: nat, j: nat, k: nat, remLat: real, remLon: real)
    requires 10 <= ab <= 99 && cd <= 99 && AllDecimal([e, f, g, h, i, j, k])
    requires lat == ab as real * UnitLatLv1 + e as real * UnitLatLv2 + g as real * UnitLatLv3
                    + QuadLat(i, UnitLatLv4) + QuadLat(j, UnitLatLv5) + QuadLat(k, UnitLatLv6) + remLat
    requires lon == cd as real + 100.0 + f as real * UnitLonLv2 + h as real * UnitLonLv3
                    + QuadLon(i, UnitLonLv4) + QuadLon(j, UnitLonLv5) + QuadLon(k, UnitLonLv6) + remLon
    requires 0.0 <= remLat < UnitLatLv6 && 0.0 <= remLon < UnitLonLv6
    ensures InCell(lat, lon, SouthWest(Code(ab, cd, [e, f, g, h, i, j, k]), Lv6), Lv6)
  {
    Layout(ab, cd, [e, f, g, h, i, j, k], Lv6);
  }

  lemma CellLv6(lat: real, lon: real)
    requires Encodable(lat, lon)
    ensures InCell(lat, lon, SouthWest(MeshcodeLv6(lat, lon), Lv6), Lv6)
  {
    CodesLv6(lat, lon);
    OffsetsLv6(lat, lon);
    CellFromDigitsLv6(lat, lon, Row(lat), Column(lon), DigitE(lat), DigitF(lon), DigitG(lat), DigitH(lon),
                      DigitI(lat, lon), DigitJ(lat, lon), DigitK(lat, lon),
                      FRem(RemLatLv5(lat), UnitLatLv6), FRem(RemLonLv5(lon), UnitLonLv6));
  }


  // ---------------------------------------------------------------- the multiplier levels

  // The digits the multiplier levels append.
  function Quad40000(lat: real, lon: real): nat { Quadrant(RemLatLv1(lat), UnitLat40000, RemLonLv1(lon), UnitLon40000) }
  function Quad20000(lat: real, lon: real): nat { Quadrant(RemLat40000(lat), UnitLat20000, RemLon40000(lon), UnitLon20000) }
  function Index16000Lat(lat: real): nat { DivAsU64(RemLatLv1(lat), UnitLat16000) }
  function Index16000Lon(lon: real): nat { DivAsU64(RemLonLv1(lon), UnitLon16000) }
  function Index8000Lat(lat: real): nat { DivAsU64(RemLatLv1(lat), UnitLat8000) }
  function Index8000Lon(lon: real): nat { DivAsU64(RemLonLv1(lon), UnitLon8000) }
  function Quad4000(lat: real, lon: real): nat { Quadrant(RemLat8000(lat), UnitLat4000, RemLon8000(lon), UnitLon4000) }
  function Quad5000(lat: real, lon: real): nat { Quadrant(RemLatLv2(lat), UnitLat5000, RemLonLv2(lon), UnitLon5000) }
  function Quad2500(lat: real, lon: real): nat { Quadrant(RemLat5000(lat), UnitLat2500, RemLon5000(lon), UnitLon2500) }
  function Index2000Lat(lat: real): nat { DivAsU64(RemLatLv2(lat), UnitLat2000) }
  function Index2000Lon(lon: real): nat { DivAsU64(RemLonLv2(lon), UnitLon2000) }

  lemma CodesX40(lat: real, lon: real)
    requires Encodable(lat, lon)
    ensures AllDecimal([Quad40000(lat, lon)])
    ensures Meshcode40000(lat, lon) == Code(Row(lat), Column(lon), [Quad40000(lat, lon)])
    ensures lat == Row(lat) as real * UnitLatLv1 + QuadLat(Quad40000(lat, lon), UnitLat40000) + RemLat40000(lat)
    ensures lon == Column(lon) as real + 100.0 + QuadLon(Quad40000(lat, lon), UnitLon40000) + RemLon40000(lon)
    ensures 0.0 <= RemLat40000(lat) < UnitLat40000 && 0.0 <= RemLon40000(lon) < UnitLon40000
  {
    FirstLevel(lat, lon);
    QuadrantOffsets(RemLatLv1(lat), UnitLat40000, RemLonLv1(lon), UnitLon40000);
    var ab, cd, e := Row(lat), Column(lon), Quad40000(lat, lon);
    assert [] + [e] == [e];
    CodeAppend(ab, cd, [], e);
    AllDecimalAppend([], e);
  }

  lemma CodesX20(lat: real, lon: real)
    requires Encodable(lat, lon)
    ensures AllDecimal([Quad40000(lat, lon), Quad20000(lat, lon), 5])
    ensures Meshcode20000(lat, lon) == Code(Row(lat), Column(lon), [Quad40000(lat, lon), Quad20000(lat, lon), 5])
  {
    CodesX40(lat, lon);
    var ab, cd, e, f := Row(lat), Column(lon), Quad40000(lat, lon), Quad20000(lat, lon);
    assert [e] + [f] == [e, f] && [e, f] + [5] == [e, f, 5];
    CodeAppend(ab, cd, [e], f);
    CodeAppend(ab, cd, [e, f], 5);
    AllDecimalAppend([e], f);
    AllDecimalAppend([e, f], 5);
  }

  lemma OffsetsX20(lat: real, lon: real)
    requires Encodable(lat, lon)
    ensures lat == Row(lat) as real * UnitLatLv1 + QuadLat(Quad40000(lat, lon), UnitLat40000)
                   + QuadLat(Quad20000(lat, lon), UnitLat20000) + FRem(RemLat40000(lat), UnitLat20000)
    ensures lon == Column(lon) as real + 100.0 + QuadLon(Quad40000(lat, lon), UnitLon40000)
                   + QuadLon(Quad20000(lat, lon), UnitLon20000) + FRem(RemLon40000(lon), UnitLon20000)
    ensures 0.0 <= FRem(RemLat40000(lat), UnitLat20000) < UnitLat20000
    ensures 0.0 <= FRem(RemLon40000(lon), UnitLon20000) < UnitLon20000
  {
    CodesX40(lat, lon);
    QuadrantSplit(RemLat40000(lat), UnitLat20000, RemLon40000(lon), UnitLon20000);
  }

  lemma CodesX16(lat: real, lon: real)
    requires Encodable(lat, lon)
    ensures AllDecimal([Index16000Lat(lat) * 2, Index16000Lon(lon) * 2, 7])
    ensures Meshcode16000(lat, lon) == Code(Row(lat), Column(lon), [Index16000Lat(lat) * 2, Index16000Lon(lon) * 2, 7])
  {
    FirstLevel(lat, lon);
    CountBelow(RemLatLv1(lat), UnitLat16000, 5);
    CountBelow(RemLonLv1(lon), UnitLon16000, 5);
    var ab, cd, e, f := Row(lat), Column(lon), Index16000Lat(lat) * 2, Index16000Lon(lon) * 2;
    assert [] + [e] == [e] && [e] + [f] == [e, f] && [e, f] + [7] == [e, f, 7];
    CodeAppend(ab, cd, [], e);
    CodeAppend(ab, cd, [e], f);
    CodeAppend(ab, cd, [e, f], 7);
    AllDecimalAppend([], e);
    AllDecimalAppend([e], f);
    AllDecimalAppend([e, f], 7);
  }

  lemma OffsetsX16(lat: real, lon: real)
    requires Encodable(lat, lon)
    ensures var r := RemLatLv1(lat) - Index16000Lat(lat) as real * UnitLat16000;
      lat == Row(lat) as real * UnitLatLv1 + ((Index16000Lat(lat) * 2) / 2) as real * UnitLat16000 + r
      && 0.0 <= r < UnitLat16000
    ensures var r := RemLonLv1(lon) - Index16000Lon(lon) as real * UnitLon16000;
      lon == Column(lon) as real + 100.0 + ((Index16000Lon(lon) * 2) / 2) as real * UnitLon16000 + r
      && 0.0 <= r < UnitLon16000
  {
    FirstLevel(lat, lon);
    assert (Index16000Lat(lat) * 2) / 2 == Index16000Lat(lat);
    assert (Index16000Lon(lon) * 2) / 2 == Index16000Lon(lon);
  }

  lemma CodesX8(lat: real, lon: real)
    requires Encodable(lat, lon)
    ensures AllDecimal([Index8000Lat(lat), Index8000Lon(lon), 6])
    ensures Meshcode8000(lat, lon) == Code(Row(lat), Column(lon), [Index8000Lat(lat), Index8000Lon(lon), 6])
  {
    FirstLevel(lat, lon);
    CountBelow(RemLatLv1(lat), UnitLat8000, 10);
    CountBelow(RemLonLv1(lon), UnitLon8000, 10);
    var ab, cd, e, f := Row(lat), Column(lon), Index8000Lat(lat), Index8000Lon(lon);
    assert [] + [e] == [e] && [e] + [f] == [e, f] && [e, f] + [6] == [e, f, 6];
    CodeAppend(ab, cd, [], e);
    CodeAppend(ab, cd, [e], f);
    CodeAppend(ab, cd, [e, f], 6);
    AllDecimalAppend([], e);
    AllDecimalAppend([e], f);
    AllDecimalAppend([e, f], 6);
  }

  lemma OffsetsX8(lat: real, lon: real)
    requires Encodable(lat, lon)
    ensures lat == Row(lat) as real * UnitLatLv1 + Index8000Lat(lat) as real * UnitLat8000 + RemLat8000(lat)
    ensures lon == Column(lon) as real + 100.0 + Index8000Lon(lon) as real * UnitLon8000 + RemLon8000(lon)
    ensures 0.0 <= RemLat8000(lat) < UnitLat8000 && 0.0 <= RemLon8000(lon) < UnitLon8000
  {
    FirstLevel(lat, lon);
  }

  lemma CodesX4(lat: real, lon: real)
    requires Encodable(lat, lon)
    ensures AllDecimal([Index8000Lat(lat), Index8000Lon(lon), 6, Quad4000(lat, lon), 7])
    ensures Meshcode4000(lat, lon) ==
      Code(Row(lat), Column(lon), [Index8000Lat(lat), Index8000Lon(lon), 6, Quad4000(lat, lon), 7])
  {
    CodesX8(lat, lon);
    assert 0.0 <= RemLat8000(lat) < UnitLat8000 && 0.0 <= RemLon8000(lon) < UnitLon8000 by {
      OffsetsX8(lat, lon);
    }
    var ab, cd, e, f, h := Row(lat), Column(lon), Index8000Lat(lat), Index8000Lon(lon), Quad4000(lat, lon);
    assert [e, f, 6] + [h] == [e, f, 6, h] && [e, f, 6, h] + [7] == [e, f, 6, h, 7];
    CodeAppend(ab, cd, [e, f, 6], h);
    CodeAppend(ab, cd, [e, f, 6, h], 7);
    AllDecimalAppend([e, f, 6], h);
    AllDecimalAppend([e, f, 6, h], 7);
  }

  lemma OffsetsX4(lat: real, lon: real)
    requires Encodable(lat, lon)
    ensures lat == Row(lat) as real * UnitLatLv1 + Index8000Lat(lat) as real * UnitLat8000
                   + QuadLat(Quad4000(lat, lon), UnitLat4000) + FRem(RemLat8000(lat), UnitLat4000)
    ensures lon == Column(lon) as real + 100.0 + Index8000Lon(lon) as real * UnitLon8000
                   + QuadLon(Quad4000(lat, lon), UnitLon4000) + FRem(RemLon8000(lon), UnitLon4000)
    ensures 0.0 <= FRem(RemLat8000(lat), UnitLat4000) < UnitLat4000
    ensures 0.0 <= FRem(RemLon8000(lon), UnitLon4000) < UnitLon4000
  {
    OffsetsX8(lat, lon);
    QuadrantSplit(RemLat8000(lat), UnitLat4000, RemLon8000(lon), UnitLon4000);
  }

  lemma CodesX5(lat: real, lon: real)
    requires Encodable(lat, lon)
    ensures AllDecimal([DigitE(lat), DigitF(lon), Quad5000(lat, lon)])
    ensures Meshcode5000(lat, lon) == Code(Row(lat), Column(lon), [DigitE(lat), DigitF(lon), Quad5000(lat, lon)])
  {
    CodesLv2(lat, lon);
    OffsetsLv2(lat, lon);
    QuadrantOffsets(RemLatLv2(lat), UnitLat5000, RemLonLv2(lon), UnitLon5000);
    var ab, cd, e, f, g := Row(lat), Column(lon), DigitE(lat), DigitF(lon), Quad5000(lat, lon);
    assert [e, f] + [g] == [e, f, g];
    CodeAppend(ab, cd, [e, f], g);
    AllDecimalAppend([e, f], g);
  }

  lemma OffsetsX5(lat: real, lon: real)
    requires Encodable(lat, lon)
    ensures lat == Row(lat) as real * UnitLatLv1 + DigitE(lat) as real * UnitLatLv2
                   + QuadLat(Quad5000(lat, lon), UnitLat5000) + RemLat5000(lat)
    ensures lon == Column(lon) as real + 100.0 + DigitF(lon) as real * UnitLonLv2
                   + QuadLon(Quad5000(lat, lon), UnitLon5000) + RemLon5000(lon)
    ensures 0.0 <= RemLat5000(lat) < UnitLat5000 && 0.0 <= RemLon5000(lon) < UnitLon5000
  {
    OffsetsLv2(lat, lon);
    QuadrantSplit(RemLatLv2(lat), UnitLat5000, RemLonLv2(lon), UnitLon5000);
  }

  lemma CodesX2_5(lat: real, lon: real)
    requires Encodable(lat, lon)
    ensures AllDecimal([DigitE(lat), DigitF(lon), Quad5000(lat, lon), Quad2500(lat, lon), 6])
    ensures Meshcode2500(lat, lon) ==
      Code(Row(lat), Column(lon), [DigitE(lat), DigitF(lon), Quad5000(lat, lon), Quad2500(lat, lon), 6])
  {
    CodesX5(lat, lon);
    OffsetsX5(lat, lon);
    QuadrantOffsets(RemLat5000(lat), UnitLat2500, RemLon5000(lon), UnitLon2500);
    var ab, cd, e, f, g, h := Row(lat), Column(lon), DigitE(lat), DigitF(lon), Quad5000(lat, lon), Quad2500(lat, lon);
    assert [e, f, g] + [h] == [e, f, g, h] && [e, f, g, h] + [6] == [e, f, g, h, 6];
    CodeAppend(ab, cd, [e, f, g], h);
    CodeAppend(ab, cd, [e, f, g, h], 6);
    AllDecimalAppend([e, f, g], h);
    AllDecimalAppend([e, f, g, h], 6);
  }

  lemma OffsetsX2_5(lat: real, lon: real)
    requires Encodable(lat, lon)
    ensures lat == Row(lat) as real * UnitLatLv1 + DigitE(lat) as real * UnitLatLv2
                   + QuadLat(Quad5000(lat, lon), UnitLat5000) + QuadLat(Quad2500(lat, lon), UnitLat2500)
                   + FRem(RemLat5000(lat), UnitLat2500)
    ensures lon == Column(lon) as real + 100.0 + DigitF(lon) as real * UnitLonLv2
                   + QuadLon(Quad5000(lat, lon), UnitLon5000) + QuadLon(Quad2500(lat, lon), UnitLon2500)
                   + FRem(RemLon5000(lon), UnitLon2500)
    ensures 0.0 <= FRem(RemLat5000(lat), UnitLat2500) < UnitLat2500
    ensures 0.0 <= FRem(RemLon5000(lon), UnitLon2500) < UnitLon2500
  {
    OffsetsX5(lat, lon);
    QuadrantSplit(RemLat5000(lat), UnitLat2500, RemLon5000(lon), UnitLon2500);
  }

  lemma CodesX2(lat: real, lon: real)
    requires Encodable(lat, lon)
    ensures AllDecimal([DigitE(lat), DigitF(lon), Index2000Lat(lat) * 2, Index2000Lon(lon) * 2, 5])
    ensures Meshcode2000(lat, lon) ==
      Code(Row(lat), Column(lon), [DigitE(lat), DigitF(lon), Index2000Lat(lat) * 2, Index2000Lon(lon) * 2, 5])
  {
    CodesLv2(lat, lon);
    assert 0.0 <= RemLatLv2(lat) < UnitLatLv2 && 0.0 <= RemLonLv2(lon) < UnitLonLv2 by {
      OffsetsLv2(lat, lon);
    }
    CountBelow(RemLatLv2(lat), UnitLat2000, 5);
    CountBelow(RemLonLv2(lon), UnitLon2000, 5);
    var ab, cd, e, f, g, h := Row(lat), Column(lon), DigitE(lat), DigitF(lon), Index2000Lat(lat) * 2, Index2000Lon(lon) * 2;
    assert [e, f] + [g] == [e, f, g] && [e, f, g] + [h] == [e, f, g, h] && [e, f, g, h] + [5] == [e, f, g, h, 5];
    CodeAppend(ab, cd, [e, f], g);
    CodeAppend(ab, cd, [e, f, g], h);
    CodeAppend(ab, cd, [e, f, g, h], 5);
    AllDecimalAppend([e, f], g);
    AllDecimalAppend([e, f, g], h);
    AllDecimalAppend([e, f, g, h], 5);
  }

  lemma OffsetsX2(lat: real, lon: real)
    requires Encodable(lat, lon)
    ensures var r := RemLatLv2(lat) - Index2000Lat(lat) as real * UnitLat2000;
      lat == Row(lat) as real * UnitLatLv1 + DigitE(lat) as real * UnitLatLv2
             + ((Index2000Lat(lat) * 2) / 2) as real * UnitLat2000 + r
      && 0.0 <= r < UnitLat2000
    ensures var r := RemLonLv2(lon) - Index2000Lon(lon) as real * UnitLon2000;
      lon == Column(lon) as real + 100.0 + DigitF(lon) as real * UnitLonLv2
             + ((Index2000Lon(lon) * 2) / 2) as real * UnitLon2000 + r
      && 0.0 <= r < UnitLon2000
  {
    OffsetsLv2(lat, lon);
    assert (Index2000Lat(lat) * 2) / 2 == Index2000Lat(lat);
    assert (Index2000Lon(lon) * 2) / 2 == Index2000Lon(lon);
  }

  lemma LevelX40(lat: real, lon: real)
    requires Encodable(lat, lon)
    ensures LevelOf(Meshcode40000(lat, lon)) == Ok(X40)
  {
    CodesX40(lat, lon);
    Layout(Row(lat), Column(lon), [Quad40000(lat, lon)], X40);
    LevelOfRules(Meshcode40000(lat, lon));
  }

  lemma CellX40(lat: real, lon: real)
    requires Encodable(lat, lon)
    ensures InCell(lat, lon, SouthWest(Meshcode40000(lat, lon), X40), X40)
  {
    CodesX40(lat, lon);
    Layout(Row(lat), Column(lon), [Quad40000(lat, lon)], X40);
  }

  lemma LevelX20(lat: real, lon: real)
    requires Encodable(lat, lon)
    ensures LevelOf(Meshcode20000(lat, lon)) == Ok(X20)
  {
    CodesX20(lat, lon);
    OffsetsX20(lat, lon);
    Layout(Row(lat), Column(lon), [Quad40000(lat, lon), Quad20000(lat, lon), 5], X20);
    LevelOfRules(Meshcode20000(lat, lon));
  }

  lemma CellX20(lat: real, lon: real)
    requires Encodable(lat, lon)
    ensures InCell(lat, lon, SouthWest(Meshcode20000(lat, lon), X20), X20)
  {
    CodesX20(lat, lon);
    OffsetsX20(lat, lon);
    Layout(Row(lat), Column(lon), [Quad40000(lat, lon), Quad20000(lat, lon), 5], X20);
  }

  lemma LevelX16(lat: real, lon: real)
    requires Encodable(lat, lon)
    ensures LevelOf(Meshcode16000(lat, lon)) == Ok(X16)
  {
    CodesX16(lat, lon);
    Layout(Row(lat), Column(lon), [Index16000Lat(lat) * 2, Index16000Lon(lon) * 2, 7], X16);
    LevelOfRules(Meshcode16000(lat, lon));
  }

  lemma CellX16(lat: real, lon: real)
    requires Encodable(lat, lon)
    ensures InCell(lat, lon, SouthWest(Meshcode16000(lat, lon), X16), X16)
  {
    CodesX16(lat, lon);
    OffsetsX16(lat, lon);
    Layout(Row(lat), Column(lon), [Index16000Lat(lat) * 2, Index16000Lon(lon) * 2, 7], X16);
  }

  lemma LevelX8(lat: real, lon: real)
    requires Encodable(lat, lon)
    ensures LevelOf(Meshcode8000(lat, lon)) == Ok(X8)
  {
    CodesX8(lat, lon);
    Layout(Row(lat), Column(lon), [Index8000Lat(lat), Index8000Lon(lon), 6], X8);
    LevelOfRules(Meshcode8000(lat, lon));
  }

  lemma CellX8(lat: real, lon: real)
    requires Encodable(lat, lon)
    ensures InCell(lat, lon, SouthWest(Meshcode8000(lat, lon), X8), X8)
  {
    CodesX8(lat, lon);
    OffsetsX8(lat, lon);
    Layout(Row(lat), Column(lon), [Index8000Lat(lat), Index8000Lon(lon), 6], X8);
  }

  lemma LevelX4(lat: real, lon: real)
    requires Encodable(lat, lon)
    ensures LevelOf(Meshcode4000(lat, lon)) == Ok(X4)
  {
    CodesX4(lat, lon);
    Layout(Row(lat), Column(lon), [Index8000Lat(lat), Index8000Lon(lon), 6, Quad4000(lat, lon), 7], X4);
    LevelOfRules(Meshcode4000(lat, lon));
  }

  lemma CellX4(lat: real, lon: real)
    requires Encodable(lat, lon)
    ensures InCell(lat, lon, SouthWest(Meshcode4000(lat, lon), X4), X4)
  {
    CodesX4(lat, lon);
    OffsetsX4(lat, lon);
    Layout(Row(lat), Column(lon), [Index8000Lat(lat), Index8000Lon(lon), 6, Quad4000(lat, lon), 7], X4);
  }

  lemma LevelX5(lat: real, lon: real)
    requires Encodable(lat, lon)
    ensures LevelOf(Meshcode5000(lat, lon)) == Ok(X5)
  {
    CodesX5(lat, lon);
    Layout(Row(lat), Column(lon), [DigitE(lat), DigitF(lon), Quad5000(lat, lon)], X5);
    LevelOfRules(Meshcode5000(lat, lon));
  }

  lemma CellX5(lat: real, lon: real)
    requires Encodable(lat, lon)
    ensures InCell(lat, lon, SouthWest(Meshcode5000(lat, lon), X5), X5)
  {
    CodesX5(lat, lon);
    OffsetsX5(lat, lon);
    Layout(Row(lat), Column(lon), [DigitE(lat), DigitF(lon), Quad5000(lat, lon)], X5);
  }

  lemma LevelX2_5(lat: real, lon: real)
    requires Encodable(lat, lon)
    ensures LevelOf(Meshcode2500(lat, lon)) == Ok(X2_5)
  {
    CodesX2_5(lat, lon);
    Layout(Row(lat), Column(lon), [DigitE(lat), DigitF(lon), Quad5000(lat, lon), Quad2500(lat, lon), 6], X2_5);
    LevelOfRules(Meshcode2500(lat, lon));
  }

  /** The 2500 cell of a code laid out from plain digits holds every point
      that those digits and an in-cell remainder add up to. */
  lemma CellFromDigitsX2_5(lat: real, lon: real, ab: nat, cd: nat, e: nat, f: nat, g: nat, h: nat,
                           remLat: real, remLon: real)
    requires 10 <= ab <= 99 && cd <= 99 && AllDecimal([e, f, g, h, 6])
    requires lat == ab as real * UnitLatLv1 + e as real * UnitLatLv2
                    + QuadLat(g, UnitLat5000) + QuadLat(h, UnitLat2500) + remLat
    requires lon == cd as real + 100.0 + f as real * UnitLonLv2
                    + QuadLon(g, UnitLon5000) + QuadLon(h, UnitLon2500) + remLon
    requires 0.0 <= remLat < UnitLat2500 && 0.0 <= remLon < UnitLon2500
    ensures InCell(lat, lon, SouthWest(Code(ab, cd, [e, f, g, h, 6]), X2_5), X2_5)
  {
    Layout(ab, cd, [e, f, g, h, 6], X2_5);
  }

  lemma CellX2_5(lat: real, lon: real)
    requires Encodable(lat, lon)
    ensures InCell(lat, lon, SouthWest(Meshcode2500(lat, lon), X2_5), X2_5)
  {
    CodesX2_5(lat, lon);
    OffsetsX2_5(lat, lon);
    CellFromDigitsX2_5(lat, lon, Row(lat), Column(lon), DigitE(lat), DigitF(lon), Quad5000(lat, lon),
                       Quad2500(lat, lon), FRem(RemLat5000(lat), UnitLat2500), FRem(RemLon5000(lon), UnitLon2500));
  }


  lemma LevelX2(lat: real, lon: real)
    requires Encodable(lat, lon)
    ensures LevelOf(Meshcode2000(lat, lon)) == Ok(X2)
  {
    CodesX2(lat, lon);
    Layout(Row(lat), Column(lon), [DigitE(lat), DigitF(lon), Index2000Lat(lat) * 2, Index2000Lon(lon) * 2, 5], X2);
    LevelOfRules(Meshcode2000(lat, lon));
  }

  /** The 2000 cell of a code laid out from plain digits holds every point
      that those digits and an in-cell remainder add up to. */
  lemma CellFromDigitsX2(lat: real, lon: real, ab: nat, cd: nat, e: nat, f: nat, g: nat, h: nat,
                         remLat: real, remLon: real)
    requires 10 <= ab <= 99 && cd <= 99 && AllDecimal([e, f, g, h, 5])
    requires lat == ab as real * UnitLatLv1 + e as real * UnitLatLv2 + (g / 2) as real * UnitLat2000 + remLat
    requires lon == cd as real + 100.0 + f as real * UnitLonLv2 + (h / 2) as real * UnitLon2000 + remLon
    requires 0.0 <= remLat < UnitLat2000 && 0.0 <= remLon < UnitLon2000
    ensures InCell(lat, lon, SouthWest(Code(ab, cd, [e, f, g, h, 5]), X2), X2)
  {
    Layout(ab, cd, [e, f, g, h, 5], X2);
  }

  lemma CellX2(lat: real, lon: real)
    requires Encodable(lat, lon)
    ensures InCell(lat, lon, SouthWest(Meshcode2000(lat, lon), X2), X2)
  {
    CodesX2(lat, lon);
    OffsetsX2(lat, lon);
    CellFromDigitsX2(lat, lon, Row(lat), Column(lon), DigitE(lat), DigitF(lon),
                     Index2000Lat(lat) * 2, Index2000Lon(lon) * 2,
                     RemLatLv2(lat) - Index2000Lat(lat) as real * UnitLat2000,
                     RemLonLv2(lon) - Index2000Lon(lon) as real * UnitLon2000);
  }


  // ---------------------------------------------------------------- the round trip

  /** Encoding a point at any level and decoding the code again: the code's
      digits infer back to the level it was encoded at, and the cell that the
      decoder's south-west corner and the level's cell size describe holds
      the point. */
  lemma EncodeThenDecode(lat: real, lon: real, level: MeshLevel)
    requires Encodable(lat, lon)
    ensures LevelOf(Meshcode(lat, lon, level)) == Ok(level)
    ensures InCell(lat, lon, SouthWest(Meshcode(lat, lon, level), level), level)
  {
    match level
    case Lv1 => CellLv1(lat, lon);
    case X40 => LevelX40(lat, lon); CellX40(lat, lon);
    case X20 => LevelX20(lat, lon); CellX20(lat, lon);
    case X16 => LevelX16(lat, lon); CellX16(lat, lon);
    case Lv2 => LevelLv2(lat, lon); CellLv2(lat, lon);
    case X8 => LevelX8(lat, lon); CellX8(lat, lon);
    case X5 => LevelX5(lat, lon); CellX5(lat, lon);
    case X4 => LevelX4(lat, lon); CellX4(lat, lon);
    case X2_5 => LevelX2_5(lat, lon); CellX2_5(lat, lon);
    case X2 => LevelX2(lat, lon); CellX2(lat, lon);
    case Lv3 => LevelLv3(lat, lon); CellLv3(lat, lon);
    case Lv4 => LevelLv4(lat, lon); CellLv4(lat, lon);
    case Lv5 => LevelLv5(lat, lon); CellLv5(lat, lon);
    case Lv6 => LevelLv6(lat, lon); CellLv6(lat, lon);
  }

  /** The same, through the decoder's multipliers: the code computed for a
      point decodes at multipliers (0, 0) to a corner at or south-west of the
      point, and at (1, 1) to a corner strictly north-east of it. */
  lemma DecodedCornersEnclose(lat: real, lon: real, level: MeshLevel)
    requires Encodable(lat, lon)
    ensures var code := Meshcode(lat, lon, level);
      && MeshPoint(code, level, 0.0, 0.0).0 <= lat < MeshPoint(code, level, 1.0, 1.0).0
      && MeshPoint(code, level, 0.0, 0.0).1 <= lon < MeshPoint(code, level, 1.0, 1.0).1
  {
    EncodeThenDecode(lat, lon, level);
    MeshPointCorners(Meshcode(lat, lon, level), level);
  }

  /** A batch of encodable points encodes to codes that all infer back to
      the level they were encoded at. */
  lemma BatchLevelsRoundTrip(lats: seq<real>, lons: seq<real>, level: MeshLevel)
    requires |lats| > 0 && |lons| > 0
    requires forall t :: 0 <= t < |lats| ==> ValidLat(lats[t]) && lats[t] >= 20.0 / 3.0
    requires forall t :: 0 <= t < |lons| ==> ValidLon(lons[t])
    ensures EncodeDefined(lats, lons) && EncodeBatch(lats, lons, level).Ok?
    ensures var codes := EncodeBatch(lats, lons, level).value;
      InferBatch(codes).Ok? && forall t :: 0 <= t < |codes| ==> InferBatch(codes).value[t] == level
  {
    var codes := EncodeBatch(lats, lons, level).value;
    forall t | 0 <= t < |codes| ensures LevelOf(codes[t]) == Ok(level) {
      EncodeThenDecode(lats[t % |lats|], lons[t % |lons|], level);
    }
    InferUniform(codes, level);
  }

  /** A batch whose every code has the same level infers that level throughout. */
  lemma InferUniform(codes: seq<nat>, level: MeshLevel)
    requires forall t :: 0 <= t < |codes| ==> LevelOf(codes[t]) == Ok(level)
    ensures InferBatch(codes).Ok? && forall t :: 0 <= t < |codes| ==> InferBatch(codes).value[t] == level
  {
    assert 0 !in codes by {
      forall t | 0 <= t < |codes| ensures codes[t] != 0 {
        assert LevelOf(codes[t]).Ok?;
      }
    }
  }

  /** Below the tenth latitude band (20/3 degrees) the first-level code has
      fewer than four digits, and inference refuses it. */
  lemma LowLatitudeLv1(lat: real, lon: real)
    requires ValidLat(lat) && ValidLon(lon) && lat < 20.0 / 3.0
    ensures LevelOf(MeshcodeLv1(lat, lon)) == Err(UnknownMeshLevelForCode(MeshcodeLv1(lat, lon)))
  {
    CountBelow(lat, UnitLatLv1, 10);
    assert DivAsU64(lon, 100.0) == 1;
    assert FRem(lon, 100.0) == lon - 100.0;
    CountBelow(FRem(lon, 100.0), UnitLonLv1, 80);
    var ab, cd := DivAsU64(lat, UnitLatLv1), DivAsU64(FRem(lon, 100.0), UnitLonLv1);
    assert ab < 10 && cd < 80;
    var code := MeshcodeLv1(lat, lon);
    assert code == ab * 100 + cd;
    assert Pow10(1) == 10 && Pow10(2) == 100 && Pow10(3) == 1000;
    if code >= 100 {
      NumDigitsIs(code, 3);
    } else if code >= 10 {
      NumDigitsIs(code, 2);
    } else if code >= 1 {
      NumDigitsIs(code, 1);
    }
    LevelOfRules(code);
  }
}
