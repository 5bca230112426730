/** The decoder: from mesh codes to points of their cells, chosen within each
    cell by a latitude and a longitude multiplier (0 for the south-west
    corner, 1 for the north-east one, 0.5 for the centre). */
module MeshPoints {
  import opened Levels
  import opened Errors
  import opened Units
  import opened Digits
  import opened MeshLevelInference

  /** The latitude offset a quadrant digit selects: digits 3 and 4 are the
      northern halves. */
  function QuadLat(d: nat, unit: real): real {
    if d / 3 == 1 then unit else 0.0
  }

  /** The longitude offset a quadrant digit selects: digits 2 and 4 are the
      eastern halves. */
  function QuadLon(d: nat, unit: real): real {
    if d % 2 == 0 then unit else 0.0
  }

  /** The offset of a cell's south-west corner from the south-west corner of
      its first-level cell, accumulated from the digits after the first four
      as the decoder accumulates them. */
  function Offset(level: MeshLevel, e: nat, f: nat, g: nat, h: nat, i: nat, j: nat, k: nat): (real, real) {
    var lat2, lon2 := e as real * UnitLatLv2, f as real * UnitLonLv2;
    var lat3, lon3 := lat2 + g as real * UnitLatLv3, lon2 + h as real * UnitLonLv3;
    var lat4, lon4 := lat3 + QuadLat(i, UnitLatLv4), lon3 + QuadLon(i, UnitLonLv4);
    var lat5, lon5 := lat4 + QuadLat(j, UnitLatLv5), lon4 + QuadLon(j, UnitLonLv5);
    match level
    case Lv1 => (0.0, 0.0)
    case X40 => (QuadLat(e, UnitLat40000), QuadLon(e, UnitLon40000))
    case X20 =>
      (QuadLat(e, UnitLat40000) + QuadLat(f, UnitLat20000),
       QuadLon(e, UnitLon40000) + QuadLon(f, UnitLon20000))
    case X16 => ((e / 2) as real * UnitLat16000, (f / 2) as real * UnitLon16000)
    case X8 => (e as real * UnitLat8000, f as real * UnitLon8000)
    case X4 =>
      (e as real * UnitLat8000 + QuadLat(h, UnitLat4000),
       f as real * UnitLon8000 + QuadLon(h, UnitLon4000))
    case Lv2 => (lat2, lon2)
    case X5 => (lat2 + QuadLat(g, UnitLat5000), lon2 + QuadLon(g, UnitLon5000))
    case X2_5 =>
      (lat2 + QuadLat(g, UnitLat5000) + QuadLat(h, UnitLat2500),
       lon2 + QuadLon(g, UnitLon5000) + QuadLon(h, UnitLon2500))
    case X2 => (lat2 + (g / 2) as real * UnitLat2000, lon2 + (h / 2) as real * UnitLon2000)
    case Lv3 => (lat3, lon3)
    case Lv4 => (lat4, lon4)
    case Lv5 => (lat5, lon5)
    case Lv6 => (lat5 + QuadLat(k, UnitLatLv6), lon5 + QuadLon(k, UnitLonLv6))
  }

  /** The south-west corner of the cell a code denotes at the given level:
      the first-level corner from `ab` and `cd`, plus the finer offset. */
  function SouthWest(code: nat, level: MeshLevel): (real, real) {
    Corner(level, Slice(code, 0, 2), Slice(code, 2, 4), Slice(code, 4, 5), Slice(code, 5, 6),
           Slice(code, 6, 7), Slice(code, 7, 8), Slice(code, 8, 9), Slice(code, 9, 10), Slice(code, 10, 11))
  }

  function Corner(level: MeshLevel, ab: nat, cd: nat, e: nat, f: nat, g: nat, h: nat, i: nat, j: nat, k: nat)
    : (real, real)
  {
    var off := Offset(level, e, f, g, h, i, j, k);
    (ab as real * UnitLatLv1 + off.0, cd as real * UnitLonLv1 + 100.0 + off.1)
  }

  /** The per-level form of the step is the level's cell size times the multipliers. */
  lemma ScaleIsUnitTimesMultiplier(level: MeshLevel, mlat: real, mlon: real)
    ensures Scale(level, mlat, mlon).0 == UnitLat(level) * mlat
    ensures Scale(level, mlat, mlon).1 == UnitLon(level) * mlon
  {
    match level
    case Lv1 =>
    case X40 =>
    case X20 =>
    case X16 =>
    case Lv2 =>
    case X8 =>
    case X5 =>
    case X4 =>
    case X2_5 =>
    case X2 =>
    case Lv3 =>
    case Lv4 =>
    case Lv5 =>
    case Lv6 =>
  }

  /** The point at fractions (mlat, mlon) of the cell's size from its
      south-west corner. */
  function MeshPoint(code: nat, level: MeshLevel, mlat: real, mlon: real): (real, real) {
    var sw := SouthWest(code, level);
    var step := Scale(level, mlat, mlon);
    (sw.0 + step.0, sw.1 + step.1)
  }

  /** The cell size of a level times the two multipliers, written level by
      level so that each case is a product with a constant. */
  function Scale(level: MeshLevel, mlat: real, mlon: real): (real, real) {
    match level
    case Lv1 => (UnitLatLv1 * mlat, UnitLonLv1 * mlon)
    case X40 => (UnitLat40000 * mlat, UnitLon40000 * mlon)
    case X20 => (UnitLat20000 * mlat, UnitLon20000 * mlon)
    case X16 => (UnitLat16000 * mlat, UnitLon16000 * mlon)
    case Lv2 => (UnitLatLv2 * mlat, UnitLonLv2 * mlon)
    case X8 => (UnitLat8000 * mlat, UnitLon8000 * mlon)
    case X5 => (UnitLat5000 * mlat, UnitLon5000 * mlon)
    case X4 => (UnitLat4000 * mlat, UnitLon4000 * mlon)
    case X2_5 => (UnitLat2500 * mlat, UnitLon2500 * mlon)
    case X2 => (UnitLat2000 * mlat, UnitLon2000 * mlon)
    case Lv3 => (UnitLatLv3 * mlat, UnitLonLv3 * mlon)
    case Lv4 => (UnitLatLv4 * mlat, UnitLonLv4 * mlon)
    case Lv5 => (UnitLatLv5 * mlat, UnitLonLv5 * mlon)
    case Lv6 => (UnitLatLv6 * mlat, UnitLonLv6 * mlon)
  }

  /** The multiplier index for element `idx`: the last multiplier serves
      every element beyond the end of a shorter multiplier array. */
  function Clamp(idx: nat, len: nat): (c: nat)
    requires len > 0
    ensures c < len
    ensures idx < len ==> c == idx
    ensures idx >= len ==> c == len - 1
  {
    if idx < len - 1 then idx else len - 1
  }

  /** Indexing the multipliers is meaningful once some code has a level. */
  predicate DecodeDefined(codes: seq<nat>, latMult: seq<real>, lonMult: seq<real>) {
    InferBatch(codes).Err? || |codes| == 0 || (|latMult| > 0 && |lonMult| > 0)
  }

  /** The points of a batch whose levels and digits are already extracted. */
  function Points(levels: seq<MeshLevel>, ab: seq<nat>, cd: seq<nat>, e: seq<nat>, f: seq<nat>,
                  g: seq<nat>, h: seq<nat>, i: seq<nat>, j: seq<nat>, k: seq<nat>,
                  latMult: seq<real>, lonMult: seq<real>): (ps: seq<(real, real)>)
    requires |ab| == |cd| == |e| == |f| == |g| == |h| == |i| == |j| == |k| == |levels|
    requires |levels| == 0 || (|latMult| > 0 && |lonMult| > 0)
    ensures |ps| == |levels|
  {
    seq(|levels|, t requires 0 <= t < |levels| =>
      var corner := Corner(levels[t], ab[t], cd[t], e[t], f[t], g[t], h[t], i[t], j[t], k[t]);
      var step := Scale(levels[t], latMult[Clamp(t, |latMult|)], lonMult[Clamp(t, |lonMult|)]);
      (corner.0 + step.0, corner.1 + step.1))
  }

  /** The result of the batch decoder: the inference error, or one point per
      code, at the code's own level. */
  function DecodeBatch(codes: seq<nat>, latMult: seq<real>, lonMult: seq<real>): (r: Result<seq<(real, real)>>)
    requires DecodeDefined(codes, latMult, lonMult)
    ensures r.Err? <==> InferBatch(codes).Err?
    ensures r.Err? ==> r.error == InferBatch(codes).error
    ensures r.Ok? ==> |r.value| == |codes|
  {
    match InferBatch(codes)
    case Err(e) => Err(e)
    case Ok(levels) =>
      Ok(Points(levels, SliceBatch(codes, 0, 2), SliceBatch(codes, 2, 4), SliceBatch(codes, 4, 5),
                SliceBatch(codes, 5, 6), SliceBatch(codes, 6, 7), SliceBatch(codes, 7, 8),
                SliceBatch(codes, 8, 9), SliceBatch(codes, 9, 10), SliceBatch(codes, 10, 11),
                latMult, lonMult))
  }

  /** Every decoded point is the mesh point of its code at the level inferred
      for it, with the multipliers clamped to the last one. */
  lemma DecodeBatchPoints(codes: seq<nat>, latMult: seq<real>, lonMult: seq<real>, t: nat)
    requires DecodeDefined(codes, latMult, lonMult)
    requires DecodeBatch(codes, latMult, lonMult).Ok? && t < |codes|
    ensures |latMult| > 0 && |lonMult| > 0 && LevelOf(codes[t]).Ok?
    ensures DecodeBatch(codes, latMult, lonMult).value[t] ==
      MeshPoint(codes[t], LevelOf(codes[t]).value, latMult[Clamp(t, |latMult|)], lonMult[Clamp(t, |lonMult|)])
  {
  }

  /** A single code with a level decodes to its mesh point at the given multipliers. */
  lemma DecodeSingle(code: nat, mlat: real, mlon: real)
    requires code != 0 && LevelOf(code).Ok?
    ensures DecodeDefined([code], [mlat], [mlon])
    ensures DecodeBatch([code], [mlat], [mlon]) == Ok([MeshPoint(code, LevelOf(code).value, mlat, mlon)])
  {
    assert [code][0] == code;
    assert InferBatch([code]).Ok?;
    var r := DecodeBatch([code], [mlat], [mlon]);
    DecodeBatchPoints([code], [mlat], [mlon], 0);
    assert r.value == [r.value[0]];
  }

  /** A batch of one code repeated, with multiplier arrays whose every element
      is the same pair: every element decodes to the same point. */
  lemma RepeatedCode(codes: seq<nat>, code: nat, latMult: seq<real>, lonMult: seq<real>, mlat: real, mlon: real)
    requires code != 0 && LevelOf(code).Ok?
    requires forall t :: 0 <= t < |codes| ==> codes[t] == code
    requires |latMult| > 0 && forall t :: 0 <= t < |latMult| ==> latMult[t] == mlat
    requires |lonMult| > 0 && forall t :: 0 <= t < |lonMult| ==> lonMult[t] == mlon
    ensures DecodeDefined(codes, latMult, lonMult)
    ensures DecodeBatch(codes, latMult, lonMult).Ok?
    ensures forall t :: 0 <= t < |codes| ==>
      DecodeBatch(codes, latMult, lonMult).value[t] == MeshPoint(code, LevelOf(code).value, mlat, mlon)
  {
    assert 0 !in codes;
    assert InferBatch(codes).Ok?;
    forall t | 0 <= t < |codes|
      ensures DecodeBatch(codes, latMult, lonMult).value[t] == MeshPoint(code, LevelOf(code).value, mlat, mlon)
    {
      DecodeBatchPoints(codes, latMult, lonMult, t);
    }
  }

  /** Multipliers 0 give the south-west corner; multipliers 1 give the
      north-east corner, one cell size further in each direction. */
  lemma MeshPointCorners(code: nat, level: MeshLevel)
    ensures MeshPoint(code, level, 0.0, 0.0).0 == SouthWest(code, level).0
    ensures MeshPoint(code, level, 0.0, 0.0).1 == SouthWest(code, level).1
    ensures MeshPoint(code, level, 1.0, 1.0).0 == SouthWest(code, level).0 + UnitLat(level)
    ensures MeshPoint(code, level, 1.0, 1.0).1 == SouthWest(code, level).1 + UnitLon(level)
  {
    ScaleIsUnitTimesMultiplier(level, 0.0, 0.0);
    ScaleIsUnitTimesMultiplier(level, 1.0, 1.0);
  }

  /** Once the digit groups of a code are known, its south-west corner is the
      corner they lay out. */
  lemma SouthWestBySlices(code: nat, level: MeshLevel, ab: nat, cd: nat, e: nat, f: nat, g: nat, h: nat,
                          i: nat, j: nat, k: nat)
    requires Slice(code, 0, 2) == ab && Slice(code, 2, 4) == cd && Slice(code, 4, 5) == e
    requires Slice(code, 5, 6) == f && Slice(code, 6, 7) == g && Slice(code, 7, 8) == h
    requires Slice(code, 8, 9) == i && Slice(code, 9, 10) == j && Slice(code, 10, 11) == k
    ensures SouthWest(code, level) == Corner(level, ab, cd, e, f, g, h, i, j, k)
  {
  }

  /** Every offset within a first-level cell points north and east. */
  lemma OffsetNonNegative(level: MeshLevel, e: nat, f: nat, g: nat, h: nat, i: nat, j: nat, k: nat)
    ensures Offset(level, e, f, g, h, i, j, k).0 >= 0.0 && Offset(level, e, f, g, h, i, j, k).1 >= 0.0
  {
    QuadNonNegative(e, UnitLat40000, UnitLon40000);
    QuadNonNegative(f, UnitLat20000, UnitLon20000);
    QuadNonNegative(g, UnitLat5000, UnitLon5000);
    QuadNonNegative(h, UnitLat2500, UnitLon2500);
    QuadNonNegative(h, UnitLat4000, UnitLon4000);
    QuadNonNegative(i, UnitLatLv4, UnitLonLv4);
    QuadNonNegative(j, UnitLatLv5, UnitLonLv5);
    QuadNonNegative(k, UnitLatLv6, UnitLonLv6);
  }

  /** A quadrant digit never selects a southern or western offset. */
  lemma QuadNonNegative(d: nat, unitLat: real, unitLon: real)
    requires unitLat >= 0.0 && unitLon >= 0.0
    ensures QuadLat(d, unitLat) >= 0.0 && QuadLon(d, unitLon) >= 0.0
  {
  }

  /** A code with at least two digits lies in the tenth latitude band
      (20/3 degrees) or north of it, and east of 100 degrees. */
  lemma SouthWestBound(code: nat, level: MeshLevel)
    requires NumDigits(code) >= 2
    ensures SouthWest(code, level).0 >= 20.0 / 3.0 && SouthWest(code, level).1 >= 100.0
  {
    LeadingPairBound(code);
    OffsetNonNegative(level, Slice(code, 4, 5), Slice(code, 5, 6), Slice(code, 6, 7), Slice(code, 7, 8),
                      Slice(code, 8, 9), Slice(code, 9, 10), Slice(code, 10, 11));
  }

  // ---------------------------------------------------------------- the lattice of corners

  /** A whole number of units. */
  function Multiple(n: int, unit: real): real {
    n as real * unit
  }

  /** 1 when a quadrant digit selects a northern half, else 0. */
  function North(d: nat): (b: nat)
    ensures b <= 1
  {
    if d / 3 == 1 then 1 else 0
  }

  /** 1 when a quadrant digit selects an eastern half, else 0. */
  function East(d: nat): (b: nat)
    ensures b <= 1
  {
    if d % 2 == 0 then 1 else 0
  }

  /** The row of a corner on the lattice of its level's cells, counted in
      cell heights from the equator: the digits weighted by how many cells
      of the level each of their steps spans. */
  function CornerRow(level: MeshLevel, ab: nat, e: nat, f: nat, g: nat, h: nat, i: nat, j: nat, k: nat): int {
    match level
    case Lv1 => ab
    case X40 => ab * 2 + North(e)
    case X20 => ab * 4 + North(e) * 2 + North(f)
    case X16 => ab * 5 + e / 2
    case Lv2 => ab * 8 + e
    case X8 => ab * 10 + e
    case X5 => ab * 16 + e * 2 + North(g)
    case X4 => ab * 20 + e * 2 + North(h)
    case X2_5 => ab * 32 + e * 4 + North(g) * 2 + North(h)
    case X2 => ab * 40 + e * 5 + g / 2
    case Lv3 => ab * 80 + e * 10 + g
    case Lv4 => ab * 160 + e * 20 + g * 2 + North(i)
    case Lv5 => ab * 320 + e * 40 + g * 4 + North(i) * 2 + North(j)
    case Lv6 => ab * 640 + e * 80 + g * 8 + North(i) * 4 + North(j) * 2 + North(k)
  }

  /** The column of a corner on the lattice of its level's cells, counted in
      cell widths from the prime meridian. */
  function CornerColumn(level: MeshLevel, cd: nat, e: nat, f: nat, g: nat, h: nat, i: nat, j: nat, k: nat): int {
    var degrees := cd + 100;
    match level
    case Lv1 => degrees
    case X40 => degrees * 2 + East(e)
    case X20 => degrees * 4 + East(e) * 2 + East(f)
    case X16 => degrees * 5 + f / 2
    case Lv2 => degrees * 8 + f
    case X8 => degrees * 10 + f
    case X5 => degrees * 16 + f * 2 + East(g)
    case X4 => degrees * 20 + f * 2 + East(h)
    case X2_5 => degrees * 32 + f * 4 + East(g) * 2 + East(h)
    case X2 => degrees * 40 + f * 5 + h / 2
    case Lv3 => degrees * 80 + f * 10 + h
    case Lv4 => degrees * 160 + f * 20 + h * 2 + East(i)
    case Lv5 => degrees * 320 + f * 40 + h * 4 + East(i) * 2 + East(j)
    case Lv6 => degrees * 640 + f * 80 + h * 8 + East(i) * 4 + East(j) * 2 + East(k)
  }

  /** A quadrant offset is a whole number of half cells. */
  lemma QuadIsHalfCount(d: nat, unitLat: real, unitLon: real)
    ensures QuadLat(d, unitLat) == North(d) as real * unitLat
    ensures QuadLon(d, unitLon) == East(d) as real * unitLon
  {
  }

  /** The corner the digits lay out is a whole number of the level's cell
      heights north of the equator and of its cell widths east of the
      prime meridian. */
  predicate OnLattice(level: MeshLevel, ab: nat, cd: nat, e: nat, f: nat, g: nat, h: nat, i: nat, j: nat, k: nat) {
    && Corner(level, ab, cd, e, f, g, h, i, j, k).0 == Multiple(CornerRow(level, ab, e, f, g, h, i, j, k), UnitLat(level))
    && Corner(level, ab, cd, e, f, g, h, i, j, k).1 == Multiple(CornerColumn(level, cd, e, f, g, h, i, j, k), UnitLon(level))
  }

  /** Every corner lies on its level's lattice, level by level. */
  lemma CornerOnLattice(level: MeshLevel, ab: nat, cd: nat, e: nat, f: nat, g: nat, h: nat, i: nat, j: nat, k: nat)
    ensures OnLattice(level, ab, cd, e, f, g, h, i, j, k)
  {
    match level
    case Lv1 => CornerOnLatticeLv1(ab, cd, e, f, g, h, i, j, k);
    case X40 => CornerOnLatticeX40(ab, cd, e, f, g, h, i, j, k);
    case X20 => CornerOnLatticeX20(ab, cd, e, f, g, h, i, j, k);
    case X16 => CornerOnLatticeX16(ab, cd, e, f, g, h, i, j, k);
    case Lv2 => CornerOnLatticeLv2(ab, cd, e, f, g, h, i, j, k);
    case X8 => CornerOnLatticeX8(ab, cd, e, f, g, h, i, j, k);
    case X5 => CornerOnLatticeX5(ab, cd, e, f, g, h, i, j, k);
    case X4 => CornerOnLatticeX4(ab, cd, e, f, g, h, i, j, k);
    case X2_5 => CornerOnLatticeX2_5(ab, cd, e, f, g, h, i, j, k);
    case X2 => CornerOnLatticeX2(ab, cd, e, f, g, h, i, j, k);
    case Lv3 => CornerOnLatticeLv3(ab, cd, e, f, g, h, i, j, k);
    case Lv4 => CornerOnLatticeLv4(ab, cd, e, f, g, h, i, j, k);
    case Lv5 => CornerOnLatticeLv5(ab, cd, e, f, g, h, i, j, k);
    case Lv6 => CornerOnLatticeLv6(ab, cd, e, f, g, h, i, j, k);
  }

  lemma CornerOnLatticeLv1(ab: nat, cd: nat, e: nat, f: nat, g: nat, h: nat, i: nat, j: nat, k: nat)
    ensures OnLattice(Lv1, ab, cd, e, f, g, h, i, j, k)
  {
  }

  lemma CornerOnLatticeX40(ab: nat, cd: nat, e: nat, f: nat, g: nat, h: nat, i: nat, j: nat, k: nat)
    ensures OnLattice(X40, ab, cd, e, f, g, h, i, j, k)
  {
    QuadIsHalfCount(e, UnitLat40000, UnitLon40000);
  }

  lemma CornerOnLatticeX20(ab: nat, cd: nat, e: nat, f: nat, g: nat, h: nat, i: nat, j: nat, k: nat)
    ensures OnLattice(X20, ab, cd, e, f, g, h, i, j, k)
  {
    QuadIsHalfCount(e, UnitLat40000, UnitLon40000);
    QuadIsHalfCount(f, UnitLat20000, UnitLon20000);
  }

  lemma CornerOnLatticeX16(ab: nat, cd: nat, e: nat, f: nat, g: nat, h: nat, i: nat, j: nat, k: nat)
    ensures OnLattice(X16, ab, cd, e, f, g, h, i, j, k)
  {
  }

  lemma CornerOnLatticeLv2(ab: nat, cd: nat, e: nat, f: nat, g: nat, h: nat, i: nat, j: nat, k: nat)
    ensures OnLattice(Lv2, ab, cd, e, f, g, h, i, j, k)
  {
  }

  lemma CornerOnLatticeX8(ab: nat, cd: nat, e: nat, f: nat, g: nat, h: nat, i: nat, j: nat, k: nat)
    ensures OnLattice(X8, ab, cd, e, f, g, h, i, j, k)
  {
  }

  lemma CornerOnLatticeX5(ab: nat, cd: nat, e: nat, f: nat, g: nat, h: nat, i: nat, j: nat, k: nat)
    ensures OnLattice(X5, ab, cd, e, f, g, h, i, j, k)
  {
    QuadIsHalfCount(g, UnitLat5000, UnitLon5000);
  }

  lemma CornerOnLatticeX4(ab: nat, cd: nat, e: nat, f: nat, g: nat, h: nat, i: nat, j: nat, k: nat)
    ensures OnLattice(X4, ab, cd, e, f, g, h, i, j, k)
  {
    QuadIsHalfCount(h, UnitLat4000, UnitLon4000);
  }

  lemma CornerOnLatticeX2_5(ab: nat, cd: nat, e: nat, f: nat, g: nat, h: nat, i: nat, j: nat, k: nat)
    ensures OnLattice(X2_5, ab, cd, e, f, g, h, i, j, k)
  {
    QuadIsHalfCount(g, UnitLat5000, UnitLon5000);
    QuadIsHalfCount(h, UnitLat2500, UnitLon2500);
  }

  lemma CornerOnLatticeX2(ab: nat, cd: nat, e: nat, f: nat, g: nat, h: nat, i: nat, j: nat, k: nat)
    ensures OnLattice(X2, ab, cd, e, f, g, h, i, j, k)
  {
    FifthsOfSecondLevel(ab, e, g / 2, UnitLatLv1, UnitLatLv2, UnitLat2000);
    FifthsOfSecondLevel(cd + 100, f, h / 2, UnitLonLv1, UnitLonLv2, UnitLon2000);
  }

  /** Whole first-level cells, second-level cells and fifths of these, in
      units of the fifths. */
  lemma FifthsOfSecondLevel(a: int, b: int, c: int, unit1: real, unit2: real, unit: real)
    requires unit2 == unit * 5.0 && unit1 == unit2 * 8.0
    ensures Multiple(a * 40 + b * 5 + c, unit) == a as real * unit1 + b as real * unit2 + c as real * unit
  {
  }

  lemma CornerOnLatticeLv3(ab: nat, cd: nat, e: nat, f: nat, g: nat, h: nat, i: nat, j: nat, k: nat)
    ensures OnLattice(Lv3, ab, cd, e, f, g, h, i, j, k)
  {
  }

  lemma CornerOnLatticeLv4(ab: nat, cd: nat, e: nat, f: nat, g: nat, h: nat, i: nat, j: nat, k: nat)
    ensures OnLattice(Lv4, ab, cd, e, f, g, h, i, j, k)
  {
    QuadIsHalfCount(i, UnitLatLv4, UnitLonLv4);
  }

  lemma CornerOnLatticeLv5(ab: nat, cd: nat, e: nat, f: nat, g: nat, h: nat, i: nat, j: nat, k: nat)
    ensures OnLattice(Lv5, ab, cd, e, f, g, h, i, j, k)
  {
    QuadIsHalfCount(i, UnitLatLv4, UnitLonLv4);
    QuadIsHalfCount(j, UnitLatLv5, UnitLonLv5);
  }

  lemma CornerOnLatticeLv6(ab: nat, cd: nat, e: nat, f: nat, g: nat, h: nat, i: nat, j: nat, k: nat)
    ensures OnLattice(Lv6, ab, cd, e, f, g, h, i, j, k)
  {
    QuadIsHalfCount(i, UnitLatLv4, UnitLonLv4);
    QuadIsHalfCount(j, UnitLatLv5, UnitLonLv5);
    QuadIsHalfCount(k, UnitLatLv6, UnitLonLv6);
  }

  /** The lattice row and column of a code's cell at a level. */
  function LatticeRow(code: nat, level: MeshLevel): int {
    CornerRow(level, Slice(code, 0, 2), Slice(code, 4, 5), Slice(code, 5, 6), Slice(code, 6, 7),
              Slice(code, 7, 8), Slice(code, 8, 9), Slice(code, 9, 10), Slice(code, 10, 11))
  }

  function LatticeColumn(code: nat, level: MeshLevel): int {
    CornerColumn(level, Slice(code, 2, 4), Slice(code, 4, 5), Slice(code, 5, 6), Slice(code, 6, 7),
                 Slice(code, 7, 8), Slice(code, 8, 9), Slice(code, 9, 10), Slice(code, 10, 11))
  }

  /** Every cell's south-west corner lies on its level's lattice: the cells
      of one level tile the plane, whatever the digits. */
  lemma SouthWestOnLattice(code: nat, level: MeshLevel)
    ensures SouthWest(code, level).0 == Multiple(LatticeRow(code, level), UnitLat(level))
    ensures SouthWest(code, level).1 == Multiple(LatticeColumn(code, level), UnitLon(level))
  {
    var ab, cd, e, f := Slice(code, 0, 2), Slice(code, 2, 4), Slice(code, 4, 5), Slice(code, 5, 6);
    var g, h, i, j, k := Slice(code, 6, 7), Slice(code, 7, 8), Slice(code, 8, 9), Slice(code, 9, 10), Slice(code, 10, 11);
    CornerOnLattice(level, ab, cd, e, f, g, h, i, j, k);
  }

  // ---------------------------------------------------------------- the decoder's steps

  method ApplyBaseAdjustment(idx: nat, ab: seq<nat>, cd: seq<nat>, lat: array<real>, lon: array<real>)
    requires idx < |ab| && idx < |cd| && idx < lat.Length && idx < lon.Length && lat != lon
    modifies lat, lon
    ensures lat[..] == old(lat[..])[idx := ab[idx] as real * UnitLatLv1]
    ensures lon[..] == old(lon[..])[idx := cd[idx] as real * UnitLonLv1 + 100.0]
  {
    lat[idx] := ab[idx] as real * UnitLatLv1;
    lon[idx] := cd[idx] as real * UnitLonLv1 + 100.0;
  }

  /** The quadrant step shared by the subdivisions into halves: digits 3 and
      4 add half a cell northwards, digits 2 and 4 half a cell eastwards. */
  method ApplyQuadrant(idx: nat, d: nat, unitLat: real, unitLon: real, lat: array<real>, lon: array<real>)
    requires idx < lat.Length && idx < lon.Length && lat != lon
    modifies lat, lon
    ensures lat[..] == old(lat[..])[idx := old(lat[idx]) + QuadLat(d, unitLat)]
    ensures lon[..] == old(lon[..])[idx := old(lon[idx]) + QuadLon(d, unitLon)]
  {
    if d / 3 == 1 {
      lat[idx] := lat[idx] + unitLat;
    }
    if d % 2 == 0 {
      lon[idx] := lon[idx] + unitLon;
    }
  }

  method ApplyLevel40000(idx: nat, e: seq<nat>, lat: array<real>, lon: array<real>)
    requires idx < |e| && idx < lat.Length && idx < lon.Length && lat != lon
    modifies lat, lon
    ensures lat[..] == old(lat[..])[idx := old(lat[idx]) + QuadLat(e[idx], UnitLat40000)]
    ensures lon[..] == old(lon[..])[idx := old(lon[idx]) + QuadLon(e[idx], UnitLon40000)]
  {
    ApplyQuadrant(idx, e[idx], UnitLat40000, UnitLon40000, lat, lon);
  }

  method ApplyLevel2(idx: nat, e: seq<nat>, f: seq<nat>, lat: array<real>, lon: array<real>)
    requires idx < |e| && idx < |f| && idx < lat.Length && idx < lon.Length && lat != lon
    modifies lat, lon
    ensures lat[..] == old(lat[..])[idx := old(lat[idx]) + e[idx] as real * UnitLatLv2]
    ensures lon[..] == old(lon[..])[idx := old(lon[idx]) + f[idx] as real * UnitLonLv2]
  {
    lat[idx] := lat[idx] + e[idx] as real * UnitLatLv2;
    lon[idx] := lon[idx] + f[idx] as real * UnitLonLv2;
  }

  method ApplyLevel3(idx: nat, e: seq<nat>, f: seq<nat>, g: seq<nat>, h: seq<nat>,
                     lat: array<real>, lon: array<real>)
    requires idx < |e| && idx < |f| && idx < |g| && idx < |h|
    requires idx < lat.Length && idx < lon.Length && lat != lon
    modifies lat, lon
    ensures lat[..] == old(lat[..])[idx := old(lat[idx]) + (e[idx] as real * UnitLatLv2
                                                          + g[idx] as real * UnitLatLv3)]
    ensures lon[..] == old(lon[..])[idx := old(lon[idx]) + (f[idx] as real * UnitLonLv2
                                                          + h[idx] as real * UnitLonLv3)]
  {
    ApplyLevel2(idx, e, f, lat, lon);
    lat[idx] := lat[idx] + g[idx] as real * UnitLatLv3;
    lon[idx] := lon[idx] + h[idx] as real * UnitLonLv3;
  }

  method ApplyLevel4(idx: nat, e: seq<nat>, f: seq<nat>, g: seq<nat>, h: seq<nat>, i: seq<nat>,
                     lat: array<real>, lon: array<real>)
    requires idx < |e| && idx < |f| && idx < |g| && idx < |h| && idx < |i|
    requires idx < lat.Length && idx < lon.Length && lat != lon
    modifies lat, lon
    ensures lat[..] == old(lat[..])[idx := old(lat[idx]) + (e[idx] as real * UnitLatLv2
                                                          + g[idx] as real * UnitLatLv3
                                                          + QuadLat(i[idx], UnitLatLv4))]
    ensures lon[..] == old(lon[..])[idx := old(lon[idx]) + (f[idx] as real * UnitLonLv2
                                                          + h[idx] as real * UnitLonLv3
                                                          + QuadLon(i[idx], UnitLonLv4))]
  {
    ApplyLevel3(idx, e, f, g, h, lat, lon);
    ApplyQuadrant(idx, i[idx], UnitLatLv4, UnitLonLv4, lat, lon);
  }

  method ApplyLevel5(idx: nat, e: seq<nat>, f: seq<nat>, g: seq<nat>, h: seq<nat>, i: seq<nat>,
                     j: seq<nat>, lat: array<real>, lon: array<real>)
    requires idx < |e| && idx < |f| && idx < |g| && idx < |h| && idx < |i| && idx < |j|
    requires idx < lat.Length && idx < lon.Length && lat != lon
    modifies lat, lon
    ensures lat[..] == old(lat[..])[idx := old(lat[idx]) + (e[idx] as real * UnitLatLv2
                                                          + g[idx] as real * UnitLatLv3
                                                          + QuadLat(i[idx], UnitLatLv4)
                                                          + QuadLat(j[idx], UnitLatLv5))]
    ensures lon[..] == old(lon[..])[idx := old(lon[idx]) + (f[idx] as real * UnitLonLv2
                                                          + h[idx] as real * UnitLonLv3
                                                          + QuadLon(i[idx], UnitLonLv4)
                                                          + QuadLon(j[idx], UnitLonLv5))]
  {
    ApplyLevel4(idx, e, f, g, h, i, lat, lon);
    ApplyQuadrant(idx, j[idx], UnitLatLv5, UnitLonLv5, lat, lon);
  }

  /** The 20km cell: a quadrant of the 40km quadrant. */
  method ApplyLevel20000(idx: nat, e: seq<nat>, f: seq<nat>, lat: array<real>, lon: array<real>)
    requires idx < |e| && idx < |f|
    requires idx < lat.Length && idx < lon.Length && lat != lon
    modifies lat, lon
    ensures lat[..] == old(lat[..])[idx := old(lat[idx]) + (QuadLat(e[idx], UnitLat40000) + QuadLat(f[idx], UnitLat20000))]
    ensures lon[..] == old(lon[..])[idx := old(lon[idx]) + (QuadLon(e[idx], UnitLon40000) + QuadLon(f[idx], UnitLon20000))]
  {
    ApplyLevel40000(idx, e, lat, lon);
    ApplyQuadrant(idx, f[idx], UnitLat20000, UnitLon20000, lat, lon);
  }

  /** The 16km cell: even digits count fifths of the first-level cell. */
  method ApplyLevel16000(idx: nat, e: seq<nat>, f: seq<nat>, lat: array<real>, lon: array<real>)
    requires idx < |e| && idx < |f|
    requires idx < lat.Length && idx < lon.Length && lat != lon
    modifies lat, lon
    ensures lat[..] == old(lat[..])[idx := old(lat[idx]) + (e[idx] / 2) as real * UnitLat16000]
    ensures lon[..] == old(lon[..])[idx := old(lon[idx]) + (f[idx] / 2) as real * UnitLon16000]
  {
    lat[idx] := lat[idx] + (e[idx] / 2) as real * UnitLat16000;
    lon[idx] := lon[idx] + (f[idx] / 2) as real * UnitLon16000;
  }

  /** The 8km cell: tenths of the first-level cell. */
  method ApplyLevel8000(idx: nat, e: seq<nat>, f: seq<nat>, lat: array<real>, lon: array<real>)
    requires idx < |e| && idx < |f|
    requires idx < lat.Length && idx < lon.Length && lat != lon
    modifies lat, lon
    ensures lat[..] == old(lat[..])[idx := old(lat[idx]) + e[idx] as real * UnitLat8000]
    ensures lon[..] == old(lon[..])[idx := old(lon[idx]) + f[idx] as real * UnitLon8000]
  {
    lat[idx] := lat[idx] + e[idx] as real * UnitLat8000;
    lon[idx] := lon[idx] + f[idx] as real * UnitLon8000;
  }

  /** The 4km cell: a quadrant of the 8km cell. */
  method ApplyLevel4000(idx: nat, e: seq<nat>, f: seq<nat>, h: seq<nat>, lat: array<real>, lon: array<real>)
    requires idx < |e| && idx < |f| && idx < |h|
    requires idx < lat.Length && idx < lon.Length && lat != lon
    modifies lat, lon
    ensures lat[..] == old(lat[..])[idx := old(lat[idx]) + (e[idx] as real * UnitLat8000 + QuadLat(h[idx], UnitLat4000))]
    ensures lon[..] == old(lon[..])[idx := old(lon[idx]) + (f[idx] as real * UnitLon8000 + QuadLon(h[idx], UnitLon4000))]
  {
    ApplyLevel8000(idx, e, f, lat, lon);
    ApplyQuadrant(idx, h[idx], UnitLat4000, UnitLon4000, lat, lon);
  }

  /** The 5km cell: a quadrant of the second-level cell. */
  method ApplyLevel5000(idx: nat, e: seq<nat>, f: seq<nat>, g: seq<nat>, lat: array<real>, lon: array<real>)
    requires idx < |e| && idx < |f| && idx < |g|
    requires idx < lat.Length && idx < lon.Length && lat != lon
    modifies lat, lon
    ensures lat[..] == old(lat[..])[idx := old(lat[idx]) + (e[idx] as real * UnitLatLv2 + QuadLat(g[idx], UnitLat5000))]
    ensures lon[..] == old(lon[..])[idx := old(lon[idx]) + (f[idx] as real * UnitLonLv2 + QuadLon(g[idx], UnitLon5000))]
  {
    ApplyLevel2(idx, e, f, lat, lon);
    ApplyQuadrant(idx, g[idx], UnitLat5000, UnitLon5000, lat, lon);
  }

  /** The 2.5km cell: a quadrant of the 5km cell. */
  method ApplyLevel2500(idx: nat, e: seq<nat>, f: seq<nat>, g: seq<nat>, h: seq<nat>, lat: array<real>, lon: array<real>)
    requires idx < |e| && idx < |f| && idx < |g| && idx < |h|
    requires idx < lat.Length && idx < lon.Length && lat != lon
    modifies lat, lon
    ensures lat[..] == old(lat[..])[idx := old(lat[idx]) + (e[idx] as real * UnitLatLv2 + QuadLat(g[idx], UnitLat5000) + QuadLat(h[idx], UnitLat2500))]
    ensures lon[..] == old(lon[..])[idx := old(lon[idx]) + (f[idx] as real * UnitLonLv2 + QuadLon(g[idx], UnitLon5000) + QuadLon(h[idx], UnitLon2500))]
  {
    ApplyLevel5000(idx, e, f, g, lat, lon);
    ApplyQuadrant(idx, h[idx], UnitLat2500, UnitLon2500, lat, lon);
  }

  /** The 2km cell: even digits count fifths of the second-level cell. */
  method ApplyLevel2000(idx: nat, e: seq<nat>, f: seq<nat>, g: seq<nat>, h: seq<nat>, lat: array<real>, lon: array<real>)
    requires idx < |e| && idx < |f| && idx < |g| && idx < |h|
    requires idx < lat.Length && idx < lon.Length && lat != lon
    modifies lat, lon
    ensures lat[..] == old(lat[..])[idx := old(lat[idx]) + (e[idx] as real * UnitLatLv2 + (g[idx] / 2) as real * UnitLat2000)]
    ensures lon[..] == old(lon[..])[idx := old(lon[idx]) + (f[idx] as real * UnitLonLv2 + (h[idx] / 2) as real * UnitLon2000)]
  {
    ApplyLevel2(idx, e, f, lat, lon);
    lat[idx] := lat[idx] + (g[idx] / 2) as real * UnitLat2000;
    lon[idx] := lon[idx] + (h[idx] / 2) as real * UnitLon2000;
  }

  /** The sixth-level cell: a quadrant of the fifth-level cell. */
  method ApplyLevel6(idx: nat, e: seq<nat>, f: seq<nat>, g: seq<nat>, h: seq<nat>, i: seq<nat>, j: seq<nat>, k: seq<nat>, lat: array<real>, lon: array<real>)
    requires idx < |e| && idx < |f| && idx < |g| && idx < |h| && idx < |i| && idx < |j| && idx < |k|
    requires idx < lat.Length && idx < lon.Length && lat != lon
    modifies lat, lon
    ensures lat[..] == old(lat[..])[idx := old(lat[idx]) + (e[idx] as real * UnitLatLv2 + g[idx] as real * UnitLatLv3 + QuadLat(i[idx], UnitLatLv4) + QuadLat(j[idx], UnitLatLv5) + QuadLat(k[idx], UnitLatLv6))]
    ensures lon[..] == old(lon[..])[idx := old(lon[idx]) + (f[idx] as real * UnitLonLv2 + h[idx] as real * UnitLonLv3 + QuadLon(i[idx], UnitLonLv4) + QuadLon(j[idx], UnitLonLv5) + QuadLon(k[idx], UnitLonLv6))]
  {
    ApplyLevel5(idx, e, f, g, h, i, j, lat, lon);
    ApplyQuadrant(idx, k[idx], UnitLatLv6, UnitLonLv6, lat, lon);
  }

  method ApplyMultipliers(idx: nat, level: MeshLevel, latMult: seq<real>, lonMult: seq<real>,
                          lat: array<real>, lon: array<real>)
    requires |latMult| > 0 && |lonMult| > 0
    requires idx < lat.Length && idx < lon.Length && lat != lon
    modifies lat, lon
    ensures lat[..] == old(lat[..])[idx := old(lat[idx]) + Scale(level, latMult[Clamp(idx, |latMult|)], lonMult[Clamp(idx, |lonMult|)]).0]
    ensures lon[..] == old(lon[..])[idx := old(lon[idx]) + Scale(level, latMult[Clamp(idx, |latMult|)], lonMult[Clamp(idx, |lonMult|)]).1]
  {
    var mlat, mlon := latMult[Clamp(idx, |latMult|)], lonMult[Clamp(idx, |lonMult|)];
    ScaleIsUnitTimesMultiplier(level, mlat, mlon);
    lat[idx] := lat[idx] + UnitLat(level) * mlat;
    lon[idx] := lon[idx] + UnitLon(level) * mlon;
  }

  /** The part of the decoder's loop body that adds the offset of the code's
      own level to the first-level corner already stored at `idx`. */
  method ApplyLevel(idx: nat, level: MeshLevel, e: seq<nat>, f: seq<nat>, g: seq<nat>, h: seq<nat>,
                    i: seq<nat>, j: seq<nat>, k: seq<nat>, lat: array<real>, lon: array<real>)
    requires idx < |e| && idx < |f| && idx < |g| && idx < |h| && idx < |i| && idx < |j| && idx < |k|
    requires idx < lat.Length && idx < lon.Length && lat != lon
    modifies lat, lon
    ensures lat[..] == old(lat[..])[idx := old(lat[idx]) + Offset(level, e[idx], f[idx], g[idx], h[idx], i[idx], j[idx], k[idx]).0]
    ensures lon[..] == old(lon[..])[idx := old(lon[idx]) + Offset(level, e[idx], f[idx], g[idx], h[idx], i[idx], j[idx], k[idx]).1]
  {
    ghost var off := Offset(level, e[idx], f[idx], g[idx], h[idx], i[idx], j[idx], k[idx]);
    ghost var oldLat, oldLon := lat[..], lon[..];
    match level {
      case Lv1 =>
      case X40 => ApplyLevel40000(idx, e, lat, lon);
      case X20 => ApplyLevel20000(idx, e, f, lat, lon);
      case X16 => ApplyLevel16000(idx, e, f, lat, lon);
      case X8 => ApplyLevel8000(idx, e, f, lat, lon);
      case X4 => ApplyLevel4000(idx, e, f, h, lat, lon);
      case Lv2 => ApplyLevel2(idx, e, f, lat, lon);
      case X5 => ApplyLevel5000(idx, e, f, g, lat, lon);
      case X2_5 => ApplyLevel2500(idx, e, f, g, h, lat, lon);
      case X2 => ApplyLevel2000(idx, e, f, g, h, lat, lon);
      case Lv3 => ApplyLevel3(idx, e, f, g, h, lat, lon);
      case Lv4 => ApplyLevel4(idx, e, f, g, h, i, lat, lon);
      case Lv5 => ApplyLevel5(idx, e, f, g, h, i, j, lat, lon);
      case Lv6 => ApplyLevel6(idx, e, f, g, h, i, j, k, lat, lon);
    }
    assert lat[idx] == oldLat[idx] + off.0 && lon[idx] == oldLon[idx] + off.1;
  }

  /** One pass of the decoder's loop: the first-level corner, the level's
      offset, then the multipliers, all stored at `idx`. */
  method DecodeOne(idx: nat, level: MeshLevel, ab: seq<nat>, cd: seq<nat>, e: seq<nat>, f: seq<nat>,
                   g: seq<nat>, h: seq<nat>, i: seq<nat>, j: seq<nat>, k: seq<nat>,
                   latMult: seq<real>, lonMult: seq<real>, lat: array<real>, lon: array<real>)
    requires idx < |ab| && idx < |cd| && idx < |e| && idx < |f| && idx < |g| && idx < |h|
    requires idx < |i| && idx < |j| && idx < |k| && |latMult| > 0 && |lonMult| > 0
    requires idx < lat.Length && idx < lon.Length && lat != lon
    modifies lat, lon
    ensures lat[..] == old(lat[..])[idx :=
      Corner(level, ab[idx], cd[idx], e[idx], f[idx], g[idx], h[idx], i[idx], j[idx], k[idx]).0
      + Scale(level, latMult[Clamp(idx, |latMult|)], lonMult[Clamp(idx, |lonMult|)]).0]
    ensures lon[..] == old(lon[..])[idx :=
      Corner(level, ab[idx], cd[idx], e[idx], f[idx], g[idx], h[idx], i[idx], j[idx], k[idx]).1
      + Scale(level, latMult[Clamp(idx, |latMult|)], lonMult[Clamp(idx, |lonMult|)]).1]
  {
    ApplyBaseAdjustment(idx, ab, cd, lat, lon);
    ApplyLevel(idx, level, e, f, g, h, i, j, k, lat, lon);
    ApplyMultipliers(idx, level, latMult, lonMult, lat, lon);
  }

  /** The decoder's main loop: the point of every code, from its level and
      its extracted digits. */
  method FillPoints(level: seq<MeshLevel>, ab: seq<nat>, cd: seq<nat>, e: seq<nat>, f: seq<nat>,
                    g: seq<nat>, h: seq<nat>, i: seq<nat>, j: seq<nat>, k: seq<nat>,
                    latMult: seq<real>, lonMult: seq<real>, lat: array<real>, lon: array<real>)
    requires |ab| == |cd| == |e| == |f| == |g| == |h| == |i| == |j| == |k| == |level|
    requires lat.Length == |level| && lon.Length == |level| && lat != lon
    requires |level| == 0 || (|latMult| > 0 && |lonMult| > 0)
    modifies lat, lon
    ensures forall t :: 0 <= t < |level| ==>
      (lat[t], lon[t]) == Points(level, ab, cd, e, f, g, h, i, j, k, latMult, lonMult)[t]
  {
    for idx := 0 to |level|
      invariant forall t :: 0 <= t < idx ==>
        lat[t] == Corner(level[t], ab[t], cd[t], e[t], f[t], g[t], h[t], i[t], j[t], k[t]).0
                  + Scale(level[t], latMult[Clamp(t, |latMult|)], lonMult[Clamp(t, |lonMult|)]).0
      invariant forall t :: 0 <= t < idx ==>
        lon[t] == Corner(level[t], ab[t], cd[t], e[t], f[t], g[t], h[t], i[t], j[t], k[t]).1
                  + Scale(level[t], latMult[Clamp(t, |latMult|)], lonMult[Clamp(t, |lonMult|)]).1
    {
      DecodeOne(idx, level[idx], ab, cd, e, f, g, h, i, j, k, latMult, lonMult, lat, lon);
    }
  }

  /** Two equally long rows stacked into a 2 x n array. */
  method Stack(lat: array<real>, lon: array<real>) returns (result: array2<real>)
    requires lat.Length == lon.Length
    ensures fresh(result) && result.Length0 == 2 && result.Length1 == lat.Length
    ensures forall t :: 0 <= t < lat.Length ==> result[0, t] == lat[t] && result[1, t] == lon[t]
  {
    result := new real[2, lat.Length];
    for idx := 0 to lat.Length
      invariant forall t :: 0 <= t < idx ==> result[0, t] == lat[t] && result[1, t] == lon[t]
    {
      result[0, idx] := lat[idx];
      result[1, idx] := lon[idx];
    }
  }

  /** The decoder after level inference: the digits of every code are
      extracted, the points computed, and copied into a 2 x n array. */
  method DecodeLevels(codes: seq<nat>, level: seq<MeshLevel>, latMult: seq<real>, lonMult: seq<real>)
    returns (result: array2<real>)
    requires |level| == |codes|
    requires |codes| == 0 || (|latMult| > 0 && |lonMult| > 0)
    ensures fresh(result) && result.Length0 == 2 && result.Length1 == |codes|
    ensures forall idx :: 0 <= idx < |codes| ==>
      (result[0, idx], result[1, idx]) ==
        Points(level, SliceBatch(codes, 0, 2), SliceBatch(codes, 2, 4), SliceBatch(codes, 4, 5),
               SliceBatch(codes, 5, 6), SliceBatch(codes, 6, 7), SliceBatch(codes, 7, 8),
               SliceBatch(codes, 8, 9), SliceBatch(codes, 9, 10), SliceBatch(codes, 10, 11),
               latMult, lonMult)[idx]
  {
    var n := |codes|;
    var ab, cd := SliceBatch(codes, 0, 2), SliceBatch(codes, 2, 4);
    var e, f, g, h := SliceBatch(codes, 4, 5), SliceBatch(codes, 5, 6), SliceBatch(codes, 6, 7), SliceBatch(codes, 7, 8);
    var i, j, k := SliceBatch(codes, 8, 9), SliceBatch(codes, 9, 10), SliceBatch(codes, 10, 11);
    var lat := new real[n](_ => 0.0);
    var lon := new real[n](_ => 0.0);
    FillPoints(level, ab, cd, e, f, g, h, i, j, k, latMult, lonMult, lat, lon);
    result := Stack(lat, lon);
  }

  /** The batch decoder. Row 0 of the result holds the latitudes and row 1
      the longitudes, one column per code. */
  method ToMeshpoint(codes: seq<nat>, latMult: seq<real>, lonMult: seq<real>)
    returns (r: Result<array2<real>>)
    requires DecodeDefined(codes, latMult, lonMult)
    ensures r.Err? <==> DecodeBatch(codes, latMult, lonMult).Err?
    ensures r.Err? ==> r.error == DecodeBatch(codes, latMult, lonMult).error
    ensures r.Ok? ==> fresh(r.value) && r.value.Length0 == 2 && r.value.Length1 == |codes|
    ensures r.Ok? ==> forall idx :: 0 <= idx < |codes| ==>
      (r.value[0, idx], r.value[1, idx]) == DecodeBatch(codes, latMult, lonMult).value[idx]
  {
    var inferred := ToMeshLevel(codes);
    if inferred.Err? {
      return Err(inferred.error);
    }
    var result := DecodeLevels(codes, inferred.value, latMult, lonMult);
    return Ok(result);
  }

}
