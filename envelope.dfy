/** Envelopes: the codes at one level whose cells cover a rectangle, either
    the rectangle between two codes of the same level or the cell of one
    code seen at another level. The rectangle is sampled on a grid of points
    one target cell apart, and every grid point is encoded. */
module Envelopes {
  import opened Levels
  import opened Errors
  import opened Units
  import opened RealOps
  import opened Digits
  import opened MeshLevelInference
  import opened MeshCodes
  import opened MeshPoints
  import opened RoundTrip

  /** `x.ceil() as usize`: the least whole number at or above x, and 0 for
      every x at or below 0, where the cast saturates. */
  function CeilCount(x: real): (n: nat)
    ensures x <= 0.0 ==> n == 0
    ensures x > 0.0 ==> n > 0 && (n - 1) as real < x <= n as real
  {
    if x <= 0.0 then 0
    else if x.Floor as real == x then x.Floor
    else x.Floor + 1
  }

  /** The number of grid rows and columns between two edges. */
  function LatCount(latS: real, latN: real, level: MeshLevel): nat {
    CeilCount((latN - latS) / UnitLat(level))
  }

  function LonCount(lonW: real, lonE: real, level: MeshLevel): nat {
    CeilCount((lonE - lonW) / UnitLon(level))
  }

  /** The coordinate k cells of the given size from a start. */
  function Step(start: real, k: nat, unit: real): real {
    start + k as real * unit
  }

  /** The latitude of grid row i and the longitude of grid column j. */
  function RowLat(latS: real, i: nat, level: MeshLevel): real {
    Step(latS, i, UnitLat(level))
  }

  function ColumnLon(lonW: real, j: nat, level: MeshLevel): real {
    Step(lonW, j, UnitLon(level))
  }

  /** Element t of a grid with n columns lies in row t / n and column t % n. */
  function RowOf(t: nat, n: nat): (i: nat)
    requires n > 0
  {
    t / n
  }

  function ColumnOf(t: nat, n: nat): (j: nat)
    requires n > 0
    ensures j < n
  {
    t % n
  }

  /** One row of the grid: its latitude, once per column, and the
      longitudes of its first `count` columns. */
  function RowLats(lat: real, count: nat): (lats: seq<real>)
    ensures |lats| == count
  {
    seq(count, _ => lat)
  }

  function RowLons(lonW: real, unitLon: real, count: nat): (lons: seq<real>)
    ensures |lons| == count
  {
    seq(count, j requires 0 <= j < count => Step(lonW, j, unitLon))
  }

  /** A row grows by one column at a time. */
  lemma RowStep(lat: real, lonW: real, unitLon: real, j: nat)
    ensures RowLats(lat, j + 1) == RowLats(lat, j) + [lat]
    ensures RowLons(lonW, unitLon, j + 1) == RowLons(lonW, unitLon, j) + [Step(lonW, j, unitLon)]
  {
    assert RowLons(lonW, unitLon, j + 1)[j] == Step(lonW, j, unitLon);
  }

  /** The latitudes the nested loops push: the first `latCount` rows, each
      repeating its latitude once per column. */
  function GridLats(latS: real, unitLat: real, latCount: nat, lonCount: nat): (lats: seq<real>)
  {
    if latCount == 0 then []
    else GridLats(latS, unitLat, latCount - 1, lonCount) + RowLats(Step(latS, latCount - 1, unitLat), lonCount)
  }

  /** The longitudes the nested loops push: every row runs through the columns. */
  function GridLons(lonW: real, unitLon: real, latCount: nat, lonCount: nat): (lons: seq<real>)
  {
    if latCount == 0 then []
    else GridLons(lonW, unitLon, latCount - 1, lonCount) + RowLons(lonW, unitLon, lonCount)
  }

  lemma NextRow(i: nat, n: nat)
    ensures i * n + n == (i + 1) * n
  {
  }

  /** The grid grows by one row at a time. */
  lemma GridStep(latS: real, lonW: real, unitLat: real, unitLon: real, i: nat, lonCount: nat)
    ensures GridLats(latS, unitLat, i + 1, lonCount) == GridLats(latS, unitLat, i, lonCount) + RowLats(Step(latS, i, unitLat), lonCount)
    ensures GridLons(lonW, unitLon, i + 1, lonCount) == GridLons(lonW, unitLon, i, lonCount) + RowLons(lonW, unitLon, lonCount)
  {
  }

  /** The grid has one point per row and column. */
  lemma {:induction false} GridSize(latS: real, lonW: real, unitLat: real, unitLon: real, latCount: nat, lonCount: nat)
    ensures |GridLats(latS, unitLat, latCount, lonCount)| == latCount * lonCount
    ensures |GridLons(lonW, unitLon, latCount, lonCount)| == latCount * lonCount
  {
    if latCount > 0 {
      GridSize(latS, lonW, unitLat, unitLon, latCount - 1, lonCount);
      NextRow(latCount - 1, lonCount);
    }
  }

  /** Grid rows lie north of the first one and grid columns east of it. */
  lemma GridNorthEast(latS: real, lonW: real, i: nat, j: nat, level: MeshLevel)
    ensures RowLat(latS, i, level) >= latS && ColumnLon(lonW, j, level) >= lonW
  {
    var u, v := UnitLat(level), UnitLon(level);
    assert i as real * u >= 0.0;
    assert j as real * v >= 0.0;
  }

  lemma HalfOfUnit(u: real)
    requires u > 0.0
    ensures (u * 0.5) / u == 0.5
  {
  }

  lemma MulMonotone(a: nat, b: nat, m: nat)
    requires a <= b
    ensures a * m <= b * m
  {
  }

  /** The grid is laid out in row-major order: the point of row i and
      column j is element i * lonCount + j. */
  lemma {:induction false} GridRowMajor(latS: real, lonW: real, unitLat: real, unitLon: real,
                                        latCount: nat, lonCount: nat, i: nat, j: nat)
    requires i < latCount && j < lonCount
    ensures i * lonCount + j < latCount * lonCount
    ensures |GridLats(latS, unitLat, latCount, lonCount)| == latCount * lonCount
    ensures |GridLons(lonW, unitLon, latCount, lonCount)| == latCount * lonCount
    ensures GridLats(latS, unitLat, latCount, lonCount)[i * lonCount + j] == Step(latS, i, unitLat)
    ensures GridLons(lonW, unitLon, latCount, lonCount)[i * lonCount + j] == Step(lonW, j, unitLon)
  {
    var m := latCount - 1;
    GridSize(latS, lonW, unitLat, unitLon, m, lonCount);
    NextRow(m, lonCount);
    if i < m {
      GridRowMajor(latS, lonW, unitLat, unitLon, m, lonCount, i, j);
    } else {
      var k := i * lonCount + j - m * lonCount;
      assert i == m && k == j;
      assert RowLats(Step(latS, m, unitLat), lonCount)[k] == Step(latS, i, unitLat);
    }
  }

  /** Element i * n + j of a grid with n columns is in row i and column j. */
  lemma RowAndColumn(i: nat, j: nat, n: nat)
    requires j < n
    ensures RowOf(i * n + j, n) == i && ColumnOf(i * n + j, n) == j
  {
    DivModUnique(i * n + j, n, i, j);
  }

  lemma ModBelow(t: nat, k: nat)
    requires t < k
    ensures t % k == t
  {
    DivModUnique(t, k, 0, t);
  }

  /** Every element of the grid is the point of some row and column. */
  lemma GridElement(latCount: nat, lonCount: nat, t: nat)
    requires t < latCount * lonCount
    ensures lonCount > 0 && RowOf(t, lonCount) < latCount
    ensures t == RowOf(t, lonCount) * lonCount + ColumnOf(t, lonCount)
  {
    assert lonCount > 0;
    if t / lonCount >= latCount {
      MulMonotone(latCount, t / lonCount, lonCount);
    }
  }

  /** Element t of the grid is the point of row t / n and column t % n. */
  lemma GridAt(latS: real, lonW: real, level: MeshLevel, latCount: nat, lonCount: nat, t: nat)
    requires t < latCount * lonCount
    ensures lonCount > 0 && RowOf(t, lonCount) < latCount
    ensures t < |GridLats(latS, UnitLat(level), latCount, lonCount)| && t < |GridLons(lonW, UnitLon(level), latCount, lonCount)|
    ensures GridLats(latS, UnitLat(level), latCount, lonCount)[t] == RowLat(latS, RowOf(t, lonCount), level)
    ensures GridLons(lonW, UnitLon(level), latCount, lonCount)[t] == ColumnLon(lonW, ColumnOf(t, lonCount), level)
  {
    GridElement(latCount, lonCount, t);
    GridSize(latS, lonW, UnitLat(level), UnitLon(level), latCount, lonCount);
    GridRowMajor(latS, lonW, UnitLat(level), UnitLon(level), latCount, lonCount, RowOf(t, lonCount), ColumnOf(t, lonCount));
  }

  /** The codes of the cells between the south-west point and the north-east
      edges: the grid starts at (latS, lonW) and steps by the level's cell size. */
  function Envelope(latS: real, lonW: real, latN: real, lonE: real, level: MeshLevel): (r: Result<seq<nat>>)
  {
    var m, n := LatCount(latS, latN, level), LonCount(lonW, lonE, level);
    GridSize(latS, lonW, UnitLat(level), UnitLon(level), m, n);
    EncodeBatch(GridLats(latS, UnitLat(level), m, n), GridLons(lonW, UnitLon(level), m, n), level)
  }

  /** The nested loops that push the grid's coordinates, row by row. */
  method PushGrid(latS: real, lonW: real, unitLat: real, unitLon: real, latCount: nat, lonCount: nat)
    returns (lats: seq<real>, lons: seq<real>)
    ensures lats == GridLats(latS, unitLat, latCount, lonCount)
    ensures lons == GridLons(lonW, unitLon, latCount, lonCount)
  {
    lats, lons := [], [];
    for i := 0 to latCount
      invariant lats == GridLats(latS, unitLat, i, lonCount)
      invariant lons == GridLons(lonW, unitLon, i, lonCount)
    {
      var toLat := latS + i as real * unitLat;
      ghost var before, beforeLons := lats, lons;
      for j := 0 to lonCount
        invariant lats == before + RowLats(toLat, j)
        invariant lons == beforeLons + RowLons(lonW, unitLon, j)
      {
        var toLon := lonW + j as real * unitLon;
        RowStep(toLat, lonW, unitLon, j);
        lats := lats + [toLat];
        lons := lons + [toLon];
      }
      GridStep(latS, lonW, unitLat, unitLon, i, lonCount);
    }
  }

  /** The grid builder: the row and column counts round the rectangle's
      sides up to whole cells, then the grid is pushed and encoded. */
  method MakeEnvelope(latS: real, lonW: real, latN: real, lonE: real, level: MeshLevel)
    returns (r: Result<seq<nat>>)
    ensures r == Envelope(latS, lonW, latN, lonE, level)
  {
    var unitLat, unitLon := UnitLat(level), UnitLon(level);
    var latCount := CeilCount((latN - latS) / unitLat);
    var lonCount := CeilCount((lonE - lonW) / unitLon);
    var lats, lons := PushGrid(latS, lonW, unitLat, unitLon, latCount, lonCount);
    GridSize(latS, lonW, unitLat, unitLon, latCount, lonCount);
    r := ToMeshcode(lats, lons, level);
  }

  /** Element t of an envelope is the code of grid row t / n and column t % n,
      where n is the number of columns. */
  lemma EnvelopeCell(latS: real, lonW: real, latN: real, lonE: real, level: MeshLevel, t: nat)
    requires Envelope(latS, lonW, latN, lonE, level).Ok?
    requires t < |Envelope(latS, lonW, latN, lonE, level).value|
    ensures var m, n := LatCount(latS, latN, level), LonCount(lonW, lonE, level);
      n > 0 && RowOf(t, n) < m &&
      Envelope(latS, lonW, latN, lonE, level).value[t] ==
        Meshcode(RowLat(latS, RowOf(t, n), level), ColumnLon(lonW, ColumnOf(t, n), level), level)
  {
    var m, n := LatCount(latS, latN, level), LonCount(lonW, lonE, level);
    GridSize(latS, lonW, UnitLat(level), UnitLon(level), m, n);
    GridAt(latS, lonW, level, m, n, t);
    ModBelow(t, m * n);
  }

  /** An envelope holds one code per grid point, row by row, each the
      code of its grid point. */
  lemma EnvelopeCells(latS: real, lonW: real, latN: real, lonE: real, level: MeshLevel)
    requires Envelope(latS, lonW, latN, lonE, level).Ok?
    ensures var m, n := LatCount(latS, latN, level), LonCount(lonW, lonE, level);
      var codes := Envelope(latS, lonW, latN, lonE, level).value;
      && |codes| == m * n
      && (n > 0 ==> forall t :: 0 <= t < |codes| ==>
            RowOf(t, n) < m && codes[t] == Meshcode(RowLat(latS, RowOf(t, n), level), ColumnLon(lonW, ColumnOf(t, n), level), level))
  {
    var m, n := LatCount(latS, latN, level), LonCount(lonW, lonE, level);
    var codes := Envelope(latS, lonW, latN, lonE, level).value;
    GridSize(latS, lonW, UnitLat(level), UnitLon(level), m, n);
    if n > 0 {
      forall t | 0 <= t < |codes|
        ensures RowOf(t, n) < m && codes[t] == Meshcode(RowLat(latS, RowOf(t, n), level), ColumnLon(lonW, ColumnOf(t, n), level), level)
      {
        EnvelopeCell(latS, lonW, latN, lonE, level, t);
      }
    }
  }

  /** Some grid latitude is out of bounds exactly when the grid has a
      column and one of its rows is out of bounds. */
  lemma GridLatsInvalid(latS: real, lonW: real, level: MeshLevel, m: nat, n: nat)
    ensures var lats := GridLats(latS, UnitLat(level), m, n);
      (exists t :: 0 <= t < |lats| && !ValidLat(lats[t])) <==>
        n > 0 && exists i :: 0 <= i < m && !ValidLat(RowLat(latS, i, level))
  {
    var lats := GridLats(latS, UnitLat(level), m, n);
    GridSize(latS, lonW, UnitLat(level), UnitLon(level), m, n);
    if t :| 0 <= t < |lats| && !ValidLat(lats[t]) {
      GridAt(latS, lonW, level, m, n, t);
      assert !ValidLat(RowLat(latS, RowOf(t, n), level));
    }
    if n > 0 {
      if i :| 0 <= i < m && !ValidLat(RowLat(latS, i, level)) {
        GridRowMajor(latS, lonW, UnitLat(level), UnitLon(level), m, n, i, 0);
        assert !ValidLat(lats[i * n]);
      }
    }
  }

  /** Some grid longitude is out of bounds exactly when the grid has a row
      and one of its columns is out of bounds. */
  lemma GridLonsInvalid(latS: real, lonW: real, level: MeshLevel, m: nat, n: nat)
    ensures var lons := GridLons(lonW, UnitLon(level), m, n);
      (exists t :: 0 <= t < |lons| && !ValidLon(lons[t])) <==>
        m > 0 && exists j :: 0 <= j < n && !ValidLon(ColumnLon(lonW, j, level))
  {
    var lons := GridLons(lonW, UnitLon(level), m, n);
    GridSize(latS, lonW, UnitLat(level), UnitLon(level), m, n);
    if t :| 0 <= t < |lons| && !ValidLon(lons[t]) {
      GridAt(latS, lonW, level, m, n, t);
      assert !ValidLon(ColumnLon(lonW, ColumnOf(t, n), level));
    }
    if m > 0 {
      if j :| 0 <= j < n && !ValidLon(ColumnLon(lonW, j, level)) {
        GridRowMajor(latS, lonW, UnitLat(level), UnitLon(level), m, n, 0, j);
        assert !ValidLon(lons[j]);
      }
    }
  }

  /** An envelope fails exactly when the grid is not empty and one of its
      rows or columns lies outside the encoder's bounds. */
  lemma EnvelopeFails(latS: real, lonW: real, latN: real, lonE: real, level: MeshLevel)
    ensures var m, n := LatCount(latS, latN, level), LonCount(lonW, lonE, level);
      Envelope(latS, lonW, latN, lonE, level).Err? <==>
        m > 0 && n > 0 &&
        ((exists i :: 0 <= i < m && !ValidLat(RowLat(latS, i, level))) ||
         (exists j :: 0 <= j < n && !ValidLon(ColumnLon(lonW, j, level))))
  {
    var m, n := LatCount(latS, latN, level), LonCount(lonW, lonE, level);
    GridSize(latS, lonW, UnitLat(level), UnitLon(level), m, n);
    GridLatsInvalid(latS, lonW, level, m, n);
    GridLonsInvalid(latS, lonW, level, m, n);
  }

  /** A grid point north of the tenth latitude band is encoded to a code of
      the level it is encoded at. */
  lemma GridPointLevel(latS: real, lonW: real, i: nat, j: nat, level: MeshLevel)
    requires latS >= 20.0 / 3.0
    requires ValidLat(RowLat(latS, i, level)) && ValidLon(ColumnLon(lonW, j, level))
    ensures LevelOf(Meshcode(RowLat(latS, i, level), ColumnLon(lonW, j, level), level)) == Ok(level)
  {
    GridNorthEast(latS, lonW, i, j, level);
    EncodeThenDecode(RowLat(latS, i, level), ColumnLon(lonW, j, level), level);
  }

  /** Every code of an envelope whose grid starts in the tenth latitude band
      or north of it infers back to the envelope's level. */
  lemma EnvelopeLevels(latS: real, lonW: real, latN: real, lonE: real, level: MeshLevel)
    requires latS >= 20.0 / 3.0
    requires Envelope(latS, lonW, latN, lonE, level).Ok?
    ensures var codes := Envelope(latS, lonW, latN, lonE, level).value;
      forall t :: 0 <= t < |codes| ==> LevelOf(codes[t]) == Ok(level)
  {
    var m, n := LatCount(latS, latN, level), LonCount(lonW, lonE, level);
    var codes := Envelope(latS, lonW, latN, lonE, level).value;
    EnvelopeCells(latS, lonW, latN, lonE, level);
    EnvelopeFails(latS, lonW, latN, lonE, level);
    GridSize(latS, lonW, UnitLat(level), UnitLon(level), m, n);
    forall t | 0 <= t < |codes| ensures LevelOf(codes[t]) == Ok(level) {
      GridElement(m, n, t);
      GridPointLevel(latS, lonW, RowOf(t, n), ColumnOf(t, n), level);
    }
  }

  /** A point decoded at non-negative fractions of a cell lies in the
      tenth latitude band or north of it. */
  lemma StartNorth(code: nat, level: MeshLevel, mlat: real, mlon: real)
    requires NumDigits(code) >= 2 && mlat >= 0.0
    ensures MeshPoint(code, level, mlat, mlon).0 >= 20.0 / 3.0
  {
    SouthWestBound(code, level);
    ScaleIsUnitTimesMultiplier(level, mlat, mlon);
    assert UnitLat(level) * mlat >= 0.0;
  }

  /** The single-element batches the implementation builds infer exactly as
      their one code does, the zero code included. */
  lemma InferSingle(code: nat)
    ensures InferBatch([code]).Ok? <==> LevelOf(code).Ok?
    ensures InferBatch([code]).Ok? ==> InferBatch([code]).value == [LevelOf(code).value]
    ensures InferBatch([code]).Err? ==> InferBatch([code]).error == LevelOf(code).error
  {
    assert [code][0] == code;
    if code == 0 {
      assert NumDigits(0) == 1;
    } else {
      assert 0 !in [code];
      var r := InferBatch([code]);
      if r.Ok? {
        assert r.value == [r.value[0]];
      } else {
        assert FirstFailure([code], r.error);
        var k :| 0 <= k < |[code]| && LevelOf([code][k]) == Err(r.error);
      }
    }
  }

  // ---------------------------------------------------------------- between two codes

  /** The envelope between a south-west and a north-east code: both must
      have the same level; the grid starts at the centre of the south-west
      cell and ends at the north-east corner of the north-east cell. */
  function EnvelopeOf(sw: nat, ne: nat): (r: Result<seq<nat>>)
  {
    match LevelOf(sw)
    case Err(e) => Err(e)
    case Ok(levelSw) =>
      match LevelOf(ne)
      case Err(e) => Err(e)
      case Ok(levelNe) =>
        if levelSw != levelNe then Err(MismatchedMeshLevels(levelSw, levelNe))
        else
          var s := MeshPoint(sw, levelSw, 0.5, 0.5);
          var n := MeshPoint(ne, levelSw, 1.0, 1.0);
          Envelope(s.0, s.1, n.0, n.1, levelSw)
  }

  /** One point decoded through the batch decoder, as the implementation
      does with single-element inputs: the point at the given fractions of
      the code's cell. */
  method DecodePoint(code: nat, mlat: real, mlon: real) returns (lat: real, lon: real)
    requires LevelOf(code).Ok?
    ensures (lat, lon) == MeshPoint(code, LevelOf(code).value, mlat, mlon)
  {
    assert NumDigits(0) == 1;
    DecodeSingle(code, mlat, mlon);
    var points := ToMeshpoint([code], [mlat], [mlon]);
    lat, lon := points.value[0, 0], points.value[1, 0];
  }

  method ToEnvelope(sw: nat, ne: nat) returns (r: Result<seq<nat>>)
    ensures r == EnvelopeOf(sw, ne)
  {
    var inferredSw := ToMeshLevel([sw]);
    InferSingle(sw);
    if inferredSw.Err? {
      return Err(inferredSw.error);
    }
    var inferredNe := ToMeshLevel([ne]);
    InferSingle(ne);
    if inferredNe.Err? {
      return Err(inferredNe.error);
    }
    var levelSw, levelNe := inferredSw.value[0], inferredNe.value[0];
    if levelSw != levelNe {
      return Err(MismatchedMeshLevels(levelSw, levelNe));
    }
    var latS, lonW := DecodePoint(sw, 0.5, 0.5);
    var latN, lonE := DecodePoint(ne, 1.0, 1.0);
    r := MakeEnvelope(latS, lonW, latN, lonE, levelSw);
  }

  /** The error cases: a code without a level, south-west first, then
      two codes whose levels differ. */
  lemma EnvelopeOfErrors(sw: nat, ne: nat)
    ensures LevelOf(sw).Err? ==> EnvelopeOf(sw, ne) == Err(LevelOf(sw).error)
    ensures LevelOf(sw).Ok? && LevelOf(ne).Err? ==> EnvelopeOf(sw, ne) == Err(LevelOf(ne).error)
    ensures LevelOf(sw).Ok? && LevelOf(ne).Ok? && LevelOf(sw) != LevelOf(ne) ==>
      EnvelopeOf(sw, ne) == Err(MismatchedMeshLevels(LevelOf(sw).value, LevelOf(ne).value))
  {
  }

  /** Every code of an envelope between two codes has their common level. */
  lemma EnvelopeOfLevels(sw: nat, ne: nat)
    requires EnvelopeOf(sw, ne).Ok?
    ensures LevelOf(sw).Ok? && LevelOf(sw) == LevelOf(ne)
    ensures var codes := EnvelopeOf(sw, ne).value;
      forall t :: 0 <= t < |codes| ==> LevelOf(codes[t]) == LevelOf(sw)
  {
    var level := LevelOf(sw).value;
    var s := MeshPoint(sw, level, 0.5, 0.5);
    var n := MeshPoint(ne, level, 1.0, 1.0);
    StartNorth(sw, level, 0.5, 0.5);
    assert Envelope(s.0, s.1, n.0, n.1, level).Ok?;
    EnvelopeLevels(s.0, s.1, n.0, n.1, level);
  }

  /** From the centre of a cell to its north-east corner is half a cell:
      one row and one column. */
  lemma CentreToCorner(code: nat, level: MeshLevel)
    ensures var s, n := MeshPoint(code, level, 0.5, 0.5), MeshPoint(code, level, 1.0, 1.0);
      LatCount(s.0, n.0, level) == 1 && LonCount(s.1, n.1, level) == 1
  {
    var s, n := MeshPoint(code, level, 0.5, 0.5), MeshPoint(code, level, 1.0, 1.0);
    ScaleIsUnitTimesMultiplier(level, 0.5, 0.5);
    ScaleIsUnitTimesMultiplier(level, 1.0, 1.0);
    assert n.0 - s.0 == UnitLat(level) * 0.5 && n.1 - s.1 == UnitLon(level) * 0.5;
    HalfOfUnit(UnitLat(level));
    HalfOfUnit(UnitLon(level));
  }

  /** The envelope of a code with itself is sampled at the centre of the
      cell alone: it is a single code. */
  lemma EnvelopeOfItself(code: nat)
    requires EnvelopeOf(code, code).Ok?
    ensures |EnvelopeOf(code, code).value| == 1
  {
    var level := LevelOf(code).value;
    var s, n := MeshPoint(code, level, 0.5, 0.5), MeshPoint(code, level, 1.0, 1.0);
    CentreToCorner(code, level);
    EnvelopeCells(s.0, s.1, n.0, n.1, level);
  }

  // ---------------------------------------------------------------- the envelope as a block of cells

  /** The number of lattice rows (or columns) from a to b, both included. */
  function Span(a: int, b: int): nat {
    if a <= b then b - a + 1 else 0
  }

  /** The centre of the south-west cell and the north-east corner of the
      north-east cell, on the level's lattice. */
  lemma EnvelopeOfCorners(sw: nat, ne: nat, level: MeshLevel)
    ensures MeshPoint(sw, level, 0.5, 0.5).0 == Multiple(LatticeRow(sw, level), UnitLat(level)) + UnitLat(level) * 0.5
    ensures MeshPoint(sw, level, 0.5, 0.5).1 == Multiple(LatticeColumn(sw, level), UnitLon(level)) + UnitLon(level) * 0.5
    ensures MeshPoint(ne, level, 1.0, 1.0).0 == Multiple(LatticeRow(ne, level), UnitLat(level)) + UnitLat(level)
    ensures MeshPoint(ne, level, 1.0, 1.0).1 == Multiple(LatticeColumn(ne, level), UnitLon(level)) + UnitLon(level)
  {
    SouthWestOnLattice(sw, level);
    SouthWestOnLattice(ne, level);
    ScaleIsUnitTimesMultiplier(level, 0.5, 0.5);
    MeshPointCorners(ne, level);
  }

  /** From the centre of lattice cell a to the far edge of lattice cell b
      there are as many grid steps as cells from a to b. */
  lemma CountFromCentre(a: int, b: int, unit: real, start: real, stop: real)
    requires unit > 0.0
    requires start == Multiple(a, unit) + unit * 0.5 && stop == Multiple(b, unit) + unit
    ensures CeilCount((stop - start) / unit) == Span(a, b)
  {
    var d := (b - a) as real + 0.5;
    assert stop - start == d * unit;
    assert (stop - start) / unit == d;
  }

  /** A grid point i steps from the centre of lattice cell a is the centre
      of lattice cell a + i, so the only lattice cell holding it is that one. */
  lemma AxisIndex(a: int, i: nat, unit: real, start: real, r: int, corner: real)
    requires unit > 0.0 && start == Multiple(a, unit) + unit * 0.5 && corner == Multiple(r, unit)
    requires corner <= Step(start, i, unit) < corner + unit
    ensures r == a + i
  {
    var c := a + i;
    assert Step(start, i, unit) == Multiple(c, unit) + unit * 0.5;
    if r > c {
      MulMono((c + 1) as real, r as real, unit);
    } else if r < c {
      MulMono(r as real, (c - 1) as real, unit);
    }
  }

  /** When the grid starts at the centre of lattice cell (a, c) and its
      eastern edge is the far edge of lattice column d, code t of the
      envelope is the cell t / n rows north and t % n columns east of
      (a, c), n being the number of columns from c to d. */
  lemma EnvelopeLattice(latS: real, lonW: real, latN: real, lonE: real, level: MeshLevel, a: int, c: int, d: int, t: nat)
    requires latS >= 20.0 / 3.0
    requires latS == Multiple(a, UnitLat(level)) + UnitLat(level) * 0.5
    requires lonW == Multiple(c, UnitLon(level)) + UnitLon(level) * 0.5
    requires lonE == Multiple(d, UnitLon(level)) + UnitLon(level)
    requires Envelope(latS, lonW, latN, lonE, level).Ok?
    requires t < |Envelope(latS, lonW, latN, lonE, level).value|
    ensures var n, code := Span(c, d), Envelope(latS, lonW, latN, lonE, level).value[t];
      n > 0 && LatticeRow(code, level) == a + RowOf(t, n) && LatticeColumn(code, level) == c + ColumnOf(t, n)
  {
    var n, code := LonCount(lonW, lonE, level), Envelope(latS, lonW, latN, lonE, level).value[t];
    CountFromCentre(c, d, UnitLon(level), lonW, lonE);
    EnvelopeSample(latS, lonW, latN, lonE, level, t);
    SouthWestOnLattice(code, level);
    var corner := SouthWest(code, level);
    AxisIndex(a, RowOf(t, n), UnitLat(level), latS, LatticeRow(code, level), corner.0);
    AxisIndex(c, ColumnOf(t, n), UnitLon(level), lonW, LatticeColumn(code, level), corner.1);
  }

  /** Code t of the envelope between two codes is the cell t / n rows north
      and t % n columns east of the south-west cell, n being the number of
      columns. */
  lemma EnvelopeOfCell(sw: nat, ne: nat, t: nat)
    requires EnvelopeOf(sw, ne).Ok? && t < |EnvelopeOf(sw, ne).value|
    ensures LevelOf(sw).Ok?
    ensures var level := LevelOf(sw).value;
      var n := Span(LatticeColumn(sw, level), LatticeColumn(ne, level));
      var code := EnvelopeOf(sw, ne).value[t];
      n > 0 && LatticeRow(code, level) == LatticeRow(sw, level) + RowOf(t, n) &&
      LatticeColumn(code, level) == LatticeColumn(sw, level) + ColumnOf(t, n)
  {
    var level := LevelOf(sw).value;
    var s, e := MeshPoint(sw, level, 0.5, 0.5), MeshPoint(ne, level, 1.0, 1.0);
    EnvelopeOfCorners(sw, ne, level);
    StartNorth(sw, level, 0.5, 0.5);
    EnvelopeLattice(s.0, s.1, e.0, e.1, level, LatticeRow(sw, level), LatticeColumn(sw, level), LatticeColumn(ne, level), t);
  }

  /** An envelope whose grid runs from the centre of lattice cell (a, c)
      to the far corner of lattice cell (b, d) has one code per cell. */
  lemma EnvelopeBlockSize(latS: real, lonW: real, latN: real, lonE: real, level: MeshLevel, a: int, b: int, c: int, d: int)
    requires latS == Multiple(a, UnitLat(level)) + UnitLat(level) * 0.5
    requires latN == Multiple(b, UnitLat(level)) + UnitLat(level)
    requires lonW == Multiple(c, UnitLon(level)) + UnitLon(level) * 0.5
    requires lonE == Multiple(d, UnitLon(level)) + UnitLon(level)
    requires Envelope(latS, lonW, latN, lonE, level).Ok?
    ensures |Envelope(latS, lonW, latN, lonE, level).value| == Span(a, b) * Span(c, d)
  {
    var m, n := LatCount(latS, latN, level), LonCount(lonW, lonE, level);
    CountFromCentre(a, b, UnitLat(level), latS, latN);
    CountFromCentre(c, d, UnitLon(level), lonW, lonE);
    EnvelopeCells(latS, lonW, latN, lonE, level);
    assert m == Span(a, b) && n == Span(c, d);
  }

  /** The envelope between two codes has one code per lattice cell from the
      south-west cell to the north-east cell. */
  lemma EnvelopeOfSize(sw: nat, ne: nat)
    requires EnvelopeOf(sw, ne).Ok?
    ensures LevelOf(sw).Ok?
    ensures var level := LevelOf(sw).value;
      |EnvelopeOf(sw, ne).value| ==
        Span(LatticeRow(sw, level), LatticeRow(ne, level)) * Span(LatticeColumn(sw, level), LatticeColumn(ne, level))
  {
    var level := LevelOf(sw).value;
    var s, e := MeshPoint(sw, level, 0.5, 0.5), MeshPoint(ne, level, 1.0, 1.0);
    EnvelopeOfCorners(sw, ne, level);
    EnvelopeBlockSize(s.0, s.1, e.0, e.1, level,
                      LatticeRow(sw, level), LatticeRow(ne, level), LatticeColumn(sw, level), LatticeColumn(ne, level));
  }

  /** Two grid positions in the same row and column are the same position. */
  lemma SameRowAndColumn(t1: nat, t2: nat, n: nat)
    requires n > 0 && RowOf(t1, n) == RowOf(t2, n) && ColumnOf(t1, n) == ColumnOf(t2, n)
    ensures t1 == t2
  {
  }

  /** The envelope between two codes names every cell once. */
  lemma EnvelopeOfDistinct(sw: nat, ne: nat)
    requires EnvelopeOf(sw, ne).Ok?
    ensures var codes := EnvelopeOf(sw, ne).value;
      forall t1, t2 :: 0 <= t1 < |codes| && 0 <= t2 < |codes| && t1 != t2 ==> codes[t1] != codes[t2]
  {
    var codes := EnvelopeOf(sw, ne).value;
    forall t1, t2 | 0 <= t1 < |codes| && 0 <= t2 < |codes| && codes[t1] == codes[t2]
      ensures t1 == t2
    {
      EnvelopeOfCell(sw, ne, t1);
      EnvelopeOfCell(sw, ne, t2);
      var level := LevelOf(sw).value;
      SameRowAndColumn(t1, t2, Span(LatticeColumn(sw, level), LatticeColumn(ne, level)));
    }
  }

  /** The point lies in the rectangle from the south-west corner of the cell
      of `sw` to the north-east corner of the cell of `ne`. */
  predicate InRectangle(sw: nat, ne: nat, lat: real, lon: real) {
    && LevelOf(sw).Ok?
    && var level := LevelOf(sw).value;
    && SouthWest(sw, level).0 <= lat < SouthWest(ne, level).0 + UnitLat(level)
    && SouthWest(sw, level).1 <= lon < SouthWest(ne, level).1 + UnitLon(level)
  }

  /** A coordinate in the rectangle from lattice cell a to lattice cell b
      lies in one of those cells. */
  lemma LatticeBracket(x: real, unit: real, a: int, b: int, k: int)
    requires unit > 0.0
    requires Multiple(a, unit) <= x < Multiple(b, unit) + unit
    requires Multiple(k, unit) <= x < Multiple(k, unit) + unit
    ensures a <= k <= b
  {
    assert Multiple(k + 1, unit) == Multiple(k, unit) + unit;
    assert Multiple(b + 1, unit) == Multiple(b, unit) + unit;
    MultipleOrder(a, k + 1, unit);
    MultipleOrder(k, b + 1, unit);
  }

  /** Whole numbers of a positive unit are ordered as the numbers are. */
  lemma MultipleOrder(m: int, n: int, unit: real)
    requires unit > 0.0 && Multiple(m, unit) < Multiple(n, unit)
    ensures m < n
  {
    if n <= m {
      MulMono(n as real, m as real, unit);
    }
  }

  /** Row i and column j of a grid with m rows and n columns is position
      i * n + j. */
  lemma GridPosition(i: nat, j: nat, m: nat, n: nat)
    requires i < m && j < n
    ensures i * n + j < m * n && RowOf(i * n + j, n) == i && ColumnOf(i * n + j, n) == j
  {
    NextRow(i, n);
    MulMonotone(i + 1, m, n);
    RowAndColumn(i, j, n);
  }

  /** A non-negative coordinate between the lattice lines a and b + 1 lies
      in the lattice cell of its whole number of cells, which is one of a to b. */
  lemma CellIndex(x: real, unit: real, lo: real, hi: real, a: int, b: int)
    requires unit > 0.0 && lo >= 0.0
    requires lo == Multiple(a, unit) && hi == Multiple(b, unit) && lo <= x < hi + unit
    ensures var k := DivAsU64(x, unit);
      a <= k <= b && Multiple(k, unit) <= x < Multiple(k, unit) + unit
  {
    LatticeBracket(x, unit, a, b, DivAsU64(x, unit));
  }

  /** A point of the rectangle between two codes lies in the lattice cell
      whose row and column are its latitude and longitude in whole cells,
      between the rows and between the columns of the two codes. */
  lemma RectangleIndices(sw: nat, ne: nat, lat: real, lon: real)
    requires InRectangle(sw, ne, lat, lon)
    ensures var level := LevelOf(sw).value;
      var k, l := DivAsU64(lat, UnitLat(level)), DivAsU64(lon, UnitLon(level));
      && LatticeRow(sw, level) <= k <= LatticeRow(ne, level)
      && LatticeColumn(sw, level) <= l <= LatticeColumn(ne, level)
      && Multiple(k, UnitLat(level)) <= lat < Multiple(k, UnitLat(level)) + UnitLat(level)
      && Multiple(l, UnitLon(level)) <= lon < Multiple(l, UnitLon(level)) + UnitLon(level)
  {
    var level := LevelOf(sw).value;
    var low, high := SouthWest(sw, level), SouthWest(ne, level);
    SouthWestOnLattice(sw, level);
    SouthWestOnLattice(ne, level);
    SouthWestBound(sw, level);
    CellIndex(lat, UnitLat(level), low.0, high.0, LatticeRow(sw, level), LatticeRow(ne, level));
    CellIndex(lon, UnitLon(level), low.1, high.1, LatticeColumn(sw, level), LatticeColumn(ne, level));
  }

  /** In an envelope whose grid runs from the centre of lattice cell (a, c)
      to the far corner of lattice cell (b, d), the cell (k, l) of that
      block is the code at position (k - a) * n + (l - c). */
  lemma BlockPosition(latS: real, lonW: real, latN: real, lonE: real, level: MeshLevel,
                      a: int, b: int, c: int, d: int, k: int, l: int)
    requires latS >= 20.0 / 3.0
    requires latS == Multiple(a, UnitLat(level)) + UnitLat(level) * 0.5
    requires latN == Multiple(b, UnitLat(level)) + UnitLat(level)
    requires lonW == Multiple(c, UnitLon(level)) + UnitLon(level) * 0.5
    requires lonE == Multiple(d, UnitLon(level)) + UnitLon(level)
    requires Envelope(latS, lonW, latN, lonE, level).Ok?
    requires a <= k <= b && c <= l <= d
    ensures var codes, t := Envelope(latS, lonW, latN, lonE, level).value, (k - a) * Span(c, d) + (l - c);
      0 <= t < |codes| && LatticeRow(codes[t], level) == k && LatticeColumn(codes[t], level) == l
  {
    var m, n := Span(a, b), Span(c, d);
    var i, j: nat := k - a, l - c;
    EnvelopeBlockSize(latS, lonW, latN, lonE, level, a, b, c, d);
    GridPosition(i, j, m, n);
    EnvelopeLatticeAt(latS, lonW, latN, lonE, level, a, c, d, i * n + j, i, j);
  }

  /** `EnvelopeLattice` for a position whose row i and column j are known. */
  lemma EnvelopeLatticeAt(latS: real, lonW: real, latN: real, lonE: real, level: MeshLevel,
                          a: int, c: int, d: int, t: nat, i: nat, j: nat)
    requires latS >= 20.0 / 3.0
    requires latS == Multiple(a, UnitLat(level)) + UnitLat(level) * 0.5
    requires lonW == Multiple(c, UnitLon(level)) + UnitLon(level) * 0.5
    requires lonE == Multiple(d, UnitLon(level)) + UnitLon(level)
    requires Envelope(latS, lonW, latN, lonE, level).Ok?
    requires t < |Envelope(latS, lonW, latN, lonE, level).value|
    requires Span(c, d) > 0 && RowOf(t, Span(c, d)) == i && ColumnOf(t, Span(c, d)) == j
    ensures var code := Envelope(latS, lonW, latN, lonE, level).value[t];
      LatticeRow(code, level) == a + i && LatticeColumn(code, level) == c + j
  {
    EnvelopeLattice(latS, lonW, latN, lonE, level, a, c, d, t);
  }

  /** Every point of the rectangle between two codes lies in the cell of a
      code of their envelope. */
  lemma EnvelopeOfCovers(sw: nat, ne: nat, lat: real, lon: real)
    requires EnvelopeOf(sw, ne).Ok? && InRectangle(sw, ne, lat, lon)
    ensures var level, codes := LevelOf(sw).value, EnvelopeOf(sw, ne).value;
      exists t :: 0 <= t < |codes| && InCell(lat, lon, SouthWest(codes[t], level), level)
  {
    var level := LevelOf(sw).value;
    var s, e := MeshPoint(sw, level, 0.5, 0.5), MeshPoint(ne, level, 1.0, 1.0);
    var codes := Envelope(s.0, s.1, e.0, e.1, level).value;
    var a, b := LatticeRow(sw, level), LatticeRow(ne, level);
    var c, d := LatticeColumn(sw, level), LatticeColumn(ne, level);
    EnvelopeOfCorners(sw, ne, level);
    StartNorth(sw, level, 0.5, 0.5);
    RectangleIndices(sw, ne, lat, lon);
    var k, l := DivAsU64(lat, UnitLat(level)), DivAsU64(lon, UnitLon(level));
    BlockPosition(s.0, s.1, e.0, e.1, level, a, b, c, d, k, l);
    var t := (k - a) * Span(c, d) + (l - c);
    SouthWestOnLattice(codes[t], level);
    assert InCell(lat, lon, SouthWest(codes[t], level), level);
  }

  // ---------------------------------------------------------------- across levels

  /** The fraction of the source cell at which the grid starts: half a
      target cell when the target level is as fine or finer, else the
      centre of the source cell. */
  function Margin(toUnit: real, fromUnit: real): (m: real)
    requires toUnit > 0.0 && fromUnit > 0.0
    ensures 0.0 < m <= 0.5
    ensures m * fromUnit == (if toUnit <= fromUnit then toUnit else fromUnit) / 2.0
  {
    if toUnit <= fromUnit then (toUnit / fromUnit) / 2.0 else 0.5
  }

  /** The codes at `to` whose cells meet the cell of `code`. */
  function IntersectsOf(code: nat, to: MeshLevel): (r: Result<seq<nat>>)
  {
    match LevelOf(code)
    case Err(e) => Err(e)
    case Ok(from) =>
      var marginLat := Margin(UnitLat(to), UnitLat(from));
      var marginLon := Margin(UnitLon(to), UnitLon(from));
      var s := MeshPoint(code, from, marginLat, marginLon);
      var n := MeshPoint(code, from, 1.0, 1.0);
      Envelope(s.0, s.1, n.0, n.1, to)
  }

  method ToIntersects(code: nat, to: MeshLevel) returns (r: Result<seq<nat>>)
    ensures r == IntersectsOf(code, to)
  {
    var inferred := ToMeshLevel([code]);
    InferSingle(code);
    if inferred.Err? {
      return Err(inferred.error);
    }
    var from := inferred.value[0];
    var fromUnitLat, fromUnitLon := UnitLat(from), UnitLon(from);
    var toUnitLat, toUnitLon := UnitLat(to), UnitLon(to);
    var marginLat := if toUnitLat <= fromUnitLat then (toUnitLat / fromUnitLat) / 2.0 else 0.5;
    var marginLon := if toUnitLon <= fromUnitLon then (toUnitLon / fromUnitLon) / 2.0 else 0.5;
    assert marginLat == Margin(toUnitLat, fromUnitLat) && marginLon == Margin(toUnitLon, fromUnitLon);
    var latS, lonW := DecodePoint(code, marginLat, marginLon);
    var latN, lonE := DecodePoint(code, 1.0, 1.0);
    r := MakeEnvelope(latS, lonW, latN, lonE, to);
  }

  /** A code without a level has no intersections, only its error. */
  lemma IntersectsOfError(code: nat, to: MeshLevel)
    ensures LevelOf(code).Err? ==> IntersectsOf(code, to) == Err(LevelOf(code).error)
  {
  }

  /** Every code the intersection reports is a code of the target level. */
  lemma IntersectsOfLevels(code: nat, to: MeshLevel)
    requires IntersectsOf(code, to).Ok?
    ensures var codes := IntersectsOf(code, to).value;
      forall t :: 0 <= t < |codes| ==> LevelOf(codes[t]) == Ok(to)
  {
    var from := LevelOf(code).value;
    var marginLat := Margin(UnitLat(to), UnitLat(from));
    var marginLon := Margin(UnitLon(to), UnitLon(from));
    var s := MeshPoint(code, from, marginLat, marginLon);
    var n := MeshPoint(code, from, 1.0, 1.0);
    StartNorth(code, from, marginLat, marginLon);
    assert Envelope(s.0, s.1, n.0, n.1, to).Ok?;
    EnvelopeLevels(s.0, s.1, n.0, n.1, to);
  }

  /** Every grid row before the row count lies south of the northern edge
      (and every column west of the eastern edge). */
  lemma BeforeEnd(start: real, stop: real, unit: real, i: nat)
    requires unit > 0.0 && i < CeilCount((stop - start) / unit)
    ensures Step(start, i, unit) < stop
  {
    var x := (stop - start) / unit;
    MulStrict(i as real, x, unit);
    DivMul(stop - start, unit);
  }

  /** The cell of `code` at level `from` and the cell of `other` at level
      `to` share a point. */
  ghost predicate Meets(code: nat, from: MeshLevel, other: nat, to: MeshLevel) {
    exists lat, lon :: InCell(lat, lon, SouthWest(code, from), from) && InCell(lat, lon, SouthWest(other, to), to)
  }

  /** Code t of an envelope whose grid starts in the tenth latitude band or
      north of it is the code of a cell that holds its grid point, and that
      point lies within the envelope's edges. */
  lemma EnvelopeSample(latS: real, lonW: real, latN: real, lonE: real, level: MeshLevel, t: nat)
    requires latS >= 20.0 / 3.0
    requires Envelope(latS, lonW, latN, lonE, level).Ok?
    requires t < |Envelope(latS, lonW, latN, lonE, level).value|
    ensures var n := LonCount(lonW, lonE, level);
      n > 0 &&
      var lat, lon := RowLat(latS, RowOf(t, n), level), ColumnLon(lonW, ColumnOf(t, n), level);
      latS <= lat < latN && lonW <= lon < lonE &&
      InCell(lat, lon, SouthWest(Envelope(latS, lonW, latN, lonE, level).value[t], level), level)
  {
    var n := LonCount(lonW, lonE, level);
    EnvelopeCell(latS, lonW, latN, lonE, level, t);
    var i, j := RowOf(t, n), ColumnOf(t, n);
    var lat, lon := RowLat(latS, i, level), ColumnLon(lonW, j, level);
    EnvelopeFails(latS, lonW, latN, lonE, level);
    assert ValidLat(lat) && ValidLon(lon);
    GridNorthEast(latS, lonW, i, j, level);
    EncodeThenDecode(lat, lon, level);
    BeforeEnd(latS, latN, UnitLat(level), i);
    BeforeEnd(lonW, lonE, UnitLon(level), j);
  }

  /** A point between the point at non-negative fractions of a cell and its
      north-east corner lies in the cell. */
  lemma WithinCell(code: nat, level: MeshLevel, mlat: real, mlon: real, lat: real, lon: real)
    requires mlat >= 0.0 && mlon >= 0.0
    requires MeshPoint(code, level, mlat, mlon).0 <= lat < MeshPoint(code, level, 1.0, 1.0).0
    requires MeshPoint(code, level, mlat, mlon).1 <= lon < MeshPoint(code, level, 1.0, 1.0).1
    ensures InCell(lat, lon, SouthWest(code, level), level)
  {
    ScaleIsUnitTimesMultiplier(level, mlat, mlon);
    MeshPointCorners(code, level);
    assert UnitLat(level) * mlat >= 0.0 && UnitLon(level) * mlon >= 0.0;
  }

  /** A point in both cells shows that they meet. */
  lemma MeetAt(code: nat, from: MeshLevel, other: nat, to: MeshLevel, lat: real, lon: real)
    requires InCell(lat, lon, SouthWest(code, from), from) && InCell(lat, lon, SouthWest(other, to), to)
    ensures Meets(code, from, other, to)
  {
  }

  /** Grid point t of an intersection lies both in the cell of `code` and in
      the cell of the code reported at position t. */
  lemma IntersectsCell(code: nat, to: MeshLevel, t: nat)
    requires IntersectsOf(code, to).Ok? && t < |IntersectsOf(code, to).value|
    ensures LevelOf(code).Ok? && Meets(code, LevelOf(code).value, IntersectsOf(code, to).value[t], to)
  {
    var from := LevelOf(code).value;
    var marginLat := Margin(UnitLat(to), UnitLat(from));
    var marginLon := Margin(UnitLon(to), UnitLon(from));
    var s := MeshPoint(code, from, marginLat, marginLon);
    var n := MeshPoint(code, from, 1.0, 1.0);
    var codes := Envelope(s.0, s.1, n.0, n.1, to).value;
    StartNorth(code, from, marginLat, marginLon);
    EnvelopeSample(s.0, s.1, n.0, n.1, to, t);
    var cols := LonCount(s.1, n.1, to);
    var lat, lon := RowLat(s.0, RowOf(t, cols), to), ColumnLon(s.1, ColumnOf(t, cols), to);
    WithinCell(code, from, marginLat, marginLon, lat, lon);
    MeetAt(code, from, codes[t], to, lat, lon);
  }

  /** Every code the intersection reports meets the cell of `code`: some
      point lies in both cells. */
  lemma IntersectsSound(code: nat, to: MeshLevel)
    requires IntersectsOf(code, to).Ok?
    ensures LevelOf(code).Ok?
    ensures forall t :: 0 <= t < |IntersectsOf(code, to).value| ==>
      Meets(code, LevelOf(code).value, IntersectsOf(code, to).value[t], to)
  {
    forall t | 0 <= t < |IntersectsOf(code, to).value|
      ensures Meets(code, LevelOf(code).value, IntersectsOf(code, to).value[t], to)
    {
      IntersectsCell(code, to, t);
    }
  }
}
