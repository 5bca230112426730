/** The envelope tests around Tokyo: one first-level code with itself, two
    neighbouring second-level codes, a first-level code seen at the second
    level, and two codes of different levels. */
module EnvelopeExamples {
  import opened Levels
  import opened Errors
  import opened Units
  import opened RealOps
  import opened Digits
  import opened MeshLevelInference
  import opened MeshCodes
  import opened MeshPoints
  import opened MeshPointExamples
  import opened Envelopes

  lemma Layout533901()
    ensures LevelOf(533901) == Ok(Lv2)
    ensures SouthWest(533901, Lv2) == Corner(Lv2, 53, 39, 0, 1, 0, 0, 0, 0, 0)
  {
    assert Pow10(0) == 1 && Pow10(1) == 10 && Pow10(2) == 100 && Pow10(3) == 1000 && Pow10(4) == 10000 && Pow10(5) == 100000 && Pow10(6) == 1000000;
    NumDigitsIs(533901, 6);
    LevelOfRules(533901);
    SouthWestBySlices(533901, Lv2, 53, 39, 0, 1, 0, 0, 0, 0, 0);
  }

  /** The centre of cell 5339 and its north-east corner. */
  lemma Points5339()
    ensures MeshPoint(5339, Lv1, 0.5, 0.5) == (107.0 / 3.0, 139.5)
    ensures MeshPoint(5339, Lv1, 1.0, 1.0) == (36.0, 140.0)
  {
    Layout5339();
    assert Offset(Lv1, 0, 0, 0, 0, 0, 0, 0) == (0.0, 0.0);
    assert SouthWest(5339, Lv1) == (106.0 / 3.0, 139.0);
    assert Scale(Lv1, 0.5, 0.5) == (1.0 / 3.0, 0.5);
    assert Scale(Lv1, 1.0, 1.0) == (2.0 / 3.0, 1.0);
  }

  /** A one-point batch encodes to the code of its point. */
  lemma EncodeOnePoint(lat: real, lon: real, level: MeshLevel)
    requires ValidLat(lat) && ValidLon(lon)
    ensures EncodeBatch([lat], [lon], level) == Ok([Meshcode(lat, lon, level)])
  {
    var r := EncodeBatch([lat], [lon], level);
    assert [lat][0] == lat && [lon][0] == lon;
    assert r.Ok? && |r.value| == 1;
    assert r.value[0] == Meshcode(lat, lon, level);
    assert r.value == [r.value[0]];
  }

  /** A one-cell grid is the start point alone. */
  lemma OneCellGrid(latS: real, lonW: real, level: MeshLevel)
    ensures GridLats(latS, UnitLat(level), 1, 1) == [latS]
    ensures GridLons(lonW, UnitLon(level), 1, 1) == [lonW]
  {
    assert RowLats(Step(latS, 0, UnitLat(level)), 1) == [latS];
    assert RowLons(lonW, UnitLon(level), 1) == [lonW];
  }

  lemma Code5339()
    ensures Meshcode(107.0 / 3.0, 139.5, Lv1) == 5339
  {
    assert DivAsU64(107.0 / 3.0, UnitLatLv1) == 53;
    assert FRem(139.5, 100.0) == 39.5;
    assert DivAsU64(39.5, UnitLonLv1) == 39;
  }

  /** The envelope from the centre of cell 5339 to its north-east corner
      is one cell: 5339. */
  lemma Envelope5339()
    ensures Envelope(107.0 / 3.0, 139.5, 36.0, 140.0, Lv1) == Ok([5339])
  {
    var latS, lonW := 107.0 / 3.0, 139.5;
    assert LatCount(latS, 36.0, Lv1) == 1;
    assert LonCount(lonW, 140.0, Lv1) == 1;
    OneCellGrid(latS, lonW, Lv1);
    EncodeOnePoint(latS, lonW, Lv1);
    Code5339();
  }

  /** The envelope of 5339 with itself is 5339 alone. */
  lemma EnvelopeOf5339()
    ensures EnvelopeOf(5339, 5339) == Ok([5339])
  {
    Layout5339();
    Points5339();
    Envelope5339();
  }

  /** The centre of cell 533900 and the north-east corner of cell 533901. */
  lemma Points533900()
    ensures MeshPoint(533900, Lv2, 0.5, 0.5) == (35.375, 139.0625)
    ensures MeshPoint(533901, Lv2, 1.0, 1.0) == (425.0 / 12.0, 139.25)
  {
    Layout533900();
    Layout533901();
    assert Offset(Lv2, 0, 0, 0, 0, 0, 0, 0) == (0.0, 0.0);
    assert Offset(Lv2, 0, 1, 0, 0, 0, 0, 0) == (0.0, 0.125);
    assert SouthWest(533900, Lv2) == (106.0 / 3.0, 139.0);
    assert SouthWest(533901, Lv2) == (106.0 / 3.0, 139.125);
    assert Scale(Lv2, 0.5, 0.5) == (1.0 / 24.0, 0.0625);
    assert Scale(Lv2, 1.0, 1.0) == (1.0 / 12.0, 0.125);
  }

  /** A grid of one row and two columns. */
  lemma OneRowTwoColumns(latS: real, lonW: real, level: MeshLevel)
    ensures GridLats(latS, UnitLat(level), 1, 2) == [latS, latS]
    ensures GridLons(lonW, UnitLon(level), 1, 2) == [lonW, lonW + UnitLon(level)]
  {
    assert RowLats(Step(latS, 0, UnitLat(level)), 2) == [latS, latS];
    assert RowLons(lonW, UnitLon(level), 2) == [lonW, lonW + UnitLon(level)];
  }

  /** A two-point batch encodes to the codes of its points, in order. */
  lemma EncodeTwoPoints(lat: real, lon0: real, lon1: real, level: MeshLevel)
    requires ValidLat(lat) && ValidLon(lon0) && ValidLon(lon1)
    ensures EncodeBatch([lat, lat], [lon0, lon1], level) == Ok([Meshcode(lat, lon0, level), Meshcode(lat, lon1, level)])
  {
    var lats, lons := [lat, lat], [lon0, lon1];
    var r := EncodeBatch(lats, lons, level);
    assert lats[0] == lat && lats[1] == lat && lons[0] == lon0 && lons[1] == lon1;
    assert r.Ok? && |r.value| == 2;
    assert r.value[0] == Meshcode(lat, lon0, level);
    assert r.value[1] == Meshcode(lat, lon1, level);
    assert r.value == [r.value[0], r.value[1]];
  }

  lemma Codes533900()
    ensures Meshcode(35.375, 139.0625, Lv2) == 533900
    ensures Meshcode(35.375, 139.1875, Lv2) == 533901
  {
    assert DivAsU64(35.375, UnitLatLv1) == 53;
    assert FRem(139.0625, 100.0) == 39.0625 && FRem(139.1875, 100.0) == 39.1875;
    assert DivAsU64(39.0625, UnitLonLv1) == 39 && DivAsU64(39.1875, UnitLonLv1) == 39;
    assert MeshcodeLv1(35.375, 139.0625) == 5339 && MeshcodeLv1(35.375, 139.1875) == 5339;
    assert RemLatLv1(35.375) == 1.0 / 24.0;
    assert RemLonLv1(139.0625) == 0.0625 && RemLonLv1(139.1875) == 0.1875;
    assert DivAsU64(1.0 / 24.0, UnitLatLv2) == 0;
    assert DivAsU64(0.0625, UnitLonLv2) == 0 && DivAsU64(0.1875, UnitLonLv2) == 1;
  }

  /** From the centre of 533900 to the north-east corner of 533901 the
      grid has one row and two columns: the two codes themselves. */
  lemma Envelope533900()
    ensures Envelope(35.375, 139.0625, 425.0 / 12.0, 139.25, Lv2) == Ok([533900, 533901])
  {
    var latS, lonW := 35.375, 139.0625;
    assert LatCount(latS, 425.0 / 12.0, Lv2) == 1;
    assert LonCount(lonW, 139.25, Lv2) == 2;
    OneRowTwoColumns(latS, lonW, Lv2);
    assert lonW + UnitLon(Lv2) == 139.1875;
    EncodeTwoPoints(latS, lonW, 139.1875, Lv2);
    Codes533900();
  }

  /** The envelope of two neighbouring second-level codes holds both. */
  lemma EnvelopeOf533900()
    ensures EnvelopeOf(533900, 533901) == Ok([533900, 533901])
  {
    Layout533900();
    Layout533901();
    Points533900();
    Envelope533900();
  }

  /** Codes of different levels have no envelope. */
  lemma EnvelopeOfMismatch()
    ensures EnvelopeOf(5339, 533900) == Err(MismatchedMeshLevels(Lv1, Lv2))
  {
    Layout5339();
    Layout533900();
  }

  /** Cell 5339 seen at the second level: the grid starts half a
      second-level cell inside the south-west corner. */
  lemma Intersects5339IsEnvelope()
    ensures IntersectsOf(5339, Lv2) == Envelope(35.375, 139.0625, 36.0, 140.0, Lv2)
  {
    Layout5339();
    assert Margin(UnitLat(Lv2), UnitLat(Lv1)) == 1.0 / 16.0;
    assert Margin(UnitLon(Lv2), UnitLon(Lv1)) == 1.0 / 16.0;
    assert Offset(Lv1, 0, 0, 0, 0, 0, 0, 0) == (0.0, 0.0);
    assert SouthWest(5339, Lv1) == (106.0 / 3.0, 139.0);
    assert Scale(Lv1, 1.0 / 16.0, 1.0 / 16.0) == (1.0 / 24.0, 0.0625);
    assert Scale(Lv1, 1.0, 1.0) == (2.0 / 3.0, 1.0);
  }

  /** That grid has eight rows and eight columns, all in bounds. */
  lemma Grid5339AtLv2()
    ensures LatCount(35.375, 36.0, Lv2) == 8 && LonCount(139.0625, 140.0, Lv2) == 8
    ensures forall i :: 0 <= i < 8 ==> ValidLat(RowLat(35.375, i, Lv2))
    ensures forall j :: 0 <= j < 8 ==> ValidLon(ColumnLon(139.0625, j, Lv2))
  {
    assert UnitLat(Lv2) == 1.0 / 12.0 && UnitLon(Lv2) == 0.125;
  }

  lemma Envelope5339AtLv2()
    ensures var r := Envelope(35.375, 139.0625, 36.0, 140.0, Lv2);
      r.Ok? && |r.value| == 64 && r.value[0] == 533900
  {
    var latS, lonW := 35.375, 139.0625;
    Grid5339AtLv2();
    EnvelopeFails(latS, lonW, 36.0, 140.0, Lv2);
    EnvelopeCells(latS, lonW, 36.0, 140.0, Lv2);
    assert RowOf(0, 8) == 0 && ColumnOf(0, 8) == 0;
    Codes533900();
  }

  /** The sixty-four second-level cells of 5339, each a second-level code,
      the first of them 533900. */
  lemma IntersectsOf5339()
    ensures var r := IntersectsOf(5339, Lv2);
      r.Ok? && |r.value| == 64 && r.value[0] == 533900 &&
      forall t :: 0 <= t < |r.value| ==> LevelOf(r.value[t]) == Ok(Lv2)
  {
    Intersects5339IsEnvelope();
    Envelope5339AtLv2();
    IntersectsOfLevels(5339, Lv2);
  }
}
