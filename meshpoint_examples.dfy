/** The decoder's test table: every code of the table is read back to its
    level and its digit groups, and its south-west corner (or, for the last
    row, its point at multipliers 0.5) is evaluated exactly. */
module MeshPointExamples {
  import opened Levels
  import opened Errors
  import opened Units
  import opened Digits
  import opened MeshLevelInference
  import opened MeshPoints

  lemma Layout5339()
    ensures LevelOf(5339) == Ok(Lv1)
    ensures SouthWest(5339, Lv1) == Corner(Lv1, 53, 39, 0, 0, 0, 0, 0, 0, 0)
  {
    assert Pow10(0) == 1 && Pow10(1) == 10 && Pow10(2) == 100 && Pow10(3) == 1000 && Pow10(4) == 10000;
    NumDigitsIs(5339, 4);
    LevelOfRules(5339);
    SouthWestBySlices(5339, Lv1, 53, 39, 0, 0, 0, 0, 0, 0, 0);
  }

  lemma Layout53391()
    ensures LevelOf(53391) == Ok(X40)
    ensures SouthWest(53391, X40) == Corner(X40, 53, 39, 1, 0, 0, 0, 0, 0, 0)
  {
    assert Pow10(0) == 1 && Pow10(1) == 10 && Pow10(2) == 100 && Pow10(3) == 1000 && Pow10(4) == 10000 && Pow10(5) == 100000;
    NumDigitsIs(53391, 5);
    LevelOfRules(53391);
    SouthWestBySlices(53391, X40, 53, 39, 1, 0, 0, 0, 0, 0, 0);
  }

  lemma Layout5339115()
    ensures LevelOf(5339115) == Ok(X20)
    ensures SouthWest(5339115, X20) == Corner(X20, 53, 39, 1, 1, 5, 0, 0, 0, 0)
  {
    assert Pow10(0) == 1 && Pow10(1) == 10 && Pow10(2) == 100 && Pow10(3) == 1000 && Pow10(4) == 10000 && Pow10(5) == 100000 && Pow10(6) == 1000000 && Pow10(7) == 10000000;
    NumDigitsIs(5339115, 7);
    LevelOfRules(5339115);
    SouthWestBySlices(5339115, X20, 53, 39, 1, 1, 5, 0, 0, 0, 0);
  }

  lemma Layout5339007()
    ensures LevelOf(5339007) == Ok(X16)
    ensures SouthWest(5339007, X16) == Corner(X16, 53, 39, 0, 0, 7, 0, 0, 0, 0)
  {
    assert Pow10(0) == 1 && Pow10(1) == 10 && Pow10(2) == 100 && Pow10(3) == 1000 && Pow10(4) == 10000 && Pow10(5) == 100000 && Pow10(6) == 1000000 && Pow10(7) == 10000000;
    NumDigitsIs(5339007, 7);
    LevelOfRules(5339007);
    SouthWestBySlices(5339007, X16, 53, 39, 0, 0, 7, 0, 0, 0, 0);
  }

  lemma Layout533900()
    ensures LevelOf(533900) == Ok(Lv2)
    ensures SouthWest(533900, Lv2) == Corner(Lv2, 53, 39, 0, 0, 0, 0, 0, 0, 0)
  {
    assert Pow10(0) == 1 && Pow10(1) == 10 && Pow10(2) == 100 && Pow10(3) == 1000 && Pow10(4) == 10000 && Pow10(5) == 100000 && Pow10(6) == 1000000;
    NumDigitsIs(533900, 6);
    LevelOfRules(533900);
    SouthWestBySlices(533900, Lv2, 53, 39, 0, 0, 0, 0, 0, 0, 0);
  }

  lemma Layout5339006()
    ensures LevelOf(5339006) == Ok(X8)
    ensures SouthWest(5339006, X8) == Corner(X8, 53, 39, 0, 0, 6, 0, 0, 0, 0)
  {
    assert Pow10(0) == 1 && Pow10(1) == 10 && Pow10(2) == 100 && Pow10(3) == 1000 && Pow10(4) == 10000 && Pow10(5) == 100000 && Pow10(6) == 1000000 && Pow10(7) == 10000000;
    NumDigitsIs(5339006, 7);
    LevelOfRules(5339006);
    SouthWestBySlices(5339006, X8, 53, 39, 0, 0, 6, 0, 0, 0, 0);
  }

  lemma Layout5339001()
    ensures LevelOf(5339001) == Ok(X5)
    ensures SouthWest(5339001, X5) == Corner(X5, 53, 39, 0, 0, 1, 0, 0, 0, 0)
  {
    assert Pow10(0) == 1 && Pow10(1) == 10 && Pow10(2) == 100 && Pow10(3) == 1000 && Pow10(4) == 10000 && Pow10(5) == 100000 && Pow10(6) == 1000000 && Pow10(7) == 10000000;
    NumDigitsIs(5339001, 7);
    LevelOfRules(5339001);
    SouthWestBySlices(5339001, X5, 53, 39, 0, 0, 1, 0, 0, 0, 0);
  }

  lemma Layout533900617()
    ensures LevelOf(533900617) == Ok(X4)
    ensures SouthWest(533900617, X4) == Corner(X4, 53, 39, 0, 0, 6, 1, 7, 0, 0)
  {
    assert Pow10(0) == 1 && Pow10(1) == 10 && Pow10(2) == 100 && Pow10(3) == 1000 && Pow10(4) == 10000 && Pow10(5) == 100000 && Pow10(6) == 1000000 && Pow10(7) == 10000000 && Pow10(8) == 100000000 && Pow10(9) == 1000000000;
    NumDigitsIs(533900617, 9);
    LevelOfRules(533900617);
    SouthWestBySlices(533900617, X4, 53, 39, 0, 0, 6, 1, 7, 0, 0);
  }

  lemma Layout533900116()
    ensures LevelOf(533900116) == Ok(X2_5)
    ensures SouthWest(533900116, X2_5) == Corner(X2_5, 53, 39, 0, 0, 1, 1, 6, 0, 0)
  {
    assert Pow10(0) == 1 && Pow10(1) == 10 && Pow10(2) == 100 && Pow10(3) == 1000 && Pow10(4) == 10000 && Pow10(5) == 100000 && Pow10(6) == 1000000 && Pow10(7) == 10000000 && Pow10(8) == 100000000 && Pow10(9) == 1000000000;
    NumDigitsIs(533900116, 9);
    LevelOfRules(533900116);
    SouthWestBySlices(533900116, X2_5, 53, 39, 0, 0, 1, 1, 6, 0, 0);
  }

  lemma Layout533900005()
    ensures LevelOf(533900005) == Ok(X2)
    ensures SouthWest(533900005, X2) == Corner(X2, 53, 39, 0, 0, 0, 0, 5, 0, 0)
  {
    assert Pow10(0) == 1 && Pow10(1) == 10 && Pow10(2) == 100 && Pow10(3) == 1000 && Pow10(4) == 10000 && Pow10(5) == 100000 && Pow10(6) == 1000000 && Pow10(7) == 10000000 && Pow10(8) == 100000000 && Pow10(9) == 1000000000;
    NumDigitsIs(533900005, 9);
    LevelOfRules(533900005);
    SouthWestBySlices(533900005, X2, 53, 39, 0, 0, 0, 0, 5, 0, 0);
  }

  lemma Layout53390000()
    ensures LevelOf(53390000) == Ok(Lv3)
    ensures SouthWest(53390000, Lv3) == Corner(Lv3, 53, 39, 0, 0, 0, 0, 0, 0, 0)
  {
    assert Pow10(0) == 1 && Pow10(1) == 10 && Pow10(2) == 100 && Pow10(3) == 1000 && Pow10(4) == 10000 && Pow10(5) == 100000 && Pow10(6) == 1000000 && Pow10(7) == 10000000 && Pow10(8) == 100000000;
    NumDigitsIs(53390000, 8);
    LevelOfRules(53390000);
    SouthWestBySlices(53390000, Lv3, 53, 39, 0, 0, 0, 0, 0, 0, 0);
  }

  lemma Layout533900001()
    ensures LevelOf(533900001) == Ok(Lv4)
    ensures SouthWest(533900001, Lv4) == Corner(Lv4, 53, 39, 0, 0, 0, 0, 1, 0, 0)
  {
    assert Pow10(0) == 1 && Pow10(1) == 10 && Pow10(2) == 100 && Pow10(3) == 1000 && Pow10(4) == 10000 && Pow10(5) == 100000 && Pow10(6) == 1000000 && Pow10(7) == 10000000 && Pow10(8) == 100000000 && Pow10(9) == 1000000000;
    NumDigitsIs(533900001, 9);
    LevelOfRules(533900001);
    SouthWestBySlices(533900001, Lv4, 53, 39, 0, 0, 0, 0, 1, 0, 0);
  }

  lemma Layout5339000011()
    ensures LevelOf(5339000011) == Ok(Lv5)
    ensures SouthWest(5339000011, Lv5) == Corner(Lv5, 53, 39, 0, 0, 0, 0, 1, 1, 0)
  {
    assert Pow10(0) == 1 && Pow10(1) == 10 && Pow10(2) == 100 && Pow10(3) == 1000 && Pow10(4) == 10000 && Pow10(5) == 100000 && Pow10(6) == 1000000 && Pow10(7) == 10000000 && Pow10(8) == 100000000 && Pow10(9) == 1000000000 && Pow10(10) == 10000000000;
    NumDigitsIs(5339000011, 10);
    LevelOfRules(5339000011);
    SouthWestBySlices(5339000011, Lv5, 53, 39, 0, 0, 0, 0, 1, 1, 0);
  }

  lemma Layout53390000111()
    ensures LevelOf(53390000111) == Ok(Lv6)
    ensures SouthWest(53390000111, Lv6) == Corner(Lv6, 53, 39, 0, 0, 0, 0, 1, 1, 1)
  {
    assert Pow10(0) == 1 && Pow10(1) == 10 && Pow10(2) == 100 && Pow10(3) == 1000 && Pow10(4) == 10000 && Pow10(5) == 100000 && Pow10(6) == 1000000 && Pow10(7) == 10000000 && Pow10(8) == 100000000 && Pow10(9) == 1000000000 && Pow10(10) == 10000000000 && Pow10(11) == 100000000000;
    NumDigitsIs(53390000111, 11);
    LevelOfRules(53390000111);
    SouthWestBySlices(53390000111, Lv6, 53, 39, 0, 0, 0, 0, 1, 1, 1);
  }

  lemma Layout53393599212()
    ensures LevelOf(53393599212) == Ok(Lv6)
    ensures SouthWest(53393599212, Lv6) == Corner(Lv6, 53, 39, 3, 5, 9, 9, 2, 1, 2)
  {
    LeadingSlices53393599212();
    TrailingSlices53393599212();
    LevelOfRules(53393599212);
    SouthWestBySlices(53393599212, Lv6, 53, 39, 3, 5, 9, 9, 2, 1, 2);
  }

  lemma LeadingSlices53393599212()
    ensures NumDigits(53393599212) == 11
    ensures Slice(53393599212, 0, 2) == 53 && Slice(53393599212, 2, 4) == 39
    ensures Slice(53393599212, 4, 5) == 3 && Slice(53393599212, 5, 6) == 5
  {
    assert Pow10(5) == 100000 && Pow10(6) == 1000000 && Pow10(7) == 10000000 && Pow10(9) == 1000000000 && Pow10(10) == 10000000000 && Pow10(11) == 100000000000;
    NumDigitsIs(53393599212, 11);
  }

  lemma TrailingSlices53393599212()
    ensures Slice(53393599212, 6, 7) == 9 && Slice(53393599212, 7, 8) == 9
    ensures Slice(53393599212, 8, 9) == 2 && Slice(53393599212, 9, 10) == 1 && Slice(53393599212, 10, 11) == 2
  {
    assert Pow10(0) == 1 && Pow10(1) == 10 && Pow10(2) == 100 && Pow10(3) == 1000 && Pow10(4) == 10000 && Pow10(5) == 100000 && Pow10(10) == 10000000000 && Pow10(11) == 100000000000;
    NumDigitsIs(53393599212, 11);
  }


  /** Every digit of these codes is 0 or, for a quadrant, the south-west quadrant 1. */
  lemma ZeroCorners()
    ensures Corner(Lv1, 53, 39, 0, 0, 0, 0, 0, 0, 0) == (35.0 + 1.0 / 3.0, 139.0)
    ensures Corner(X40, 53, 39, 1, 0, 0, 0, 0, 0, 0) == (35.0 + 1.0 / 3.0, 139.0)
    ensures Corner(X20, 53, 39, 1, 1, 5, 0, 0, 0, 0) == (35.0 + 1.0 / 3.0, 139.0)
    ensures Corner(X16, 53, 39, 0, 0, 7, 0, 0, 0, 0) == (35.0 + 1.0 / 3.0, 139.0)
    ensures Corner(Lv2, 53, 39, 0, 0, 0, 0, 0, 0, 0) == (35.0 + 1.0 / 3.0, 139.0)
    ensures Corner(X8, 53, 39, 0, 0, 6, 0, 0, 0, 0) == (35.0 + 1.0 / 3.0, 139.0)
    ensures Corner(X5, 53, 39, 0, 0, 1, 0, 0, 0, 0) == (35.0 + 1.0 / 3.0, 139.0)
    ensures Corner(X4, 53, 39, 0, 0, 6, 1, 7, 0, 0) == (35.0 + 1.0 / 3.0, 139.0)
    ensures Corner(X2_5, 53, 39, 0, 0, 1, 1, 6, 0, 0) == (35.0 + 1.0 / 3.0, 139.0)
    ensures Corner(X2, 53, 39, 0, 0, 0, 0, 5, 0, 0) == (35.0 + 1.0 / 3.0, 139.0)
    ensures Corner(Lv3, 53, 39, 0, 0, 0, 0, 0, 0, 0) == (35.0 + 1.0 / 3.0, 139.0)
    ensures Corner(Lv4, 53, 39, 0, 0, 0, 0, 1, 0, 0) == (35.0 + 1.0 / 3.0, 139.0)
    ensures Corner(Lv5, 53, 39, 0, 0, 0, 0, 1, 1, 0) == (35.0 + 1.0 / 3.0, 139.0)
    ensures Corner(Lv6, 53, 39, 0, 0, 0, 0, 1, 1, 1) == (35.0 + 1.0 / 3.0, 139.0)
  {
  }

  /** The codes of the table down to 5 km cells have the south-west corner of 5339. */
  lemma CoarseCodesAtOrigin()
    ensures LevelOf(5339) == Ok(Lv1) && SouthWest(5339, Lv1) == (35.0 + 1.0 / 3.0, 139.0)
    ensures LevelOf(53391) == Ok(X40) && SouthWest(53391, X40) == (35.0 + 1.0 / 3.0, 139.0)
    ensures LevelOf(5339115) == Ok(X20) && SouthWest(5339115, X20) == (35.0 + 1.0 / 3.0, 139.0)
    ensures LevelOf(5339007) == Ok(X16) && SouthWest(5339007, X16) == (35.0 + 1.0 / 3.0, 139.0)
    ensures LevelOf(533900) == Ok(Lv2) && SouthWest(533900, Lv2) == (35.0 + 1.0 / 3.0, 139.0)
    ensures LevelOf(5339006) == Ok(X8) && SouthWest(5339006, X8) == (35.0 + 1.0 / 3.0, 139.0)
    ensures LevelOf(5339001) == Ok(X5) && SouthWest(5339001, X5) == (35.0 + 1.0 / 3.0, 139.0)
  {
    ZeroCorners();
    Layout5339();
    Layout53391();
    Layout5339115();
    Layout5339007();
    Layout533900();
    Layout5339006();
    Layout5339001();
  }

  /** The codes of the table from 4 km cells down have the south-west corner of 5339. */
  lemma FineCodesAtOrigin()
    ensures LevelOf(533900617) == Ok(X4) && SouthWest(533900617, X4) == (35.0 + 1.0 / 3.0, 139.0)
    ensures LevelOf(533900116) == Ok(X2_5) && SouthWest(533900116, X2_5) == (35.0 + 1.0 / 3.0, 139.0)
    ensures LevelOf(533900005) == Ok(X2) && SouthWest(533900005, X2) == (35.0 + 1.0 / 3.0, 139.0)
    ensures LevelOf(53390000) == Ok(Lv3) && SouthWest(53390000, Lv3) == (35.0 + 1.0 / 3.0, 139.0)
    ensures LevelOf(533900001) == Ok(Lv4) && SouthWest(533900001, Lv4) == (35.0 + 1.0 / 3.0, 139.0)
    ensures LevelOf(5339000011) == Ok(Lv5) && SouthWest(5339000011, Lv5) == (35.0 + 1.0 / 3.0, 139.0)
    ensures LevelOf(53390000111) == Ok(Lv6) && SouthWest(53390000111, Lv6) == (35.0 + 1.0 / 3.0, 139.0)
  {
    ZeroCorners();
    Layout533900617();
    Layout533900116();
    Layout533900005();
    Layout53390000();
    Layout533900001();
    Layout5339000011();
    Layout53390000111();
  }

  /** The last row: the centre of the 125 m cell 53393599212. */
  lemma CentreOf53393599212()
    ensures LevelOf(53393599212) == Ok(Lv6)
    ensures MeshPoint(53393599212, Lv6, 0.5, 0.5).0 == 35.0 + 1.0 / 3.0 + 1.0 / 4.0 + 9.0 / 120.0 + 1.0 / 1920.0
    ensures MeshPoint(53393599212, Lv6, 0.5, 0.5).1 == 139.74609375
  {
    Layout53393599212();
    ScaleIsUnitTimesMultiplier(Lv6, 0.5, 0.5);
  }

  /** 53390000111 is a 100 m code whose point at multipliers 0 is the
      south-west corner of 5339. */
  lemma ZeroPointOf53390000111()
    ensures LevelOf(53390000111) == Ok(Lv6)
    ensures MeshPoint(53390000111, Lv6, 0.0, 0.0) == (35.0 + 1.0 / 3.0, 139.0)
  {
    Layout53390000111();
    ZeroCorners();
    MeshPointCorners(53390000111, Lv6);
  }

  /** Any number of copies of 53390000111 with as many zero multipliers
      (ten in the vector test): every element is the south-west corner of 5339. */
  lemma CopiesOf53390000111(codes: seq<nat>)
    requires forall t :: 0 <= t < |codes| ==> codes[t] == 53390000111
    ensures var zeros := seq(|codes|, _ => 0.0);
      DecodeDefined(codes, zeros, zeros) &&
      DecodeBatch(codes, zeros, zeros).Ok? &&
      |DecodeBatch(codes, zeros, zeros).value| == |codes| &&
      forall t :: 0 <= t < |codes| ==>
        DecodeBatch(codes, zeros, zeros).value[t].0 == 35.0 + 1.0 / 3.0
        && DecodeBatch(codes, zeros, zeros).value[t].1 == 139.0
  {
    var zeros := seq(|codes|, _ => 0.0);
    ZeroPointOf53390000111();
    if |codes| > 0 {
      RepeatedCode(codes, 53390000111, zeros, zeros, 0.0, 0.0);
    } else {
      assert InferBatch(codes).Ok?;
    }
  }
}
