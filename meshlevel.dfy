/** Level inference: which of the fourteen levels a mesh code denotes, decided
    by its digit count and, for 7, 9, 10 and 11 digits, by its last digit. */
module MeshLevelInference {
  import opened Levels
  import opened Errors
  import opened Digits

  /** The level of a single code. A zero code has one digit and so no level. */
  function LevelOf(code: nat): (r: Result<MeshLevel>)
    ensures r.Ok? ==> 4 <= NumDigits(code) <= 11
    ensures r.Err? ==>
              (r.error == UnknownMeshLevelForCode(code) || r.error == InvalidMeshcodeAtLevel(NumDigits(code), code))
  {
    var n := NumDigits(code);
    var g, i, j, k := Slice(code, 6, 7), Slice(code, 8, 9), Slice(code, 9, 10), Slice(code, 10, 11);
    match n
    case 4 => Ok(Lv1)
    case 5 => Ok(X40)
    case 6 => Ok(Lv2)
    case 7 =>
      if 1 <= g <= 4 then Ok(X5)
      else if g == 5 then Ok(X20)
      else if g == 6 then Ok(X8)
      else if g == 7 then Ok(X16)
      else Err(InvalidMeshcodeAtLevel(7, code))
    case 8 => Ok(Lv3)
    case 9 =>
      if 1 <= i <= 4 then Ok(Lv4)
      else if i == 5 then Ok(X2)
      else if i == 6 then Ok(X2_5)
      else if i == 7 then Ok(X4)
      else Err(InvalidMeshcodeAtLevel(9, code))
    case 10 =>
      if 1 <= j <= 4 then Ok(Lv5) else Err(InvalidMeshcodeAtLevel(10, code))
    case 11 =>
      if 1 <= k <= 4 then Ok(Lv6) else Err(InvalidMeshcodeAtLevel(11, code))
    case _ => Err(UnknownMeshLevelForCode(code))
  }

  /** The digit count of the codes of each level. */
  function DigitCount(level: MeshLevel): (n: nat)
    ensures 4 <= n <= 11
  {
    match level
    case Lv1 => 4
    case X40 => 5
    case Lv2 => 6
    case X20 | X16 | X8 | X5 => 7
    case Lv3 => 8
    case X4 | X2_5 | X2 | Lv4 => 9
    case Lv5 => 10
    case Lv6 => 11
  }

  /** The digit the extractor reads at position n-1 of an n-digit code is its last digit. */
  lemma SliceLast(code: nat)
    ensures Slice(code, NumDigits(code) - 1, NumDigits(code)) == code % 10
  {
  }

  /** The inference rules, stated through the digit count and the last digit. */
  lemma LevelOfRules(code: nat)
    ensures var n, last := NumDigits(code), code % 10;
      && (n == 4 ==> LevelOf(code) == Ok(Lv1))
      && (n == 5 ==> LevelOf(code) == Ok(X40))
      && (n == 6 ==> LevelOf(code) == Ok(Lv2))
      && (n == 8 ==> LevelOf(code) == Ok(Lv3))
      && (n == 7 ==>
            LevelOf(code) ==
              (if 1 <= last <= 4 then Ok(X5) else if last == 5 then Ok(X20)
               else if last == 6 then Ok(X8) else if last == 7 then Ok(X16)
               else Err(InvalidMeshcodeAtLevel(7, code))))
      && (n == 9 ==>
            LevelOf(code) ==
              (if 1 <= last <= 4 then Ok(Lv4) else if last == 5 then Ok(X2)
               else if last == 6 then Ok(X2_5) else if last == 7 then Ok(X4)
               else Err(InvalidMeshcodeAtLevel(9, code))))
      && (n == 10 ==> LevelOf(code) == if 1 <= last <= 4 then Ok(Lv5) else Err(InvalidMeshcodeAtLevel(10, code)))
      && (n == 11 ==> LevelOf(code) == if 1 <= last <= 4 then Ok(Lv6) else Err(InvalidMeshcodeAtLevel(11, code)))
      && (n < 4 || n > 11 ==> LevelOf(code) == Err(UnknownMeshLevelForCode(code)))
  {
    SliceLast(code);
  }

  /** A code that infers to a level has that level's digit count. */
  lemma LevelOfDigitCount(code: nat, level: MeshLevel)
    requires LevelOf(code) == Ok(level)
    ensures NumDigits(code) == DigitCount(level)
  {
  }

  /** The element at index k is the first one in the batch whose inference fails with e. */
  predicate FirstFailure(codes: seq<nat>, e: JismeshError) {
    exists k :: 0 <= k < |codes| && LevelOf(codes[k]) == Err(e)
                && forall j :: 0 <= j < k ==> LevelOf(codes[j]).Ok?
  }

  /** The level of every element, or the error of the first element that has none. */
  function InferEach(codes: seq<nat>): (r: Result<seq<MeshLevel>>)
    ensures r.Ok? <==> forall k {:trigger LevelOf(codes[k])} :: 0 <= k < |codes| ==> LevelOf(codes[k]).Ok?
    ensures r.Ok? ==> |r.value| == |codes|
                      && forall k {:trigger r.value[k]} :: 0 <= k < |codes| ==> LevelOf(codes[k]) == Ok(r.value[k])
    ensures r.Err? ==> FirstFailure(codes, r.error)
  {
    if |codes| == 0 then Ok([])
    else
      match LevelOf(codes[0])
      case Err(e) => Err(e)
      case Ok(l) =>
        var rest := InferEach(codes[1..]);
        assert forall k :: 1 <= k < |codes| ==> codes[k] == codes[1..][k - 1];
        match rest
        case Err(e) =>
          assert FirstFailure(codes, e) by {
            var k :| 0 <= k < |codes[1..]| && LevelOf(codes[1..][k]) == Err(e)
                     && forall j :: 0 <= j < k ==> LevelOf(codes[1..][j]).Ok?;
            assert LevelOf(codes[k + 1]) == Err(e);
            assert forall j :: 0 <= j < k + 1 ==> LevelOf(codes[j]).Ok? by {
              forall j | 0 <= j < k + 1 ensures LevelOf(codes[j]).Ok? {
                if j > 0 { assert codes[j] == codes[1..][j - 1]; }
              }
            }
          }
          Err(e)
        case Ok(ls) => Ok([l] + ls)
  }

  /** Inference over a batch: a zero anywhere fails first, then the first
      element without a level decides the error. */
  function InferBatch(codes: seq<nat>): (r: Result<seq<MeshLevel>>)
    ensures 0 in codes ==> r == Err(UnknownMeshLevelForCode(0))
    ensures r.Ok? <==> 0 !in codes && forall k {:trigger LevelOf(codes[k])} :: 0 <= k < |codes| ==> LevelOf(codes[k]).Ok?
    ensures r.Ok? ==> |r.value| == |codes|
                      && forall k {:trigger r.value[k]} :: 0 <= k < |codes| ==> LevelOf(codes[k]) == Ok(r.value[k])
    ensures r.Err? && 0 !in codes ==> FirstFailure(codes, r.error)
  {
    if 0 in codes then Err(UnknownMeshLevelForCode(0)) else InferEach(codes)
  }

  /** Only one error can be the first failure of a batch. */
  lemma FirstFailureUnique(codes: seq<nat>, e1: JismeshError, e2: JismeshError)
    requires FirstFailure(codes, e1) && FirstFailure(codes, e2)
    ensures e1 == e2
  {
    var k1 :| 0 <= k1 < |codes| && LevelOf(codes[k1]) == Err(e1)
              && forall j :: 0 <= j < k1 ==> LevelOf(codes[j]).Ok?;
    var k2 :| 0 <= k2 < |codes| && LevelOf(codes[k2]) == Err(e2)
              && forall j :: 0 <= j < k2 ==> LevelOf(codes[j]).Ok?;
  }

  /** The batch inference loop, as the implementation runs it. */
  method ToMeshLevel(codes: seq<nat>) returns (r: Result<seq<MeshLevel>>)
    ensures r == InferBatch(codes)
  {
    if 0 in codes {
      return Err(UnknownMeshLevelForCode(0));
    }
    var numDigits := seq(|codes|, t requires 0 <= t < |codes| => NumDigits(codes[t]));
    var g := SliceBatch(codes, 6, 7);
    var i := SliceBatch(codes, 8, 9);
    var j := SliceBatch(codes, 9, 10);
    var k := SliceBatch(codes, 10, 11);
    var results: seq<MeshLevel> := [];
    for idx := 0 to |codes|
      invariant |results| == idx
      invariant forall t :: 0 <= t < idx ==> LevelOf(codes[t]) == Ok(results[t])
    {
      var level: MeshLevel;
      match numDigits[idx] {
      case 4 => level := Lv1;
      case 5 => level := X40;
      case 6 => level := Lv2;
      case 7 =>
        if 1 <= g[idx] <= 4 { level := X5; }
        else if g[idx] == 5 { level := X20; }
        else if g[idx] == 6 { level := X8; }
        else if g[idx] == 7 { level := X16; }
        else {
          r := Err(InvalidMeshcodeAtLevel(7, codes[idx]));
          FailureAt(codes, idx, r.error);
          return;
        }
      case 8 => level := Lv3;
      case 9 =>
        if 1 <= i[idx] <= 4 { level := Lv4; }
        else if i[idx] == 5 { level := X2; }
        else if i[idx] == 6 { level := X2_5; }
        else if i[idx] == 7 { level := X4; }
        else {
          r := Err(InvalidMeshcodeAtLevel(9, codes[idx]));
          FailureAt(codes, idx, r.error);
          return;
        }
      case 10 =>
        if 1 <= j[idx] <= 4 { level := Lv5; }
        else {
          r := Err(InvalidMeshcodeAtLevel(10, codes[idx]));
          FailureAt(codes, idx, r.error);
          return;
        }
      case 11 =>
        if 1 <= k[idx] <= 4 { level := Lv6; }
        else {
          r := Err(InvalidMeshcodeAtLevel(11, codes[idx]));
          FailureAt(codes, idx, r.error);
          return;
        }
      case _ =>
        r := Err(UnknownMeshLevelForCode(codes[idx]));
        FailureAt(codes, idx, r.error);
        return;
      }
      results := results + [level];
    }
    var expected := InferBatch(codes);
    assert expected.Ok?;
    assert expected.value == results by {
      assert |expected.value| == |results|;
      forall t | 0 <= t < |results| ensures expected.value[t] == results[t] {
        assert LevelOf(codes[t]) == Ok(expected.value[t]);
      }
    }
    r := Ok(results);
  }

  /** A failure at index idx after idx successes is what the batch reports. */
  lemma FailureAt(codes: seq<nat>, idx: nat, e: JismeshError)
    requires 0 !in codes && idx < |codes| && LevelOf(codes[idx]) == Err(e)
    requires forall t :: 0 <= t < idx ==> LevelOf(codes[t]).Ok?
    ensures InferBatch(codes) == Err(e)
  {
    assert FirstFailure(codes, e);
    FirstFailureUnique(codes, e, InferBatch(codes).error);
  }

  /** A zero code fails the batch wherever it stands, even after a bad code. */
  lemma ZeroFailsFirst()
    ensures InferBatch([5339, 0]) == Err(UnknownMeshLevelForCode(0))
    ensures InferBatch([5, 0]) == Err(UnknownMeshLevelForCode(0))
    ensures InferBatch([5]) == Err(UnknownMeshLevelForCode(5))
  {
    assert 0 in [5339, 0] && 0 in [5, 0];
    assert LevelOf(5) == Err(UnknownMeshLevelForCode(5));
    FailureAt([5], 0, UnknownMeshLevelForCode(5));
  }

  /** The codes of the Tokyo test point infer to the levels they were encoded at. */
  lemma TokyoLevels()
    ensures LevelOf(5339) == Ok(Lv1) && LevelOf(53392) == Ok(X40) && LevelOf(5339235) == Ok(X20)
    ensures LevelOf(5339467) == Ok(X16) && LevelOf(533935) == Ok(Lv2) && LevelOf(5339476) == Ok(X8)
    ensures LevelOf(5339354) == Ok(X5) && LevelOf(533947637) == Ok(X4) && LevelOf(533935446) == Ok(X2_5)
    ensures LevelOf(533935885) == Ok(X2) && LevelOf(53393599) == Ok(Lv3) && LevelOf(533935992) == Ok(Lv4)
    ensures LevelOf(5339359921) == Ok(Lv5) && LevelOf(53393599212) == Ok(Lv6)
  {
    assert Pow10(3) == 1000 && Pow10(4) == 10000 && Pow10(5) == 100000 && Pow10(6) == 1000000;
    assert Pow10(7) == 10000000 && Pow10(8) == 100000000 && Pow10(9) == 1000000000;
    assert Pow10(10) == 10000000000 && Pow10(11) == 100000000000;
    LevelOfRules(5339); NumDigitsIs(5339, 4);
    LevelOfRules(53392); NumDigitsIs(53392, 5);
    LevelOfRules(5339235); NumDigitsIs(5339235, 7);
    LevelOfRules(5339467); NumDigitsIs(5339467, 7);
    LevelOfRules(533935); NumDigitsIs(533935, 6);
    LevelOfRules(5339476); NumDigitsIs(5339476, 7);
    LevelOfRules(5339354); NumDigitsIs(5339354, 7);
    LevelOfRules(533947637); NumDigitsIs(533947637, 9);
    LevelOfRules(533935446); NumDigitsIs(533935446, 9);
    LevelOfRules(533935885); NumDigitsIs(533935885, 9);
    LevelOfRules(53393599); NumDigitsIs(53393599, 8);
    LevelOfRules(533935992); NumDigitsIs(533935992, 9);
    LevelOfRules(5339359921); NumDigitsIs(5339359921, 10);
    LevelOfRules(53393599212); NumDigitsIs(53393599212, 11);
  }

  /** The codes of the Kyoto test point infer to the levels they were encoded at. */
  lemma KyotoLevels()
    ensures LevelOf(5235) == Ok(Lv1)
    ensures LevelOf(52352) == Ok(X40)
    ensures LevelOf(5235245) == Ok(X20)
    ensures LevelOf(5235467) == Ok(X16)
    ensures LevelOf(523536) == Ok(Lv2)
    ensures LevelOf(5235476) == Ok(X8)
    ensures LevelOf(5235363) == Ok(X5)
    ensures LevelOf(523547647) == Ok(X4)
    ensures LevelOf(523536336) == Ok(X2_5)
    ensures LevelOf(523536805) == Ok(X2)
    ensures LevelOf(52353680) == Ok(Lv3)
    ensures LevelOf(523536804) == Ok(Lv4)
    ensures LevelOf(5235368041) == Ok(Lv5)
    ensures LevelOf(52353680412) == Ok(Lv6)
  {
    assert Pow10(3) == 1000 && Pow10(4) == 10000 && Pow10(5) == 100000 && Pow10(6) == 1000000;
    assert Pow10(7) == 10000000 && Pow10(8) == 100000000 && Pow10(9) == 1000000000;
    assert Pow10(10) == 10000000000 && Pow10(11) == 100000000000;
    LevelOfRules(5235); NumDigitsIs(5235, 4);
    LevelOfRules(52352); NumDigitsIs(52352, 5);
    LevelOfRules(5235245); NumDigitsIs(5235245, 7);
    LevelOfRules(5235467); NumDigitsIs(5235467, 7);
    LevelOfRules(523536); NumDigitsIs(523536, 6);
    LevelOfRules(5235476); NumDigitsIs(5235476, 7);
    LevelOfRules(5235363); NumDigitsIs(5235363, 7);
    LevelOfRules(523547647); NumDigitsIs(523547647, 9);
    LevelOfRules(523536336); NumDigitsIs(523536336, 9);
    LevelOfRules(523536805); NumDigitsIs(523536805, 9);
    LevelOfRules(52353680); NumDigitsIs(52353680, 8);
    LevelOfRules(523536804); NumDigitsIs(523536804, 9);
    LevelOfRules(5235368041); NumDigitsIs(5235368041, 10);
    LevelOfRules(52353680412); NumDigitsIs(52353680412, 11);
  }
}
