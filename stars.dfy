/**
 * The star rating every legacy challenge variant computes when it finishes: bit `i` of the
 * rating is set when target `i` of the challenge is known and satisfied, summed in `uint`
 * arithmetic, and the result is capped at 7.
 */
module Stars {
  import opened Common
  import opened Catalog

  /** What a variant measures its targets against. */
  datatype Measure =
    | ScoreMeasure(totalScore: int)                      // boss and story: GetTotalScore()
    | MemoryMeasure(roundsLeft: nat, deadAvatars: nat)   // memory: RoundsLeft, DeadAvatarNum

  /** The per-target test: boss and story only know TOTAL_SCORE, memory only ROUNDS_LEFT and DEAD_AVATAR. */
  predicate Satisfied(t: ChallengeTarget, m: Measure) {
    match m
    case ScoreMeasure(total) => t.kind == TotalScoreType && total >= t.param1
    case MemoryMeasure(rounds, dead) =>
      (t.kind == RoundsLeftType && rounds >= t.param1) || (t.kind == DeadAvatarType && dead == 0)
  }

  /** Target `i` exists in the table and is satisfied. */
  predicate Hit(ids: seq<int>, table: map<int, ChallengeTarget>, m: Measure, i: nat)
    requires i < |ids|
  {
    ids[i] in table && Satisfied(table[ids[i]], m)
  }

  /** `1u << i`: C# masks the shift count of a 32-bit shift to its low five bits. */
  function ShiftOne(i: nat): (r: nat)
    ensures r < TwoTo32
  {
    Pow2Bound(i % 32);
    Pow2(i % 32)
  }

  lemma {:induction false} Pow2Bound(k: nat)
    requires k < 32
    ensures Pow2(k) <= TwoTo31
  {
    if k > 0 {
      Pow2Bound(k - 1);
      assert Pow2(k) == 2 * Pow2(k - 1);
      assert Pow2(k - 1) <= Pow2(30) by { Pow2Monotone(k - 1, 30); }
      assert Pow2(30) == 0x4000_0000 by { Pow2Of30(); }
    }
  }

  lemma {:induction false} Pow2Monotone(a: nat, b: nat)
    requires a <= b
    ensures Pow2(a) <= Pow2(b)
    decreases b - a
  {
    if a < b {
      Pow2Monotone(a, b - 1);
    }
  }

  lemma Pow2Of30()
    ensures Pow2(30) == 0x4000_0000
  {
    assert Pow2(10) == 1024;
    assert Pow2(20) == 1024 * 1024 by { Pow2Add(10, 10); }
    Pow2Add(20, 10);
  }

  lemma {:induction false} Pow2Add(a: nat, b: nat)
    ensures Pow2(a + b) == Pow2(a) * Pow2(b)
    decreases b
  {
    if b > 0 {
      Pow2Add(a, b - 1);
      assert Pow2(a + b) == 2 * Pow2(a + b - 1);
    }
  }

  /** The `uint` sum the loop holds after visiting the first `n` targets. */
  function StarSum(ids: seq<int>, table: map<int, ChallengeTarget>, m: Measure, n: nat): (r: nat)
    requires n <= |ids|
    ensures r < TwoTo32
  {
    if n == 0 then 0
    else ToUInt32(StarSum(ids, table, m, n - 1) + (if Hit(ids, table, m, n - 1) then ShiftOne(n - 1) else 0))
  }

  /** `Math.Min(stars, 7)` over the full target list. */
  function StarRating(ids: seq<int>, table: map<int, ChallengeTarget>, m: Measure): (r: nat)
    ensures r <= 7
  {
    Min(StarSum(ids, table, m, |ids|), 7)
  }

  /** The CalculateStars loop shared by the three variants. */
  method CalculateStars(ids: seq<int>, table: map<int, ChallengeTarget>, m: Measure) returns (stars: nat)
    ensures stars == StarRating(ids, table, m)
  {
    stars := 0;
    var i := 0;
    while i < |ids|
      invariant 0 <= i <= |ids|
      invariant stars == StarSum(ids, table, m, i)
    {
      var hit := false;
      if ids[i] in table {
        var target := table[ids[i]];
        hit := Satisfied(target, m);
      }
      assert hit == Hit(ids, table, m, i);
      if hit {
        stars := ToUInt32(stars + ShiftOne(i));
      }
      assert stars == StarSum(ids, table, m, i + 1);
      i := i + 1;
    }
    stars := Min(stars, 7);
  }

  /** Number of targets among the first `n` that are hit. */
  function HitCount(ids: seq<int>, table: map<int, ChallengeTarget>, m: Measure, n: nat): (r: nat)
    requires n <= |ids|
    ensures r <= n
  {
    if n == 0 then 0 else HitCount(ids, table, m, n - 1) + (if Hit(ids, table, m, n - 1) then 1 else 0)
  }

  /** 1 when target `i` exists and is hit, else 0. */
  function HitBit(ids: seq<int>, table: map<int, ChallengeTarget>, m: Measure, i: nat): nat {
    if i < |ids| && Hit(ids, table, m, i) then 1 else 0
  }

  lemma StarSumOfThree(ids: seq<int>, table: map<int, ChallengeTarget>, m: Measure)
    requires |ids| <= 3
    ensures StarSum(ids, table, m, |ids|)
            == HitBit(ids, table, m, 0) + 2 * HitBit(ids, table, m, 1) + 4 * HitBit(ids, table, m, 2)
  {
    var b0, b1, b2 := HitBit(ids, table, m, 0), HitBit(ids, table, m, 1), HitBit(ids, table, m, 2);
    assert ShiftOne(0) == 1 && ShiftOne(1) == 2 && ShiftOne(2) == 4 by {
      assert Pow2(0) == 1 && Pow2(1) == 2 && Pow2(2) == 4;
    }
    if |ids| >= 1 {
      assert StarSum(ids, table, m, 1) == ToUInt32(0 + b0 * ShiftOne(0));
      assert StarSum(ids, table, m, 1) == b0;
    }
    if |ids| >= 2 {
      assert StarSum(ids, table, m, 2) == ToUInt32(b0 + b1 * 2);
    }
    if |ids| >= 3 {
      assert StarSum(ids, table, m, 3) == ToUInt32(b0 + 2 * b1 + b2 * 4);
    }
  }

  lemma HitCountOfThree(ids: seq<int>, table: map<int, ChallengeTarget>, m: Measure)
    requires |ids| <= 3
    ensures HitCount(ids, table, m, |ids|)
            == HitBit(ids, table, m, 0) + HitBit(ids, table, m, 1) + HitBit(ids, table, m, 2)
  {
    if |ids| >= 1 {
      assert HitCount(ids, table, m, 1) == HitBit(ids, table, m, 0);
    }
    if |ids| >= 2 {
      assert HitCount(ids, table, m, 2) == HitBit(ids, table, m, 0) + HitBit(ids, table, m, 1);
    }
  }

  /** Reading back the three low bits of `b0 + 2*b1 + 4*b2`. */
  lemma LowBits(x: nat, b0: nat, b1: nat, b2: nat)
    requires b0 <= 1 && b1 <= 1 && b2 <= 1 && x == b0 + 2 * b1 + 4 * b2
    ensures TestBit(x, 0) <==> b0 == 1
    ensures TestBit(x, 1) <==> b1 == 1
    ensures TestBit(x, 2) <==> b2 == 1
    ensures x < 8
  {
    assert Pow2(0) == 1 && Pow2(1) == 2 && Pow2(2) == 4;
  }

  /**
   * With at most three targets (the shape of every challenge row) the rating is an exact bit
   * set: bit `i` is set iff target `i` is known and satisfied, and no higher bit is set.
   */
  lemma StarRatingBits(ids: seq<int>, table: map<int, ChallengeTarget>, m: Measure)
    requires |ids| <= 3
    ensures StarRating(ids, table, m) < Pow2(|ids|)
    ensures forall i :: 0 <= i < |ids| ==> (TestBit(StarRating(ids, table, m), i) <==> Hit(ids, table, m, i))
  {
    var b0, b1, b2 := HitBit(ids, table, m, 0), HitBit(ids, table, m, 1), HitBit(ids, table, m, 2);
    StarSumOfThree(ids, table, m);
    var x := StarSum(ids, table, m, |ids|);
    LowBits(x, b0, b1, b2);
    assert Pow2(0) == 1 && Pow2(1) == 2 && Pow2(2) == 4 && Pow2(3) == 8;
  }

  /** The popcount of the low three bits that SaveBattleRecord stores as the record's stars. */
  function LowStarCount(stars: nat): (r: nat)
    ensures r <= 3
  {
    (if TestBit(stars, 0) then 1 else 0) + (if TestBit(stars, 1) then 1 else 0)
    + (if TestBit(stars, 2) then 1 else 0)
  }

  /** The three-iteration loop of SaveBattleRecord that counts the low star bits. */
  method CountStars(stars: nat) returns (count: nat)
    ensures count == LowStarCount(stars)
  {
    count := 0;
    var i := 0;
    while i < 3
      invariant 0 <= i <= 3
      invariant count == (if i > 0 && TestBit(stars, 0) then 1 else 0)
                       + (if i > 1 && TestBit(stars, 1) then 1 else 0)
                       + (if i > 2 && TestBit(stars, 2) then 1 else 0)
    {
      if TestBit(stars, i) {
        count := count + 1;
      }
      i := i + 1;
    }
  }

  /** For a rating of at most three targets the recorded star count is the number of targets met. */
  lemma RecordedStarsCountTargets(ids: seq<int>, table: map<int, ChallengeTarget>, m: Measure)
    requires |ids| <= 3
    ensures LowStarCount(StarRating(ids, table, m)) == HitCount(ids, table, m, |ids|)
  {
    var b0, b1, b2 := HitBit(ids, table, m, 0), HitBit(ids, table, m, 1), HitBit(ids, table, m, 2);
    StarSumOfThree(ids, table, m);
    HitCountOfThree(ids, table, m);
    var x := StarSum(ids, table, m, |ids|);
    LowBits(x, b0, b1, b2);
    assert StarRating(ids, table, m) == x;
  }
}
