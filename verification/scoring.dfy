/**
 * The scoring and statistics engine: the score of one attack, the mean
 * efficiency of a batch, its letter grade, the stars histogram, the
 * lower / equal / higher Town Hall matchup buckets, and the best and worst
 * attack.
 *
 * Numbers are exact reals: 0.4 and the multipliers 0.9 … 1.3 are the decimal
 * values themselves, not their nearest binary doubles.
 */
module Scoring {
  import opened Wrappers
  import opened Rules

  /** One recorded attack: the enemy's Town Hall, stars won, destruction in percent. */
  datatype Attack = Attack(enemyTh: int, stars: int, destruction: real)

  /** The star table has an entry for the attack's star count. */
  predicate Scorable(a: Attack) {
    0 <= a.stars <= 3
  }

  predicate AllScorable(attacks: seq<Attack>) {
    forall i :: 0 <= i < |attacks| ==> Scorable(attacks[i])
  }

  /** An attack inside the ranges `collectAttacks` accepts; one outside them rejects the whole batch. */
  predicate ValidAttack(a: Attack): (r: bool)
    ensures !r <==> (a.enemyTh < 7 || a.enemyTh > 18 || a.stars < 0 || a.stars > 3 ||
                     a.destruction < 0.0 || a.destruction > 100.0)
    ensures r ==> Scorable(a) && a.enemyTh in MIN_LEAGUE_BY_TH
  {
    MinLeagueTableDomain();
    7 <= a.enemyTh <= 18 && 0 <= a.stars <= 3 && 0.0 <= a.destruction <= 100.0
  }

  predicate AllValid(attacks: seq<Attack>) {
    forall i :: 0 <= i < |attacks| ==> ValidAttack(attacks[i])
  }

  // ----- Score of one attack -----

  /** Base score per star count (at most 60). */
  const STAR_SCORES: seq<real> := [0.0, 20.0, 40.0, 60.0]

  function StarScore(stars: int): (r: real)
    requires 0 <= stars <= 3
    ensures r == 20.0 * stars as real
  {
    STAR_SCORES[stars]
  }

  /** Star score plus 0.4 points per percent of destruction. */
  function BaseScore(a: Attack): (r: real)
    requires Scorable(a)
    ensures 0.0 <= a.destruction ==> 0.0 <= r
    ensures a.destruction <= 100.0 ==> r <= 100.0
  {
    StarScore(a.stars) + a.destruction * 0.4
  }

  /** `thDiff` cut down to the range -1 .. 3 over which the multiplier steps. */
  function ClampDiff(thDiff: int): int {
    if thDiff < -1 then -1 else if thDiff > 3 then 3 else thDiff
  }

  /**
   * The matchup multiplier: 1.3 from three levels up, 1.2 and 1.1 for two and
   * one level up, 1.0 for an equal Town Hall, 0.9 for any lower one.
   */
  function Multiplier(thDiff: int): (m: real)
    ensures 0.9 <= m <= 1.3
    ensures m == 1.0 + 0.1 * ClampDiff(thDiff) as real
  {
    if thDiff >= 3 then 1.3
    else if thDiff == 2 then 1.2
    else if thDiff == 1 then 1.1
    else if thDiff < 0 then 0.9
    else 1.0
  }

  /** The score of one attack: base score times multiplier, capped at 100. */
  function AttackScore(a: Attack, playerTh: int): (r: real)
    requires Scorable(a)
    ensures r <= 100.0
    ensures 0.0 <= a.destruction ==> 0.0 <= r
    ensures r == 100.0 || r == BaseScore(a) * Multiplier(a.enemyTh - playerTh)
    ensures BaseScore(a) * Multiplier(a.enemyTh - playerTh) >= 100.0 ==> r == 100.0
    ensures BaseScore(a) * Multiplier(a.enemyTh - playerTh) < 100.0 ==> r == BaseScore(a) * Multiplier(a.enemyTh - playerTh)
  {
    var finalScore := BaseScore(a) * Multiplier(a.enemyTh - playerTh);
    if finalScore < 100.0 then finalScore else 100.0
  }

  /** The multiplier never falls as the enemy's Town Hall rises relative to the player's. */
  lemma MultiplierMonotone(d1: int, d2: int)
    requires d1 <= d2
    ensures Multiplier(d1) <= Multiplier(d2)
  {
  }

  /** More destruction never lowers the score, other things equal. */
  lemma ScoreMonotoneInDestruction(a: Attack, b: Attack, playerTh: int)
    requires Scorable(a) && b.stars == a.stars && b.enemyTh == a.enemyTh
    requires a.destruction <= b.destruction
    ensures AttackScore(a, playerTh) <= AttackScore(b, playerTh)
  {
  }

  /** A larger Town Hall difference never lowers the score of the same (non-negative) result. */
  lemma ScoreMonotoneInThDiff(a: Attack, b: Attack, playerA: int, playerB: int)
    requires Scorable(a) && b.stars == a.stars && b.destruction == a.destruction
    requires 0.0 <= a.destruction
    requires a.enemyTh - playerA <= b.enemyTh - playerB
    ensures AttackScore(a, playerA) <= AttackScore(b, playerB)
  {
    MultiplierMonotone(a.enemyTh - playerA, b.enemyTh - playerB);
    var base := BaseScore(a);
    assert base * Multiplier(a.enemyTh - playerA) <= base * Multiplier(b.enemyTh - playerB);
  }

  /** Worked examples: equal, much higher and lower Town Hall. */
  lemma ScoreExamples()
    ensures AttackScore(Attack(10, 2, 60.0), 10) == 64.0
    ensures AttackScore(Attack(13, 3, 100.0), 10) == 100.0
    ensures AttackScore(Attack(9, 1, 30.0), 12) == 28.8
  {
  }

  // ----- Overall efficiency -----

  /** The score of every attack, in order. */
  function Scores(attacks: seq<Attack>, playerTh: int): (r: seq<real>)
    requires AllScorable(attacks)
    ensures |r| == |attacks|
    ensures forall i :: 0 <= i < |attacks| ==> r[i] == AttackScore(attacks[i], playerTh)
  {
    if attacks == [] then []
    else Scores(attacks[..|attacks| - 1], playerTh) + [AttackScore(attacks[|attacks| - 1], playerTh)]
  }

  function Sum(xs: seq<real>): real {
    if xs == [] then 0.0 else Sum(xs[..|xs| - 1]) + xs[|xs| - 1]
  }

  /** total / count, or 0 for no items (an empty batch or an empty bucket). */
  function Average(total: real, count: nat): (r: real)
    ensures count == 0 ==> r == 0.0
    ensures count > 0 ==> r * count as real == total
  {
    if count > 0 then total / count as real else 0.0
  }

  /** The mean score, 0 for no attacks. */
  function Mean(attacks: seq<Attack>, playerTh: int): (r: real)
    requires AllScorable(attacks)
    ensures attacks == [] ==> r == 0.0
    ensures attacks != [] ==> r == Sum(Scores(attacks, playerTh)) / |attacks| as real
  {
    Average(Sum(Scores(attacks, playerTh)), |attacks|)
  }

  /** Adding one more attack adds its score to the running total. */
  lemma SumScoresStep(attacks: seq<Attack>, playerTh: int, i: nat)
    requires AllScorable(attacks) && i < |attacks|
    ensures AllScorable(attacks[..i]) && AllScorable(attacks[..i + 1])
    ensures Sum(Scores(attacks[..i + 1], playerTh)) == Sum(Scores(attacks[..i], playerTh)) + AttackScore(attacks[i], playerTh)
  {
    assert attacks[..i + 1][..i] == attacks[..i];
    var xs := Scores(attacks[..i + 1], playerTh);
    assert xs[..|xs| - 1] == Scores(attacks[..i], playerTh);
  }

  method OverallEfficiency(attacks: seq<Attack>, playerTh: int) returns (efficiency: real)
    requires AllScorable(attacks)
    ensures efficiency == Mean(attacks, playerTh)
  {
    if |attacks| == 0 {
      return 0.0;
    }
    var total := 0.0;
    for i := 0 to |attacks|
      invariant AllScorable(attacks[..i])
      invariant total == Sum(Scores(attacks[..i], playerTh))
    {
      SumScoresStep(attacks, playerTh, i);
      total := total + AttackScore(attacks[i], playerTh);
    }
    assert attacks[..|attacks|] == attacks;
    efficiency := total / |attacks| as real;
  }

  lemma {:induction false} SumBounds(xs: seq<real>, lo: real, hi: real)
    requires forall i :: 0 <= i < |xs| ==> lo <= xs[i] <= hi
    ensures lo * |xs| as real <= Sum(xs) <= hi * |xs| as real
  {
    if xs != [] {
      var init := xs[..|xs| - 1];
      assert forall i :: 0 <= i < |init| ==> init[i] == xs[i];
      SumBounds(init, lo, hi);
      assert Sum(xs) == Sum(init) + xs[|xs| - 1];
      assert |xs| as real == |init| as real + 1.0;
      StepBounds(Sum(init), xs[|xs| - 1], |init| as real, lo, hi);
    }
  }

  lemma StepBounds(sum: real, last: real, n: real, lo: real, hi: real)
    requires lo * n <= sum <= hi * n && lo <= last <= hi
    ensures lo * (n + 1.0) <= sum + last <= hi * (n + 1.0)
  {
  }

  lemma QuotientBounds(x: real, n: real, lo: real, hi: real)
    requires 0.0 < n && lo * n <= x <= hi * n
    ensures lo <= x / n <= hi
  {
  }

  /** A mean of scores that all lie in [lo, hi] lies in [lo, hi]. */
  lemma MeanWithin(attacks: seq<Attack>, playerTh: int, lo: real, hi: real)
    requires AllScorable(attacks) && attacks != []
    requires forall i :: 0 <= i < |attacks| ==> lo <= AttackScore(attacks[i], playerTh) <= hi
    ensures lo <= Mean(attacks, playerTh) <= hi
  {
    var xs := Scores(attacks, playerTh);
    assert forall i :: 0 <= i < |xs| ==> lo <= xs[i] <= hi;
    AverageWithin(xs, lo, hi);
  }

  lemma AverageWithin(xs: seq<real>, lo: real, hi: real)
    requires xs != [] && forall i :: 0 <= i < |xs| ==> lo <= xs[i] <= hi
    ensures lo <= Sum(xs) / |xs| as real <= hi
  {
    SumBounds(xs, lo, hi);
    QuotientBounds(Sum(xs), |xs| as real, lo, hi);
  }

  /** The efficiency lies between the worst and the best single score. */
  lemma MeanBetweenExtremes(attacks: seq<Attack>, playerTh: int)
    requires AllScorable(attacks) && attacks != []
    ensures exists i :: 0 <= i < |attacks| && AttackScore(attacks[i], playerTh) <= Mean(attacks, playerTh)
    ensures exists j :: 0 <= j < |attacks| && Mean(attacks, playerTh) <= AttackScore(attacks[j], playerTh)
  {
    var w, b := Extremes(attacks, playerTh, |attacks|);
    MeanWithin(attacks, playerTh, AttackScore(attacks[w], playerTh), AttackScore(attacks[b], playerTh));
  }

  /** For attacks in range, the efficiency is a percentage: 0 .. 100. */
  lemma EfficiencyInRange(attacks: seq<Attack>, playerTh: int)
    requires AllValid(attacks)
    ensures AllScorable(attacks)
    ensures 0.0 <= Mean(attacks, playerTh) <= 100.0
  {
    if attacks != [] {
      MeanWithin(attacks, playerTh, 0.0, 100.0);
    }
  }

  // ----- Grade -----

  /**
   * The first grade, in table order, whose threshold the efficiency reaches;
   * C when none is reached (a negative efficiency).
   */
  method GetGrade(efficiency: real) returns (grade: Grade)
    ensures grade == S <==> efficiency >= 90.0
    ensures grade == A <==> 80.0 <= efficiency < 90.0
    ensures grade == B <==> 70.0 <= efficiency < 80.0
    ensures grade == C <==> efficiency < 70.0
  {
    var i := 0;
    while i < |GRADE_THRESHOLDS|
      invariant 0 <= i <= |GRADE_THRESHOLDS|
      invariant forall k :: 0 <= k < i ==> efficiency < GRADE_THRESHOLDS[k].1
    {
      if efficiency >= GRADE_THRESHOLDS[i].1 {
        assert i > 0 ==> efficiency < GRADE_THRESHOLDS[i - 1].1;
        return GRADE_THRESHOLDS[i].0;
      }
      i := i + 1;
    }
    assert efficiency < GRADE_THRESHOLDS[2].1;
    return C;
  }

  /** Because the thresholds descend, the first one met is the highest one met. */
  lemma FirstThresholdMetIsHighest(efficiency: real, i: nat)
    requires i < |GRADE_THRESHOLDS| && efficiency >= GRADE_THRESHOLDS[i].1
    requires forall k :: 0 <= k < i ==> efficiency < GRADE_THRESHOLDS[k].1
    ensures forall j :: 0 <= j < |GRADE_THRESHOLDS| && efficiency >= GRADE_THRESHOLDS[j].1 ==>
      GRADE_THRESHOLDS[j].1 <= GRADE_THRESHOLDS[i].1
  {
    GradeThresholdsDescending();
  }

  // ----- Stars breakdown -----

  /** How many attacks won exactly `stars` stars. */
  function CountStars(attacks: seq<Attack>, stars: int): nat {
    if attacks == [] then 0
    else CountStars(attacks[..|attacks| - 1], stars) + (if attacks[|attacks| - 1].stars == stars then 1 else 0)
  }

  lemma {:induction false} StarCountsSum(attacks: seq<Attack>)
    requires AllScorable(attacks)
    ensures CountStars(attacks, 0) + CountStars(attacks, 1) + CountStars(attacks, 2) + CountStars(attacks, 3) == |attacks|
  {
    if attacks != [] {
      var init := attacks[..|attacks| - 1];
      assert forall i :: 0 <= i < |init| ==> init[i] == attacks[i];
      StarCountsSum(init);
    }
  }

  method StarsBreakdown(attacks: seq<Attack>) returns (breakdown: map<int, nat>)
    requires AllScorable(attacks)
    ensures breakdown.Keys == {0, 1, 2, 3}
    ensures forall k :: k in breakdown ==> breakdown[k] == CountStars(attacks, k)
    ensures breakdown[0] + breakdown[1] + breakdown[2] + breakdown[3] == |attacks|
  {
    breakdown := map[0 := 0, 1 := 0, 2 := 0, 3 := 0];
    for i := 0 to |attacks|
      invariant breakdown.Keys == {0, 1, 2, 3}
      invariant forall k :: k in breakdown ==> breakdown[k] == CountStars(attacks[..i], k)
    {
      assert attacks[..i + 1][..i] == attacks[..i];
      var stars := attacks[i].stars;
      breakdown := breakdown[stars := breakdown[stars] + 1];
    }
    assert attacks[..|attacks|] == attacks;
    StarCountsSum(attacks);
  }

  // ----- Town Hall matchup -----

  datatype Matchup = Lower | Equal | Higher

  /** The bucket keys in the order the averages are filled in. */
  const MATCHUPS: seq<Matchup> := [Lower, Equal, Higher]

  /** Each attack falls in exactly one bucket, by comparing the two Town Halls. */
  function Classify(enemyTh: int, playerTh: int): (m: Matchup)
    ensures m == Lower <==> enemyTh < playerTh
    ensures m == Equal <==> enemyTh == playerTh
    ensures m == Higher <==> enemyTh > playerTh
  {
    if enemyTh < playerTh then Lower else if enemyTh > playerTh then Higher else Equal
  }

  datatype BucketStats = BucketStats(count: nat, total: real, average: real)

  function BucketCount(attacks: seq<Attack>, playerTh: int, m: Matchup): nat {
    if attacks == [] then 0 else
      var last := attacks[|attacks| - 1];
      BucketCount(attacks[..|attacks| - 1], playerTh, m) + (if Classify(last.enemyTh, playerTh) == m then 1 else 0)
  }

  function BucketTotal(attacks: seq<Attack>, playerTh: int, m: Matchup): real
    requires AllScorable(attacks)
  {
    if attacks == [] then 0.0 else
      var last := attacks[|attacks| - 1];
      BucketTotal(attacks[..|attacks| - 1], playerTh, m)
        + (if Classify(last.enemyTh, playerTh) == m then AttackScore(last, playerTh) else 0.0)
  }


  /** A bucket's count and total, before its average is filled in. */
  function RunningBucket(attacks: seq<Attack>, playerTh: int, m: Matchup): BucketStats
    requires AllScorable(attacks)
  {
    BucketStats(BucketCount(attacks, playerTh, m), BucketTotal(attacks, playerTh, m), 0.0)
  }

  /** One more attack adds one to its own bucket's count and its score to that bucket's total. */
  lemma BucketStep(attacks: seq<Attack>, playerTh: int, i: nat, m: Matchup)
    requires AllScorable(attacks) && i < |attacks|
    ensures AllScorable(attacks[..i]) && AllScorable(attacks[..i + 1])
    ensures var before := RunningBucket(attacks[..i], playerTh, m);
      RunningBucket(attacks[..i + 1], playerTh, m) ==
        if Classify(attacks[i].enemyTh, playerTh) == m
        then before.(count := before.count + 1, total := before.total + AttackScore(attacks[i], playerTh))
        else before
  {
    assert attacks[..i + 1][..i] == attacks[..i];
  }

  method ThMatchupStats(attacks: seq<Attack>, playerTh: int) returns (stats: map<Matchup, BucketStats>)
    requires AllScorable(attacks)
    ensures stats.Keys == {Lower, Equal, Higher}
    ensures forall m :: m in stats ==>
      stats[m].count == BucketCount(attacks, playerTh, m) &&
      stats[m].total == BucketTotal(attacks, playerTh, m) &&
      stats[m].average == Average(stats[m].total, stats[m].count)
  {
    stats := map[Lower := BucketStats(0, 0.0, 0.0), Equal := BucketStats(0, 0.0, 0.0), Higher := BucketStats(0, 0.0, 0.0)];
    for i := 0 to |attacks|
      invariant AllScorable(attacks[..i])
      invariant stats.Keys == {Lower, Equal, Higher}
      invariant stats[Lower] == RunningBucket(attacks[..i], playerTh, Lower)
      invariant stats[Equal] == RunningBucket(attacks[..i], playerTh, Equal)
      invariant stats[Higher] == RunningBucket(attacks[..i], playerTh, Higher)
    {
      BucketStep(attacks, playerTh, i, Lower);
      BucketStep(attacks, playerTh, i, Equal);
      BucketStep(attacks, playerTh, i, Higher);
      var score := AttackScore(attacks[i], playerTh);
      var key := Equal;
      if attacks[i].enemyTh < playerTh {
        key := Lower;
      } else if attacks[i].enemyTh > playerTh {
        key := Higher;
      }
      stats := stats[key := stats[key].(count := stats[key].count + 1, total := stats[key].total + score)];
    }
    assert attacks[..|attacks|] == attacks;
    for j := 0 to |MATCHUPS|
      invariant stats.Keys == {Lower, Equal, Higher}
      invariant forall m :: m in stats ==>
        stats[m].count == BucketCount(attacks, playerTh, m) &&
        stats[m].total == BucketTotal(attacks, playerTh, m) &&
        stats[m].average == (if m in MATCHUPS[..j] then Average(stats[m].total, stats[m].count) else 0.0)
    {
      assert MATCHUPS[..j + 1] == MATCHUPS[..j] + [MATCHUPS[j]];
      var key := MATCHUPS[j];
      if stats[key].count > 0 {
        stats := stats[key := stats[key].(average := stats[key].total / stats[key].count as real)];
      }
    }
    assert MATCHUPS[..|MATCHUPS|] == [Lower, Equal, Higher];
  }

  /** The bucket counts add up to the number of attacks. */
  lemma {:induction false} MatchupCountsSum(attacks: seq<Attack>, playerTh: int)
    ensures BucketCount(attacks, playerTh, Lower) + BucketCount(attacks, playerTh, Equal)
      + BucketCount(attacks, playerTh, Higher) == |attacks|
  {
    if attacks != [] {
      MatchupCountsSum(attacks[..|attacks| - 1], playerTh);
    }
  }

  /** The bucket totals add up to the sum of all scores. */
  lemma {:induction false} MatchupTotalsSum(attacks: seq<Attack>, playerTh: int)
    requires AllScorable(attacks)
    ensures BucketTotal(attacks, playerTh, Lower) + BucketTotal(attacks, playerTh, Equal)
      + BucketTotal(attacks, playerTh, Higher) == Sum(Scores(attacks, playerTh))
  {
    if attacks != [] {
      var init := attacks[..|attacks| - 1];
      assert forall i :: 0 <= i < |init| ==> init[i] == attacks[i];
      MatchupTotalsSum(init, playerTh);
      var xs := Scores(attacks, playerTh);
      assert xs[..|xs| - 1] == Scores(init, playerTh);
      var last := attacks[|attacks| - 1];
      var score := AttackScore(last, playerTh);
      var m := Classify(last.enemyTh, playerTh);
      assert Sum(xs) == Sum(Scores(init, playerTh)) + score;
      assert BucketTotal(attacks, playerTh, Lower) == BucketTotal(init, playerTh, Lower) + (if m == Lower then score else 0.0);
      assert BucketTotal(attacks, playerTh, Equal) == BucketTotal(init, playerTh, Equal) + (if m == Equal then score else 0.0);
      assert BucketTotal(attacks, playerTh, Higher) == BucketTotal(init, playerTh, Higher) + (if m == Higher then score else 0.0);
    }
  }

  lemma {:induction false} BucketTotalBounds(attacks: seq<Attack>, playerTh: int, m: Matchup)
    requires AllValid(attacks)
    ensures AllScorable(attacks)
    ensures 0.0 <= BucketTotal(attacks, playerTh, m) <= 100.0 * BucketCount(attacks, playerTh, m) as real
  {
    if attacks != [] {
      var init := attacks[..|attacks| - 1];
      assert forall i :: 0 <= i < |init| ==> init[i] == attacks[i];
      BucketTotalBounds(init, playerTh, m);
    }
  }

  /** For attacks in range, every bucket average is a percentage: 0 .. 100. */
  lemma BucketAverageInRange(attacks: seq<Attack>, playerTh: int, m: Matchup)
    requires AllValid(attacks)
    ensures AllScorable(attacks)
    ensures 0.0 <= Average(BucketTotal(attacks, playerTh, m), BucketCount(attacks, playerTh, m)) <= 100.0
  {
    BucketTotalBounds(attacks, playerTh, m);
    var count := BucketCount(attacks, playerTh, m);
    if count > 0 {
      QuotientBounds(BucketTotal(attacks, playerTh, m), count as real, 0.0, 100.0);
    }
  }

  // ----- Best and worst attack -----

  datatype ScoredAttack = ScoredAttack(attack: Attack, score: real)

  /** Attack `i` has the highest score among the first `n`, and every earlier attack scores strictly less. */
  predicate FirstBestUpTo(attacks: seq<Attack>, playerTh: int, i: nat, n: nat)
    requires AllScorable(attacks) && n <= |attacks|
  {
    i < n &&
    (forall j :: 0 <= j < n ==> AttackScore(attacks[j], playerTh) <= AttackScore(attacks[i], playerTh)) &&
    (forall j :: 0 <= j < i ==> AttackScore(attacks[j], playerTh) < AttackScore(attacks[i], playerTh))
  }

  /** Attack `i` has the lowest score among the first `n`, and every earlier attack scores strictly more. */
  predicate FirstWorstUpTo(attacks: seq<Attack>, playerTh: int, i: nat, n: nat)
    requires AllScorable(attacks) && n <= |attacks|
  {
    i < n &&
    (forall j :: 0 <= j < n ==> AttackScore(attacks[i], playerTh) <= AttackScore(attacks[j], playerTh)) &&
    (forall j :: 0 <= j < i ==> AttackScore(attacks[i], playerTh) < AttackScore(attacks[j], playerTh))
  }

  function Scored(attacks: seq<Attack>, playerTh: int, i: nat): ScoredAttack
    requires AllScorable(attacks) && i < |attacks|
  {
    ScoredAttack(attacks[i], AttackScore(attacks[i], playerTh))
  }

  /**
   * The best and the worst attack with their scores; ties go to the earliest
   * attack. Neither exists for no attacks.
   */
  method BestAndWorstAttack(attacks: seq<Attack>, playerTh: int)
    returns (best: Option<ScoredAttack>, worst: Option<ScoredAttack>)
    requires AllScorable(attacks)
    ensures best.None? <==> attacks == []
    ensures worst.None? <==> attacks == []
    ensures best.Some? ==> exists i :: FirstBestUpTo(attacks, playerTh, i, |attacks|) && best.value == Scored(attacks, playerTh, i)
    ensures worst.Some? ==> exists i :: FirstWorstUpTo(attacks, playerTh, i, |attacks|) && worst.value == Scored(attacks, playerTh, i)
  {
    if |attacks| == 0 {
      return None, None;
    }
    best, worst := None, None;
    ghost var bi: nat, wi: nat := 0, 0;
    for i := 0 to |attacks|
      invariant i == 0 ==> best.None? && worst.None?
      invariant i > 0 ==> best.Some? && FirstBestUpTo(attacks, playerTh, bi, i) && best.value == Scored(attacks, playerTh, bi)
      invariant i > 0 ==> worst.Some? && FirstWorstUpTo(attacks, playerTh, wi, i) && worst.value == Scored(attacks, playerTh, wi)
    {
      var score := AttackScore(attacks[i], playerTh);
      if best.None? || score > best.value.score {
        best := Some(ScoredAttack(attacks[i], score));
        bi := i;
      }
      if worst.None? || score < worst.value.score {
        worst := Some(ScoredAttack(attacks[i], score));
        wi := i;
      }
    }
  }

  /** Every non-empty batch has a first best and a first worst attack. */
  lemma {:induction false} Extremes(attacks: seq<Attack>, playerTh: int, n: nat) returns (w: nat, b: nat)
    requires AllScorable(attacks) && 0 < n <= |attacks|
    ensures FirstWorstUpTo(attacks, playerTh, w, n) && FirstBestUpTo(attacks, playerTh, b, n)
  {
    if n == 1 {
      w, b := 0, 0;
    } else {
      w, b := Extremes(attacks, playerTh, n - 1);
      var last := AttackScore(attacks[n - 1], playerTh);
      if last < AttackScore(attacks[w], playerTh) {
        w := n - 1;
      }
      if last > AttackScore(attacks[b], playerTh) {
        b := n - 1;
      }
    }
  }
}
