/**
 * The game's rule tables: ranked availability, the leagues with their number
 * of attacks, the lowest league open to each Town Hall level, and the grade
 * thresholds.
 */
module Rules {
  import opened Wrappers
  import opened JsText

  /** Town Hall level from which ranked play is available. */
  const MIN_RANKED_TH: int := 7

  /** A league: a numbered tier ("Skeleton 1" … "Electro 33") or the daily Legend League. */
  datatype League = Numbered(tier: string, number: nat) | Legend {
    /** The league's key in the table, as shown to the user. */
    function Name(): string {
      match this
      case Numbered(tier, n) => tier + " " + Decimal(n)
      case Legend => "Legend League"
    }
  }

  datatype LeagueEntry = LeagueEntry(league: League, attacks: nat)

  /** The league table in declaration order, with the number of attacks of each league. */
  const LEAGUES: seq<LeagueEntry> := [
    LeagueEntry(Numbered("Skeleton", 1), 6),
    LeagueEntry(Numbered("Skeleton", 2), 6),
    LeagueEntry(Numbered("Skeleton", 3), 6),
    LeagueEntry(Numbered("Barbarian", 4), 6),
    LeagueEntry(Numbered("Barbarian", 5), 6),
    LeagueEntry(Numbered("Barbarian", 6), 6),
    LeagueEntry(Numbered("Archer", 7), 8),
    LeagueEntry(Numbered("Archer", 8), 8),
    LeagueEntry(Numbered("Archer", 9), 8),
    LeagueEntry(Numbered("Wizard", 10), 8),
    LeagueEntry(Numbered("Wizard", 11), 8),
    LeagueEntry(Numbered("Wizard", 12), 8),
    LeagueEntry(Numbered("Valkyrie", 13), 8),
    LeagueEntry(Numbered("Valkyrie", 14), 8),
    LeagueEntry(Numbered("Valkyrie", 15), 8),
    LeagueEntry(Numbered("Witch", 16), 10),
    LeagueEntry(Numbered("Witch", 17), 10),
    LeagueEntry(Numbered("Witch", 18), 10),
    LeagueEntry(Numbered("Golem", 19), 12),
    LeagueEntry(Numbered("Golem", 20), 12),
    LeagueEntry(Numbered("Golem", 21), 12),
    LeagueEntry(Numbered("P.E.K.K.A", 22), 12),
    LeagueEntry(Numbered("P.E.K.K.A", 23), 12),
    LeagueEntry(Numbered("P.E.K.K.A", 24), 14),
    LeagueEntry(Numbered("Titan", 25), 14),
    LeagueEntry(Numbered("Titan", 26), 18),
    LeagueEntry(Numbered("Titan", 27), 18),
    LeagueEntry(Numbered("Dragon", 28), 24),
    LeagueEntry(Numbered("Dragon", 29), 24),
    LeagueEntry(Numbered("Dragon", 30), 24),
    LeagueEntry(Numbered("Electro", 31), 30),
    LeagueEntry(Numbered("Electro", 32), 30),
    LeagueEntry(Numbered("Electro", 33), 30),
    // Daily mode
    LeagueEntry(Legend, 8)
  ]

  /** The number of numbered leagues. */
  const NUMBERED_LEAGUES: nat := 33

  /** The lowest league number offered to each Town Hall level. */
  const MIN_LEAGUE_BY_TH: map<int, nat> := map[
    7 := 1, 8 := 2, 9 := 3, 10 := 4, 11 := 6, 12 := 8,
    13 := 11, 14 := 14, 15 := 17, 16 := 21, 17 := 25, 18 := 25
  ]

  datatype Grade = S | A | B | C

  /** Grade thresholds, in the order they are tried. */
  const GRADE_THRESHOLDS: seq<(Grade, real)> := [(S, 90.0), (A, 80.0), (B, 70.0), (C, 0.0)]

  /** `LEAGUES[name]`: the attack count of the first league with that key, if any. */
  function AttackCount(name: string): (r: Option<nat>)
    ensures r.None? <==> forall i :: 0 <= i < |LEAGUES| ==> LEAGUES[i].league.Name() != name
    ensures r.Some? ==> exists i :: 0 <= i < |LEAGUES| && LEAGUES[i].league.Name() == name && r.value == LEAGUES[i].attacks
  {
    Find(LEAGUES, name)
  }

  function Find(entries: seq<LeagueEntry>, name: string): (r: Option<nat>)
    ensures r.None? <==> forall i :: 0 <= i < |entries| ==> entries[i].league.Name() != name
    ensures r.Some? ==> exists i :: 0 <= i < |entries| && entries[i].league.Name() == name && r.value == entries[i].attacks
  {
    if entries == [] then None
    else if entries[0].league.Name() == name then Some(entries[0].attacks)
    else Find(entries[1..], name)
  }

  predicate NonDecreasing(s: seq<nat>) {
    forall i, j :: 0 <= i <= j < |s| ==> s[i] <= s[j]
  }

  function AttackCounts(entries: seq<LeagueEntry>): (r: seq<nat>)
    ensures |r| == |entries|
    ensures forall i :: 0 <= i < |entries| ==> r[i] == entries[i].attacks
  {
    if entries == [] then [] else [entries[0].attacks] + AttackCounts(entries[1..])
  }

  // ----- Table facts -----

  /** The numbered leagues are 1 .. 33, each once, in that order, followed by the Legend League with 8 attacks. */
  lemma LeagueTableShape()
    ensures |LEAGUES| == NUMBERED_LEAGUES + 1
    ensures forall i :: 0 <= i < NUMBERED_LEAGUES ==>
      LEAGUES[i].league.Numbered? && LEAGUES[i].league.number == i + 1
    ensures LEAGUES[NUMBERED_LEAGUES] == LeagueEntry(Legend, 8)
  {
  }

  /** The Legend League is the only league without a number. */
  lemma LegendIsOnlyUnnumbered()
    ensures forall i :: 0 <= i < |LEAGUES| ==> (LEAGUES[i].league.Legend? <==> i == NUMBERED_LEAGUES)
  {
    LeagueTableShape();
  }

  /** Whenever one step of a sequence is non-decreasing, the whole sequence is. */
  lemma {:induction false} StepwiseNonDecreasing(s: seq<nat>)
    requires forall i :: 0 <= i < |s| - 1 ==> s[i] <= s[i + 1]
    ensures NonDecreasing(s)
  {
    if |s| > 1 {
      StepwiseNonDecreasing(s[1..]);
      assert forall j :: 1 <= j < |s| ==> s[j] == s[1..][j - 1];
      assert NonDecreasing(s[1..]);
      forall i, j | 0 <= i <= j < |s| ensures s[i] <= s[j] {
        if 0 < i {
          assert s[i] == s[1..][i - 1] && s[j] == s[1..][j - 1];
        } else if 0 < j {
          assert s[1] == s[1..][0] && s[j] == s[1..][j - 1];
        }
      }
    }
  }

  /**
   * The attack count of numbered league `n`, as a step function of the number:
   * 6 up to league 6, 8 up to 15, 10 up to 18, 12 up to 23, 14 up to 25,
   * 18 up to 27, 24 up to 30, and 30 above.
   */
  function AttacksForNumber(n: nat): nat {
    if n <= 6 then 6
    else if n <= 15 then 8
    else if n <= 18 then 10
    else if n <= 23 then 12
    else if n <= 25 then 14
    else if n <= 27 then 18
    else if n <= 30 then 24
    else 30
  }

  /** Each numbered league's attack count is the step function's value at its number. */
  lemma AttackCountsByNumber()
    ensures forall i :: 0 <= i < NUMBERED_LEAGUES ==> LEAGUES[i].attacks == AttacksForNumber(i + 1)
  {
  }

  /** Attack counts never decrease as the league number rises. */
  lemma NumberedAttackCountsNonDecreasing()
    ensures NonDecreasing(AttackCounts(LEAGUES[..NUMBERED_LEAGUES]))
  {
    AttackCountsByNumber();
    var counts := AttackCounts(LEAGUES[..NUMBERED_LEAGUES]);
    assert forall i :: 0 <= i < |counts| ==> counts[i] == AttacksForNumber(i + 1);
    StepwiseNonDecreasing(counts);
  }

  /** MIN_LEAGUE_BY_TH covers exactly Town Halls 7 .. 18, and MIN_RANKED_TH is its smallest key. */
  lemma MinLeagueTableDomain()
    ensures forall th :: th in MIN_LEAGUE_BY_TH <==> 7 <= th <= 18
    ensures MIN_RANKED_TH in MIN_LEAGUE_BY_TH
    ensures forall th :: th in MIN_LEAGUE_BY_TH ==> MIN_RANKED_TH <= th
  {
  }

  /** A higher Town Hall never lowers the minimum league. */
  lemma MinLeagueNonDecreasing()
    ensures forall t1, t2 :: t1 in MIN_LEAGUE_BY_TH && t2 in MIN_LEAGUE_BY_TH && t1 <= t2 ==>
      MIN_LEAGUE_BY_TH[t1] <= MIN_LEAGUE_BY_TH[t2]
  {
  }

  /** Every minimum league is an existing numbered league. */
  lemma MinLeagueExists()
    ensures forall th :: th in MIN_LEAGUE_BY_TH ==> 1 <= MIN_LEAGUE_BY_TH[th] <= NUMBERED_LEAGUES
  {
  }

  /** The grade thresholds strictly descend in the order they are tried. */
  lemma GradeThresholdsDescending()
    ensures forall i, j :: 0 <= i < j < |GRADE_THRESHOLDS| ==> GRADE_THRESHOLDS[i].1 > GRADE_THRESHOLDS[j].1
  {
  }

  // ----- League names -----

  /**
   * The number at the end of a league's key, as the league filter reads it:
   * `parseInt(key.split(" ").pop(), 10)`, or NaN (`None`).
   */
  function LeagueNumberOf(key: string): (r: Option<nat>)
    ensures var t := LastToken(key); r.None? <==> t == [] || !IsDigit(t[0])
    ensures var t := LastToken(key); t != [] && AllDigits(t) ==> r == Some(DigitsValue(t))
  {
    var t := LastToken(key);
    if AllDigits(t) then LeadingDigitsOfDigits(t); assert t[..|t|] == t; ParseInt(t) else ParseInt(t)
  }

  /** Reading the number back out of a league's key, as the league filter does, gives its number. */
  lemma NameNumber(l: League)
    ensures LeagueNumberOf(l.Name()) == if l.Numbered? then Some(l.number) else None
  {
    match l
    case Numbered(tier, n) =>
      LastTokenAfterBlank(tier, Decimal(n));
      ParseIntOfDecimal(n);
    case Legend =>
      assert l.Name() == "Legend" + " " + "League";
      LastTokenAfterBlank("Legend", "League");
  }

  /** No two leagues share a key. */
  lemma LeagueNamesDistinct()
    ensures forall i, j :: 0 <= i < j < |LEAGUES| ==> LEAGUES[i].league.Name() != LEAGUES[j].league.Name()
  {
    LeagueTableShape();
    forall i, j | 0 <= i < j < |LEAGUES|
      ensures LEAGUES[i].league.Name() != LEAGUES[j].league.Name()
    {
      NameNumber(LEAGUES[i].league);
      NameNumber(LEAGUES[j].league);
    }
  }

  lemma {:induction false} FindAt(entries: seq<LeagueEntry>, k: nat)
    requires k < |entries|
    requires forall i :: 0 <= i < k ==> entries[i].league.Name() != entries[k].league.Name()
    ensures Find(entries, entries[k].league.Name()) == Some(entries[k].attacks)
  {
    if k > 0 {
      FindAt(entries[1..], k - 1);
    }
  }

  /** Looking a league up by its key gives that league's attack count. */
  lemma AttackCountOfLeague(k: nat)
    requires k < |LEAGUES|
    ensures AttackCount(LEAGUES[k].league.Name()) == Some(LEAGUES[k].attacks)
  {
    LeagueNamesDistinct();
    FindAt(LEAGUES, k);
  }
}
