/**
 * The logic inside the page script: which leagues a Town Hall may pick, how
 * many attack cards a league gets, the coupling between the stars and the
 * destruction inputs of one card, and the all-or-nothing collection of the
 * cards into attacks.
 */
module App {
  import opened Wrappers
  import opened JsText
  import opened Rules
  import opened Scoring

  const LEGEND_LEAGUE_NAME: string := "Legend League"

  // ----- League selection -----

  /** The keys of the league table, in table order (`Object.keys(LEAGUES)`). */
  function Keys(entries: seq<LeagueEntry>): (r: seq<string>)
    ensures |r| == |entries|
    ensures forall i :: 0 <= i < |entries| ==> r[i] == entries[i].league.Name()
  {
    if entries == [] then [] else Keys(entries[..|entries| - 1]) + [entries[|entries| - 1].league.Name()]
  }

  /** `leagueNumber >= minLeagueNumber`; a comparison with NaN or `undefined` is false. */
  predicate AtLeast(n: Option<nat>, min: Option<nat>): (r: bool)
    ensures n.None? || min.None? ==> !r
    ensures n.Some? && min.Some? ==> (r <==> min.value <= n.value)
  {
    n.Some? && min.Some? && n.value >= min.value
  }

  /** `MIN_LEAGUE_BY_TH[th]`, `undefined` (`None`) for a Town Hall outside the table. */
  function MinLeagueFor(th: int): (r: Option<nat>)
    ensures r.Some? <==> 7 <= th <= 18
    ensures r.Some? ==> r.value == MIN_LEAGUE_BY_TH[th] && 1 <= r.value <= NUMBERED_LEAGUES
  {
    MinLeagueTableDomain();
    MinLeagueExists();
    if th in MIN_LEAGUE_BY_TH then Some(MIN_LEAGUE_BY_TH[th]) else None
  }

  /**
   * Whether the league filter keeps a key: the Legend League's always, and
   * any other key only when a minimum is defined and its number reaches it.
   */
  predicate Offers(key: string, minLeague: Option<nat>): (r: bool)
    ensures key == LEGEND_LEAGUE_NAME ==> r
    ensures minLeague.None? ==> (r <==> key == LEGEND_LEAGUE_NAME)
    ensures key != LEGEND_LEAGUE_NAME && minLeague.Some? ==>
      (r <==> LeagueNumberOf(key).Some? && minLeague.value <= LeagueNumberOf(key).value)
  {
    key == LEGEND_LEAGUE_NAME || AtLeast(LeagueNumberOf(key), minLeague)
  }

  /** The keys the filter keeps, in table order. */
  function Offered(keys: seq<string>, minLeague: Option<nat>): (r: seq<string>)
    ensures |r| <= |keys|
    ensures forall i :: 0 <= i < |r| ==> Offers(r[i], minLeague)
  {
    if keys == [] then [] else
      var last := keys[|keys| - 1];
      Offered(keys[..|keys| - 1], minLeague) + (if Offers(last, minLeague) then [last] else [])
  }

  /**
   * Fills the league drop-down for the Town Hall typed in. A missing (0) or
   * unranked Town Hall disables it; otherwise the Legend League and every
   * numbered league from the Town Hall's minimum on are offered.
   */
  method UpdateLeagues(playerTh: int) returns (options: seq<string>, disabled: bool)
    ensures playerTh < MIN_RANKED_TH ==> disabled && options == []
    ensures MIN_RANKED_TH <= playerTh ==> !disabled && options == Offered(Keys(LEAGUES), MinLeagueFor(playerTh))
    ensures playerTh in MIN_LEAGUE_BY_TH ==>
      1 <= MIN_LEAGUE_BY_TH[playerTh] && options == Keys(LEAGUES)[MIN_LEAGUE_BY_TH[playerTh] - 1..]
    ensures playerTh > 18 ==> options == [LEGEND_LEAGUE_NAME]
  {
    if playerTh == 0 || playerTh < MIN_RANKED_TH {
      return [], true;
    }
    disabled := false;
    var minLeagueNumber := MinLeagueFor(playerTh);
    options := AddLeagueOptions(Keys(LEAGUES), minLeagueNumber);
    if playerTh in MIN_LEAGUE_BY_TH {
      OfferedForTableTh(playerTh);
    } else if playerTh > 18 {
      OfferedBeyondTable(playerTh);
    }
  }

  /** The `forEach` over the keys: appends every key the filter keeps, in table order. */
  method AddLeagueOptions(keys: seq<string>, minLeagueNumber: Option<nat>) returns (options: seq<string>)
    ensures options == Offered(keys, minLeagueNumber)
  {
    options := [];
    for i := 0 to |keys|
      invariant options == Offered(keys[..i], minLeagueNumber)
    {
      assert keys[..i + 1][..i] == keys[..i];
      var league := keys[i];
      if league == LEGEND_LEAGUE_NAME {
        options := options + [league];
      } else {
        var leagueNumber := LeagueNumberOf(league);
        if AtLeast(leagueNumber, minLeagueNumber) {
          options := options + [league];
        }
      }
    }
    assert keys[..|keys|] == keys;
  }

  /** For a Town Hall in the table: every league from its minimum on, up to and including the Legend League. */
  lemma OfferedForTableTh(playerTh: int)
    requires playerTh in MIN_LEAGUE_BY_TH
    ensures 1 <= MIN_LEAGUE_BY_TH[playerTh] <= NUMBERED_LEAGUES
    ensures Offered(Keys(LEAGUES), MinLeagueFor(playerTh)) == Keys(LEAGUES)[MIN_LEAGUE_BY_TH[playerTh] - 1..]
  {
    MinLeagueExists();
    KeyFacts();
    OfferedFromMinimum(Keys(LEAGUES), NUMBERED_LEAGUES, MIN_LEAGUE_BY_TH[playerTh]);
  }

  /** For a Town Hall above the table, `MIN_LEAGUE_BY_TH` is undefined and only the Legend League is offered. */
  lemma OfferedBeyondTable(playerTh: int)
    requires playerTh > 18
    ensures Offered(Keys(LEAGUES), MinLeagueFor(playerTh)) == [LEGEND_LEAGUE_NAME]
  {
    MinLeagueTableDomain();
    assert MinLeagueFor(playerTh) == None;
    KeyFacts();
    OfferedWithoutMinimum(Keys(LEAGUES), NUMBERED_LEAGUES);
  }

  /** The table's keys: 33 numbered leagues, then the Legend League. */
  lemma KeyFacts()
    ensures TableShaped(Keys(LEAGUES), NUMBERED_LEAGUES)
  {
    LeagueTableShape();
    var keys := Keys(LEAGUES);
    forall i | 0 <= i < NUMBERED_LEAGUES
      ensures NumberedAt(keys, i)
    {
      NameNumber(LEAGUES[i].league);
      NameNumber(Legend);
    }
  }

  /** `n` numbered keys followed by the Legend League's. */
  predicate TableShaped(keys: seq<string>, n: nat) {
    |keys| == n + 1 && NumberedKeys(keys, n) && keys[n] == LEGEND_LEAGUE_NAME
  }

  /** The first `n` keys are numbered 1 .. n, as the filter reads them, and none is the Legend League's. */
  predicate NumberedKeys(keys: seq<string>, n: nat) {
    n <= |keys| && forall i :: 0 <= i < n ==> NumberedAt(keys, i)
  }

  /** Key `i` is not the Legend League's and ends in the number i + 1. */
  predicate NumberedAt(keys: seq<string>, i: nat)
    requires i < |keys|
  {
    keys[i] != LEGEND_LEAGUE_NAME && LeagueNumberOf(keys[i]) == Some(i + 1)
  }

  /** One more numbered key: the filter keeps it exactly when its number reaches the minimum. */
  lemma OfferedStep(keys: seq<string>, minLeague: Option<nat>, k: nat)
    requires 0 < k <= |keys| && NumberedAt(keys, k - 1)
    ensures Offered(keys[..k], minLeague) == Offered(keys[..k - 1], minLeague) +
      (if minLeague.Some? && minLeague.value <= k then [keys[k - 1]] else [])
  {
    assert keys[..k][..k - 1] == keys[..k - 1];
    assert keys[..k][k - 1] == keys[k - 1];
  }

  /** Over the numbered keys, the filter keeps none of the leagues numbered below `minLeague`. */
  lemma {:induction false} OfferedBelowMinimum(keys: seq<string>, n: nat, minLeague: nat, k: nat)
    requires NumberedKeys(keys, n) && k < minLeague && k <= n
    ensures Offered(keys[..k], Some(minLeague)) == []
  {
    if k > 0 {
      OfferedBelowMinimum(keys, n, minLeague, k - 1);
      assert NumberedAt(keys, k - 1);
      OfferedStep(keys, Some(minLeague), k);
    }
  }

  /** Over the numbered keys, the filter keeps exactly the leagues numbered `minLeague` and up. */
  lemma {:induction false} OfferedNumberedPrefix(keys: seq<string>, n: nat, minLeague: nat, k: nat)
    requires NumberedKeys(keys, n) && 1 <= minLeague && minLeague - 1 <= k <= n
    ensures Offered(keys[..k], Some(minLeague)) == keys[minLeague - 1..k]
  {
    if k == minLeague - 1 {
      OfferedBelowMinimum(keys, n, minLeague, k);
    } else {
      OfferedNumberedPrefix(keys, n, minLeague, k - 1);
      OfferedKeptStep(keys, n, minLeague, k);
    }
  }

  lemma OfferedKeptStep(keys: seq<string>, n: nat, minLeague: nat, k: nat)
    requires NumberedKeys(keys, n) && 1 <= minLeague <= k <= n
    requires Offered(keys[..k - 1], Some(minLeague)) == keys[minLeague - 1..k - 1]
    ensures Offered(keys[..k], Some(minLeague)) == keys[minLeague - 1..k]
  {
    assert NumberedAt(keys, k - 1);
    OfferedStep(keys, Some(minLeague), k);
    SliceExtend(keys, minLeague - 1, k);
  }

  lemma SuffixSplitsOffLast<T>(s: seq<T>, a: nat)
    requires a < |s|
    ensures s[a..] == s[a..|s| - 1] + [s[|s| - 1]]
  {
  }

  lemma SliceExtend<T>(s: seq<T>, a: nat, k: nat)
    requires a < k <= |s|
    ensures s[a..k] == s[a..k - 1] + [s[k - 1]]
  {
  }

  /** Without a minimum (an undefined lookup), no numbered league survives the filter. */
  lemma {:induction false} NoneOfferedWithoutMinimum(keys: seq<string>, n: nat, k: nat)
    requires NumberedKeys(keys, n) && k <= n
    ensures Offered(keys[..k], None) == []
  {
    if k > 0 {
      NoneOfferedWithoutMinimum(keys, n, k - 1);
      assert NumberedAt(keys, k - 1);
      OfferedStep(keys, None, k);
    }
  }

  /** The Legend League's key at the end of the table is always kept. */
  lemma OfferedLegendLast(keys: seq<string>, n: nat, minLeague: Option<nat>)
    requires TableShaped(keys, n)
    ensures Offered(keys, minLeague) == Offered(keys[..n], minLeague) + [LEGEND_LEAGUE_NAME]
  {
  }

  /** With a minimum: the keys from that league on, up to and including the Legend League's. */
  lemma OfferedFromMinimum(keys: seq<string>, n: nat, minLeague: nat)
    requires TableShaped(keys, n) && 1 <= minLeague <= n
    ensures Offered(keys, Some(minLeague)) == keys[minLeague - 1..]
  {
    OfferedNumberedPrefix(keys, n, minLeague, n);
    OfferedLegendLast(keys, n, Some(minLeague));
    SuffixSplitsOffLast(keys, minLeague - 1);
  }

  /** Without a minimum, only the Legend League survives the filter. */
  lemma OfferedWithoutMinimum(keys: seq<string>, n: nat)
    requires TableShaped(keys, n)
    ensures Offered(keys, None) == [LEGEND_LEAGUE_NAME]
  {
    NoneOfferedWithoutMinimum(keys, n, n);
    OfferedLegendLast(keys, n, None);
  }

  /** A league's key is among the table's keys from index `m` on exactly when the league sits there. */
  lemma KeyInSuffix(m: nat, i: nat)
    requires m <= |LEAGUES| && i < |LEAGUES|
    ensures LEAGUES[i].league.Name() in Keys(LEAGUES)[m..] <==> m <= i
  {
    var keys := Keys(LEAGUES);
    LeagueNamesDistinct();
    assert Distinct(keys);
    InSuffixIff(keys, m, i);
  }

  predicate Distinct<T(==)>(s: seq<T>) {
    forall a, b :: 0 <= a < b < |s| ==> s[a] != s[b]
  }

  /** In a sequence without repeats, element `i` occurs from index `m` on exactly when `m <= i`. */
  lemma InSuffixIff<T>(s: seq<T>, m: nat, i: nat)
    requires Distinct(s) && m <= |s| && i < |s|
    ensures s[i] in s[m..] <==> m <= i
  {
    if m <= i {
      assert s[m..][i - m] == s[i];
    }
    if s[i] in s[m..] {
      var j :| 0 <= j < |s| - m && s[m..][j] == s[i];
      assert s[m + j] == s[i];
    }
  }

  /**
   * For a Town Hall in the table, a league is offered exactly when it is the
   * Legend League or its number reaches the Town Hall's minimum; at least one
   * numbered league always is.
   */
  lemma OfferedMembership(playerTh: int)
    requires playerTh in MIN_LEAGUE_BY_TH
    ensures forall i :: 0 <= i < |LEAGUES| ==>
      (LEAGUES[i].league.Name() in Offered(Keys(LEAGUES), MinLeagueFor(playerTh)) <==>
       LEAGUES[i].league.Legend? || LEAGUES[i].league.number >= MIN_LEAGUE_BY_TH[playerTh])
    ensures exists i :: 0 <= i < NUMBERED_LEAGUES && LEAGUES[i].league.Name() in Offered(Keys(LEAGUES), MinLeagueFor(playerTh))
  {
    forall i | 0 <= i < |LEAGUES|
      ensures LEAGUES[i].league.Name() in Offered(Keys(LEAGUES), MinLeagueFor(playerTh)) <==>
        LEAGUES[i].league.Legend? || LEAGUES[i].league.number >= MIN_LEAGUE_BY_TH[playerTh]
    {
      OfferedAt(playerTh, i);
    }
    OfferedForTableTh(playerTh);
    LeagueTableShape();
    OfferedAt(playerTh, MIN_LEAGUE_BY_TH[playerTh] - 1);
  }

  lemma OfferedAt(playerTh: int, i: nat)
    requires playerTh in MIN_LEAGUE_BY_TH && i < |LEAGUES|
    ensures LEAGUES[i].league.Name() in Offered(Keys(LEAGUES), MinLeagueFor(playerTh)) <==>
      LEAGUES[i].league.Legend? || LEAGUES[i].league.number >= MIN_LEAGUE_BY_TH[playerTh]
  {
    OfferedForTableTh(playerTh);
    LeagueTableShape();
    KeyInSuffix(MIN_LEAGUE_BY_TH[playerTh] - 1, i);
  }

  // ----- Attack cards -----

  /**
   * Builds the attack cards for the selected league: one per attack of that
   * league, headed "Attack 1", "Attack 2", …; none when no league is selected
   * (or the key is unknown, where the count is `undefined`).
   */
  method GenerateAttacks(league: string) returns (headings: seq<nat>)
    ensures league == "" ==> headings == []
    ensures league != "" ==> |headings| == (if AttackCount(league).Some? then AttackCount(league).value else 0)
    ensures forall i :: 0 <= i < |headings| ==> headings[i] == i + 1
  {
    if league == "" {
      return [];
    }
    var attacksCount := AttackCount(league);
    headings := AddAttackCards(if attacksCount.Some? then attacksCount.value else 0);
  }

  /** The card loop: `attacksCount` cards headed 1, 2, …, attacksCount. */
  method AddAttackCards(attacksCount: nat) returns (headings: seq<nat>)
    ensures |headings| == attacksCount
    ensures forall i :: 0 <= i < |headings| ==> headings[i] == i + 1
  {
    headings := [];
    for i := 0 to attacksCount
      invariant |headings| == i
      invariant forall k :: 0 <= k < i ==> headings[k] == k + 1
    {
      headings := headings + [i + 1];
    }
  }

  /** Every league the filter offers is a table league, and selecting it yields that league's attack count. */
  lemma OfferedLeagueAttackCount(playerTh: int, name: string)
    requires name in Offered(Keys(LEAGUES), MinLeagueFor(playerTh))
    ensures exists k :: 0 <= k < |LEAGUES| && name == LEAGUES[k].league.Name() && AttackCount(name) == Some(LEAGUES[k].attacks)
  {
    var k := OfferedComesFromKeys(Keys(LEAGUES), MinLeagueFor(playerTh), name);
    AttackCountOfLeague(k);
  }

  lemma {:induction false} OfferedComesFromKeys(keys: seq<string>, minLeague: Option<nat>, name: string) returns (k: nat)
    requires name in Offered(keys, minLeague)
    ensures k < |keys| && name == keys[k]
  {
    var init := keys[..|keys| - 1];
    if name in Offered(init, minLeague) {
      k := OfferedComesFromKeys(init, minLeague, name);
    } else {
      k := |keys| - 1;
    }
  }

  /** The inputs of one card that the stars / destruction rule touches. */
  datatype CardInputs = CardInputs(stars: int, destruction: real, destructionDisabled: bool)

  /**
   * The stars / destruction rule applied to a card's inputs. Afterwards three
   * stars and 100 % come together and only then is destruction locked; stars
   * can only be raised to 3 and destruction only to 100, and a card with
   * neither is merely unlocked.
   */
  function Synced(c: CardInputs): (r: CardInputs)
    ensures r.stars == 3 <==> r.destruction == 100.0
    ensures r.destructionDisabled <==> r.stars == 3
    ensures r.stars == c.stars || r.stars == 3
    ensures r.destruction == c.destruction || r.destruction == 100.0
    ensures c.stars != 3 && c.destruction != 100.0 ==> r == c.(destructionDisabled := false)
  {
    if c.stars == 3 then c.(destruction := 100.0, destructionDisabled := true)
    else if c.destruction == 100.0 then CardInputs(3, 100.0, true)
    else c.(destructionDisabled := false)
  }

  /** Applying the rule to its own result changes nothing. */
  lemma SyncedIsFixedPoint(c: CardInputs)
    ensures Synced(Synced(c)) == Synced(c)
  {
  }

  /** Once destruction reads 100 %, any edit of the stars snaps back to three stars, still locked. */
  lemma FullDestructionLocksStars(stars: int, disabled: bool)
    ensures Synced(CardInputs(stars, 100.0, disabled)) == CardInputs(3, 100.0, true)
  {
  }

  /** The stars and destruction inputs of one attack card. */
  class AttackCard {
    var stars: int
    var destruction: real
    var destructionDisabled: bool

    function State(): CardInputs
      reads this
    {
      CardInputs(stars, destruction, destructionDisabled)
    }

    /** A fresh card: empty inputs, which read as 0. */
    constructor ()
      ensures State() == CardInputs(0, 0.0, false)
    {
      stars, destruction, destructionDisabled := 0, 0.0, false;
    }

    /** Runs on every input to either field: three stars force 100 %, and 100 % forces three stars. */
    method SyncStarsAndDestruction()
      modifies this
      ensures State() == Synced(old(State()))
      ensures stars == 3 <==> destruction == 100.0
      ensures destructionDisabled <==> stars == 3
    {
      if stars == 3 {
        destruction := 100.0;
        destructionDisabled := true;
        return;
      }
      destructionDisabled := false;
      if destruction == 100.0 {
        stars := 3;
        destruction := 100.0;
        destructionDisabled := true;
      }
    }
  }

  // ----- Collecting the attacks -----

  /** The three numbers read from one attack card. */
  datatype RawCard = RawCard(enemyTh: int, stars: int, destruction: real)

  /** The attack a card stands for: three stars count as 100 % destruction whatever was typed. */
  function Normalise(card: RawCard): (a: Attack)
    ensures a.enemyTh == card.enemyTh && a.stars == card.stars
    ensures card.stars == 3 ==> a.destruction == 100.0
    ensures card.stars != 3 ==> a.destruction == card.destruction
  {
    Attack(card.enemyTh, card.stars, if card.stars == 3 then 100.0 else card.destruction)
  }

  /**
   * Reads every card in order. The whole batch is rejected (`None`) as soon as
   * one card is out of range once three stars have forced 100 %.
   */
  method CollectAttacks(cards: seq<RawCard>) returns (attacks: Option<seq<Attack>>)
    ensures attacks.None? <==> exists i :: 0 <= i < |cards| && !ValidAttack(Normalise(cards[i]))
    ensures attacks.Some? ==> |attacks.value| == |cards|
    ensures attacks.Some? ==> forall i :: 0 <= i < |cards| ==> attacks.value[i] == Normalise(cards[i])
    ensures attacks.Some? ==> AllValid(attacks.value)
  {
    var collected: seq<Attack> := [];
    for i := 0 to |cards|
      invariant |collected| == i
      invariant forall k :: 0 <= k < i ==> collected[k] == Normalise(cards[k]) && ValidAttack(collected[k])
    {
      var enemyTh := cards[i].enemyTh;
      var stars := cards[i].stars;
      var destruction := cards[i].destruction;
      if stars == 3 {
        destruction := 100.0;
      }
      if enemyTh < 7 || enemyTh > 18 || stars < 0 || stars > 3 || destruction < 0.0 || destruction > 100.0 {
        assert !ValidAttack(Normalise(cards[i]));
        return None;
      }
      collected := collected + [Attack(enemyTh, stars, destruction)];
    }
    return Some(collected);
  }

  /** A three-star card is accepted exactly when its enemy Town Hall is in range, whatever destruction was typed, and then reads as 100 %. */
  lemma ThreeStarsAccepted(card: RawCard)
    requires card.stars == 3
    ensures ValidAttack(Normalise(card)) <==> 7 <= card.enemyTh <= 18
    ensures Normalise(card).destruction == 100.0
  {
  }

  /** Normalising an already collected attack changes nothing. */
  lemma NormaliseIdempotent(card: RawCard)
    ensures var a := Normalise(card); Normalise(RawCard(a.enemyTh, a.stars, a.destruction)) == a
  {
  }
}
