# Attack-efficiency calculator: verified model

This project models the core of a browser tool for a clash-style game. A
player enters their Town Hall (TH) level, picks a league, and fills in one
card per attack: the enemy Town Hall, stars won (0–3) and destruction
percentage. The tool scores each attack, averages the scores into an
efficiency percentage, grades it S/A/B/C, and prints statistics: a stars
histogram, lower/equal/higher Town Hall matchup buckets, and the best and
worst attack.

The Dafny modules follow the program's files:

- `Rules` (`rules.dfy`) holds the constant tables of `constants.js`:
  - the ranked minimum Town Hall;
  - the 34 leagues with their attack counts, in declaration order;
  - the minimum league per Town Hall;
  - the grade thresholds, as an ordered sequence of (grade, threshold) pairs.

  Facts about the tables are lemmas here.
- `Scoring` (`scoring.dfy`) is `logic.js`:
  - The per-attack score is a pure function.
  - Every loop of the source is a method: efficiency, grade, stars breakdown, matchup stats, best/worst.
  - Each method is proved against a specification: efficiency, stars and matchup stats against recursive functions over the attack list, the grade against four direct if-and-only-if clauses, and best/worst against predicates describing the first maximum and first minimum.
  - Lemmas about those functions state the properties.
- `App` (`app.js` logic only) covers:
  - the league filter of `updateLeagues`, as a method looping over the table's keys;
  - the attack-slot count of `generateAttacks`;
  - the stars/destruction coupling, as a method of an `AttackCard` class that updates its fields in place;
  - the all-or-nothing batch validation of `collectAttacks`, as a method over a sequence of raw cards.
- `JsText` (`text.dfy`) models the two JavaScript string operations the filter uses on a league key: `split(" ").pop()` and `parseInt(…, 10)`. It also holds the decimal rendering of a league number.
- `Wrappers` (`wrappers.dfy`) holds `Option`, which stands for JavaScript's `null`, `undefined` and `NaN` results.

Arithmetic is on exact `real`s: 0.4 and the multipliers 0.9…1.3 are the
decimal values themselves.

## Model

| member | source | states |
|---|---|---|
| JsText.Decimal | constants.js:7-39 | a league number's rendering in a key is a non-empty run of digits with no leading zero |
| JsText.ParseInt | app.js:57 | `parseInt(s, 10)` is NaN (`None`) exactly when `s` is empty or does not start with a digit; otherwise it is the value of the leading run of digits |
| JsText.LastToken | app.js:57 | `split(" ").pop()` is a space-free suffix of the key, preceded by a space unless it is the whole key |
| JsText.ParseIntOfDecimal | app.js:57 | parsing a number's decimal rendering gives back the number (round trip) |
| JsText.LastTokenAfterBlank | app.js:57 | the last token of `a + " " + b` is `b` whenever `b` has no space |
| Rules.AttackCount | app.js:78 | the lookup `LEAGUES[key]` is undefined (`None`) exactly when no league has that key; otherwise it is the attack count of a league with that key |
| Rules.Find | app.js:78 | the table lookup `LEAGUES[key]` is undefined (`None`) exactly when no league has that key |
| Rules.LeagueTableShape | constants.js:6-43 | the table has 34 leagues; entries 1…33 are numbered leagues 1…33 in order; the last is the Legend League with 8 attacks |
| Rules.LegendIsOnlyUnnumbered | constants.js:41-42 | the Legend League is the only league without a number |
| Rules.AttackCountsByNumber | constants.js:7-39 | each numbered league's attack count is the step function 6/8/10/12/14/18/24/30 of its number |
| Rules.NumberedAttackCountsNonDecreasing | constants.js:7-39 | attack counts never decrease as the league number rises |
| Rules.MinLeagueTableDomain | constants.js:46-59 | `MIN_LEAGUE_BY_TH` has a key exactly for Town Halls 7…18, and `MIN_RANKED_TH` (7) is its smallest key |
| Rules.MinLeagueNonDecreasing | constants.js:46-59 | a higher Town Hall never has a lower minimum league |
| Rules.MinLeagueExists | constants.js:46-59 | every minimum league is an existing numbered league (1…33) |
| Rules.GradeThresholdsDescending | constants.js:62-67 | the thresholds strictly descend in the order they are tried (S 90 > A 80 > B 70 > C 0) |
| Rules.LeagueNumberOf | app.js:57 | `parseInt(key.split(" ").pop(), 10)` is NaN (`None`) exactly when the key's last word is empty or does not start with a digit; a last word made of digits reads as their value |
| Rules.NameNumber | app.js:57 | reading the number back out of a league's key, as the filter does, gives the league's number; for the Legend League it gives NaN |
| Rules.LeagueNamesDistinct | constants.js:6-43 | no two leagues share a key |
| Rules.AttackCountOfLeague | app.js:78 | looking a league up by its key yields that league's attack count |
| Scoring.StarScore | logic.js:4-9 | the star base score is 20 points per star (0, 20, 40, 60) |
| Scoring.BaseScore | logic.js:15-17 | stars plus 0.4 × destruction is at least 0 when destruction is non-negative, and at most 100 when destruction is at most 100 |
| Scoring.Multiplier | logic.js:19-32 | the multiplier lies in 0.9…1.3 and is the step function 1 + 0.1 × (TH difference clamped to −1…3): 1.3 from +3, 1.2, 1.1, 1.0 at 0, 0.9 below 0 |
| Scoring.AttackScore | logic.js:14-36 | the score is never above 100; it is non-negative for non-negative destruction; it is exactly base × multiplier while that product is below 100, and exactly 100 once it reaches 100 |
| Scoring.MultiplierMonotone | logic.js:19-32 | the multiplier never falls as the TH difference rises |
| Scoring.ScoreMonotoneInDestruction | logic.js:14-36 | more destruction never lowers the score when the other inputs are the same |
| Scoring.ScoreMonotoneInThDiff | logic.js:14-36 | a larger TH difference never lowers the score of the same result |
| Scoring.ScoreExamples | logic.js:14-36 | worked values: 2★ 60 % at equal TH is 64; 3★ 100 % three levels up is capped at 100; 1★ 30 % against a lower TH is 28.8 |
| Scoring.Average | logic.js:98-102 | total / count for a non-empty set of items (average × count = total), and 0 for none |
| Scoring.Mean | logic.js:41-50 | the efficiency of a batch: 0 for no attacks, otherwise the sum of the per-attack scores divided by their number |
| Scoring.OverallEfficiency | logic.js:41-50 | the loop's result is the mean of the per-attack scores, and 0 for no attacks |
| Scoring.MeanWithin | logic.js:41-50 | if every score lies in [lo, hi], so does the mean |
| Scoring.MeanBetweenExtremes | logic.js:41-50 | the efficiency lies between the worst and the best single score |
| Scoring.EfficiencyInRange | logic.js:41-50 | for attacks in the accepted ranges, the efficiency lies in 0…100 |
| Scoring.GetGrade | logic.js:55-62 | S iff e ≥ 90; A iff 80 ≤ e < 90; B iff 70 ≤ e < 80; C iff e < 70, which covers negative e through the fallback |
| Scoring.FirstThresholdMetIsHighest | constants.js:62-67 | because the thresholds descend, the first threshold met is the highest one met |
| Scoring.StarsBreakdown | logic.js:67-75 | the histogram has exactly the keys 0…3; each count is the number of attacks with that many stars; the counts sum to the number of attacks |
| Scoring.StarCountsSum | logic.js:67-75 | the four star counts add up to the number of attacks |
| Scoring.Classify | logic.js:90-92 | each attack falls in exactly one bucket: lower iff enemy TH < player TH, higher iff >, equal iff = |
| Scoring.ThMatchupStats | logic.js:80-105 | the result has exactly the three buckets; each holds its bucket's count and total score, and average = total / count, or 0 for an empty bucket |
| Scoring.MatchupCountsSum | logic.js:87-96 | the bucket counts add up to the number of attacks |
| Scoring.MatchupTotalsSum | logic.js:87-96 | the bucket totals add up to the sum of all scores |
| Scoring.BucketTotalBounds | logic.js:87-96 | for attacks in range, a bucket's total lies between 0 and 100 × its count |
| Scoring.BucketAverageInRange | logic.js:98-102 | for attacks in range, every bucket average lies in 0…100 |
| Scoring.BestAndWorstAttack | logic.js:110-131 | none for no attacks; otherwise best is an input attack whose score is ≥ every score and > every earlier one (the first maximum), and worst is likewise the first minimum |
| Scoring.Extremes | logic.js:110-131 | every non-empty list has a first maximum and a first minimum |
| App.Keys | app.js:51 | `Object.keys(LEAGUES)` has one key per league, and key `i` is league `i`'s name |
| App.MinLeagueFor | app.js:49 | `MIN_LEAGUE_BY_TH[playerTh]` is defined exactly for Town Halls 7…18, and then it is an existing league number 1…33 |
| App.AtLeast | app.js:58 | `leagueNumber >= minLeagueNumber` is false whenever either side is NaN or `undefined`; with both defined it is the numeric comparison |
| App.Offers | app.js:52-58 | the `forEach` callback keeps the Legend League's key always; with an undefined minimum it keeps nothing else; otherwise it keeps a key exactly when its parsed number is defined and reaches the minimum |
| App.Offered | app.js:51-61 | the kept keys are never more than the table's keys, and every kept key passes the filter (it is the Legend League's, or its parsed number reaches the minimum) |
| App.UpdateLeagues | app.js:30-62 | TH 0 or below 7 disables the drop-down with no options; otherwise it is enabled and holds the filtered keys; for a TH in the table, that is every key from its minimum league on (the Legend League last); above TH 18 it is the Legend League alone |
| App.AddLeagueOptions | app.js:51-61 | the `forEach` appends exactly the keys the filter keeps, in table order |
| App.OfferedForTableTh | app.js:50-61 | for a TH in the table, the filter keeps the keys from its minimum league to the end of the table |
| App.OfferedBeyondTable | app.js:50-61 | above TH 18 the minimum is undefined, every numeric comparison fails, and only the Legend League remains |
| App.KeyFacts | app.js:51-57 | the table's keys are 33 keys whose parsed numbers are 1…33, then "Legend League" |
| App.OfferedStep | app.js:51-61 | a numbered key is appended exactly when its number reaches the minimum |
| App.OfferedBelowMinimum | app.js:51-61 | no numbered league below the minimum is kept |
| App.OfferedNumberedPrefix | app.js:51-61 | among numbered keys, exactly those from the minimum league on are kept, in order |
| App.NoneOfferedWithoutMinimum | app.js:51-61 | with an undefined minimum, no numbered league is kept |
| App.OfferedLegendLast | app.js:52-55 | the Legend League is kept whatever the minimum |
| App.OfferedFromMinimum | app.js:51-61 | with a minimum m, the kept keys are the table's keys from league m on |
| App.OfferedWithoutMinimum | app.js:51-61 | with no minimum, the kept keys are the Legend League alone |
| App.OfferedMembership | app.js:49-61 | for a TH in the table, a league is offered iff it is the Legend League or its number is ≥ the TH's minimum; at least one numbered league is always offered |
| App.OfferedAt | app.js:49-61 | the same membership statement, for one league |
| App.OfferedComesFromKeys | app.js:51-61 | every offered key is one of the table's keys |
| App.GenerateAttacks | app.js:72-92 | no league selected gives no cards; otherwise one card per attack of the league (none for an unknown key), headed 1, 2, … |
| App.AddAttackCards | app.js:87-92 | the card loop makes exactly `attacksCount` cards, headed 1, 2, … in order |
| App.OfferedLeagueAttackCount | app.js:75-87 | every offered league is a table league, and selecting it yields that league's attack count |
| App.Synced | app.js:115-135 | after the rule, 3 stars holds iff destruction is 100, and the destruction input is locked iff there are 3 stars; stars only ever change to 3 and destruction only to 100; a card with neither is only unlocked |
| App.SyncedIsFixedPoint | app.js:115-135 | applying the rule to its own result changes nothing |
| App.FullDestructionLocksStars | app.js:129-134 | once destruction reads 100 %, any star count snaps back to 3 and destruction stays locked; so lowering the stars of a 3-star card never sticks, since its destruction is still 100 and locked |
| App.AttackCard.constructor | app.js:101-107 | a fresh card's empty inputs read as 0 stars, 0 % and unlocked |
| App.AttackCard.SyncStarsAndDestruction | app.js:115-135 | the card's new state is the rule applied to its old state, so 3 stars ⇔ 100 % and locked ⇔ 3 stars |
| Scoring.ValidAttack | app.js:158-165 | an attack is rejected (`return null`) exactly when its enemy TH is below 7 or above 18, its stars below 0 or above 3, or its destruction below 0 or above 100; an accepted attack has 0…3 stars and an enemy TH that `MIN_LEAGUE_BY_TH` knows |
| App.CollectAttacks | app.js:145-177 | the batch is rejected iff some card is out of range once 3 stars have forced 100 %; otherwise there is one attack per card, in card order, each card normalised, all in range |
| App.ThreeStarsAccepted | app.js:154-167 | a 3-star card is accepted iff its enemy TH is in 7…18, whatever destruction was typed, and reads as 100 % |
| App.Normalise | app.js:150-156 | a collected attack keeps the card's enemy TH and stars; its destruction is 100 for 3 stars and the typed value otherwise |
| App.NormaliseIdempotent | app.js:150-156 | normalising an already collected attack changes nothing |

## Left out

- The DOM: element lookups, `innerHTML`, `classList`, event listeners, `alert`. Also left out: the placeholder "Select league" option, the TH error message and the Legend League disclaimer. The model keeps only the values these functions compute.
- `calculateResults`: it only glues the pieces together and formats them with `toFixed`.
- JavaScript `Number()` coercion. Inputs are modelled as already-parsed numbers: integer Town Hall levels and stars, real destruction. The model therefore does not capture:
  - non-numeric text becoming `NaN`, which slips past every range comparison;
  - fractional stars or Town Hall levels.

  An empty field reads as 0. The model represents that as the value 0 in three places:
  - in `UpdateLeagues`, an empty Town Hall is `playerTh == 0`, which disables the drop-down;
  - in `CollectAttacks`, a card with empty stars and destruction is `RawCard(th, 0, 0.0)`, which is accepted as 0 stars at 0 % rather than rejected;
  - the constructor of `AttackCard` starts from 0 stars and 0 %.
- Scoring.AttackScore: requires 0…3 stars. With other star counts, `STAR_SCORES[stars]` is `undefined` and the JavaScript score is `NaN`, which is not modelled. Every caller receives attacks from `collectAttacks`, which only passes 0…3.
- Scoring.StarsBreakdown: requires 0…3 stars, for the same reason. An out-of-range star count would add a `NaN` entry under a fifth key.
- Scoring.ThMatchupStats, Scoring.OverallEfficiency and Scoring.BestAndWorstAttack: their 0…3-stars requirement comes from Scoring.AttackScore.
- IEEE-754 double rounding. Scores are exact reals, so the model's 28.8 or 64 may differ from JavaScript in the last binary digit.
- `parseInt`: leading whitespace and a sign are not modelled. No league key's last token has either.
- JavaScript object key order: `Object.keys(LEAGUES)` and `for…in` over `GRADE_THRESHOLDS` and the stats object are modelled as sequences in declaration order. That is the order JavaScript uses for these string keys.
- The stricter validation described for this tool, with missing-field and stars/destruction consistency errors, is not in `collectAttacks`. The model follows the code's range checks only.
