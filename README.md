# Yahtzee engine in Dafny

A model of the two-player Yahtzee engine of the yahtzee-web project, with
proofs about it.

- **The server's `Game` class** (`src/server/app/Game.py`) is modelled as
  the class `ServerGame.Game`. It has the same fields:
  - two score sheets per match, each split into an upper and a lower
    section, with `-1` for "not filled yet";
  - per-player upper totals, bonuses and totals;
  - five dice, their face-count table and their sum;
  - the round, the active player and the roll counter.

  Its methods follow `roll`, the thirteen `calculate_*` calculators,
  `calculate_score`, `fill`, `update_total`, `hand_over`, `get_winner` and
  `get_score`, branch by branch. That includes the exceptions: `ValueError`
  and `KeyError` are the `Err` results.
- **The browser's computations** (`src/webpages/Game.js`) are modelled in
  the module `ClientGame`:
  - the preview `calculator`;
  - `toggleDie`;
  - the index list that `roll` sends;
  - the upper and grand totals shown under a sheet;
  - the sticky bonus flag.
- **The scoring rules** are stated once, in `Scoring.Score`, on the number of
  dice that show each face. The browser preview is proved equal to it on
  every roll. The server calculators are proved equal to it whenever the
  server's count table and sum describe its dice, which a successful `roll`
  guarantees; before the first roll and after a failed roll, `fill` scores
  the stale table.

**Totals on the server and in the browser.** `update_total` adds up a
section with its `-1` sentinels included. The browser skips them. The module
`Agreement` states the difference exactly:
- The server's upper total is the browser's minus one for each unfilled
  upper entry. Its grand total is likewise lowered by the number of unfilled
  entries.
- A bonus the server has stored is always one the browser also shows. The
  reverse can fail mid-match: `Agreement.BonusLag` gives a sheet on which
  the browser shows the bonus and the server does not.
- Once a sheet is full, both give the same final score. So the winner that
  `get_winner` announces is the player with the larger final score.

**Progress of a match.** A match's progress is an invariant that `fill`
preserves. Player 0 has filled one category per finished turn, player 1 one
per earlier round, and after the last turn of round 13 both sheets are full.
`fill` returns `false` exactly when that happens.

## Model

| member | source | states |
|---|---|---|
| `Scoring.ParseKey` | src/server/app/Game.py:203-214 | A key selects a category only when it is that category's key. Any other key is refused, and `fill` raises `KeyError` for it. |
| `Scoring.ParseKeyIsInverse` | src/server/app/Game.py:6-7 | Parsing a key and printing a category are inverses: a key parses to c exactly when it is c's key. |
| `Scoring.OrderFacts` | src/server/app/Game.py:6-7 | There are 6 upper keys and 7 lower keys, 13 in all. Every category is in exactly one section, and no key repeats. |
| `Scoring.SectionOf` | src/server/app/Game.py:6-7 | Every category belongs to exactly one of UPPER_KEYS and LOWER_KEYS. |
| `Scoring.CountTableSnoc` | src/server/app/Game.py:125-126 | Counting one more die that shows face x adds one to x's entry and changes no other entry. |
| `Scoring.LargeStraightByExactCounts` | src/server/app/Game.py:185-191 | On five dice, testing "each face of the window exactly once" gives the large-straight rule. |
| `Scoring.FiveOfAKindIsNotFullHouse` | src/server/app/Game.py:167-173 | Five of a kind scores 50 as Yahtzee and the dice sum as 3- and 4-of-a-kind. It never scores a full house. |
| `Scoring.ScoreRange` | src/server/app/Game.py:137-200 | On five dice that each show a face, every category scores between 0 and 50. |
| `ServerGame.FreshSection` | src/server/app/Game.py:29-52 | A new section has exactly its section's keys, each holding -1. |
| `ServerGame.NewSheets` | src/server/app/Game.py:28-53 | The sheets of a new match have the right shape, nothing filled, and zero totals that are consistent. |
| `ServerGame.Game.constructor` | src/server/app/Game.py:11-85 | Fresh sheets for both players; totals, bonuses and sums 0; five dice at -1; a table of zero counts; round 1, player 0, roll 0. The game satisfies the invariant and the progress relation. |
| `ServerGame.Game.GetScore` | src/server/app/Game.py:90-94 | The merged dictionary has all 13 keys. Each entry is the player's entry in that category's own section. |
| `ServerGame.Game.Roll` | src/server/app/Game.py:108-129 | Only the dice at the positions before the first bad index change, and each changed die shows 1..6. A bad index gives ValueError, and the dice rerolled before it stay rerolled (not atomic). Otherwise i_roll goes up by one and the count table covers the dice up to the first unrolled one. The result is Ok exactly when every die outside idx had been rolled; then the table and the sum describe the dice. Any other result is KeyError. Sheets, totals, round and player are unchanged. |
| `ServerGame.Reroll` | src/server/app/Game.py:113-116 | The loop rerolls the listed positions in order and stops at the first index outside 0..4. When no index is bad, every die shows a face exactly when every unlisted die had been rolled. |
| `ServerGame.ZeroCounts` | src/server/app/Game.py:122-123 | Every count of the table becomes 0. |
| `ServerGame.Recount` | src/server/app/Game.py:121-126 | The table holds the face counts of the dice before the first die that is not a face. Counting completes exactly when all five dice show faces, and then the table counts all of them. |
| `ServerGame.Game.CalculateUpper` | src/server/app/Game.py:137-153 | calculate_Ns is N times the count of N. It is never negative, and on counts that describe the dice it is the upper rule. |
| `ServerGame.Game.CalculateOfAKind` | src/server/app/Game.py:155-165 | The result is the dice sum when some count is at least 3 (or 4), else 0. On current counts that is the 3- or 4-of-a-kind rule. |
| `ServerGame.Game.CalculateFullHouse` | src/server/app/Game.py:167-173 | The result is 25 exactly when some count is 3 and some count is 2, else 0. On current counts that is the full-house rule. |
| `ServerGame.Game.CalculateSmallStraight` | src/server/app/Game.py:175-183 | The result is 30 or 0. On current counts it is the small-straight rule over the windows 1-4, 2-5 and 3-6. |
| `ServerGame.Game.CalculateLargeStraight` | src/server/app/Game.py:185-191 | The result is 40 or 0. On current counts it is the large-straight rule over the windows 1-5 and 2-6. |
| `ServerGame.Game.CalculateYahtzee` | src/server/app/Game.py:193-197 | The result is 50 exactly when some count is 5, else 0. On current counts that is the Yahtzee rule. |
| `ServerGame.Game.CalculateChance` | src/server/app/Game.py:199-200 | The result is the stored sum, and on current counts the chance rule. |
| `ServerGame.Game.Calculated` | src/server/app/Game.py:66-80 | The value the calculator dispatched for a category returns. It is never negative, and on current counts it is that category's rule. |
| `ServerGame.Game.CalculateScore` | src/server/app/Game.py:131-135 | Dispatching by key returns that category's calculator value, which on current counts is the category's rule. |
| `ServerGame.Game.Fill` | src/server/app/Game.py:202-221 | An unknown key gives KeyError and changes nothing; an already filled entry gives ValueError and changes nothing. Otherwise the active player's entry becomes the calculator's value, nothing else on either sheet changes, and the other player's totals stay. An earned bonus stays 35, the turn passes as hand_over says, and the invariant and the match's progress are preserved. The result is whether either sheet still has room. |
| `ServerGame.Game.Enter` | src/server/app/Game.py:203-214 | The entry is written exactly when it still holds -1. It then holds calculate_score's value (at least 0), and the rest of both sections is unchanged. Otherwise nothing changes. |
| `ServerGame.Game.Settle` | src/server/app/Game.py:216-221 | After one entry is filled, update_total then hand_over keep every stored total consistent and keep an earned bonus. They pass the turn, and they move the match's progress on by one turn; the result is false exactly when both sheets are full. |
| `ServerGame.Game.Retotal` | src/server/app/Game.py:216-217 | After the fill, update_total leaves every player's totals consistent. The filling player has one more category filled, and the other player's totals are unchanged. |
| `ServerGame.Game.UpdateTotal` | src/server/app/Game.py:223-237 | The upper total is the sum of the upper entries with -1s included. The bonus becomes 35 once that reaches 63 and is otherwise left as it was. The total is upper + lower + bonus. Only the active player's entries change. |
| `ServerGame.SectionSum` | src/server/app/Game.py:227-229 | The accumulating loop equals the sum of the section's entries with the -1 sentinels. |
| `ServerGame.Game.HandOver` | src/server/app/Game.py:239-260 | Player 0 passes to player 1 in the same round and returns true. Player 1 passes to player 0 in the next round while the round is below 13 and returns true. In round 13 it returns false. i_roll becomes 0 in every case, and nothing else changes. |
| `ServerGame.Game.GetWinner` | src/server/app/Game.py:262-275 | 1 exactly when total[0] > total[1], 2 exactly when total[1] > total[0], 0 exactly on a tie. |
| `ServerGame.SheetSumGap` | src/server/app/Game.py:227-237 | The sum with sentinels equals the sum of the filled entries minus one per unfilled entry. |
| `ServerGame.FillEntry` | src/server/app/Game.py:204-210 | Writing v >= 0 over a -1 adds one filled entry and raises the sentinel sum by v + 1 in that entry's section only. |
| `ServerGame.FillSheet` | src/server/app/Game.py:202-214 | Filling an unfilled entry keeps both sections' key sets, adds one filled category, and never lowers the upper sum. |
| `ServerGame.TotalsAfterFill` | src/server/app/Game.py:231-232 | After a fill and update_total, the filling player's totals are consistent, and a bonus of 35 stays 35. |
| `ServerGame.FillTotals` | src/server/app/Game.py:216-237 | Filling followed by update_total keeps every player's totals consistent and adds one category to the filler's count only. An earned bonus is never lost. |
| `ServerGame.ProgressAfterFill` | src/server/app/Game.py:239-260 | One more filled category followed by hand_over keeps the match's progress relation. Then "the match goes on" holds exactly when some sheet is not full. |
| `ClientGame.CountFaces` | src/webpages/Game.js:159-169 | The counting loop builds the face-count table of the dice. |
| `ClientGame.SumDice` | src/webpages/Game.js:170-172 | The reduce gives the sum of the pips. |
| `ClientGame.UpperPreview` | src/webpages/Game.js:174-184 | The upper preview holds the six upper keys, and face n shows n times the count of n. |
| `ClientGame.HasPair` | src/webpages/Game.js:200-204 | The inner loop finds a pair exactly when some face shows exactly twice. |
| `ClientGame.OfAKindPreview` | src/webpages/Game.js:196-215 | 3-of-a-kind is the sum when some count is 3, 4 or 5. 4-of-a-kind is the sum when some count is 4 or 5. Full house is 25 when some count is 3 and some count is 2. Yahtzee is 50 when some count is 5. Everything else is 0. |
| `ClientGame.LowerPreview` | src/webpages/Game.js:186-235 | The lower preview holds the seven lower keys, with the rules above. Small straight is 30 for any of the windows 1-4, 2-5 and 3-6, large straight is 40 for 1-5 or 2-6, and chance is the sum. |
| `ClientGame.ShowsCounts` | src/webpages/Game.js:197-214 | The count-table tests agree with the counts of the dice. |
| `ClientGame.FullHouseRule` | src/webpages/Game.js:198-204 | "Some face exactly 3 times and some face exactly 2 times" is the full-house rule on the dice. |
| `ClientGame.CoversPresent` | src/webpages/Game.js:217-232 | The straight windows on the table are the straight rules on the dice. |
| `ClientGame.UpperEntryIsScore` | src/webpages/Game.js:182-184 | n times the count of n is the upper rule for face n. |
| `ClientGame.LowerEntryIsScore` | src/webpages/Game.js:196-235 | Each lower preview equals its category's rule on the dice. |
| `ClientGame.PreviewIsScore` | src/webpages/Game.js:237 | The merged preview has all 13 keys, and each key shows its category's score. |
| `ClientGame.Calculator` | src/webpages/Game.js:157-238 | calculator returns exactly the 13 keys, each with the score the Yahtzee rules give the five dice. |
| `ClientGame.ToggleDie` | src/webpages/Game.js:149-155 | Only flag i can change. It flips exactly when the player is active and has already rolled this turn. |
| `ClientGame.ToggleTwice` | src/webpages/Game.js:149-155 | Toggling the same die twice restores the flags. |
| `ClientGame.RollIndices` | src/webpages/Game.js:355-367 | On the first roll of a turn, all of 0..4. Otherwise exactly the flagged dice, in increasing order. Every index lies in 0..4. |
| `ClientGame.TotalUpper` | src/webpages/Game.js:257-266 | The sum of the upper entries, skipping -1. |
| `ClientGame.Total` | src/webpages/Game.js:272-279 | The sum of all 13 entries skipping -1, plus 35 exactly when the bonus flag is set. |
| `ClientGame.UpdateBonus` | src/webpages/Game.js:268-270 | The flag is true afterwards exactly when it was true before or the upper total has reached 63. It is never cleared. |
| `ClientGame.FillRaises` | src/server/app/Game.py:204-210 | Writing a score >= 0 over a -1 never lowers the sum of the filled entries. |
| `ClientGame.BonusFlagTracks` | src/webpages/Game.js:268-270 | A flag that says whether the upper total has reached 63 still says so after any fill followed by updateBonus. |
| `ClientGame.TotalIsFinalScore` | src/webpages/Game.js:272-279 | With such a flag, the grand total shown is the sheet's final score. |
| `Agreement.MergedSums` | src/server/app/Game.py:90-94 | The merged sheet's filled sums are those of its two sections. |
| `Agreement.ServerTotalsGap` | src/server/app/Game.py:227-237 | Mid-match, the server's upper total and grand total are the browser's minus one per unfilled entry, and a stored bonus implies an upper total of at least 63 in the browser. |
| `Agreement.FullSheetTotals` | src/server/app/Game.py:223-237 | On a full sheet, the stored upper total is the browser's, the bonus is 35 exactly when it reaches 63, and the total is the final score. |
| `Agreement.FinalTotal` | src/server/app/Game.py:237 | A player whose sheet is full has their final score stored as total. |
| `Agreement.FinalResult` | src/server/app/Game.py:262-275 | At the end of a match each total is the final score, and get_winner names the player with the larger final score (0 on a tie). |
| `Agreement.PreviewMatchesServer` | src/server/app/Game.py:131-135 | When the server's count table and sum describe its dice, calculate_score gives every category the value the browser's preview shows for those dice. |
| `Agreement.IndicesAccepted` | src/server/app/Game.py:113-115 | An index list with every index in 0..4, as the browser sends, never makes the server's roll raise ValueError. |
| `Agreement.BonusLag` | src/server/app/Game.py:227-232 | There is an upper section whose filled entries reach 63 while update_total's sentinel sum is only 62. On it the browser shows the bonus and the server has not stored it. |

## Left out

- The game id (`uuid`), the `Player` objects and the `TypeError` for a wrong player type are not modelled. The constructor takes no players.
- The trivial getters (`get_game_id`, `get_active_player`, `get_round`, `get_i_roll`, `get_dice`) are not modelled. They read one field each.
- `random.randint(1, 6)` is a nondeterministic choice of a face. The model says nothing about its distribution.
- `calculate_score` looks up a dictionary of bound methods. The model replaces it with a `match` on the category.
- `fill` is split into helpers: entering the score, `update_total` with its invariant, and `hand_over`. The split only follows the calls `fill` makes.
- `ServerGame.Game.GetScore`: requires a player index of 0 or 1. Python would also accept -1 and -2 as negative list indices, but nothing passes them.
- Integer width is not modelled. Scores stay below 400, so neither Python integers nor JavaScript numbers can overflow.
- Only one copy of the browser's "Self"/"Oppo" helper pairs is modelled, because each pair is the same code on two state variables. The sheet and the flag are parameters.
- The React parts of `Game.js` are not modelled: state hooks, effects (such as resetting the flags when `iRoll` is 0), socket messages and the JSX tables.
- `ClientGame.Calculator`: requires all five dice to show a face. The preview is only computed once `iRoll` is not 0. With a -1 die, JavaScript would add a `NaN` entry under the key `-1` and include -1 in the sum.
- `ClientGame.ToggleDie`: requires `0 <= i < 5`. For an index outside that range JavaScript would grow the array, but the page never passes such an index.
- `ClientGame.Total`: requires the sheet to hold all 13 keys, which the browser's score state always does. `ClientGame.TotalUpper` and `ClientGame.UpdateBonus` have the same requirement.
- `src/components/DiceRoller.js`, `src/server/server.py`, `src/webpages/Lobby.js` and `src/App.js` are not part of this model.
