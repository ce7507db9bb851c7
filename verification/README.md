# FPL player projection score, in Dafny

This project models how the Fantasy Premier League planner app (`app.py`) scores a
player. The scoring logic is the only pure logic in the app. The model has three modules:

- `Coercion` (`coercion.dfy`) covers `safe_float`. A raw cell (a number, a string, or
  `None`/another object) becomes a number. When Python's `float()` fails, the result is `0.0`.
  String parsing itself is a parameter: `Parser`, a partial function `string -> Option<real>`.
- `FixtureEase` (`fixture_ease.dfy`) covers the fixture-ease window of `weighted_score`. It:
  - filters the fixture table to the team's matches, keeping table order;
  - reads the first `horizon` rows, skipping rows that do not exist;
  - picks the home or away difficulty by the team's side;
  - turns each difficulty into `6 - d`;
  - averages the results, or gives `3.0` when none were collected.

  `CollectDiffs` is the source's loop, including its swallowed IndexError. It is proved equal to
  the functional definition `EaseEntries`.
- `Projection` (`projection.dfy`) covers three things:
  - the score `0.5*ep_next + 0.3*form + 0.2*ppg + 0.2*avg_diff`;
  - the id lookup `players.loc[id == pid].iloc[0]`;
  - the projection-mode choice that fills the `score` column, and the price conversion `now_cost / 10`.

Numbers are exact `real`s. The weights 0.5, 0.3 and 0.2 are exact rationals.

`app.py` has no gameweek filter and no optimiser. The ease is `6 - d` with default `3.0`, the
weights are fixed and additive, and every fixture of the team counts in table order. The comment
at app.py:68 speaks of the "next horizon GWs", but line 69 tests only the team, not the fixture's
gameweek or whether it is finished. So the code, and this model, use the team's first `horizon`
fixtures of the whole feed.

## Model

| member | source | states |
|---|---|---|
| Coercion.SafeFloat | app.py:29-33 | the converted value when conversion succeeds, exactly 0.0 when it fails; the result is 0.0 exactly when conversion fails or yields 0 |
| FixtureEase.Matching | app.py:69 | `next_fix` holds exactly the fixtures whose home or away team is the player's team, and is no longer than the table |
| FixtureEase.MatchingAppend | app.py:69 | filtering keeps table order: it distributes over concatenation of fixture lists |
| FixtureEase.MatchingSingle | app.py:69 | a single fixture is kept if and only if the team plays in it |
| FixtureEase.MatchingCount | app.py:69 | each fixture occurs in `next_fix` as often as in the table when the team plays in it, otherwise not at all |
| FixtureEase.MatchingIdempotent | app.py:69 | filtering an already filtered list changes nothing |
| FixtureEase.SideDifficulty | app.py:73 | for a fixture the team plays in, the rating faced is the one of a side the team is actually listed on; the home side wins when the team is listed on both |
| FixtureEase.SideDifficultySwap | app.py:73 | for a fixture between two different teams, listing it with the sides exchanged changes neither whether the team plays nor the rating it faces |
| FixtureEase.EaseOf | app.py:74 | ease `6 - d` maps the 1..5 scale onto itself in both directions; difficulty 1 is the only one giving the largest ease 5, and difficulty 5 the only one giving 1 |
| FixtureEase.EaseOfAntitone | app.py:74 | a harder rating never gives a larger ease (both directions), and the conversion is its own inverse |
| FixtureEase.EaseEntries | app.py:69-76 | at most `horizon` entries (none when horizon <= 0) and at most one per matching fixture; fewer than the matching count only when the horizon is reached; entry i is `6 - safe_float` of the team-side difficulty of the i-th matching fixture |
| FixtureEase.CollectDiffs | app.py:70-76 | the loop over `range(horizon)`, which skips indices past the end of `next_fix`, collects exactly `EaseEntries` |
| FixtureEase.AvgDiff | app.py:77 | 3.0 when nothing was collected, otherwise the value whose product with the count is the sum (the arithmetic mean) |
| FixtureEase.IrrelevantFixtures | app.py:69-77 | `TeamAvgDiff`, the `avg_diff` of a team: fixtures the team does not play in do not affect `avg_diff` |
| FixtureEase.HorizonPrefix | app.py:71-76 | a longer horizon only appends entries: the shorter window's entries are a prefix |
| FixtureEase.LaterFixturesIgnored | app.py:69-76 | once `horizon` matching fixtures are present, fixtures appended after them change nothing |
| FixtureEase.SumBounds | app.py:77 | entries bounded by [lo, hi] give a sum bounded by [n*lo, n*hi] |
| FixtureEase.AvgDiffBounds | app.py:77 | the average lies within any bounds that contain all entries and the default 3.0 |
| FixtureEase.TeamAvgDiffInRange | app.py:73-77 | when every difficulty the team faces is in 1..5, every entry and `avg_diff` (`TeamAvgDiff`) are in [1, 5] |
| Projection.ScoreLinear | app.py:79 | `Score`, the app.py:79 formula, is linear in (ep_next, form, ppg, avg_diff) with no constant term |
| Projection.ScoreMonotone | app.py:79 | `Score` is non-decreasing in each input, and strictly increasing when any input strictly grows |
| Projection.PlayerScoreRange | app.py:77-79 | `PlayerScore`, the value `weighted_score` computes for one row: with difficulties in 1..5 the fixture term adds between 0.2 and 1.0 to the stats part, and exactly 0.6 when no entries are collected |
| Projection.UnconvertibleStatScoresAsZero | app.py:64-66 | a `form` that `float()` cannot convert scores exactly as a form of 0 would, and the other terms keep their weights |
| Projection.FirstRowUnique | app.py:62 | at most one row is the first row carrying a given id |
| Projection.FirstWithId | app.py:62 | the index of the first row with the id, or none exactly when no row has it |
| Projection.WeightedScore | app.py:61-79 | the score of the first row carrying `pid`; a failure (IndexError) exactly when no row carries it |
| Projection.AssignScores | app.py:82-85 | one score per row; the raw mode gives `safe_float(ep_next)`, every other mode label gives the weighted score of the row's id |
| Projection.RawModeIgnoresFixtures | app.py:82-83 | in the raw mode the scores depend neither on the fixtures nor on the horizon |
| Projection.WeightedModeOwnRow | app.py:84-85 | with distinct ids, each row gets the weighted score of its own stats and team |
| Projection.WeightedModeSharedId | app.py:62 | a later row sharing an id with an earlier row gets that earlier row's weighted score |
| Projection.PriceMillions | app.py:104 | the price in millions times 10 is the feed's `now_cost`; non-negative costs give non-negative prices |
| Projection.PriceMillionsOrder | app.py:104 | the conversion preserves order in both directions and is injective |

## Left out

- Coercion.SafeFloat: IEEE-754 doubles are not modelled. Numbers are exact reals, so rounding is absent. NaN is absent too: Python's `float(nan)` succeeds and NaN is not zero-filled. So is OverflowError: `float()` raises it on an integer beyond the double range, app.py:32 does not catch it, and the model returns the exact value instead.
- Python's float-from-string syntax (`float()` on a string, app.py:31) is not modelled. It is the `Parser` parameter.
- FixtureEase.EaseEntries: an empty fixture feed is treated as an empty table. In pandas an empty feed gives a table without a `team_h` column, so app.py:69 raises KeyError outside the `try`.
- The `except Exception` of app.py:75 is modelled only for the IndexError of a missing row, because nothing else in the loop body can raise once `safe_float` is total. In the source an OverflowError from `safe_float` inside the loop would be caught there too and the entry skipped; the model keeps the entry with its exact value.
- HTTP fetching and the TTL cache (`get_json`, `bootstrap`, `fixtures`, `get_team`, app.py:11-27): network I/O behind a cache decorator.
- Streamlit widgets, markdown, the debug table's column selection, renaming, sorting and `head(50)`, and the info messages (app.py:38-44, 90-115, 120-121, 139-140): presentation. The horizon slider's range 1..3 is not imposed either: any integer horizon is accepted, as `range(horizon)` accepts it.
- The team-name mapping (app.py:55-56): it only feeds the display table.
- The backtest merge (app.py:123-134): a table join around a network call, shown but not computed further.
- pandas mechanics (`.loc`, `.iloc`, `map`, `apply`, column dtypes): tables are sequences of records and lookups are sequence indexing. A column missing from the whole table, which `row.get` (app.py:64-66) returns as `None`, is a `Null` cell.
- Projection.AssignScores: in the raw mode a missing `ep_next` column makes `players["ep_next"]` (app.py:83) raise KeyError. The model has no missing columns and scores such a row `safe_float(None)`, that is 0.0.
- Squad, starting-XI, captain and transfer optimisation: the code has none (line 139 is a placeholder).
