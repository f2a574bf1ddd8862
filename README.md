# Cricket score dashboard: the aggregation core in Dafny

The dashboard reads ball-by-ball cricket data. Each delivery record holds a match
number, an inning, an over, a ball number, a batter, a score and an outcome. The
outcome is either a number or the wicket marker `'w'`. From these records the
dashboard derives the series behind three charts and one batting table:

- **Manhattan chart**: runs per over for overs 1 to 20, with zero-filled gaps. It also
  computes a per-over count of rows whose outcome equals the number 1, and a list of
  wicket markers that holds the over of every `'w'` row. This lives in the `Manhattan`
  module.
- **Worm chart**: cumulative runs at each over that actually occurs, in ascending over
  order. This lives in the `Worm` module.
- **Whole-innings run rate** (`calculate_run_rate`): running runs, running balls and
  `runs / balls * 6` per row, counted within that row's inning. These are written as new
  columns into the caller's frame. This lives in the `InningRunRate` module, as a class
  whose method assigns the columns.
- **Per-over run rate plot**: the rows are sorted by (over, ball number). Running runs
  and balls restart at every over. The rate is `runs / (balls / 6)`, then smoothed by a
  centred rolling mean of width 5 that shrinks at the ends. This lives in the
  `RunRatePlot` module.
- **Batting summary**: for innings 1 and 2, a header row and then one line per batter.
  Each line holds the runs, balls faced, fours, sixes and strike rate of the batter's
  non-wicket deliveries. The strike rate is 0 when no ball was faced. This lives in the
  `MatchSummary` module.

The `Deliveries` module holds the record type and the sums the charts share. Rates are
exact `real` values. The `over` column is a `real`, because the source applies Python's
`int()` to it, and `int()` truncates toward zero (`Deliveries.Trunc`). The Manhattan
chart groups by the truncated over. That includes the wicket markers, because line 35
overwrites the column before line 49 reads it. The worm chart and the run-rate plot
group by the over value as stored.

Two points of the code are worth stating outright. The model follows the code in both:

- Line 43 fills `grouped_wickets`, and the comment at line 41 speaks of runs and
  wickets, but the line counts rows whose outcome equals the number 1 (see Findings).
- Line 49 reads the `over` column that line 35 has already truncated, so the wicket
  markers sit at whole overs.

## Model

| member | source | states |
|---|---|---|
| `Deliveries.Trunc` | final.py:35 | Python's `int()` on a float truncates toward zero. For x ≥ 0 the result t satisfies t ≤ x < t + 1. For x < 0 it satisfies t − 1 < x ≤ t. |
| `Deliveries.Select` | final.py:32 | The match-and-inning mask keeps every row of that match and inning as often as the table holds it, and drops every other row. |
| `Deliveries.AbsentOver` | final.py:42 | An over that no row carries reads as 0 runs and 0 balls. This is the `reindex(..., fill_value=0)` of a missing key. |
| `Deliveries.OverRunsBounded` | final.py:94-95 | With every score in 0..6, an over's runs lie between 0 and 6 times its ball count. |
| `Deliveries.GroupSumsTotal` | final.py:42 | Summing the per-over totals over distinct keys gives the score of exactly the rows whose over is one of the keys. Each such row counts once and every other row not at all. |
| `Deliveries.CoveredScore` | final.py:64-67 | When the keys cover every row's over, that sum is the whole total score. |
| `Manhattan.ManhattanAggregate` | final.py:27-50 | No series is produced exactly when the inning is neither 1 nor 2. Otherwise the runs series and the count series each have exactly 20 entries. |
| `Manhattan.ManhattanEntries` | final.py:35-43 | Entry k − 1 of the runs series is the summed score of the match-and-inning rows whose truncated over is k. Entry k − 1 of the count series is how many of those rows have outcome equal to 1. |
| `Manhattan.ManhattanRunsTotal` | final.py:39-42 | The runs series adds up to the score of exactly the rows whose truncated over lies in 1..20. Rows outside that range contribute nothing. |
| `Manhattan.ManhattanZeroFill` | final.py:42-43 | An over in 1..20 with no row of the match and inning gets 0 in both series. |
| `Manhattan.OnesWithinCount` | final.py:43 | An over's count of `outcome == 1` rows never exceeds its number of rows. |
| `Manhattan.OnesAndWicketsDisjoint` | final.py:43-49 | In every over, with no condition on the rows, the rows counted by the `outcome == 1` series and the `'w'` rows together never exceed the over's rows. So a `'w'` row is never counted by that series, even in an over that also holds `outcome == 1` rows. |
| `Manhattan.MarkersPerWicket` | final.py:49 | The marker list holds over o exactly as many times as there are `'w'` rows in over o. Repeated wickets in one over give repeated equal markers. |
| `Manhattan.OnesCountMissesWickets` | final.py:42-50 | The as-written counterexample. With a four and a wicket in over 1 of match 10, inning 1, the runs are 4 in over 1 and 0 in overs 2..20, and the markers are [1]. Yet the per-over count for over 1 is 0. |
| `Manhattan.WicketsPerOver` | final.py:43 | The corrected per-over wicket count. It is absent exactly when the inning is neither 1 nor 2, and otherwise has 20 entries. |
| `Manhattan.WicketsMatchMarkers` | final.py:43-50 | The corrected count for over k equals the number of wicket markers placed at k. |
| `Worm.OversPresent` | final.py:67 | The `groupby('over')` keys are strictly ascending, and they are exactly the over values present. |
| `Worm.CumSumIsPrefixSum` | final.py:67 | Entry i of `cumsum()` is the sum of entries 0..i. |
| `Worm.WormChartMeaning` | final.py:62-67 | There is one point per over that occurs, in strictly ascending over order, and no point for an absent over. The point at over o carries the total score of every row bowled in over o or earlier. |
| `Worm.ScoreUpToMonotone` | final.py:67 | With no negative score, the runs up to an over grow with the over. |
| `Worm.WormNonDecreasing` | final.py:67 | With no negative score, the cumulative values never decrease. |
| `Worm.CumSumReachesTotal` | final.py:64-67 | For a non-empty selection, the running total over every over present ends at the total score of the selection. |
| `Worm.WormEndsAtTotal` | final.py:64-67 | The worm is empty exactly when the match and inning have no rows. Otherwise its last value is the total score of those rows. |
| `InningRunRate.BallsCumulative` | final.py:83 | The running ball count of row i lies between 1 and i + 1. |
| `InningRunRate.DeliveryFrame.CalculateRunRate` | final.py:81-85 | The rows are unchanged and each of the three new columns has one entry per row. Row i's runs are its own score plus the scores of the earlier rows of its inning. Its balls are 1 plus the number of those earlier rows. Its rate is runs / balls * 6. |
| `InningRunRate.InningTotalsOnlySeeInning` | final.py:82-83 | The inning totals depend only on where that inning's rows are and what they scored. |
| `InningRunRate.RunRateOnlySeesOwnInning` | final.py:82-84 | A row's running runs, balls and run rate do not change when rows of other innings change. |
| `InningRunRate.InningRunsBounded` | final.py:82-83 | With every score in 0..6, an inning's runs lie between 0 and 6 times its balls. |
| `InningRunRate.RunRateBounded` | final.py:84 | With every score in 0..6, every whole-innings run rate lies between 0 and 36. |
| `RunRatePlot.SortByOverBall` | final.py:91 | The sorted rows are in (over, ball number) order and are a permutation of the input rows. |
| `RunRatePlot.InsertRowSorted` | final.py:91 | Inserting a row into rows sorted by (over, ball number) keeps them sorted. |
| `RunRatePlot.LocalCount` | final.py:95 | The per-over running ball count of every row is at least 1, so the rate's divisor is never zero. |
| `RunRatePlot.RowRunRate` | final.py:98 | `cumulative_runs / (cumulative_overs / 6)` equals the per-over runs × 6 / the per-over balls. |
| `RunRatePlot.LocalValuesRestart` | final.py:91-95 | After sorting, the first ball of each over has count 1 and runs equal to its own score. Each later ball of the same over adds one ball and its score to the previous row's values. |
| `RunRatePlot.Smooth` | final.py:101-103 | The output is as long as the input. Entry i is the mean over positions max(0, i − 2) to min(n − 1, i + 2). That window has at most 5 positions and always contains i. |
| `RunRatePlot.MeanBounded` | final.py:103 | A mean lies between any bounds on the values it averages. |
| `RunRatePlot.SmoothBounded` | final.py:103 | Smoothing never leaves the range of the series it smooths. |
| `RunRatePlot.RowRunRateBounded` | final.py:94-98 | With every score in 0..6, each per-over run rate lies between 0 and 36. |
| `RunRatePlot.RunRatesBounded` | final.py:98 | With every score in 0..6, the whole `run_rate` column lies between 0 and 36. |
| `RunRatePlot.SortedSelectionScores` | final.py:88-91 | Selecting and sorting keep every score within the range it had in the table. |
| `RunRatePlot.RunRatePlot` | final.py:87-103 | The plotted series has exactly one point per row of the match and inning. |
| `RunRatePlot.RunRatePlotOrder` | final.py:91-103 | For every table, the points follow non-decreasing over order. |
| `RunRatePlot.RunRatePlotBounded` | final.py:87-103 | With every score in 0..6, every smoothed rate lies between 0 and 36. |
| `MatchSummary.StrikeRate` | final.py:155 | The strike rate is 0 when no ball was faced. Otherwise it is the value r with r × balls = runs × 100. |
| `MatchSummary.SummaryTables` | final.py:121-163 | There is exactly one table for each of innings 1 and 2. Each table is the header row followed by exactly one line per batter of that inning's batting query, in any order. Each line holds the query's runs, balls, fours, sixes and the guarded strike rate. |
| `MatchSummary.BattingQueryMeaning` | final.py:140-151 | The grouped query has a row for a batter exactly when that batter has a counted ball, meaning one of this match and inning that is not `'w'`. The row's runs, balls, fours and sixes are the aggregates of exactly those balls. |
| `MatchSummary.BoundariesWithinBalls` | final.py:144-146 | Fours plus sixes never exceed balls faced. With scores in 0..6, 4·fours + 6·sixes never exceeds runs. |
| `MatchSummary.BatterLineConsistent` | final.py:144-155 | Every listed batter has fours + sixes ≤ balls and has faced at least one ball, so the zero guard never applies to a listed line. |
| `MatchSummary.ThreeBallExample` | final.py:140-156 | A batter who scores 4, 1 and 6 has 11 runs, 3 balls, 1 four, 1 six and strike rate 1100/3. |

## Findings

| source | as written | input that shows it | evidently intended | confidence | as-written member | corrected member |
|---|---|---|---|---|---|---|
| final.py:43 | The per-over "wickets" series counts rows whose outcome equals the number 1. | A four and then a `'w'` ball, both in over 1 of match 10, inning 1: the count for over 1 is 0, while the marker list is [1]. | Count the rows carrying the wicket marker `'w'` per over, so that the count agrees with the markers drawn at line 50 (proved in `Manhattan.WicketsMatchMarkers`). | medium, not executed; the series is computed but never drawn | `Manhattan.OnesCountMissesWickets` | `Manhattan.WicketsPerOver` |

## Left out

- Persistence is not modelled: `create_database`, the whole-table replace of `record_runs_from_csv`, the cursor and connection handling, and the diagnostic dump of menu option 6. The batting summary is modelled on the table's rows as a `seq<Delivery>`, and the query is modelled by its aggregate meaning.
- CSV reading and pandas type inference are not modelled. The `outcome` column is a tagged value, a number or `W`. When pandas reads a column that contains `'w'`, it reads the column as text, and then `outcome == 1` at line 43 matches no row at all. The model compares with the number 1. Either way, wickets are not counted.
- The charts filter on a `match_no` column of the frame they are given. The driver re-reads the CSV at line 184 without adding that column, so the model takes every row's match number as given.
- All drawing (matplotlib) and PDF building (reportlab) are not modelled. The interactive menu in `main` is not modelled either. That includes its inning check for the worm and run-rate charts, so those two functions take any inning. Only `create_manhattan_plot` checks the inning itself, and the model returns `None` where it prints a message and returns.
- IEEE floating point and the `.2f` formatting of the strike rate are not modelled. Rates are exact reals.
- The dead total-score and total-wickets query (lines 125-134) is not modelled, because its result is never emitted. The unused `weights` array (line 102) is not modelled either.
- `RunRatePlot.SortByOverBall`: ball-by-ball data is not expected to repeat an (over, ball number) key. When rows do share one, pandas may return them in any order, and the model returns one particular order.
- `MatchSummary.SummaryTables`: the order of the batter lines is left open, as with SQL `GROUP BY`. The method picks the batters in an unspecified order and promises only the set of lines.
