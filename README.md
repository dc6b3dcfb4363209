# Fantasy-football league dashboard: verified model of its data pipeline

The dashboard reads a fantasy-football league's weekly scoreboards and builds two tables:

- the **Data** table, with one row per team per game;
- the **Summary** table, with one row per team: its record, mean score, winning percentage and an
  "overall" record. The overall record compares the team's mean score with the score of every
  other side of every matchup of weeks 1 up to and including the current week. The current week
  may be unfinished, and its unplayed sides score 0, so each of them counts as an overall win.

On start-up it decides whether to rebuild these tables from the league or to load the copies saved
by an earlier run. It then derives a few chart columns: each week's top scorer, the Luck Factor and
the Momentum.

This project models all of that in Dafny and proves what the pipeline promises.

- `Matchups.dfy` covers the first half of `refresh_data`:
  - the nested week/matchup loop that flattens the scoreboards into rows (`Flatten`, a method
    proved against the function `RowsBefore`);
  - the filter that drops unplayed rows (`KeepPlayed`).
- `Overall.dfy` models the inner loops that count a team's overall wins and losses (`OverallRecord`,
  a method proved against `TallyThrough`).
- `RecordText.dfy` models the `"{wins}-{losses}"` record strings. It includes a parser that reads
  them back.
- `Summary.dfy` covers the rest of `refresh_data`:
  - the per-team loop (`Summarize` and `SummarizeTeam`, proved against `Summaries` and
    `TeamSummaryOf`);
  - the percentages;
  - the sort by winning percentage (an insertion sort);
  - the whole refresh (`RefreshData`).
- `Dashboard.dfy` models the start-up rule (`StartupAction`). It also has a class `Store` for what
  outlives one run of the script: the two files (the workbook and the last-refresh marker) and the
  tables that `@st.cache_data` has memoised for `load_data` in the server process. The class's
  methods are `load_data`, `refresh_data`, the two save functions and one run of the start-up
  sequence. Because `load_data` takes no arguments, once it has returned in a process it keeps
  returning the same tables. A rerun on the day of a Tuesday refresh therefore shows the tables
  memoised before that refresh, not the ones just saved (`RefreshThenRerun`).
- `Metrics.dfy` models the chart columns:
  - `idxmax` per week and over the season;
  - the Luck Factor column and its per-team sums;
  - the Momentum column (`diff` within each team, 0 at a team's first row) and its per-team sums.
- `Collections.dfy` and `Wrappers.dfy` are shared helpers: `unique`, sums, and `Option`.

The league's network calls are replaced by a parameter `board: seq<seq<Matchup>>`, where
`board[w - 1]` is the scoreboard of week `w`, plus the current week number. Scores are exact `real`s.
A pandas mean of an empty selection (NaN) is `None`, and every comparison with it is false, as in
Python.

`sort_values` uses pandas' default algorithm, which is not stable, so the model proves only that the
sorted Summary table is in non-increasing winning percentage and is a permutation of the unsorted one.

## Model

| member | source | states |
|---|---|---|
| Matchups.Flatten | fantasy_football_streamlit_app.py:56-88 | the nested loops build exactly `RowsBefore(board, currentWeek)`: weeks 1 up to but excluding the current week, home row then away row per matchup |
| Matchups.WeekRowsAt | fantasy_football_streamlit_app.py:59-79 | a week yields two rows per matchup; matchup `j` is at rows `2j` (home view) and `2j+1` (away view) |
| Matchups.RowsBeforeLength | fantasy_football_streamlit_app.py:56-79 | the flattened table has exactly twice as many rows as there are matchups in the weeks it covers |
| Matchups.RowsBeforePrefix | fantasy_football_streamlit_app.py:56-79 | the table for fewer weeks is a prefix of the table for more weeks, since rows are only appended |
| Matchups.RowsOfMatchup | fantasy_football_streamlit_app.py:56-79 | every matchup of every covered week appears as two consecutive rows, home then away, at the offset fixed by the earlier matchups |
| Matchups.FlattenedTableShape | fantasy_football_streamlit_app.py:66-79 | the table is a sequence of mirrored pairs (team/opponent and scores swapped); at most one row of a pair is a win; a tie gives two non-wins; every Win flag is `TeamScore > OpponentScore`; every week is in 1..currentWeek-1; weeks never decrease |
| Matchups.KeepPlayed | fantasy_football_streamlit_app.py:90 | the filter never adds rows; `KeepPlayedMembers` and `KeepPlayedAppend` state which rows it keeps and in what order |
| Matchups.KeepPlayedMembers | fantasy_football_streamlit_app.py:90 | the filter keeps exactly the rows with a strictly positive team score |
| Matchups.KeepPlayedAppend | fantasy_football_streamlit_app.py:90 | the filter works row by row: filtering a concatenation is concatenating the filtered parts, so relative order is kept and no row is changed |
| Matchups.KeepPlayedAllPlayed | fantasy_football_streamlit_app.py:90 | a table whose scores are all positive passes the filter unchanged |
| Matchups.KeepPlayedKeepsWeekOrder | fantasy_football_streamlit_app.py:90 | filtering a table in week order leaves it in week order |
| Overall.OverallRecord | fantasy_football_streamlit_app.py:117-129 | the loops over weeks 1..currentWeek inclusive and over both sides of every matchup compute `TallyThrough`: each side not named `team` adds a win when strictly below the team's mean and a loss when strictly above |
| Overall.TallyBounded | fantasy_football_streamlit_app.py:120-129 | each other side adds to at most one counter, and a score equal to the mean adds to neither, so overall wins + losses is at most the number of other sides scanned |
| Overall.TallyMonotone | fantasy_football_streamlit_app.py:124-129 | a higher mean never gives fewer overall wins or more overall losses |
| RecordText.DecimalString | fantasy_football_streamlit_app.py:131 | the rendering of a count is non-empty, all digits, has no leading zero, and reads back as the count |
| RecordText.RecordRoundTrip | fantasy_football_streamlit_app.py:131-135 | a `"{wins}-{losses}"` string parses back to exactly `(wins, losses)` |
| RecordText.RecordInjective | fantasy_football_streamlit_app.py:131-135 | two records render to the same string only when both counts agree |
| Summary.TeamRows | fantasy_football_streamlit_app.py:108 | the team's selection is never longer than the table; `TeamRowsMembers` and `TeamRowsAppend` state its contents |
| Summary.TeamRowsAppend | fantasy_football_streamlit_app.py:108 | the selection works row by row: selecting from a concatenation is concatenating the selections, so every row of the team is kept as often as it occurs and in table order |
| Summary.TeamRowsMembers | fantasy_football_streamlit_app.py:108 | the team's selection holds exactly the table rows carrying its name |
| Summary.WinCount | fantasy_football_streamlit_app.py:114 | the sum of the Win column never exceeds the number of rows, so the losses count `len(team_data) - wins` is never negative |
| Summary.WinCountCountsVictories | fantasy_football_streamlit_app.py:114 | summing the Win column counts the rows whose team outscored its opponent |
| Summary.MeanScore | fantasy_football_streamlit_app.py:110 | the mean is undefined (NaN) exactly when the team has no rows |
| Summary.MeanWithin | fantasy_football_streamlit_app.py:110 | the mean of a non-empty selection lies between any lower and upper bound of its scores |
| Summary.Ratio | fantasy_football_streamlit_app.py:132 | a percentage is in [0, 1]; it is 0 exactly when the part is 0 (including when there are no games) and 1 exactly when every game counts |
| Summary.TeamSummaryFacts | fantasy_football_streamlit_app.py:107-145 | for a table of strict-win played rows: wins + losses = the team's rows; wins = games won outright; both record strings parse back to the counts; winning percentage in [0,1] and 0 with no games; mean undefined iff no rows, otherwise positive; overall wins + losses at most the other sides scanned; overall percentage in [0,1] and 0 when both counters are 0 |
| Summary.SummarizeTeam | fantasy_football_streamlit_app.py:108-145 | the loop body builds the row `TeamSummaryOf(df, board, currentWeek, team)` |
| Summary.Summarize | fantasy_football_streamlit_app.py:107-145 | the per-team loop appends one row per team of `df['Team'].unique()`, in that order |
| Summary.SummariesForAt | fantasy_football_streamlit_app.py:134-145 | entry `k` of the summary is the summary of the `k`-th team |
| Summary.SummariesFollowTeams | fantasy_football_streamlit_app.py:107 | before sorting, the summary names every team of the table, no other, and none twice, and each entry is its team's summary |
| Summary.SortByWinningPercentage | fantasy_football_streamlit_app.py:148 | the sorted summary is in non-increasing winning percentage and is a permutation of its input |
| Summary.SortKeepsRows | fantasy_football_streamlit_app.py:148 | sorting keeps exactly the same rows |
| Summary.SortKeepsTeamsDistinct | fantasy_football_streamlit_app.py:148 | sorting a summary without repeated teams does not repeat a team |
| Summary.RefreshData | fantasy_football_streamlit_app.py:56-148 | the Data table is the filtered flattening of weeks 1..currentWeek-1, and the Summary table is its sorted per-team summary |
| Summary.RefreshedDataTable | fantasy_football_streamlit_app.py:56-90 | the refreshed Data table holds only played rows with strict Win flags, of weeks 1..currentWeek-1, in week order |
| Summary.SummaryTableCoversTeams | fantasy_football_streamlit_app.py:107-148 | the sorted Summary table names exactly the teams of the Data table, none twice, and each row is that team's summary |
| Dashboard.BeforeIsStrictTotalOrder | fantasy_football_streamlit_app.py:184 | the date comparison is irreflexive, transitive, asymmetric and total |
| Dashboard.StartupAction | fantasy_football_streamlit_app.py:183-192 | a scheduled refresh happens iff it is Tuesday and no refresh is recorded or the last one is strictly before today; otherwise `load_data` returns its memoised tables when it has already returned in this process, else reads the workbook when it exists, else regenerates |
| Dashboard.SameDayRerunSkipsRefresh | fantasy_football_streamlit_app.py:183-189 | a run that starts after a refresh has recorded today does not start another scheduled refresh and goes through `load_data`, so among runs taken one after another a scheduled refresh reads the scoreboards at most once a day |
| Dashboard.OffDayNeverRegenerates | fantasy_football_streamlit_app.py:190-192 | on any day but Tuesday, with memoised tables or an existing workbook, the tables are reused or read, never regenerated |
| Dashboard.Store.constructor | fantasy_football_streamlit_app.py:19-29 | a new server process starts with the given workbook and marker files and nothing memoised |
| Dashboard.Store.SaveWorkbook | fantasy_football_streamlit_app.py:157-160 | both sheets are overwritten with the given tables; the marker and the memo are untouched |
| Dashboard.Store.UpdateLastRefresh | fantasy_football_streamlit_app.py:172-174 | the marker now holds the given date; the workbook and the memo are untouched |
| Dashboard.Store.Refresh | fantasy_football_streamlit_app.py:48-154 | returns the refreshed tables and saves exactly them; the marker and the memo are untouched |
| Dashboard.Store.LoadData | fantasy_football_streamlit_app.py:29-44 | returns the memoised tables when there are any; otherwise the workbook's tables, or, without a workbook, refreshed tables that it saves; in every case the returned tables are memoised afterwards and the marker is never touched |
| Dashboard.Store.Start | fantasy_football_streamlit_app.py:177-192 | reuses, reads or regenerates exactly as `StartupAction` decides; a scheduled refresh records today and leaves the memo alone, a fallback refresh leaves the marker alone and memoises its tables, and every refresh leaves the workbook holding the returned tables |
| Dashboard.Store.RefreshThenRerun | fantasy_football_streamlit_app.py:183-189 | in a process where `load_data` has already returned, a Tuesday refresh saves the new Data table and its sorted summary and records today without touching the memo, and a rerun that day shows the tables memoised before the refresh |
| Metrics.BestIndex | fantasy_football_streamlit_app.py:201 | `idxmax` within a week: none iff the week has no row; otherwise a row of that week whose score no row of the week exceeds, and strictly above every earlier row of the week |
| Metrics.TopScorers | fantasy_football_streamlit_app.py:201 | one top-scorer row per week of the table |
| Metrics.TopScorersAreWeekBests | fantasy_football_streamlit_app.py:201 | each top-scorer entry is a table row of its week that no row of that week outscores |
| Metrics.TopScorersCoverWeeks | fantasy_football_streamlit_app.py:201 | the top scorers have one entry per week of the table, no other week and no week twice |
| Metrics.WeeksAscending | fantasy_football_streamlit_app.py:201 | on a table in week order the weeks come out strictly ascending, as `groupby` lists them |
| Metrics.SeasonBestIndex | fantasy_football_streamlit_app.py:214 | the season's best row scores at least as much as every row and strictly more than every earlier row |
| Metrics.SeasonBestTopsItsWeek | fantasy_football_streamlit_app.py:201-214 | the season's best performance is also its own week's top performance |
| Metrics.LuckColumn | fantasy_football_streamlit_app.py:266 | one Luck Factor value per row |
| Metrics.LuckOfMirroredPairsCancels | fantasy_football_streamlit_app.py:266 | in a table of mirrored pairs the Luck Factor column sums to zero |
| Metrics.TeamTotal | fantasy_football_streamlit_app.py:267 | a team's `groupby` sum (of Luck Factor here, of Momentum at `:285`) is the whole column's sum when every row is the team's, and 0 when none is |
| Metrics.TeamTotalsAddUp | fantasy_football_streamlit_app.py:267 | the per-team sums of a column, taken over the table's teams, add up to the column's total |
| Metrics.LeagueLuckIsZero | fantasy_football_streamlit_app.py:266-267 | when every game of the covered weeks has been played, the teams' Luck Factor totals add up to zero |
| Metrics.MomentumOf | fantasy_football_streamlit_app.py:284 | a row's Momentum is 0 when its team has no earlier row, and otherwise its score minus the score of the team's last earlier row |
| Metrics.MomentumColumn | fantasy_football_streamlit_app.py:284 | one Momentum value per row |
| Metrics.TeamMomentumTelescopes | fantasy_football_streamlit_app.py:284-285 | a team's Momentum total is its last score minus its first score, in row order, and 0 for a team with no rows |
| Collections.Distinct | fantasy_football_streamlit_app.py:107 | `unique` is never longer than its input; `DistinctMembers` and `DistinctKeepsFirstAppearanceOrder` state its contents and order |
| Collections.DistinctMembers | fantasy_football_streamlit_app.py:107 | `unique` keeps every value, adds none and lists none twice |
| Collections.DistinctKeepsFirstAppearanceOrder | fantasy_football_streamlit_app.py:107 | `unique` lists values in the order of their first appearance |

## Left out

- The league API (`League(...)`, `league.scoreboard`, `league.current_week`): replaced by the `board` and `currentWeek` parameters. The source calls `league.scoreboard(week)` once while flattening (`:57`) and again for every team in the overall scan (`:121`); the model assumes every call returns the same matchups. The model requires `board` to hold weeks 1..currentWeek, because the overall scan reads the current week.
- Reading and writing the Excel workbook and the JSON marker file: the files are the fields of `Store`, holding the tables and the date directly. Date parsing and formatting are left out.
- `datetime.now()`: the weekday and today's date are parameters. The source reads the clock twice, so at midnight the two can disagree; the model takes them as given.
- Concurrent sessions: Streamlit runs each browser session's script in its own thread, but the model takes runs one after another. Two Tuesday runs that both read the marker (`:180`) before either writes it (`:186`) each refresh and each save the workbook.
- Metrics.SeasonBestIndex: requires a non-empty Data table, because the source raises on an empty one: `st.columns(len(top_scorers))` at `:205` gets 0, and `idxmax` at `:214` raises `ValueError` on an empty column. `refresh_data` builds an empty table whenever `current_week <= 1`, or before any game has a positive score.
- `st.session_state.last_refresh` (`:25-26`, `:152`): it is written but never read. The `@st.cache_data` memo of `load_data` is modelled as the `memo` field of `Store`, one per server process; its clearing by a server restart is the constructor.
- Median and standard deviation (`:111-112`, `:138-139`): median needs a sorted-sequence specification, and standard deviation needs a square root and is NaN for one sample.
- Strength of Schedule and Efficiency (`:299-315`), the box plot and the heat map: groupby means that produce NaN, and plotting.
- Sorting the luck and momentum tables for the bar charts (`:270`, `:288`): this affects display order only.
- All Streamlit rendering and matplotlib/seaborn plotting.
- Float rounding: scores, means and percentages are exact reals.
- The six parallel lists of `refresh_data` are modelled as one sequence of rows, and the 1/0 Win column as a bool.
- Summary.SortByWinningPercentage: the order among equal winning percentages is not specified, because pandas' default sort is not stable.
- Metrics.TopScorers: weeks are listed in order of first appearance, while `groupby` sorts them. `WeeksAscending` shows the two orders agree on any table in week order, which the refreshed Data table is (`RefreshedDataTable`).
- Metrics.TeamTotal: its own contract covers only a table of the team's rows alone and a table without them; the mixed case is stated through `TeamTotalsAddUp` and `TeamMomentumTelescopes`.
- Metrics.LeagueLuckIsZero: stated only when no game of the covered weeks is unplayed. A pair with one side filtered out does not cancel.
