/**
 * What the dashboard does at start-up: read the last-refresh marker, decide whether to
 * regenerate the tables from the league or to load them from the workbook saved by an
 * earlier run, and keep both files up to date.
 */
module Dashboard {
  import opened Wrappers
  import opened Matchups
  import opened Summary

  /** A calendar date, compared as Python compares `datetime.date` values. */
  datatype Date = Date(year: int, month: int, day: int)

  /** `a < b` on dates: year first, then month, then day. */
  predicate Before(a: Date, b: Date)
  {
    a.year < b.year || (a.year == b.year && (a.month < b.month || (a.month == b.month && a.day < b.day)))
  }

  /** `Before` is a strict total order: irreflexive, transitive, and any two dates compare. */
  lemma BeforeIsStrictTotalOrder(a: Date, b: Date, c: Date)
    ensures !Before(a, a)
    ensures Before(a, b) && Before(b, c) ==> Before(a, c)
    ensures Before(a, b) || a == b || Before(b, a)
    ensures !(Before(a, b) && Before(b, a))
  {
  }

  /** How the tables of a run are obtained. */
  datatype Startup =
    | ScheduledRefresh   // regenerate, then record today as the last refresh
    | ReuseMemo          // `load_data` has already returned in this server process: its memoised tables
    | ReadWorkbook       // `load_data` reads the workbook saved by an earlier run
    | FallbackRefresh    // `load_data` found no workbook and regenerated instead

  /**
   * `load_data` under `@st.cache_data`: it takes no arguments, so once it has returned in a
   * server process every later call returns the same tables without running its body;
   * otherwise it reads the workbook, or regenerates when the file does not exist.
   */
  function LoadAction(memoised: bool, workbookExists: bool): Startup
  {
    if memoised then ReuseMemo else if workbookExists then ReadWorkbook else FallbackRefresh
  }

  /**
   * The start-up rule. `weekday` counts from Monday = 0, so 1 is Tuesday; `lastRefresh` is
   * None when the marker file does not exist; `memoised` says whether `load_data` has already
   * returned in this server process.
   */
  function StartupAction(weekday: int, lastRefresh: Option<Date>, today: Date, memoised: bool, workbookExists: bool): (action: Startup)
    ensures action == ScheduledRefresh <==> weekday == 1 && (lastRefresh.None? || Before(lastRefresh.value, today))
    ensures action == ReuseMemo <==> action != ScheduledRefresh && memoised
    ensures action == ReadWorkbook <==> action != ScheduledRefresh && !memoised && workbookExists
    ensures action == FallbackRefresh <==> action != ScheduledRefresh && !memoised && !workbookExists
  {
    if weekday == 1 then
      if lastRefresh.None? || Before(lastRefresh.value, today) then ScheduledRefresh
      else LoadAction(memoised, workbookExists)
    else LoadAction(memoised, workbookExists)
  }

  /**
   * A run that starts after a scheduled refresh has recorded `today` does not start another
   * one; it goes through `load_data`. Runs that read the marker before the first refresh of the
   * day has written it are not covered: runs are taken one after another.
   */
  lemma SameDayRerunSkipsRefresh(weekday: int, today: Date, memoised: bool, workbookExists: bool)
    ensures StartupAction(weekday, Some(today), today, memoised, workbookExists) != ScheduledRefresh
    ensures StartupAction(weekday, Some(today), today, memoised, workbookExists) == LoadAction(memoised, workbookExists)
  {
    BeforeIsStrictTotalOrder(today, today, today);
  }

  /**
   * A run on any day but Tuesday never regenerates the tables while a workbook exists or the
   * tables are memoised.
   */
  lemma OffDayNeverRegenerates(weekday: int, lastRefresh: Option<Date>, today: Date, memoised: bool, workbookExists: bool)
    requires weekday != 1 && (memoised || workbookExists)
    ensures StartupAction(weekday, lastRefresh, today, memoised, workbookExists).ReuseMemo? ||
            StartupAction(weekday, lastRefresh, today, memoised, workbookExists).ReadWorkbook?
  {
  }

  /** The Data and Summary sheets of the workbook. */
  datatype Tables = Tables(data: seq<Row>, summary: seq<TeamSummary>)

  /**
   * What outlives one run of the script: the two files, and the tables `load_data` has
   * memoised in the server process.
   */
  class Store {
    /** `fantasy_data.xlsx`, when the file exists. */
    var workbook: Option<Tables>
    /** `last_refresh.json`, when the file exists. */
    var lastRefresh: Option<Date>
    /** The `@st.cache_data` entry of `load_data`, once it has returned in this process. */
    var memo: Option<Tables>

    /** A fresh server process over the files as they are on disk. */
    constructor (workbook: Option<Tables>, lastRefresh: Option<Date>)
      ensures this.workbook == workbook && this.lastRefresh == lastRefresh && memo == None
    {
      this.workbook := workbook;
      this.lastRefresh := lastRefresh;
      memo := None;
    }

    /** `save_data_to_excel`: overwrite both sheets. */
    method SaveWorkbook(df: seq<Row>, summary: seq<TeamSummary>)
      modifies this
      ensures workbook == Some(Tables(df, summary)) && lastRefresh == old(lastRefresh) && memo == old(memo)
    {
      workbook := Some(Tables(df, summary));
    }

    /** `update_last_refresh_date`: record `date` in the marker file. */
    method UpdateLastRefresh(date: Date)
      modifies this
      ensures lastRefresh == Some(date) && workbook == old(workbook) && memo == old(memo)
    {
      lastRefresh := Some(date);
    }

    /** `refresh_data`: regenerate both tables from the league and save them. */
    method Refresh(board: Scoreboard, currentWeek: nat) returns (df: seq<Row>, summary: seq<TeamSummary>)
      requires currentWeek <= |board|
      modifies this
      ensures df == KeepPlayed(RowsBefore(board, currentWeek))
      ensures summary == SortByWinningPercentage(Summaries(df, board, currentWeek))
      ensures workbook == Some(Tables(df, summary)) && lastRefresh == old(lastRefresh) && memo == old(memo)
    {
      df, summary := RefreshData(board, currentWeek);
      SaveWorkbook(df, summary);
    }

    /**
     * `load_data`: the memoised tables when it has already returned in this process; otherwise
     * the saved tables, or a refresh when no workbook exists, which it then memoises.
     */
    method LoadData(board: Scoreboard, currentWeek: nat) returns (df: seq<Row>, summary: seq<TeamSummary>)
      requires currentWeek <= |board|
      modifies this
      ensures old(memo).Some? ==> Tables(df, summary) == old(memo).value && workbook == old(workbook)
      ensures old(memo).None? && old(workbook).Some? ==>
                Tables(df, summary) == old(workbook).value && workbook == old(workbook)
      ensures old(memo).None? && old(workbook).None? ==>
                df == KeepPlayed(RowsBefore(board, currentWeek)) &&
                summary == SortByWinningPercentage(Summaries(df, board, currentWeek)) &&
                workbook == Some(Tables(df, summary))
      ensures memo == Some(Tables(df, summary)) && lastRefresh == old(lastRefresh)
    {
      if memo.Some? {
        df, summary := memo.value.data, memo.value.summary;
      } else {
        if workbook.Some? {
          df, summary := workbook.value.data, workbook.value.summary;
        } else {
          df, summary := Refresh(board, currentWeek);
        }
        memo := Some(Tables(df, summary));
      }
    }

    /**
     * One run of the script: on a Tuesday without a refresh recorded for today, regenerate,
     * record today and save; otherwise load.
     */
    method Start(weekday: int, today: Date, board: Scoreboard, currentWeek: nat)
      returns (df: seq<Row>, summary: seq<TeamSummary>)
      requires currentWeek <= |board|
      modifies this
      ensures var action := StartupAction(weekday, old(lastRefresh), today, old(memo).Some?, old(workbook).Some?);
              (action == ReuseMemo ==>
                 Tables(df, summary) == old(memo).value && memo == old(memo) &&
                 workbook == old(workbook) && lastRefresh == old(lastRefresh)) &&
              (action == ReadWorkbook ==>
                 Tables(df, summary) == old(workbook).value && memo == Some(Tables(df, summary)) &&
                 workbook == old(workbook) && lastRefresh == old(lastRefresh)) &&
              ((action == ScheduledRefresh || action == FallbackRefresh) ==>
                 df == KeepPlayed(RowsBefore(board, currentWeek)) &&
                 summary == SortByWinningPercentage(Summaries(df, board, currentWeek)) &&
                 workbook == Some(Tables(df, summary))) &&
              (action == ScheduledRefresh ==> lastRefresh == Some(today) && memo == old(memo)) &&
              (action == FallbackRefresh ==> lastRefresh == old(lastRefresh) && memo == Some(Tables(df, summary)))
    {
      var lastRefreshDate := lastRefresh;
      if weekday == 1 {
        if lastRefreshDate.None? || Before(lastRefreshDate.value, today) {
          df, summary := Refresh(board, currentWeek);
          UpdateLastRefresh(today);
          SaveWorkbook(df, summary);
        } else {
          df, summary := LoadData(board, currentWeek);
        }
      } else {
        df, summary := LoadData(board, currentWeek);
      }
    }

    /**
     * In a process where `load_data` has already returned, a Tuesday refresh followed by a rerun
     * on the same day: the refresh saves the new tables, but the rerun goes through `load_data`
     * and is served the memoised tables from before the refresh.
     */
    method RefreshThenRerun(today: Date, board: Scoreboard, currentWeek: nat) returns (refreshed: Tables, shown: Tables)
      requires currentWeek <= |board|
      requires memo.Some? && (lastRefresh.None? || Before(lastRefresh.value, today))
      modifies this
      ensures refreshed.data == KeepPlayed(RowsBefore(board, currentWeek))
      ensures refreshed.summary == SortByWinningPercentage(Summaries(refreshed.data, board, currentWeek))
      ensures workbook == Some(refreshed) && lastRefresh == Some(today) && memo == old(memo)
      ensures shown == old(memo).value
    {
      var df, summary := Start(1, today, board, currentWeek);
      refreshed := Tables(df, summary);
      SameDayRerunSkipsRefresh(1, today, true, true);
      df, summary := Start(1, today, board, currentWeek);
      shown := Tables(df, summary);
    }
  }
}
