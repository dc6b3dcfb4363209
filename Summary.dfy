/**
 * The second half of `refresh_data`: the season summary. For each team of the filtered table,
 * in order of first appearance, its win-loss record, mean score and winning percentage, and its
 * "overall" record (its mean score against every other side's score league-wide); the summary
 * is then sorted by winning percentage, highest first.
 */
module Summary {
  import opened Wrappers
  import opened Collections
  import opened Matchups
  import opened RecordText
  import opened Overall

  /** The Team column. */
  function TeamNames(rows: seq<Row>): (names: seq<string>)
    ensures |names| == |rows| && forall i :: 0 <= i < |rows| ==> names[i] == rows[i].team
  {
    seq(|rows|, i requires 0 <= i < |rows| => rows[i].team)
  }

  /** `df[df['Team'] == team]`: the team's rows, in table order. */
  function TeamRows(rows: seq<Row>, team: string): (rs: seq<Row>)
    ensures |rs| <= |rows|
  {
    if rows == [] then []
    else
      var last := rows[|rows| - 1];
      TeamRows(rows[..|rows| - 1], team) + if last.team == team then [last] else []
  }

  /** The team's rows are exactly the rows of the table that carry its name. */
  lemma {:induction false} TeamRowsMembers(rows: seq<Row>, team: string)
    ensures forall r :: r in TeamRows(rows, team) <==> r in rows && r.team == team
  {
    if rows != [] {
      var n := |rows| - 1;
      TeamRowsMembers(rows[..n], team);
      assert rows == rows[..n] + [rows[n]];
    }
  }

  /**
   * Selecting from two tables one after the other is selecting from their concatenation:
   * every row of the team is kept as often as it occurs, in table order.
   */
  lemma {:induction false} TeamRowsAppend(a: seq<Row>, b: seq<Row>, team: string)
    ensures TeamRows(a + b, team) == TeamRows(a, team) + TeamRows(b, team)
  {
    if b == [] {
      assert a + b == a;
    } else {
      assert (a + b)[..|a + b| - 1] == a + b[..|b| - 1];
      TeamRowsAppend(a, b[..|b| - 1], team);
    }
  }

  /** `team_data['Win'].sum()`. */
  function WinCount(rs: seq<Row>): (n: nat)
    ensures n <= |rs|
  {
    if rs == [] then 0
    else WinCount(rs[..|rs| - 1]) + if rs[|rs| - 1].win then 1 else 0
  }

  /** Number of rows whose team outscored its opponent. */
  function BeatCount(rs: seq<Row>): nat
  {
    if rs == [] then 0
    else BeatCount(rs[..|rs| - 1]) + if rs[|rs| - 1].teamScore > rs[|rs| - 1].opponentScore then 1 else 0
  }

  /** With strict win flags, the wins of a team are exactly the games it outscored its opponent. */
  lemma {:induction false} WinCountCountsVictories(rs: seq<Row>)
    requires forall r :: r in rs ==> WinIsStrict(r)
    ensures WinCount(rs) == BeatCount(rs)
  {
    if rs != [] {
      WinCountCountsVictories(rs[..|rs| - 1]);
      assert rs[|rs| - 1] in rs;
    }
  }

  /** `team_data['Team Score']`: the Team Score column of the team's rows. */
  function TeamScores(rs: seq<Row>): (scores: seq<real>)
    ensures |scores| == |rs| && forall i :: 0 <= i < |rs| ==> scores[i] == rs[i].teamScore
  {
    seq(|rs|, i requires 0 <= i < |rs| => rs[i].teamScore)
  }

  /** Summing the column row by row: the last row adds its score. */
  lemma ScoreSumStep(rs: seq<Row>)
    requires rs != []
    ensures Sum(TeamScores(rs)) == Sum(TeamScores(rs[..|rs| - 1])) + rs[|rs| - 1].teamScore
  {
    assert TeamScores(rs)[..|rs| - 1] == TeamScores(rs[..|rs| - 1]);
  }

  /** `team_data['Team Score'].mean()`; `None` stands for the NaN pandas gives for no rows. */
  function MeanScore(rs: seq<Row>): (m: Option<real>)
    ensures m.None? <==> rs == []
  {
    if rs == [] then None else Some(Sum(TeamScores(rs)) / |rs| as real)
  }

  lemma ScoreSumBounds(rs: seq<Row>, lo: real, hi: real)
    requires forall r :: r in rs ==> lo <= r.teamScore <= hi
    ensures lo * |rs| as real <= Sum(TeamScores(rs)) <= hi * |rs| as real
  {
    var scores := TeamScores(rs);
    forall i | 0 <= i < |scores| ensures lo <= scores[i] <= hi {
      assert rs[i] in rs;
    }
    SumBounds(scores, lo, hi);
  }

  /** The mean lies between the lowest and the highest score. */
  lemma MeanWithin(rs: seq<Row>, lo: real, hi: real)
    requires rs != []
    requires forall r :: r in rs ==> lo <= r.teamScore <= hi
    ensures lo <= MeanScore(rs).value <= hi
  {
    ScoreSumBounds(rs, lo, hi);
    QuotientWithin(Sum(TeamScores(rs)), |rs| as real, lo, hi);
  }

  lemma QuotientWithin(total: real, n: real, lo: real, hi: real)
    requires n > 0.0 && lo * n <= total <= hi * n
    ensures lo <= total / n <= hi
  {
    var m := total / n;
    assert m * n == total;
    QuotientNonNegative(total - lo * n, n);
    QuotientNonNegative(hi * n - total, n);
    assert (m - lo) * n == total - lo * n && (hi - m) * n == hi * n - total;
  }

  lemma QuotientNonNegative(a: real, b: real)
    requires a >= 0.0 && b > 0.0
    ensures a / b >= 0.0
  {
    assert a / b * b == a;
  }

  /** `part / whole if whole > 0 else 0`: both percentages of the summary. */
  function Ratio(part: nat, whole: nat): (r: real)
    requires part <= whole
    ensures 0.0 <= r <= 1.0
    ensures r == 0.0 <==> part == 0
    ensures r == 1.0 <==> 0 < whole == part
  {
    if whole > 0 then
      QuotientAtMostOne(part as real, whole as real);
      QuotientIsOne(part as real, whole as real);
      part as real / whole as real
    else 0.0
  }

  lemma QuotientAtMostOne(a: real, b: real)
    requires 0.0 <= a <= b && b > 0.0
    ensures a / b <= 1.0
  {
    var q := a / b;
    assert q * b == a;
  }

  lemma QuotientIsOne(a: real, b: real)
    requires b > 0.0
    ensures a / b == 1.0 <==> a == b
  {
    assert a / b * b == a;
  }

  /** One row of the "Summary" table (median and standard deviation are not modelled). */
  datatype TeamSummary = TeamSummary(
    team: string,
    record: string,
    overallRecord: string,
    meanScore: Option<real>,
    wins: nat,
    losses: nat,
    winningPercentage: real,
    overallWins: nat,
    overallLosses: nat,
    overallWinningPercentage: real)

  /** The dictionary the per-team loop appends, built from the team's counts. */
  function SummaryRow(team: string, wins: nat, losses: nat, mean: Option<real>, overall: Tally): TeamSummary
  {
    TeamSummary(team, WinLossRecord(wins, losses), WinLossRecord(overall.wins, overall.losses), mean,
                wins, losses, Ratio(wins, wins + losses),
                overall.wins, overall.losses, Ratio(overall.wins, overall.wins + overall.losses))
  }

  /** The summary row the per-team loop appends for `team`. */
  function TeamSummaryOf(df: seq<Row>, board: Scoreboard, currentWeek: nat, team: string): TeamSummary
    requires currentWeek <= |board|
  {
    var rs := TeamRows(df, team);
    var wins := WinCount(rs);
    var mean := MeanScore(rs);
    SummaryRow(team, wins, |rs| - wins, mean, TallyThrough(board, currentWeek, team, mean))
  }

  /** What a summary row promises about its team. */
  lemma TeamSummaryFacts(df: seq<Row>, board: Scoreboard, currentWeek: nat, team: string)
    requires currentWeek <= |board|
    requires forall r :: r in df ==> WinIsStrict(r) && r.teamScore > 0.0
    ensures var s := TeamSummaryOf(df, board, currentWeek, team);
            var rs := TeamRows(df, team);
            s.team == team &&
            s.wins + s.losses == |rs| &&
            s.wins == BeatCount(rs) &&
            ParseRecord(s.record) == Some((s.wins, s.losses)) &&
            ParseRecord(s.overallRecord) == Some((s.overallWins, s.overallLosses)) &&
            0.0 <= s.winningPercentage <= 1.0 &&
            (rs == [] ==> s.winningPercentage == 0.0) &&
            (s.meanScore.None? <==> rs == []) &&
            (s.meanScore.Some? ==> s.meanScore.value > 0.0) &&
            s.overallWins + s.overallLosses <= OtherSidesThrough(board, currentWeek, team) &&
            0.0 <= s.overallWinningPercentage <= 1.0 &&
            (s.overallWins + s.overallLosses == 0 ==> s.overallWinningPercentage == 0.0)
  {
    var rs := TeamRows(df, team);
    var s := TeamSummaryOf(df, board, currentWeek, team);
    TeamRowsMembers(df, team);
    WinCountCountsVictories(rs);
    RecordRoundTrip(s.wins, s.losses);
    RecordRoundTrip(s.overallWins, s.overallLosses);
    TallyBounded(board, currentWeek, team, s.meanScore);
    if rs != [] {
      ScoreSumPositive(rs);
      QuotientPositive(Sum(TeamScores(rs)), |rs| as real);
    }
  }

  lemma QuotientPositive(a: real, b: real)
    requires a > 0.0 && b > 0.0
    ensures a / b > 0.0
  {
    assert a / b * b == a;
  }

  lemma {:induction false} ScoreSumPositive(rs: seq<Row>)
    requires rs != [] && forall r :: r in rs ==> r.teamScore > 0.0
    ensures Sum(TeamScores(rs)) > 0.0
  {
    assert rs[|rs| - 1] in rs;
    ScoreSumStep(rs);
    if |rs| > 1 {
      ScoreSumPositive(rs[..|rs| - 1]);
    }
  }

  /** The teams of the table, in order of first appearance: `df['Team'].unique()`. */
  function TeamsOf(df: seq<Row>): seq<string>
  {
    Distinct(TeamNames(df))
  }

  /** The summary rows of `teams`, one per team, in that order. */
  function SummariesFor(df: seq<Row>, board: Scoreboard, currentWeek: nat, teams: seq<string>): (summary: seq<TeamSummary>)
    requires currentWeek <= |board|
    ensures |summary| == |teams|
  {
    if teams == [] then []
    else
      var n := |teams| - 1;
      SummariesFor(df, board, currentWeek, teams[..n]) + [TeamSummaryOf(df, board, currentWeek, teams[n])]
  }

  lemma {:induction false} SummariesForAt(df: seq<Row>, board: Scoreboard, currentWeek: nat, teams: seq<string>, k: nat)
    requires currentWeek <= |board| && k < |teams|
    ensures SummariesFor(df, board, currentWeek, teams)[k] == TeamSummaryOf(df, board, currentWeek, teams[k])
  {
    var n := |teams| - 1;
    var prefix := SummariesFor(df, board, currentWeek, teams[..n]);
    assert SummariesFor(df, board, currentWeek, teams) == prefix + [TeamSummaryOf(df, board, currentWeek, teams[n])];
    if k < n {
      SummariesForAt(df, board, currentWeek, teams[..n], k);
      assert teams[..n][k] == teams[k];
    }
  }

  lemma SummariesForStep(df: seq<Row>, board: Scoreboard, currentWeek: nat, teams: seq<string>, i: nat)
    requires currentWeek <= |board| && i < |teams|
    ensures SummariesFor(df, board, currentWeek, teams[..i + 1])
            == SummariesFor(df, board, currentWeek, teams[..i]) + [TeamSummaryOf(df, board, currentWeek, teams[i])]
  {
    assert teams[..i + 1][..i] == teams[..i];
  }

  /** The summary rows before sorting, one per team of `TeamsOf(df)`, in that order. */
  function Summaries(df: seq<Row>, board: Scoreboard, currentWeek: nat): seq<TeamSummary>
    requires currentWeek <= |board|
  {
    SummariesFor(df, board, currentWeek, TeamsOf(df))
  }

  /** The body of the per-team loop of `refresh_data`: the summary row of one team. */
  method SummarizeTeam(df: seq<Row>, board: Scoreboard, currentWeek: nat, team: string) returns (row: TeamSummary)
    requires currentWeek <= |board|
    ensures row == TeamSummaryOf(df, board, currentWeek, team)
  {
    var teamData := TeamRows(df, team);
    var meanScore := MeanScore(teamData);
    var winsCount := WinCount(teamData);
    var lossesCount := |teamData| - winsCount;
    var overallWins, overallLosses := OverallRecord(board, currentWeek, team, meanScore);
    row := SummaryRow(team, winsCount, lossesCount, meanScore, Tally(overallWins, overallLosses));
  }

  /** The per-team loop of `refresh_data`, which appends one summary row per team. */
  method Summarize(df: seq<Row>, board: Scoreboard, currentWeek: nat) returns (summary: seq<TeamSummary>)
    requires currentWeek <= |board|
    ensures summary == Summaries(df, board, currentWeek)
  {
    var teams := TeamsOf(df);
    summary := [];
    for i := 0 to |teams|
      invariant summary == SummariesFor(df, board, currentWeek, teams[..i])
    {
      var row := SummarizeTeam(df, board, currentWeek, teams[i]);
      SummariesForStep(df, board, currentWeek, teams, i);
      summary := summary + [row];
    }
    assert teams[..|teams|] == teams;
  }

  /** The team names of summary rows. */
  function SummaryTeams(summary: seq<TeamSummary>): (names: seq<string>)
    ensures |names| == |summary| && forall i :: 0 <= i < |summary| ==> names[i] == summary[i].team
  {
    seq(|summary|, i requires 0 <= i < |summary| => summary[i].team)
  }

  predicate TeamsDistinct(summary: seq<TeamSummary>)
  {
    forall i, j :: 0 <= i < j < |summary| ==> summary[i].team != summary[j].team
  }

  predicate SortedByWinningPercentage(summary: seq<TeamSummary>)
  {
    forall i, j :: 0 <= i < j < |summary| ==> summary[i].winningPercentage >= summary[j].winningPercentage
  }

  /** Inserts `x` before the first row whose winning percentage is not above `x`'s. */
  function InsertByWinningPercentage(x: TeamSummary, s: seq<TeamSummary>): (r: seq<TeamSummary>)
    ensures multiset(r) == multiset(s) + multiset{x}
  {
    if s == [] || x.winningPercentage >= s[0].winningPercentage then [x] + s
    else
      assert s == [s[0]] + s[1..];
      [s[0]] + InsertByWinningPercentage(x, s[1..])
  }

  lemma {:induction false} InsertKeepsSorted(x: TeamSummary, s: seq<TeamSummary>)
    requires SortedByWinningPercentage(s)
    ensures SortedByWinningPercentage(InsertByWinningPercentage(x, s))
  {
    if s != [] && x.winningPercentage < s[0].winningPercentage {
      var rest := InsertByWinningPercentage(x, s[1..]);
      InsertKeepsSorted(x, s[1..]);
      assert s == [s[0]] + s[1..];
      // the head of `rest` is `x` or `s[1]`, both at most `s[0]`; the rest of `rest` is lower still
      assert rest[0].winningPercentage <= s[0].winningPercentage;
      forall j | 0 <= j < |rest| ensures rest[j].winningPercentage <= s[0].winningPercentage {
        assert rest[j].winningPercentage <= rest[0].winningPercentage;
      }
    }
  }

  /**
   * `sort_values(by='Winning Percentage', ascending=False)`: the rows in non-increasing
   * winning percentage. The order among equal percentages is not specified.
   */
  function SortByWinningPercentage(s: seq<TeamSummary>): (r: seq<TeamSummary>)
    ensures SortedByWinningPercentage(r)
    ensures multiset(r) == multiset(s)
  {
    if s == [] then []
    else
      assert s == [s[0]] + s[1..];
      var sorted := SortByWinningPercentage(s[1..]);
      InsertKeepsSorted(s[0], sorted);
      InsertByWinningPercentage(s[0], sorted)
  }

  lemma {:induction false} InsertKeepsTeamsDistinct(x: TeamSummary, s: seq<TeamSummary>)
    requires SortedByWinningPercentage(s) && TeamsDistinct(s)
    requires forall e :: e in s ==> e.team != x.team
    ensures TeamsDistinct(InsertByWinningPercentage(x, s))
  {
    if s != [] && x.winningPercentage < s[0].winningPercentage {
      var rest := InsertByWinningPercentage(x, s[1..]);
      InsertKeepsTeamsDistinct(x, s[1..]);
      forall e | e in rest ensures e.team != s[0].team {
        assert e in multiset(rest);
        if e != x {
          assert e in s[1..];
          var k :| 0 <= k < |s[1..]| && s[1..][k] == e;
          assert s[k + 1] == e;
        }
      }
    }
  }

  /** Sorting neither adds, drops nor duplicates a team. */
  lemma {:induction false} SortKeepsTeamsDistinct(s: seq<TeamSummary>)
    requires TeamsDistinct(s)
    ensures TeamsDistinct(SortByWinningPercentage(s))
  {
    if s != [] {
      var sorted := SortByWinningPercentage(s[1..]);
      SortKeepsTeamsDistinct(s[1..]);
      forall e | e in sorted ensures e.team != s[0].team {
        assert e in multiset(sorted);
        var k :| 0 <= k < |s[1..]| && s[1..][k] == e;
        assert s[k + 1] == e;
      }
      InsertKeepsTeamsDistinct(s[0], sorted);
    }
  }

  /**
   * `refresh_data` without its side effects: flatten weeks 1 up to but excluding
   * `currentWeek`, drop unplayed rows, summarise each team and sort the summary.
   */
  method RefreshData(board: Scoreboard, currentWeek: nat) returns (df: seq<Row>, summary: seq<TeamSummary>)
    requires currentWeek <= |board|
    ensures df == KeepPlayed(RowsBefore(board, currentWeek))
    ensures summary == SortByWinningPercentage(Summaries(df, board, currentWeek))
  {
    var rows := Flatten(board, currentWeek);
    df := KeepPlayed(rows);
    var unsorted := Summarize(df, board, currentWeek);
    summary := SortByWinningPercentage(unsorted);
  }

  /**
   * The refreshed Data table holds only played rows with strict win flags, of weeks 1 up to but
   * excluding `currentWeek`, in week order.
   */
  lemma RefreshedDataTable(board: Scoreboard, currentWeek: nat)
    requires currentWeek <= |board|
    ensures var df := KeepPlayed(RowsBefore(board, currentWeek));
            (forall r :: r in df ==> r.teamScore > 0.0 && WinIsStrict(r) && 1 <= r.week < currentWeek) &&
            WeeksNondecreasing(df)
  {
    FlattenedTableShape(board, currentWeek);
    KeepPlayedMembers(RowsBefore(board, currentWeek));
    KeepPlayedKeepsWeekOrder(RowsBefore(board, currentWeek));
  }

  /** Before sorting, the summary rows follow `TeamsOf(df)`, which names no team twice. */
  lemma SummariesFollowTeams(df: seq<Row>, board: Scoreboard, currentWeek: nat)
    requires currentWeek <= |board|
    ensures var unsorted := Summaries(df, board, currentWeek);
            TeamsDistinct(unsorted) &&
            (forall t :: t in SummaryTeams(unsorted) <==> t in TeamNames(df)) &&
            (forall e :: e in unsorted ==> e == TeamSummaryOf(df, board, currentWeek, e.team))
  {
    var unsorted := Summaries(df, board, currentWeek);
    var teams := TeamsOf(df);
    DistinctMembers(TeamNames(df));
    forall k | 0 <= k < |teams| ensures unsorted[k] == TeamSummaryOf(df, board, currentWeek, teams[k]) {
      SummariesForAt(df, board, currentWeek, teams, k);
    }
    assert SummaryTeams(unsorted) == teams;
  }

  /** The names of summary rows are the teams of those rows. */
  lemma SummaryTeamsMembers(s: seq<TeamSummary>)
    ensures forall t :: t in SummaryTeams(s) <==> exists e :: e in s && e.team == t
  {
    forall t | t in SummaryTeams(s) ensures exists e :: e in s && e.team == t {
      var i :| 0 <= i < |s| && SummaryTeams(s)[i] == t;
      assert s[i] in s;
    }
    forall t | exists e :: e in s && e.team == t ensures t in SummaryTeams(s) {
      var e :| e in s && e.team == t;
      var i :| 0 <= i < |s| && s[i] == e;
      assert SummaryTeams(s)[i] == t;
    }
  }

  /** Sorting keeps exactly the same rows. */
  lemma SortKeepsRows(s: seq<TeamSummary>)
    ensures forall e :: e in SortByWinningPercentage(s) <==> e in s
  {
    var sorted := SortByWinningPercentage(s);
    forall e ensures e in sorted <==> e in s {
      assert e in sorted <==> e in multiset(sorted);
      assert e in s <==> e in multiset(s);
    }
  }

  /**
   * The sorted Summary table has exactly one row per team of the Data table, no team twice,
   * and each row is that team's summary.
   */
  lemma SummaryTableCoversTeams(df: seq<Row>, board: Scoreboard, currentWeek: nat)
    requires currentWeek <= |board|
    ensures var summary := SortByWinningPercentage(Summaries(df, board, currentWeek));
            (forall t :: t in SummaryTeams(summary) <==> t in TeamNames(df)) &&
            TeamsDistinct(summary) &&
            (forall e :: e in summary ==> e == TeamSummaryOf(df, board, currentWeek, e.team))
  {
    var unsorted := Summaries(df, board, currentWeek);
    SummariesFollowTeams(df, board, currentWeek);
    SortKeepsTeamsDistinct(unsorted);
    SortKeepsRows(unsorted);
    SummaryTeamsMembers(unsorted);
    SummaryTeamsMembers(SortByWinningPercentage(unsorted));
  }
}
