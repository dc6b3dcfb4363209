/**
 * The columns and per-team totals the dashboard derives from the Data table for its charts:
 * the weekly and season top scorers, the Luck Factor and the Momentum.
 */
module Metrics {
  import opened Wrappers
  import opened Collections
  import opened Matchups
  import opened Summary

  /** The Week column of the table. */
  function WeekColumn(df: seq<Row>): (weeks: seq<int>)
    ensures |weeks| == |df| && forall i :: 0 <= i < |df| ==> weeks[i] == df[i].week
  {
    seq(|df|, i requires 0 <= i < |df| => df[i].week)
  }

  /** The weeks of the table, each once, in order of first appearance. */
  function Weeks(df: seq<Row>): seq<int>
  {
    Distinct(WeekColumn(df))
  }

  /**
   * `idxmax` of the Team Score among the rows of `week`: the first row of that week holding
   * the week's highest score, or None when the table has no row of that week.
   */
  function BestIndex(df: seq<Row>, week: int): (best: Option<nat>)
    ensures best.None? <==> forall j :: 0 <= j < |df| ==> df[j].week != week
    ensures best.Some? ==>
              best.value < |df| && df[best.value].week == week &&
              forall j :: 0 <= j < |df| && df[j].week == week ==>
                df[j].teamScore <= df[best.value].teamScore &&
                (j < best.value ==> df[j].teamScore < df[best.value].teamScore)
  {
    if df == [] then None
    else
      var n := |df| - 1;
      var earlier := BestIndex(df[..n], week);
      assert forall j :: 0 <= j < n ==> df[..n][j] == df[j];
      if df[n].week != week then earlier
      else if earlier.None? || df[n].teamScore > df[earlier.value].teamScore then Some(n)
      else earlier
  }

  /** `df.loc[df.groupby('Week')['Team Score'].idxmax()]`: the top-scoring row of each week. */
  function TopScorers(df: seq<Row>): (top: seq<Row>)
    ensures |top| == |Weeks(df)|
  {
    var weeks := Weeks(df);
    DistinctMembers(WeekColumn(df));
    assert forall i :: 0 <= i < |weeks| ==> BestIndex(df, weeks[i]).Some? by {
      forall i | 0 <= i < |weeks| ensures BestIndex(df, weeks[i]).Some? {
        assert weeks[i] in WeekColumn(df);
      }
    }
    seq(|weeks|, i requires 0 <= i < |weeks| => df[BestIndex(df, weeks[i]).value])
  }

  /** Week by week, the top scorer is a row of that week that no row of that week outscores. */
  lemma TopScorersAreWeekBests(df: seq<Row>)
    ensures forall i :: 0 <= i < |Weeks(df)| ==>
              TopScorers(df)[i] in df && TopScorers(df)[i].week == Weeks(df)[i] &&
              forall r :: r in df && r.week == Weeks(df)[i] ==> r.teamScore <= TopScorers(df)[i].teamScore
  {
    var weeks := Weeks(df);
    var top := TopScorers(df);
    DistinctMembers(WeekColumn(df));
    forall i | 0 <= i < |weeks|
      ensures top[i] in df && top[i].week == weeks[i]
      ensures forall r :: r in df && r.week == weeks[i] ==> r.teamScore <= top[i].teamScore
    {
      assert weeks[i] in WeekColumn(df);
      var b := BestIndex(df, weeks[i]);
      assert top[i] == df[b.value];
      forall r | r in df && r.week == weeks[i] ensures r.teamScore <= top[i].teamScore {
        var j :| 0 <= j < |df| && df[j] == r;
      }
    }
  }

  /** Every week of the table has exactly one entry, and no other week has one. */
  lemma TopScorersCoverWeeks(df: seq<Row>)
    ensures forall w :: w in Weeks(df) <==> exists r :: r in df && r.week == w
    ensures forall i, j :: 0 <= i < j < |Weeks(df)| ==> Weeks(df)[i] != Weeks(df)[j]
  {
    DistinctMembers(WeekColumn(df));
    forall w ensures w in Weeks(df) <==> exists r :: r in df && r.week == w {
      if w in WeekColumn(df) {
        var j :| 0 <= j < |df| && WeekColumn(df)[j] == w;
        assert df[j] in df;
      }
      if exists r :: r in df && r.week == w {
        var r :| r in df && r.week == w;
        var j :| 0 <= j < |df| && df[j] == r;
        assert WeekColumn(df)[j] == w;
      }
    }
  }

  /**
   * `groupby('Week')` lists its weeks in ascending order; on a table in week order, as the
   * refreshed Data table is, the first-appearance order used here is that same order.
   */
  lemma WeeksAscending(df: seq<Row>)
    requires WeeksNondecreasing(df)
    ensures forall i, j :: 0 <= i < j < |Weeks(df)| ==> Weeks(df)[i] < Weeks(df)[j]
  {
    DistinctOfSortedIsIncreasing(WeekColumn(df));
  }

  /** `df['Team Score'].idxmax()`: the first row holding the season's highest score. */
  function SeasonBestIndex(df: seq<Row>): (best: nat)
    requires df != []
    ensures best < |df|
    ensures forall j :: 0 <= j < |df| ==>
              df[j].teamScore <= df[best].teamScore && (j < best ==> df[j].teamScore < df[best].teamScore)
  {
    var n := |df| - 1;
    if n == 0 then 0
    else
      var earlier := SeasonBestIndex(df[..n]);
      assert forall j :: 0 <= j < n ==> df[..n][j] == df[j];
      if df[n].teamScore > df[earlier].teamScore then n else earlier
  }

  /** The season's best performance is also the top performance of its own week. */
  lemma SeasonBestTopsItsWeek(df: seq<Row>)
    requires df != []
    ensures BestIndex(df, df[SeasonBestIndex(df)].week) == Some(SeasonBestIndex(df))
  {
    var k := SeasonBestIndex(df);
    var b := BestIndex(df, df[k].week);
    assert b.Some?;
    assert df[b.value].teamScore == df[k].teamScore;
  }

  /** `df['Team Score'] - df['Opponent Score']`. */
  function LuckColumn(df: seq<Row>): (luck: seq<real>)
    ensures |luck| == |df|
  {
    seq(|df|, i requires 0 <= i < |df| => df[i].teamScore - df[i].opponentScore)
  }

  /** `groupby('Team')[column].sum()` for one team: the column summed over the team's rows. */
  function TeamTotal(column: seq<real>, df: seq<Row>, team: string): (total: real)
    requires |column| == |df|
    ensures (forall i :: 0 <= i < |df| ==> df[i].team == team) ==> total == Sum(column)
    ensures (forall i :: 0 <= i < |df| ==> df[i].team != team) ==> total == 0.0
  {
    if df == [] then 0.0
    else
      var n := |df| - 1;
      TeamTotal(column[..n], df[..n], team) + if df[n].team == team then column[n] else 0.0
  }

  /** The per-team totals of a column, added up over `teams`. */
  function TotalOverTeams(teams: seq<string>, column: seq<real>, df: seq<Row>): real
    requires |column| == |df|
  {
    if teams == [] then 0.0
    else TotalOverTeams(teams[..|teams| - 1], column, df) + TeamTotal(column, df, teams[|teams| - 1])
  }

  lemma {:induction false} TeamTotalOfAbsentTeam(column: seq<real>, df: seq<Row>, team: string)
    requires |column| == |df| && team !in TeamNames(df)
    ensures TeamTotal(column, df, team) == 0.0
  {
    if df != [] {
      var n := |df| - 1;
      assert TeamNames(df)[n] == df[n].team;
      assert TeamNames(df[..n]) == TeamNames(df)[..n];
      TeamTotalOfAbsentTeam(column[..n], df[..n], team);
    }
  }

  /** Adding up the per-team totals over distinct teams, the table's last row counts once if its team is listed. */
  lemma {:induction false} TotalOverTeamsStep(teams: seq<string>, column: seq<real>, df: seq<Row>)
    requires |column| == |df| && df != []
    requires forall i, j :: 0 <= i < j < |teams| ==> teams[i] != teams[j]
    ensures var n := |df| - 1;
            TotalOverTeams(teams, column, df)
            == TotalOverTeams(teams, column[..n], df[..n]) + if df[n].team in teams then column[n] else 0.0
  {
    if teams != [] {
      var m := |teams| - 1;
      var n := |df| - 1;
      TotalOverTeamsStep(teams[..m], column, df);
      assert teams == teams[..m] + [teams[m]];
      assert df[n].team in teams <==> df[n].team in teams[..m] || df[n].team == teams[m];
      assert teams[m] !in teams[..m];
    }
  }

  /** The per-team totals of a column, over the teams of the table, add up to the column's sum. */
  lemma {:induction false} TeamTotalsAddUp(column: seq<real>, df: seq<Row>)
    requires |column| == |df|
    ensures TotalOverTeams(TeamsOf(df), column, df) == Sum(column)
  {
    if df != [] {
      var n := |df| - 1;
      TeamTotalsAddUp(column[..n], df[..n]);
      TeamsOfLastRow(df);
      var teams := TeamsOf(df);
      DistinctMembers(TeamNames(df));
      TotalOverTeamsStep(teams, column, df);
      if df[n].team !in TeamsOf(df[..n]) {
        NewTeamTotal(column, df);
      }
    }
  }

  /** The last row's team is listed; it is appended to the team list when it is new. */
  lemma TeamsOfLastRow(df: seq<Row>)
    requires df != []
    ensures var n := |df| - 1;
            df[n].team in TeamsOf(df) &&
            TeamsOf(df) == if df[n].team in TeamsOf(df[..n]) then TeamsOf(df[..n]) else TeamsOf(df[..n]) + [df[n].team]
  {
    var n := |df| - 1;
    var names := TeamNames(df);
    assert names[..n] == TeamNames(df[..n]);
    assert names[n] == df[n].team;
    DistinctMembers(names);
  }

  /** A team that first appears in the last row adds nothing to the totals of the rows before it. */
  lemma NewTeamTotal(column: seq<real>, df: seq<Row>)
    requires |column| == |df| && df != []
    requires df[|df| - 1].team !in TeamsOf(df[..|df| - 1])
    ensures var n := |df| - 1;
            TotalOverTeams(TeamsOf(df), column[..n], df[..n]) == TotalOverTeams(TeamsOf(df[..n]), column[..n], df[..n])
  {
    var n := |df| - 1;
    var earlier := TeamsOf(df[..n]);
    TeamsOfLastRow(df);
    assert TeamsOf(df)[..|TeamsOf(df)| - 1] == earlier;
    DistinctMembers(TeamNames(df[..n]));
    TeamTotalOfAbsentTeam(column[..n], df[..n], df[n].team);
  }

  /** In a table of mirrored pairs each pair's luck cancels, so the whole Luck Factor column sums to zero. */
  lemma {:induction false} LuckOfMirroredPairsCancels(rows: seq<Row>)
    requires MirroredPairs(rows)
    ensures Sum(LuckColumn(rows)) == 0.0
  {
    if rows != [] {
      var n := |rows| - 2;
      var p := rows[..n];
      assert MirroredPairs(p) by {
        forall k | 0 <= k < |p| / 2
          ensures Mirrors(p[2 * k], p[2 * k + 1])
          ensures !(p[2 * k].win && p[2 * k + 1].win)
          ensures p[2 * k].teamScore == p[2 * k].opponentScore ==> !p[2 * k].win && !p[2 * k + 1].win
        {
          assert p[2 * k] == rows[2 * k] && p[2 * k + 1] == rows[2 * k + 1];
        }
      }
      LuckOfMirroredPairsCancels(p);
      var k := n / 2;
      assert 2 * k == n;
      assert Mirrors(rows[n], rows[n + 1]);
      var tail := [rows[n].teamScore - rows[n].opponentScore, rows[n + 1].teamScore - rows[n + 1].opponentScore];
      assert LuckColumn(rows) == LuckColumn(p) + tail;
      SumAppend(LuckColumn(p), tail);
      assert Sum(tail) == Sum([tail[0]]) + tail[1];
    }
  }

  /**
   * When every game of the weeks before `currentWeek` has been played, no row is filtered out,
   * and the teams' Luck Factor totals add up to zero over the league.
   */
  lemma LeagueLuckIsZero(board: Scoreboard, currentWeek: nat)
    requires currentWeek <= |board|
    requires forall i :: 0 <= i < |RowsBefore(board, currentWeek)| ==> RowsBefore(board, currentWeek)[i].teamScore > 0.0
    ensures var df := KeepPlayed(RowsBefore(board, currentWeek));
            TotalOverTeams(TeamsOf(df), LuckColumn(df), df) == 0.0
  {
    var rows := RowsBefore(board, currentWeek);
    KeepPlayedAllPlayed(rows);
    FlattenedTableShape(board, currentWeek);
    LuckOfMirroredPairsCancels(rows);
    TeamTotalsAddUp(LuckColumn(rows), rows);
  }

  /** Score of `team`'s last row in `rows`, if it has one. */
  function LastScore(rows: seq<Row>, team: string): Option<real>
  {
    if rows == [] then None
    else if rows[|rows| - 1].team == team then Some(rows[|rows| - 1].teamScore)
    else LastScore(rows[..|rows| - 1], team)
  }

  /** `LastScore` is None exactly when the team has no row, and otherwise the score of its last row. */
  lemma {:induction false} LastScoreFacts(rows: seq<Row>, team: string)
    ensures LastScore(rows, team).None? <==> forall j :: 0 <= j < |rows| ==> rows[j].team != team
    ensures forall j :: 0 <= j < |rows| && rows[j].team == team && (forall k :: j < k < |rows| ==> rows[k].team != team) ==>
              LastScore(rows, team) == Some(rows[j].teamScore)
  {
    if rows != [] {
      var n := |rows| - 1;
      var p := rows[..n];
      LastScoreFacts(p, team);
      assert forall j :: 0 <= j < n ==> p[j] == rows[j];
    }
  }

  /** Score of `team`'s first row in `rows`, if it has one. */
  function FirstScore(rows: seq<Row>, team: string): Option<real>
  {
    if rows == [] then None
    else
      var earlier := FirstScore(rows[..|rows| - 1], team);
      if earlier.None? && rows[|rows| - 1].team == team then Some(rows[|rows| - 1].teamScore) else earlier
  }

  /** `groupby('Team')['Team Score'].diff().fillna(0)` at row `r`, given the rows before it. */
  function MomentumOf(earlier: seq<Row>, r: Row): (delta: real)
    ensures (forall j :: 0 <= j < |earlier| ==> earlier[j].team != r.team) ==> delta == 0.0
    ensures forall j :: 0 <= j < |earlier| && earlier[j].team == r.team && (forall k :: j < k < |earlier| ==> earlier[k].team != r.team) ==>
              delta == r.teamScore - earlier[j].teamScore
  {
    LastScoreFacts(earlier, r.team);
    match LastScore(earlier, r.team)
    case None => 0.0
    case Some(previous) => r.teamScore - previous
  }

  /** The Momentum column: each row's score minus its team's previous score, 0 at the team's first row. */
  function MomentumColumn(df: seq<Row>): (momentum: seq<real>)
    ensures |momentum| == |df|
  {
    seq(|df|, i requires 0 <= i < |df| => MomentumOf(df[..i], df[i]))
  }

  /**
   * A team's Momentum total telescopes: it is its last score minus its first score, and 0 for
   * a team without rows.
   */
  lemma {:induction false} TeamMomentumTelescopes(df: seq<Row>, team: string)
    ensures FirstScore(df, team).Some? <==> LastScore(df, team).Some?
    ensures LastScore(df, team).None? ==> TeamTotal(MomentumColumn(df), df, team) == 0.0
    ensures LastScore(df, team).Some? ==>
              TeamTotal(MomentumColumn(df), df, team) == LastScore(df, team).value - FirstScore(df, team).value
  {
    if df != [] {
      var n := |df| - 1;
      var p := df[..n];
      var m := MomentumColumn(df);
      assert m[..n] == MomentumColumn(p) by {
        forall i | 0 <= i < n ensures m[i] == MomentumColumn(p)[i] {
          assert p[..i] == df[..i];
        }
      }
      TeamMomentumTelescopes(p, team);
      assert TeamTotal(m, df, team) == TeamTotal(MomentumColumn(p), p, team) + if df[n].team == team then m[n] else 0.0;
      if df[n].team == team {
        assert m[n] == MomentumOf(p, df[n]);
      } else {
        assert LastScore(df, team) == LastScore(p, team) && FirstScore(df, team) == FirstScore(p, team);
      }
    }
  }
}
