/**
 * The first half of `refresh_data`: the league's weekly scoreboards are flattened into
 * one row per team per matchup, and rows of games not yet played are dropped.
 */
module Matchups {
  import opened Collections

  /** One head-to-head pairing of a week, as the league provider reports it. */
  datatype Matchup = Matchup(homeTeam: string, homeScore: real, awayTeam: string, awayScore: real)

  /**
   * The provider's scoreboards: `board[w - 1]` holds the matchups of week `w`.
   * It stands for the network call `league.scoreboard(week=w)`.
   */
  type Scoreboard = seq<seq<Matchup>>

  /**
   * One row of the "Data" table (columns Week, Team, Team Score, Opponent Score,
   * Opponent, Win). The source stores Win as 1 or 0; here it is a bool.
   */
  datatype Row = Row(week: int, team: string, teamScore: real, opponentScore: real, opponent: string, win: bool)

  /** The row of a matchup seen from the home side. */
  function HomeRow(week: int, m: Matchup): Row
  {
    Row(week, m.homeTeam, m.homeScore, m.awayScore, m.awayTeam, m.homeScore > m.awayScore)
  }

  /** The row of a matchup seen from the away side. */
  function AwayRow(week: int, m: Matchup): Row
  {
    Row(week, m.awayTeam, m.awayScore, m.homeScore, m.homeTeam, m.awayScore > m.homeScore)
  }

  /** `b` is `a` seen from the other side of the same game. */
  predicate Mirrors(a: Row, b: Row)
  {
    a.week == b.week && a.team == b.opponent && a.opponent == b.team &&
    a.teamScore == b.opponentScore && a.opponentScore == b.teamScore
  }

  /** The win flag is a strict comparison: a tie is a win for nobody. */
  predicate WinIsStrict(r: Row)
  {
    r.win <==> r.teamScore > r.opponentScore
  }

  /** The rows one week's matchups contribute, two per matchup, in matchup order. */
  function WeekRows(week: int, ms: seq<Matchup>): seq<Row>
  {
    if ms == [] then []
    else WeekRows(week, ms[..|ms| - 1]) + [HomeRow(week, ms[|ms| - 1]), AwayRow(week, ms[|ms| - 1])]
  }

  /** The rows of weeks 1 up to but excluding `w`, in week order. */
  function RowsBefore(board: Scoreboard, w: nat): seq<Row>
    requires w <= |board| + 1
  {
    if w <= 1 then [] else RowsBefore(board, w - 1) + WeekRows(w - 1, board[w - 2])
  }

  /** Number of matchups in weeks 1 up to but excluding `w`. */
  function MatchupsBefore(board: Scoreboard, w: nat): nat
    requires w <= |board| + 1
  {
    if w <= 1 then 0 else MatchupsBefore(board, w - 1) + |board[w - 2]|
  }

  /**
   * The nested loops of `refresh_data` that build the table, one week at a time and
   * one matchup at a time, appending the home row and then the away row.
   */
  method Flatten(board: Scoreboard, currentWeek: nat) returns (rows: seq<Row>)
    requires currentWeek <= |board| + 1
    ensures rows == RowsBefore(board, currentWeek)
  {
    rows := [];
    var week := 1;
    while week < currentWeek
      invariant 1 <= week <= if currentWeek < 1 then 1 else currentWeek
      invariant rows == RowsBefore(board, week)
    {
      var matchups := board[week - 1];
      var i := 0;
      while i < |matchups|
        invariant 0 <= i <= |matchups|
        invariant rows == RowsBefore(board, week) + WeekRows(week, matchups[..i])
      {
        var m := matchups[i];
        rows := rows + [Row(week, m.homeTeam, m.homeScore, m.awayScore, m.awayTeam, m.homeScore > m.awayScore)];
        rows := rows + [Row(week, m.awayTeam, m.awayScore, m.homeScore, m.homeTeam, m.awayScore > m.homeScore)];
        WeekRowsStep(week, matchups, i);
        i := i + 1;
      }
      assert matchups[..i] == matchups;
      week := week + 1;
    }
  }

  lemma WeekRowsStep(week: int, ms: seq<Matchup>, i: nat)
    requires i < |ms|
    ensures WeekRows(week, ms[..i + 1]) == WeekRows(week, ms[..i]) + [HomeRow(week, ms[i]), AwayRow(week, ms[i])]
  {
    assert ms[..i + 1][..i] == ms[..i];
  }

  /** Matchup `j` of a week sits at rows `2 * j` (home) and `2 * j + 1` (away). */
  lemma {:induction false} WeekRowsAt(week: int, ms: seq<Matchup>, j: nat)
    requires j < |ms|
    ensures |WeekRows(week, ms)| == 2 * |ms|
    ensures WeekRows(week, ms)[2 * j] == HomeRow(week, ms[j])
    ensures WeekRows(week, ms)[2 * j + 1] == AwayRow(week, ms[j])
  {
    var n := |ms| - 1;
    if j < n {
      WeekRowsAt(week, ms[..n], j);
    } else if n > 0 {
      WeekRowsAt(week, ms[..n], 0);
    }
  }

  lemma {:induction false} WeekRowsLength(week: int, ms: seq<Matchup>)
    ensures |WeekRows(week, ms)| == 2 * |ms|
  {
    if ms != [] {
      WeekRowsAt(week, ms, 0);
    }
  }

  /** The table has exactly two rows per matchup of the weeks it covers. */
  lemma {:induction false} RowsBeforeLength(board: Scoreboard, w: nat)
    requires w <= |board| + 1
    ensures |RowsBefore(board, w)| == 2 * MatchupsBefore(board, w)
  {
    if w > 1 {
      RowsBeforeLength(board, w - 1);
      WeekRowsLength(w - 1, board[w - 2]);
    }
  }

  lemma {:induction false} RowsBeforePrefix(board: Scoreboard, v: nat, w: nat)
    requires v <= w <= |board| + 1
    ensures RowsBefore(board, v) <= RowsBefore(board, w)
  {
    if v < w {
      RowsBeforePrefix(board, v, w - 1);
    }
  }

  /**
   * Each matchup `j` of week `v` (1 <= v < w) yields two consecutive rows of the table, at an
   * offset fixed by the matchups of the earlier weeks: its home row, then its away row.
   */
  lemma {:induction false} RowsOfMatchup(board: Scoreboard, w: nat, v: nat, j: nat)
    requires 1 <= v < w <= |board| + 1 && j < |board[v - 1]|
    ensures 2 * (MatchupsBefore(board, v) + j) + 1 < |RowsBefore(board, w)|
    ensures RowsBefore(board, w)[2 * (MatchupsBefore(board, v) + j)] == HomeRow(v, board[v - 1][j])
    ensures RowsBefore(board, w)[2 * (MatchupsBefore(board, v) + j) + 1] == AwayRow(v, board[v - 1][j])
  {
    if w == v + 1 {
      RowsBeforeLength(board, v);
      WeekRowsAt(v, board[v - 1], j);
      assert RowsBefore(board, w) == RowsBefore(board, v) + WeekRows(v, board[v - 1]);
    } else {
      RowsOfMatchup(board, w - 1, v, j);
      var prev := RowsBefore(board, w - 1);
      assert RowsBefore(board, w) == prev + WeekRows(w - 1, board[w - 2]);
    }
  }

  /** The shape every table built by `Flatten` has. */
  predicate MirroredPairs(rows: seq<Row>)
  {
    |rows| % 2 == 0 &&
    forall k {:trigger rows[2 * k]} :: 0 <= k < |rows| / 2 ==>
      Mirrors(rows[2 * k], rows[2 * k + 1]) &&
      !(rows[2 * k].win && rows[2 * k + 1].win) &&
      (rows[2 * k].teamScore == rows[2 * k].opponentScore ==> !rows[2 * k].win && !rows[2 * k + 1].win)
  }

  lemma MirroredPairsAppend(a: seq<Row>, b: seq<Row>)
    requires MirroredPairs(a) && MirroredPairs(b)
    ensures MirroredPairs(a + b)
  {
    var rows := a + b;
    forall k | 0 <= k < |rows| / 2
      ensures Mirrors(rows[2 * k], rows[2 * k + 1])
      ensures !(rows[2 * k].win && rows[2 * k + 1].win)
      ensures rows[2 * k].teamScore == rows[2 * k].opponentScore ==> !rows[2 * k].win && !rows[2 * k + 1].win
    {
      if 2 * k < |a| {
        assert rows[2 * k] == a[2 * k] && rows[2 * k + 1] == a[2 * k + 1];
      } else {
        var j := k - |a| / 2;
        assert rows[2 * k] == b[2 * j] && rows[2 * k + 1] == b[2 * j + 1];
      }
    }
  }

  /** One week's rows: mirrored pairs with strict win flags, all of that week. */
  lemma {:induction false} WeekRowsShape(week: int, ms: seq<Matchup>)
    ensures MirroredPairs(WeekRows(week, ms))
    ensures forall r :: r in WeekRows(week, ms) ==> WinIsStrict(r) && r.week == week
  {
    if ms != [] {
      var m := ms[|ms| - 1];
      WeekRowsShape(week, ms[..|ms| - 1]);
      var pair := [HomeRow(week, m), AwayRow(week, m)];
      assert MirroredPairs(pair) by {
        assert |pair| / 2 == 1;
      }
      MirroredPairsAppend(WeekRows(week, ms[..|ms| - 1]), pair);
    }
  }

  /**
   * Before filtering, the table is a sequence of mirrored pairs in which at most one row of a
   * pair is a win and a tie is a win for neither; every win flag is the strict comparison of
   * the two scores; and every row belongs to a week in 1 up to but excluding `w`, in week order.
   */
  lemma {:induction false} FlattenedTableShape(board: Scoreboard, w: nat)
    requires w <= |board| + 1
    ensures MirroredPairs(RowsBefore(board, w))
    ensures forall r :: r in RowsBefore(board, w) ==> WinIsStrict(r) && 1 <= r.week < w
    ensures WeeksNondecreasing(RowsBefore(board, w))
  {
    if w > 1 {
      var prev := RowsBefore(board, w - 1);
      var week := WeekRows(w - 1, board[w - 2]);
      FlattenedTableShape(board, w - 1);
      WeekRowsShape(w - 1, board[w - 2]);
      MirroredPairsAppend(prev, week);
      WeekOrderAppend(prev, week, w - 1);
    }
  }

  lemma WeekOrderAppend(a: seq<Row>, b: seq<Row>, week: int)
    requires WeeksNondecreasing(a)
    requires forall r :: r in a ==> r.week < week
    requires forall r :: r in b ==> r.week == week
    ensures WeeksNondecreasing(a + b)
  {
    var rows := a + b;
    forall i, j | 0 <= i < j < |rows| ensures rows[i].week <= rows[j].week {
      if j < |a| {
        assert rows[i] == a[i] && rows[j] == a[j];
      } else if i < |a| {
        assert rows[i] == a[i] && rows[j] == b[j - |a|];
        assert a[i] in a && b[j - |a|] in b;
      } else {
        assert rows[i] == b[i - |a|] && rows[j] == b[j - |a|];
        assert b[i - |a|] in b && b[j - |a|] in b;
      }
    }
  }

  /** Rows appear in non-decreasing week order. */
  predicate WeeksNondecreasing(rows: seq<Row>)
  {
    forall i, j :: 0 <= i < j < |rows| ==> rows[i].week <= rows[j].week
  }

  /** The filter `df[df['Team Score'] > 0]`: rows of games not yet played are dropped. */
  function KeepPlayed(rows: seq<Row>): (kept: seq<Row>)
    ensures |kept| <= |rows|
  {
    if rows == [] then []
    else
      var last := rows[|rows| - 1];
      KeepPlayed(rows[..|rows| - 1]) + if last.teamScore > 0.0 then [last] else []
  }

  /** The filter keeps exactly the rows with a positive team score. */
  lemma {:induction false} KeepPlayedMembers(rows: seq<Row>)
    ensures forall r :: r in KeepPlayed(rows) <==> r in rows && r.teamScore > 0.0
  {
    if rows != [] {
      var n := |rows| - 1;
      KeepPlayedMembers(rows[..n]);
      assert rows == rows[..n] + [rows[n]];
    }
  }

  /** The filter works row by row: it keeps the relative order and changes no row. */
  lemma {:induction false} KeepPlayedAppend(a: seq<Row>, b: seq<Row>)
    ensures KeepPlayed(a + b) == KeepPlayed(a) + KeepPlayed(b)
  {
    if b == [] {
      assert a + b == a;
    } else {
      assert (a + b)[..|a + b| - 1] == a + b[..|b| - 1];
      KeepPlayedAppend(a, b[..|b| - 1]);
    }
  }

  /** A table whose scores are all positive passes the filter unchanged. */
  lemma {:induction false} KeepPlayedAllPlayed(rows: seq<Row>)
    requires forall i :: 0 <= i < |rows| ==> rows[i].teamScore > 0.0
    ensures KeepPlayed(rows) == rows
  {
    if rows != [] {
      var n := |rows| - 1;
      var prefix := rows[..n];
      assert forall i :: 0 <= i < n ==> prefix[i] == rows[i];
      KeepPlayedAllPlayed(prefix);
      calc {
        KeepPlayed(rows);
        KeepPlayed(prefix) + [rows[n]];
        prefix + [rows[n]];
        { SplitLast(rows); }
        rows;
      }
    }
  }

  /** The filter keeps the week order of the table. */
  lemma {:induction false} KeepPlayedKeepsWeekOrder(rows: seq<Row>)
    requires WeeksNondecreasing(rows)
    ensures WeeksNondecreasing(KeepPlayed(rows))
  {
    if rows != [] {
      var n := |rows| - 1;
      var prefix := KeepPlayed(rows[..n]);
      KeepPlayedKeepsWeekOrder(rows[..n]);
      KeepPlayedMembers(rows[..n]);
      forall i | 0 <= i < |prefix| ensures prefix[i].week <= rows[n].week {
        assert prefix[i] in rows[..n];
        var k :| 0 <= k < n && rows[..n][k] == prefix[i];
        assert rows[k] == prefix[i];
      }
    }
  }
}
