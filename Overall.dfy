/**
 * The "overall" record of `refresh_data`: a team's mean score set against the score of every
 * other side of every matchup league-wide, read from the raw scoreboards of weeks 1 to the
 * current week inclusive (not from the filtered table).
 */
module Overall {
  import opened Wrappers
  import opened Matchups

  /** Counters of the "overall" record. */
  datatype Tally = Tally(wins: nat, losses: nat)
  {
    function Plus(other: Tally): Tally
    {
      Tally(wins + other.wins, losses + other.losses)
    }
  }

  /** `score < mean`; false against NaN, as every comparison with NaN is. */
  predicate Below(score: real, mean: Option<real>)
  {
    mean.Some? && score < mean.value
  }

  /** `score > mean`; false against NaN. */
  predicate Above(score: real, mean: Option<real>)
  {
    mean.Some? && score > mean.value
  }

  /** `1 if score < mean else 0`: what a side scoring below the team's mean adds to its overall wins. */
  function WinPoint(score: real, mean: Option<real>): nat
  {
    if Below(score, mean) then 1 else 0
  }

  /** `1 if score > mean else 0`: what a side scoring above the team's mean adds to its overall losses. */
  function LossPoint(score: real, mean: Option<real>): nat
  {
    if Above(score, mean) then 1 else 0
  }

  /** What one side of a matchup adds to `team`'s overall record: nothing when it is `team` itself. */
  function SideTally(name: string, score: real, team: string, mean: Option<real>): Tally
  {
    if name != team then Tally(WinPoint(score, mean), LossPoint(score, mean)) else Tally(0, 0)
  }

  function MatchupTally(m: Matchup, team: string, mean: Option<real>): Tally
  {
    SideTally(m.homeTeam, m.homeScore, team, mean).Plus(SideTally(m.awayTeam, m.awayScore, team, mean))
  }

  function WeekTally(ms: seq<Matchup>, team: string, mean: Option<real>): Tally
  {
    if ms == [] then Tally(0, 0)
    else WeekTally(ms[..|ms| - 1], team, mean).Plus(MatchupTally(ms[|ms| - 1], team, mean))
  }

  lemma WeekTallyStep(ms: seq<Matchup>, i: nat, team: string, mean: Option<real>)
    requires i < |ms|
    ensures WeekTally(ms[..i + 1], team, mean) == WeekTally(ms[..i], team, mean).Plus(MatchupTally(ms[i], team, mean))
  {
    assert ms[..i + 1][..i] == ms[..i];
  }

  /** The overall record over weeks 1 to `w` inclusive, read from the raw scoreboards. */
  function TallyThrough(board: Scoreboard, w: nat, team: string, mean: Option<real>): Tally
    requires w <= |board|
  {
    if w == 0 then Tally(0, 0)
    else TallyThrough(board, w - 1, team, mean).Plus(WeekTally(board[w - 1], team, mean))
  }

  /** Number of sides in a week that are not `team`. */
  function OtherSidesInWeek(ms: seq<Matchup>, team: string): nat
  {
    if ms == [] then 0
    else
      var m := ms[|ms| - 1];
      OtherSidesInWeek(ms[..|ms| - 1], team) + (if m.homeTeam != team then 1 else 0) + (if m.awayTeam != team then 1 else 0)
  }

  /** Number of sides in weeks 1 to `w` inclusive that are not `team`. */
  function OtherSidesThrough(board: Scoreboard, w: nat, team: string): nat
    requires w <= |board|
  {
    if w == 0 then 0 else OtherSidesThrough(board, w - 1, team) + OtherSidesInWeek(board[w - 1], team)
  }

  lemma {:induction false} WeekTallyBounded(ms: seq<Matchup>, team: string, mean: Option<real>)
    ensures WeekTally(ms, team, mean).wins + WeekTally(ms, team, mean).losses <= OtherSidesInWeek(ms, team)
  {
    if ms != [] {
      var m := ms[|ms| - 1];
      WeekTallyBounded(ms[..|ms| - 1], team, mean);
      SideTallyBounded(m.homeTeam, m.homeScore, team, mean);
      SideTallyBounded(m.awayTeam, m.awayScore, team, mean);
    }
  }

  lemma SideTallyBounded(name: string, score: real, team: string, mean: Option<real>)
    ensures SideTally(name, score, team, mean).wins + SideTally(name, score, team, mean).losses
            <= if name != team then 1 else 0
  {
    assert WinPoint(score, mean) + LossPoint(score, mean) <= 1;
  }

  /**
   * Every other side adds to at most one of the two counters (a score equal to the mean adds to
   * neither), so the overall record never has more games than there are other sides.
   */
  lemma {:induction false} TallyBounded(board: Scoreboard, w: nat, team: string, mean: Option<real>)
    requires w <= |board|
    ensures TallyThrough(board, w, team, mean).wins + TallyThrough(board, w, team, mean).losses
            <= OtherSidesThrough(board, w, team)
  {
    if w > 0 {
      TallyBounded(board, w - 1, team, mean);
      WeekTallyBounded(board[w - 1], team, mean);
    }
  }

  lemma {:induction false} WeekTallyMonotone(ms: seq<Matchup>, team: string, m1: real, m2: real)
    requires m1 <= m2
    ensures WeekTally(ms, team, Some(m1)).wins <= WeekTally(ms, team, Some(m2)).wins
    ensures WeekTally(ms, team, Some(m1)).losses >= WeekTally(ms, team, Some(m2)).losses
  {
    if ms != [] {
      var m := ms[|ms| - 1];
      WeekTallyMonotone(ms[..|ms| - 1], team, m1, m2);
      MatchupTallyMonotone(m, team, m1, m2);
    }
  }

  lemma MatchupTallyMonotone(m: Matchup, team: string, m1: real, m2: real)
    requires m1 <= m2
    ensures MatchupTally(m, team, Some(m1)).wins <= MatchupTally(m, team, Some(m2)).wins
    ensures MatchupTally(m, team, Some(m1)).losses >= MatchupTally(m, team, Some(m2)).losses
  {
    SideTallyMonotone(m.homeTeam, m.homeScore, team, m1, m2);
    SideTallyMonotone(m.awayTeam, m.awayScore, team, m1, m2);
  }

  lemma SideTallyMonotone(name: string, score: real, team: string, m1: real, m2: real)
    requires m1 <= m2
    ensures SideTally(name, score, team, Some(m1)).wins <= SideTally(name, score, team, Some(m2)).wins
    ensures SideTally(name, score, team, Some(m1)).losses >= SideTally(name, score, team, Some(m2)).losses
  {
  }

  /** A higher mean never earns fewer overall wins nor more overall losses. */
  lemma {:induction false} TallyMonotone(board: Scoreboard, w: nat, team: string, m1: real, m2: real)
    requires w <= |board| && m1 <= m2
    ensures TallyThrough(board, w, team, Some(m1)).wins <= TallyThrough(board, w, team, Some(m2)).wins
    ensures TallyThrough(board, w, team, Some(m1)).losses >= TallyThrough(board, w, team, Some(m2)).losses
  {
    if w > 0 {
      TallyMonotone(board, w - 1, team, m1, m2);
      WeekTallyMonotone(board[w - 1], team, m1, m2);
      var before1, before2 := TallyThrough(board, w - 1, team, Some(m1)), TallyThrough(board, w - 1, team, Some(m2));
      var week1, week2 := WeekTally(board[w - 1], team, Some(m1)), WeekTally(board[w - 1], team, Some(m2));
      assert TallyThrough(board, w, team, Some(m1)) == before1.Plus(week1);
      assert TallyThrough(board, w, team, Some(m2)) == before2.Plus(week2);
    }
  }

  /** Adding the next matchup's tally to the counters extends the week's running tally by one matchup. */
  lemma WeekTallyLoopStep(ms: seq<Matchup>, i: nat, team: string, mean: Option<real>, done: Tally, after: Tally)
    requires i < |ms|
    requires after == done.Plus(WeekTally(ms[..i], team, mean)).Plus(MatchupTally(ms[i], team, mean))
    ensures after == done.Plus(WeekTally(ms[..i + 1], team, mean))
  {
    WeekTallyStep(ms, i, team, mean);
    PlusAssociates(done, WeekTally(ms[..i], team, mean), MatchupTally(ms[i], team, mean));
  }

  lemma PlusAssociates(a: Tally, b: Tally, c: Tally)
    ensures a.Plus(b).Plus(c) == a.Plus(b.Plus(c))
  {
  }

  /** Counters raised by the wins and losses of two sides hold the tally of both sides added on. */
  lemma AddSides(before: Tally, home: Tally, away: Tally, after: Tally)
    requires after.wins == before.wins + home.wins + away.wins
    requires after.losses == before.losses + home.losses + away.losses
    ensures after == before.Plus(home.Plus(away))
  {
  }

  /**
   * The inner loops of the per-team loop: every side of every matchup of weeks 1 to
   * `currentWeek` inclusive that is not `team` is compared with the team's mean.
   */
  method OverallRecord(board: Scoreboard, currentWeek: nat, team: string, mean: Option<real>)
    returns (overallWins: nat, overallLosses: nat)
    requires currentWeek <= |board|
    ensures Tally(overallWins, overallLosses) == TallyThrough(board, currentWeek, team, mean)
  {
    overallWins, overallLosses := 0, 0;
    var week := 1;
    while week < currentWeek + 1
      invariant 1 <= week <= currentWeek + 1
      invariant Tally(overallWins, overallLosses) == TallyThrough(board, week - 1, team, mean)
    {
      var matchups := board[week - 1];
      ghost var done := TallyThrough(board, week - 1, team, mean);
      var i := 0;
      while i < |matchups|
        invariant 0 <= i <= |matchups|
        invariant Tally(overallWins, overallLosses) == done.Plus(WeekTally(matchups[..i], team, mean))
      {
        var m := matchups[i];
        ghost var before := Tally(overallWins, overallLosses);
        ghost var home := SideTally(m.homeTeam, m.homeScore, team, mean);
        ghost var away := SideTally(m.awayTeam, m.awayScore, team, mean);
        if m.homeTeam != team {
          overallWins := overallWins + WinPoint(m.homeScore, mean);
          overallLosses := overallLosses + LossPoint(m.homeScore, mean);
        }
        if m.awayTeam != team {
          overallWins := overallWins + WinPoint(m.awayScore, mean);
          overallLosses := overallLosses + LossPoint(m.awayScore, mean);
        }
        AddSides(before, home, away, Tally(overallWins, overallLosses));
        assert home.Plus(away) == MatchupTally(m, team, mean);
        WeekTallyLoopStep(matchups, i, team, mean, done, Tally(overallWins, overallLosses));
        i := i + 1;
      }
      assert matchups[..i] == matchups;
      assert TallyThrough(board, week, team, mean) == done.Plus(WeekTally(matchups, team, mean));
      week := week + 1;
    }
  }
}
