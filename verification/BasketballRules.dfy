/** What each basketball action means, said of the board by side. */
module BasketballRules {
  import opened Basics
  import opened LiveStates
  import opened Basketball

  function MovedTo(v: int, delta: int, typed: Option<int>): int {
    var w := if typed == None then v + delta else typed.value;
    if w < 0 then 0 else w
  }

  /** Points, fouls and timeouts move for the side that is named, and nothing else does; only a + of the
      winner of a game that is over is refused. */
  lemma CountersMove(b: Board, side: Side, delta: int, typed: Option<int>)
    ensures var t := Step(b, Point(Some(side), delta, typed));
            var n := t.board;
            if b.m.over && typed == None && delta > 0 && b.m.points.At(side) > b.m.points.At(side.Other())
            then t == Outcome(b, SetClosed)
            else
              && t.event == NoEvent
              && n.m.points.At(side) == MovedTo(b.m.points.At(side), delta, typed)
              && n.m.points.At(side.Other()) == b.m.points.At(side.Other())
              && n == b.(m := b.m.(points := n.m.points))
    ensures var n := StepBoard(b, Foul(Some(side), delta, typed));
            && n.m.fouls.At(side) == MovedTo(b.m.fouls.At(side), delta, typed)
            && n.m.fouls.At(side.Other()) == b.m.fouls.At(side.Other())
            && n == b.(m := b.m.(fouls := n.m.fouls))
    ensures var n := StepBoard(b, Timeout(Some(side), delta, typed));
            && n.m.timeouts.At(side) == MovedTo(b.m.timeouts.At(side), delta, typed)
            && n.m.timeouts.At(side.Other()) == b.m.timeouts.At(side.Other())
            && n == b.(m := b.m.(timeouts := n.m.timeouts))
  {
  }

  lemma ArrowAndNamesMove(b: Board, side: Side, name: string, short: string, color: string)
    ensures StepBoard(b, Serve(Some(side))) == b.(m := b.m.(serving := Some(side)))
    ensures var n := StepBoard(b, TeamEdit(Some(side), Some(name), Some(short), Some(color)));
            && n.m.teams.At(side) == Team(name, short, color)
            && n.m.teams.At(side.Other()) == b.m.teams.At(side.Other())
            && n == b.(m := b.m.(teams := n.m.teams))
    ensures StepBoard(b, TeamEdit(Some(side), None, None, None)) == b
  {
  }

  /** A typed period takes a game that was over up again. */
  lemma TypedPeriodResumes(b: Board, delta: int, typed: int)
    requires typed >= 1
    ensures StepBoard(b, Period(delta, Some(typed))) == b.(m := b.m.(period := typed, over := false))
    ensures b.m.period + delta >= 1 ==>
              StepBoard(b, Period(delta, None)) == b.(m := b.m.(period := b.m.period + delta, over := false))
  {
  }

  /** One foul after another for `side`. */
  function Fouls(b: Board, side: Side, n: nat): Board {
    if n == 0 then b else Step(Fouls(b, side, n - 1), Foul(Some(side), 1, None)).board
  }

  function Bonuses(b: Board, side: Side, n: nat): nat {
    if n == 0 then 0
    else
      Bonuses(b, side, n - 1)
      + if Step(Fouls(b, side, n - 1), Foul(Some(side), 1, None)).event == Bonus then 1 else 0
  }

  /** The bonus is raised once a quarter and team: with the fifth foul. */
  lemma {:induction false} BonusComesWithTheFifth(b: Board, side: Side, n: nat)
    requires b.m.fouls.At(side) == 0
    ensures Fouls(b, side, n).m.fouls.At(side) == n
    ensures Bonuses(b, side, n) == if n >= 5 then 1 else 0
  {
    if n > 0 {
      BonusComesWithTheFifth(b, side, n - 1);
    }
  }

  /** Ending a period puts the score on show on the line score; removing one takes the last off. */
  lemma PeriodIsRecorded(b: Board)
    ensures !b.m.over ==> Step(b, EndPeriod).board.results == b.results + [SetResult(b.m.points, None)]
    ensures b.m.over ==> Step(b, EndPeriod) == Outcome(b, NoEvent)
    ensures var n := Step(b, RemovePeriod).board;
            && !n.m.over && n.m == b.m.(period := n.m.period, over := false)
            && (b.results != [] ==> n.results == b.results[..|b.results| - 1])
            && (b.results != [] && !b.m.over && b.m.period >= 2 ==> n.m.period == b.m.period - 1)
            && (b.m.over || b.results == [] ==> n.m.period == b.m.period)
  {
  }

  /** n presses of "End period". */
  function Ended(b: Board, n: nat): Board {
    if n == 0 then b else Step(Ended(b, n - 1), EndPeriod).board
  }

  /** A game lasts four quarters, and as many overtimes as it takes: with the score level no press ends it, and
      with a leader the one that ends the fourth period does - or any later one - and it stays over. */
  lemma {:induction false} GameLastsFourQuarters(b: Board, n: nat)
    requires !b.m.over && b.m.period >= 1
    ensures var e := Ended(b, n);
            && e.m.points == b.m.points
            && (b.m.points.left == b.m.points.right ==> !e.m.over && e.m.period == b.m.period + n)
            && (b.m.points.left != b.m.points.right ==>
                  && (e.m.over <==> n >= 1 && b.m.period + n > 4)
                  && (!e.m.over ==> e.m.period == b.m.period + n))
  {
    if n > 0 {
      GameLastsFourQuarters(b, n - 1);
    }
  }
}
