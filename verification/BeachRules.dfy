/** What each beach action means, said of the board by side, and the life of one beach set. */
module BeachRules {
  import opened Basics
  import opened LiveStates
  import opened Beach
  import opened SetTally

  // ---- The format -----------------------------------------------------------------------------------

  /** The deciding set is the last one, the others shared; it is played to 15, all others to 21. */
  lemma DecidingSetIsTheLast(bestOf: int, sets: Sided<int>)
    requires bestOf in {3, 5} && sets.left >= 0 && sets.right >= 0
    ensures var rules := RulesFor(bestOf, sets);
            && (rules.deciding <==> sets.left == sets.right && sets.left + sets.right == bestOf - 1)
            && rules.target == (if sets.left == sets.right && sets.left + sets.right == bestOf - 1 then 15 else 21)
  {
  }

  /** A set won ends the match exactly when its winner now has more than half of its sets. */
  lemma MatchIsWonByMajority(b: Board, side: Side, delta: int, bestOf: int, now: int)
    requires bestOf in {3, 5}
    ensures var t := PointStep(b, side, delta, None, bestOf, now);
            t.event in {SetEnd, MatchEnd} ==> (t.event == MatchEnd <==> 2 * t.board.m.sets.At(side) > bestOf)
  {
  }

  // ---- One action -------------------------------------------------------------------------------------

  lemma RallyMoves(m: Model, side: Side, q: int, now: int)
    ensures var n := RallyWon(m, side, q, now);
            && n.points == With(m.points, side, q) && n.serving == Some(side) && n.sets == m.sets
            && (m.points.left >= 0 && m.points.right >= 0 ==>
                  n.setStart == if m.points == Sided(0, 0) then Some(now) else m.setStart)
            && n.servers.At(side.Other()) == m.servers.At(side.Other())
            && n.served.At(side.Other()) == m.served.At(side.Other())
            && n.teams == m.teams && n.timeouts == m.timeouts && n.endsSwapped == m.endsSwapped
  {
  }

  /** A +, unless it is refused: its side's points rise by it and that side serves next; at 0-0 it starts
      the set's clock. */
  lemma PlusMovesThePoint(b: Board, side: Side, delta: int, bestOf: int, now: int)
    requires delta > 0 && b.m.points.left >= 0 && b.m.points.right >= 0
    ensures var t := PointStep(b, side, delta, None, bestOf, now);
            var m, n := b.m, t.board.m;
            t.event != SetClosed ==>
              && n.points.At(side) == m.points.At(side) + delta
              && n.points.At(side.Other()) == m.points.At(side.Other())
              && n.serving == Some(side)
              && n.setStart == (if m.points == Sided(0, 0) then Some(now) else m.setStart)
              && n.sets.At(side.Other()) == m.sets.At(side.Other())
              && n.servers.At(side.Other()) == m.servers.At(side.Other())
              && n.served.At(side.Other()) == m.served.At(side.Other())
              && n.teams == m.teams && n.timeouts == m.timeouts && n.endsSwapped == m.endsSwapped
  {
    hide ElapsedSecs, CourtEvent, BoardRules, Won, RallyWon, Refuses;
    RallyMoves(b.m, side, b.m.points.At(side) + delta, now);
  }

  /** The courts know what a + can raise. */
  lemma CourtEventRaises(total: int, before: int, deciding: bool)
    ensures CourtEvent(total, before, deciding) in {NoEvent, TechTimeout, SwitchDue}
  {
  }

  /** A set won is recorded at the score on show, with its playing time, and counts for its winner. */
  lemma WonSetIsRecorded(b: Board, side: Side, delta: int, bestOf: int, now: int)
    requires PointStep(b, side, delta, None, bestOf, now).event in {SetEnd, MatchEnd}
    ensures var n := PointStep(b, side, delta, None, bestOf, now).board;
            && n.results == b.results + [SetResult(n.m.points, ElapsedSecs(n.m.setStart, now))]
            && n.setClosed && n.m.sets.At(side) == Clamp0(b.m.sets.At(side) + 1)
  {
    var q := Clamp0(b.m.points.At(side) + delta);
    var o := b.m.points.At(side.Other());
    CourtEventRaises(q + o, q + o - delta, RulesFor(bestOf, b.m.sets).deciding);
    hide ElapsedSecs, CourtEvent, BoardRules, Won;
  }

  /** A + is refused exactly while the set is closed, the board holds the score it closed at, and it is the
      winner's. */
  lemma RefusedExactly(b: Board, side: Side, delta: int, bestOf: int, now: int)
    requires delta > 0
    ensures PointStep(b, side, delta, None, bestOf, now).event == SetClosed <==>
            && b.setClosed && b.results != [] && b.results[|b.results| - 1].score == b.m.points
            && b.m.points.At(side) > b.m.points.At(side.Other())
  {
    hide BoardRules, Won, ElapsedSecs;
  }

  /** A - moves its side's points, not below 0, and leaves the serve and the servers where they are. */
  lemma MinusMovesThePoint(b: Board, side: Side, delta: int, bestOf: int, now: int)
    requires delta < 0
    ensures var t := PointStep(b, side, delta, None, bestOf, now);
            var m, n := b.m, t.board.m;
            && t.event == NoEvent
            && n.points.At(side) == (if m.points.At(side) + delta < 0 then 0 else m.points.At(side) + delta)
            && n.points.At(side.Other()) == m.points.At(side.Other())
            && n == m.(points := n.points, sets := n.sets) && n.sets.At(side.Other()) == m.sets.At(side.Other())
  {
  }

  /** A typed score moves nothing but the number, and reopens the set exactly when that no longer is the
      score last recorded - it never closes one. */
  lemma TypedScoreReopens(b: Board, side: Side, delta: int, v: int, bestOf: int, now: int)
    requires v >= 0
    ensures var t := PointStep(b, side, delta, Some(v), bestOf, now);
            var m, n := b.m, t.board.m;
            && t.event == NoEvent && t.board.results == b.results
            && n.points.At(side) == v && n.points.At(side.Other()) == m.points.At(side.Other())
            && n == m.(points := n.points)
            && (t.board.setClosed <==>
                  && b.setClosed && b.results != [] && (n.points.left > 0 || n.points.right > 0)
                  && b.results[|b.results| - 1].score == n.points)
  {
  }

  function MovedTo(v: int, delta: int, typed: Option<int>): int {
    var w := if typed == None then v + delta else typed.value;
    if w < 0 then 0 else w
  }

  /** Timeouts, the set tally, the serve and the names move for the side that is named, and nothing else
      does; a substitution moves nothing. */
  lemma CountersMove(b: Board, side: Side, delta: int, typed: Option<int>, bestOf: int, now: int)
    ensures var n := StepBoard(b, Input(Timeout(Some(side), delta, typed), bestOf, now));
            && n.m.timeouts.At(side) == MovedTo(b.m.timeouts.At(side), delta, typed)
            && n.m.timeouts.At(side.Other()) == b.m.timeouts.At(side.Other())
            && n == b.(m := b.m.(timeouts := n.m.timeouts))
    ensures var n := StepBoard(b, Input(Sets(Some(side), delta, typed), bestOf, now));
            && n.m.sets.At(side) == MovedTo(b.m.sets.At(side), delta, typed)
            && n.m.sets.At(side.Other()) == b.m.sets.At(side.Other())
            && n == b.(m := b.m.(sets := n.m.sets))
    ensures StepBoard(b, Input(Sub(Some(side), delta, typed), bestOf, now)) == b
  {
  }

  lemma ServeAndNamesMove(b: Board, side: Side, name: string, short: string, color: string, bestOf: int, now: int)
    ensures StepBoard(b, Input(Serve(Some(side)), bestOf, now)) == b.(m := b.m.(serving := Some(side)))
    ensures var n := StepBoard(b, Input(TeamEdit(Some(side), Some(name), Some(short), Some(color)), bestOf, now));
            && n.m.teams.At(side) == Team(name, short, color)
            && n.m.teams.At(side.Other()) == b.m.teams.At(side.Other())
            && n == b.(m := b.m.(teams := n.m.teams))
    ensures StepBoard(b, Input(TeamEdit(Some(side), None, None, None), bestOf, now)) == b
  {
  }

  /** The declared order: who serves first, each pair's first server, and only the first pair's turn begun. */
  lemma OrderIsDeclared(b: Board, first: Side, left: int, right: int, bestOf: int, now: int)
    requires left in {1, 2} && right in {1, 2}
    ensures var n := StepBoard(b, Input(ServeOrder(Some(first), Some(left), Some(right)), bestOf, now));
            && n.m.serving == Some(first) && n.m.servers == Sided(left, right)
            && n.m.served.At(first) && !n.m.served.At(first.Other())
            && n == b.(m := b.m.(serving := n.m.serving, servers := n.m.servers, served := n.m.served))
  {
  }

  /** A pair's server corrected: the player typed, or its other one - of the pair named, or the one serving. */
  lemma ServerIsCorrected(b: Board, side: Side, player: int, bestOf: int, now: int)
    requires player in {1, 2} && b.m.servers.At(side) in {1, 2}
    ensures var n := StepBoard(b, Input(ServePlayer(Some(side), Some(player)), bestOf, now));
            && n.m.servers.At(side) == player && n.m.served.At(side)
            && n.m.servers.At(side.Other()) == b.m.servers.At(side.Other())
            && n.m.served.At(side.Other()) == b.m.served.At(side.Other())
            && n == b.(m := b.m.(servers := n.m.servers, served := n.m.served))
    ensures StepBoard(b, Input(ServePlayer(Some(side), None), bestOf, now)) ==
            StepBoard(b, Input(ServePlayer(Some(side), Some(3 - b.m.servers.At(side))), bestOf, now))
    ensures b.m.serving == Some(side) ==>
              StepBoard(b, Input(ServePlayer(None, Some(player)), bestOf, now)) ==
              StepBoard(b, Input(ServePlayer(Some(side), Some(player)), bestOf, now))
    ensures b.m.serving == None ==> StepBoard(b, Input(ServePlayer(None, Some(player)), bestOf, now)) == b
  {
  }

  /** Between sets the score and the timeouts start at 0-0, the set is open and untimed, only the serving
      pair has begun a turn, and each pair keeps its names, its sets, its server and its recorded scores;
      ends change exactly when it is not into the deciding set. */
  lemma NextSetClears(b: Board, bestOf: int)
    ensures var n := NextSetStep(b, bestOf);
            var deciding := b.m.sets.left + b.m.sets.right == (if bestOf == 3 then 2 else 4);
            var c := if deciding then b else SwapEnds(b);
            && n.m.points == n.m.timeouts == Sided(0, 0)
            && !n.setClosed && n.m.setStart == None
            && n.m.teams == c.m.teams && n.m.sets == c.m.sets && n.results == c.results
            && n.m.endsSwapped == c.m.endsSwapped && n.m.serving == c.m.serving && n.m.servers == c.m.servers
            && n.m.served == Sided(n.m.serving == Some(Left), n.m.serving == Some(Right))
  {
  }

  lemma RemoveLastOpens(b: Board)
    ensures var n := RemoveSetStep(b);
            && !n.setClosed
            && (b.results == [] ==> n.results == [] && n.m == b.m)
            && (b.results != [] ==>
                  && n.results == b.results[..|b.results| - 1]
                  && n.m == b.m.(sets := n.m.sets)
                  && var s := b.results[|b.results| - 1].score;
                     && n.m.sets.left == (if s.left > s.right then Clamp0(b.m.sets.left - 1) else b.m.sets.left)
                     && n.m.sets.right == (if s.right > s.left then Clamp0(b.m.sets.right - 1) else b.m.sets.right))
  {
  }

  // ---- The life of one set ------------------------------------------------------------------------------

  /** The taps `side` still needs when the other side stays where it is: up to the target, by two. */
  function TapsToWin(b: Board, side: Side, bestOf: int): int {
    Max(BoardRules(b, bestOf).target, b.m.points.At(side.Other()) + 2) - b.m.points.At(side)
  }

  function Taps(b: Board, side: Side, bestOf: int, times: seq<int>): Board
    decreases |times|
  {
    if times == [] then b
    else Taps(PointStep(b, side, 1, None, bestOf, times[0]).board, side, bestOf, times[1..])
  }

  /** An open board where `side` does not stand at a winning score. */
  predicate InPlay(b: Board, side: Side, bestOf: int) {
    && !b.setClosed
    && b.m.points.At(side) >= 0
    && !Won(BoardRules(b, bestOf).target, b.m.points.At(side), b.m.points.At(side.Other()))
  }

  lemma OneTap(b: Board, side: Side, bestOf: int, now: int)
    requires InPlay(b, side, bestOf)
    ensures var t := PointStep(b, side, 1, None, bestOf, now);
            && t.board.m.points == With(b.m.points, side, b.m.points.At(side) + 1)
            && (TapsToWin(b, side, bestOf) > 1 ==>
                  && InPlay(t.board, side, bestOf) && t.event !in {SetEnd, MatchEnd}
                  && t.board.results == b.results && t.board.m.sets == b.m.sets
                  && TapsToWin(t.board, side, bestOf) == TapsToWin(b, side, bestOf) - 1)
            && (TapsToWin(b, side, bestOf) == 1 ==>
                  && t.board.setClosed && t.event in {SetEnd, MatchEnd}
                  && t.board.m.sets == With(b.m.sets, side, Clamp0(b.m.sets.At(side) + 1))
                  && |t.board.results| == |b.results| + 1
                  && t.board.results[..|b.results|] == b.results
                  && t.board.results[|b.results|].score == t.board.m.points)
            && TapsToWin(b, side, bestOf) >= 1
  {
    hide ElapsedSecs, RallyWon;
    RallyMoves(b.m, side, b.m.points.At(side) + 1, now);
  }

  /** From any open board exactly max(target, other + 2) - p single taps award the set, and not one less. */
  lemma {:induction false} AwardedOnTheExactTap(b: Board, side: Side, bestOf: int, times: seq<int>)
    requires InPlay(b, side, bestOf) && |times| <= TapsToWin(b, side, bestOf)
    ensures var c := Taps(b, side, bestOf, times);
            && c.m.points == With(b.m.points, side, b.m.points.At(side) + |times|)
            && (|times| < TapsToWin(b, side, bestOf) ==>
                  !c.setClosed && c.results == b.results && c.m.sets == b.m.sets)
            && (|times| == TapsToWin(b, side, bestOf) ==>
                  && c.setClosed
                  && c.m.sets == With(b.m.sets, side, Clamp0(b.m.sets.At(side) + 1))
                  && |c.results| == |b.results| + 1 && c.results[..|b.results|] == b.results
                  && c.results[|b.results|].score == c.m.points)
    decreases |times|
  {
    hide PointStep, BoardRules, Won;
    if times == [] {
      OneTap(b, side, bestOf, 0);
    } else {
      OneTap(b, side, bestOf, times[0]);
      if |times| > 1 {
        AwardedOnTheExactTap(PointStep(b, side, 1, None, bestOf, times[0]).board, side, bestOf, times[1..]);
      }
    }
  }

  /** While the board holds the closing score, every + of the winner is refused and changes nothing. */
  lemma WinnerIsRefused(b: Board, side: Side, delta: int, bestOf: int, now: int)
    requires ClosedWinner(b.results, b.setClosed) == Some(side) && LastIs(b.results, b.m.points) && delta > 0
    ensures PointStep(b, side, delta, None, bestOf, now) == Outcome(b, SetClosed)
    ensures PointStep(b, side.Other(), delta, None, bestOf, now).event !in {SetClosed, SetEnd, MatchEnd}
  {
  }

  lemma JustAwarded(b: Board, side: Side, delta: int, bestOf: int, now: int)
    requires InPlay(b, side, bestOf) && delta > 0
    requires PointStep(b, side, delta, None, bestOf, now).event in {SetEnd, MatchEnd}
    ensures var q := b.m.points.At(side) + delta;
            var won := PointStep(b, side, delta, None, bestOf, now).board;
            && won == AwardSet(b.(m := RallyWon(b.m, side, q, now)), side, now)
            && ClosedWinner(won.results, won.setClosed) == Some(side)
  {
    hide ElapsedSecs;
  }

  lemma AwardRulesStand(b: Board, side: Side, q: int, bestOf: int, now: int)
    requires !b.setClosed && b.m.sets.left >= 0 && b.m.sets.right >= 0
    requires q >= b.m.points.At(side.Other()) + 2
    ensures BoardRules(AwardSet(b.(m := RallyWon(b.m, side, q, now)), side, now), bestOf) == BoardRules(b, bestOf)
  {
    hide ElapsedSecs;
  }

  /** The winner's - right after the tap that won the set - the deciding one included - restores the
      points, the tally, the recorded sets and the closed flag. */
  lemma MinusTakesTheSetBack(b: Board, side: Side, delta: int, bestOf: int, now: int, later: int)
    requires InPlay(b, side, bestOf) && b.m.sets.left >= 0 && b.m.sets.right >= 0 && delta > 0
    requires PointStep(b, side, delta, None, bestOf, now).event in {SetEnd, MatchEnd}
    ensures var won := PointStep(b, side, delta, None, bestOf, now).board;
            var back := PointStep(won, side, -delta, None, bestOf, later);
            && back.event == NoEvent
            && back.board.m.points == b.m.points && back.board.m.sets == b.m.sets
            && back.board.results == b.results && !back.board.setClosed
  {
    var p := b.m.points.At(side);
    JustAwarded(b, side, delta, bestOf, now);
    AwardRulesStand(b, side, p + delta, bestOf, now);
    WalkedBack(b, side, p + delta, delta, bestOf, now, later);
  }

  lemma WalkedBack(b: Board, side: Side, q: int, delta: int, bestOf: int, now: int, later: int)
    requires InPlay(b, side, bestOf) && delta > 0 && q == b.m.points.At(side) + delta
    requires b.m.sets.At(side) >= 0
    requires var won := AwardSet(b.(m := RallyWon(b.m, side, q, now)), side, now);
             ClosedWinner(won.results, won.setClosed) == Some(side) && BoardRules(won, bestOf) == BoardRules(b, bestOf)
    ensures var won := AwardSet(b.(m := RallyWon(b.m, side, q, now)), side, now);
            var back := PointStep(won, side, -delta, None, bestOf, later);
            && back.event == NoEvent
            && back.board.m.points == b.m.points && back.board.m.sets == b.m.sets
            && back.board.results == b.results && !back.board.setClosed
  {
    hide CourtEvent, ElapsedSecs, BoardRules;
    var won := AwardSet(b.(m := RallyWon(b.m, side, q, now)), side, now);
    assert won.results[..|won.results| - 1] == b.results;
    var p := b.m.points.At(side);
    var back := Correction(won, side, p, true, BoardRules(b, bestOf));
    assert back == TakeBackSet(won.(m := won.m.(points := With(won.m.points, side, p))), side);
  }
}
