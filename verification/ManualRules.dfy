/** What each indoor action means, said of the board by side: what it moves, and what it leaves alone. */
module ManualRules {
  import opened Basics
  import opened LiveStates
  import opened UndoJournals
  import opened Manual
  import ManualMatches

  // ---- The format -----------------------------------------------------------------------------------

  /** The set on the board is the deciding one when every other set of the match has been played and they
      are shared; it is played to 15, all others to 25. */
  lemma DecidingSetIsTheLast(bestOf: int, sets: Sided<int>)
    requires bestOf in {3, 5} && sets.left >= 0 && sets.right >= 0
    ensures var rules := RulesFor(bestOf, sets);
            && (rules.deciding <==> sets.left == sets.right && sets.left + sets.right == bestOf - 1)
            && rules.target == (if sets.left == sets.right && sets.left + sets.right == bestOf - 1 then 15 else 25)
  {
  }

  /** A set won ends the match exactly when its winner now has more than half of its sets. */
  lemma MatchIsWonByMajority(b: Board, side: Side, delta: int, bestOf: int, now: int)
    requires bestOf in {3, 5}
    ensures var t := PointStep(b, side, delta, None, bestOf, now);
            t.event in {SetEnd, MatchEnd} ==> (t.event == MatchEnd <==> 2 * t.board.m.sets.At(side) > bestOf)
  {
  }

  // ---- One action -------------------------------------------------------------------------------------

  /** Whatever a tap or a typed score does, the other side's points, the teams and the counters stay. */
  predicate OnlyPlay(x: Model, y: Model) {
    && x.teams == y.teams && x.timeouts == y.timeouts && x.subs == y.subs && x.endsSwapped == y.endsSwapped
  }

  /** A +, unless it is refused: its side's points rise by it, that side serves next, and the set's opener
      is who served the first rally, if nobody had said. */
  lemma PlusMovesThePoint(b: Board, side: Side, delta: int, bestOf: int, now: int)
    requires delta > 0 && b.m.points.left >= 0 && b.m.points.right >= 0
    ensures var t := PointStep(b, side, delta, None, bestOf, now);
            var m, n := b.m, t.board.m;
            t.event != SetClosed ==>
              && n.points.At(side) == m.points.At(side) + delta
              && n.points.At(side.Other()) == m.points.At(side.Other())
              && n.serving == Some(side)
              && (m.firstServer.Some? ==> n.firstServer == m.firstServer)
              && (m.firstServer == None && m.points == Sided(0, 0) && delta == 1 ==> n.firstServer == m.serving)
              && n.sets.At(side.Other()) == m.sets.At(side.Other())
              && OnlyPlay(m, n)
  {
  }

  /** A + is refused exactly while the set is closed, the board holds the score it closed at, and it is the
      winner's. */
  lemma RefusedExactly(b: Board, side: Side, delta: int, bestOf: int, now: int)
    requires delta > 0
    ensures PointStep(b, side, delta, None, bestOf, now).event == SetClosed <==>
            && b.setClosed && b.results != [] && b.results[|b.results| - 1].score == b.m.points
            && b.m.points.At(side) > b.m.points.At(side.Other())
  {
    hide BoardRules, Won, ElapsedSecs;
  }

  /** A - moves its side's points, not below 0, and leaves the serve where it is. */
  lemma MinusMovesThePoint(b: Board, side: Side, delta: int, bestOf: int, now: int)
    requires delta < 0
    ensures var t := PointStep(b, side, delta, None, bestOf, now);
            var m, n := b.m, t.board.m;
            && t.event == NoEvent
            && n.points.At(side) == (if m.points.At(side) + delta < 0 then 0 else m.points.At(side) + delta)
            && n.points.At(side.Other()) == m.points.At(side.Other())
            && n.serving == m.serving && n.firstServer == m.firstServer && n.setStart == m.setStart
            && n.sets.At(side.Other()) == m.sets.At(side.Other())
            && OnlyPlay(m, n)
  {
  }

  /** A typed score moves nothing but the number, and reopens the set exactly when that no longer is the
      score last recorded - it never closes one. */
  lemma TypedScoreReopens(b: Board, side: Side, delta: int, v: int, bestOf: int, now: int)
    requires v >= 0
    ensures var t := PointStep(b, side, delta, Some(v), bestOf, now);
            var m, n := b.m, t.board.m;
            && t.event == NoEvent && t.board.results == b.results
            && n.points.At(side) == v && n.points.At(side.Other()) == m.points.At(side.Other())
            && n == m.(points := n.points)
            && (t.board.setClosed <==>
                  && b.setClosed && b.results != [] && n.points != Sided(0, 0)
                  && (n.points.left > 0 || n.points.right > 0)
                  && b.results[|b.results| - 1].score == n.points)
  {
  }

  /** So a set typed away from its closing score can be won again. */
  lemma {:induction false} TypedAwayIsPlayedAgain(b: Board, side: Side, v: int, bestOf: int, times: seq<int>)
    requires v >= 0 && b.results != [] && With(b.m.points, side, v) != b.results[|b.results| - 1].score
    requires var c := PointStep(b, side, 0, Some(v), bestOf, 0).board;
             && ManualMatches.InPlay(c, side, bestOf) && |times| == ManualMatches.TapsToWin(c, side, bestOf)
    ensures var c := PointStep(b, side, 0, Some(v), bestOf, 0).board;
            var won := ManualMatches.Taps(c, side, bestOf, times);
            |won.results| == |b.results| + 1 && won.results[|b.results|].score == won.m.points && won.setClosed
  {
    TypedScoreReopens(b, side, 0, v, bestOf, 0);
    ManualMatches.AwardedOnTheExactTap(PointStep(b, side, 0, Some(v), bestOf, 0).board, side, bestOf, times);
  }

  function Moved(v: int, delta: int, typed: Option<int>): int {
    var w := if typed == None then v + delta else typed.value;
    if w < 0 then 0 else w
  }

  /** Timeouts, substitutions, the set tally, the serve and the names move for the side that is named, and
      nothing else does. */
  lemma CountersMove(b: Board, side: Side, delta: int, typed: Option<int>, bestOf: int, now: int)
    ensures var n := StepBoard(b, Input(Timeout(Some(side), delta, typed), bestOf, now));
            && n.m.timeouts.At(side) == Moved(b.m.timeouts.At(side), delta, typed)
            && n.m.timeouts.At(side.Other()) == b.m.timeouts.At(side.Other())
            && n == b.(m := b.m.(timeouts := n.m.timeouts))
    ensures var n := StepBoard(b, Input(Sub(Some(side), delta, typed), bestOf, now));
            && n.m.subs.At(side) == Moved(b.m.subs.At(side), delta, typed)
            && n.m.subs.At(side.Other()) == b.m.subs.At(side.Other())
            && n == b.(m := b.m.(subs := n.m.subs))
    ensures var n := StepBoard(b, Input(Sets(Some(side), delta, typed), bestOf, now));
            && n.m.sets.At(side) == Moved(b.m.sets.At(side), delta, typed)
            && n.m.sets.At(side.Other()) == b.m.sets.At(side.Other())
            && n == b.(m := b.m.(sets := n.m.sets))
  {
  }

  lemma ServeAndNamesMove(b: Board, side: Side, name: string, short: string, color: string, bestOf: int, now: int)
    ensures var n := StepBoard(b, Input(Serve(Some(side)), bestOf, now));
            && n.m.serving == Some(side)
            && n.m.firstServer == (if b.m.points == Sided(0, 0) then Some(side) else b.m.firstServer)
            && n == b.(m := b.m.(serving := n.m.serving, firstServer := n.m.firstServer))
    ensures var n := StepBoard(b, Input(TeamEdit(Some(side), Some(name), Some(short), Some(color)), bestOf, now));
            && n.m.teams.At(side) == Team(name, short, color)
            && n.m.teams.At(side.Other()) == b.m.teams.At(side.Other())
            && n == b.(m := b.m.(teams := n.m.teams))
    ensures StepBoard(b, Input(TeamEdit(Some(side), None, None, None), bestOf, now)) == b
  {
  }

  /** Between sets every counter starts at 0-0, the set is open and untimed, and each team keeps its name,
      its sets and its recorded scores; ends change exactly when it is not into the deciding set. */
  lemma NextSetClears(b: Board, bestOf: int)
    ensures var n := NextSetStep(b, bestOf);
            var deciding := b.m.sets.left + b.m.sets.right == (if bestOf == 3 then 2 else 4);
            var c := if deciding then b else SwapEnds(b);
            && n.m.points == n.m.timeouts == n.m.subs == Sided(0, 0)
            && !n.setClosed && n.m.setStart == None
            && n.m.teams == c.m.teams && n.m.sets == c.m.sets && n.results == c.results
            && n.m.endsSwapped == c.m.endsSwapped
  {
  }

  /** Removing the last set takes its result and its winner's set point, and opens the set. */
  lemma RemoveLastOpens(b: Board)
    ensures var n := RemoveSetStep(b);
            && !n.setClosed
            && (b.results == [] ==> n.results == [] && n.m == b.m)
            && (b.results != [] ==>
                  && n.results == b.results[..|b.results| - 1]
                  && n.m == b.m.(sets := n.m.sets)
                  && var s := b.results[|b.results| - 1].score;
                     && n.m.sets.left == (if s.left > s.right then Clamp0(b.m.sets.left - 1) else b.m.sets.left)
                     && n.m.sets.right == (if s.right > s.left then Clamp0(b.m.sets.right - 1) else b.m.sets.right))
  {
  }

  // ---- The serve over runs ------------------------------------------------------------------------------

  /** A board, and the team that won the last rally, until a serve, a next set or a load says otherwise. */
  datatype Rallied = Rallied(board: Board, winner: Option<TeamId>)

  function TeamServing(m: Model): Option<TeamId> {
    match m.serving
    case None => None
    case Some(side) => Some(if m.endsSwapped == (side == Right) then TeamA else TeamB)
  }

  function AfterRally(r: Rallied, x: Input): Rallied {
    var t := Step(r.board, x);
    if t.board == r.board then r
    else
      match x.action
      case Point(side, delta, None) =>
        if delta > 0 then
          Rallied(t.board, Some(if r.board.m.endsSwapped == (side == Some(Right)) then TeamA else TeamB))
        else Rallied(t.board, r.winner)
      case Serve(_) => Rallied(t.board, None)
      case NextSet => Rallied(t.board, None)
      case Reset(_) => Rallied(t.board, None)
      case SetState(_) => Rallied(t.board, None)
      case _ => Rallied(t.board, r.winner)
  }

  predicate WinnerServes(r: Rallied) {
    r.winner.Some? ==> TeamServing(r.board.m) == r.winner
  }

  lemma PointServes(b: Board, side: Side, delta: int, typed: Option<int>, bestOf: int, now: int)
    ensures var t := PointStep(b, side, delta, typed, bestOf, now);
            && t.board.m.endsSwapped == b.m.endsSwapped
            && t.board.m.serving
               == (if typed == None && delta > 0 && t.event != SetClosed then Some(side) else b.m.serving)
            && (t.event == SetClosed ==> t.board == b)
  {
    hide BoardRules, Won, HoldsLastResult, ElapsedSecs, Refuses, ClosedWinner;
  }

  lemma OthersServe(b: Board, x: Input)
    requires !x.action.Point?
    ensures var n := Step(b, x).board;
            && (x.action.Swap? ==> n.m.serving == Across(b.m.serving) && n.m.endsSwapped == !b.m.endsSwapped)
            && (x.action in {RemoveSet, Unknown} || x.action.TeamEdit? || x.action.Timeout? || x.action.Sub?
                || x.action.Sets? ==>
                  n.m.serving == b.m.serving && n.m.endsSwapped == b.m.endsSwapped)
  {
    hide FlipResults;
  }

  lemma RallyKeepsTheServe(r: Rallied, x: Input)
    requires WinnerServes(r)
    ensures WinnerServes(AfterRally(r, x))
  {
    match x.action
    case Point(side, delta, typed) =>
      PointServes(r.board, side.GetOr(Left), delta, typed, x.bestOf, x.now);
      hide PointStep;
    case _ =>
      OthersServe(r.board, x);
      hide Step;
  }

  /** Whoever wins a rally serves next: over every run with its undos, the arrow names the team that won
      the last rally, through corrections and changes of ends, until a serve, a next set or a load. */
  lemma {:induction false} WinnerServesNext(b: Board, cmds: seq<Cmd<Input>>)
    ensures var f := Run(AfterRally, UNDO_MAX, Engine(Rallied(b, None), []), cmds);
            WinnerServes(f.board) && f.board.board == Run(StepBoard, UNDO_MAX, Engine(b, []), cmds).board
  {
    var start := Engine(Rallied(b, None), []);
    var any := (x: Input) => true;
    var view := (r: Rallied) => r.board;
    forall r, x {:trigger AfterRally(r, x)}
      ensures WinnerServes(r) ==> WinnerServes(AfterRally(r, x))
      ensures AfterRally(r, x).board == StepBoard(r.board, x)
    {
      if WinnerServes(r) {
        RallyKeepsTheServe(r, x);
      }
    }
    RunKeepsInvariant(AfterRally, UNDO_MAX, WinnerServes, any, start, cmds);
    assert Seen(view, start) == Engine(b, []);
    RunFollows(AfterRally, StepBoard, view, UNDO_MAX, start, cmds);
    var end := Run(AfterRally, UNDO_MAX, start, cmds);
    assert Seen(view, end).board == end.board.board;
  }

  // ---- Rallies of one set -----------------------------------------------------------------------------

  /** One point for a side at a clock reading. */
  datatype Point1 = Point1(side: Side, now: int)

  function Rallies(b: Board, ps: seq<Point1>, bestOf: int): Board
    decreases |ps|
  {
    if ps == [] then b else Rallies(PointStep(b, ps[0].side, 1, None, bestOf, ps[0].now).board, ps[1..], bestOf)
  }

  /** How often the rallies raised `e`. */
  function Raised(b: Board, ps: seq<Point1>, bestOf: int, e: Event): nat
    decreases |ps|
  {
    if ps == [] then 0
    else
      var t := PointStep(b, ps[0].side, 1, None, bestOf, ps[0].now);
      (if t.event == e then 1 else 0) + Raised(t.board, ps[1..], bestOf, e)
  }

  /** An open set that nobody has won, the deciding one or not. */
  predicate Going(b: Board, bestOf: int, deciding: bool) {
    && !b.setClosed && b.m.points.left >= 0 && b.m.points.right >= 0
    && RulesFor(bestOf, b.m.sets).deciding == deciding
    && !Won(if deciding then 15 else 25, b.m.points.left, b.m.points.right)
    && !Won(if deciding then 15 else 25, b.m.points.right, b.m.points.left)
  }

  function Highest(m: Model): int {
    Max(m.points.left, m.points.right)
  }

  lemma OneRally(b: Board, p: Point1, bestOf: int, deciding: bool)
    requires Going(b, bestOf, deciding)
    ensures var t := PointStep(b, p.side, 1, None, bestOf, p.now);
            && t.board.m.points == With(b.m.points, p.side, b.m.points.At(p.side) + 1)
            && t.board.m.setStart == (if b.m.points == Sided(0, 0) then Some(p.now) else b.m.setStart)
            && (t.board.setClosed ==>
                  && t.event in {SetEnd, MatchEnd} && t.board.results != []
                  && t.board.results[|t.board.results| - 1].dur == ElapsedSecs(t.board.m.setStart, p.now))
            && (!t.board.setClosed ==>
                  && Going(t.board, bestOf, deciding) && t.board.m.sets == b.m.sets && t.board.results == b.results
                  && (t.event == SwitchDue <==> deciding && Highest(b.m) < 8 <= Highest(t.board.m))
                  && t.event in {SwitchDue, NoEvent})
  {
    hide ElapsedSecs;
  }

  lemma {:induction false} ClosedStaysClosed(b: Board, ps: seq<Point1>, bestOf: int)
    requires b.setClosed
    ensures Rallies(b, ps, bestOf).setClosed
    decreases |ps|
  {
    if ps != [] {
      ClosedStaysClosed(PointStep(b, ps[0].side, 1, None, bestOf, ps[0].now).board, ps[1..], bestOf);
    }
  }

  lemma {:induction false} SwitchesFrom(b: Board, ps: seq<Point1>, bestOf: int, deciding: bool)
    requires Going(b, bestOf, deciding) && !Rallies(b, ps, bestOf).setClosed
    ensures var c := Rallies(b, ps, bestOf);
            && Highest(c.m) >= Highest(b.m)
            && Raised(b, ps, bestOf, SwitchDue) == (if deciding && Highest(b.m) < 8 <= Highest(c.m) then 1 else 0)
    decreases |ps|
  {
    if ps != [] {
      var c := PointStep(b, ps[0].side, 1, None, bestOf, ps[0].now).board;
      OneRally(b, ps[0], bestOf, deciding);
      hide PointStep;
      if c.setClosed {
        ClosedStaysClosed(c, ps[1..], bestOf);
      }
      SwitchesFrom(c, ps[1..], bestOf, deciding);
    }
  }

  /** The change of ends of the deciding set is due once, when a side first reaches 8, and in no other set. */
  lemma {:induction false} SwitchIsDueOnce(b: Board, ps: seq<Point1>, bestOf: int, deciding: bool)
    requires Going(b, bestOf, deciding) && b.m.points == Sided(0, 0) && !Rallies(b, ps, bestOf).setClosed
    ensures Raised(b, ps, bestOf, SwitchDue) ==
            if deciding && Highest(Rallies(b, ps, bestOf).m) >= 8 then 1 else 0
  {
    SwitchesFrom(b, ps, bestOf, deciding);
  }

  lemma {:induction false} ClockFrom(b: Board, ps: seq<Point1>, bestOf: int, deciding: bool)
    requires Going(b, bestOf, deciding) && b.m.points != Sided(0, 0)
    ensures var c := Rallies(b, ps, bestOf);
            !c.setClosed ==> c.m.setStart == b.m.setStart && Going(c, bestOf, deciding) && c.m.points != Sided(0, 0)
    decreases |ps|
  {
    if ps != [] {
      var c := PointStep(b, ps[0].side, 1, None, bestOf, ps[0].now).board;
      OneRally(b, ps[0], bestOf, deciding);
      hide PointStep;
      if c.setClosed {
        ClosedStaysClosed(c, ps[1..], bestOf);
      } else {
        ClockFrom(c, ps[1..], bestOf, deciding);
      }
    }
  }

  /** A set is timed from its first rally to the one that wins it, in whole seconds, rounded. */
  lemma {:induction false} SetIsTimed(b: Board, ps: seq<Point1>, last: Point1, bestOf: int, deciding: bool)
    requires Going(b, bestOf, deciding) && b.m.points == Sided(0, 0)
    requires ps != [] && ps[0].now <= last.now
    requires !Rallies(b, ps, bestOf).setClosed
    requires Rallies(Rallies(b, ps, bestOf), [last], bestOf).setClosed
    ensures var won := Rallies(Rallies(b, ps, bestOf), [last], bestOf);
            && won.results != []
            && var dur := won.results[|won.results| - 1].dur;
               dur.Some? && 2 * (last.now - ps[0].now) - 1000 < 2000 * dur.value <= 2 * (last.now - ps[0].now) + 1000
  {
    var first := PointStep(b, ps[0].side, 1, None, bestOf, ps[0].now).board;
    var before := Rallies(b, ps, bestOf);
    OneRally(b, ps[0], bestOf, deciding);
    if first.setClosed {
      ClosedStaysClosed(first, ps[1..], bestOf);
    }
    ClockFrom(first, ps[1..], bestOf, deciding);
    OneRally(before, last, bestOf, deciding);
    var won := PointStep(before, last.side, 1, None, bestOf, last.now).board;
    hide PointStep;
    assert [last][1..] == [];
    assert Rallies(before, [last], bestOf) == Rallies(won, [], bestOf) == won;
    assert won.m.setStart == Some(ps[0].now);
  }
}
