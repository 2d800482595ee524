/** Whole indoor matches: the tally, the life of a set, and who serves first. */
module ManualMatches {
  import opened Basics
  import opened UndoJournals
  import opened SetTally
  import opened Manual

  // ---- The tally counts the recorded sets --------------------------------------------------

  predicate Sound(b: Board) {
    TallyStands(b.m.sets, b.results, b.setClosed)
  }

  /** Everything but typing the set tally or loading a board. */
  predicate PlaysOrCorrects(x: Input) {
    !x.action.Sets? && !x.action.SetState?
  }

  lemma TapKeepsTally(b: Board, side: Side, delta: int, bestOf: int, now: int)
    requires Sound(b)
    ensures Sound(Tap(b, side, delta, bestOf, now).board)
  {
    hide TallyStands;
    var q := Clamp0(b.m.points.At(side) + delta);
    var rules := BoardRules(b, bestOf);
    if delta > 0 {
      var rallied := b.(m := RallyWon(b.m, side, q, now));
      if !b.setClosed && Won(rules.target, q, b.m.points.At(side.Other())) {
        AwardKeepsTally(b.m.sets, b.results, SetResult(rallied.m.points, ElapsedSecs(rallied.m.setStart, now)), side);
      }
    } else if ClosedWinner(b.results, b.setClosed) == Some(side) {
      DropKeepsTally(b.m.sets, b.results, b.setClosed, side);
    }
  }

  lemma RemoveKeepsTally(b: Board)
    requires Sound(b)
    ensures Sound(RemoveSetStep(b))
  {
    if b.results != [] {
      assert RealSet(b.results[|b.results| - 1].score);
      DropKeepsTally(b.m.sets, b.results, b.setClosed, WinnerOf(b.results[|b.results| - 1].score).value);
    }
  }

  lemma StepKeepsTally(b: Board, x: Input)
    requires Sound(b) && PlaysOrCorrects(x)
    ensures Sound(StepBoard(b, x))
  {
    match x.action {
      case Point(side, delta, typed) =>
        if typed == None {
          TapKeepsTally(b, side.GetOr(Left), delta, x.bestOf, x.now);
        }
      case RemoveSet => RemoveKeepsTally(b);
      case Swap => SwapKeepsTally(b.m.sets, b.results, b.setClosed);
      case NextSet => SwapKeepsTally(b.m.sets, b.results, b.setClosed);
      case _ =>
    }
  }

  /** In every state reachable from a sound board - a fresh one, say - by any run of scoring,
      corrections, changes of ends, resets and undos, each side's sets won are the recorded sets it
      won, every recorded set is a real one, and a closed set has its result on record. */
  lemma {:induction false} TallyCountsRecordedSets(e: Engine<Board>, cmds: seq<Cmd<Input>>)
    requires HoldsThroughout(Sound, e)
    requires AllAllowed(PlaysOrCorrects, cmds)
    ensures HoldsThroughout(Sound, Run(StepBoard, UNDO_MAX, e, cmds))
    ensures var b := Run(StepBoard, UNDO_MAX, e, cmds).board;
            && (forall side :: b.m.sets.At(side) == Wins(b.results, side))
            && (forall i :: 0 <= i < |b.results| ==> RealSet(b.results[i].score))
            && (b.setClosed ==> b.results != [])
  {
    forall b, x {:trigger StepBoard(b, x)} | Sound(b) && PlaysOrCorrects(x)
      ensures Sound(StepBoard(b, x))
    {
      StepKeepsTally(b, x);
    }
    RunKeepsInvariant(StepBoard, UNDO_MAX, Sound, PlaysOrCorrects, e, cmds);
  }

  lemma FreshBoardIsSound(endsSwapped: bool)
    ensures Sound(Loaded(NEUTRAL, endsSwapped))
  {
  }

  // ---- The life of one set ------------------------------------------------------------------

  /** The taps `side` still needs when the other side stays where it is: up to the target, by two. */
  function TapsToWin(b: Board, side: Side, bestOf: int): int {
    Max(BoardRules(b, bestOf).target, b.m.points.At(side.Other()) + 2) - b.m.points.At(side)
  }

  /** One single tap after another for `side`, at the given clock readings. */
  function Taps(b: Board, side: Side, bestOf: int, times: seq<int>): Board
    decreases |times|
  {
    if times == [] then b
    else Taps(PointStep(b, side, 1, None, bestOf, times[0]).board, side, bestOf, times[1..])
  }

  /** An open board where `side` does not stand at a winning score. */
  predicate InPlay(b: Board, side: Side, bestOf: int) {
    && !b.setClosed
    && b.m.points.At(side) >= 0
    && !Won(BoardRules(b, bestOf).target, b.m.points.At(side), b.m.points.At(side.Other()))
  }

  lemma OneTap(b: Board, side: Side, bestOf: int, now: int)
    requires InPlay(b, side, bestOf)
    ensures var t := PointStep(b, side, 1, None, bestOf, now);
            && t.board.m.points == With(b.m.points, side, b.m.points.At(side) + 1)
            && (TapsToWin(b, side, bestOf) > 1 ==>
                  && InPlay(t.board, side, bestOf) && t.event !in {SetEnd, MatchEnd}
                  && t.board.results == b.results && t.board.m.sets == b.m.sets
                  && TapsToWin(t.board, side, bestOf) == TapsToWin(b, side, bestOf) - 1)
            && (TapsToWin(b, side, bestOf) == 1 ==>
                  && t.board.setClosed && t.event in {SetEnd, MatchEnd}
                  && t.board.m.sets == With(b.m.sets, side, Clamp0(b.m.sets.At(side) + 1))
                  && |t.board.results| == |b.results| + 1
                  && t.board.results[..|b.results|] == b.results
                  && t.board.results[|b.results|].score == t.board.m.points)
            && TapsToWin(b, side, bestOf) >= 1
  {
  }

  /** From any open board exactly max(target, other + 2) - p single taps award the set: before the
      last of them nothing is recorded, and the last one records the score on show. */
  lemma {:induction false} AwardedOnTheExactTap(b: Board, side: Side, bestOf: int, times: seq<int>)
    requires InPlay(b, side, bestOf) && |times| <= TapsToWin(b, side, bestOf)
    ensures var c := Taps(b, side, bestOf, times);
            && c.m.points == With(b.m.points, side, b.m.points.At(side) + |times|)
            && (|times| < TapsToWin(b, side, bestOf) ==>
                  !c.setClosed && c.results == b.results && c.m.sets == b.m.sets)
            && (|times| == TapsToWin(b, side, bestOf) ==>
                  && c.setClosed
                  && c.m.sets == With(b.m.sets, side, Clamp0(b.m.sets.At(side) + 1))
                  && |c.results| == |b.results| + 1 && c.results[..|b.results|] == b.results
                  && c.results[|b.results|].score == c.m.points)
    decreases |times|
  {
    if times == [] {
      OneTap(b, side, bestOf, 0);
    } else {
      OneTap(b, side, bestOf, times[0]);
      if |times| > 1 {
        AwardedOnTheExactTap(PointStep(b, side, 1, None, bestOf, times[0]).board, side, bestOf, times[1..]);
      }
    }
  }

  /** While the board holds the closing score, every + of the winner is refused and changes nothing. */
  lemma WinnerIsRefused(b: Board, side: Side, delta: int, bestOf: int, now: int)
    requires ClosedWinner(b.results, b.setClosed) == Some(side) && LastIs(b.results, b.m.points)
    requires delta > 0
    ensures PointStep(b, side, delta, None, bestOf, now) == Outcome(b, SetClosed)
    ensures PointStep(b, side.Other(), delta, None, bestOf, now).event !in {SetClosed, SetEnd, MatchEnd}
  {
  }

  /** The board right after `side` won the set with a tap. */
  lemma JustAwarded(b: Board, side: Side, delta: int, bestOf: int, now: int)
    requires InPlay(b, side, bestOf) && delta > 0
    requires PointStep(b, side, delta, None, bestOf, now).event in {SetEnd, MatchEnd}
    ensures var q := b.m.points.At(side) + delta;
            var won := PointStep(b, side, delta, None, bestOf, now).board;
            && won == AwardSet(b.(m := RallyWon(b.m, side, q, now)), side, now)
            && ClosedWinner(won.results, won.setClosed) == Some(side)
  {
  }

  /** Once awarded, the set is still judged by the rules it was played under. */
  lemma AwardRulesStand(b: Board, side: Side, q: int, bestOf: int, now: int)
    requires !b.setClosed && b.m.sets.left >= 0 && b.m.sets.right >= 0
    requires q >= b.m.points.At(side.Other()) + 2
    ensures BoardRules(AwardSet(b.(m := RallyWon(b.m, side, q, now)), side, now), bestOf) == BoardRules(b, bestOf)
  {
  }

  /** The winner's - right after the tap that won the set - the deciding one included - restores the
      points, the tally, the recorded sets and the closed flag. */
  lemma MinusTakesTheSetBack(b: Board, side: Side, delta: int, bestOf: int, now: int, later: int)
    requires InPlay(b, side, bestOf) && b.m.sets.left >= 0 && b.m.sets.right >= 0 && delta > 0
    requires PointStep(b, side, delta, None, bestOf, now).event in {SetEnd, MatchEnd}
    ensures var won := PointStep(b, side, delta, None, bestOf, now).board;
            var back := PointStep(won, side, -delta, None, bestOf, later);
            && back.event == NoEvent
            && back.board.m.points == b.m.points && back.board.m.sets == b.m.sets
            && back.board.results == b.results && !back.board.setClosed
  {
    var p := b.m.points.At(side);
    JustAwarded(b, side, delta, bestOf, now);
    AwardRulesStand(b, side, p + delta, bestOf, now);
    WalkedBack(b, side, p + delta, delta, bestOf, now, later);
  }

  lemma WalkedBack(b: Board, side: Side, q: int, delta: int, bestOf: int, now: int, later: int)
    requires InPlay(b, side, bestOf) && delta > 0 && q == b.m.points.At(side) + delta
    requires b.m.sets.At(side) >= 0
    requires var won := AwardSet(b.(m := RallyWon(b.m, side, q, now)), side, now);
             ClosedWinner(won.results, won.setClosed) == Some(side) && BoardRules(won, bestOf) == BoardRules(b, bestOf)
    ensures var won := AwardSet(b.(m := RallyWon(b.m, side, q, now)), side, now);
            var back := PointStep(won, side, -delta, None, bestOf, later);
            && back.event == NoEvent
            && back.board.m.points == b.m.points && back.board.m.sets == b.m.sets
            && back.board.results == b.results && !back.board.setClosed
  {
    var won := AwardSet(b.(m := RallyWon(b.m, side, q, now)), side, now);
    assert won.results[..|won.results| - 1] == b.results;
    var p := b.m.points.At(side);
    var back := Correction(won, side, p, true, BoardRules(b, bestOf));
    assert back == TakeBackSet(won.(m := won.m.(points := With(won.m.points, side, p))), side);
  }

  /** A tap on either side, by any amount. */
  datatype Plus = Plus(side: Side, delta: int, bestOf: int, now: int)

  function TapAll(b: Board, taps: seq<Plus>): Board
    decreases |taps|
  {
    if taps == [] then b
    else
      var t := taps[0];
      TapAll(PointStep(b, t.side, t.delta, None, t.bestOf, t.now).board, taps[1..])
  }

  /** The set on the board, on top of `earlier` recorded ones: on record exactly while it is closed. */
  predicate OneSetOn(b: Board, earlier: seq<SetResult>) {
    && earlier <= b.results
    && |b.results| == |earlier| + if b.setClosed then 1 else 0
  }

  /** With no typed score a set is never awarded twice: whatever is tapped up and down on an open
      board, at most one more set is ever on record, exactly while it counts as closed, and the
      earlier ones stay. */
  lemma {:induction false} NeverAwardedTwice(b: Board, earlier: seq<SetResult>, taps: seq<Plus>)
    requires OneSetOn(b, earlier)
    ensures OneSetOn(TapAll(b, taps), earlier)
    decreases |taps|
  {
    if taps == [] {
    } else {
      var t := taps[0];
      NeverAwardedTwice(PointStep(b, t.side, t.delta, None, t.bestOf, t.now).board, earlier, taps[1..]);
    }
  }

  // ---- First serve --------------------------------------------------------------------------

  /** The team that opened the set on the board, while the engine knows it. */
  function Opener(m: Model): Option<TeamId> {
    match m.firstServer
    case None => None
    case Some(side) => Some(TeamOn(side, m.endsSwapped))
  }

  /** A new declaration of who serves first, or another board. */
  predicate Declares(b: Board, a: Action) {
    a.Reset? || a.SetState? || (a.Serve? && b.m.points == Sided(0, 0))
  }

  lemma OpenerStays(b: Board, x: Input)
    requires b.m.firstServer.Some? && !Declares(b, x.action) && !x.action.NextSet?
    ensures Opener(StepBoard(b, x).m) == Opener(b.m)
  {
    hide BoardRules, ClosedWinner, Won, FlipResults, HoldsLastResult, ElapsedSecs;
  }

  /** The next set is opened by the other team, and the arrow already points at it. */
  lemma NextSetAlternates(b: Board, bestOf: int)
    requires b.m.firstServer.Some? && !IntoDeciding(b.m, bestOf)
    ensures var n := NextSetStep(b, bestOf);
            Opener(n.m) == Some(Opener(b.m).value.Other()) && n.m.serving == n.m.firstServer
  {
  }

  /** Into the deciding set, whoever the arrow names opens it, and nobody moves. */
  lemma DecidingSetFollowsTheArrow(b: Board, bestOf: int)
    requires IntoDeciding(b.m, bestOf)
    ensures var n := NextSetStep(b, bestOf);
            && n.m.serving == b.m.serving && n.m.firstServer == b.m.serving
            && n.m.endsSwapped == b.m.endsSwapped && n.m.teams == b.m.teams
  {
  }

  /** One set opened: by which team, and whether it was the deciding set, opened by the coin toss. */
  datatype Opening = Opening(team: Option<TeamId>, toss: bool)

  /** A board, and the sets opened so far on its timeline since the last declaration. */
  datatype Timeline = Timeline(board: Board, openings: seq<Opening>)

  function Begun(b: Board): Timeline {
    Timeline(b, [Opening(Opener(b.m), false)])
  }

  /** An action on the timeline: a next-set opens a set more, a declaration starts anew, and anything
      else leaves the openings as they were, but for the last one's team if only now known. */
  function Onward(t: Timeline, x: Input): Timeline {
    var n := StepBoard(t.board, x);
    if n == t.board then t
    else if x.action.NextSet? then
      Timeline(n, t.openings + [Opening(Opener(n.m), IntoDeciding(t.board.m, x.bestOf))])
    else if Declares(t.board, x.action) || t.openings == [] then Begun(n)
    else
      var last := |t.openings| - 1;
      Timeline(n, t.openings[last := t.openings[last].(team := Opener(n.m))])
  }

  /** The last opening is the board's, and every set was opened by the team that did not open the one
      before it - except the deciding set, and except after an opener the engine does not know. */
  predicate Alternates(t: Timeline) {
    var os := t.openings;
    && os != [] && os[|os| - 1].team == Opener(t.board.m)
    && forall i :: 0 < i < |os| && !os[i].toss && os[i - 1].team.Some? ==>
         os[i].team == Some(os[i - 1].team.value.Other())
  }

  lemma OnwardKeepsAlternating(t: Timeline, x: Input)
    requires Alternates(t)
    ensures Alternates(Onward(t, x))
  {
    hide StepBoard;
    if x.action.NextSet? {
      NextSetOpens(t.board, x);
    } else if t.board.m.firstServer.Some? && !Declares(t.board, x.action) {
      OpenerStays(t.board, x);
    }
  }

  lemma NextSetOpens(b: Board, x: Input)
    requires x.action.NextSet?
    ensures !IntoDeciding(b.m, x.bestOf) && b.m.firstServer.Some? ==>
              Opener(StepBoard(b, x).m) == Some(Opener(b.m).value.Other())
  {
    if !IntoDeciding(b.m, x.bestOf) && b.m.firstServer.Some? {
      NextSetAlternates(b, x.bestOf);
    }
  }

  /** First serve alternates by team (rule 12.1.2 of the FIVB Official Volleyball Rules): over every run
      from any board, whatever is scored, corrected, swapped, declared, loaded or undone, the team that
      opens a set is the one that did not open the set before it - the deciding set aside. */
  lemma {:induction false} FirstServeAlternates(b: Board, cmds: seq<Cmd<Input>>)
    ensures var f := Run(Onward, UNDO_MAX, Engine(Begun(b), []), cmds);
            Alternates(f.board) && f.board.board == Run(StepBoard, UNDO_MAX, Engine(b, []), cmds).board
  {
    var start := Engine(Begun(b), []);
    var any := (x: Input) => true;
    var view := (t: Timeline) => t.board;
    forall t, x {:trigger Onward(t, x)}
      ensures Alternates(t) ==> Alternates(Onward(t, x))
      ensures Onward(t, x).board == StepBoard(t.board, x)
    {
      if Alternates(t) {
        OnwardKeepsAlternating(t, x);
      }
    }
    RunKeepsInvariant(Onward, UNDO_MAX, Alternates, any, start, cmds);
    assert Seen(view, start) == Engine(b, []);
    RunFollows(Onward, StepBoard, view, UNDO_MAX, start, cmds);
    assert Seen(view, Run(Onward, UNDO_MAX, start, cmds)).board == Run(Onward, UNDO_MAX, start, cmds).board.board;
  }
}
