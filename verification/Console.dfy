/** The control server's scoring requests on the indoor engine: the class that drives a source and
    the log, and the composed theorems on the real engine. */
module Consoles {
  import opened Basics
  import opened LiveStates
  import opened UndoJournals
  import opened LiveFixture
  import History
  import HU = HistoryUndo
  import HT = HistoryByTeam
  import CS = ControlServer
  import CE = ChangesOfEnds
  import Manual
  import ManualTheorems

  // ---- The indoor engine ------------------------------------------------------------------------

  /** What the log reads of an indoor action. */
  function IndoorEntry(a: Manual.Action): History.LogAction {
    match a
    case Point(side, delta, typed) => History.Point(side, delta, typed)
    case Timeout(side, delta, typed) => History.Timeout(side, delta, typed)
    case Sub(side, delta, typed) => History.Sub(side, delta, typed)
    case Sets(side, delta, typed) => History.Sets(side, typed)
    case Serve(side) => History.Serve(side)
    case Swap => History.Swap
    case RemoveSet => History.RemoveSet
    case Reset(_) => History.Reset
    case _ => History.Other
  }

  function IndoorStep(b: Manual.Board, x: Manual.Input): CS.Stepped<Manual.Board> {
    var t := Manual.Step(b, x);
    CS.Stepped(t.board, t.event)
  }

  function Indoor(): CS.Rig<Manual.Board, Manual.Input> {
    CS.Rig(IndoorStep, Manual.StateOf, (x: Manual.Input) => IndoorEntry(x.action), false)
  }

  /** A refused tap changes nothing, and what ends a set or a match is always journaled. */
  lemma IndoorEventsAreHonest(b: Manual.Board, x: Manual.Input)
    ensures var t := Manual.Step(b, x);
            && (t.event == SetClosed ==> t.board == b)
            && (t.event in {SetEnd, MatchEnd, SwitchDue} ==> t.board != b)
  {
    if x.action.Point? {
      var side := x.action.side.GetOr(Left);
      var t := Manual.Step(b, x);
      assert t.event in {SetEnd, MatchEnd, SwitchDue} ==> t.board.m.points.At(side) != b.m.points.At(side);
    }
  }

  lemma IndoorIsHonest()
    ensures CS.Honest(Indoor())
  {
    forall b: Manual.Board, x: Manual.Input {:trigger IndoorStep(b, x)}
      ensures IndoorStep(b, x).event == SetClosed ==> IndoorStep(b, x).board == b
    {
      IndoorEventsAreHonest(b, x);
    }
  }

  // ---- One request ------------------------------------------------------------------------------

  /** The game on the board: the log's, or the one a pre-match was set up for. */
  function CurrentGame(l: History.Log, prematch: bool, prematchGame: Option<int>): Option<int> {
    var filed := History.GameOf(l);
    if filed.Some? then filed else if prematch then prematchGame else None
  }

  /** A reset during an unfinished game from the schedule is a restart of that game. */
  predicate Restarts(b: Manual.Board, bestOf: int, a: Manual.Action, game: Option<int>) {
    a.Reset? && game.Some? && !IsOver(Manual.StateOf(b, bestOf), Volleyball)
  }

  /** The action as it reaches the source: the teams a restart keeps, home back on the left. */
  function Meant(b: Manual.Board, bestOf: int, a: Manual.Action, game: Option<int>): Manual.Action {
    var s := Manual.StateOf(b, bestOf);
    if !a.Reset? then a
    else if Restarts(b, bestOf, a, game) then Manual.Reset(Some(History.ByTeam(s.teams, History.Swapped(s))))
    else Manual.Reset(None)
  }

  /** Getting the teams right before the start is part of the pre-match; `Unknown` is a serve order. */
  predicate KeepsPrematch(a: Manual.Action) {
    a.TeamEdit? || a.Serve? || a.Swap? || a.Unknown?
  }

  type IndoorOp = CS.Op<Manual.Input>

  /** One POST of an action, as the steps it takes: the undo trail is cut when it starts the match, and
      a restarted game is filed again, since the reset made the log forget it. */
  function Requests(s: CS.Sys<Manual.Board>, prematch: bool, prematchGame: Option<int>, bestOf: int,
                    a: Manual.Action, now: int, stamp: int): seq<IndoorOp>
  {
    var game := CurrentGame(s.log, prematch, prematchGame);
    var act := CS.Apply(Manual.Input(Meant(s.board, bestOf, a, game), bestOf, now), bestOf, stamp);
    (if prematch && !KeepsPrematch(a) then [CS.ClearUndo] else [])
    + [act] + (if Restarts(s.board, bestOf, a, game) then [CS.FileUnder(game)] else [])
  }

  /** Serving them one after the other. */
  lemma ServeRequests(s: CS.Sys<Manual.Board>, cut: seq<IndoorOp>, act: IndoorOp, filing: seq<IndoorOp>)
    requires |cut| <= 1 && |filing| <= 1
    ensures var s1 := if cut == [] then s else CS.Serve(Indoor(), s, cut[0]);
            var s2 := CS.Serve(Indoor(), s1, act);
            CS.ServeAll(Indoor(), s, cut + [act] + filing)
            == if filing == [] then s2 else CS.Serve(Indoor(), s2, filing[0])
  {
    hide CS.Serve, Indoor;
    var s1 := CS.ServeAll(Indoor(), s, cut);
    CS.ServeAppend(Indoor(), s, cut, [act]);
    CS.ServeAppend(Indoor(), s, cut + [act], filing);
    CS.OneMore(Indoor(), s1, act);
    if cut != [] {
      assert cut == [cut[0]];
      CS.OneMore(Indoor(), s, cut[0]);
    }
    if filing != [] {
      assert filing == [filing[0]];
      CS.OneMore(Indoor(), CS.Serve(Indoor(), s1, act), filing[0]);
    }
  }

  /** A restart keeps the game: the log files the next match under it, and the same teams stand at 0-0,
      each where it started. */
  lemma {:induction false} RestartKeepsTheGame(
    s: CS.Sys<Manual.Board>, prematch: bool, prematchGame: Option<int>, bestOf: int, keep: Option<Pair<Team>>,
    now: int, stamp: int)
    requires var game := CurrentGame(s.log, prematch, prematchGame);
             Restarts(s.board, bestOf, Manual.Reset(keep), game) && game.value > 0
    ensures var n := CS.ServeAll(Indoor(), s,
                                 Requests(s, prematch, prematchGame, bestOf, Manual.Reset(keep), now, stamp));
            var before, after := Manual.StateOf(s.board, bestOf), Manual.StateOf(n.board, bestOf);
            && CurrentGame(n.log, false, None) == CurrentGame(s.log, prematch, prematchGame)
            && History.ByTeam(after.teams, History.Swapped(after))
               == History.ByTeam(before.teams, History.Swapped(before))
            && !n.board.m.endsSwapped && n.board.m.points == Sided(0, 0) && n.board.m.sets == Sided(0, 0)
            && n.log.current == None
  {
    var game := CurrentGame(s.log, prematch, prematchGame);
    var act := CS.Apply(Manual.Input(Meant(s.board, bestOf, Manual.Reset(keep), game), bestOf, now), bestOf, stamp);
    var cut: seq<IndoorOp> := if prematch then [CS.ClearUndo] else [];
    ServeRequests(s, cut, act, [CS.FileUnder(game)]);
    ResetForgets(if prematch then CS.Serve(Indoor(), s, CS.ClearUndo) else s, act);
  }

  lemma ResetForgets(s: CS.Sys<Manual.Board>, op: IndoorOp)
    requires op.Apply? && op.a.action.Reset?
    ensures var n := CS.Serve(Indoor(), s, op);
            && n.log.current == None && n.log.game == None
            && n.board == Manual.ResetStep(s.board, op.a.action.keep)
  {
  }

  /** A fresh board, and the archive as read from disk. */
  function Fresh(endsSwapped: bool, archive: seq<History.Match>, next: nat): CS.Sys<Manual.Board> {
    CS.Started(Manual.Loaded(Manual.NEUTRAL, endsSwapped), archive, next)
  }

  /** The server's scoring requests on the real engine and the real log, the board in hand mode. */
  class Console {
    const source: Manual.ManualSource
    const history: History.HistoryStore
    var prematch: bool
    var prematchGame: Option<int>

    ghost predicate Valid()
      reads this, source, source.journal, history
    {
      source.Valid()
    }

    function View(): CS.Sys<Manual.Board>
      reads this, source, source.journal, history
    {
      CS.Sys(source.Snap(), source.journal.stack, history.View())
    }

    constructor (bestOf: Option<int>, archive: seq<History.Match>, next: nat)
      requires HU.ArchiveBelow(archive, next)
      ensures Valid() && fresh(source) && fresh(source.journal) && fresh(history)
      ensures View() == Fresh(false, archive, next)
      ensures CS.Aligned(View(), []) && !prematch
    {
      source := new Manual.ManualSource(bestOf);
      history := new History.HistoryStore(archive, next);
      prematch, prematchGame := false, None;
      new;
      CS.FreshIsAligned(source.Snap(), archive, next);
    }

    /** POST /api/action, every action but the undo. */
    method Post(a: Manual.Action, now: int, stamp: int)
      requires Valid()
      modifies this`prematch, source, source.journal, history
      ensures Valid() && source.bestOf == old(source.bestOf)
      ensures View() == CS.ServeAll(Indoor(), old(View()),
                                    Requests(old(View()), old(prematch), prematchGame, source.bestOf, a, now, stamp))
      ensures prematch == (old(prematch) && KeepsPrematch(a))
    {
      hide Meant, Restarts, CurrentGame, KeepsPrematch, Indoor, History.Record, History.UndoLast;
      ghost var s := View();
      var game := CurrentGame(history.View(), prematch, prematchGame);
      var restarts := Restarts(source.Snap(), source.bestOf, a, game);
      var act := Meant(source.Snap(), source.bestOf, a, game);
      ghost var cut: seq<IndoorOp> := if prematch && !KeepsPrematch(a) then [CS.ClearUndo] else [];
      ghost var filing: seq<IndoorOp> := if restarts then [CS.FileUnder(game)] else [];
      ServeRequests(s, cut, CS.Apply(Manual.Input(act, source.bestOf, now), source.bestOf, stamp), filing);
      if prematch && !KeepsPrematch(a) {
        prematch := false;
        ClearUndo();
      }
      Action(act, now, stamp);
      if restarts {
        history.SetGame(game);
      }
    }

    /** Apply, then persist - unless the tap was refused. */
    method Action(a: Manual.Action, now: int, stamp: int)
      requires Valid()
      modifies source, source.journal, history
      ensures Valid() && source.bestOf == old(source.bestOf)
      ensures View() == CS.Serve(Indoor(), old(View()),
                                 CS.Apply(Manual.Input(a, source.bestOf, now), source.bestOf, stamp))
    {
      ghost var before := source.Snap();
      source.Apply(a, now);
      IndoorEventsAreHonest(before, Manual.Input(a, source.bestOf, now));
      var event := source.lastEvent;
      if event == SetClosed {
        return;
      }
      var r := History.Report(Manual.StateOf(source.Snap(), source.bestOf), event, stamp, false);
      history.RecordAction(IndoorEntry(a), r, source.lastJournaled);
    }

    /** The console's undo: `words` is the source's label, read before the undo pops it. */
    method TakeBack(stamp: int, words: string)
      requires Valid()
      modifies source, source.journal, history
      ensures Valid() && source.bestOf == old(source.bestOf)
      ensures View() == CS.Serve(Indoor(), old(View()), CS.TakeBack(source.bestOf, stamp, words))
    {
      source.Undo();
      if source.lastEvent == UndoEmpty {
        return;
      }
      var r := History.Report(Manual.StateOf(source.Snap(), source.bestOf), Undone, stamp, false);
      history.UndoLastAction(r, words);
    }

    /** clearUndo(): a fresh match starts with nothing to undo, in the source or in the log. */
    method ClearUndo()
      requires Valid()
      modifies source.journal, history
      ensures Valid()
      ensures View() == CS.Serve<Manual.Board, Manual.Input>(Indoor(), old(View()), CS.ClearUndo)
    {
      source.ClearUndo();
      history.ClearUndo();
    }

    /** POST /api/history/clear. */
    method ClearLog()
      requires Valid()
      modifies history
      ensures Valid()
      ensures View() == CS.Serve<Manual.Board, Manual.Input>(Indoor(), old(View()), CS.ClearLog)
    {
      history.Clear();
    }
  }

  // ---- Whole runs ---------------------------------------------------------------------------------

  /** After any run of indoor requests from a fresh board and a loaded archive: actions are taken back by as
      many undos as the engine journaled of them. */
  lemma {:induction false} IndoorUndoRestoresBoardAndLog(
    start: CS.Sys<Manual.Board>, endsSwapped: bool, archive: seq<History.Match>, next: nat, run: seq<IndoorOp>,
    ops: seq<IndoorOp>, undos: seq<IndoorOp>)
    requires HU.ArchiveBelow(archive, next) && start == Fresh(endsSwapped, archive, next)
    requires var s := CS.ServeAll(Indoor(), start, run);
             && CS.OnlyActions(ops) && CS.AllAdmissible(Indoor(), s, ops)
             && CS.OnlyUndos(undos) && |undos| == CS.Journaled(Indoor(), s, ops) <= UNDO_MAX
    ensures CS.UndoneBy(Indoor(), CS.ServeAll(Indoor(), start, run), ops, undos)
  {
    IndoorIsHonest();
    CS.FreshIsAligned(start.board, archive, next);
    CS.JournalsStayAligned(Indoor(), start, [], run);
    hide CS.UndoneBy, CS.AllAdmissible, Indoor, CS.ServeAll;
    CS.ActionsThenUndosRestore(Indoor(), CS.ServeAll(Indoor(), start, run), ops, undos);
  }

  datatype Posted = Posted(a: Manual.Action, now: int, stamp: int)

  /** The requests of several posts, the match already on or none of them starting it. */
  function AllRequests(s: CS.Sys<Manual.Board>, prematch: bool, prematchGame: Option<int>, bestOf: int,
                       posts: seq<Posted>): seq<IndoorOp>
    decreases |posts|
  {
    if posts == [] then []
    else
      var p := posts[0];
      var ops := Requests(s, prematch, prematchGame, bestOf, p.a, p.now, p.stamp);
      ops + AllRequests(CS.ServeAll(Indoor(), s, ops), prematch, prematchGame, bestOf, posts[1..])
  }

  predicate LeavesPrematch(prematch: bool, posts: seq<Posted>) {
    forall i :: 0 <= i < |posts| ==> prematch ==> KeepsPrematch(posts[i].a)
  }

  lemma {:induction false} PostsAreActions(
    s: CS.Sys<Manual.Board>, prematch: bool, prematchGame: Option<int>, bestOf: int, posts: seq<Posted>)
    requires LeavesPrematch(prematch, posts)
    ensures CS.OnlyActions(AllRequests(s, prematch, prematchGame, bestOf, posts))
    decreases |posts|
  {
    if posts != [] {
      var p := posts[0];
      var ops := Requests(s, prematch, prematchGame, bestOf, p.a, p.now, p.stamp);
      PostsAreActions(CS.ServeAll(Indoor(), s, ops), prematch, prematchGame, bestOf, posts[1..]);
    }
  }

  /** From any state, posts that start no match from the pre-match - restarts of a scheduled game with their
      filing among them - are taken back by their undos. */
  lemma {:induction false} PostsAreTakenBack(
    s: CS.Sys<Manual.Board>, prematch: bool, prematchGame: Option<int>, bestOf: int, posts: seq<Posted>,
    ops: seq<IndoorOp>, undos: seq<IndoorOp>)
    requires HU.WellFormed(s.log) && |s.stack| <= UNDO_MAX && |s.log.journal| <= History.MAX_UNDO
    requires LeavesPrematch(prematch, posts) && ops == AllRequests(s, prematch, prematchGame, bestOf, posts)
    requires CS.AllAdmissible(Indoor(), s, ops)
    requires CS.OnlyUndos(undos) && |undos| == CS.Journaled(Indoor(), s, ops) <= UNDO_MAX
    ensures CS.UndoneBy(Indoor(), s, ops, undos)
  {
    PostsAreActions(s, prematch, prematchGame, bestOf, posts);
    hide CS.UndoneBy, CS.AllAdmissible, Indoor;
    CS.ActionsThenUndosRestore(Indoor(), s, ops, undos);
  }

  /** A restart tapped by mistake is taken back by one undo, full archive or not: the board, the archive and
      the match in progress are there again. */
  lemma {:induction false} RestartIsTakenBack(
    s: CS.Sys<Manual.Board>, game: Option<int>, bestOf: int, keep: Option<Pair<Team>>, now: int, stamp: int,
    undo: IndoorOp)
    requires HU.WellFormed(s.log) && |s.stack| <= UNDO_MAX && |s.log.journal| <= History.MAX_UNDO
    requires var current := CurrentGame(s.log, false, game); Restarts(s.board, bestOf, Manual.Reset(keep), current)
    requires undo.TakeBack?
    requires var ops := Requests(s, false, game, bestOf, Manual.Reset(keep), now, stamp);
             CS.Serve(Indoor(), s, ops[0]).board != s.board
    ensures var ops := Requests(s, false, game, bestOf, Manual.Reset(keep), now, stamp);
            var n := CS.ServeAll(Indoor(), s, ops + [undo]);
            n.board == s.board && HU.Same(n.log, s.log) && HU.KeepsOld(n.log, s.log)
  {
    var ops := Requests(s, false, game, bestOf, Manual.Reset(keep), now, stamp);
    var s1 := CS.Serve(Indoor(), s, ops[0]);
    assert |ops| == 2 && ops[1].FileUnder? && ops[1..] == [ops[1]] && ops[1..][1..] == [];
    RestartIsAdmissible(s, ops);
    hide Requests, Restarts, CS.Serve, Indoor, HU.WellFormed, HU.Same, HU.KeepsOld;
    CS.ActionsThenUndosRestore(Indoor(), s, ops, [undo]);
  }

  lemma ResetHasRoom(s: CS.Sys<Manual.Board>, op: IndoorOp)
    requires op.Apply? && op.a.action.Reset?
    ensures CS.Admissible(Indoor(), s, op)
    ensures CS.QuietReset(Indoor(), s, op) ==> CS.Steps(Indoor(), s, op) == 0
  {
  }

  lemma {:induction false} RestartIsAdmissible(s: CS.Sys<Manual.Board>, ops: seq<IndoorOp>)
    requires |ops| == 2 && ops[0].Apply? && ops[0].a.action.Reset? && ops[1].FileUnder?
    requires CS.Serve(Indoor(), s, ops[0]).board != s.board
    ensures CS.OnlyActions(ops) && CS.AllAdmissible(Indoor(), s, ops)
    ensures CS.Journaled(Indoor(), s, ops) == 1 && !CS.Drops(Indoor(), s, ops)
  {
    var rest := ops[1..];
    var s1 := CS.Serve(Indoor(), s, ops[0]);
    assert rest[1..] == [] && rest[0] == ops[1];
    ResetForgets(s, ops[0]);
    ResetHasRoom(s, ops[0]);
    CS.FilingIsQuiet(Indoor(), s1, ops[1]);
    hide CS.Serve, Indoor, CS.ReportOf, CS.Admissible, CS.QuietReset;
    NothingLeft(CS.Serve(Indoor(), s1, ops[1]));
    assert CS.Admissible(Indoor(), s1, ops[1]) by {
      FilingIsAdmissible(s1, ops[1]);
    }
    assert CS.Journaled(Indoor(), s1, rest) == 0 && CS.AllAdmissible(Indoor(), s1, rest);
  }

  lemma {:induction false} NothingLeft(s: CS.Sys<Manual.Board>)
    ensures CS.Journaled(Indoor(), s, []) == 0 && CS.AllAdmissible(Indoor(), s, [])
  {
  }

  lemma FilingIsAdmissible(s: CS.Sys<Manual.Board>, op: IndoorOp)
    requires op.FileUnder?
    ensures CS.Admissible(Indoor(), s, op)
  {
  }

  // ---- What the engine does not journal -----------------------------------------------------------------

  function Request(a: Manual.Action): IndoorOp {
    CS.Apply(Manual.Input(a, 5, 0), 5, 0)
  }

  /** A match in progress is dropped where no undo reaches it: on a fresh board a timeout called and taken
      back, then a reset. The reset finds the board as it leaves it, so it is not journaled; the log
      forgets the match all the same. */
  lemma ResetDropsAMatch()
    ensures var s := CS.ServeAll(Indoor(), Fresh(false, [], 0),
                                 [Request(Manual.Timeout(Some(Left), 1, None)),
                                  Request(Manual.Timeout(Some(Left), -1, None))]);
            var n := CS.Serve(Indoor(), s, Request(Manual.Reset(None)));
            && n.board == s.board && n.stack == s.stack
            && |HU.Live(s.log.current)| == 2 && n.log.current == None && !HU.Same(n.log, s.log)
  {
    var up, down := Request(Manual.Timeout(Some(Left), 1, None)), Request(Manual.Timeout(Some(Left), -1, None));
    var reset := Request(Manual.Reset(None));
    var s0 := Fresh(false, [], 0);
    var s1 := CS.Serve(Indoor(), s0, up);
    var s2 := CS.Serve(Indoor(), s1, down);
    TwoRequests(s0, up, down);
    TimeoutUpAndDown();
    hide Manual.Step, History.Record, Manual.Loaded, Manual.StateOf, IndoorEntry;
    OneTimeout(s0, up);
    OneTimeout(s1, down);
    ResetForgets(s2, reset);
  }

  lemma TimeoutUpAndDown()
    ensures var b0 := Manual.Loaded(Manual.NEUTRAL, false);
            var b1 := b0.(m := b0.m.(timeouts := Sided(1, 0)));
            && IndoorStep(b0, Manual.Input(Manual.Timeout(Some(Left), 1, None), 5, 0)).board == b1 != b0
            && IndoorStep(b1, Manual.Input(Manual.Timeout(Some(Left), -1, None), 5, 0)).board == b0
            && IndoorStep(b0, Manual.Input(Manual.Reset(None), 5, 0)).board == b0
            && Manual.ResetStep(b0, None) == b0
  {
  }

  lemma {:induction false} TwoRequests(s: CS.Sys<Manual.Board>, x: IndoorOp, y: IndoorOp)
    ensures CS.ServeAll(Indoor(), s, [x, y]) == CS.Serve(Indoor(), CS.Serve(Indoor(), s, x), y)
  {
    hide CS.Serve, Indoor;
    assert [x, y] == [x] + [y];
    CS.ServeAppend(Indoor(), s, [x], [y]);
    CS.OneMore(Indoor(), s, x);
    CS.OneMore(Indoor(), CS.Serve(Indoor(), s, x), y);
  }

  /** A journaled timeout leaves one live entry more. */
  lemma OneTimeout(s: CS.Sys<Manual.Board>, op: IndoorOp)
    requires op.Apply? && op.a.action.Timeout? && op.a.action.delta != 0 && op.a.action.typed == None
    requires s.log.lastFinished == None && CS.Serve(Indoor(), s, op).board != s.board
    requires s.log.current.Some? ==> |s.log.current.value.events| < History.MAX_EVENTS
    ensures var n := CS.Serve(Indoor(), s, op).log;
            && n.current.Some? && n.lastFinished == None
            && |n.current.value.events|
               == 1 + (if s.log.current.Some? then |s.log.current.value.events| else 0)
            && |HU.Live(n.current)| == |HU.Live(s.log.current)| + 1
  {
    var t := IndoorStep(s.board, op.a);
    assert t.event == NoEvent;
    var r := CS.ReportOf(Indoor(), t.board, t.event, op.bestOf, op.stamp);
    var a := IndoorEntry(op.a.action);
    var l := s.log.(step := Some(History.NewStep(s.log)));
    var o := History.Open(l, a, r);
    assert o.current.Some? && o.step.Some? && o.lastFinished == None;
    var events := if s.log.current.Some? then s.log.current.value.events else [];
    assert o.current.value.events == events;
    var e := History.Entry(o.next, History.EntryFor(a, r.state).value, r.stamp, History.Score(r.state),
                           History.Tally(r.state), History.Server(r), true);
    assert CS.Serve(Indoor(), s, op).log == History.Record(s.log, a, r, true);
    assert History.Record(s.log, a, r, true).current.value.events == events + [e];
    assert (events + [e])[..|events|] == events;
    assert HU.TrackedOf(events + [e]) == HU.TrackedOf(events) + [e];
  }

  /** The same run undone: the two timeouts are taken back, and since the match the reset dropped had begun on
      the way, board and log end as they started. */
  lemma {:induction false} DroppedOnTheWay(undos: seq<IndoorOp>)
    requires |undos| == 2 && CS.OnlyUndos(undos)
    ensures var ops := [Request(Manual.Timeout(Some(Left), 1, None)), Request(Manual.Timeout(Some(Left), -1, None)),
                        Request(Manual.Reset(None))];
            var n := CS.ServeAll(Indoor(), Fresh(false, [], 0), ops + undos);
            && n.board == Fresh(false, [], 0).board && n.stack == []
            && HU.Same(n.log, History.EMPTY) && n.log.journal == []
  {
    var up, down := Request(Manual.Timeout(Some(Left), 1, None)), Request(Manual.Timeout(Some(Left), -1, None));
    var reset := Request(Manual.Reset(None));
    var s0 := Fresh(false, [], 0);
    var s1 := CS.Serve(Indoor(), s0, up);
    var s2 := CS.Serve(Indoor(), s1, down);
    TimeoutUpAndDown();
    hide CS.Serve, CS.Admissible, CS.Steps, CS.UndoneBy, CS.AllAdmissible, CS.Journaled;
    hide Indoor, IndoorStep, Manual.Loaded;
    TimeoutIsAdmissible(s0, up);
    TimeoutIsAdmissible(s1, down);
    ResetIsAdmissible(s2, reset);
    ThreeOps(s0, up, down, reset);
    CS.ActionsThenUndosRestore(Indoor(), s0, [up, down, reset], undos);
    UndoneFromNothing(s0, [up, down, reset], undos);
  }

  lemma {:induction false} UndoneFromNothing(s: CS.Sys<Manual.Board>, ops: seq<IndoorOp>, undos: seq<IndoorOp>)
    requires CS.UndoneBy(Indoor(), s, ops, undos) && s.log.current == None && s.stack == [] && s.log.journal == []
    ensures var n := CS.ServeAll(Indoor(), s, ops + undos);
            n.board == s.board && n.stack == [] && HU.Same(n.log, s.log) && n.log.journal == []
  {
    hide CS.ServeAll, Indoor, HU.Same, HU.WellFormed, HU.KeepsOld;
    assert !CS.Drops(Indoor(), s, ops);
  }

  lemma {:induction false} ThreeOps(s: CS.Sys<Manual.Board>, x: IndoorOp, y: IndoorOp, z: IndoorOp)
    ensures var s1 := CS.Serve(Indoor(), s, x);
            var s2 := CS.Serve(Indoor(), s1, y);
            && CS.Journaled(Indoor(), s, [x, y, z])
               == CS.Steps(Indoor(), s, x) + CS.Steps(Indoor(), s1, y) + CS.Steps(Indoor(), s2, z)
            && (CS.AllAdmissible(Indoor(), s, [x, y, z]) <==>
                  CS.Admissible(Indoor(), s, x) && CS.Admissible(Indoor(), s1, y) && CS.Admissible(Indoor(), s2, z))
  {
    hide CS.Serve, CS.Admissible, CS.Steps, Indoor;
    var s1 := CS.Serve(Indoor(), s, x);
    var s2 := CS.Serve(Indoor(), s1, y);
    var s3 := CS.Serve(Indoor(), s2, z);
    assert [x, y, z][1..] == [y, z] && [y, z][1..] == [z] && [z][1..] == [];
    assert CS.Journaled(Indoor(), s3, []) == 0 && CS.AllAdmissible(Indoor(), s3, []);
    assert CS.Journaled(Indoor(), s2, [z]) == CS.Steps(Indoor(), s2, z);
    assert CS.AllAdmissible(Indoor(), s2, [z]) <==> CS.Admissible(Indoor(), s2, z);
    assert CS.AllAdmissible(Indoor(), s1, [y, z])
      <==> CS.Admissible(Indoor(), s1, y) && CS.AllAdmissible(Indoor(), s2, [z]);
    assert CS.Journaled(Indoor(), s1, [y, z]) == CS.Steps(Indoor(), s1, y) + CS.Journaled(Indoor(), s2, [z]);
  }

  lemma TimeoutIsAdmissible(s: CS.Sys<Manual.Board>, op: IndoorOp)
    requires op.Apply? && op.a.action.Timeout?
    requires IndoorStep(s.board, op.a).board != s.board
    ensures CS.Admissible(Indoor(), s, op) && CS.Serve(Indoor(), s, op).board == IndoorStep(s.board, op.a).board
    ensures CS.Steps(Indoor(), s, op) == 1
  {
  }

  lemma ResetIsAdmissible(s: CS.Sys<Manual.Board>, op: IndoorOp)
    requires op.Apply? && op.a.action.Reset? && IndoorStep(s.board, op.a).board == s.board
    ensures CS.Admissible(Indoor(), s, op) && CS.Steps(Indoor(), s, op) == 0
  {
  }

  /** The last match of the archive is the one just finished, nothing is in progress, and it had sets. */
  predicate JustFinished(l: History.Log) {
    && l.current == None && HT.Standing(l) && !l.lastFinished.value.gameEnd
    && History.Total(l.lastFinished.value.match_.result) > 0
  }

  /** A finished match is reopened where no undo reaches it: an empty board is loaded after it, and a -
      is tapped on its 0. The - leaves the board alone, so it is not journaled; the log takes the match
      out of the archive all the same. */
  lemma MinusReopensAMatch(s: CS.Sys<Manual.Board>)
    requires JustFinished(s.log)
    ensures var loaded := CS.Serve(Indoor(), s, Request(Manual.SetState(None)));
            var n := CS.Serve(Indoor(), loaded, Request(Manual.Point(Some(Left), -1, None)));
            && n.board == loaded.board && n.stack == loaded.stack && s.log.matches != []
            && n.log.matches == s.log.matches[..|s.log.matches| - 1] && n.log.current.Some?
            && !HU.Same(n.log, loaded.log)
  {
    hide Manual.Step, Manual.StateOf, History.Record, HU.Same, CS.Serve, Indoor, IndoorStep, JustFinished;
    var t := IndoorStep(s.board, Manual.Input(Manual.SetState(None), 5, 0));
    EmptyBoardThenMinus(s.board);
    ServeOne(s, Manual.SetState(None));
    var loaded := CS.Serve(Indoor(), s, Request(Manual.SetState(None)));
    OtherLeavesArchive(s.log, History.Report(Manual.StateOf(t.board, 5), NoEvent, 0, false), t.board != s.board);
    ServeOne(loaded, Manual.Point(Some(Left), -1, None));
    var n := CS.Serve(Indoor(), loaded, Request(Manual.Point(Some(Left), -1, None)));
    MinusTakesItOut(loaded.log, History.Report(Manual.StateOf(t.board, 5), NoEvent, 0, false));
    ShorterIsNotSame(n.log, loaded.log);
  }

  lemma ServeOne(s: CS.Sys<Manual.Board>, a: Manual.Action)
    requires IndoorStep(s.board, Manual.Input(a, 5, 0)).event != SetClosed
    ensures var t := IndoorStep(s.board, Manual.Input(a, 5, 0));
            CS.Serve(Indoor(), s, Request(a))
            == CS.Sys(t.board, Recorded(s.stack, s.board, t.board, UNDO_MAX),
                      History.Record(s.log, IndoorEntry(a),
                                     History.Report(Manual.StateOf(t.board, 5), t.event, 0, false),
                                     t.board != s.board))
  {
  }

  lemma EmptyBoardThenMinus(b: Manual.Board)
    ensures var t := IndoorStep(b, Manual.Input(Manual.SetState(None), 5, 0));
            && t.event == NoEvent && History.Total(History.Tally(Manual.StateOf(t.board, 5))) == 0
            && IndoorStep(t.board, Manual.Input(Manual.Point(Some(Left), -1, None), 5, 0))
               == CS.Stepped(t.board, NoEvent)
  {
  }

  lemma ShorterIsNotSame(x: History.Log, y: History.Log)
    requires |x.matches| < |y.matches|
    ensures !HU.Same(x, y)
  {
  }

  /** A log action without an entry of its own, with no match in progress. */
  lemma OtherLeavesArchive(l: History.Log, r: History.Report, undoable: bool)
    requires JustFinished(l)
    ensures var n := History.Record(l, History.Other, r, undoable);
            JustFinished(n) && n.matches == l.matches
  {
  }

  lemma MinusTakesItOut(l: History.Log, r: History.Report)
    requires JustFinished(l) && r.event == NoEvent && History.Total(History.Tally(r.state)) == 0
    ensures var n := History.Record(l, History.Point(Some(Left), -1, None), r, false);
            l.matches != [] && n.matches == l.matches[..|l.matches| - 1] && n.current.Some?
  {
    var minus := History.Point(Some(Left), -1, None);
    var l0 := l.(step := None);
    assert History.Open(l0, minus, r) == History.Reopen(l0);
  }

  /** A board gets there in three taps: two sets typed in, a 24 typed in, and the match point. */
  lemma ThreeTapsFinishAMatch()
    ensures var typed := CS.ServeAll(Indoor(), Fresh(false, [], 0),
                                     [Request(Manual.Sets(Some(Left), 0, Some(2))),
                                      Request(Manual.Point(Some(Left), 0, Some(24)))]);
            JustFinished(CS.Serve(Indoor(), typed, Request(Manual.Point(Some(Left), 1, None))).log)
  {
    var sets, score := Request(Manual.Sets(Some(Left), 0, Some(2))), Request(Manual.Point(Some(Left), 0, Some(24)));
    var s0 := Fresh(false, [], 0);
    var s1 := CS.Serve(Indoor(), s0, sets);
    TwoRequests(s0, sets, score);
    assert s1.board == s0.board.(m := s0.board.m.(sets := Sided(2, 0)));
    var s2 := CS.Serve(Indoor(), s1, score);
    assert s2.board == s1.board.(m := s1.board.m.(points := Sided(24, 0)));
    MatchPoint(s2);
  }

  lemma MatchPoint(s: CS.Sys<Manual.Board>)
    requires s.board.m.points == Sided(24, 0) && s.board.m.sets == Sided(2, 0)
    requires s.board.results == [] && !s.board.setClosed
    ensures JustFinished(CS.Serve(Indoor(), s, Request(Manual.Point(Some(Left), 1, None))).log)
  {
    var op := Request(Manual.Point(Some(Left), 1, None));
    var t := IndoorStep(s.board, op.a);
    assert t.event == MatchEnd && t.board.m.sets == Sided(3, 0);
    MatchPointFinishes(s.log, CS.ReportOf(Indoor(), t.board, MatchEnd, 5, 0), t.board != s.board);
  }

  lemma MatchPointFinishes(l: History.Log, r: History.Report, undoable: bool)
    requires r.event == MatchEnd && History.Total(History.Tally(r.state)) > 0
    ensures JustFinished(History.Record(l, History.Point(Some(Left), 1, None), r, undoable))
  {
    var tap := History.Point(Some(Left), 1, None);
    var l0 := l.(step := if undoable then Some(History.NewStep(l)) else None);
    assert History.Open(l0, tap, r).current.Some?;
  }

  /** Every recorded set was won by somebody. */
  predicate AllDecided(results: seq<SetResult>) {
    forall i :: 0 <= i < |results| ==> WinnerOf(results[i].score) != None
  }

  function IndoorCourt(): CE.Court<Manual.Board, Manual.Input> {
    CE.Court(Indoor(), Manual.SwapEnds, (x: Manual.Input) => x.(action := ManualTheorems.Mirror(x.action)),
             Manual.Input(Manual.Swap, 5, 0), (b: Manual.Board) => AllDecided(b.results),
             (x: Manual.Input) => ManualTheorems.NamesItsSide(x.action))
  }

  lemma IndoorKeepsDecided(b: Manual.Board, x: Manual.Input)
    requires AllDecided(b.results) && ManualTheorems.NamesItsSide(x.action)
    ensures AllDecided(Manual.Step(b, x).board.results)
  {
  }

  lemma IndoorStepsAlike()
    ensures CE.StepsAlike(IndoorCourt())
  {
    forall b: Manual.Board, x: Manual.Input {:trigger IndoorStep(b, x)} |
      AllDecided(b.results) && ManualTheorems.NamesItsSide(x.action)
      ensures var t := IndoorStep(b, x);
              AllDecided(t.board.results)
              && IndoorStep(Manual.SwapEnds(b), x.(action := ManualTheorems.Mirror(x.action)))
                 == CS.Stepped(Manual.SwapEnds(t.board), t.event)
    {
      IndoorKeepsDecided(b, x);
      ManualTheorems.NoSideBias(b, x);
    }
  }

  lemma IndoorReport(b: Manual.Board, f: int)
    ensures Manual.StateOf(b, f).endsSwapped.Some?
    ensures Manual.StateOf(Manual.SwapEnds(b), f) == ChangeEnds(Manual.StateOf(b, f))
  {
    ManualTheorems.ReportsChangeOfEnds(b, f);
  }

  lemma IndoorEntryMirrors(a: Manual.Action)
    requires ManualTheorems.NamesItsSide(a)
    ensures HT.NamesItsSide(IndoorEntry(a)) && !IndoorEntry(a).Reset?
    ensures IndoorEntry(ManualTheorems.Mirror(a)) == HT.MirrorEntry(IndoorEntry(a))
  {
  }

  lemma IndoorReadsAlike()
    ensures CE.ReadsAlike(IndoorCourt())
  {
    hide Manual.StateOf, Manual.SwapEnds, ChangeEnds, IndoorEntry, HT.NamesItsSide, HT.MirrorEntry,
         ManualTheorems.NamesItsSide, ManualTheorems.Mirror;
    forall a: Manual.Action {:trigger IndoorEntry(a)} | ManualTheorems.NamesItsSide(a)
      ensures HT.NamesItsSide(IndoorEntry(a)) && !IndoorEntry(a).Reset?
      ensures IndoorEntry(ManualTheorems.Mirror(a)) == HT.MirrorEntry(IndoorEntry(a))
    {
      IndoorEntryMirrors(a);
    }
    forall b: Manual.Board, f: int {:trigger Manual.StateOf(b, f)}
      ensures Manual.StateOf(b, f).endsSwapped.Some?
      ensures Manual.StateOf(Manual.SwapEnds(b), f) == ChangeEnds(Manual.StateOf(b, f))
    {
      IndoorReport(b, f);
    }
  }

  lemma IndoorSwaps()
    ensures CE.Swaps(IndoorCourt())
  {
    forall b: Manual.Board
      ensures Manual.SwapEnds(Manual.SwapEnds(b)) == b
    {
      ManualTheorems.SwapTwice(b);
    }
  }

  /** The indoor log is by team: from the same board and log, a scoring run with any changes of ends
      put in - every tap after one on the other side - ends on the same board turned round and in a
      log that tells the same story. */
  lemma {:induction false} IndoorLogIsByTeam(s: CS.Sys<Manual.Board>, items: seq<CE.Item<Manual.Input>>)
    requires AllDecided(s.board.results) && CE.AllScoring(IndoorCourt().scoring, items)
    requires CE.BelowCap(IndoorCourt(), s, s, false, items)
    ensures var straight, turned := CE.Straight(IndoorCourt(), s, items), CE.Turned(IndoorCourt(), s, false, items);
            && turned.board == (if CE.IsFlipped(false, items) then Manual.SwapEnds(straight.board) else straight.board)
            && HT.SameStory(straight.log, turned.log)
  {
    IndoorStepsAlike();
    IndoorReadsAlike();
    IndoorSwaps();
    CE.LogIsByTeam(IndoorCourt(), s, s, false, items);
  }
}
