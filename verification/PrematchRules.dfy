/** What a post does beside its action: the start of a match cuts the undo trail, and a reset in an unfinished
    game from the schedule keeps that game. */
module PrematchRules {
  import opened Basics
  import opened LiveStates
  import opened UndoJournals
  import opened Consoles
  import History
  import CS = ControlServer
  import Manual

  /** The posts that start the match: a score, a timeout, a substitution, a set tally, a set begun or removed,
      a reset, a board loaded. Names, the serve and the ends are set before it. */
  predicate StartsTheMatch(a: Manual.Action) {
    match a
    case Point(_, _, _) => true
    case Timeout(_, _, _) => true
    case Sub(_, _, _) => true
    case Sets(_, _, _) => true
    case NextSet => true
    case RemoveSet => true
    case Reset(_) => true
    case SetState(_) => true
    case TeamEdit(_, _, _, _) => false
    case Serve(_) => false
    case Swap => false
    case Unknown => false
  }

  lemma StartsExactly(a: Manual.Action)
    ensures KeepsPrematch(a) <==> !StartsTheMatch(a)
  {
  }

  /** At most one step is left to undo, and it leads back to `b`. */
  predicate OneStepBack(s: CS.Sys<Manual.Board>, b: Manual.Board) {
    && (s.stack == [] || s.stack == [b])
    && |s.log.journal| <= 1
  }

  lemma ApplyAfterTheCut(s: CS.Sys<Manual.Board>, op: IndoorOp)
    requires op.Apply? && s.stack == [] && s.log.journal == []
    ensures OneStepBack(CS.Serve(Indoor(), s, op), s.board)
  {
    hide Indoor, History.Write;
    var t := Indoor().step(s.board, op.a);
    var r := CS.ReportOf(Indoor(), t.board, t.event, op.bestOf, op.stamp);
    hide CS.ReportOf;
    assert Newest([] + [s.board], UNDO_MAX) == [s.board];
    JournalGrows(s.log, Indoor().entry(op.a), r, t.board != s.board);
  }

  lemma JournalGrows(l: History.Log, a: History.LogAction, r: History.Report, undoable: bool)
    requires l.journal == []
    ensures |History.Record(l, a, r, undoable).journal| <= 1
  {
    var l1 := l.(step := if undoable then Some(History.NewStep(l)) else None);
    WriteKeepsTheJournal(l1, a, r);
    hide History.Write;
  }

  lemma CloseKeepsTheJournal(l: History.Log, r: History.Report)
    requires l.current.Some?
    ensures History.Close(l, r).journal == l.journal
  {
    hide History.Score, History.Tally, History.Results, History.Server;
  }

  lemma WriteKeepsTheJournal(l: History.Log, a: History.LogAction, r: History.Report)
    ensures History.Write(l, a, r).journal == l.journal
  {
    hide History.Close, History.UndoesFinish, History.EntryFor, History.Names;
    if !a.Reset? {
      var o := History.Open(l, a, r);
      if o.current.Some? {
        var named := o.(current := Some(o.current.value.(teams := History.Names(r.state))));
        var entry := History.EntryFor(a, r.state);
        CloseKeepsTheJournal(if entry.Some? then History.Push(named, entry.value, r) else named, r);
      }
    }
  }

  lemma FilingLeavesSteps(s: CS.Sys<Manual.Board>, game: Option<int>)
    ensures var n := CS.Serve<Manual.Board, Manual.Input>(Indoor(), s, CS.FileUnder(game));
            n.board == s.board && n.stack == s.stack && n.log.journal == s.log.journal
  {
  }

  /** Undos from there only ever show the board the match started from. */
  lemma {:induction false} UndosStopThere(s: CS.Sys<Manual.Board>, b: Manual.Board, undos: seq<IndoorOp>)
    requires OneStepBack(s, b) && CS.OnlyUndos(undos)
    ensures var n := CS.ServeAll(Indoor(), s, undos);
            n.board in {s.board, b} && OneStepBack(n, b)
    decreases |undos|
  {
    if undos != [] {
      var s1 := CS.Serve(Indoor(), s, undos[0]);
      assert undos[0].TakeBack?;
      UndoStopsThere(s, b, undos[0]);
      hide CS.Serve, Indoor, OneStepBack;
      UndosStopThere(s1, b, undos[1..]);
    }
  }

  lemma UndoStopsThere(s: CS.Sys<Manual.Board>, b: Manual.Board, undo: IndoorOp)
    requires OneStepBack(s, b) && undo.TakeBack?
    ensures var n := CS.Serve(Indoor(), s, undo);
            n.board in {s.board, b} && OneStepBack(n, b)
  {
    hide Indoor, CS.ReportOf;
    if s.stack != [] {
      assert s.stack[..0] == [];
      var r := CS.ReportOf(Indoor(), s.stack[0], Undone, undo.bestOf, undo.stamp);
      UndoShortensTheJournal(s.log, r, undo.words);
    }
  }

  lemma UndoShortensTheJournal(l: History.Log, r: History.Report, words: string)
    ensures |History.UndoLast(l, r, words).journal| <= |l.journal|
  {
    hide History.Without, History.LastIndexOf;
  }

  /** The first post that starts the match ends the pre-match, and nothing from before it can be undone: the
      one step left is its own, and however many undos follow, the board shown is the one it left or the one
      it found. */
  lemma {:induction false} StartCutsTheTrail(
    s: CS.Sys<Manual.Board>, game: Option<int>, bestOf: int, a: Manual.Action, now: int, stamp: int,
    undos: seq<IndoorOp>)
    requires StartsTheMatch(a) && CS.OnlyUndos(undos)
    ensures var n := CS.ServeAll(Indoor(), s, Requests(s, true, game, bestOf, a, now, stamp));
            && OneStepBack(n, s.board)
            && CS.ServeAll(Indoor(), n, undos).board in {n.board, s.board}
  {
    StartsExactly(a);
    hide KeepsPrematch, Meant, Restarts, CurrentGame, Indoor, CS.ServeAll, OneStepBack, CS.OnlyUndos;
    var current := CurrentGame(s.log, true, game);
    var act := CS.Apply(Manual.Input(Meant(s.board, bestOf, a, current), bestOf, now), bestOf, stamp);
    var filing: seq<IndoorOp> := if Restarts(s.board, bestOf, a, current) then [CS.FileUnder(current)] else [];
    ServeRequests(s, [CS.ClearUndo], act, filing);
    var cut := CS.Serve(Indoor(), s, CS.ClearUndo);
    assert cut.board == s.board && cut.stack == [] && cut.log.journal == [];
    ApplyAfterTheCut(cut, act);
    var s2 := CS.Serve(Indoor(), cut, act);
    FilingLeavesSteps(s2, current);
    hide CS.Serve;
    var n := CS.ServeAll(Indoor(), s, Requests(s, true, game, bestOf, a, now, stamp));
    assert OneStepBack(n, s.board) by {
      StepsAlike(s2, n, s.board);
    }
    UndosStopThere(n, s.board, undos);
  }

  lemma StepsAlike(x: CS.Sys<Manual.Board>, y: CS.Sys<Manual.Board>, b: Manual.Board)
    requires OneStepBack(x, b) && y.stack == x.stack && y.log.journal == x.log.journal
    ensures OneStepBack(y, b)
  {
  }

  /** Names, the serve and the ends cut nothing: such a post is the one request, whether the match has begun or
      not. */
  lemma TeamsKeepTheTrail(s: CS.Sys<Manual.Board>, prematch: bool, game: Option<int>, bestOf: int, a: Manual.Action,
                          now: int, stamp: int)
    requires !StartsTheMatch(a)
    ensures Requests(s, prematch, game, bestOf, a, now, stamp)
            == [CS.Apply(Manual.Input(a, bestOf, now), bestOf, stamp)]
  {
  }

  // ---- What a reset keeps -----------------------------------------------------------------------------------

  /** The game on the board: the one the log was set up for, else the one its match is filed under, else, in
      the pre-match, the one that was set up for. */
  function GameOnBoard(l: History.Log, prematch: bool, prematchGame: Option<int>): Option<int> {
    if l.game.Some? then l.game
    else if l.current.Some? && l.current.value.game.Some? then l.current.value.game
    else if prematch then prematchGame
    else None
  }

  /** Somebody has the sets the format asks for. */
  predicate IsWon(b: Manual.Board, bestOf: int) {
    Max(b.m.sets.left, b.m.sets.right) >= if bestOf == 3 then 2 else 3
  }

  lemma RestartsExactly(s: CS.Sys<Manual.Board>, prematch: bool, game: Option<int>, bestOf: int,
                        keep: Option<Pair<Team>>)
    ensures CurrentGame(s.log, prematch, game) == GameOnBoard(s.log, prematch, game)
    ensures Restarts(s.board, bestOf, Manual.Reset(keep), CurrentGame(s.log, prematch, game)) <==>
            GameOnBoard(s.log, prematch, game).Some? && !IsWon(s.board, bestOf)
  {
  }

  /** The next match is filed under the same game exactly when there is one and nobody has won it; after any
      other reset under none. */
  lemma {:induction false} ResetKeepsTheGame(
    s: CS.Sys<Manual.Board>, prematch: bool, game: Option<int>, bestOf: int, keep: Option<Pair<Team>>, now: int,
    stamp: int)
    requires var g := GameOnBoard(s.log, prematch, game); g.Some? ==> g.value > 0
    ensures var n := CS.ServeAll(Indoor(), s,
                                 Requests(s, prematch, game, bestOf, Manual.Reset(keep), now, stamp));
            && n.log.current == None && n.board.m.points == Sided(0, 0) && n.board.m.sets == Sided(0, 0)
            && n.log.game == (if IsWon(s.board, bestOf) then None else GameOnBoard(s.log, prematch, game))
            && (IsWon(s.board, bestOf) || GameOnBoard(s.log, prematch, game) == None ==>
                  n.board.m.teams.left.short == "HOME" && n.board.m.teams.right.short == "AWAY")
  {
    var current := CurrentGame(s.log, prematch, game);
    RestartsExactly(s, prematch, game, bestOf, keep);
    var restarts := Restarts(s.board, bestOf, Manual.Reset(keep), current);
    var act := CS.Apply(Manual.Input(Meant(s.board, bestOf, Manual.Reset(keep), current), bestOf, now), bestOf, stamp);
    var cut: seq<IndoorOp> := if prematch then [CS.ClearUndo] else [];
    var filing: seq<IndoorOp> := if restarts then [CS.FileUnder(current)] else [];
    ServeRequests(s, cut, act, filing);
    var s1 := if prematch then CS.Serve(Indoor(), s, CS.ClearUndo) else s;
    ResetForgets(s1, act);
    var s2 := CS.Serve(Indoor(), s1, act);
    FiledAfterReset(s2, current);
    ResetBoard(s1.board, act.a.action.keep);
    hide CS.Serve, CS.ServeAll, Indoor, Restarts, CurrentGame, GameOnBoard, IsWon, KeepsPrematch, Manual.ResetStep;
    assert Requests(s, prematch, game, bestOf, Manual.Reset(keep), now, stamp) == cut + [act] + filing by {
      StartsExactly(Manual.Reset(keep));
    }
  }

  /** A reset board: nothing scored, called or recorded, the set open, both teams where they started, the left to
      serve - and the left to have opened; kept teams A on the left. */
  lemma ResetBoard(b: Manual.Board, keep: Option<Pair<Team>>)
    ensures var n := Manual.ResetStep(b, keep);
            && n.m.points == n.m.sets == n.m.timeouts == n.m.subs == Sided(0, 0)
            && n.results == [] && !n.setClosed && n.m.setStart == None && !n.m.endsSwapped
            && n.m.serving == n.m.firstServer == Some(Left)
            && (keep.Some? ==> n.m.teams == Sided(keep.value.a, keep.value.b))
            && (keep == None ==> n.m.teams.left.short == "HOME" && n.m.teams.right.short == "AWAY")
  {
  }

  lemma FiledAfterReset(s: CS.Sys<Manual.Board>, game: Option<int>)
    requires s.log.current == None
    ensures var n := CS.Serve<Manual.Board, Manual.Input>(Indoor(), s, CS.FileUnder(game));
            n.board == s.board && n.log.current == None
            && n.log.game == if game.Some? && game.value > 0 then game else None
  {
  }
}
