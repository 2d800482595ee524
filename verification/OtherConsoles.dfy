/** The composed theorems on the beach engine. */
module BeachConsoles {
  import opened Basics
  import opened LiveStates
  import opened UndoJournals
  import opened Beach
  import opened BeachMatches
  import History
  import HU = HistoryUndo
  import HT = HistoryByTeam
  import CS = ControlServer
  import CE = ChangesOfEnds

  /** What the log reads of a beach action. */
  function Logged(a: Action): History.LogAction {
    match a
    case Point(side, delta, typed) => History.Point(side, delta, typed)
    case Timeout(side, delta, typed) => History.Timeout(side, delta, typed)
    case Sub(side, delta, typed) => History.Sub(side, delta, typed)
    case Sets(side, delta, typed) => History.Sets(side, typed)
    case Serve(side) => History.Serve(side)
    case Swap => History.Swap
    case RemoveSet => History.RemoveSet
    case Reset(_) => History.Reset
    case _ => History.Other
  }

  function Served(b: Board, x: Input): CS.Stepped<Board> {
    var t := Step(b, x);
    CS.Stepped(t.board, t.event)
  }

  function Rig(): CS.Rig<Board, Input> {
    CS.Rig(Served, StateOf, (x: Input) => Logged(x.action), false)
  }

  lemma RigIsHonest()
    ensures CS.Honest(Rig())
  {
  }

  function Fresh(endsSwapped: bool, archive: seq<History.Match>, next: nat): CS.Sys<Board> {
    CS.Started(Loaded(NEUTRAL, endsSwapped), archive, next)
  }

  /** After any run of beach requests from a fresh board and a loaded archive, actions are taken back by their
      undos, servers and service turns included. */
  lemma {:induction false} UndoRestoresBoardAndLog(
    start: CS.Sys<Board>, endsSwapped: bool, archive: seq<History.Match>, next: nat, run: seq<CS.Op<Input>>,
    ops: seq<CS.Op<Input>>, undos: seq<CS.Op<Input>>)
    requires HU.ArchiveBelow(archive, next) && start == Fresh(endsSwapped, archive, next)
    requires var s := CS.ServeAll(Rig(), start, run);
             && CS.OnlyActions(ops) && CS.AllAdmissible(Rig(), s, ops)
             && CS.OnlyUndos(undos) && |undos| == CS.Journaled(Rig(), s, ops) <= UNDO_MAX
    ensures CS.UndoneBy(Rig(), CS.ServeAll(Rig(), start, run), ops, undos)
  {
    RigIsHonest();
    CS.FreshIsAligned(start.board, archive, next);
    CS.JournalsStayAligned(Rig(), start, [], run);
    hide CS.UndoneBy, CS.AllAdmissible, Rig, CS.ServeAll;
    CS.ActionsThenUndosRestore(Rig(), CS.ServeAll(Rig(), start, run), ops, undos);
  }

  predicate AllDecided(results: seq<SetResult>) {
    forall i :: 0 <= i < |results| ==> WinnerOf(results[i].score) != None
  }

  function Court(): CE.Court<Board, Input> {
    CE.Court(Rig(), SwapEnds, (x: Input) => x.(action := Mirror(x.action)), Input(Swap, 3, 0),
             (b: Board) => AllDecided(b.results), (x: Input) => NamesItsSide(x.action))
  }

  lemma KeepsDecided(b: Board, x: Input)
    requires AllDecided(b.results) && NamesItsSide(x.action)
    ensures AllDecided(Step(b, x).board.results)
  {
  }

  lemma StepsAlike()
    ensures CE.StepsAlike(Court())
  {
    forall b: Board, x: Input {:trigger Served(b, x)} | AllDecided(b.results) && NamesItsSide(x.action)
      ensures var t := Served(b, x);
              && AllDecided(t.board.results)
              && Served(SwapEnds(b), x.(action := Mirror(x.action))) == CS.Stepped(SwapEnds(t.board), t.event)
    {
      KeepsDecided(b, x);
      NoSideBias(b, x);
    }
  }

  lemma EntryMirrors(a: Action)
    requires NamesItsSide(a)
    ensures HT.NamesItsSide(Logged(a)) && !Logged(a).Reset? && Logged(Mirror(a)) == HT.MirrorEntry(Logged(a))
  {
  }

  lemma ReadsAlike()
    ensures CE.ReadsAlike(Court())
  {
    forall b: Board, f: int {:trigger StateOf(b, f)}
      ensures StateOf(b, f).endsSwapped.Some? && StateOf(SwapEnds(b), f) == ChangeEnds(StateOf(b, f))
    {
      ReportsChangeOfEnds(b, f);
    }
    forall a: Action {:trigger Logged(a)} | NamesItsSide(a)
      ensures HT.NamesItsSide(Logged(a)) && !Logged(a).Reset? && Logged(Mirror(a)) == HT.MirrorEntry(Logged(a))
    {
      EntryMirrors(a);
    }
    hide StateOf, SwapEnds, ChangeEnds, Logged, Mirror, NamesItsSide, HT.MirrorEntry, HT.NamesItsSide;
  }

  lemma Swaps()
    ensures CE.Swaps(Court())
  {
    forall b: Board
      ensures SwapEnds(SwapEnds(b)) == b
    {
      SwapTwice(b);
    }
  }

  /** The beach log is by team. */
  lemma {:induction false} LogIsByTeam(s: CS.Sys<Board>, items: seq<CE.Item<Input>>)
    requires AllDecided(s.board.results) && CE.AllScoring(Court().scoring, items)
    requires CE.BelowCap(Court(), s, s, false, items)
    ensures var straight, turned := CE.Straight(Court(), s, items), CE.Turned(Court(), s, false, items);
            && turned.board == (if CE.IsFlipped(false, items) then SwapEnds(straight.board) else straight.board)
            && HT.SameStory(straight.log, turned.log)
  {
    StepsAlike();
    ReadsAlike();
    Swaps();
    CE.LogIsByTeam(Court(), s, s, false, items);
  }
}

/** The composed theorems on the basketball engine. */
module BasketballConsoles {
  import opened Basics
  import opened LiveStates
  import opened UndoJournals
  import opened Basketball
  import History
  import HU = HistoryUndo
  import HT = HistoryByTeam
  import CS = ControlServer
  import CE = ChangesOfEnds

  /** What the log reads of a basketball action. A typed period carries no side. */
  function Logged(a: Action): History.LogAction {
    match a
    case Point(side, delta, typed) => History.Point(side, delta, typed)
    case Foul(side, delta, typed) => History.Sub(side, delta, typed)
    case Timeout(side, delta, typed) => History.Timeout(side, delta, typed)
    case Period(_, typed) => History.Sets(None, typed)
    case Serve(side) => History.Serve(side)
    case Swap => History.Swap
    case RemovePeriod => History.RemoveSet
    case Reset(_) => History.Reset
    case _ => History.Other
  }

  function Served(b: Board, a: Action): CS.Stepped<Board> {
    var t := Step(b, a);
    CS.Stepped(t.board, t.event)
  }

  function Rig(): CS.Rig<Board, Action> {
    CS.Rig(Served, (b: Board, f: int) => StateOf(b), Logged, true)
  }

  lemma RigIsHonest()
    ensures CS.Honest(Rig())
  {
  }

  function Fresh(endsSwapped: bool, archive: seq<History.Match>, next: nat): CS.Sys<Board> {
    CS.Started(Loaded(NEUTRAL, endsSwapped), archive, next)
  }

  /** After any run of basketball requests from a fresh board and a loaded archive, actions are taken back by
      their undos, fouls, period and line score included. */
  lemma {:induction false} UndoRestoresBoardAndLog(
    start: CS.Sys<Board>, endsSwapped: bool, archive: seq<History.Match>, next: nat, run: seq<CS.Op<Action>>,
    ops: seq<CS.Op<Action>>, undos: seq<CS.Op<Action>>)
    requires HU.ArchiveBelow(archive, next) && start == Fresh(endsSwapped, archive, next)
    requires var s := CS.ServeAll(Rig(), start, run);
             && CS.OnlyActions(ops) && CS.AllAdmissible(Rig(), s, ops)
             && CS.OnlyUndos(undos) && |undos| == CS.Journaled(Rig(), s, ops) <= UNDO_MAX
    ensures CS.UndoneBy(Rig(), CS.ServeAll(Rig(), start, run), ops, undos)
  {
    RigIsHonest();
    CS.FreshIsAligned(start.board, archive, next);
    CS.JournalsStayAligned(Rig(), start, [], run);
    hide CS.UndoneBy, CS.AllAdmissible, Rig, CS.ServeAll;
    CS.ActionsThenUndosRestore(Rig(), CS.ServeAll(Rig(), start, run), ops, undos);
  }

  function Mirror(a: Action): Action {
    match a
    case Point(side, delta, typed) => Point(Across(side), delta, typed)
    case Foul(side, delta, typed) => Foul(Across(side), delta, typed)
    case Timeout(side, delta, typed) => Timeout(Across(side), delta, typed)
    case Serve(side) => Serve(Across(side))
    case TeamEdit(side, name, short, color) => TeamEdit(Across(side), name, short, color)
    case _ => a
  }

  /** A typed period is logged for whoever stands on the left. */
  predicate Scoring(a: Action) {
    match a
    case Point(side, _, _) => side.Some?
    case Foul(side, _, _) => side.Some?
    case Timeout(side, _, _) => side.Some?
    case Serve(side) => side.Some?
    case TeamEdit(side, _, _, _) => side.Some?
    case Period(_, _) => false
    case Reset(_) => false
    case SetState(_) => false
    case _ => true
  }

  /** The basketball engine has no left/right bias, in any state. */
  lemma NoSideBias(b: Board, a: Action)
    requires Scoring(a)
    ensures var t := Step(b, a);
            Step(SwapEnds(b), Mirror(a)) == Outcome(SwapEnds(t.board), t.event)
  {
    match a
    case EndPeriod =>
      FlipAppend(b.results, SetResult(b.m.points, None));
    case RemovePeriod =>
      if b.results != [] {
        FlipDropLast(b.results);
      }
    case Swap =>
    case _ =>
  }

  function Court(): CE.Court<Board, Action> {
    CE.Court(Rig(), SwapEnds, Mirror, Swap, (b: Board) => true, Scoring)
  }

  lemma StepsAlike()
    ensures CE.StepsAlike(Court())
  {
    forall b: Board, a: Action {:trigger Served(b, a)} | Scoring(a)
      ensures var t := Served(b, a); Served(SwapEnds(b), Mirror(a)) == CS.Stepped(SwapEnds(t.board), t.event)
    {
      NoSideBias(b, a);
    }
    hide Step, SwapEnds, Mirror, Scoring, Served;
  }

  lemma EntryMirrors(a: Action)
    requires Scoring(a)
    ensures HT.NamesItsSide(Logged(a)) && !Logged(a).Reset? && Logged(Mirror(a)) == HT.MirrorEntry(Logged(a))
  {
  }

  lemma ReadsAlike()
    ensures CE.ReadsAlike(Court())
  {
    forall b: Board {:trigger StateOf(b)}
      ensures StateOf(b).endsSwapped.Some? && StateOf(SwapEnds(b)) == ChangeEnds(StateOf(b))
    {
      ReportsChangeOfEnds(b);
    }
    forall a: Action {:trigger Logged(a)} | Scoring(a)
      ensures HT.NamesItsSide(Logged(a)) && !Logged(a).Reset? && Logged(Mirror(a)) == HT.MirrorEntry(Logged(a))
    {
      EntryMirrors(a);
    }
    hide StateOf, SwapEnds, ChangeEnds, Logged, Mirror, HT.MirrorEntry, HT.NamesItsSide, Scoring;
  }

  lemma Swaps()
    ensures CE.Swaps(Court())
  {
    forall b: Board {:trigger SwapEnds(b)}
      ensures SwapEnds(SwapEnds(b)) == b
    {
      FlipResultsTwice(b.results);
    }
  }

  /** That input: a typed period is filed under one team or the other by where they stand. */
  lemma TypedPeriodIsNotByTeam(b: Board, delta: int, typed: Option<int>)
    ensures var entry := Logged(Period(delta, typed));
            History.EntryFor(entry, StateOf(SwapEnds(b))) != History.EntryFor(entry, StateOf(b))
  {
  }

  /** The basketball log is by team, typed periods aside. */
  lemma {:induction false} LogIsByTeam(s: CS.Sys<Board>, items: seq<CE.Item<Action>>)
    requires CE.AllScoring(Court().scoring, items) && CE.BelowCap(Court(), s, s, false, items)
    ensures var straight, turned := CE.Straight(Court(), s, items), CE.Turned(Court(), s, false, items);
            && turned.board == (if CE.IsFlipped(false, items) then SwapEnds(straight.board) else straight.board)
            && HT.SameStory(straight.log, turned.log)
  {
    StepsAlike();
    ReadsAlike();
    Swaps();
    CE.LogIsByTeam(Court(), s, s, false, items);
  }
}
