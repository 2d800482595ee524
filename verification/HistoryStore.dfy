/** The match log (src/historyStore.js): the play-by-play of the match in progress, the archive of
    finished matches, and the log's own undo journal. Everything in it is by TEAM. */
module History {
  import opened Basics
  import opened LiveStates
  import opened UndoJournals

  const MAX_MATCHES: nat := 100
  const MAX_EVENTS: nat := 4000
  const MAX_UNDO: nat := 30

  /** An applied action as the log reads it; `Other` is any action it has no entry for. */
  datatype LogAction =
    | Point(side: Option<Side>, delta: int, typed: Option<int>)
    | Timeout(side: Option<Side>, delta: int, typed: Option<int>)
    | Sub(side: Option<Side>, delta: int, typed: Option<int>)
    | Sets(side: Option<Side>, typed: Option<int>)
    | Serve(side: Option<Side>)
    | Swap
    | RemoveSet
    | Reset
    | Other

  datatype Counter = Points | Timeouts | Subs

  datatype What =
    | Tapped(counter: Counter, team: TeamId, delta: int)
    | Typed(counter: Counter, team: TeamId, v: int)
    | Served(team: TeamId)
    | EndsChanged
    | TallySet(team: TeamId, typed: Option<int>)
    | SetRemoved
    | SetEnded(number: int, score: Pair<int>, dur: Option<int>)
    | SwitchWasDue
    | PeriodEnded(period: int)
    | MatchOver
    | TakenBack(words: string)

  /** One log entry. `uid` is its identity as an object, so two equal values are one object; `tracked`
      says a journal step remembers it. `stamp` stands for its wall-clock and monotonic stamps. */
  datatype Entry = Entry(uid: nat, what: What, stamp: int, score: Pair<int>, sets: Pair<int>,
                         srv: Option<TeamId>, tracked: bool)

  /** The match in progress. */
  datatype Buffer = Buffer(id: nat, date: int, game: Option<int>, teams: Pair<string>, events: seq<Entry>)

  /** An archived match; `oid` is its identity as an object, so two equal values are one object. */
  datatype Match = Match(oid: nat, id: nat, date: int, game: Option<int>, teams: Pair<string>,
                         result: Pair<int>, sets: seq<PairResult>, events: seq<Entry>)

  datatype Finished = Finished(match_: Match, gameEnd: bool)

  /** What one undoable action did to the log. */
  datatype Step = Step(pushed: seq<Entry>, finished: Option<Finished>, reopened: Option<Finished>,
                       started: bool, reset: bool, prevCurrent: Option<Buffer>, prevFinished: Option<Finished>)

  datatype Log = Log(matches: seq<Match>, current: Option<Buffer>, lastFinished: Option<Finished>,
                     journal: seq<Step>, step: Option<Step>, game: Option<int>, next: nat)

  /** The board after an action, and what record() is told with it. */
  datatype Report = Report(state: LiveState, event: Event, stamp: int, basketball: bool)

  /** A log as it starts, with the archive it read from disk. */
  function Started(archive: seq<Match>, next: nat): Log {
    Log(archive, None, None, [], None, None, next)
  }

  const EMPTY: Log := Started([], 0)

  // ---- The state by team --------------------------------------------------------------------

  function Swapped(s: LiveState): bool {
    s.endsSwapped.GetOr(false)
  }

  /** a/b naming the same team from the first rally to the last. */
  function ByTeam<T>(p: Pair<T>, swapped: bool): Pair<T> {
    if swapped then p.Flipped() else p
  }

  function Shown(t: Team, default: string): string {
    if t.short != "" then t.short else if t.name != "" then t.name else default
  }

  function Names(s: LiveState): Pair<string> {
    var t := ByTeam(s.teams, Swapped(s));
    Pair(Shown(t.a, "A"), Shown(t.b, "B"))
  }

  function Score(s: LiveState): Pair<int> {
    ByTeam(s.points, Swapped(s))
  }

  function Tally(s: LiveState): Pair<int> {
    ByTeam(s.sets, Swapped(s))
  }

  function Results(s: LiveState): (r: seq<PairResult>) {
    if Swapped(s) then FlipPairResults(s.results) else s.results
  }

  function Server(r: Report): Option<TeamId> {
    if r.basketball || r.state.serving == None then None
    else Some(TeamOn(r.state.serving.value, Swapped(r.state)))
  }

  function TeamOf(side: Option<Side>, s: LiveState): TeamId {
    TeamOn(side.GetOr(Left), Swapped(s))
  }

  function Total(p: Pair<int>): int {
    p.a + p.b
  }

  // ---- Writing the log ----------------------------------------------------------------------

  function Push(l: Log, what: What, r: Report): Log
    requires l.current.Some?
  {
    var c := l.current.value;
    if |c.events| < MAX_EVENTS then
      var e := Entry(l.next, what, r.stamp, Score(r.state), Tally(r.state), Server(r), l.step.Some?);
      l.(current := Some(c.(events := c.events + [e])),
      step := if l.step.Some? then Some(l.step.value.(pushed := l.step.value.pushed + [e])) else None,
      next := l.next + 1)
    else l
  }

  predicate Scoring(a: LogAction) {
    a.Point? || a.Sets? || a.Timeout? || a.Sub? || a.Serve?
  }

  /** The actions that can take the end of a match back. */
  predicate TakesBack(a: LogAction) {
    (a.Point? && a.delta < 0) || a.RemoveSet?
  }

  /** Did this action take back the result that closed the last archived match? */
  predicate UndoesFinish(l: Log, a: LogAction, s: LiveState)
    requires l.lastFinished.Some?
  {
    var f := l.lastFinished.value;
    && TakesBack(a)
    && l.matches != [] && l.matches[|l.matches| - 1] == f.match_
    && (if f.gameEnd then !s.over else Total(Tally(s)) < Total(f.match_.result))
  }

  /** The play-by-play of a match without the "match over" its finish wrote. */
  function Unfinished(events: seq<Entry>): seq<Entry> {
    if events != [] && events[|events| - 1].what.MatchOver? then events[..|events| - 1] else events
  }

  function Reopen(l: Log): Log
    requires l.lastFinished.Some? && l.matches != []
  {
    var m := l.lastFinished.value.match_;
    l.(matches := l.matches[..|l.matches| - 1],
    current := Some(Buffer(m.id, m.date, m.game, m.teams, Unfinished(m.events))),
    lastFinished := None,
    step := if l.step.Some? then Some(l.step.value.(reopened := l.lastFinished)) else None)
  }

  function Start(l: Log, r: Report): Log {
    l.(current := Some(Buffer(l.next, r.stamp, l.game, Names(r.state), [])),
    lastFinished := None,
    step := if l.step.Some? then Some(l.step.value.(started := true)) else None,
    next := l.next + 1)
  }

  /** The entry an action leaves, if any. */
  function EntryFor(a: LogAction, s: LiveState): Option<What> {
    match a
    case Point(side, delta, typed) => CountEntry(Points, TeamOf(side, s), delta, typed)
    case Timeout(side, delta, typed) => CountEntry(Timeouts, TeamOf(side, s), delta, typed)
    case Sub(side, delta, typed) => CountEntry(Subs, TeamOf(side, s), delta, typed)
    case Sets(side, typed) => Some(TallySet(TeamOf(side, s), typed))
    case Serve(side) => Some(Served(TeamOf(side, s)))
    case Swap => Some(EndsChanged)
    case RemoveSet => Some(SetRemoved)
    case _ => None
  }

  function CountEntry(c: Counter, team: TeamId, delta: int, typed: Option<int>): Option<What> {
    if delta != 0 then Some(Tapped(c, team, delta))
    else if typed.Some? then Some(Typed(c, team, typed.value))
    else None
  }

  function ClosingSet(s: LiveState): What {
    var rs := Results(s);
    var last := if rs == [] then PairResult(Score(s), None) else rs[|rs| - 1];
    SetEnded(Total(Tally(s)), last.score, SetDur(last.dur))
  }

  function Finish(l: Log, r: Report, gameEnd: bool): Log
    requires l.current.Some?
  {
    var c := l.current.value;
    var m := Match(l.next, c.id, c.date, c.game, c.teams,
                   if gameEnd then Score(r.state) else Tally(r.state), Timed(Results(r.state)), c.events);
    var f := Some(Finished(m, gameEnd));
    l.(matches := Newest(l.matches + [m], MAX_MATCHES),
    current := None,
    lastFinished := f,
    step := if l.step.Some? then Some(l.step.value.(finished := f)) else None,
    next := l.next + 1)
  }

  /** What the action raised: the close of a set or period, a switch that is due, the end of the match. */
  function Close(l: Log, r: Report): Log
    requires l.current.Some?
  {
    var period := Max(1, r.state.period);
    match r.event
    case SetEnd => Push(l, ClosingSet(r.state), r)
    case SwitchDue => Push(l, SwitchWasDue, r)
    case PeriodEnd => Push(l, PeriodEnded(period - 1), r)
    case MatchEnd => Finish(Push(Push(l, ClosingSet(r.state), r), MatchOver, r), r, false)
    case GameEnd => Finish(Push(Push(l, PeriodEnded(period), r), MatchOver, r), r, true)
    case _ => l
  }

  /** The match the action belongs to: reopened, started, or the one in progress. */
  function Open(l: Log, a: LogAction, r: Report): Log {
    var l1 :=
      if l.current == None && l.lastFinished.Some? && UndoesFinish(l, a, r.state) then Reopen(l) else l;
    if l1.current == None && Scoring(a) then Start(l1, r) else l1
  }

  function Fill(l: Log, a: LogAction, r: Report): Log
    requires l.current.Some?
  {
    var named := l.(current := Some(l.current.value.(teams := Names(r.state))));
    var entry := EntryFor(a, r.state);
    Close(if entry.Some? then Push(named, entry.value, r) else named, r)
  }

  function Write(l: Log, a: LogAction, r: Report): Log {
    if a.Reset? then
      l.(current := None, lastFinished := None, game := None,
      step := if l.step.Some? then Some(l.step.value.(reset := true)) else None)
    else
      var at := Open(l, a, r);
      if at.current == None then at else Fill(at, a, r)
  }

  function NewStep(l: Log): Step {
    Step([], None, None, false, false, l.current, l.lastFinished)
  }

  /** record(): one applied action, journaled when the source journaled it. */
  function Record(l: Log, a: LogAction, r: Report, undoable: bool): Log {
    var w := Write(l.(step := if undoable then Some(NewStep(l)) else None), a, r);
    w.(journal := if w.step.Some? then Newest(w.journal + [w.step.value], MAX_UNDO) else w.journal,
    step := None)
  }

  // ---- Taking it back -------------------------------------------------------------------------

  function Without(events: seq<Entry>, gone: seq<Entry>): (kept: seq<Entry>)
    ensures |kept| <= |events|
  {
    if events == [] then []
    else
      var init := Without(events[..|events| - 1], gone);
      var e := events[|events| - 1];
      if e in gone then init else init + [e]
  }

  /** Where a match object last stands in the archive, or -1. */
  function LastIndexOf(matches: seq<Match>, m: Match): (i: int)
    ensures -1 <= i < |matches|
    ensures i >= 0 ==> matches[i] == m
  {
    if matches == [] then -1
    else if matches[|matches| - 1] == m then |matches| - 1
    else LastIndexOf(matches[..|matches| - 1], m)
  }

  /** An undone action that archived the match: it comes off the archive again. */
  function Unarchive(l: Log, m: Match): Log {
    var i := LastIndexOf(l.matches, m);
    if i == -1 then l
    else
      l.(matches := l.matches[..i] + l.matches[i + 1..],
      current := Some(Buffer(m.id, m.date, m.game, m.teams, m.events)),
      lastFinished := None)
  }

  function Erase(l: Log, gone: seq<Entry>): Log {
    if l.current.Some? && gone != []
    then l.(current := Some(l.current.value.(events := Without(l.current.value.events, gone))))
    else l
  }

  function Revert(l: Log, e: Step): Log {
    if e.reset then l.(current := e.prevCurrent, lastFinished := e.prevFinished)
    else
      var l1 := if e.finished.Some? then Unarchive(l, e.finished.value.match_) else l;
      var l2 := Erase(l1, e.pushed);
      if e.reopened.Some? then
        l2.(matches := l2.matches + [e.reopened.value.match_], current := None, lastFinished := e.reopened)
      else if e.started && l2.current.Some? && l2.current.value.events == [] then
        l2.(current := e.prevCurrent, lastFinished := e.prevFinished)
      else l2
  }

  /** The console's undo: the last journaled step comes off the log, and one marker stays. */
  function UndoLast(l: Log, r: Report, words: string): Log {
    var l1 :=
      if l.journal == [] then l
      else Revert(l.(journal := l.journal[..|l.journal| - 1]), l.journal[|l.journal| - 1]);
    if l1.current.Some? then Push(l1, TakenBack(words), r) else l1
  }

  /** The fixture the board is set up for, or the one the match in progress was filed against. */
  function GameOf(l: Log): Option<int> {
    if l.game.Some? then l.game else if l.current.Some? then l.current.value.game else None
  }

  /** The fixture the next match is for; a match with entries keeps the one it was filed against. */
  function Filed(l: Log, id: Option<int>): Log {
    var game := if id.Some? && id.value > 0 then id else None;
    l.(game := game,
    current := if l.current.Some? && game.Some? && l.current.value.game == None && l.current.value.events == []
               then Some(l.current.value.(game := game)) else l.current)
  }

  function Cleared(l: Log): Log {
    l.(matches := [], current := None, lastFinished := None, journal := [])
  }

  // ---- The store --------------------------------------------------------------------------------

  class HistoryStore {
    var matches: seq<Match>
    var current: Option<Buffer>
    var lastFinished: Option<Finished>
    var journal: seq<Step>
    var step: Option<Step>
    var game: Option<int>
    var next: nat // the next object identity

    function View(): Log
      reads this
    {
      Log(matches, current, lastFinished, journal, step, game, next)
    }

    /** The archive is read from disk; `next` is above the identities of what it holds. */
    constructor (archive: seq<Match>, next: nat)
      ensures View() == Started(archive, next)
    {
      matches, current, lastFinished, journal, step, game := archive, None, None, [], None, None;
      this.next := next;
    }

    method PushEntry(what: What, r: Report)
      requires current.Some?
      modifies this`current, this`step, this`next
      ensures View() == Push(old(View()), what, r)
    {
      var c := current.value;
      if |c.events| < MAX_EVENTS {
        var e := Entry(next, what, r.stamp, Score(r.state), Tally(r.state), Server(r), step.Some?);
        current := Some(c.(events := c.events + [e]));
        if step.Some? {
          step := Some(step.value.(pushed := step.value.pushed + [e]));
        }
        next := next + 1;
      }
    }

    method ReopenMatch()
      requires lastFinished.Some? && matches != []
      modifies this`matches, this`current, this`lastFinished, this`step
      ensures View() == Reopen(old(View()))
    {
      var m := lastFinished.value.match_;
      if step.Some? {
        step := Some(step.value.(reopened := lastFinished));
      }
      matches := matches[..|matches| - 1];
      var events := m.events;
      if events != [] && events[|events| - 1].what.MatchOver? {
        events := events[..|events| - 1];
      }
      current := Some(Buffer(m.id, m.date, m.game, m.teams, events));
      lastFinished := None;
    }

    method StartMatch(r: Report)
      modifies this`current, this`lastFinished, this`step, this`next
      ensures View() == Start(old(View()), r)
    {
      current := Some(Buffer(next, r.stamp, game, Names(r.state), []));
      if step.Some? {
        step := Some(step.value.(started := true));
      }
      lastFinished := None;
      next := next + 1;
    }

    method FinishMatch(r: Report, gameEnd: bool)
      requires current.Some?
      modifies this`matches, this`current, this`lastFinished, this`step, this`next
      ensures View() == Finish(old(View()), r, gameEnd)
    {
      var c := current.value;
      var result := if gameEnd then Score(r.state) else Tally(r.state);
      var m := Match(next, c.id, c.date, c.game, c.teams, result, Timed(Results(r.state)), c.events);
      matches := matches + [m];
      if |matches| > MAX_MATCHES {
        matches := matches[|matches| - MAX_MATCHES..];
      }
      current := None;
      lastFinished := Some(Finished(m, gameEnd));
      if step.Some? {
        step := Some(step.value.(finished := lastFinished));
      }
      next := next + 1;
    }

    method CloseAfter(r: Report)
      requires current.Some?
      modifies this`matches, this`current, this`lastFinished, this`step, this`next
      ensures View() == Close(old(View()), r)
    {
      var period := Max(1, r.state.period);
      if r.event == SetEnd {
        PushEntry(ClosingSet(r.state), r);
      } else if r.event == SwitchDue {
        PushEntry(SwitchWasDue, r);
      } else if r.event == PeriodEnd {
        PushEntry(PeriodEnded(period - 1), r);
      } else if r.event == MatchEnd {
        PushEntry(ClosingSet(r.state), r);
        PushEntry(MatchOver, r);
        FinishMatch(r, false);
      } else if r.event == GameEnd {
        PushEntry(PeriodEnded(period), r);
        PushEntry(MatchOver, r);
        FinishMatch(r, true);
      }
    }

    /** Names, the action's own entry, and what it closed. */
    method FillMatch(a: LogAction, r: Report)
      requires current.Some?
      modifies this
      ensures View() == Fill(old(View()), a, r)
    {
      current := Some(current.value.(teams := Names(r.state)));
      var entry := EntryFor(a, r.state);
      if entry.Some? {
        PushEntry(entry.value, r);
      }
      CloseAfter(r);
    }

    /** The log's `_record`: everything but the journal step around it. */
    method WriteAction(a: LogAction, r: Report)
      modifies this
      ensures View() == Write(old(View()), a, r)
    {
      if a.Reset? {
        if step.Some? {
          step := Some(step.value.(reset := true));
        }
        current, lastFinished, game := None, None, None;
        return;
      }
      if current == None && lastFinished.Some? && UndoesFinish(View(), a, r.state) {
        ReopenMatch();
      }
      if current == None && Scoring(a) {
        StartMatch(r);
      }
      if current == None {
        return;
      }
      FillMatch(a, r);
    }

    method RecordAction(a: LogAction, r: Report, undoable: bool)
      modifies this
      ensures View() == Record(old(View()), a, r, undoable)
    {
      hide Write;
      step := if undoable then Some(NewStep(View())) else None;
      WriteAction(a, r);
      if step.Some? {
        journal := journal + [step.value];
        if |journal| > MAX_UNDO {
          journal := journal[|journal| - MAX_UNDO..];
        }
      }
      step := None;
    }

    /** Undoes what step `e` did to the log. */
    method RevertStep(e: Step)
      modifies this`matches, this`current, this`lastFinished
      ensures View() == Revert(old(View()), e)
    {
      if e.reset {
        current, lastFinished := e.prevCurrent, e.prevFinished;
        return;
      }
      if e.finished.Some? {
        var m := e.finished.value.match_;
        var i := LastIndexOf(matches, m);
        if i != -1 {
          matches := matches[..i] + matches[i + 1..];
          current := Some(Buffer(m.id, m.date, m.game, m.teams, m.events));
          lastFinished := None;
        }
      }
      if current.Some? && e.pushed != [] {
        current := Some(current.value.(events := Without(current.value.events, e.pushed)));
      }
      if e.reopened.Some? {
        matches := matches + [e.reopened.value.match_];
        current := None;
        lastFinished := e.reopened;
      } else if e.started && current.Some? && current.value.events == [] {
        current, lastFinished := e.prevCurrent, e.prevFinished;
      }
    }

    method UndoLastAction(r: Report, words: string)
      modifies this
      ensures View() == UndoLast(old(View()), r, words)
    {
      if journal != [] {
        var e := journal[|journal| - 1];
        journal := journal[..|journal| - 1];
        RevertStep(e);
      }
      if current.Some? {
        PushEntry(TakenBack(words), r);
      }
    }

    method ClearUndo()
      modifies this`journal
      ensures View() == old(View()).(journal := [])
    {
      journal := [];
    }

    method Clear()
      modifies this
      ensures View() == Cleared(old(View()))
      ensures matches == [] && current == None && lastFinished == None && journal == []
      ensures game == old(game) && step == old(step) && next == old(next)
    {
      matches, current, lastFinished, journal := [], None, None, [];
    }

    method SetGame(id: Option<int>)
      modifies this`game, this`current
      ensures View() == Filed(old(View()), id)
      ensures game == if id.Some? && id.value > 0 then id else None
      ensures current == if old(current).Some? && game.Some? && old(current).value.game == None
                            && old(current).value.events == []
                         then Some(old(current).value.(game := game)) else old(current)
    {
      game := if id.Some? && id.value > 0 then id else None;
      if current.Some? && game.Some? && current.value.game == None && current.value.events == [] {
        current := Some(current.value.(game := game));
      }
    }
  }
}
