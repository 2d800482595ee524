/** What the log says of an action: which team it credits, with what score, and what it closes. Said of the
    boards before and after, by where the teams stand. */
module LogCredits {
  import opened Basics
  import opened LiveStates
  import opened UndoJournals
  import opened History
  import opened HistoryUndo

  // ---- The log's side of it -----------------------------------------------------------------------------

  /** The entries of the match in progress. */
  function InProgress(l: Log): seq<Entry> {
    if l.current.Some? then l.current.value.events else []
  }

  /** The play-by-play of the match in progress, or of the one just archived. */
  function PlayByPlay(l: Log): seq<Entry> {
    if l.current.Some? then l.current.value.events
    else if l.matches != [] then l.matches[|l.matches| - 1].events
    else []
  }

  function TeamNames(l: Log): Pair<string> {
    if l.current.Some? then l.current.value.teams
    else if l.matches != [] then l.matches[|l.matches| - 1].teams
    else Pair("", "")
  }

  function Of<T>(p: Pair<T>, t: TeamId): T {
    if t == TeamA then p.a else p.b
  }

  /** The team on `side`: A stands on the left until the ends are changed. */
  function Standing(side: Side, swapped: bool): TeamId {
    if swapped == (side == Right) then TeamA else TeamB
  }

  function OnSide<T>(p: Pair<T>, side: Side): T {
    if side == Left then p.a else p.b
  }

  /** By team is by where they stand. */
  lemma StandsByTeam<T>(p: Pair<T>, side: Side, swapped: bool)
    ensures Of(ByTeam(p, swapped), Standing(side, swapped)) == OnSide(p, side)
    ensures Standing(side.Other(), swapped) == Standing(side, swapped).Other()
  {
  }

  /** What the board says when the entry is made. */
  predicate Stamped(e: Entry, r: Report, tracked: bool) {
    && e.score == Score(r.state) && e.sets == Tally(r.state) && e.srv == Server(r)
    && e.stamp == r.stamp && e.tracked == tracked
  }

  /** How many entries follow an action's own: the set, switch or period it closed, and the end of the match. */
  function Closes(e: Event): nat {
    match e
    case SetEnd => 1
    case SwitchDue => 1
    case PeriodEnd => 1
    case MatchEnd => 2
    case GameEnd => 2
    case _ => 0
  }

  /** An action with an entry of its own, in a match with room: the play-by-play goes on with that entry and
      what the action closed, every one stamped with the board after it; the match has the names on the
      board, and is archived exactly when it is over. */
  predicate GoesOnWith(l: Log, n: Log, what: What, r: Report, tracked: bool) {
    var k := |InProgress(l)|;
    var events := PlayByPlay(n);
    && |events| == k + 1 + Closes(r.event)
    && events[..k] == InProgress(l) && events[k].what == what
    && (forall i :: k <= i < |events| ==> Stamped(events[i], r, tracked))
    && TeamNames(n) == Names(r.state)
    && (n.current.Some? <==> r.event !in {MatchEnd, GameEnd})
    && n.game == l.game
    && (if n.current.Some? then n.matches == l.matches
        else |n.matches| >= 1 && n.matches == Newest(l.matches + [n.matches[|n.matches| - 1]], MAX_MATCHES))
  }

  predicate HasSpace(l: Log) {
    |InProgress(l)| + 3 <= 4000
  }

  lemma PushAdds(l: Log, what: What, r: Report)
    requires l.current.Some? && |InProgress(l)| < MAX_EVENTS
    ensures var n := Push(l, what, r);
            && n.current.Some? && |InProgress(n)| == |InProgress(l)| + 1
            && InProgress(n)[..|InProgress(l)|] == InProgress(l)
            && InProgress(n)[|InProgress(l)|].what == what
            && Stamped(InProgress(n)[|InProgress(l)|], r, l.step.Some?)
            && n.step.Some? == l.step.Some? && n.matches == l.matches && n.game == l.game
            && n.current.value.(events := []) == l.current.value.(events := [])
  {
  }

  /** What an action closed follows its entry. */
  predicate ClosedAfter(l: Log, n: Log, r: Report) {
    var k := |InProgress(l)|;
    var events := PlayByPlay(n);
    && |events| == k + Closes(r.event) && events[..k] == InProgress(l)
    && (forall i :: k <= i < |events| ==> Stamped(events[i], r, l.step.Some?))
    && TeamNames(n) == TeamNames(l)
    && (n.current.Some? <==> r.event !in {MatchEnd, GameEnd})
    && n.game == l.game
    && (if n.current.Some? then n.matches == l.matches
        else |n.matches| >= 1 && n.matches == Newest(l.matches + [n.matches[|n.matches| - 1]], MAX_MATCHES))
  }

  lemma FinishArchivesTheLog(l: Log, r: Report, gameEnd: bool)
    requires l.current.Some?
    ensures var n := Finish(l, r, gameEnd);
            && n.current == None && n.game == l.game && n.matches != []
            && var m := n.matches[|n.matches| - 1];
               && n.matches == Newest(l.matches + [m], MAX_MATCHES)
               && m.events == InProgress(l) && m.teams == TeamNames(l)
               && m.game == l.current.value.game && m.id == l.current.value.id && m.date == l.current.value.date
               && m.result == (if gameEnd then Score(r.state) else Tally(r.state))
               && m.sets == Timed(Results(r.state))
  {
  }

  lemma EndIsLogged(l: Log, r: Report, closing: What, gameEnd: bool)
    requires l.current.Some? && |InProgress(l)| + 2 <= MAX_EVENTS
    ensures var p := Push(l, closing, r);
            p.current.Some? && Push(p, MatchOver, r).current.Some?
            && var n := Finish(Push(p, MatchOver, r), r, gameEnd);
               var k := |InProgress(l)|;
               && n.current == None && |PlayByPlay(n)| == k + 2 && PlayByPlay(n)[..k] == InProgress(l)
               && PlayByPlay(n)[k].what == closing && PlayByPlay(n)[k + 1].what == MatchOver
               && Stamped(PlayByPlay(n)[k], r, l.step.Some?) && Stamped(PlayByPlay(n)[k + 1], r, l.step.Some?)
               && TeamNames(n) == TeamNames(l) && n.game == l.game && n.matches != []
               && var m := n.matches[|n.matches| - 1];
                  && n.matches == Newest(l.matches + [m], MAX_MATCHES)
                  && m.game == l.current.value.game && m.id == l.current.value.id && m.date == l.current.value.date
                  && m.result == (if gameEnd then Score(r.state) else Tally(r.state))
                  && m.sets == Timed(Results(r.state))
  {
    var p := Push(l, closing, r);
    PushAdds(l, closing, r);
    PushAdds(p, MatchOver, r);
    FinishArchivesTheLog(Push(p, MatchOver, r), r, gameEnd);
    hide Push, Finish, Stamped;
    var k := |InProgress(l)|;
    var q := Push(p, MatchOver, r);
    assert InProgress(q)[..k] == InProgress(q)[..k + 1][..k];
    assert InProgress(q)[k] == InProgress(q)[..k + 1][k];
  }

  /** The last set as the log files it: how many sets have been played, the score by team, the time. */
  predicate FilesTheSet(what: What, r: Report) {
    && what.SetEnded? && what.number == Of(Tally(r.state), TeamA) + Of(Tally(r.state), TeamB)
    && (Results(r.state) != [] ==>
          && what.score == Results(r.state)[|Results(r.state)| - 1].score
          && what.dur == SetDur(Results(r.state)[|Results(r.state)| - 1].dur))
  }

  predicate ClosesWith(n: Log, k: nat, r: Report)
    requires |PlayByPlay(n)| == k + Closes(r.event)
  {
    var events := PlayByPlay(n);
    match r.event
    case SetEnd => FilesTheSet(events[k].what, r)
    case SwitchDue => events[k].what == SwitchWasDue
    case PeriodEnd => events[k].what == PeriodEnded(Max(1, r.state.period) - 1)
    case MatchEnd => FilesTheSet(events[k].what, r) && events[k + 1].what == MatchOver
    case GameEnd => events[k].what == PeriodEnded(Max(1, r.state.period)) && events[k + 1].what == MatchOver
    case _ => true
  }

  /** The match as it is archived: the result and every set by team, under the game, the id and the date it
      began with. */
  predicate ArchivedAs(n: Log, game: Option<int>, r: Report) {
    n.matches != []
    && var m := n.matches[|n.matches| - 1];
       && m.game == game && m.sets == Timed(Results(r.state))
       && m.result == if r.event == GameEnd then Score(r.state) else Tally(r.state)
  }

  lemma OneCloseIsLogged(l: Log, r: Report)
    requires l.current.Some? && |InProgress(l)| + 2 <= MAX_EVENTS && r.event !in {MatchEnd, GameEnd}
    ensures ClosedAfter(l, Close(l, r), r) && ClosesWith(Close(l, r), |InProgress(l)|, r)
  {
    var period := Max(1, r.state.period);
    match r.event {
      case SetEnd => PushAdds(l, ClosingSet(r.state), r);
      case SwitchDue => PushAdds(l, SwitchWasDue, r);
      case PeriodEnd => PushAdds(l, PeriodEnded(period - 1), r);
      case _ =>
    }
    hide Push, Finish, Stamped, Names, Score, Tally, Server;
    if r.event == SetEnd {
      ClosingSetFilesIt(r);
      hide ClosingSet, FilesTheSet, Results;
    }
  }

  lemma ClosingSetFilesIt(r: Report)
    ensures FilesTheSet(ClosingSet(r.state), r)
  {
  }

  lemma EndCloseIsLogged(l: Log, r: Report)
    requires l.current.Some? && |InProgress(l)| + 2 <= MAX_EVENTS && r.event in {MatchEnd, GameEnd}
    ensures ClosedAfter(l, Close(l, r), r) && ClosesWith(Close(l, r), |InProgress(l)|, r)
    ensures ArchivedAs(Close(l, r), l.current.value.game, r)
  {
    var what := if r.event == MatchEnd then ClosingSet(r.state) else PeriodEnded(Max(1, r.state.period));
    EndIsLogged(l, r, what, r.event == GameEnd);
    ClosingSetFilesIt(r);
    hide Push, Finish, Stamped, ClosingSet, FilesTheSet, Results, Timed, Score, Tally;
  }

  lemma CloseIsLogged(l: Log, r: Report)
    requires l.current.Some? && |InProgress(l)| + 2 <= MAX_EVENTS
    ensures ClosedAfter(l, Close(l, r), r) && ClosesWith(Close(l, r), |InProgress(l)|, r)
    ensures r.event in {MatchEnd, GameEnd} ==> ArchivedAs(Close(l, r), l.current.value.game, r)
  {
    hide ClosesWith, ArchivedAs, Close;
    if r.event in {MatchEnd, GameEnd} {
      EndCloseIsLogged(l, r);
    } else {
      OneCloseIsLogged(l, r);
    }
  }

  /** The match an action belongs to when it reopens none: the one in progress, or a new one, filed under the
      game the board was set up for. */
  lemma OpenStarts(l: Log, a: LogAction, r: Report)
    requires !Reopens(l, a, r) && !a.Reset?
    requires l.current.Some? || a.Point? || a.Timeout? || a.Sub? || a.Sets? || a.Serve?
    ensures var o := Open(l, a, r);
            && o.current.Some? && InProgress(o) == InProgress(l) && o.matches == l.matches && o.game == l.game
            && o.step.Some? == l.step.Some?
            && o.current.value.game == (if l.current.Some? then l.current.value.game else l.game)
  {
  }

  /** The game the match of this action is filed under. */
  function FiledUnder(l: Log): Option<int> {
    if l.current.Some? then l.current.value.game else l.game
  }

  lemma FillIsLogged(o: Log, a: LogAction, r: Report, what: What)
    requires o.current.Some? && |InProgress(o)| + 3 <= MAX_EVENTS && EntryFor(a, r.state) == Some(what)
    ensures var n := Fill(o, a, r);
            && GoesOnWith(o, n, what, r, o.step.Some?) && ClosesWith(n, |InProgress(o)| + 1, r)
            && (r.event in {MatchEnd, GameEnd} ==> ArchivedAs(n, o.current.value.game, r))
  {
    var named := o.(current := Some(o.current.value.(teams := Names(r.state))));
    PushAdds(named, what, r);
    var p := Push(named, what, r);
    CloseIsLogged(p, r);
    hide Push, Close, Stamped, Names, EntryFor, ClosesWith, ArchivedAs;
    var k := |InProgress(o)|;
    var events := PlayByPlay(Fill(o, a, r));
    assert events[..k + 1] == InProgress(p);
    assert events[..k] == events[..k + 1][..k] && events[k] == events[..k + 1][k];
  }

  /** So an action with an entry is logged. */
  lemma ActionIsLogged(l: Log, a: LogAction, r: Report, undoable: bool, what: What)
    requires !a.Reset? && !Reopens(l, a, r) && HasSpace(l) && EntryFor(a, r.state) == Some(what)
    requires l.current.Some? || a.Point? || a.Timeout? || a.Sub? || a.Sets? || a.Serve?
    ensures var n := Record(l, a, r, undoable);
            && GoesOnWith(l, n, what, r, undoable) && ClosesWith(n, |InProgress(l)| + 1, r)
            && (r.event in {MatchEnd, GameEnd} ==> ArchivedAs(n, FiledUnder(l), r))
  {
    var l1 := l.(step := if undoable then Some(NewStep(l)) else None);
    OpenStarts(l1, a, r);
    var o := Open(l1, a, r);
    FillIsLogged(o, a, r, what);
    WriteFills(l, a, r, undoable);
    hide Open, Fill, EntryFor, ClosesWith, GoesOnWith, ArchivedAs, Record, InProgress;
    ReadsAlike(o, Fill(o, a, r), l, Record(l, a, r, undoable), what, r, undoable, o.current.value.game);
  }

  lemma WriteFills(l: Log, a: LogAction, r: Report, undoable: bool)
    requires !a.Reset? && Open(l.(step := if undoable then Some(NewStep(l)) else None), a, r).current.Some?
    ensures var w := Fill(Open(l.(step := if undoable then Some(NewStep(l)) else None), a, r), a, r);
            var n := Record(l, a, r, undoable);
            n == w.(journal := n.journal, step := n.step)
  {
    hide Open, Fill;
  }

  /** An action with no entry of its own, in a match in progress: the log gains what it closed. */
  lemma CloseOnlyIsLogged(l: Log, a: LogAction, r: Report, undoable: bool)
    requires a.Other? && l.current.Some? && HasSpace(l)
    ensures var n := Record(l, a, r, undoable);
            var k := |InProgress(l)|;
            var events := PlayByPlay(n);
            && |events| == k + Closes(r.event) && events[..k] == InProgress(l)
            && (forall i :: k <= i < |events| ==> Stamped(events[i], r, undoable))
            && (n.current.Some? <==> r.event !in {MatchEnd, GameEnd})
            && (if n.current.Some? then n.matches == l.matches
                else |n.matches| >= 1 && n.matches == Newest(l.matches + [n.matches[|n.matches| - 1]], MAX_MATCHES))
            && ClosesWith(n, k, r)
            && (r.event in {MatchEnd, GameEnd} ==> ArchivedAs(n, FiledUnder(l), r))
  {
    var l1 := l.(step := if undoable then Some(NewStep(l)) else None);
    var named := l1.(current := Some(l1.current.value.(teams := Names(r.state))));
    CloseIsLogged(named, r);
    WriteFills(l, a, r, undoable);
    hide Close, Stamped, FilesTheSet, Names, Newest, Timed, Tally, Score, Results, Record;
    var n := Record(l, a, r, undoable);
    assert n == Close(named, r).(journal := n.journal, step := n.step);
  }

  /** The journal around an entry shows nothing. */
  lemma ReadsAlike(o: Log, w: Log, l: Log, n: Log, what: What, r: Report, tracked: bool, game: Option<int>)
    requires InProgress(o) == InProgress(l) && o.matches == l.matches && o.game == l.game
    requires n == w.(journal := n.journal, step := n.step)
    requires GoesOnWith(o, w, what, r, tracked) && ClosesWith(w, |InProgress(o)| + 1, r)
    ensures GoesOnWith(l, n, what, r, tracked) && ClosesWith(n, |InProgress(l)| + 1, r)
    ensures ArchivedAs(w, game, r) == ArchivedAs(n, game, r)
  {
    hide Stamped, FilesTheSet, Names, Newest, Timed;
    assert PlayByPlay(n) == PlayByPlay(w) && TeamNames(n) == TeamNames(w);
  }

  // ---- Taking the end of a match back -----------------------------------------------------------------

  /** Without the "match over" it ends on. */
  function Resumed(events: seq<Entry>): seq<Entry> {
    if events == [] || events[|events| - 1].what != MatchOver then events else events[..|events| - 1]
  }

  /** A - or a set removed, on the match just archived, takes it up again exactly when it leaves fewer sets
      won than were archived (or the game no longer over): the archive loses it, its play-by-play goes on
      without the end of the match, under the game, the id and the date it was begun with. Otherwise the
      archive stays, and a - opens a match of its own. */
  lemma MinusReopensExactly(l: Log, a: LogAction, r: Report, undoable: bool, what: What, gameEnd: bool)
    requires (a.Point? && a.delta < 0) || a.RemoveSet?
    requires l.current == None && l.matches != []
    requires l.lastFinished == Some(Finished(l.matches[|l.matches| - 1], gameEnd))
    requires |l.matches[|l.matches| - 1].events| < MAX_EVENTS
    requires r.event == NoEvent && EntryFor(a, r.state) == Some(what)
    ensures var n := Record(l, a, r, undoable);
            var m := l.matches[|l.matches| - 1];
            var takenUp := if gameEnd then !r.state.over
                           else r.state.sets.a + r.state.sets.b < m.result.a + m.result.b;
            && (takenUp ==>
                  && n.matches == l.matches[..|l.matches| - 1] && n.current.Some?
                  && var c := n.current.value;
                     && c.id == m.id && c.date == m.date && c.game == m.game
                     && |c.events| == |Resumed(m.events)| + 1 && c.events[..|c.events| - 1] == Resumed(m.events)
                     && c.events[|c.events| - 1].what == what && Stamped(c.events[|c.events| - 1], r, undoable))
            && (!takenUp ==>
                  && n.matches == l.matches && (n.current.Some? <==> a.Point?)
                  && (a.Point? ==> |InProgress(n)| == 1 && n.current.value.game == l.game
                                   && InProgress(n)[0].what == what && Stamped(InProgress(n)[0], r, undoable)))
  {
    var l1 := l.(step := if undoable then Some(NewStep(l)) else None);
    var o := Open(l1, a, r);
    var takenUp := UndoesFinish(l1, a, r.state);
    assert o == if takenUp then Reopen(l1) else if a.Point? then Start(l1, r) else l1;
    assert o.step.Some? == undoable;
    if o.current.Some? {
      assert InProgress(o) == if takenUp then Resumed(l.matches[|l.matches| - 1].events) else [];
      WriteFills(l, a, r, undoable);
      FillAdds(o, a, r, what);
    }
    hide Push, Fill, Open, Stamped, EntryFor, Names;
  }

  lemma FillAdds(o: Log, a: LogAction, r: Report, what: What)
    requires o.current.Some? && |InProgress(o)| < MAX_EVENTS && r.event == NoEvent
    requires EntryFor(a, r.state) == Some(what)
    ensures var n := Fill(o, a, r);
            && n.current.Some? && n.matches == o.matches
            && n.current.value.(events := [], teams := o.current.value.teams) == o.current.value.(events := [])
            && |InProgress(n)| == |InProgress(o)| + 1 && InProgress(n)[..|InProgress(o)|] == InProgress(o)
            && InProgress(n)[|InProgress(o)|].what == what
            && Stamped(InProgress(n)[|InProgress(o)|], r, o.step.Some?)
  {
    PushAdds(o.(current := Some(o.current.value.(teams := Names(r.state)))), what, r);
    hide Push, Stamped, EntryFor, Names;
  }

  /** The end of a match leaves it just archived. */
  lemma EndStands(l: Log, a: LogAction, r: Report, undoable: bool)
    requires !a.Reset? && r.event in {MatchEnd, GameEnd} && (l.current.Some? || a.Point?)
    ensures var n := Record(l, a, r, undoable);
            && n.current == None && n.matches != []
            && n.lastFinished == Some(Finished(n.matches[|n.matches| - 1], r.event == GameEnd))
  {
    hide Push, EntryFor, Names, Score, Tally, Timed, Results, UndoesFinish;
    var o := Open(l.(step := if undoable then Some(NewStep(l)) else None), a, r);
    assert o.current.Some?;
    WriteFills(l, a, r, undoable);
    FillEnds(o, a, r);
  }

  lemma FillEnds(o: Log, a: LogAction, r: Report)
    requires o.current.Some? && r.event in {MatchEnd, GameEnd}
    ensures var n := Fill(o, a, r);
            && n.current == None && n.matches != []
            && n.lastFinished == Some(Finished(n.matches[|n.matches| - 1], r.event == GameEnd))
  {
    hide EntryFor, Names, Score, Tally, Timed, Results, Server;
  }

  /** So the - that walks the winning point back goes on right after it: the play-by-play before the end, the
      point and the set it won, and then the -. */
  lemma MatchPointWalkedBack(l: Log, point: LogAction, r: Report, minus: LogAction, q: Report, u: bool, v: bool,
                             what: What, taken: What)
    requires HasSpace(l) && point.Point? && point.delta > 0 && EntryFor(point, r.state) == Some(what)
    requires r.event == MatchEnd && |InProgress(l)| + 3 < MAX_EVENTS
    requires minus.Point? && minus.delta < 0 && EntryFor(minus, q.state) == Some(taken) && q.event == NoEvent
    requires q.state.sets.a + q.state.sets.b < r.state.sets.a + r.state.sets.b
    ensures var over := Record(l, point, r, u);
            var back := Record(over, minus, q, v);
            var k := |InProgress(l)|;
            && back.current.Some? && |InProgress(back)| == k + 3 && InProgress(back)[..k] == InProgress(l)
            && InProgress(back)[k].what == what && InProgress(back)[k + 1].what.SetEnded?
            && InProgress(back)[k + 2].what == taken
            && over.matches != [] && back.matches == over.matches[..|over.matches| - 1]
            && back.current.value.game == FiledUnder(l)
  {
    var over := Record(l, point, r, u);
    MatchPointIsLogged(l, point, r, u, what);
    hide EntryFor, Record, Stamped, Names, HasSpace;
    MinusReopensExactly(over, minus, q, v, taken, false);
    var before, m := InProgress(l), over.matches[|over.matches| - 1];
    hide InProgress;
    FollowsOn(before, m.events, InProgress(Record(over, minus, q, v)));
  }

  lemma FollowsOn(before: seq<Entry>, archived: seq<Entry>, back: seq<Entry>)
    requires |archived| == |before| + 3 && archived[..|before|] == before && archived[|before| + 2].what == MatchOver
    requires |back| == |Resumed(archived)| + 1 && back[..|back| - 1] == Resumed(archived)
    ensures |back| == |before| + 3 && back[..|before|] == before
    ensures back[|before|] == archived[|before|] && back[|before| + 1] == archived[|before| + 1]
  {
    var k := |before|;
    assert Resumed(archived) == archived[..k + 2];
    assert back[..k] == back[..k + 2][..k];
    assert back[k] == back[..k + 2][k] && back[k + 1] == back[..k + 2][k + 1];
  }

  lemma MatchPointIsLogged(l: Log, point: LogAction, r: Report, u: bool, what: What)
    requires HasSpace(l) && point.Point? && point.delta > 0 && EntryFor(point, r.state) == Some(what)
    requires r.event == MatchEnd
    ensures var over := Record(l, point, r, u);
            && over.current == None && over.matches != []
            && over.lastFinished == Some(Finished(over.matches[|over.matches| - 1], false))
            && var m := over.matches[|over.matches| - 1];
               var k := |InProgress(l)|;
               && |m.events| == k + 3 && m.events[..k] == InProgress(l) && m.events[k].what == what
               && m.events[k + 1].what.SetEnded? && m.events[k + 2].what == MatchOver
               && m.result.a + m.result.b == r.state.sets.a + r.state.sets.b && m.game == FiledUnder(l)
  {
    assert !Reopens(l, point, r);
    hide EntryFor, Record, ArchivedAs, Stamped, Names, Reopens;
    ActionIsLogged(l, point, r, u, what);
    EndStands(l, point, r, u);
    ResultTotals(Record(l, point, r, u), FiledUnder(l), r);
  }

  lemma ResultTotals(n: Log, game: Option<int>, r: Report)
    requires ArchivedAs(n, game, r) && r.event == MatchEnd
    ensures var m := n.matches[|n.matches| - 1];
            m.result.a + m.result.b == r.state.sets.a + r.state.sets.b && m.game == game
  {
  }

  /** An undo leaves its marker at the end of a match in progress, as long as its play-by-play is not full. */
  lemma UndoLeavesAMarker(l: Log, r: Report, words: string)
    requires UndoLast(l, r, words).current.Some?
    ensures var events := InProgress(UndoLast(l, r, words));
            |events| < MAX_EVENTS ==>
              events != [] && events[|events| - 1].what == TakenBack(words)
              && Stamped(events[|events| - 1], r, l.step.Some?)
  {
    hide Revert, Stamped;
    var l1 := if l.journal == [] then l
              else Revert(l.(journal := l.journal[..|l.journal| - 1]), l.journal[|l.journal| - 1]);
    RevertLeavesTheStep(l);
    if l1.current.Some? && |InProgress(l1)| < MAX_EVENTS {
      PushAdds(l1, TakenBack(words), r);
    }
  }

  lemma RevertLeavesTheStep(l: Log)
    ensures l.journal != [] ==>
              Revert(l.(journal := l.journal[..|l.journal| - 1]), l.journal[|l.journal| - 1]).step == l.step
  {
    hide Without, LastIndexOf;
  }

  lemma StepStarted(l: Log, a: LogAction, r: Report)
    requires WellFormed(l) && l.current == None && !a.Reset? && !Reopens(l, a, r)
    requires a.Point? || a.Timeout? || a.Sub? || a.Sets? || a.Serve?
    ensures var w := Write(l.(step := Some(NewStep(l))), a, r);
            && w.step.Some? && w.step.value.started && w.step.value.reopened == None && !w.step.value.reset
            && w.step.value.prevCurrent == None && w.step.value.prevFinished == l.lastFinished
  {
    var l1 := l.(step := Some(NewStep(l)));
    assert l.lastFinished.Some? ==> !UndoesFinish(l1, a, r.state);
    hide WellFormed, EntryFor, Names, UndoesFinish, ClosingSet;
    var o := Open(l1, a, r);
    assert o == Start(l1, r);
    FillKeepsTheStart(o, a, r);
  }

  /** What a step says of where its match came from is said before the match is written to. */
  predicate SameStart(x: Log, y: Log) {
    && x.step.Some? && y.step.Some?
    && x.step.value.(pushed := [], finished := None) == y.step.value.(pushed := [], finished := None)
  }

  lemma PushKeepsTheStart(l: Log, what: What, r: Report)
    requires l.current.Some? && l.step.Some?
    ensures SameStart(Push(l, what, r), l) && Push(l, what, r).current.Some?
  {
  }

  lemma FillKeepsTheStart(o: Log, a: LogAction, r: Report)
    requires o.current.Some? && o.step.Some?
    ensures SameStart(Fill(o, a, r), o)
  {
    hide EntryFor, Names, ClosingSet, Push, Timed, Results, Score, Tally;
    var named := o.(current := Some(o.current.value.(teams := Names(r.state))));
    var entry := EntryFor(a, r.state);
    var l := if entry.Some? then Push(named, entry.value, r) else named;
    if entry.Some? {
      PushKeepsTheStart(named, entry.value, r);
    }
    var period := Max(1, r.state.period);
    match r.event {
      case SetEnd => PushKeepsTheStart(l, ClosingSet(r.state), r);
      case SwitchDue => PushKeepsTheStart(l, SwitchWasDue, r);
      case PeriodEnd => PushKeepsTheStart(l, PeriodEnded(period - 1), r);
      case MatchEnd =>
        PushKeepsTheStart(l, ClosingSet(r.state), r);
        PushKeepsTheStart(Push(l, ClosingSet(r.state), r), MatchOver, r);
      case GameEnd =>
        PushKeepsTheStart(l, PeriodEnded(period), r);
        PushKeepsTheStart(Push(l, PeriodEnded(period), r), MatchOver, r);
      case _ =>
    }
  }

  lemma StartIsReverted(s0: Log, w: Log, s: Log)
    requires WellFormed(s0) && s0.current == None && (Writing(s0, w) || Archived(s0, w))
    requires Archived(s0, w) ==> |Archive(s0, w.step.value)| < MAX_MATCHES
    requires w.step.value.started && w.step.value.reopened == None && w.step.value.prevFinished == s0.lastFinished
    requires s.current == w.current && s.matches == w.matches
    ensures var n := Revert(s, w.step.value); n.current == None && n.lastFinished == s0.lastFinished
  {
    var e := w.step.value;
    assert Base(s0, e) == [] && Base(s0, e) + e.pushed == e.pushed;
    assert [] + e.pushed == e.pushed;
    if e.pushed != [] {
      WithoutPushed([], e.pushed, e.pushed);
    }
    if Archived(s0, w) {
      UnarchiveLast(s, Archive(s0, e), e.finished.value.match_);
    }
  }

  /** An undone action that began a match leaves none: the log is between matches again, as it was before. */
  lemma UndoneStartLeavesNoMatch(l: Log, a: LogAction, r: Report, later: Report, words: string)
    requires WellFormed(l) && l.current == None && !a.Reset? && !Reopens(l, a, r) && HasRoom(l, a, r)
    requires a.Point? || a.Timeout? || a.Sub? || a.Sets? || a.Serve?
    ensures var n := UndoLast(Record(l, a, r, true), later, words);
            n.current == None && n.lastFinished == l.lastFinished && n.matches == l.matches
  {
    var w := Write(l.(step := Some(NewStep(l))), a, r);
    var done := Record(l, a, r, true);
    StepStarted(l, a, r);
    WriteSummary(l, a, r);
    RecordPushesItsStep(l, a, r);
    hide Write, Record, StepOf, Writing, Archived, WellFormed, Open, Reopens, Newest, Same;
    assert done.journal[|done.journal| - 1] == w.step.value by {
      NewestIsLast(l.journal, w.step.value, MAX_UNDO);
    }
    var popped := done.(journal := done.journal[..|done.journal| - 1]);
    StartIsReverted(l, w, popped);
    hide Revert;
    SameHere(done, w);
    UndoTakesBack(l, a, r, done, later, words);
    SameArchives(UndoLast(done, later, words), l);
  }

  lemma NewestIsLast(journal: seq<Step>, e: Step, max: nat)
    requires max > 0
    ensures var n := Newest(journal + [e], max); n != [] && n[|n| - 1] == e
  {
  }

  lemma SameHere(x: Log, w: Log)
    ensures Same(x, x)
  {
  }

  lemma SameArchives(x: Log, y: Log)
    requires Same(x, y)
    ensures x.matches == y.matches
  {
  }

  /** A match begun settles the one before: no - reopens that any more. */
  lemma StartSettlesTheLast(l: Log, a: LogAction, r: Report, undoable: bool)
    requires l.current == None && !a.Reset? && !Reopens(l, a, r) && r.event !in {MatchEnd, GameEnd}
    requires a.Point? || a.Timeout? || a.Sub? || a.Sets? || a.Serve?
    ensures Record(l, a, r, undoable).current.Some? && Record(l, a, r, undoable).lastFinished == None
  {
    hide EntryFor, Names, ClosingSet;
    var l1 := l.(step := if undoable then Some(NewStep(l)) else None);
    var o := Open(l1, a, r);
    assert o == Start(l1, r);
    WriteFills(l, a, r, undoable);
  }

  /** An undone reset, or an undone - that took the end of a match back, leaves the match just finished - or none -
      just finished again. */
  lemma UndoRestoresTheFinish(l: Log, a: LogAction, r: Report, later: Report, words: string)
    requires WellFormed(l) && (a.Reset? || (Reopens(l, a, r) && !Finishes(l, a, r)))
    ensures var n := UndoLast(Record(l, a, r, true), later, words);
            n.lastFinished == l.lastFinished && n.matches == l.matches && n.current.Some? == l.current.Some?
  {
    var w := Write(l.(step := Some(NewStep(l))), a, r);
    var done := Record(l, a, r, true);
    RecordPushesItsStep(l, a, r);
    NewestIsLast(l.journal, StepOf(l, a, r), MAX_UNDO);
    if !a.Reset? {
      WriteSummary(l, a, r);
      ReopenIsStepped(l, a, r);
    }
    hide Write, Record, Writing, Archived, WellFormed, Open, Reopens, Newest, Finishes, Without;
    var popped := done.(journal := done.journal[..|done.journal| - 1]);
    assert UndoLast(done, later, words).lastFinished == Revert(popped, w.step.value).lastFinished;
    if !a.Reset? {
      ReopenReverted(l, w, popped);
    }
  }

  lemma ReopenIsStepped(l: Log, a: LogAction, r: Report)
    requires WellFormed(l) && Reopens(l, a, r)
    ensures var w := Write(l.(step := Some(NewStep(l))), a, r);
            && w.step.Some? && w.step.value.reopened == l.lastFinished && !w.step.value.reset
            && w.step.value.prevCurrent == None
  {
    var l1 := l.(step := Some(NewStep(l)));
    assert UndoesFinish(l1, a, r.state);
    hide WellFormed, EntryFor, Names, UndoesFinish, ClosingSet;
    var o := Open(l1, a, r);
    assert o == Reopen(l1);
    FillKeepsTheStart(o, a, r);
  }

  lemma ReopenReverted(l: Log, w: Log, s: Log)
    requires WellFormed(l) && l.current == None && l.lastFinished.Some? && Writing(l, w)
    requires w.step.value.reopened == l.lastFinished && s.matches == w.matches
    ensures var n := Revert(s, w.step.value);
            n.lastFinished == l.lastFinished && n.current == None && n.matches == l.matches
  {
    var e := w.step.value;
    assert Archive(l, e) + [e.reopened.value.match_] == l.matches;
    hide Without;
  }
}
