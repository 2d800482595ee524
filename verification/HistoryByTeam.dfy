/** The log is by team: it reads the same whichever end of the court the teams stand at. */
module HistoryByTeam {
  import opened Basics
  import opened LiveStates
  import opened UndoJournals
  import opened History

  /** What an entry says, its identity and stamps aside. */
  datatype Line = Line(what: What, score: Pair<int>, sets: Pair<int>, srv: Option<TeamId>)

  /** What a play-by-play says, its changes of ends aside. */
  function Lines(events: seq<Entry>): seq<Line> {
    if events == [] then []
    else
      var init := Lines(events[..|events| - 1]);
      var e := events[|events| - 1];
      if e.what.EndsChanged? then init else init + [Line(e.what, e.score, e.sets, e.srv)]
  }

  predicate EndsWithMatchOver(events: seq<Entry>) {
    events != [] && events[|events| - 1].what.MatchOver?
  }

  /** The same match in progress. Its header names are rewritten by every action, so they are compared
      once it is archived. */
  predicate SameBuffer(x: Option<Buffer>, y: Option<Buffer>) {
    && x.Some? == y.Some?
    && (x.Some? ==> x.value.game == y.value.game && Lines(x.value.events) == Lines(y.value.events))
  }

  /** The same archived match: names, fixture, result, set scores and play-by-play. */
  predicate SameRecord(x: Match, y: Match) {
    && x.teams == y.teams && x.game == y.game && x.result == y.result && x.sets == y.sets
    && Lines(x.events) == Lines(y.events)
    && EndsWithMatchOver(x.events) == EndsWithMatchOver(y.events)
  }

  predicate SameArchive(xs: seq<Match>, ys: seq<Match>) {
    |xs| == |ys| && forall i :: 0 <= i < |xs| ==> SameRecord(xs[i], ys[i])
  }

  /** The last match of the archive is still the one just finished. */
  predicate Standing(l: Log) {
    l.lastFinished.Some? && l.matches != [] && l.matches[|l.matches| - 1] == l.lastFinished.value.match_
  }

  /** Two logs that tell the same story. */
  predicate SameStory(x: Log, y: Log) {
    && SameBuffer(x.current, y.current)
    && SameArchive(x.matches, y.matches)
    && x.game == y.game
    && x.lastFinished.Some? == y.lastFinished.Some?
    && Standing(x) == Standing(y)
    && (x.lastFinished.Some? ==>
          && x.lastFinished.value.gameEnd == y.lastFinished.value.gameEnd
          && SameRecord(x.lastFinished.value.match_, y.lastFinished.value.match_))
  }

  /** Room for n more entries in any match the next actions can write to. */
  predicate RoomFor(l: Log, n: nat) {
    && n <= MAX_EVENTS
    && (l.current.Some? ==> |l.current.value.events| + n <= MAX_EVENTS)
    && (l.lastFinished.Some? ==> |l.lastFinished.value.match_.events| + n <= MAX_EVENTS)
  }

  /** The board as the log reads it, by team: equal from both ends. */
  predicate SameNews(r: Report, q: Report) {
    && r.event == q.event && r.basketball == q.basketball
    && r.state.period == q.state.period && r.state.over == q.state.over
    && Names(r.state) == Names(q.state) && Score(r.state) == Score(q.state)
    && Tally(r.state) == Tally(q.state) && Results(r.state) == Results(q.state)
    && Server(r) == Server(q)
  }

  /** A change of ends shows nothing new by team. */
  lemma ChangeOfEndsIsNoNews(r: Report)
    requires r.state.endsSwapped.Some?
    ensures SameNews(r, r.(state := ChangeEnds(r.state)))
  {
    var s := r.state;
    assert FlipPairResults(FlipPairResults(s.results)) == s.results;
    assert forall t: Pair<Team> :: t.Flipped().Flipped() == t;
    assert forall t: Pair<int> :: t.Flipped().Flipped() == t;
  }

  function MirrorEntry(a: LogAction): LogAction {
    match a
    case Point(side, delta, typed) => Point(Across(side), delta, typed)
    case Timeout(side, delta, typed) => Timeout(Across(side), delta, typed)
    case Sub(side, delta, typed) => Sub(Across(side), delta, typed)
    case Sets(side, typed) => Sets(Across(side), typed)
    case Serve(side) => Serve(Across(side))
    case _ => a
  }

  predicate NamesItsSide(a: LogAction) {
    match a
    case Point(side, _, _) => side.Some?
    case Timeout(side, _, _) => side.Some?
    case Sub(side, _, _) => side.Some?
    case Sets(side, _) => side.Some?
    case Serve(side) => side.Some?
    case _ => true
  }

  lemma SameEntry(a: LogAction, s: LiveState)
    requires NamesItsSide(a) && s.endsSwapped.Some?
    ensures EntryFor(MirrorEntry(a), ChangeEnds(s)) == EntryFor(a, s)
  {
  }

  lemma {:induction false} LinesPush(events: seq<Entry>, e: Entry)
    ensures Lines(events + [e]) ==
            Lines(events) + if e.what.EndsChanged? then [] else [Line(e.what, e.score, e.sets, e.srv)]
  {
    assert (events + [e])[..|events|] == events;
  }

  lemma SamePush(x: Log, y: Log, what: What, r: Report, q: Report, n: nat)
    requires SameStory(x, y) && x.current.Some? && SameNews(r, q)
    requires RoomFor(x, n + 1) && RoomFor(y, n + 1)
    ensures var x', y' := Push(x, what, r), Push(y, what, q);
            && SameStory(x', y') && x'.current.Some? && RoomFor(x', n) && RoomFor(y', n)
            && EndsWithMatchOver(x'.current.value.events) == what.MatchOver?
            && EndsWithMatchOver(y'.current.value.events) == what.MatchOver?
  {
    var ex := Entry(x.next, what, r.stamp, Score(r.state), Tally(r.state), Server(r), x.step.Some?);
    var ey := Entry(y.next, what, q.stamp, Score(q.state), Tally(q.state), Server(q), y.step.Some?);
    LinesPush(x.current.value.events, ex);
    LinesPush(y.current.value.events, ey);
  }

  /** The same play-by-play and the same ending read the same without the "match over". */
  lemma {:induction false} SameUnfinished(xs: seq<Entry>, ys: seq<Entry>)
    requires Lines(xs) == Lines(ys) && EndsWithMatchOver(xs) == EndsWithMatchOver(ys)
    ensures Lines(Unfinished(xs)) == Lines(Unfinished(ys))
    ensures |Unfinished(xs)| <= |xs| && |Unfinished(ys)| <= |ys|
  {
    if EndsWithMatchOver(xs) {
      var initX, initY := Lines(xs[..|xs| - 1]), Lines(ys[..|ys| - 1]);
      assert initX == Lines(xs)[..|initX|] && initY == Lines(ys)[..|initY|];
    }
  }

  lemma SameReopen(x: Log, y: Log, n: nat)
    requires SameStory(x, y) && Standing(x)
    requires RoomFor(x, n) && RoomFor(y, n)
    ensures var x', y' := Reopen(x), Reopen(y);
            SameStory(x', y') && RoomFor(x', n) && RoomFor(y', n)
  {
    SameUnfinished(x.lastFinished.value.match_.events, y.lastFinished.value.match_.events);
  }

  lemma SameOpen(x: Log, y: Log, a: LogAction, b: LogAction, r: Report, q: Report, n: nat)
    requires b == MirrorEntry(a) || b == a
    requires SameStory(x, y) && SameNews(r, q)
    requires RoomFor(x, n) && RoomFor(y, n)
    ensures var x', y' := Open(x, a, r), Open(y, b, q);
            && SameStory(x', y') && RoomFor(x', n) && RoomFor(y', n)
  {
    assert TakesBack(a) == TakesBack(b) && Scoring(a) == Scoring(b);
    if x.current == None && x.lastFinished.Some? {
      assert UndoesFinish(x, a, r.state) == UndoesFinish(y, b, q.state);
      if UndoesFinish(x, a, r.state) {
        SameReopen(x, y, n);
      }
    }
  }

  lemma SameFinish(x: Log, y: Log, r: Report, q: Report, gameEnd: bool, n: nat)
    requires SameStory(x, y) && SameNews(r, q) && x.current.Some?
    requires x.current.value.teams == y.current.value.teams
    requires EndsWithMatchOver(x.current.value.events) == EndsWithMatchOver(y.current.value.events)
    requires RoomFor(x, n) && RoomFor(y, n)
    ensures var x', y' := Finish(x, r, gameEnd), Finish(y, q, gameEnd);
            && SameStory(x', y') && RoomFor(x', n) && RoomFor(y', n)
  {
    var x', y' := Finish(x, r, gameEnd), Finish(y, q, gameEnd);
    var d := |x.matches| + 1 - |x'.matches|;
    forall i | 0 <= i < |x'.matches|
      ensures SameRecord(x'.matches[i], y'.matches[i])
    {
      assert x'.matches[i] == (x.matches + [x'.lastFinished.value.match_])[i + d];
      assert y'.matches[i] == (y.matches + [y'.lastFinished.value.match_])[i + d];
    }
  }

  lemma SameClose(x: Log, y: Log, r: Report, q: Report, n: nat)
    requires SameStory(x, y) && SameNews(r, q) && x.current.Some?
    requires x.current.value.teams == y.current.value.teams
    requires RoomFor(x, n + 2) && RoomFor(y, n + 2)
    ensures var x', y' := Close(x, r), Close(y, q);
            SameStory(x', y') && RoomFor(x', n) && RoomFor(y', n)
  {
    var period := Max(1, r.state.period);
    match r.event {
      case SetEnd => SamePush(x, y, ClosingSet(r.state), r, q, n + 1);
      case SwitchDue => SamePush(x, y, SwitchWasDue, r, q, n + 1);
      case PeriodEnd => SamePush(x, y, PeriodEnded(period - 1), r, q, n + 1);
      case MatchEnd => SameEnd(x, y, ClosingSet(r.state), r, q, false, n);
      case GameEnd => SameEnd(x, y, PeriodEnded(period), r, q, true, n);
      case _ =>
    }
  }

  lemma SameEnd(x: Log, y: Log, closing: What, r: Report, q: Report, gameEnd: bool, n: nat)
    requires SameStory(x, y) && SameNews(r, q) && x.current.Some?
    requires x.current.value.teams == y.current.value.teams
    requires RoomFor(x, n + 2) && RoomFor(y, n + 2)
    ensures var x' := Finish(Push(Push(x, closing, r), MatchOver, r), r, gameEnd);
            var y' := Finish(Push(Push(y, closing, q), MatchOver, q), q, gameEnd);
            SameStory(x', y') && RoomFor(x', n) && RoomFor(y', n)
  {
    SamePush(x, y, closing, r, q, n + 1);
    var x1, y1 := Push(x, closing, r), Push(y, closing, q);
    SamePush(x1, y1, MatchOver, r, q, n);
    SameFinish(Push(x1, MatchOver, r), Push(y1, MatchOver, q), r, q, gameEnd, n);
  }

  lemma SameNames(x: Log, y: Log, teams: Pair<string>, n: nat)
    requires SameStory(x, y) && x.current.Some? && RoomFor(x, n) && RoomFor(y, n)
    ensures y.current.Some?
    ensures var x', y' := x.(current := Some(x.current.value.(teams := teams))),
                          y.(current := Some(y.current.value.(teams := teams)));
            SameStory(x', y') && RoomFor(x', n) && RoomFor(y', n)
  {
  }

  lemma PushKeepsTeams(l: Log, what: What, r: Report)
    requires l.current.Some?
    ensures Push(l, what, r).current.Some? && Push(l, what, r).current.value.teams == l.current.value.teams
  {
  }

  lemma SameFill(x: Log, y: Log, a: LogAction, b: LogAction, r: Report, q: Report, n: nat)
    requires SameStory(x, y) && SameNews(r, q) && x.current.Some?
    requires EntryFor(a, r.state) == EntryFor(b, q.state)
    requires RoomFor(x, n + 3) && RoomFor(y, n + 3)
    ensures var x', y' := Fill(x, a, r), Fill(y, b, q);
            SameStory(x', y') && RoomFor(x', n) && RoomFor(y', n)
  {
    SameNames(x, y, Names(r.state), n + 3);
    assert Names(r.state) == Names(q.state);
    hide SameStory, RoomFor, EntryFor, Push, Close, SameNews, Names;
    var x1 := x.(current := Some(x.current.value.(teams := Names(r.state))));
    var y1 := y.(current := Some(y.current.value.(teams := Names(q.state))));
    var entry := EntryFor(a, r.state);
    if entry.Some? {
      SamePush(x1, y1, entry.value, r, q, n + 2);
      PushKeepsTeams(x1, entry.value, r);
      PushKeepsTeams(y1, entry.value, q);
      SameClose(Push(x1, entry.value, r), Push(y1, entry.value, q), r, q, n);
    } else {
      SameClose(x1, y1, r, q, n);
    }
  }

  lemma StepAside(x: Log, y: Log, s: Option<Step>, t: Option<Step>, j: seq<Step>, k: seq<Step>, n: nat)
    requires SameStory(x, y) && RoomFor(x, n) && RoomFor(y, n)
    ensures var x', y' := x.(step := s, journal := j), y.(step := t, journal := k);
            SameStory(x', y') && RoomFor(x', n) && RoomFor(y', n)
  {
  }

  lemma SameWritten(x: Log, y: Log, a: LogAction, b: LogAction, r: Report, q: Report, n: nat)
    requires SameStory(x, y) && SameNews(r, q) && !a.Reset? && !b.Reset?
    requires b == MirrorEntry(a) || b == a
    requires EntryFor(a, r.state) == EntryFor(b, q.state)
    requires RoomFor(x, n + 3) && RoomFor(y, n + 3)
    ensures var x', y' := Write(x, a, r), Write(y, b, q);
            SameStory(x', y') && RoomFor(x', n) && RoomFor(y', n)
  {
    SameOpen(x, y, a, b, r, q, n + 3);
    var x1, y1 := Open(x, a, r), Open(y, b, q);
    if x1.current.Some? {
      SameFill(x1, y1, a, b, r, q, n);
    }
  }

  /** Recording the same news about the same team keeps two logs telling the same story. */
  lemma SameRecorded(x: Log, y: Log, a: LogAction, b: LogAction, r: Report, q: Report, ux: bool, uy: bool, n: nat)
    requires SameStory(x, y) && SameNews(r, q) && !a.Reset? && !b.Reset?
    requires b == MirrorEntry(a) || b == a
    requires EntryFor(a, r.state) == EntryFor(b, q.state)
    requires RoomFor(x, n + 3) && RoomFor(y, n + 3)
    ensures var x', y' := Record(x, a, r, ux), Record(y, b, q, uy);
            SameStory(x', y') && RoomFor(x', n) && RoomFor(y', n)
  {
    var x0 := x.(step := if ux then Some(NewStep(x)) else None);
    var y0 := y.(step := if uy then Some(NewStep(y)) else None);
    StepAside(x, y, x0.step, y0.step, x.journal, y.journal, n + 3);
    SameWritten(x0, y0, a, b, r, q, n);
    StepAside(Write(x0, a, r), Write(y0, b, q), None, None,
              Record(x, a, r, ux).journal, Record(y, b, q, uy).journal, n);
  }

  /** A change of ends adds its own entry and tells nothing else. */
  lemma EndsChangedOnly(x: Log, y: Log, q: Report, uy: bool, n: nat)
    requires SameStory(x, y) && q.event == NoEvent
    requires RoomFor(x, n) && RoomFor(y, n + 3)
    ensures var y' := Record(y, Swap, q, uy);
            SameStory(x, y') && RoomFor(y', n)
  {
    var y0 := y.(step := if uy then Some(NewStep(y)) else None);
    assert Open(y0, Swap, q) == y0;
    if y.current.Some? {
      var y1 := y0.(current := Some(y0.current.value.(teams := Names(q.state))));
      var e := Entry(y1.next, EndsChanged, q.stamp, Score(q.state), Tally(q.state), Server(q), y1.step.Some?);
      LinesPush(y1.current.value.events, e);
      assert Write(y0, Swap, q) == Push(y1, EndsChanged, q);
    }
  }
}
