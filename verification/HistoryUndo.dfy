/** The log's undo takes back exactly what an action did to the log. */
module HistoryUndo {
  import opened Basics
  import opened LiveStates
  import opened UndoJournals
  import opened History

  // ---- Identities ---------------------------------------------------------------------------

  predicate Below(events: seq<Entry>, next: nat) {
    forall i :: 0 <= i < |events| ==> events[i].uid < next
  }

  predicate BufferBelow(b: Option<Buffer>, next: nat) {
    b.Some? ==> Below(b.value.events, next)
  }

  predicate FinishedBelow(f: Option<Finished>, next: nat) {
    f.Some? ==> f.value.match_.oid < next && Below(f.value.match_.events, next)
  }

  predicate ArchiveBelow(matches: seq<Match>, next: nat) {
    forall i :: 0 <= i < |matches| ==> matches[i].oid < next
  }

  predicate StepBelow(e: Step, next: nat) {
    && BufferBelow(e.prevCurrent, next) && FinishedBelow(e.prevFinished, next)
    && FinishedBelow(e.finished, next) && FinishedBelow(e.reopened, next)
  }

  /** Between two records: no step is open, and every entry and every match the log can still reach
      was made before the next one. */
  predicate WellFormed(l: Log) {
    && l.step == None
    && ArchiveBelow(l.matches, l.next)
    && BufferBelow(l.current, l.next) && FinishedBelow(l.lastFinished, l.next)
    && (forall i :: 0 <= i < |l.journal| ==> StepBelow(l.journal[i], l.next))
  }

  // ---- What an action leaves ------------------------------------------------------------------

  /** The entries a journal step remembers. */
  function TrackedOf(events: seq<Entry>): seq<Entry> {
    if events == [] then []
    else
      var init := TrackedOf(events[..|events| - 1]);
      var e := events[|events| - 1];
      if e.tracked then init + [e] else init
  }

  /** The live entries, undo markers and entries of un-journaled actions aside. */
  function Live(b: Option<Buffer>): seq<Entry> {
    if b.Some? then TrackedOf(b.value.events) else []
  }

  /** The same archive, the same live entries, of the same match. */
  predicate Same(x: Log, y: Log) {
    && x.matches == y.matches
    && Live(x.current) == Live(y.current)
    && (Live(x.current) != [] ==>
          && x.current.value.id == y.current.value.id && x.current.value.date == y.current.value.date
          && x.current.value.game == y.current.value.game)
  }

  lemma SameTransitive(x: Log, y: Log, z: Log)
    requires Same(x, y) && Same(y, z)
    ensures Same(x, z)
  {
  }

  /** Entries a window pushed: tracked, and newer than everything before it. */
  predicate Fresh(pushed: seq<Entry>, from: nat, next: nat) {
    forall i :: 0 <= i < |pushed| ==> pushed[i].tracked && from <= pushed[i].uid < next
  }

  /** What the match in progress held before the action, once it is open. */
  function Base(s0: Log, e: Step): seq<Entry> {
    if e.reopened.Some? then Unfinished(e.reopened.value.match_.events)
    else if s0.current.Some? then s0.current.value.events
    else []
  }

  /** The archive once the match the action reopened is off it. */
  function Archive(s0: Log, e: Step): seq<Match> {
    if e.reopened.Some? && s0.matches != [] then s0.matches[..|s0.matches| - 1] else s0.matches
  }

  predicate SameMatch(s0: Log, e: Step, id: nat, date: int, game: Option<int>) {
    s0.current.Some? ==> s0.current.value.id == id && s0.current.value.date == date && s0.current.value.game == game
  }

  /** Where a step came from. */
  predicate Begun(s0: Log, e: Step, next: nat) {
    && !e.reset && s0.next <= next
    && e.prevCurrent == s0.current && e.prevFinished == s0.lastFinished
    && (e.started || e.reopened.Some? ==> s0.current == None)
    && (e.reopened.Some? ==> e.reopened == s0.lastFinished && s0.matches != []
                             && s0.matches[|s0.matches| - 1] == e.reopened.value.match_)
    && Fresh(e.pushed, s0.next, next)
  }

  /** While the action is being written: s0 was the log before it. */
  predicate Writing(s0: Log, l: Log) {
    && l.step.Some? && l.journal == s0.journal
    && var e := l.step.value;
       && e.finished == None
       && Begun(s0, e, l.next)
       && l.matches == Archive(s0, e)
       && FinishedBelow(l.lastFinished, l.next)
       && (if l.current.Some? then
             && l.current.value.events == Base(s0, e) + e.pushed
             && SameMatch(s0, e, l.current.value.id, l.current.value.date, l.current.value.game)
             && (s0.current == None ==> e.started || e.reopened.Some?)
           else
             s0.current == None && e.pushed == [] && !e.started && e.reopened == None)
  }

  /** Once the action archived the match. */
  predicate Archived(s0: Log, l: Log) {
    && l.step.Some? && l.journal == s0.journal
    && var e := l.step.value;
       && e.finished.Some? && l.lastFinished == e.finished
       && Begun(s0, e, l.next)
       && l.current == None
       && var m := e.finished.value.match_;
          && l.matches == Newest(Archive(s0, e) + [m], MAX_MATCHES)
          && m.events == Base(s0, e) + e.pushed
          && SameMatch(s0, e, m.id, m.date, m.game)
          && (s0.current == None ==> e.started || e.reopened.Some?)
  }

  lemma BeginWriting(s0: Log)
    requires WellFormed(s0)
    ensures Writing(s0, s0.(step := Some(NewStep(s0))))
  {
    if s0.current.Some? {
      assert s0.current.value.events + [] == s0.current.value.events;
    }
  }

  lemma PushKeepsWriting(s0: Log, l: Log, what: What, r: Report)
    requires Writing(s0, l) && l.current.Some?
    ensures Writing(s0, Push(l, what, r)) && Push(l, what, r).current.Some?
    ensures Push(l, what, r).matches == l.matches
  {
    var e := Entry(l.next, what, r.stamp, Score(r.state), Tally(r.state), Server(r), true);
    var st := l.step.value;
    assert Base(s0, st) + (st.pushed + [e]) == (Base(s0, st) + st.pushed) + [e];
  }

  lemma OpenKeepsWriting(s0: Log, l: Log, a: LogAction, r: Report)
    requires WellFormed(s0) && l == s0.(step := Some(NewStep(s0)))
    ensures Writing(s0, Open(l, a, r))
  {
    BeginWriting(s0);
    if l.current == None && l.lastFinished.Some? && UndoesFinish(l, a, r.state) {
      var events := Unfinished(l.lastFinished.value.match_.events);
      assert events + [] == events;
    }
  }

  lemma FinishArchives(s0: Log, l: Log, r: Report, gameEnd: bool)
    requires Writing(s0, l) && l.current.Some?
    ensures Archived(s0, Finish(l, r, gameEnd))
  {
  }

  lemma CloseKeeps(s0: Log, l: Log, r: Report)
    requires Writing(s0, l) && l.current.Some?
    ensures var c := Close(l, r);
            if r.event in {MatchEnd, GameEnd} then Archived(s0, c) && Archive(s0, c.step.value) == l.matches
            else Writing(s0, c)
  {
    var period := Max(1, r.state.period);
    match r.event {
      case SetEnd => PushKeepsWriting(s0, l, ClosingSet(r.state), r);
      case SwitchDue => PushKeepsWriting(s0, l, SwitchWasDue, r);
      case PeriodEnd => PushKeepsWriting(s0, l, PeriodEnded(period - 1), r);
      case MatchEnd =>
        PushKeepsWriting(s0, l, ClosingSet(r.state), r);
        var l1 := Push(l, ClosingSet(r.state), r);
        PushKeepsWriting(s0, l1, MatchOver, r);
        FinishArchives(s0, Push(l1, MatchOver, r), r, false);
      case GameEnd =>
        PushKeepsWriting(s0, l, PeriodEnded(period), r);
        var l1 := Push(l, PeriodEnded(period), r);
        PushKeepsWriting(s0, l1, MatchOver, r);
        FinishArchives(s0, Push(l1, MatchOver, r), r, true);
      case _ =>
    }
  }

  lemma FillKeeps(s0: Log, o: Log, a: LogAction, r: Report)
    requires Writing(s0, o) && o.current.Some?
    ensures var w := Fill(o, a, r);
            if r.event in {MatchEnd, GameEnd} then Archived(s0, w) && Archive(s0, w.step.value) == o.matches
            else Writing(s0, w)
  {
    var named := o.(current := Some(o.current.value.(teams := Names(r.state))));
    assert Writing(s0, named);
    hide Writing, Archived, Push, Close, EntryFor, Names;
    var entry := EntryFor(a, r.state);
    if entry.Some? {
      PushKeepsWriting(s0, named, entry.value, r);
    }
    CloseKeeps(s0, if entry.Some? then Push(named, entry.value, r) else named, r);
  }

  /** Does the action end the match it belongs to? */
  predicate Finishes(l: Log, a: LogAction, r: Report) {
    !a.Reset? && r.event in {MatchEnd, GameEnd} && Open(l, a, r).current.Some?
  }

  /** The log decides alike whether it journals or not. */
  lemma OpenIgnoresStep(l: Log, step: Option<Step>, a: LogAction, r: Report)
    ensures var o, p := Open(l, a, r), Open(l.(step := step), a, r);
            o.matches == p.matches && o.current == p.current
  {
  }

  /** What a journaled action leaves, reset apart. */
  lemma WriteSummary(s0: Log, a: LogAction, r: Report)
    requires WellFormed(s0) && !a.Reset?
    ensures var w := Write(s0.(step := Some(NewStep(s0))), a, r);
            if Finishes(s0, a, r) then Archived(s0, w) && Archive(s0, w.step.value) == Open(s0, a, r).matches
            else Writing(s0, w)
  {
    var l := s0.(step := Some(NewStep(s0)));
    OpenKeepsWriting(s0, l, a, r);
    OpenIgnoresStep(s0, l.step, a, r);
    hide Writing, Archived, Open, Fill, Archive, WellFormed;
    var o := Open(l, a, r);
    if o.current.Some? {
      FillKeeps(s0, o, a, r);
    }
  }

  // ---- Taking it back ---------------------------------------------------------------------------

  lemma {:induction false} TrackedAppend(xs: seq<Entry>, ys: seq<Entry>)
    ensures TrackedOf(xs + ys) == TrackedOf(xs) + TrackedOf(ys)
  {
    if ys == [] {
      assert xs + ys == xs;
    } else {
      var init := ys[..|ys| - 1];
      assert (xs + ys)[..|xs + ys| - 1] == xs + init;
      TrackedAppend(xs, init);
    }
  }

  lemma {:induction false} TrackedAll(xs: seq<Entry>)
    requires forall i :: 0 <= i < |xs| ==> xs[i].tracked
    ensures TrackedOf(xs) == xs
  {
    if xs != [] {
      TrackedAll(xs[..|xs| - 1]);
    }
  }

  /** Erasing entries and keeping the tracked ones commute. */
  lemma {:induction false} TrackedWithout(xs: seq<Entry>, gone: seq<Entry>)
    ensures TrackedOf(Without(xs, gone)) == Without(TrackedOf(xs), gone)
  {
    if xs == [] {
    } else {
      var init := xs[..|xs| - 1];
      var e := xs[|xs| - 1];
      TrackedWithout(init, gone);
      assert (Without(init, gone) + [e])[..|Without(init, gone)|] == Without(init, gone);
      assert (TrackedOf(init) + [e])[..|TrackedOf(init)|] == TrackedOf(init);
    }
  }

  /** Erasing what was pushed leaves what was there. */
  lemma {:induction false} WithoutPushed(base: seq<Entry>, pushed: seq<Entry>, gone: seq<Entry>)
    requires forall i :: 0 <= i < |base| ==> base[i] !in gone
    requires forall i :: 0 <= i < |pushed| ==> pushed[i] in gone
    ensures Without(base + pushed, gone) == base
  {
    if pushed == [] {
      assert base + pushed == base;
      WithoutNothing(base, gone);
    } else {
      var init := pushed[..|pushed| - 1];
      assert (base + pushed)[..|base + pushed| - 1] == base + init;
      WithoutPushed(base, init, gone);
    }
  }

  lemma {:induction false} WithoutNothing(xs: seq<Entry>, gone: seq<Entry>)
    requires forall i :: 0 <= i < |xs| ==> xs[i] !in gone
    ensures Without(xs, gone) == xs
  {
    if xs != [] {
      WithoutNothing(xs[..|xs| - 1], gone);
    }
  }

  lemma {:induction false} OlderIsNotPushed(base: seq<Entry>, pushed: seq<Entry>, from: nat, next: nat)
    requires Below(base, from) && Fresh(pushed, from, next)
    ensures forall i :: 0 <= i < |base| ==> base[i] !in pushed
    ensures Without(base + pushed, pushed) == base
  {
    WithoutPushed(base, pushed, pushed);
  }

  /** The live entries once the step's are erased, from any log with the same live entries. */
  lemma {:induction false} EraseTracked(events: seq<Entry>, base: seq<Entry>, pushed: seq<Entry>, from: nat, next: nat)
    requires Below(base, from) && Fresh(pushed, from, next)
    requires TrackedOf(events) == TrackedOf(base + pushed)
    ensures TrackedOf(Without(events, pushed)) == TrackedOf(base)
  {
    TrackedWithout(events, pushed);
    TrackedWithout(base + pushed, pushed);
    OlderIsNotPushed(base, pushed, from, next);
  }

  /** Taking back the match an action archived: it comes off the end of the archive. */
  lemma UnarchiveLast(l: Log, rest: seq<Match>, m: Match)
    requires l.matches == rest + [m]
    ensures Unarchive(l, m) == l.(matches := rest,
                                  current := Some(Buffer(m.id, m.date, m.game, m.teams, m.events)),
                                  lastFinished := None)
  {
    assert l.matches[..|rest|] + l.matches[|rest| + 1..] == rest;
  }

  lemma MarkerIsNotLive(l: Log, what: What, r: Report)
    requires l.step == None && l.current.Some?
    ensures Live(Push(l, what, r).current) == Live(l.current) && Same(Push(l, what, r), l)
  {
    var events := l.current.value.events;
    var e := Entry(l.next, what, r.stamp, Score(r.state), Tally(r.state), Server(r), false);
    assert (events + [e])[..|events|] == events;
  }

  /** Reverting a step that archived nothing, from any log that shows what it left. */
  lemma RevertWritten(s0: Log, w: Log, s: Log)
    requires WellFormed(s0) && Writing(s0, w) && Same(s, w)
    ensures Same(Revert(s, w.step.value), s0)
  {
    var e := w.step.value;
    if e.reopened.Some? {
      assert Archive(s0, e) + [e.reopened.value.match_] == s0.matches;
    } else if s.current.Some? && w.current.Some? {
      assert Base(s0, e) + [] == Base(s0, e);
      EraseTracked(s.current.value.events, Base(s0, e), e.pushed, s0.next, w.next);
    } else if w.current.Some? {
      TrackedAppend(Base(s0, e), e.pushed);
      TrackedAll(e.pushed);
    }
  }

  /** Reverting a step that archived the match, while nothing fell off the archive. */
  lemma RevertArchived(s0: Log, w: Log, s: Log)
    requires WellFormed(s0) && Archived(s0, w) && Same(s, w)
    requires |Archive(s0, w.step.value)| < MAX_MATCHES
    ensures Same(Revert(s, w.step.value), s0)
  {
    var e := w.step.value;
    var m := e.finished.value.match_;
    var base := Base(s0, e);
    UnarchiveLast(s, Archive(s0, e), m);
    if e.reopened.Some? {
      assert Archive(s0, e) + [e.reopened.value.match_] == s0.matches;
    } else {
      OlderIsNotPushed(base, e.pushed, s0.next, w.next);
      assert base + [] == base;
    }
  }

  /** The step a journaled action leaves on the log's journal. */
  function StepOf(s0: Log, a: LogAction, r: Report): Step {
    var w := Write(s0.(step := Some(NewStep(s0))), a, r);
    w.step.GetOr(NewStep(s0))
  }

  /** The archive has room for the match an action may end. */
  predicate HasRoom(s0: Log, a: LogAction, r: Report) {
    Finishes(s0, a, r) ==> |Open(s0, a, r).matches| < MAX_MATCHES
  }

  lemma RecordPushesItsStep(s0: Log, a: LogAction, r: Report)
    requires WellFormed(s0)
    ensures var w := Write(s0.(step := Some(NewStep(s0))), a, r);
            && w.step == Some(StepOf(s0, a, r))
            && Record(s0, a, r, true) == w.(journal := Newest(s0.journal + [StepOf(s0, a, r)], MAX_UNDO), step := None)
  {
    if !a.Reset? {
      WriteSummary(s0, a, r);
    }
  }

  lemma RevertTakesBack(s0: Log, a: LogAction, r: Report, s: Log)
    requires WellFormed(s0) && HasRoom(s0, a, r)
    requires Same(s, Write(s0.(step := Some(NewStep(s0))), a, r))
    ensures Same(Revert(s, StepOf(s0, a, r)), s0)
  {
    var w := Write(s0.(step := Some(NewStep(s0))), a, r);
    if !a.Reset? {
      WriteSummary(s0, a, r);
      if !Finishes(s0, a, r) {
        RevertWritten(s0, w, s);
      } else {
        RevertArchived(s0, w, s);
      }
    }
  }

  lemma RevertKeepsTheRest(l: Log, e: Step)
    ensures Revert(l, e).journal == l.journal && Revert(l, e).step == l.step && Revert(l, e).next == l.next
  {
  }

  lemma UndoIsRevertAndMarker(s: Log, r: Report, words: string)
    requires s.step == None && s.journal != []
    ensures var n := |s.journal| - 1;
            var back := Revert(s.(journal := s.journal[..n]), s.journal[n]);
            Same(UndoLast(s, r, words), back) && UndoLast(s, r, words).journal == s.journal[..n]
  {
    var n := |s.journal| - 1;
    var popped := s.(journal := s.journal[..n]);
    var back := Revert(popped, s.journal[n]);
    RevertKeepsTheRest(popped, s.journal[n]);
    if back.current.Some? {
      MarkerIsNotLive(back, TakenBack(words), r);
    }
  }

  /** The log's undo is an exact inverse: whatever a journaled action did to the log - started a match,
      finished it, reopened it, reset the board - undoing it from any log that shows what it left
      restores the archive and the live entries, while the archive has room. */
  lemma UndoTakesBack(s0: Log, a: LogAction, r: Report, s: Log, later: Report, words: string)
    requires WellFormed(s0) && s.step == None
    requires Same(s, Record(s0, a, r, true))
    requires s.journal != [] && s.journal[|s.journal| - 1] == StepOf(s0, a, r)
    requires HasRoom(s0, a, r)
    ensures Same(UndoLast(s, later, words), s0)
    ensures UndoLast(s, later, words).journal == s.journal[..|s.journal| - 1]
  {
    RecordPushesItsStep(s0, a, r);
    var popped := s.(journal := s.journal[..|s.journal| - 1]);
    RevertTakesBack(s0, a, r, popped);
    UndoIsRevertAndMarker(s, later, words);
    SameTransitive(UndoLast(s, later, words), Revert(popped, StepOf(s0, a, r)), s0);
  }

  /** Without room the archive is not restored: the oldest match fell off when the new one came. */
  lemma FullArchiveLosesItsOldest(s0: Log, a: LogAction, r: Report, later: Report, words: string)
    requires WellFormed(s0) && !HasRoom(s0, a, r)
    ensures UndoLast(Record(s0, a, r, true), later, words).matches != s0.matches
  {
    var w := Write(s0.(step := Some(NewStep(s0))), a, r);
    var s := Record(s0, a, r, true);
    var e := StepOf(s0, a, r);
    RecordPushesItsStep(s0, a, r);
    WriteSummary(s0, a, r);
    UndoIsRevertAndMarker(s, later, words);
    assert s.journal[|s.journal| - 1] == e;
    FullRevert(s0, w, s.(journal := s.journal[..|s.journal| - 1]));
  }

  lemma FullRevert(s0: Log, w: Log, s: Log)
    requires Archived(s0, w) && s.matches == w.matches
    requires MAX_MATCHES <= |Archive(s0, w.step.value)|
    ensures Revert(s, w.step.value).matches != s0.matches
  {
    var e := w.step.value;
    var m := e.finished.value.match_;
    var rest := (Archive(s0, e) + [m])[|Archive(s0, e)| + 1 - MAX_MATCHES..|Archive(s0, e)|];
    assert s.matches == rest + [m];
    UnarchiveLast(s, rest, m);
    assert |Revert(s, e).matches| < |s0.matches|;
  }

  /** So what an action did to the log is undone exactly when the archive had
      room for the match it may have ended. */
  lemma UndoneExactly(s0: Log, a: LogAction, r: Report, later: Report, words: string)
    requires WellFormed(s0)
    ensures Same(UndoLast(Record(s0, a, r, true), later, words), s0) <==> HasRoom(s0, a, r)
  {
    if HasRoom(s0, a, r) {
      RecordPushesItsStep(s0, a, r);
      UndoTakesBack(s0, a, r, Record(s0, a, r, true), later, words);
    } else {
      FullArchiveLosesItsOldest(s0, a, r, later, words);
    }
  }

  /** A log on a board that has seen a hundred matches, with the next one in progress. */
  const FULL: Log :=
    Log(seq(MAX_MATCHES, i requires 0 <= i < MAX_MATCHES => Match(i, i, 0, None, Pair("A", "B"), Pair(3, 0), [], [])),
        Some(Buffer(100, 0, None, Pair("A", "B"), [])), None, [], None, None, 101)

  /** Its match point, undone, does not bring the archive back. */
  lemma FullArchiveIsNotRestored(side: Option<Side>, r: Report, later: Report, words: string)
    requires r.event == MatchEnd
    ensures !Same(UndoLast(Record(FULL, Point(side, 1, None), r, true), later, words), FULL)
  {
    UndoneExactly(FULL, Point(side, 1, None), r, later, words);
  }

  /** Without a step open nothing reaches the journal. */
  lemma NoStepNoJournal(l: Log, a: LogAction, r: Report)
    requires l.step == None
    ensures Record(l, a, r, false).journal == l.journal
  {
    assert l.(step := None) == l;
    if !a.Reset? {
      var o := Open(l, a, r);
      assert o.step == None && o.journal == l.journal;
      if o.current.Some? {
        FillLeavesJournal(o, a, r);
      }
    }
  }

  lemma CloseLeavesJournal(l: Log, r: Report)
    requires l.step == None && l.current.Some?
    ensures Close(l, r).step == None && Close(l, r).journal == l.journal
  {
  }

  lemma FillLeavesJournal(l: Log, a: LogAction, r: Report)
    requires l.step == None && l.current.Some?
    ensures Fill(l, a, r).step == None && Fill(l, a, r).journal == l.journal
  {
    var named := l.(current := Some(l.current.value.(teams := Names(r.state))));
    var entry := EntryFor(a, r.state);
    CloseLeavesJournal(if entry.Some? then Push(named, entry.value, r) else named, r);
  }

  // ---- Entries made by no journaled action -------------------------------------------------------

  /** Does the action reopen the last archived match? */
  predicate Reopens(l: Log, a: LogAction, r: Report) {
    !a.Reset? && l.current == None && l.lastFinished.Some? && UndoesFinish(l, a, r.state)
  }

  /** The action ends no match, reopens none, and closes none in progress. */
  predicate Harmless(l: Log, a: LogAction, r: Report) {
    !Finishes(l, a, r) && !Reopens(l, a, r) && (a.Reset? ==> Live(l.current) == [])
  }

  lemma CloseIsNotLive(l: Log, r: Report)
    requires l.step == None && l.current.Some? && r.event !in {MatchEnd, GameEnd}
    ensures Same(Close(l, r), l) && Close(l, r).step == None && Close(l, r).journal == l.journal
  {
    match r.event {
      case SetEnd => MarkerIsNotLive(l, ClosingSet(r.state), r);
      case SwitchDue => MarkerIsNotLive(l, SwitchWasDue, r);
      case PeriodEnd => MarkerIsNotLive(l, PeriodEnded(Max(1, r.state.period) - 1), r);
      case _ =>
    }
  }

  lemma FillIsNotLive(l: Log, a: LogAction, r: Report)
    requires l.step == None && l.current.Some? && r.event !in {MatchEnd, GameEnd}
    ensures Same(Fill(l, a, r), l) && Fill(l, a, r).journal == l.journal
  {
    var named := l.(current := Some(l.current.value.(teams := Names(r.state))));
    var entry := EntryFor(a, r.state);
    if entry.Some? {
      MarkerIsNotLive(named, entry.value, r);
      CloseIsNotLive(Push(named, entry.value, r), r);
    } else {
      CloseIsNotLive(named, r);
    }
  }

  lemma OpenIsNotLive(l: Log, a: LogAction, r: Report)
    requires l.step == None && !Reopens(l, a, r) && !a.Reset?
    ensures var o := Open(l, a, r); Same(o, l) && o.step == None && o.journal == l.journal
  {
  }

  lemma UnjournaledIsNotLive(l: Log, a: LogAction, r: Report)
    requires l.step == None && Harmless(l, a, r)
    ensures Same(Record(l, a, r, false), l) && Record(l, a, r, false).journal == l.journal
  {
    assert l.(step := None) == l;
    if !a.Reset? {
      OpenIsNotLive(l, a, r);
      var o := Open(l, a, r);
      if o.current.Some? {
        FillIsNotLive(o, a, r);
        SameTransitive(Fill(o, a, r), o, l);
      }
      assert Record(l, a, r, false) == Write(l, a, r).(step := None);
    }
  }

  lemma CloseArchivesAnew(l: Log, r: Report)
    requires l.current.Some?
    ensures var c := Close(l, r);
            if r.event in {MatchEnd, GameEnd} then c.matches != [] && c.matches[|c.matches| - 1].oid >= l.next
            else c.matches == l.matches
  {
  }

  lemma FillArchivesAnew(l: Log, a: LogAction, r: Report)
    requires l.current.Some?
    ensures var f := Fill(l, a, r);
            if r.event in {MatchEnd, GameEnd} then f.matches != [] && f.matches[|f.matches| - 1].oid >= l.next
            else f.matches == l.matches
  {
    var named := l.(current := Some(l.current.value.(teams := Names(r.state))));
    var entry := EntryFor(a, r.state);
    CloseArchivesAnew(if entry.Some? then Push(named, entry.value, r) else named, r);
  }

  /** A harmful action does change what the log shows: the archive, or the live entries a reset drops. */
  lemma HarmShows(l: Log, a: LogAction, r: Report)
    requires WellFormed(l) && !Harmless(l, a, r)
    ensures !Same(Record(l, a, r, false), l)
  {
    assert l.(step := None) == l;
    if !a.Reset? {
      var o := Open(l, a, r);
      assert o.next >= l.next && (Reopens(l, a, r) ==> |o.matches| < |l.matches|);
      if o.current.Some? {
        FillArchivesAnew(o, a, r);
      }
    }
  }

  /** An action the source did not journal, persisted all the same, leaves the archive and the live
      entries alone exactly when it is harmless. */
  lemma UnjournaledExactly(l: Log, a: LogAction, r: Report)
    requires WellFormed(l)
    ensures Same(Record(l, a, r, false), l) <==> Harmless(l, a, r)
    ensures Harmless(l, a, r) ==> Record(l, a, r, false).journal == l.journal
  {
    if Harmless(l, a, r) {
      UnjournaledIsNotLive(l, a, r);
    } else {
      HarmShows(l, a, r);
    }
  }

  // ---- A match that a reset dropped --------------------------------------------------------------------

  /** Undoing an action of a match that has been dropped since: the archive is restored, and nothing of
      the match comes back. */
  lemma UndoOfDropped(s0: Log, a: LogAction, r: Report, s: Log, later: Report, words: string)
    requires WellFormed(s0) && s.step == None
    requires s.journal != [] && s.journal[|s.journal| - 1] == StepOf(s0, a, r)
    requires var rec := Record(s0, a, r, true);
             rec.current.Some? && s.matches == rec.matches && Live(s.current) == []
    ensures var u := UndoLast(s, later, words);
            u.matches == s0.matches && Live(u.current) == [] && u.journal == s.journal[..|s.journal| - 1]
  {
    var w := Write(s0.(step := Some(NewStep(s0))), a, r);
    RecordPushesItsStep(s0, a, r);
    WriteSummary(s0, a, r);
    RevertDropped(s0, w, s.(journal := s.journal[..|s.journal| - 1]));
    UndoIsRevertAndMarker(s, later, words);
  }

  lemma RevertDropped(s0: Log, w: Log, s: Log)
    requires WellFormed(s0) && Writing(s0, w) && w.current.Some? && s.matches == w.matches && Live(s.current) == []
    ensures var u := Revert(s, w.step.value); u.matches == s0.matches && Live(u.current) == []
  {
    var e := w.step.value;
    if s.current.Some? {
      TrackedWithout(s.current.value.events, e.pushed);
    }
  }

  // ---- Every older entry -----------------------------------------------------------------------------

  /** The entries made before `next`. */
  function Before(events: seq<Entry>, next: nat): seq<Entry> {
    if events == [] then []
    else
      var init := Before(events[..|events| - 1], next);
      var e := events[|events| - 1];
      if e.uid < next then init + [e] else init
  }

  /** Every entry the match in progress had in `s` - of un-journaled actions and undo markers too - is still
      there in `x`, in order, and nothing else as old. */
  predicate KeepsOld(x: Log, s: Log) {
    s.current.Some? ==> x.current.Some? && Before(x.current.value.events, s.next) == s.current.value.events
  }

  lemma {:induction false} BeforeAppends(xs: seq<Entry>, ys: seq<Entry>, next: nat)
    requires Below(xs, next) && forall i :: 0 <= i < |ys| ==> ys[i].uid >= next
    ensures Before(xs + ys, next) == xs
    decreases |xs| + |ys|
  {
    var all := xs + ys;
    if ys != [] {
      assert all[..|all| - 1] == xs + ys[..|ys| - 1];
      BeforeAppends(xs, ys[..|ys| - 1], next);
    } else if xs != [] {
      assert all == xs && xs[..|xs| - 1] + [] == xs[..|xs| - 1];
      BeforeAppends(xs[..|xs| - 1], [], next);
    }
  }

  lemma {:induction false} BeforeBefore(xs: seq<Entry>, m: nat, n: nat)
    requires n <= m
    ensures Before(Before(xs, m), n) == Before(xs, n)
  {
    if xs != [] {
      BeforeBefore(xs[..|xs| - 1], m, n);
      var init := Before(xs[..|xs| - 1], m);
      assert (init + [xs[|xs| - 1]])[..|init|] == init;
    }
  }

  /** Erasing newer entries leaves the older ones. */
  lemma {:induction false} BeforeWithout(xs: seq<Entry>, gone: seq<Entry>, next: nat)
    requires forall i :: 0 <= i < |gone| ==> gone[i].uid >= next
    ensures Before(Without(xs, gone), next) == Before(xs, next)
  {
    if xs != [] {
      BeforeWithout(xs[..|xs| - 1], gone, next);
      var init := Without(xs[..|xs| - 1], gone);
      assert (init + [xs[|xs| - 1]])[..|init|] == init;
    }
  }

  /** The same match in progress goes on, with newer entries only. */
  predicate GoesOn(l: Log, n: Log) {
    && l.current.Some? && n.current.Some? && n.next >= l.next
    && l.current.value.events <= n.current.value.events
    && forall i :: |l.current.value.events| <= i < |n.current.value.events| ==> n.current.value.events[i].uid >= l.next
  }

  lemma OldThrough(x: Log, n: Log, l: Log)
    requires KeepsOld(x, n) && GoesOn(l, n) && BufferBelow(l.current, l.next)
    ensures KeepsOld(x, l)
  {
    var first, now := l.current.value.events, n.current.value.events;
    BeforeBefore(x.current.value.events, n.next, l.next);
    assert now == first + now[|first|..];
    BeforeAppends(first, now[|first|..], l.next);
  }

  lemma PushGoesOn(l: Log, what: What, r: Report)
    requires l.current.Some?
    ensures GoesOn(l, Push(l, what, r))
  {
  }

  lemma CloseGoesOn(l: Log, r: Report)
    requires l.current.Some? && r.event !in {MatchEnd, GameEnd}
    ensures GoesOn(l, Close(l, r))
  {
  }

  lemma FillGoesOn(l: Log, a: LogAction, r: Report)
    requires l.current.Some? && r.event !in {MatchEnd, GameEnd}
    ensures GoesOn(l, Fill(l, a, r))
  {
    var named := l.(current := Some(l.current.value.(teams := Names(r.state))));
    var entry := EntryFor(a, r.state);
    var pushed := if entry.Some? then Push(named, entry.value, r) else named;
    if entry.Some? {
      PushGoesOn(named, entry.value, r);
    }
    CloseGoesOn(pushed, r);
    hide Close, Push, EntryFor, Names;
    assert GoesOn(l, pushed);
  }

  lemma RecordGoesOn(l: Log, a: LogAction, r: Report, undoable: bool)
    requires l.current.Some? && !a.Reset? && !Finishes(l, a, r)
    ensures GoesOn(l, Record(l, a, r, undoable))
  {
    var l1 := l.(step := if undoable then Some(NewStep(l)) else None);
    assert Open(l1, a, r) == l1;
    FillGoesOn(l1, a, r);
  }

  lemma MarkerKeepsOld(x: Log, what: What, r: Report, s: Log)
    requires KeepsOld(x, s) && x.next >= s.next && x.current.Some?
    ensures KeepsOld(Push(x, what, r), s)
  {
    var events := x.current.value.events;
    if |events| < MAX_EVENTS {
      var e := Push(x, what, r).current.value.events[|events|];
      assert (events + [e])[..|events|] == events;
    }
  }

  /** A journaled action that archived nothing: its undo leaves every older entry. */
  lemma RevertKeepsOld(s0: Log, w: Log, s: Log)
    requires WellFormed(s0) && Writing(s0, w) && s0.current.Some? && w.current.Some?
    requires KeepsOld(s, w)
    ensures KeepsOld(Revert(s, w.step.value), s0)
  {
    var e := w.step.value;
    var first, now := s0.current.value.events, w.current.value.events;
    assert now == first + e.pushed && now[|first|..] == e.pushed;
    assert GoesOn(s0, w);
    OldThrough(s, w, s0);
    BeforeWithout(s.current.value.events, e.pushed, s0.next);
  }

  /** A journaled action that archived the match: its undo brings it back with every older entry. */
  lemma RevertBringsBack(s0: Log, w: Log, s: Log)
    requires WellFormed(s0) && Archived(s0, w) && s0.current.Some? && s.matches == w.matches
    ensures KeepsOld(Revert(s, w.step.value), s0)
  {
    var e := w.step.value;
    var m := e.finished.value.match_;
    var grown := Archive(s0, e) + [m];
    UnarchiveLast(s, s.matches[..|s.matches| - 1], m);
    OlderIsNotPushed(s0.current.value.events, e.pushed, s0.next, w.next);
    assert s0.current.value.events + [] == s0.current.value.events;
    BeforeAppends(s0.current.value.events, [], s0.next);
  }

  /** So the log's undo leaves every entry older than the action it takes back. */
  lemma UndoKeepsOld(s0: Log, a: LogAction, r: Report, s: Log, later: Report, words: string)
    requires WellFormed(s0) && s.step == None && s.next >= s0.next
    requires s.journal != [] && s.journal[|s.journal| - 1] == StepOf(s0, a, r)
    requires var rec := Record(s0, a, r, true); s.matches == rec.matches && KeepsOld(s, rec)
    ensures KeepsOld(UndoLast(s, later, words), s0)
  {
    if s0.current.Some? {
      var popped := s.(journal := s.journal[..|s.journal| - 1]);
      var back := Revert(popped, StepOf(s0, a, r));
      var w := Write(s0.(step := Some(NewStep(s0))), a, r);
      RecordPushesItsStep(s0, a, r);
      RevertKeepsTheRest(popped, StepOf(s0, a, r));
      if a.Reset? {
        assert s0.current.value.events + [] == s0.current.value.events;
        BeforeAppends(s0.current.value.events, [], s0.next);
      } else {
        WriteSummary(s0, a, r);
        if Finishes(s0, a, r) {
          RevertBringsBack(s0, w, popped);
        } else {
          RecordGoesOn(s0, a, r, true);
          RevertKeepsOld(s0, w, popped);
        }
      }
      hide Record, Write, StepOf, Finishes, Revert, Push, KeepsOld;
      if back.current.Some? {
        MarkerKeepsOld(back, TakenBack(words), later, s0);
      }
    }
  }

  /** An action the source did not journal leaves every older entry, unless it ends the match or resets. */
  lemma QuietKeepsOld(x: Log, l: Log, a: LogAction, r: Report)
    requires WellFormed(l) && !a.Reset? && !Finishes(l, a, r) && KeepsOld(x, Record(l, a, r, false))
    ensures KeepsOld(x, l)
  {
    if l.current.Some? {
      RecordGoesOn(l, a, r, false);
      OldThrough(x, Record(l, a, r, false), l);
    }
  }

  /** Identities only grow. */
  lemma RecordNext(l: Log, a: LogAction, r: Report, undoable: bool)
    ensures Record(l, a, r, undoable).next >= l.next
  {
    if !a.Reset? {
      var l1 := l.(step := if undoable then Some(NewStep(l)) else None);
      var o := Open(l1, a, r);
      if o.current.Some? {
        var named := o.(current := Some(o.current.value.(teams := Names(r.state))));
        var entry := EntryFor(a, r.state);
        CloseNext(if entry.Some? then Push(named, entry.value, r) else named, r);
      }
    }
  }

  lemma CloseNext(l: Log, r: Report)
    requires l.current.Some?
    ensures Close(l, r).next >= l.next
  {
  }

  // ---- The identities stay in order ----------------------------------------------------------------

  /** `WellFormed`, also while an action is being written. */
  predicate Bounded(l: Log) {
    && ArchiveBelow(l.matches, l.next)
    && BufferBelow(l.current, l.next) && FinishedBelow(l.lastFinished, l.next)
    && (forall i :: 0 <= i < |l.journal| ==> StepBelow(l.journal[i], l.next))
    && (l.step.Some? ==> StepBelow(l.step.value, l.next))
  }

  lemma StepStaysBelow(e: Step, next: nat)
    requires StepBelow(e, next)
    ensures StepBelow(e, next + 1)
  {
  }

  lemma JournalStaysBelow(journal: seq<Step>, next: nat)
    requires forall i :: 0 <= i < |journal| ==> StepBelow(journal[i], next)
    ensures forall i :: 0 <= i < |journal| ==> StepBelow(journal[i], next + 1)
  {
    forall i | 0 <= i < |journal|
      ensures StepBelow(journal[i], next + 1)
    {
      StepStaysBelow(journal[i], next);
    }
  }

  lemma PushKeepsBounded(l: Log, what: What, r: Report)
    requires Bounded(l) && l.current.Some?
    ensures Bounded(Push(l, what, r)) && Push(l, what, r).current.Some?
  {
    JournalStaysBelow(l.journal, l.next);
  }

  lemma OpenKeepsBounded(l: Log, a: LogAction, r: Report)
    requires Bounded(l)
    ensures Bounded(Open(l, a, r))
  {
    JournalStaysBelow(l.journal, l.next);
  }

  lemma FinishKeepsBounded(l: Log, r: Report, gameEnd: bool)
    requires Bounded(l) && l.current.Some?
    ensures Bounded(Finish(l, r, gameEnd))
  {
    JournalStaysBelow(l.journal, l.next);
  }

  lemma CloseKeepsBounded(l: Log, r: Report)
    requires Bounded(l) && l.current.Some?
    ensures Bounded(Close(l, r))
  {
    var period := Max(1, r.state.period);
    match r.event {
      case SetEnd => PushKeepsBounded(l, ClosingSet(r.state), r);
      case SwitchDue => PushKeepsBounded(l, SwitchWasDue, r);
      case PeriodEnd => PushKeepsBounded(l, PeriodEnded(period - 1), r);
      case MatchEnd =>
        PushKeepsBounded(l, ClosingSet(r.state), r);
        var l1 := Push(l, ClosingSet(r.state), r);
        PushKeepsBounded(l1, MatchOver, r);
        FinishKeepsBounded(Push(l1, MatchOver, r), r, false);
      case GameEnd =>
        PushKeepsBounded(l, PeriodEnded(period), r);
        var l1 := Push(l, PeriodEnded(period), r);
        PushKeepsBounded(l1, MatchOver, r);
        FinishKeepsBounded(Push(l1, MatchOver, r), r, true);
      case _ =>
    }
  }

  lemma WriteKeepsBounded(l: Log, a: LogAction, r: Report)
    requires Bounded(l)
    ensures Bounded(Write(l, a, r))
  {
    if !a.Reset? {
      OpenKeepsBounded(l, a, r);
      var o := Open(l, a, r);
      if o.current.Some? {
        var named := o.(current := Some(o.current.value.(teams := Names(r.state))));
        var entry := EntryFor(a, r.state);
        if entry.Some? {
          PushKeepsBounded(named, entry.value, r);
        }
        CloseKeepsBounded(if entry.Some? then Push(named, entry.value, r) else named, r);
      }
    }
  }

  lemma RecordKeepsWellFormed(l: Log, a: LogAction, r: Report, undoable: bool)
    requires WellFormed(l)
    ensures WellFormed(Record(l, a, r, undoable))
  {
    var l1 := l.(step := if undoable then Some(NewStep(l)) else None);
    assert Bounded(l1);
    WriteKeepsBounded(l1, a, r);
    var w := Write(l1, a, r);
    if w.step.Some? {
      var grown := w.journal + [w.step.value];
      assert forall i :: 0 <= i < |grown| ==> StepBelow(grown[i], w.next);
    }
  }

  lemma {:induction false} WithoutStaysBelow(events: seq<Entry>, gone: seq<Entry>, next: nat)
    requires Below(events, next)
    ensures Below(Without(events, gone), next)
  {
    if events != [] {
      WithoutStaysBelow(events[..|events| - 1], gone, next);
    }
  }

  lemma UnarchiveKeepsBounded(l: Log, m: Match)
    requires Bounded(l) && Below(m.events, l.next)
    ensures Bounded(Unarchive(l, m)) && Unarchive(l, m).next == l.next
  {
  }

  lemma EraseKeepsBounded(l: Log, gone: seq<Entry>)
    requires Bounded(l)
    ensures Bounded(Erase(l, gone)) && Erase(l, gone).next == l.next
  {
    if l.current.Some? {
      WithoutStaysBelow(l.current.value.events, gone, l.next);
    }
  }

  lemma RevertKeepsBounded(l: Log, e: Step)
    requires Bounded(l) && StepBelow(e, l.next)
    ensures Bounded(Revert(l, e))
  {
    if !e.reset {
      if e.finished.Some? {
        UnarchiveKeepsBounded(l, e.finished.value.match_);
      }
      EraseKeepsBounded(if e.finished.Some? then Unarchive(l, e.finished.value.match_) else l, e.pushed);
    }
  }

  lemma UndoKeepsWellFormed(l: Log, r: Report, words: string)
    requires WellFormed(l)
    ensures WellFormed(UndoLast(l, r, words))
  {
    if l.journal == [] {
      if l.current.Some? {
        PushKeepsBounded(l, TakenBack(words), r);
      }
    } else {
      var n := |l.journal| - 1;
      var popped := l.(journal := l.journal[..n]);
      RevertKeepsBounded(popped, l.journal[n]);
      var back := Revert(popped, l.journal[n]);
      if back.current.Some? {
        PushKeepsBounded(back, TakenBack(words), r);
      }
    }
  }
}
