/** How the control server glues a scoring source to the match log (persist, clearUndo and the
    /api/action path of src/controlServer.js), and why their two undo journals stay in step. */
module ControlServer {
  import opened Basics
  import opened LiveStates
  import opened UndoJournals
  import opened History
  import opened HistoryUndo

  datatype Stepped<+B> = Stepped(board: B, event: Event)

  /** A scoring source as the server drives it: one action, the state it reports (under a match
      format), and what the log reads of the action. */
  datatype Rig<!B, !A> = Rig(step: (B, A) -> Stepped<B>, state: (B, int) -> LiveState,
                             entry: A -> LogAction, basketball: bool)

  /** The source's board and undo journal, and the log. */
  datatype Sys<+B> = Sys(board: B, stack: seq<B>, log: Log)

  datatype Op<+A> =
    | Apply(a: A, bestOf: int, stamp: int)
    | TakeBack(bestOf: int, stamp: int, words: string)
    | ClearUndo
    | ClearLog
    | FileUnder(game: Option<int>)

  function ReportOf<B, A>(rig: Rig<B, A>, b: B, event: Event, bestOf: int, stamp: int): Report {
    Report(rig.state(b, bestOf), event, stamp, rig.basketball)
  }

  /** One request. A refused tap and an undo with nothing to undo are answered without the log. */
  function Serve<B(==), A>(rig: Rig<B, A>, s: Sys<B>, op: Op<A>): Sys<B> {
    match op
    case Apply(a, bestOf, stamp) =>
      var t := rig.step(s.board, a);
      var r := ReportOf(rig, t.board, t.event, bestOf, stamp);
      Sys(t.board, Recorded(s.stack, s.board, t.board, UNDO_MAX),
          if t.event == SetClosed then s.log else Record(s.log, rig.entry(a), r, t.board != s.board))
    case TakeBack(bestOf, stamp, words) =>
      if s.stack == [] then s
      else
        var n := |s.stack| - 1;
        var b := s.stack[n];
        Sys(b, s.stack[..n], UndoLast(s.log, ReportOf(rig, b, Undone, bestOf, stamp), words))
    case ClearUndo => Sys(s.board, [], s.log.(journal := []))
    case ClearLog => Sys(s.board, s.stack, Cleared(s.log))
    case FileUnder(game) => Sys(s.board, s.stack, Filed(s.log, game))
  }

  function ServeAll<B(==), A>(rig: Rig<B, A>, s: Sys<B>, ops: seq<Op<A>>): Sys<B>
    decreases |ops|
  {
    if ops == [] then s else ServeAll(rig, Serve(rig, s, ops[0]), ops[1..])
  }

  /** A source that refuses a tap leaves its board alone. */
  ghost predicate Honest<B(!new), A(!new)>(rig: Rig<B, A>) {
    forall b, a {:trigger rig.step(b, a)} :: rig.step(b, a).event == SetClosed ==> rig.step(b, a).board == b
  }

  // ---- The two journals are one trail -----------------------------------------------------------

  /** One journaled action: the board and the log before it, and what the log was told. */
  datatype Link<+B> = Link(board: B, log: Log, a: LogAction, r: Report)

  function BoardsOf<B>(trail: seq<Link<B>>): (boards: seq<B>)
    ensures |boards| == |trail|
    ensures forall i :: 0 <= i < |trail| ==> boards[i] == trail[i].board
  {
    seq(|trail|, i requires 0 <= i < |trail| => trail[i].board)
  }

  /** What the link's action left on the log's journal. */
  function StepLeft<B>(t: Link<B>): Step {
    StepOf(t.log, t.a, t.r)
  }

  /** The journal is, entry for entry, what the newest actions of the trail did to the log. */
  predicate Remembers<B>(journal: seq<Step>, trail: seq<Link<B>>) {
    && |journal| <= |trail|
    && forall i :: 0 <= i < |journal| ==> journal[i] == StepLeft(trail[|trail| - |journal| + i])
  }

  /** The source's journal is the boards of one trail of actions, and the log's journal is, entry for
      entry, what the newest of those same actions did to the log; both within their cap. */
  predicate Aligned<B(==)>(s: Sys<B>, trail: seq<Link<B>>) {
    && |s.stack| <= UNDO_MAX && s.stack == BoardsOf(trail)
    && |s.log.journal| <= MAX_UNDO && Remembers(s.log.journal, trail)
    && WellFormed(s.log)
  }

  lemma RemembersPush<B>(journal: seq<Step>, trail: seq<Link<B>>, t: Link<B>)
    requires Remembers(journal, trail)
    ensures Remembers(Newest(journal + [StepLeft(t)], MAX_UNDO), Newest(trail + [t], UNDO_MAX))
  {
    hide StepLeft;
  }

  lemma PushBoards<B>(trail: seq<Link<B>>, t: Link<B>)
    ensures BoardsOf(Newest(trail + [t], UNDO_MAX)) == Newest(BoardsOf(trail) + [t.board], UNDO_MAX)
  {
  }

  /** The trail after a request. */
  function NextTrail<B(==), A>(rig: Rig<B, A>, s: Sys<B>, trail: seq<Link<B>>, op: Op<A>): seq<Link<B>> {
    match op
    case Apply(a, bestOf, stamp) =>
      var t := rig.step(s.board, a);
      if t.board == s.board then trail
      else
        var r := ReportOf(rig, t.board, t.event, bestOf, stamp);
        Newest(trail + [Link(s.board, s.log, rig.entry(a), r)], UNDO_MAX)
    case TakeBack(_, _, _) => if trail == [] then trail else trail[..|trail| - 1]
    case ClearUndo => []
    case ClearLog => trail
    case FileUnder(_) => trail
  }

  lemma WriteLeavesJournal(l: Log, a: LogAction, r: Report)
    requires WellFormed(l)
    ensures Record(l, a, r, true).journal == Newest(l.journal + [StepOf(l, a, r)], MAX_UNDO)
  {
    RecordPushesItsStep(l, a, r);
  }

  lemma UndoPopsJournal(l: Log, r: Report, words: string)
    requires WellFormed(l)
    ensures UndoLast(l, r, words).journal == if l.journal == [] then [] else l.journal[..|l.journal| - 1]
  {
    if l.journal != [] {
      UndoIsRevertAndMarker(l, r, words);
    }
  }

  lemma ServeKeepsWellFormed<B, A>(rig: Rig<B, A>, s: Sys<B>, op: Op<A>)
    requires WellFormed(s.log)
    ensures WellFormed(Serve(rig, s, op).log)
  {
    match op
    case Apply(a, bestOf, stamp) =>
      var t := rig.step(s.board, a);
      RecordKeepsWellFormed(s.log, rig.entry(a), ReportOf(rig, t.board, t.event, bestOf, stamp), t.board != s.board);
    case TakeBack(bestOf, stamp, words) =>
      if s.stack != [] {
        UndoKeepsWellFormed(s.log, ReportOf(rig, s.stack[|s.stack| - 1], Undone, bestOf, stamp), words);
      }
    case ClearUndo =>
    case ClearLog =>
    case FileUnder(_) =>
  }

  lemma ApplyKeepsAligned<B(!new), A(!new)>(rig: Rig<B, A>, s: Sys<B>, trail: seq<Link<B>>, op: Op<A>)
    requires Honest(rig) && op.Apply? && Aligned(s, trail)
    ensures Aligned(Serve(rig, s, op), NextTrail(rig, s, trail, op))
  {
    var t := rig.step(s.board, op.a);
    var r := ReportOf(rig, t.board, t.event, op.bestOf, op.stamp);
    var a := rig.entry(op.a);
    ServeKeepsWellFormed(rig, s, op);
    if t.board != s.board {
      var link := Link(s.board, s.log, a, r);
      WriteLeavesJournal(s.log, a, r);
      hide Record, StepOf, WellFormed;
      RemembersPush(s.log.journal, trail, link);
      PushBoards(trail, link);
    } else if t.event != SetClosed {
      NoStepNoJournal(s.log, a, r);
    }
  }

  /** Every request keeps the two journals aligned. */
  lemma ServeKeepsAligned<B(!new), A(!new)>(rig: Rig<B, A>, s: Sys<B>, trail: seq<Link<B>>, op: Op<A>)
    requires Honest(rig) && Aligned(s, trail)
    ensures Aligned(Serve(rig, s, op), NextTrail(rig, s, trail, op))
  {
    hide WellFormed, UndoLast, Record, StepOf;
    ServeKeepsWellFormed(rig, s, op);
    match op
    case Apply(_, _, _) =>
      ApplyKeepsAligned(rig, s, trail, op);
    case TakeBack(bestOf, stamp, words) =>
      if s.stack != [] {
        UndoPopsJournal(s.log, ReportOf(rig, s.stack[|s.stack| - 1], Undone, bestOf, stamp), words);
        assert BoardsOf(trail)[..|trail| - 1] == BoardsOf(trail[..|trail| - 1]);
      }
    case ClearUndo =>
    case ClearLog =>
    case FileUnder(_) =>
  }

  function TrailAfter<B(==), A>(rig: Rig<B, A>, s: Sys<B>, trail: seq<Link<B>>, ops: seq<Op<A>>): seq<Link<B>>
    decreases |ops|
  {
    if ops == [] then trail
    else TrailAfter(rig, Serve(rig, s, ops[0]), NextTrail(rig, s, trail, ops[0]), ops[1..])
  }

  /** Over every run of actions, undos, undo-clears, log clears and filings, the log's journal matches
      the top of the source's journal entry for entry. */
  lemma {:induction false} JournalsStayAligned<B(!new), A(!new)>(
    rig: Rig<B, A>, s: Sys<B>, trail: seq<Link<B>>, ops: seq<Op<A>>)
    requires Honest(rig) && Aligned(s, trail)
    ensures Aligned(ServeAll(rig, s, ops), TrailAfter(rig, s, trail, ops))
    decreases |ops|
  {
    if ops == [] {
    } else {
      hide Aligned, Serve, NextTrail;
      ServeKeepsAligned(rig, s, trail, ops[0]);
      JournalsStayAligned(rig, Serve(rig, s, ops[0]), NextTrail(rig, s, trail, ops[0]), ops[1..]);
    }
  }

  /** A source and a log as they start, with whatever archive was read from disk. */
  function Started<B>(b: B, archive: seq<Match>, next: nat): Sys<B> {
    Sys(b, [], History.Started(archive, next))
  }

  /** They are aligned: nothing to undo in either. */
  lemma FreshIsAligned<B>(b: B, archive: seq<Match>, next: nat)
    requires ArchiveBelow(archive, next)
    ensures Aligned(Started(b, archive, next), [])
  {
  }

  // ---- k actions, k undos -----------------------------------------------------------------------

  /** 1 when the source journaled the action. */
  function Steps<B(==), A>(rig: Rig<B, A>, s: Sys<B>, op: Op<A>): nat {
    if Serve(rig, s, op).board == s.board then 0 else 1
  }

  /** How many of these actions the source journaled. */
  function Journaled<B(==), A>(rig: Rig<B, A>, s: Sys<B>, ops: seq<Op<A>>): nat
    decreases |ops|
  {
    if ops == [] then 0 else Steps(rig, s, ops[0]) + Journaled(rig, Serve(rig, s, ops[0]), ops[1..])
  }

  /** Actions, and the filings that go with a restart. */
  predicate OnlyActions<A>(ops: seq<Op<A>>) {
    forall i :: 0 <= i < |ops| ==> ops[i].Apply? || ops[i].FileUnder?
  }

  predicate OnlyUndos<A>(ops: seq<Op<A>>) {
    forall i :: 0 <= i < |ops| ==> ops[i].TakeBack?
  }

  /** What it takes for an action to be undone: the archive has room for the match it may end, and it ends
      or reopens none that the source does not journal. */
  predicate Admissible<B(==), A>(rig: Rig<B, A>, s: Sys<B>, op: Op<A>) {
    op.Apply? ==>
      var t := rig.step(s.board, op.a);
      var r := ReportOf(rig, t.board, t.event, op.bestOf, op.stamp);
      var a := rig.entry(op.a);
      if t.board != s.board then t.event != SetClosed && HasRoom(s.log, a, r)
      else t.event == SetClosed || (!Finishes(s.log, a, r) && !Reopens(s.log, a, r))
  }

  predicate AllAdmissible<B(==), A>(rig: Rig<B, A>, s: Sys<B>, ops: seq<Op<A>>)
    decreases |ops|
  {
    if ops == [] then true
    else Admissible(rig, s, ops[0]) && AllAdmissible(rig, Serve(rig, s, ops[0]), ops[1..])
  }

  function Least(x: int, y: int): int {
    if x <= y then x else y
  }

  /** The journals after one more action. */
  lemma LogRemembersOne<B(!new), A(!new)>(rig: Rig<B, A>, s: Sys<B>, op: Op<A>)
    requires Honest(rig) && (op.Apply? || op.FileUnder?) && WellFormed(s.log) && |s.log.journal| <= MAX_UNDO
    ensures |Serve(rig, s, op).log.journal| == Least(|s.log.journal| + Steps(rig, s, op), MAX_UNDO)
  {
    if op.FileUnder? {
      return;
    }
    var t := rig.step(s.board, op.a);
    var r := ReportOf(rig, t.board, t.event, op.bestOf, op.stamp);
    if t.board != s.board {
      WriteLeavesJournal(s.log, rig.entry(op.a), r);
    } else {
      NoStepNoJournal(s.log, rig.entry(op.a), r);
    }
  }

  /** The log gains a step for every action the source journaled, up to its cap, whatever the actions do. */
  lemma {:induction false} LogRemembers<B(!new), A(!new)>(rig: Rig<B, A>, s: Sys<B>, ops: seq<Op<A>>, total: nat)
    requires Honest(rig) && OnlyActions(ops) && WellFormed(s.log) && |s.log.journal| <= MAX_UNDO
    requires total == |s.log.journal| + Journaled(rig, s, ops)
    ensures |ServeAll(rig, s, ops).log.journal| == Least(total, MAX_UNDO)
    decreases |ops|
  {
    hide WellFormed, Serve;
    if ops == [] {
    } else {
      var n := Serve(rig, s, ops[0]);
      ServeKeepsWellFormed(rig, s, ops[0]);
      LogRemembersOne(rig, s, ops[0]);
      var k := Journaled(rig, n, ops[1..]);
      LogRemembers(rig, n, ops[1..], |n.log.journal| + k);
    }
  }

  lemma {:induction false} ServeAppend<B, A>(rig: Rig<B, A>, s: Sys<B>, xs: seq<Op<A>>, ys: seq<Op<A>>)
    ensures ServeAll(rig, s, xs + ys) == ServeAll(rig, ServeAll(rig, s, xs), ys)
    decreases |xs|
  {
    hide Serve;
    if xs == [] {
      assert xs + ys == ys;
    } else {
      assert (xs + ys)[1..] == xs[1..] + ys;
      ServeAppend(rig, Serve(rig, s, xs[0]), xs[1..], ys);
    }
  }

  lemma TopOfNewest<T>(xs: seq<T>, x: T, c: nat, max: nat)
    requires 1 <= c <= max
    ensures var top := Newest(Newest(xs + [x], max), c);
            top != [] && top[|top| - 1] == x && top[..|top| - 1] == Newest(xs, c - 1)
  {
  }

  /** Board, archive and journals of n are what they were in s, save what an undo trail of k steps pushes off
      the journals. */
  predicate Restored<B(==)>(n: Sys<B>, s: Sys<B>, k: nat)
    requires k <= UNDO_MAX
  {
    && n.board == s.board && n.log.matches == s.log.matches
    && WellFormed(n.log) && n.log.next >= s.log.next
    && n.stack == Newest(s.stack, UNDO_MAX - k)
    && n.log.journal == Newest(s.log.journal, MAX_UNDO - k)
  }

  /** A reset the source does not journal. */
  predicate QuietReset<B(==), A>(rig: Rig<B, A>, s: Sys<B>, op: Op<A>) {
    && op.Apply? && rig.entry(op.a).Reset?
    && rig.step(s.board, op.a).board == s.board && rig.step(s.board, op.a).event != SetClosed
  }

  /** The match in progress at the start of the run is dropped by a reset the source does not journal. */
  predicate Drops<B(==), A>(rig: Rig<B, A>, s: Sys<B>, ops: seq<Op<A>>)
    decreases |ops|
  {
    if ops == [] || s.log.current == None then false
    else QuietReset(rig, s, ops[0]) || Drops(rig, Serve(rig, s, ops[0]), ops[1..])
  }

  /** The log shows the match that was in progress: its live entries, and every entry as old - or nothing,
      once it was dropped. */
  predicate Shows(n: Log, s: Log, dropped: bool) {
    if dropped then Live(n.current) == [] else Same(n, s) && KeepsOld(n, s)
  }

  lemma NoStepOpen(l: Log)
    requires WellFormed(l)
    ensures l.step == None
  {
  }

  lemma ServeNext<B, A>(rig: Rig<B, A>, s: Sys<B>, op: Op<A>)
    ensures Serve(rig, s, op).log.next >= s.log.next
  {
    match op
    case Apply(a, bestOf, stamp) =>
      var t := rig.step(s.board, a);
      RecordNext(s.log, rig.entry(a), ReportOf(rig, t.board, t.event, bestOf, stamp), t.board != s.board);
    case TakeBack(bestOf, stamp, words) =>
      if s.stack != [] && s.log.journal != [] {
        var n := |s.log.journal| - 1;
        RevertKeepsTheRest(s.log.(journal := s.log.journal[..n]), s.log.journal[n]);
      }
    case _ =>
  }

  /** What a journaled action leaves on the two journals, and what its undo finds there. */
  lemma UndoFindsFirst<B, A>(rig: Rig<B, A>, s: Sys<B>, op: Op<A>, m: Sys<B>, k: nat)
    requires op.Apply? && k < UNDO_MAX && WellFormed(s.log) && Admissible(rig, s, op) && Steps(rig, s, op) == 1
    requires Restored(m, Serve(rig, s, op), k)
    ensures var t := rig.step(s.board, op.a);
            var r := ReportOf(rig, t.board, t.event, op.bestOf, op.stamp);
            var j := m.log.journal;
            && m.stack != [] && m.stack[|m.stack| - 1] == s.board
            && m.stack[..|m.stack| - 1] == Newest(s.stack, UNDO_MAX - k - 1)
            && j != [] && j[|j| - 1] == StepOf(s.log, rig.entry(op.a), r)
            && j[..|j| - 1] == Newest(s.log.journal, MAX_UNDO - k - 1)
            && Serve(rig, s, op).log == Record(s.log, rig.entry(op.a), r, true)
            && HasRoom(s.log, rig.entry(op.a), r)
  {
    hide WellFormed, HasRoom, Finishes, Reopens, Record, StepOf, Newest;
    var t := rig.step(s.board, op.a);
    var r := ReportOf(rig, t.board, t.event, op.bestOf, op.stamp);
    var a := rig.entry(op.a);
    WriteLeavesJournal(s.log, a, r);
    TopOfNewest(s.stack, s.board, UNDO_MAX - k, UNDO_MAX);
    TopOfNewest(s.log.journal, StepOf(s.log, a, r), MAX_UNDO - k, MAX_UNDO);
  }

  /** The log's part of that undo. */
  lemma UndoShows(s0: Log, a: LogAction, r: Report, m: Log, dropped: bool, later: Report, words: string)
    requires WellFormed(s0) && HasRoom(s0, a, r) && m.step == None && m.next >= s0.next
    requires m.journal != [] && m.journal[|m.journal| - 1] == StepOf(s0, a, r)
    requires var rec := Record(s0, a, r, true);
             m.matches == rec.matches && Shows(m, rec, dropped) && (dropped ==> rec.current.Some?)
    ensures var u := UndoLast(m, later, words);
            && u.matches == s0.matches && u.journal == m.journal[..|m.journal| - 1]
            && Shows(u, s0, dropped && s0.current.Some?)
  {
    if dropped {
      UndoOfDropped(s0, a, r, m, later, words);
    } else {
      UndoTakesBack(s0, a, r, m, later, words);
      UndoKeepsOld(s0, a, r, m, later, words);
    }
  }

  /** The undo of a journaled action, with k later actions already undone. */
  lemma UndoOfFirst<B, A>(rig: Rig<B, A>, s: Sys<B>, op: Op<A>, m: Sys<B>, undo: Op<A>, k: nat, dropped: bool)
    requires op.Apply? && undo.TakeBack? && k < UNDO_MAX
    requires WellFormed(s.log) && Admissible(rig, s, op) && Steps(rig, s, op) == 1
    requires var s1 := Serve(rig, s, op);
             Restored(m, s1, k) && Shows(m.log, s1.log, dropped) && (dropped ==> s1.log.current.Some?)
    ensures var n := Serve(rig, m, undo);
            Restored(n, s, k + 1) && Shows(n.log, s.log, dropped && s.log.current.Some?)
  {
    hide WellFormed, Admissible, HasRoom, Record, StepOf, Shows, UndoLast, Newest;
    var t := rig.step(s.board, op.a);
    var r := ReportOf(rig, t.board, t.event, op.bestOf, op.stamp);
    UndoFindsFirst(rig, s, op, m, k);
    ServeKeepsWellFormed(rig, m, undo);
    ServeNext(rig, s, op);
    ServeNext(rig, m, undo);
    NoStepOpen(m.log);
    UndoShows(s.log, rig.entry(op.a), r, m.log, dropped,
              ReportOf(rig, s.board, Undone, undo.bestOf, undo.stamp), undo.words);
  }

  /** An action the source did not journal, or a filing: what is shown after it is shown before it. */
  lemma QuietShows<B, A>(rig: Rig<B, A>, s: Sys<B>, op: Op<A>, n: Log, dropped: bool)
    requires (op.Apply? || op.FileUnder?) && WellFormed(s.log) && Admissible(rig, s, op) && Steps(rig, s, op) == 0
    requires var s1 := Serve(rig, s, op).log;
             n.matches == s1.matches && Shows(n, s1, dropped) && (dropped ==> s1.current.Some?)
    ensures n.matches == s.log.matches
    ensures Shows(n, s.log, s.log.current.Some? && (dropped || QuietReset(rig, s, op)))
  {
    if op.Apply? {
      var t := rig.step(s.board, op.a);
      var r := ReportOf(rig, t.board, t.event, op.bestOf, op.stamp);
      var a := rig.entry(op.a);
      if t.event == SetClosed {
      } else if a.Reset? {
        assert Serve(rig, s, op).log.current == None;
      } else {
        QuietRecordShows(s.log, a, r, n, dropped);
      }
    } else {
      FilingShows(s.log, op.game, n, dropped);
    }
  }

  lemma QuietRecordShows(s: Log, a: LogAction, r: Report, n: Log, dropped: bool)
    requires WellFormed(s) && !a.Reset? && !Finishes(s, a, r) && !Reopens(s, a, r)
    requires var s1 := Record(s, a, r, false); n.matches == s1.matches && Shows(n, s1, dropped)
    ensures n.matches == s.matches && Shows(n, s, s.current.Some? && dropped)
  {
    NoStepOpen(s);
    UnjournaledIsNotLive(s, a, r);
    var s1 := Record(s, a, r, false);
    if !dropped {
      SameTransitive(n, s1, s);
      QuietKeepsOld(n, s, a, r);
    }
  }

  lemma FilingShows(s: Log, game: Option<int>, n: Log, dropped: bool)
    requires n.matches == Filed(s, game).matches && Shows(n, Filed(s, game), dropped)
    ensures n.matches == s.matches && Shows(n, s, s.current.Some? && dropped)
  {
    assert Same(Filed(s, game), s);
    if !dropped {
      SameTransitive(n, Filed(s, game), s);
    }
  }

  /** A first action that the source did not journal leaves board and journals alone. */
  lemma QuietFirst<B, A>(rig: Rig<B, A>, s: Sys<B>, op: Op<A>)
    requires (op.Apply? || op.FileUnder?) && WellFormed(s.log) && Admissible(rig, s, op) && Steps(rig, s, op) == 0
    ensures var n := Serve(rig, s, op);
            n.board == s.board && n.stack == s.stack && n.log.journal == s.log.journal && n.log.next >= s.log.next
  {
    ServeNext(rig, s, op);
    if op.Apply? {
      var t := rig.step(s.board, op.a);
      NoStepOpen(s.log);
      NoStepNoJournal(s.log, rig.entry(op.a), ReportOf(rig, t.board, t.event, op.bestOf, op.stamp));
    }
  }

  lemma {:induction false} DropsFirst<B, A>(rig: Rig<B, A>, s: Sys<B>, ops: seq<Op<A>>)
    requires ops != []
    ensures var later := Drops(rig, Serve(rig, s, ops[0]), ops[1..]);
            && Drops(rig, s, ops) == (s.log.current.Some? && (later || QuietReset(rig, s, ops[0])))
            && (later ==> Serve(rig, s, ops[0]).log.current.Some?)
  {
  }

  lemma JournaledIsNoQuietReset<B, A>(rig: Rig<B, A>, s: Sys<B>, op: Op<A>)
    requires Steps(rig, s, op) == 1
    ensures !QuietReset(rig, s, op)
  {
  }

  lemma {:induction false} UndosShow<B, A>(rig: Rig<B, A>, s: Sys<B>, ops: seq<Op<A>>, undos: seq<Op<A>>)
    requires WellFormed(s.log) && |s.stack| <= UNDO_MAX && |s.log.journal| <= MAX_UNDO
    requires OnlyActions(ops) && AllAdmissible(rig, s, ops)
    requires OnlyUndos(undos) && |undos| == Journaled(rig, s, ops) <= UNDO_MAX
    ensures var n := ServeAll(rig, s, ops + undos);
            Restored(n, s, |undos|) && Shows(n.log, s.log, Drops(rig, s, ops))
    decreases |ops|
  {
    hide WellFormed, Admissible, Serve, Shows, Drops, QuietReset, Newest;
    if ops == [] {
      assert ops + undos == [];
      NothingDone(rig, s);
    } else {
      var op, rest := ops[0], ops[1..];
      var s1 := Serve(rig, s, op);
      var later := Drops(rig, s1, rest);
      FirstOfRun(rig, s, op);
      DropsFirst(rig, s, ops);
      assert (ops + undos)[1..] == rest + undos;
      if Steps(rig, s, op) == 0 {
        UndosShow(rig, s1, rest, undos);
        QuietFirst(rig, s, op);
        QuietShows(rig, s, op, ServeAll(rig, s1, rest + undos).log, later);
      } else {
        var k := |undos| - 1;
        var most, last := undos[..k], undos[k];
        UndosShow(rig, s1, rest, most);
        assert rest + undos == (rest + most) + [last];
        ServeAppend(rig, s1, rest + most, [last]);
        OneMore(rig, ServeAll(rig, s1, rest + most), last);
        JournaledIsNoQuietReset(rig, s, op);
        FilingIsQuiet(rig, s, op);
        hide Restored;
        UndoOfFirst(rig, s, op, ServeAll(rig, s1, rest + most), last, k, later);
      }
    }
  }

  /** What the undos of these actions come to: board, archive and both journals are restored, less what fell
      off the journals; and the match in progress - its live entries, and every older entry beside them - is
      exactly when no reset the source did not journal dropped it. */
  predicate UndoneBy<B(==), A>(rig: Rig<B, A>, s: Sys<B>, ops: seq<Op<A>>, undos: seq<Op<A>>) {
    var n := ServeAll(rig, s, ops + undos);
    && |undos| <= UNDO_MAX && Restored(n, s, |undos|)
    && (!Drops(rig, s, ops) ==> KeepsOld(n.log, s.log))
    && (Same(n.log, s.log) <==> !Drops(rig, s, ops) || Live(s.log.current) == [])
  }

  /** From any state - that is, any a run can reach - actions and filings followed by as many undos as the
      source journaled of them take them back, whatever the actions started, finished, reopened or reset;
      a match begun on the way may even be dropped by a reset the source did not journal. */
  lemma {:induction false} ActionsThenUndosRestore<B, A>(rig: Rig<B, A>, s: Sys<B>, ops: seq<Op<A>>, undos: seq<Op<A>>)
    requires WellFormed(s.log) && |s.stack| <= UNDO_MAX && |s.log.journal| <= MAX_UNDO
    requires OnlyActions(ops) && AllAdmissible(rig, s, ops)
    requires OnlyUndos(undos) && |undos| == Journaled(rig, s, ops) <= UNDO_MAX
    ensures UndoneBy(rig, s, ops, undos)
  {
    hide WellFormed, Serve, ServeAll, Drops, Live, AllAdmissible, KeepsOld;
    UndosShow(rig, s, ops, undos);
  }

  lemma {:induction false} OneMore<B, A>(rig: Rig<B, A>, s: Sys<B>, op: Op<A>)
    ensures ServeAll(rig, s, [op]) == Serve(rig, s, op)
  {
    assert [op][1..] == [];
    assert ServeAll(rig, Serve(rig, s, op), []) == Serve(rig, s, op);
  }

  lemma FilingIsQuiet<B, A>(rig: Rig<B, A>, s: Sys<B>, op: Op<A>)
    ensures op.FileUnder? ==> Steps(rig, s, op) == 0
  {
  }

  lemma {:induction false} NothingDone<B, A>(rig: Rig<B, A>, s: Sys<B>)
    requires WellFormed(s.log) && |s.stack| <= UNDO_MAX && |s.log.journal| <= MAX_UNDO
    ensures Restored(s, s, 0) && Shows(s.log, s.log, false) && !Drops(rig, s, [])
  {
    if s.log.current.Some? {
      var events := s.log.current.value.events;
      assert events + [] == events;
      BeforeAppends(events, [], s.log.next);
    }
  }

  lemma FirstOfRun<B, A>(rig: Rig<B, A>, s: Sys<B>, op: Op<A>)
    requires (op.Apply? || op.FileUnder?) && Admissible(rig, s, op) && WellFormed(s.log)
    requires |s.stack| <= UNDO_MAX && |s.log.journal| <= MAX_UNDO
    ensures var n := Serve(rig, s, op);
            WellFormed(n.log) && |n.stack| <= UNDO_MAX && |n.log.journal| <= MAX_UNDO
  {
    ServeKeepsWellFormed(rig, s, op);
    if op.Apply? {
      var t := rig.step(s.board, op.a);
      var r := ReportOf(rig, t.board, t.event, op.bestOf, op.stamp);
      NoStepOpen(s.log);
      if t.board != s.board {
        WriteLeavesJournal(s.log, rig.entry(op.a), r);
      } else {
        NoStepNoJournal(s.log, rig.entry(op.a), r);
      }
    }
  }
}
