/** What the publisher keeps over every run, whatever the network answers. */
module LivePushRuns {
  import opened Basics
  import opened LiveStates
  import opened LiveFixture
  import opened LivePush

  /** A run: every step possible when it happens. */
  predicate Possible(p: Pub, ops: seq<Op>, sport: Sport)
    decreases |ops|
  {
    if ops == [] then true
    else Enabled(p, ops[0]) && Possible(Step(p, ops[0], sport), ops[1..], sport)
  }

  function Run(p: Pub, ops: seq<Op>, sport: Sport): Pub
    requires Possible(p, ops, sport)
    decreases |ops|
  {
    if ops == [] then p else Run(Step(p, ops[0], sport), ops[1..], sport)
  }

  // ---- The backlog ------------------------------------------------------------------------------------

  predicate Distinct(queue: seq<Queued>) {
    forall i, j :: 0 <= i < j < |queue| ==> queue[i].inst != queue[j].inst
  }

  function Keys(queue: seq<Queued>): set<nat> {
    set i | 0 <= i < |queue| :: queue[i].inst
  }

  lemma KeysOfCons(q: Queued, rest: seq<Queued>)
    ensures Keys([q] + rest) == {q.inst} + Keys(rest)
  {
    var all := [q] + rest;
    assert all[0] == q;
    forall i | 0 <= i < |rest|
      ensures rest[i].inst in Keys(all)
    {
      assert all[i + 1] == rest[i];
    }
  }

  lemma DistinctCons(q: Queued, rest: seq<Queued>)
    requires q.inst !in Keys(rest) && Distinct(rest)
    ensures Distinct([q] + rest)
  {
    var all := [q] + rest;
    forall i, j | 0 <= i < j < |all|
      ensures all[i].inst != all[j].inst
    {
      assert all[j] == rest[j - 1] && rest[j - 1].inst in Keys(rest);
    }
  }

  lemma DistinctTail(q: Queued, rest: seq<Queued>)
    requires Distinct([q] + rest)
    ensures q.inst !in Keys(rest) && Distinct(rest)
  {
    var all := [q] + rest;
    assert forall i :: 0 <= i < |rest| ==> all[i + 1] == rest[i];
    forall i | 0 <= i < |rest|
      ensures rest[i].inst != q.inst
    {
      assert all[0].inst != all[i + 1].inst;
    }
    forall i, j | 0 <= i < j < |rest|
      ensures rest[i].inst != rest[j].inst
    {
      assert all[i + 1].inst != all[j + 1].inst;
    }
  }

  lemma KeysCons(q: Queued, rest: seq<Queued>)
    ensures Keys([q] + rest) == {q.inst} + Keys(rest)
    ensures Distinct([q] + rest) <==> q.inst !in Keys(rest) && Distinct(rest)
  {
    KeysOfCons(q, rest);
    if q.inst !in Keys(rest) && Distinct(rest) {
      DistinctCons(q, rest);
    }
    if Distinct([q] + rest) {
      DistinctTail(q, rest);
    }
  }

  lemma {:induction false} PutKeys(queue: seq<Queued>, q: Queued)
    requires Distinct(queue)
    ensures Keys(Put(queue, q)) == Keys(queue) + {q.inst} && Distinct(Put(queue, q))
    ensures |Put(queue, q)| <= |queue| + 1
  {
    if queue == [] {
      KeysCons(q, []);
      assert [q] + [] == [q];
    } else {
      var rest := queue[1..];
      assert queue == [queue[0]] + rest;
      KeysCons(queue[0], rest);
      KeysCons(q, rest);
      PutKeys(rest, q);
      KeysCons(queue[0], Put(rest, q));
    }
  }

  lemma {:induction false} DropKeys(queue: seq<Queued>, inst: nat)
    requires Distinct(queue)
    ensures Keys(Drop(queue, inst)) == Keys(queue) - {inst} && Distinct(Drop(queue, inst))
    ensures |Drop(queue, inst)| <= |queue|
  {
    if queue != [] {
      var rest := queue[1..];
      assert queue == [queue[0]] + rest;
      KeysCons(queue[0], rest);
      DropKeys(rest, inst);
      KeysCons(queue[0], Drop(rest, inst));
    }
  }

  // ---- The flow: one flush at a time, nothing stranded --------------------------------------------------

  /** The running flush began before the last detach. */
  predicate Stale(p: Pub) {
    p.flight.Some? && p.flight.value.generation != p.generation
  }

  /** A state accepted and never going to be sent unless something new is pushed. */
  predicate Stranded(p: Pub) {
    p.pending.Some? && !p.timer && p.flight == None
  }

  predicate Flow(p: Pub) {
    && (p.timer ==> p.flight == None && p.pending.Some?)
    && (p.backingOff ==> p.timer)
    && p.failures <= MAX_RETRIES
    && (p.flight.Some? ==> p.flight.value.generation <= p.generation)
    && (p.flight.Some? && p.flight.value.phase.AwaitArchive? ==> p.flight.value.phase.todo != [])
  }

  lemma StepKeepsFlow(p: Pub, op: Op, sport: Sport)
    requires Flow(p) && Enabled(p, op)
    ensures Flow(Step(p, op, sport))
  {
    hide ToRow, ToHomeAway, WhoIsPlaying, IsOver, IsFresh, Requeued, Put, Drop, Marked, Resends, Done, Settled;
  }

  lemma {:induction false} RunKeepsFlow(p: Pub, ops: seq<Op>, sport: Sport)
    requires Flow(p) && Possible(p, ops, sport)
    ensures Flow(Run(p, ops, sport))
    decreases |ops|
  {
    if ops != [] {
      StepKeepsFlow(p, ops[0], sport);
      RunKeepsFlow(Step(p, ops[0], sport), ops[1..], sport);
    }
  }

  /** The publisher never overlaps two flushes: over every run, whenever the timer can fire no flush is
      running, and what then starts is the only one. */
  lemma {:induction false} FlushesNeverOverlap(ops: seq<Op>, sport: Sport, home: Option<Which>, now: int)
    requires Possible(INITIAL, ops, sport)
    requires Enabled(Run(INITIAL, ops, sport), TimerFires(home, now))
    ensures var p := Run(INITIAL, ops, sport);
            && p.flight == None && p.pending.Some?
            && Step(p, TimerFires(home, now), sport).flight.Some?
            && Step(p, TimerFires(home, now), sport).sent == p.sent + [p.pending.value.serial]
  {
    RunKeepsFlow(INITIAL, ops, sport);
  }

  /** Exactly how a state gets stranded: a flush from before a detach ends with a newer state waiting. */
  lemma StrandedExactly(p: Pub, op: Op, sport: Sport)
    requires Flow(p) && Enabled(p, op) && !Stranded(p)
    ensures var q := Step(p, op, sport);
            Stranded(q) <==> Stale(p) && p.pending.Some? && q.flight == None
  {
    hide ToRow, ToHomeAway, WhoIsPlaying, IsOver, IsFresh, Requeued, Put, Drop, Marked, Resends, Done, Settled;
  }

  /** No state is accepted while a flush from before a detach is still running. */
  predicate NoPushBehindStale(p: Pub, ops: seq<Op>, sport: Sport)
    requires Possible(p, ops, sport)
    decreases |ops|
  {
    if ops == [] then true
    else
      && !(Stale(p) && ops[0].Push? && ops[0].live)
      && NoPushBehindStale(Step(p, ops[0], sport), ops[1..], sport)
  }

  predicate QuietWhenStale(p: Pub) {
    !Stranded(p) && (Stale(p) ==> p.pending == None)
  }

  lemma {:induction false} NothingStrandedFrom(p: Pub, ops: seq<Op>, sport: Sport)
    requires Flow(p) && QuietWhenStale(p) && Possible(p, ops, sport) && NoPushBehindStale(p, ops, sport)
    ensures QuietWhenStale(Run(p, ops, sport))
    decreases |ops|
  {
    hide ToRow, ToHomeAway, WhoIsPlaying, IsOver, IsFresh, Requeued, Put, Drop, Marked, Resends, Done, Settled;
    if ops != [] {
      StepKeepsFlow(p, ops[0], sport);
      assert QuietWhenStale(Step(p, ops[0], sport));
      NothingStrandedFrom(Step(p, ops[0], sport), ops[1..], sport);
    }
  }

  /** While attached nothing is stranded: a pending state has its timer armed or a flush running that
      will send it, in every run that accepts no state behind a flush left over from a detach. */
  lemma {:induction false} NothingIsStranded(ops: seq<Op>, sport: Sport)
    requires Possible(INITIAL, ops, sport) && NoPushBehindStale(INITIAL, ops, sport)
    ensures var p := Run(INITIAL, ops, sport);
            p.pending.Some? ==> p.timer || (p.flight.Some? && p.flight.value.generation == p.generation)
  {
    NothingStrandedFrom(INITIAL, ops, sport);
  }

  lemma {:induction false} RunCons(p: Pub, op: Op, ops: seq<Op>, sport: Sport)
    requires Enabled(p, op) && Possible(Step(p, op, sport), ops, sport)
    ensures Possible(p, [op] + ops, sport) && Run(p, [op] + ops, sport) == Run(Step(p, op, sport), ops, sport)
  {
    assert ([op] + ops)[1..] == ops;
  }

  lemma {:induction false} RunNone(p: Pub, sport: Sport)
    ensures Possible(p, [], sport) && Run(p, [], sport) == p
  {
  }

  /** A state accepted behind a left-over flush is stranded when that flush ends: pushed, flushed,
      detached, pushed again, answered. */
  lemma {:induction false} ReattachDuringAFlushStrands(
    first: LiveState, second: LiveState, home: Option<Which>, now: int, sport: Sport)
    requires StatusOf(first, NoEvent, sport) != Final
    ensures var ops := [Push(first, NoEvent, true)] + ([TimerFires(home, now)] + ([Detach]
                       + ([Push(second, NoEvent, true)] + ([BoardAnswer(200, false)] + []))));
            Possible(INITIAL, ops, sport) && Stranded(Run(INITIAL, ops, sport))
  {
    hide WhoIsPlaying, IsOver, IsFresh;
    var o4 := [BoardAnswer(200, false)] + [];
    var o3 := [Push(second, NoEvent, true)] + o4;
    var o2 := [Detach] + o3;
    var o1 := [TimerFires(home, now)] + o2;
    var p1 := Step(INITIAL, Push(first, NoEvent, true), sport);
    var p2 := Step(p1, TimerFires(home, now), sport);
    var p3 := Step(p2, Detach, sport);
    var p4 := Step(p3, Push(second, NoEvent, true), sport);
    var p5 := Step(p4, BoardAnswer(200, false), sport);
    assert Stranded(p5);
    hide Step;
    RunNone(p5, sport);
    RunCons(p4, BoardAnswer(200, false), [], sport);
    RunCons(p3, Push(second, NoEvent, true), o4, sport);
    RunCons(p2, Detach, o3, sport);
    RunCons(p1, TimerFires(home, now), o2, sport);
    RunCons(INITIAL, Push(first, NoEvent, true), o1, sport);
  }

  /** Stranded, or going to be when the left-over flush ends. */
  predicate LeftBehind(p: Pub) {
    p.pending.Some? && !p.timer && (p.flight == None || Stale(p))
  }

  /** Was the last state of the run accepted behind a left-over flush, with no detach since? `was`: the
      answer before the run. */
  predicate LastPushBehindStale(p: Pub, ops: seq<Op>, sport: Sport, was: bool)
    requires Possible(p, ops, sport)
    decreases |ops|
  {
    if ops == [] then was
    else
      LastPushBehindStale(Step(p, ops[0], sport), ops[1..], sport,
                          match ops[0]
                          case Push(_, _, true) => Stale(p)
                          case Detach => false
                          case _ => was)
  }

  lemma StepLeavesBehind(p: Pub, op: Op, sport: Sport)
    requires Flow(p) && Enabled(p, op)
    ensures LeftBehind(Step(p, op, sport)) <==> match op
                                                case Push(_, _, true) => Stale(p)
                                                case Detach => false
                                                case _ => LeftBehind(p)
  {
    hide ToRow, ToHomeAway, WhoIsPlaying, IsOver, IsFresh, Requeued, Put, Drop, Marked, Resends, Done, Settled;
  }

  lemma {:induction false} LeftBehindFrom(p: Pub, ops: seq<Op>, sport: Sport)
    requires Flow(p) && Possible(p, ops, sport)
    ensures LeftBehind(Run(p, ops, sport)) <==> LastPushBehindStale(p, ops, sport, LeftBehind(p))
    decreases |ops|
  {
    hide Step, Flow, LeftBehind;
    if ops != [] {
      StepKeepsFlow(p, ops[0], sport);
      StepLeavesBehind(p, ops[0], sport);
      LeftBehindFrom(Step(p, ops[0], sport), ops[1..], sport);
    }
  }

  /** Over every run: a waiting state has its timer armed or a flush of its own attachment running that
      will send it - unless, and only unless, the last state accepted came behind a flush left over from a
      detach, with no detach since. */
  lemma {:induction false} LeftBehindExactly(ops: seq<Op>, sport: Sport)
    requires Possible(INITIAL, ops, sport)
    ensures var p := Run(INITIAL, ops, sport);
            !(p.pending.Some? ==> p.timer || (p.flight.Some? && p.flight.value.generation == p.generation))
            <==> LastPushBehindStale(INITIAL, ops, sport, false)
  {
    RunKeepsFlow(INITIAL, ops, sport);
    LeftBehindFrom(INITIAL, ops, sport);
  }

  // ---- The order of what is sent ----------------------------------------------------------------------

  predicate Rising(serials: seq<nat>) {
    forall i, j :: 0 <= i < j < |serials| ==> serials[i] <= serials[j]
  }

  predicate Ordered(p: Pub) {
    && Rising(p.sent)
    && (p.pending.Some? ==> p.pending.value.serial < p.accepted)
    && (p.sent != [] && p.pending.Some? ==> p.sent[|p.sent| - 1] <= p.pending.value.serial)
    && (p.sent != [] ==> p.sent[|p.sent| - 1] < p.accepted)
    && (p.flight.Some? ==> p.sent != [] && p.flight.value.payload.serial == p.sent[|p.sent| - 1])
  }

  lemma RisingAppend(serials: seq<nat>, n: nat)
    requires Rising(serials) && (serials != [] ==> serials[|serials| - 1] <= n)
    ensures Rising(serials + [n])
  {
  }

  lemma LaunchKeepsOrdered(p: Pub, x: Payload, row: Row, final: bool, withGame: bool)
    requires Ordered(p) && p.pending == Some(x)
    ensures Ordered(Launched(p, x, row, final, withGame))
  {
    RisingAppend(p.sent, x.serial);
  }

  /** The order speaks of what is sent, what is waiting and what is in flight only. */
  lemma OrderElsewhere(p: Pub, q: Pub)
    requires Ordered(p) && q.sent == p.sent && q.accepted >= p.accepted
    requires q.flight.Some? ==> p.flight.Some? && q.flight.value.payload == p.flight.value.payload
    requires q.pending.Some? ==>
               || q.pending == p.pending
               || q.pending.value.serial == p.accepted < q.accepted
               || (p.flight.Some? && q.pending == Some(p.flight.value.payload))
    ensures Ordered(q)
  {
  }

  lemma ContinueKeepsOrdered(p: Pub, q: Pub, f: Flight)
    requires Ordered(p) && p.flight.Some? && f.payload == p.flight.value.payload && f.phase.AwaitArchive?
    requires q.sent == p.sent && q.accepted == p.accepted && q.pending == p.pending
    ensures Ordered(Continue(q, f))
  {
    OrderElsewhere(p, Continue(q, f));
  }

  lemma StepKeepsOrdered(p: Pub, op: Op, sport: Sport)
    requires Flow(p) && Ordered(p) && Enabled(p, op)
    ensures Ordered(Step(p, op, sport))
  {
    hide ToRow, ToHomeAway, WhoIsPlaying, IsOver, IsFresh, Requeued, Put, Drop, Marked, Resends, Done, Settled;
    match op
    case TimerFires(home, now) =>
      var x := p.pending.value;
      var row := ToRow(x.state, x.event, sport, now);
      LaunchKeepsOrdered(p, x, ToHomeAway(row, home), row.status == Final, home.Some?);
    case BoardAnswer(status, fixtureRetry) =>
      var f := p.flight.value;
      ContinueKeepsOrdered(p, p, f.(retry := Retryable(status) || fixtureRetry,
                                    phase := AwaitArchive(p.unarchived, false)));
    case ArchiveAnswer(status, landed) =>
      var f := p.flight.value;
      if !Resends(f, status) {
        ContinueKeepsOrdered(p, Noted(p, f.phase.todo[0].inst, status, landed),
                             f.(phase := AwaitArchive(f.phase.todo[1..], false), retry := f.retry || !Done(status)));
      }
    case _ =>
      OrderElsewhere(p, Step(p, op, sport));
  }

  lemma {:induction false} SentInOrderFrom(p: Pub, ops: seq<Op>, sport: Sport)
    requires Flow(p) && Ordered(p) && Possible(p, ops, sport)
    ensures Ordered(Run(p, ops, sport))
    decreases |ops|
  {
    if ops != [] {
      StepKeepsFlow(p, ops[0], sport);
      StepKeepsOrdered(p, ops[0], sport);
      SentInOrderFrom(Step(p, ops[0], sport), ops[1..], sport);
    }
  }

  /** Rows go out in push order: over every run no flush carries an older state than one before it. */
  lemma {:induction false} RowsGoOutInPushOrder(ops: seq<Op>, sport: Sport)
    requires Possible(INITIAL, ops, sport)
    ensures Rising(Run(INITIAL, ops, sport).sent)
  {
    SentInOrderFrom(INITIAL, ops, sport);
  }

  // ---- Bounded retries ------------------------------------------------------------------------------

  /** How many more flushes can start if nothing new is accepted. */
  function FlushesLeft(p: Pub): nat
    requires p.failures <= MAX_RETRIES
  {
    if p.timer then MAX_RETRIES + 1 - p.failures
    else if p.flight == None || Stale(p) then 0
    else if p.pending.Some? then MAX_RETRIES + 1
    else MAX_RETRIES - p.failures
  }

  predicate NothingAccepted(ops: seq<Op>) {
    forall i :: 0 <= i < |ops| ==> !(ops[i].Push? && ops[i].live)
  }

  lemma EndSpendsFlushes(p: Pub)
    requires p.flight.Some? && !p.timer && !p.backingOff && p.failures <= MAX_RETRIES
    requires p.flight.value.generation <= p.generation
    ensures var q := EndFlush(p);
            Flow(q) && q.sent == p.sent && FlushesLeft(q) <= FlushesLeft(p)
  {
  }

  lemma ContinueSpendsFlushes(p: Pub, f: Flight)
    requires p.flight.Some? && !p.timer && !p.backingOff && p.failures <= MAX_RETRIES
    requires f.generation == p.flight.value.generation <= p.generation && f.phase.AwaitArchive?
    ensures var q := Continue(p, f);
            Flow(q) && q.sent == p.sent && FlushesLeft(q) <= FlushesLeft(p)
  {
    hide EndFlush;
    var p1 := p.(flight := Some(f));
    assert FlushesLeft(p1) == FlushesLeft(p);
    EndSpendsFlushes(p1);
  }

  lemma StepSpendsFlushes(p: Pub, op: Op, sport: Sport)
    requires Flow(p) && Enabled(p, op) && !(op.Push? && op.live)
    ensures var q := Step(p, op, sport);
            Flow(q) && |q.sent| - |p.sent| + FlushesLeft(q) <= FlushesLeft(p)
  {
    hide ToRow, ToHomeAway, WhoIsPlaying, IsOver, IsFresh, Requeued, Put, Drop, Marked, Resends, Done, Settled;
    hide Continue;
    match op
    case BoardAnswer(status, fixtureRetry) =>
      var retry := Retryable(status) || fixtureRetry;
      ContinueSpendsFlushes(p, p.flight.value.(retry := retry, phase := AwaitArchive(p.unarchived, false)));
    case ArchiveAnswer(status, landed) =>
      var f := p.flight.value;
      ContinueSpendsFlushes(Noted(p, f.phase.todo[0].inst, status, landed),
                            f.(phase := AwaitArchive(f.phase.todo[1..], false), retry := f.retry || !Done(status)));
    case _ =>
  }

  lemma {:induction false} FlushesAreBounded(p: Pub, ops: seq<Op>, sport: Sport)
    requires Flow(p) && Possible(p, ops, sport) && NothingAccepted(ops)
    ensures |Run(p, ops, sport).sent| <= |p.sent| + FlushesLeft(p)
    decreases |ops|
  {
    if ops != [] {
      StepSpendsFlushes(p, ops[0], sport);
      FlushesAreBounded(Step(p, ops[0], sport), ops[1..], sport);
    }
  }

  /** After the last accepted push at most maxRetries + 1 flushes start, whatever the network answers. */
  lemma {:induction false} RetriesAreBounded(before: seq<Op>, s: LiveState, event: Event, after: seq<Op>, sport: Sport)
    requires Possible(INITIAL, before, sport)
    requires var p := Step(Run(INITIAL, before, sport), Push(s, event, true), sport);
             Possible(p, after, sport)
    requires NothingAccepted(after)
    ensures var p := Step(Run(INITIAL, before, sport), Push(s, event, true), sport);
            |Run(p, after, sport).sent| <= |p.sent| + MAX_RETRIES + 1
  {
    RunKeepsFlow(INITIAL, before, sport);
    var p := Step(Run(INITIAL, before, sport), Push(s, event, true), sport);
    StepKeepsFlow(Run(INITIAL, before, sport), Push(s, event, true), sport);
    FlushesAreBounded(p, after, sport);
  }

  // ---- At most one history row per match ---------------------------------------------------------------

  /** Some POST for this match was confirmed, or may have landed. */
  predicate Closed(posts: seq<Post>, inst: nat) {
    exists i :: 0 <= i < |posts| && posts[i].inst == inst && Settled(posts[i].status)
  }

  /** No match was posted again once one of its POSTs had settled. */
  predicate PostedOnce(posts: seq<Post>) {
    forall i, j :: 0 <= i < j < |posts| && posts[i].inst == posts[j].inst ==> !Settled(posts[i].status)
  }

  /** A settled match is off the backlog, and either still marked or too far behind to come back. */
  predicate OffTheBooks(p: Pub, inst: nat) {
    && inst !in Keys(p.unarchived)
    && (inst in p.archived || inst + KEEP_ARCHIVED < p.floor)
    && inst <= p.floor
  }

  ghost predicate Books(p: Pub) {
    && Distinct(p.unarchived) && |p.unarchived| <= MAX_UNARCHIVED
    && (forall m :: m in Keys(p.unarchived) ==> m <= p.floor)
    && p.floor <= p.matchInstance
    && (p.pending.Some? ==> p.floor <= p.pending.value.inst <= p.matchInstance)
    && (p.flight.Some? ==> p.flight.value.payload.inst == p.floor)
    && (p.flight.Some? && p.flight.value.phase.AwaitArchive? ==>
          Distinct(p.flight.value.phase.todo) && Keys(p.flight.value.phase.todo) <= Keys(p.unarchived))
    && PostedOnce(p.posts)
    && (forall m :: Closed(p.posts, m) ==> OffTheBooks(p, m))
  }

  lemma ClosedGrows(posts: seq<Post>, x: Post, m: nat)
    ensures Closed(posts + [x], m) <==> Closed(posts, m) || (x.inst == m && Settled(x.status))
  {
    var grown := posts + [x];
    if Closed(posts, m) {
      var i :| 0 <= i < |posts| && posts[i].inst == m && Settled(posts[i].status);
      assert grown[i] == posts[i];
    }
    if x.inst == m && Settled(x.status) {
      assert grown[|posts|] == x;
    }
  }

  lemma PostedOnceGrows(posts: seq<Post>, x: Post)
    requires PostedOnce(posts) && !Closed(posts, x.inst)
    ensures PostedOnce(posts + [x])
  {
  }

  lemma LaunchKeepsBooks(p: Pub, x: Payload, row: Row, final: bool, withGame: bool)
    requires Books(p) && p.pending == Some(x) && p.flight == None
    ensures Books(Launched(p, x, row, final, withGame))
  {
    var q := Launched(p, x, row, final, withGame);
    if final && x.inst !in p.archived {
      assert !Closed(p.posts, x.inst);
      var put := Put(p.unarchived, Queued(x.inst, row, withGame));
      PutKeys(p.unarchived, Queued(x.inst, row, withGame));
      if |put| > MAX_UNARCHIVED {
        assert put == [put[0]] + put[1..];
        KeysCons(put[0], put[1..]);
      }
    } else if !final {
      DropKeys(p.unarchived, x.inst);
    }
    assert Keys(q.unarchived) <= Keys(p.unarchived) + {x.inst};
    forall m | Closed(q.posts, m)
      ensures OffTheBooks(q, m)
    {
      assert OffTheBooks(p, m);
    }
  }

  lemma NotedKeepsTheRest(p: Pub, inst: nat, status: int, landed: bool, todo: seq<Queued>)
    requires Books(p) && inst in Keys(p.unarchived)
    requires Distinct(todo) && Keys(todo) <= Keys(p.unarchived) - {inst}
    ensures var q := Noted(p, inst, status, landed);
            && Distinct(q.unarchived) && |q.unarchived| <= MAX_UNARCHIVED
            && Keys(todo) <= Keys(q.unarchived) <= Keys(p.unarchived)
            && PostedOnce(q.posts)
            && (forall m :: Closed(q.posts, m) ==> OffTheBooks(q, m))
  {
    var q := Noted(p, inst, status, landed);
    DropKeys(p.unarchived, inst);
    assert !Closed(p.posts, inst);
    PostedOnceGrows(p.posts, Post(inst, status, landed));
    forall m | Closed(q.posts, m)
      ensures OffTheBooks(q, m)
    {
      ClosedGrows(p.posts, Post(inst, status, landed), m);
      if Closed(p.posts, m) {
        assert OffTheBooks(p, m);
      }
    }
  }

  lemma EndKeepsBooks(p: Pub)
    requires Books(p) && p.flight.Some?
    ensures Books(EndFlush(p))
  {
    var q := EndFlush(p);
    forall m | Closed(q.posts, m)
      ensures OffTheBooks(q, m)
    {
      assert OffTheBooks(p, m);
    }
  }

  lemma ArchivedKeepsBooks(p: Pub, status: int, landed: bool)
    requires Flow(p) && Books(p) && Enabled(p, ArchiveAnswer(status, landed))
    ensures Books(Archived(p, p.flight.value, status, landed))
  {
    var f := p.flight.value;
    var todo := f.phase.todo;
    var inst := todo[0].inst;
    assert todo == [todo[0]] + todo[1..];
    KeysCons(todo[0], todo[1..]);
    assert !Closed(p.posts, inst);
    if Resends(f, status) {
      var q := Archived(p, f, status, landed);
      PostedOnceGrows(p.posts, Post(inst, status, landed));
      forall m | Closed(q.posts, m)
        ensures OffTheBooks(q, m)
      {
        ClosedGrows(p.posts, Post(inst, status, landed), m);
        assert OffTheBooks(p, m);
      }
    } else {
      NotedKeepsTheRest(p, inst, status, landed, todo[1..]);
      var n := Noted(p, inst, status, landed);
      var next := f.(phase := AwaitArchive(todo[1..], false), retry := f.retry || !Done(status));
      var q := n.(flight := Some(next));
      assert Books(q);
      if todo[1..] == [] {
        EndKeepsBooks(q);
      }
    }
  }

  lemma StepKeepsBooks(p: Pub, op: Op, sport: Sport)
    requires Flow(p) && Books(p) && Enabled(p, op)
    ensures Books(Step(p, op, sport))
  {
    match op
    case TimerFires(home, now) =>
      var x := p.pending.value;
      var row := ToRow(x.state, x.event, sport, now);
      LaunchKeepsBooks(p, x, ToHomeAway(row, home), row.status == Final, home.Some?);
    case ArchiveAnswer(status, landed) =>
      ArchivedKeepsBooks(p, status, landed);
    case BoardAnswer(status, fixtureRetry) =>
      var f := p.flight.value;
      var q := p.(flight := Some(f.(retry := Retryable(status) || fixtureRetry,
                                    phase := AwaitArchive(p.unarchived, false))));
      BooksElsewhere(p, q);
      if p.unarchived == [] {
        EndKeepsBooks(q);
      }
    case _ =>
      BooksElsewhere(p, Step(p, op, sport));
  }

  /** Books speak of the backlog, the marks and the posts only. */
  lemma BooksElsewhere(p: Pub, q: Pub)
    requires Books(p)
    requires q.unarchived == p.unarchived && q.archived == p.archived && q.posts == p.posts && q.floor == p.floor
    requires q.matchInstance >= p.matchInstance
    requires q.pending.Some? ==> q.floor <= q.pending.value.inst <= q.matchInstance
    requires q.flight.Some? ==>
               && p.flight.Some? && q.flight.value.payload == p.flight.value.payload
               && (q.flight.value.phase.AwaitArchive? ==>
                     q.flight.value.phase.todo == p.unarchived || q.flight == p.flight)
    ensures Books(q)
  {
    forall m | Closed(q.posts, m)
      ensures OffTheBooks(q, m)
    {
      assert OffTheBooks(p, m);
    }
  }

  lemma {:induction false} RunKeepsBooks(p: Pub, ops: seq<Op>, sport: Sport)
    requires Flow(p) && Books(p) && Possible(p, ops, sport)
    ensures Books(Run(p, ops, sport))
    decreases |ops|
  {
    if ops != [] {
      StepKeepsFlow(p, ops[0], sport);
      StepKeepsBooks(p, ops[0], sport);
      RunKeepsBooks(Step(p, ops[0], sport), ops[1..], sport);
    }
  }

  /** At most one history row per match instance, over every run of pushes, timers, detaches and
      answers - lost ones, retries and corrections after the final included: no match is posted again
      once a POST of it was confirmed or may have landed, although only the last 50 instances stay
      marked; and at most 5 results wait to be written. */
  lemma {:induction false} OneHistoryRowPerMatch(ops: seq<Op>, sport: Sport)
    requires Possible(INITIAL, ops, sport)
    ensures var p := Run(INITIAL, ops, sport);
            && PostedOnce(p.posts)
            && |p.unarchived| <= 5
            && (forall m: nat :: Closed(p.posts, m) && m !in p.archived ==> m + 50 < p.floor)
  {
    assert Keys(INITIAL.unarchived) == {};
    RunKeepsBooks(INITIAL, ops, sport);
  }

  /** And so two rows of one match are committed only when the first was committed under an answer that
      says it was not - a refusal the publisher may retry, or gives up on. */
  lemma {:induction false} NoDuplicateRows(ops: seq<Op>, sport: Sport, i: nat, j: nat)
    requires Possible(INITIAL, ops, sport)
    requires var posts := Run(INITIAL, ops, sport).posts;
             i < j < |posts| && posts[i].landed && posts[j].landed && posts[i].inst == posts[j].inst
    ensures var status := Run(INITIAL, ops, sport).posts[i].status;
            !Settled(status) && status != NEVER_SENT
  {
    OneHistoryRowPerMatch(ops, sport);
    CommittedWasSentFrom(INITIAL, ops, sport);
  }

  predicate CommittedWasSent(posts: seq<Post>) {
    forall i :: 0 <= i < |posts| ==> posts[i].landed ==> posts[i].status != NEVER_SENT
  }

  lemma {:induction false} CommittedWasSentFrom(p: Pub, ops: seq<Op>, sport: Sport)
    requires Flow(p) && CommittedWasSent(p.posts) && Possible(p, ops, sport)
    ensures CommittedWasSent(Run(p, ops, sport).posts)
    decreases |ops|
  {
    hide ToRow, ToHomeAway, WhoIsPlaying, IsOver, IsFresh, Requeued, Put, Drop, Marked, Resends, Done, Settled;
    if ops != [] {
      StepKeepsFlow(p, ops[0], sport);
      CommittedWasSentFrom(Step(p, ops[0], sport), ops[1..], sport);
    }
  }

  /** A result waits to be written, its flush about to be sent again. */
  predicate ReadyToRetry(p: Pub, x: Payload) {
    && p.timer && p.pending == Some(x) && p.flight == None && p.failures == 1
    && |p.unarchived| == 1 && p.unarchived[0].inst == x.inst && p.archived == {}
  }

  lemma FinalIsRetried(s: LiveState, sport: Sport)
    requires StatusOf(s, NoEvent, sport) == Final
    ensures var p1 := Step(INITIAL, Push(s, NoEvent, true), sport);
            && p1.timer && p1.pending.Some?
            && var p2 := Step(p1, TimerFires(None, 0), sport);
               && Enabled(p2, BoardAnswer(200, false))
               && var p3 := Step(p2, BoardAnswer(200, false), sport);
                  && Enabled(p3, ArchiveAnswer(503, true))
                  && var p4 := Step(p3, ArchiveAnswer(503, true), sport);
                     && ReadyToRetry(p4, p1.pending.value)
                     && p1.pending.value.state == s && p1.pending.value.event == NoEvent
                     && p4.posts == [Post(p1.pending.value.inst, 503, true)]
  {
    hide WhoIsPlaying, IsOver, IsFresh, StatusOf;
  }

  lemma RetriedIsWritten(p: Pub, x: Payload, sport: Sport)
    requires ReadyToRetry(p, x) && StatusOf(x.state, x.event, sport) == Final
    ensures var p5 := Step(p, TimerFires(None, 1), sport);
            && Enabled(p5, BoardAnswer(200, false))
            && var p6 := Step(p5, BoardAnswer(200, false), sport);
               && Enabled(p6, ArchiveAnswer(200, true))
               && Step(p6, ArchiveAnswer(200, true), sport).posts == p.posts + [Post(x.inst, 200, true)]
  {
    hide StatusOf;
  }

  /** A server that commits a row and answers 503 gets it twice. */
  lemma {:induction false} CommittedRefusalIsDoubled(s: LiveState, sport: Sport)
    requires StatusOf(s, NoEvent, sport) == Final
    ensures var ops := [Push(s, NoEvent, true)] + ([TimerFires(None, 0)] + ([BoardAnswer(200, false)]
                       + ([ArchiveAnswer(503, true)] + ([TimerFires(None, 1)] + ([BoardAnswer(200, false)]
                       + ([ArchiveAnswer(200, true)] + []))))));
            Possible(INITIAL, ops, sport)
            && var posts := Run(INITIAL, ops, sport).posts;
               |posts| == 2 && posts[0].landed && posts[1].landed && posts[0].inst == posts[1].inst
  {
    FinalIsRetried(s, sport);
    hide Step, StatusOf;
    var o6 := [ArchiveAnswer(200, true)] + [];
    var o5 := [BoardAnswer(200, false)] + o6;
    var o4 := [TimerFires(None, 1)] + o5;
    var o3 := [ArchiveAnswer(503, true)] + o4;
    var o2 := [BoardAnswer(200, false)] + o3;
    var o1 := [TimerFires(None, 0)] + o2;
    var p1 := Step(INITIAL, Push(s, NoEvent, true), sport);
    var p2 := Step(p1, TimerFires(None, 0), sport);
    var p3 := Step(p2, BoardAnswer(200, false), sport);
    var p4 := Step(p3, ArchiveAnswer(503, true), sport);
    RetriedIsWritten(p4, p1.pending.value, sport);
    var p5 := Step(p4, TimerFires(None, 1), sport);
    var p6 := Step(p5, BoardAnswer(200, false), sport);
    var p7 := Step(p6, ArchiveAnswer(200, true), sport);
    RunNone(p7, sport);
    RunCons(p6, ArchiveAnswer(200, true), [], sport);
    RunCons(p5, BoardAnswer(200, false), o6, sport);
    RunCons(p4, TimerFires(None, 1), o5, sport);
    RunCons(p3, ArchiveAnswer(503, true), o4, sport);
    RunCons(p2, BoardAnswer(200, false), o3, sport);
    RunCons(p1, TimerFires(None, 0), o2, sport);
    RunCons(INITIAL, Push(s, NoEvent, true), o1, sport);
  }
}
