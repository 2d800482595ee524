/** Which match is which to the publisher, and where every finished one ends up: numbered apart from all
    before it, and accounted for whatever the network answers. */
module LivePushMatches {
  import opened Basics
  import opened LiveStates
  import opened LiveFixture
  import opened LivePush
  import opened LivePushRuns

  // ---- Matches by what was pushed -------------------------------------------------------------------------

  predicate Scored(s: LiveState) {
    s.points.a != 0 || s.points.b != 0 || s.sets.a != 0 || s.sets.b != 0
  }

  function GoesBy(t: Team): string {
    if t.name == "" then t.short else t.name
  }

  /** The same two teams, at either end. */
  predicate SameTeams(s: LiveState, t: LiveState) {
    || (GoesBy(s.teams.a) == GoesBy(t.teams.a) && GoesBy(s.teams.b) == GoesBy(t.teams.b))
    || (GoesBy(s.teams.a) == GoesBy(t.teams.b) && GoesBy(s.teams.b) == GoesBy(t.teams.a))
  }

  /** The last of these boards shows a match that the one before it did not: the first points after a 0-0
      board, or other teams in a match that is not over. */
  predicate Begins(states: seq<LiveState>, sport: Sport)
    requires states != []
  {
    var n := |states| - 1;
    && Scored(states[n])
    && (n == 0 || !Scored(states[n - 1]) || (!SameTeams(states[n - 1], states[n]) && !IsOver(states[n], sport)))
  }

  /** How many matches these boards have shown. */
  function Begun(states: seq<LiveState>, sport: Sport): nat {
    if states == [] then 0
    else Begun(states[..|states| - 1], sport) + if Begins(states, sport) then 1 else 0
  }

  /** The boards pushed, whether publishing was on or not. */
  function Pushed(ops: seq<Op>): seq<LiveState> {
    if ops == [] then []
    else (if ops[0].Push? then [ops[0].state] else []) + Pushed(ops[1..])
  }

  predicate Knows(p: Pub, states: seq<LiveState>, sport: Sport) {
    && p.matchInstance == Begun(states, sport)
    && (p.atMatchStart <==> states == [] || !Scored(states[|states| - 1]))
    && p.playing == if states == [] then None else Some(WhoIsPlaying(states[|states| - 1]))
  }

  lemma SameTeamsPlay(s: LiveState, t: LiveState)
    ensures WhoIsPlaying(s) == WhoIsPlaying(t) <==> SameTeams(s, t)
  {
    var a, b, c, d := NameOf(s.teams.a), NameOf(s.teams.b), NameOf(t.teams.a), NameOf(t.teams.b);
    assert GoesBy(s.teams.a) == a && GoesBy(s.teams.b) == b && GoesBy(t.teams.a) == c && GoesBy(t.teams.b) == d;
    if WhoIsPlaying(s) == WhoIsPlaying(t) {
      assert a in multiset{c, d} && b in multiset{c, d};
      assert multiset{a, b}[a] == multiset{c, d}[a] && multiset{a, b}[b] == multiset{c, d}[b];
    }
  }

  lemma {:induction false} BegunGrows(states: seq<LiveState>, s: LiveState, sport: Sport)
    ensures Begun(states + [s], sport) == Begun(states, sport) + if Begins(states + [s], sport) then 1 else 0
  {
    assert (states + [s])[..|states|] == states;
  }

  lemma PushIsCounted(p: Pub, states: seq<LiveState>, s: LiveState, sport: Sport)
    requires Knows(p, states, sport)
    ensures Knows(Noticed(p, s, sport), states + [s], sport)
  {
    BegunGrows(states, s, sport);
    if states != [] {
      SameTeamsPlay(states[|states| - 1], s);
    }
    hide IsOver, WhoIsPlaying, SameTeams, Begun;
  }

  lemma ContinueChangesNoMatch(p: Pub, f: Flight)
    requires f.phase.AwaitArchive?
    ensures var q := Continue(p, f);
            q.matchInstance == p.matchInstance && q.atMatchStart == p.atMatchStart && q.playing == p.playing
  {
  }

  lemma OthersChangeNoMatch(p: Pub, op: Op, sport: Sport)
    requires Enabled(p, op) && !op.Push?
    ensures var q := Step(p, op, sport);
            q.matchInstance == p.matchInstance && q.atMatchStart == p.atMatchStart && q.playing == p.playing
  {
    hide ToRow, ToHomeAway, Requeued, Marked, Drop, Resends, Done, Settled, Continue, DoPush;
    match op
    case BoardAnswer(status, fixtureRetry) =>
      ContinueChangesNoMatch(p, p.flight.value.(retry := Retryable(status) || fixtureRetry,
                                                phase := AwaitArchive(p.unarchived, false)));
    case ArchiveAnswer(status, landed) =>
      var f := p.flight.value;
      if !Resends(f, status) {
        ContinueChangesNoMatch(Noted(p, f.phase.todo[0].inst, status, landed),
                               f.(phase := AwaitArchive(f.phase.todo[1..], false), retry := f.retry || !Done(status)));
      }
    case _ =>
  }

  function After(states: seq<LiveState>, op: Op): seq<LiveState> {
    if op.Push? then states + [op.state] else states
  }

  /** What a push does to all that does not say which match it is. */
  lemma PushStamps(p: Pub, s: LiveState, event: Event, live: bool, sport: Sport)
    ensures var q, n := Step(p, Push(s, event, live), sport), Noticed(p, s, sport);
            && q.matchInstance == n.matchInstance && q.atMatchStart == n.atMatchStart && q.playing == n.playing
            && q.unarchived == p.unarchived && q.archived == p.archived && q.posts == p.posts && q.flight == p.flight
            && (live ==> q.pending == Some(Payload(p.accepted, s, event, n.matchInstance)))
  {
    hide IsOver, IsFresh, WhoIsPlaying;
  }

  lemma StepCounts(p: Pub, states: seq<LiveState>, op: Op, sport: Sport)
    requires Knows(p, states, sport) && Enabled(p, op)
    ensures Knows(Step(p, op, sport), After(states, op), sport)
  {
    if op.Push? {
      PushIsCounted(p, states, op.state, sport);
      PushStamps(p, op.state, op.event, op.live, sport);
    } else {
      OthersChangeNoMatch(p, op, sport);
    }
    hide Step, Begun, Noticed, Enabled, WhoIsPlaying;
  }

  lemma {:induction false} CountsFrom(p: Pub, states: seq<LiveState>, ops: seq<Op>, sport: Sport)
    requires Knows(p, states, sport) && Possible(p, ops, sport)
    ensures Knows(Run(p, ops, sport), states + Pushed(ops), sport)
    decreases |ops|
  {
    hide Step, Knows, Enabled, Pushed, After;
    PushedNext(states, ops);
    if ops != [] {
      StepCounts(p, states, ops[0], sport);
      CountsFrom(Step(p, ops[0], sport), After(states, ops[0]), ops[1..], sport);
    }
  }

  lemma {:induction false} PushedNext(states: seq<LiveState>, ops: seq<Op>)
    ensures states + Pushed(ops) == if ops == [] then states else After(states, ops[0]) + Pushed(ops[1..])
  {
  }

  /** A state accepted is stamped with the number of matches pushed so far - every push counted, those made
      while publishing was off included. */
  lemma {:induction false} InstanceCountsMatches(ops: seq<Op>, s: LiveState, event: Event, sport: Sport)
    requires Possible(INITIAL, ops, sport)
    ensures var q := Step(Run(INITIAL, ops, sport), Push(s, event, true), sport);
            && q.pending.Some? && q.pending.value.state == s && q.pending.value.event == event
            && q.pending.value.inst == Begun(Pushed(ops) + [s], sport)
  {
    hide Step, Begun, Noticed;
    var p := Run(INITIAL, ops, sport);
    NoneBegun(sport);
    CountsFrom(INITIAL, [], ops, sport);
    assert [] + Pushed(ops) == Pushed(ops);
    PushIsCounted(p, Pushed(ops), s, sport);
    PushStamps(p, s, event, true, sport);
  }

  lemma {:induction false} NoneBegun(sport: Sport)
    ensures Begun([], sport) == 0
  {
  }

  // ---- A new match is new -----------------------------------------------------------------------------------

  /** Every match instance the publisher holds or has posted is one counted before. */
  ghost predicate Numbered(p: Pub) {
    && p.floor <= p.matchInstance
    && (p.pending.Some? ==> p.pending.value.inst <= p.matchInstance)
    && (p.flight.Some? ==> p.flight.value.payload.inst <= p.matchInstance)
    && (forall m :: m in Keys(p.unarchived) ==> m <= p.matchInstance)
    && (forall m :: m in p.archived ==> m <= p.matchInstance)
    && (forall i :: 0 <= i < |p.posts| ==> p.posts[i].inst <= p.matchInstance)
  }

  lemma StepKeepsNumbered(p: Pub, op: Op, sport: Sport)
    requires Flow(p) && Books(p) && Numbered(p) && Enabled(p, op)
    ensures Numbered(Step(p, op, sport))
  {
    StepKeepsBooks(p, op, sport);
    hide Step, Books, Flow;
    if op.ArchiveAnswer? {
      ArchiveKeepsNumbered(p, op.status, op.landed, sport);
    } else {
      MarksStay(p, op, sport);
      NumberedByBooks(Step(p, op, sport));
    }
  }

  lemma MarksStay(p: Pub, op: Op, sport: Sport)
    requires Enabled(p, op) && !op.ArchiveAnswer?
    ensures var q := Step(p, op, sport);
            q.archived == p.archived && q.posts == p.posts && q.matchInstance >= p.matchInstance
  {
    hide ToRow, ToHomeAway, WhoIsPlaying, IsOver, IsFresh, Requeued, Put, Drop, Resends, Done, Settled;
  }

  /** What waits or flies is numbered by the books. */
  lemma NumberedByBooks(p: Pub)
    requires Books(p) && (forall m :: m in p.archived ==> m <= p.matchInstance)
    requires forall i :: 0 <= i < |p.posts| ==> p.posts[i].inst <= p.matchInstance
    ensures Numbered(p)
  {
    hide OffTheBooks, Closed, PostedOnce, Distinct;
  }

  lemma ArchiveKeepsNumbered(p: Pub, status: int, landed: bool, sport: Sport)
    requires Flow(p) && Books(p) && Numbered(p) && Enabled(p, ArchiveAnswer(status, landed))
    requires Books(Step(p, ArchiveAnswer(status, landed), sport))
    ensures Numbered(Step(p, ArchiveAnswer(status, landed), sport))
  {
    var todo := p.flight.value.phase.todo;
    var inst := todo[0].inst;
    assert inst in Keys(todo);
    var q := Step(p, ArchiveAnswer(status, landed), sport);
    AnswerMarks(p, status, landed, sport);
    hide Step, Flow, Enabled;
    assert q.matchInstance == p.matchInstance && inst <= p.matchInstance;
    NumberedByBooks(q);
  }

  lemma ContinueMarks(p: Pub, f: Flight)
    requires f.phase.AwaitArchive?
    ensures var q := Continue(p, f);
            && q.matchInstance == p.matchInstance && q.archived == p.archived && q.posts == p.posts
            && q.unarchived == p.unarchived && q.floor == p.floor
  {
  }

  lemma AnswerMarks(p: Pub, status: int, landed: bool, sport: Sport)
    requires Enabled(p, ArchiveAnswer(status, landed))
    ensures var q := Step(p, ArchiveAnswer(status, landed), sport);
            var inst := p.flight.value.phase.todo[0].inst;
            && q.matchInstance == p.matchInstance && q.archived <= p.archived + {inst}
            && q.posts == p.posts + [Post(inst, status, landed)]
  {
    hide Drop, Resends, Done, Settled, Continue, StartFlush, DoPush, FailedFlush, DoDetach;
    var f := p.flight.value;
    if !Resends(f, status) {
      ContinueMarks(Noted(p, f.phase.todo[0].inst, status, landed),
                    f.(phase := AwaitArchive(f.phase.todo[1..], false), retry := f.retry || !Done(status)));
    }
  }

  lemma {:induction false} RunKeepsNumbered(p: Pub, ops: seq<Op>, sport: Sport)
    requires Flow(p) && Books(p) && Numbered(p) && Possible(p, ops, sport)
    ensures Numbered(Run(p, ops, sport))
    decreases |ops|
  {
    if ops != [] {
      StepKeepsFlow(p, ops[0], sport);
      StepKeepsBooks(p, ops[0], sport);
      StepKeepsNumbered(p, ops[0], sport);
      hide Step, Flow, Books, Numbered;
      RunKeepsNumbered(Step(p, ops[0], sport), ops[1..], sport);
    }
  }

  /** The first scored state after a 0-0 board - or, in a match not over, after one of other teams - is a
      match of its own: no payload waiting or in flight, no result in the backlog, no mark and no history post
      of the whole run has its number. */
  lemma {:induction false} NewMatchIsNew(ops: seq<Op>, s: LiveState, event: Event, sport: Sport)
    requires Possible(INITIAL, ops, sport) && Begins(Pushed(ops) + [s], sport)
    ensures var p := Run(INITIAL, ops, sport);
            var q := Step(p, Push(s, event, true), sport);
            && q.pending.Some?
            && var inst := q.pending.value.inst;
               && (p.pending.Some? ==> p.pending.value.inst < inst)
               && (p.flight.Some? ==> p.flight.value.payload.inst < inst)
               && inst !in Keys(q.unarchived) && inst !in q.archived
               && (forall i :: 0 <= i < |q.posts| ==> q.posts[i].inst < inst)
  {
    assert Keys(INITIAL.unarchived) == {};
    RunKeepsNumbered(INITIAL, ops, sport);
    InstanceCountsMatches(ops, s, event, sport);
    CountsFrom(INITIAL, [], ops, sport);
    assert [] + Pushed(ops) == Pushed(ops);
    assert (Pushed(ops) + [s])[..|Pushed(ops)|] == Pushed(ops);
    hide Begins, Noticed;
  }

  /** And the same teams playing on, or a board that is over whoever it names, keep the number. */
  lemma {:induction false} SameMatchKeepsItsNumber(ops: seq<Op>, s: LiveState, event: Event, sport: Sport)
    requires Possible(INITIAL, ops, sport) && !Begins(Pushed(ops) + [s], sport)
    ensures var p := Run(INITIAL, ops, sport);
            Step(p, Push(s, event, true), sport).pending.value.inst == p.matchInstance
  {
    InstanceCountsMatches(ops, s, event, sport);
    CountsFrom(INITIAL, [], ops, sport);
    assert [] + Pushed(ops) == Pushed(ops);
    assert (Pushed(ops) + [s])[..|Pushed(ops)|] == Pushed(ops);
    hide Begins, Noticed;
  }

  // ---- Where every result ends up --------------------------------------------------------------------------

  /** The publisher, and what it owes: the row of every match instance whose last flush was final, and all
      instances ever flushed final. */
  datatype Ledger = Ledger(pub: Pub, owed: map<nat, Row>, finals: set<nat>)

  function Flushed(r: Ledger, x: Payload, home: Option<Which>, now: int, sport: Sport, q: Pub): Ledger {
    var row := ToRow(x.state, x.event, sport, now);
    if row.status == Final then Ledger(q, r.owed[x.inst := ToHomeAway(row, home)], r.finals + {x.inst})
    else Ledger(q, r.owed - {x.inst}, r.finals)
  }

  function Booked(r: Ledger, op: Op, sport: Sport): Ledger
    requires Enabled(r.pub, op)
  {
    var q := Step(r.pub, op, sport);
    if op.TimerFires? && r.pub.pending.Some? then Flushed(r, r.pub.pending.value, op.home, op.now, sport, q)
    else r.(pub := q)
  }

  function Kept(r: Ledger, ops: seq<Op>, sport: Sport): Ledger
    requires Possible(r.pub, ops, sport)
    decreases |ops|
  {
    if ops == [] then r else Kept(Booked(r, ops[0], sport), ops[1..], sport)
  }

  /** The answer to the last history POST of this match. */
  function LastAnswer(posts: seq<Post>, m: nat): Option<int> {
    if posts == [] then None
    else if posts[|posts| - 1].inst == m then Some(posts[|posts| - 1].status)
    else LastAnswer(posts[..|posts| - 1], m)
  }

  /** Written, perhaps written, or refused for what it is: nothing a retry would change. */
  predicate ForGood(status: int) {
    || 200 <= status < 300
    || status in {-1, 504, 524}
    || (status != 0 && status != 408 && status != 429 && status < 500)
  }

  function Newer(finals: set<nat>, m: nat): set<nat> {
    set n | n in finals && n > m
  }

  predicate AccountedFor(r: Ledger, m: nat) {
    || m in Keys(r.pub.unarchived)
    || (LastAnswer(r.pub.posts, m).Some? && ForGood(LastAnswer(r.pub.posts, m).value))
    || |Newer(r.finals, m)| >= MAX_UNARCHIVED
  }

  predicate OldestFirst(queue: seq<Queued>) {
    forall i, j :: 0 <= i < j < |queue| ==> queue[i].inst < queue[j].inst
  }

  /** What waits is owed, in its newest row. */
  predicate NewestRows(queue: seq<Queued>, owed: map<nat, Row>, finals: set<nat>) {
    forall q :: q in queue ==> q.inst in owed && q.row == owed[q.inst] && q.inst in finals
  }

  ghost predicate MarksAreAnswered(p: Pub) {
    forall m :: m in p.archived ==>
                  Closed(p.posts, m) && LastAnswer(p.posts, m).Some? && ForGood(LastAnswer(p.posts, m).value)
  }

  predicate AllAccountedFor(r: Ledger) {
    forall m :: m in r.owed ==> AccountedFor(r, m)
  }

  /** Every result is in the backlog, the newest row of it, oldest match first - or was answered for good, or
      pushed out by five newer ones. */
  ghost predicate Balanced(r: Ledger) {
    && AllAccountedFor(r) && OldestFirst(r.pub.unarchived) && NewestRows(r.pub.unarchived, r.owed, r.finals)
    && MarksAreAnswered(r.pub)
  }

  lemma {:induction false} AnswerIsLast(posts: seq<Post>, x: Post, m: nat)
    ensures LastAnswer(posts + [x], m) == if x.inst == m then Some(x.status) else LastAnswer(posts, m)
  {
    assert (posts + [x])[..|posts|] == posts;
  }

  lemma MoreNewer(finals: set<nat>, n: nat, m: nat)
    ensures |Newer(finals + {n}, m)| >= |Newer(finals, m)|
  {
    var less, more := Newer(finals, m), Newer(finals + {n}, m);
    if n > m && n !in less {
      assert more == less + {n};
    } else {
      assert more == less;
    }
  }

  /** Putting the newest match of all in the backlog, or its newer row. */
  lemma {:induction false} PutNewest(queue: seq<Queued>, q: Queued)
    requires OldestFirst(queue)
    requires forall i :: 0 <= i < |queue| ==> queue[i].inst <= q.inst
    ensures Put(queue, q) == if queue != [] && queue[|queue| - 1].inst == q.inst then queue[..|queue| - 1] + [q]
                             else queue + [q]
  {
    if queue != [] {
      if queue[0].inst == q.inst {
        assert |queue| == 1;
      } else {
        PutNewest(queue[1..], q);
        var last := queue[|queue| - 1];
        assert queue[1..] != [] ==> queue[1..][|queue| - 2] == last;
        assert queue == [queue[0]] + queue[1..];
        if |queue| > 1 && last.inst == q.inst {
          assert [queue[0]] + (queue[1..][..|queue| - 2] + [q]) == queue[..|queue| - 1] + [q];
        }
      }
    }
  }

  /** Dropping a match leaves the others, in order. */
  lemma {:induction false} DropKeepsOrder(queue: seq<Queued>, inst: nat)
    requires OldestFirst(queue)
    ensures forall q :: q in Drop(queue, inst) <==> q in queue && q.inst != inst
    ensures OldestFirst(Drop(queue, inst))
  {
    if queue != [] {
      DropKeepsOrder(queue[1..], inst);
      assert queue == [queue[0]] + queue[1..];
    }
  }

  lemma FiveNewer(queue: seq<Queued>, finals: set<nat>)
    requires |queue| == MAX_UNARCHIVED + 1 && OldestFirst(queue) && Keys(queue) <= finals
    ensures |Newer(finals, queue[0].inst)| >= MAX_UNARCHIVED
  {
    assert forall i :: 0 <= i < |queue| ==> queue[i].inst in Keys(queue);
    var five := {queue[1].inst, queue[2].inst, queue[3].inst, queue[4].inst, queue[5].inst};
    assert |five| == 5;
    var newer := Newer(finals, queue[0].inst);
    assert five <= newer;
    assert newer == five + (newer - five);
  }

  function Capped(queue: seq<Queued>): seq<Queued> {
    if |queue| > MAX_UNARCHIVED then queue[1..] else queue
  }

  lemma {:induction false} PutInOrder(queue: seq<Queued>, q: Queued)
    requires OldestFirst(queue) && forall m :: m in Keys(queue) ==> m <= q.inst
    ensures var put := Put(queue, q);
            && OldestFirst(put) && put != [] && put[|put| - 1] == q
            && (forall e :: e in put ==> e == q || (e in queue && e.inst != q.inst))
  {
    forall i | 0 <= i < |queue|
      ensures queue[i].inst <= q.inst
    {
      assert queue[i].inst in Keys(queue);
    }
    PutNewest(queue, q);
    hide Keys, Put;
    if queue != [] && queue[|queue| - 1].inst == q.inst {
      LastIsNewest(queue[..|queue| - 1], q, queue);
    } else {
      LastIsNewest(queue, q, queue);
    }
  }

  lemma LastIsNewest(older: seq<Queued>, q: Queued, queue: seq<Queued>)
    requires OldestFirst(queue) && older <= queue && forall i :: 0 <= i < |older| ==> older[i].inst < q.inst
    ensures var put := older + [q];
            && OldestFirst(put) && forall e :: e in put ==> e == q || (e in queue && e.inst != q.inst)
  {
    assert forall i :: 0 <= i < |older| ==> older[i] == queue[i];
  }

  /** Cutting a backlog of six down to five: the oldest leaves. */
  lemma CapDropsTheOldest(put: seq<Queued>)
    requires OldestFirst(put) && put != []
    ensures var n := Capped(put);
            && OldestFirst(n) && n != [] && n[|n| - 1] == put[|put| - 1] && n[|n| - 1].inst in Keys(n)
            && Keys(n) <= Keys(put) && Keys(put) <= Keys(n) + (if |put| > MAX_UNARCHIVED then {put[0].inst} else {})
            && forall e :: e in n ==> e in put
  {
    var n := Capped(put);
    if |put| > MAX_UNARCHIVED {
      assert put == [put[0]] + n;
      KeysOfCons(put[0], n);
    }
  }

  /** The backlog with the newest match put in: nobody leaves it but the oldest of six. */
  lemma {:induction false} NewestJoins(queue: seq<Queued>, q: Queued)
    requires OldestFirst(queue) && |queue| <= MAX_UNARCHIVED && Distinct(queue)
    requires forall m :: m in Keys(queue) ==> m <= q.inst
    ensures var put := Put(queue, q);
            var n := Capped(put);
            && OldestFirst(put) && OldestFirst(n) && q.inst in Keys(n) && Keys(n) <= Keys(queue) + {q.inst}
            && (forall e :: e in n ==> e == q || (e in queue && e.inst != q.inst))
            && (|put| <= MAX_UNARCHIVED ==> Keys(queue) <= Keys(n))
            && (|put| > MAX_UNARCHIVED ==> |put| == MAX_UNARCHIVED + 1 && Keys(queue) <= Keys(n) + {put[0].inst}
                                           && Keys(put) <= Keys(queue) + {q.inst})
  {
    PutInOrder(queue, q);
    PutKeys(queue, q);
    CapDropsTheOldest(Put(queue, q));
    hide Put, Distinct, OldestFirst, Keys, Capped;
  }

  lemma {:induction false} AccountsAfterFinal(r: Ledger, n: Ledger, inst: nat, q: Queued)
    requires Books(r.pub) && AllAccountedFor(r) && OldestFirst(r.pub.unarchived) && q.inst == inst
    requires NewestRows(r.pub.unarchived, r.owed, r.finals)
    requires forall m :: m in Keys(r.pub.unarchived) ==> m <= inst
    requires n.pub.unarchived == Capped(Put(r.pub.unarchived, q)) && n.pub.posts == r.pub.posts
    requires n.finals == r.finals + {inst} && n.owed.Keys == r.owed.Keys + {inst}
    ensures AllAccountedFor(n)
  {
    NewestJoins(r.pub.unarchived, q);
    KeysAreFinal(r.pub.unarchived, r.owed, r.finals);
    var put := Put(r.pub.unarchived, q);
    hide Books, ForGood, LastAnswer, NewestRows, Capped, Keys, Put, OldestFirst;
    if |put| > MAX_UNARCHIVED {
      FiveNewer(put, n.finals);
    }
    hide Newer;
    forall m | m in n.owed
      ensures AccountedFor(n, m)
    {
      MoreNewer(r.finals, inst, m);
      if m != inst {
        assert AccountedFor(r, m);
      }
    }
  }

  lemma KeysAreFinal(queue: seq<Queued>, owed: map<nat, Row>, finals: set<nat>)
    requires NewestRows(queue, owed, finals)
    ensures Keys(queue) <= finals
  {
  }

  lemma RowsAfterFinal(queue: seq<Queued>, n: seq<Queued>, q: Queued, owed: map<nat, Row>, finals: set<nat>)
    requires NewestRows(queue, owed, finals)
    requires forall e :: e in n ==> e == q || (e in queue && e.inst != q.inst)
    ensures NewestRows(n, owed[q.inst := q.row], finals + {q.inst})
  {
  }

  lemma FinalIsBooked(r: Ledger, x: Payload, row: Row, withGame: bool)
    requires Books(r.pub) && Balanced(r) && r.pub.pending == Some(x) && x.inst !in r.pub.archived
    ensures Balanced(Ledger(Launched(r.pub, x, row, true, withGame), r.owed[x.inst := row], r.finals + {x.inst}))
  {
    var p := r.pub;
    var n := Ledger(Launched(p, x, row, true, withGame), r.owed[x.inst := row], r.finals + {x.inst});
    var q := Queued(x.inst, row, withGame);
    BacklogIsCapped(p, x, row, withGame);
    hide Books, AllAccountedFor, OldestFirst, Capped, NewestRows, Launched, Keys, MarksAreAnswered;
    NewestJoins(p.unarchived, q);
    AccountsAfterFinal(r, n, x.inst, q);
    RowsAfterFinal(p.unarchived, n.pub.unarchived, q, r.owed, r.finals);
    MarksAsBefore(p, n.pub);
  }

  lemma {:induction false} BacklogIsCapped(p: Pub, x: Payload, row: Row, withGame: bool)
    requires Books(p) && p.pending == Some(x) && x.inst !in p.archived
    ensures var n := Launched(p, x, row, true, withGame);
            && n.unarchived == Capped(Put(p.unarchived, Queued(x.inst, row, withGame)))
            && n.posts == p.posts && n.archived == p.archived
    ensures |p.unarchived| <= MAX_UNARCHIVED && Distinct(p.unarchived)
    ensures forall m :: m in Keys(p.unarchived) ==> m <= x.inst
  {
    hide OffTheBooks, Closed, PostedOnce, Distinct;
  }

  lemma MarksAsBefore(p: Pub, n: Pub)
    requires MarksAreAnswered(p) && n.posts == p.posts && n.archived == p.archived
    ensures MarksAreAnswered(n)
  {
    hide LastAnswer, Closed, ForGood;
  }

  lemma LaunchIsBooked(r: Ledger, home: Option<Which>, now: int, sport: Sport)
    requires Flow(r.pub) && Books(r.pub) && Balanced(r) && r.pub.timer
    ensures Balanced(Booked(r, TimerFires(home, now), sport))
  {
    var p := r.pub;
    var x := p.pending.value;
    var row := ToRow(x.state, x.event, sport, now);
    hide ToRow, ToHomeAway, Flow, Balanced;
    if row.status == Final && x.inst !in p.archived {
      FinalIsBooked(r, x, ToHomeAway(row, home), home.Some?);
    } else if row.status == Final {
      SettledIsBooked(r, x, ToHomeAway(row, home), home.Some?);
    } else {
      CorrectedIsBooked(r, x, ToHomeAway(row, home), home.Some?);
    }
  }

  lemma SettledIsBooked(r: Ledger, x: Payload, row: Row, withGame: bool)
    requires Books(r.pub) && Balanced(r) && r.pub.pending == Some(x) && x.inst in r.pub.archived
    ensures Balanced(Ledger(Launched(r.pub, x, row, true, withGame), r.owed[x.inst := row], r.finals + {x.inst}))
  {
    var p := r.pub;
    var n := Ledger(Launched(p, x, row, true, withGame), r.owed[x.inst := row], r.finals + {x.inst});
    assert OffTheBooks(p, x.inst);
    hide Books, LastAnswer, ForGood, Closed, OldestFirst;
    forall q | q in p.unarchived
      ensures q.inst != x.inst
    {
      assert q.inst in Keys(p.unarchived);
    }
    forall m | m in n.owed
      ensures AccountedFor(n, m)
    {
      MoreNewer(r.finals, x.inst, m);
      if m != x.inst {
        assert AccountedFor(r, m);
      }
    }
  }

  lemma CorrectedIsBooked(r: Ledger, x: Payload, row: Row, withGame: bool)
    requires Books(r.pub) && Balanced(r) && r.pub.pending == Some(x)
    ensures Balanced(Ledger(Launched(r.pub, x, row, false, withGame), r.owed - {x.inst}, r.finals))
  {
    var p := r.pub;
    var n := Ledger(Launched(p, x, row, false, withGame), r.owed - {x.inst}, r.finals);
    DropKeepsOrder(p.unarchived, x.inst);
    DropKeys(p.unarchived, x.inst);
    hide Books, LastAnswer, ForGood, Closed, OldestFirst, Drop, Keys, Newer;
    forall m | m in n.owed
      ensures AccountedFor(n, m)
    {
      assert AccountedFor(r, m);
    }
  }

  lemma DoneIsForGood(status: int)
    ensures Done(status) <==> ForGood(status)
    ensures Settled(status) ==> Done(status)
  {
  }

  /** What an answer does to backlog, marks and posts. */
  lemma AnswerDoes(p: Pub, status: int, landed: bool, sport: Sport)
    requires Enabled(p, ArchiveAnswer(status, landed))
    ensures var q := Step(p, ArchiveAnswer(status, landed), sport);
            var inst := p.flight.value.phase.todo[0].inst;
            && q.posts == p.posts + [Post(inst, status, landed)]
            && (q.unarchived == p.unarchived || (Done(status) && q.unarchived == Drop(p.unarchived, inst)))
            && q.archived <= p.archived + {inst} && (inst in q.archived ==> inst in p.archived || Settled(status))
  {
    hide Drop, Done, Settled, Continue, StartFlush, DoPush, FailedFlush, DoDetach;
    var f := p.flight.value;
    if !Resends(f, status) {
      ContinueMarks(Noted(p, f.phase.todo[0].inst, status, landed),
                    f.(phase := AwaitArchive(f.phase.todo[1..], false), retry := f.retry || !Done(status)));
    }
  }

  lemma PostedWaits(p: Pub, status: int, landed: bool)
    requires Flow(p) && Books(p) && Enabled(p, ArchiveAnswer(status, landed))
    ensures var inst := p.flight.value.phase.todo[0].inst;
            inst in Keys(p.unarchived) && !Closed(p.posts, inst)
    ensures Distinct(p.unarchived)
  {
    var todo := p.flight.value.phase.todo;
    assert todo[0].inst in Keys(todo);
    assert Closed(p.posts, todo[0].inst) ==> OffTheBooks(p, todo[0].inst);
  }

  lemma AccountsAfterAnswer(r: Ledger, n: Ledger, post: Post)
    requires AllAccountedFor(r) && n.owed == r.owed && n.finals == r.finals
    requires n.pub.posts == r.pub.posts + [post]
    requires Keys(n.pub.unarchived) == Keys(r.pub.unarchived)
             || (ForGood(post.status) && Keys(n.pub.unarchived) == Keys(r.pub.unarchived) - {post.inst})
    requires post.inst in Keys(r.pub.unarchived)
    ensures AllAccountedFor(n)
  {
    hide ForGood, Keys, Newer, LastAnswer;
    forall m | m in n.owed
      ensures AccountedFor(n, m)
    {
      assert AccountedFor(r, m);
      AnswerIsLast(r.pub.posts, post, m);
    }
  }

  lemma MarksAfterAnswer(p: Pub, q: Pub, post: Post)
    requires MarksAreAnswered(p) && q.posts == p.posts + [post] && q.archived <= p.archived + {post.inst}
    requires post.inst !in p.archived && (post.inst in q.archived ==> Settled(post.status))
    ensures MarksAreAnswered(q)
  {
    DoneIsForGood(post.status);
    hide ForGood, LastAnswer, Closed, Settled, Done;
    forall m | m in q.archived
      ensures Closed(q.posts, m) && LastAnswer(q.posts, m).Some? && ForGood(LastAnswer(q.posts, m).value)
    {
      AnswerIsLast(p.posts, post, m);
      ClosedGrows(p.posts, post, m);
    }
  }

  lemma AnswerIsBooked(r: Ledger, status: int, landed: bool, sport: Sport)
    requires Flow(r.pub) && Books(r.pub) && Balanced(r) && Enabled(r.pub, ArchiveAnswer(status, landed))
    ensures Balanced(Booked(r, ArchiveAnswer(status, landed), sport))
  {
    var p := r.pub;
    var inst := p.flight.value.phase.todo[0].inst;
    var post := Post(inst, status, landed);
    var n := Booked(r, ArchiveAnswer(status, landed), sport);
    AnswerDoes(p, status, landed, sport);
    PostedWaits(p, status, landed);
    DoneIsForGood(status);
    DropKeepsOrder(p.unarchived, inst);
    DropKeys(p.unarchived, inst);
    hide Step, Flow, Books, Drop, Done, Settled, ForGood, Enabled, Keys, OldestFirst, LastAnswer, Closed;
    hide AllAccountedFor;
    AccountsAfterAnswer(r, n, post);
    MarksAfterAnswer(p, n.pub, post);
  }

  lemma StepIsBooked(r: Ledger, op: Op, sport: Sport)
    requires Flow(r.pub) && Books(r.pub) && Balanced(r) && Enabled(r.pub, op)
    ensures Balanced(Booked(r, op, sport))
  {
    if op.TimerFires? {
      LaunchIsBooked(r, op.home, op.now, sport);
    } else if op.ArchiveAnswer? {
      AnswerIsBooked(r, op.status, op.landed, sport);
    } else {
      BacklogStays(r.pub, op, sport);
      hide Step, Flow, Books, Enabled;
    }
  }

  lemma BacklogStays(p: Pub, op: Op, sport: Sport)
    requires Enabled(p, op) && !op.ArchiveAnswer? && !op.TimerFires?
    ensures var q := Step(p, op, sport);
            q.unarchived == p.unarchived && q.archived == p.archived && q.posts == p.posts
  {
    hide ToRow, ToHomeAway, WhoIsPlaying, IsOver, IsFresh, Requeued, Put, Drop, Resends, Done, Settled;
  }

  lemma {:induction false} KeptIsBalanced(r: Ledger, ops: seq<Op>, sport: Sport)
    requires Flow(r.pub) && Books(r.pub) && Balanced(r) && Possible(r.pub, ops, sport)
    ensures Balanced(Kept(r, ops, sport)) && Kept(r, ops, sport).pub == Run(r.pub, ops, sport)
    decreases |ops|
  {
    if ops != [] {
      StepKeepsFlow(r.pub, ops[0], sport);
      StepKeepsBooks(r.pub, ops[0], sport);
      StepIsBooked(r, ops[0], sport);
      hide Step, Flow, Books, Balanced, Enabled;
      KeptIsBalanced(Booked(r, ops[0], sport), ops[1..], sport);
    }
  }

  /** No finished match is lost track of, over every run: whenever the last flush of a match was final, its
      newest row waits in the backlog, or its last history post was answered for good - written, perhaps
      written, or refused for what it is - or five newer results pushed it out. And nothing else waits: a
      match corrected back to not final has left the backlog. */
  lemma {:induction false} EveryResultIsAccountedFor(ops: seq<Op>, sport: Sport)
    requires Possible(INITIAL, ops, sport)
    ensures var r := Kept(Ledger(INITIAL, map[], {}), ops, sport);
            && r.pub == Run(INITIAL, ops, sport)
            && (forall m :: m in r.owed ==> AccountedFor(r, m))
            && (forall q :: q in r.pub.unarchived ==> q.inst in r.owed && q.row == r.owed[q.inst])
  {
    assert Keys(INITIAL.unarchived) == {};
    KeptIsBalanced(Ledger(INITIAL, map[], {}), ops, sport);
  }

  // ---- An evening of matches -------------------------------------------------------------------------------

  /** A match of the evening: the 0-0 board before it, and the board it ended on. */
  datatype Played = Played(before: LiveState, end: LiveState)

  predicate Whole(m: Played, sport: Sport) {
    && !Scored(m.before) && StatusOf(m.before, NoEvent, sport) != Final
    && Scored(m.end) && StatusOf(m.end, NoEvent, sport) == Final
  }

  /** A match pushed, flushed and answered 200, its result's post too; and then the rest. */
  function MatchOps(m: Played, rest: seq<Op>): seq<Op> {
    [Push(m.before, NoEvent, true)] + ([TimerFires(None, 0)] + ([BoardAnswer(200, false)] + ResultOps(m, rest)))
  }

  function ResultOps(m: Played, rest: seq<Op>): seq<Op> {
    [Push(m.end, NoEvent, true)] + ([TimerFires(None, 0)] + ([BoardAnswer(200, false)]
    + ([ArchiveAnswer(200, true)] + rest)))
  }

  function Evening(matches: seq<Played>): seq<Op>
    decreases |matches|
  {
    if matches == [] then [] else MatchOps(matches[0], Evening(matches[1..]))
  }

  /** Nothing waiting or running, and no match marked that was not counted. */
  predicate Idle(p: Pub) {
    && p.pending == None && !p.timer && !p.backingOff && p.flight == None && p.unarchived == []
    && forall m :: m in p.archived ==> m <= p.matchInstance
  }

  lemma FreshIsShown(p: Pub, z: LiveState, sport: Sport)
    requires Idle(p) && !Scored(z) && StatusOf(z, NoEvent, sport) != Final
    ensures var p1 := Step(p, Push(z, NoEvent, true), sport);
            && p1.timer
            && var p2 := Step(p1, TimerFires(None, 0), sport);
               && Enabled(p2, BoardAnswer(200, false))
               && var p3 := Step(p2, BoardAnswer(200, false), sport);
                  Idle(p3) && p3.atMatchStart && p3.matchInstance == p.matchInstance && p3.posts == p.posts
  {
    hide WhoIsPlaying, IsOver, StatusOf, ToHomeAway;
  }

  lemma ResultIsFiled(p: Pub, s: LiveState, sport: Sport)
    requires Idle(p) && p.atMatchStart && Scored(s) && StatusOf(s, NoEvent, sport) == Final
    ensures var p1 := Step(p, Push(s, NoEvent, true), sport);
            && p1.timer
            && var p2 := Step(p1, TimerFires(None, 0), sport);
               && Enabled(p2, BoardAnswer(200, false))
               && var p3 := Step(p2, BoardAnswer(200, false), sport);
                  && Enabled(p3, ArchiveAnswer(200, true))
                  && var p4 := Step(p3, ArchiveAnswer(200, true), sport);
                     && Idle(p4) && p4.matchInstance == p.matchInstance + 1
                     && p4.posts == p.posts + [Post(p.matchInstance + 1, 200, true)]
  {
    hide WhoIsPlaying, IsOver, StatusOf, ToHomeAway;
    var p1 := Step(p, Push(s, NoEvent, true), sport);
    var p2 := Step(p1, TimerFires(None, 0), sport);
    var q := p2.unarchived[0];
    assert p2.unarchived == [q] && q.inst == p.matchInstance + 1;
    var p3 := Step(p2, BoardAnswer(200, false), sport);
    assert p3.flight.value.phase.todo == [q];
    assert [q][1..] == [] && Drop([q], q.inst) == Drop([], q.inst) == [];
  }

  /** Showing the 0-0 board of a match, from an idle publisher to an idle one. */
  lemma ShowFresh(p: Pub, z: LiveState, rest: seq<Op>, sport: Sport) returns (q: Pub)
    requires Idle(p) && !Scored(z) && StatusOf(z, NoEvent, sport) != Final
    ensures Idle(q) && q.atMatchStart && q.matchInstance == p.matchInstance && q.posts == p.posts
    ensures var ops := [Push(z, NoEvent, true)] + ([TimerFires(None, 0)] + ([BoardAnswer(200, false)] + rest));
            Possible(q, rest, sport) ==> Possible(p, ops, sport) && Run(p, ops, sport) == Run(q, rest, sport)
  {
    FreshIsShown(p, z, sport);
    var p1 := Step(p, Push(z, NoEvent, true), sport);
    EnabledHere(p, p1, z);
    hide Step, StatusOf, Idle, Scored, Enabled, Run, Possible;
    var p2 := Step(p1, TimerFires(None, 0), sport);
    q := Step(p2, BoardAnswer(200, false), sport);
    if Possible(q, rest, sport) {
      var o2 := [BoardAnswer(200, false)] + rest;
      RunCons(p2, BoardAnswer(200, false), rest, sport);
      RunCons(p1, TimerFires(None, 0), o2, sport);
      RunCons(p, Push(z, NoEvent, true), [TimerFires(None, 0)] + o2, sport);
    }
  }

  /** Pushing its result after that. */
  lemma FileResult(p: Pub, s: LiveState, rest: seq<Op>, sport: Sport) returns (q: Pub)
    requires Idle(p) && p.atMatchStart && Scored(s) && StatusOf(s, NoEvent, sport) == Final
    ensures Idle(q) && q.matchInstance == p.matchInstance + 1
    ensures q.posts == p.posts + [Post(p.matchInstance + 1, 200, true)]
    ensures var ops := [Push(s, NoEvent, true)] + ([TimerFires(None, 0)] + ([BoardAnswer(200, false)]
                       + ([ArchiveAnswer(200, true)] + rest)));
            Possible(q, rest, sport) ==> Possible(p, ops, sport) && Run(p, ops, sport) == Run(q, rest, sport)
  {
    ResultIsFiled(p, s, sport);
    var p1 := Step(p, Push(s, NoEvent, true), sport);
    EnabledHere(p, p1, s);
    hide Step, StatusOf, Idle, Scored, Enabled, Run, Possible;
    var p2 := Step(p1, TimerFires(None, 0), sport);
    var p3 := Step(p2, BoardAnswer(200, false), sport);
    q := Step(p3, ArchiveAnswer(200, true), sport);
    if Possible(q, rest, sport) {
      var o3 := [ArchiveAnswer(200, true)] + rest;
      var o2 := [BoardAnswer(200, false)] + o3;
      RunCons(p3, ArchiveAnswer(200, true), rest, sport);
      RunCons(p2, BoardAnswer(200, false), o3, sport);
      RunCons(p1, TimerFires(None, 0), o2, sport);
      RunCons(p, Push(s, NoEvent, true), [TimerFires(None, 0)] + o2, sport);
    }
  }

  lemma EnabledHere(p: Pub, p1: Pub, s: LiveState)
    requires p1.timer
    ensures Enabled(p, Push(s, NoEvent, true)) && Enabled(p1, TimerFires(None, 0))
  {
  }

  /** n history posts answered 200, of the instances from `first` on. */
  function Filed(first: nat, n: nat): seq<Post>
    decreases n
  {
    if n == 0 then [] else [Post(first, 200, true)] + Filed(first + 1, n - 1)
  }

  lemma FiledGrows(first: nat, n: nat)
    requires n > 0
    ensures Filed(first, n) == [Post(first, 200, true)] + Filed(first + 1, n - 1)
  {
  }

  lemma {:induction false} FiledLength(first: nat, n: nat)
    ensures |Filed(first, n)| == n
    decreases n
  {
    if n > 0 {
      FiledLength(first + 1, n - 1);
    }
  }

  lemma {:induction false} FiledAt(first: nat, n: nat, i: nat)
    requires i < n
    ensures |Filed(first, n)| == n && Filed(first, n)[i] == Post(first + i, 200, true)
    decreases n
  {
    if n > 1 {
      FiledAt(first + 1, n - 1, if i == 0 then 0 else i - 1);
    } else {
      assert Filed(first + 1, 0) == [];
    }
  }

  lemma PlayMatch(p: Pub, m: Played, rest: seq<Op>, sport: Sport) returns (q: Pub)
    requires Idle(p) && Whole(m, sport)
    ensures Idle(q) && q.matchInstance == p.matchInstance + 1
    ensures q.posts == p.posts + [Post(p.matchInstance + 1, 200, true)]
    ensures Possible(q, rest, sport) ==>
              Possible(p, MatchOps(m, rest), sport) && Run(p, MatchOps(m, rest), sport) == Run(q, rest, sport)
  {
    hide Step, Idle, Scored, StatusOf, Run, Possible;
    var p3 := ShowFresh(p, m.before, ResultOps(m, rest), sport);
    q := FileResult(p3, m.end, rest, sport);
  }

  lemma {:induction false} EveningFrom(p: Pub, matches: seq<Played>, sport: Sport)
    requires Idle(p) && forall i :: 0 <= i < |matches| ==> Whole(matches[i], sport)
    ensures Possible(p, Evening(matches), sport)
    ensures Run(p, Evening(matches), sport).posts == p.posts + Filed(p.matchInstance + 1, |matches|)
    decreases |matches|
  {
    hide Step, Idle, Whole, MatchOps, Filed;
    if matches == [] {
      RunNone(p, sport);
      NoneFiled(p.matchInstance + 1);
    } else {
      hide Run, Possible;
      var q := PlayMatch(p, matches[0], Evening(matches[1..]), sport);
      EveningFrom(q, matches[1..], sport);
      FiledGrows(p.matchInstance + 1, |matches|);
      OneMoreFiled(p.posts, Post(p.matchInstance + 1, 200, true), Filed(p.matchInstance + 2, |matches| - 1));
    }
  }

  lemma {:induction false} NoneFiled(first: nat)
    ensures Filed(first, 0) == []
  {
  }

  lemma OneMoreFiled(posts: seq<Post>, x: Post, rest: seq<Post>)
    ensures (posts + [x]) + rest == posts + ([x] + rest)
  {
  }

  /** Every match of an evening gets its own history row, the same two teams all evening or not: with a 0-0
      board before each and the server answering, as many posts as matches, each of an instance of its own. */
  lemma {:induction false} EveryMatchOfTheEveningIsFiled(matches: seq<Played>, sport: Sport)
    requires forall i :: 0 <= i < |matches| ==> Whole(matches[i], sport)
    ensures Possible(INITIAL, Evening(matches), sport)
    ensures var posts := Run(INITIAL, Evening(matches), sport).posts;
            |posts| == |matches| && forall i :: 0 <= i < |matches| ==> posts[i] == Post(i + 1, 200, true)
  {
    hide Whole;
    EveningFrom(INITIAL, matches, sport);
    var posts := Run(INITIAL, Evening(matches), sport).posts;
    assert posts == Filed(1, |matches|);
    hide Run, Possible, Evening;
    FiledLength(1, |matches|);
    forall i | 0 <= i < |matches|
      ensures posts[i] == Post(i + 1, 200, true)
    {
      FiledAt(1, |matches|, i);
    }
  }

  // ---- Trying again ------------------------------------------------------------------------------------------

  /** The board row's answer asks for another try: no answer, a server in trouble, or told to wait. */
  predicate TryAgain(status: int, fixtureRetry: bool) {
    fixtureRetry || status == 0 || status >= 500 || status == 408 || status == 429
  }

  /** What the end of a flush of this attachment leaves to do, nothing waiting for the history: after a
      failure the newest state there is goes out again after a backoff, until it has failed 9 times in a
      row; after an answer, whatever was pushed meanwhile. */
  lemma FlushEnds(p: Pub, status: int, fixtureRetry: bool, sport: Sport)
    requires Flow(p) && Enabled(p, BoardAnswer(status, fixtureRetry)) && p.unarchived == []
    requires p.flight.value.generation == p.generation
    ensures var q := Step(p, BoardAnswer(status, fixtureRetry), sport);
            && q.flight == None
            && (TryAgain(status, fixtureRetry) && p.failures < MAX_RETRIES ==>
                  && q.timer && q.backingOff && q.failures == p.failures + 1
                  && q.pending == (if p.pending.Some? then p.pending else Some(p.flight.value.payload)))
            && (!(TryAgain(status, fixtureRetry) && p.failures < MAX_RETRIES) ==>
                  && q.failures == 0 && q.pending == p.pending && (q.timer <==> p.pending.Some?) && !q.backingOff)
  {
  }

  /** A server that fails every time. */
  function Dead(n: nat): seq<Op> {
    if n == 0 then [] else [TimerFires(None, 0)] + ([BoardAnswer(503, false)] + Dead(n - 1))
  }

  function Repeated(serial: nat, n: nat): seq<nat> {
    if n == 0 then [] else [serial] + Repeated(serial, n - 1)
  }

  /** One such flush, answered 503. */
  lemma DeadOnce(p: Pub, rest: seq<Op>, sport: Sport) returns (q: Pub)
    requires Flow(p) && p.timer && p.pending.Some? && p.unarchived == []
    requires StatusOf(p.pending.value.state, p.pending.value.event, sport) != Final
    ensures Flow(q) && q.unarchived == [] && q.sent == p.sent + [p.pending.value.serial]
    ensures p.failures < MAX_RETRIES ==> q.timer && q.pending == p.pending && q.failures == p.failures + 1
    ensures p.failures >= MAX_RETRIES ==> !q.timer
    ensures var ops := [TimerFires(None, 0)] + ([BoardAnswer(503, false)] + rest);
            Possible(q, rest, sport) ==> Possible(p, ops, sport) && Run(p, ops, sport) == Run(q, rest, sport)
  {
    var p1 := Step(p, TimerFires(None, 0), sport);
    FlushGoesOut(p, sport);
    q := Step(p1, BoardAnswer(503, false), sport);
    StepKeepsFlow(p, TimerFires(None, 0), sport);
    StepKeepsFlow(p1, BoardAnswer(503, false), sport);
    FlushEnds(p1, 503, false, sport);
    BoardAnswerSends(p1, 503, false, sport);
    assert Enabled(p, TimerFires(None, 0));
    hide Step, Flow, Enabled, StatusOf, Run, Possible;
    if Possible(q, rest, sport) {
      RunCons(p1, BoardAnswer(503, false), rest, sport);
      RunCons(p, TimerFires(None, 0), [BoardAnswer(503, false)] + rest, sport);
    }
  }

  lemma {:induction false} DeadFrom(p: Pub, n: nat, sport: Sport)
    requires Flow(p) && p.timer && p.pending.Some? && p.unarchived == [] && p.failures + n <= MAX_RETRIES + 1
    requires StatusOf(p.pending.value.state, p.pending.value.event, sport) != Final
    ensures Possible(p, Dead(n), sport)
    ensures var q := Run(p, Dead(n), sport);
            && q.sent == p.sent + Repeated(p.pending.value.serial, n)
            && (q.timer <==> p.failures + n <= MAX_RETRIES)
    decreases n
  {
    assert p.failures <= MAX_RETRIES;
    hide Step, Flow, StatusOf, Run, Possible, Repeated, Dead;
    var serial := p.pending.value.serial;
    NoneRepeated(serial);
    if n == 0 {
      RunNone(p, sport);
      assert p.sent + [] == p.sent;
    } else {
      var q := DeadOnce(p, Dead(n - 1), sport);
      OneMoreTry(p.sent, serial, n);
      if p.failures < MAX_RETRIES {
        DeadFrom(q, n - 1, sport);
      } else {
        RunNone(q, sport);
      }
    }
  }

  lemma {:induction false} NoneRepeated(serial: nat)
    ensures Repeated(serial, 0) == [] && Dead(0) == []
  {
  }

  lemma OneMoreTry(sent: seq<nat>, serial: nat, n: nat)
    requires n > 0
    ensures Dead(n) == [TimerFires(None, 0)] + ([BoardAnswer(503, false)] + Dead(n - 1))
    ensures sent + Repeated(serial, n) == sent + [serial] + Repeated(serial, n - 1)
  {
  }

  lemma FlushGoesOut(p: Pub, sport: Sport)
    requires p.timer && p.pending.Some? && p.unarchived == []
    requires StatusOf(p.pending.value.state, p.pending.value.event, sport) != Final
    ensures var q := Step(p, TimerFires(None, 0), sport);
            && Enabled(q, BoardAnswer(503, false)) && q.unarchived == [] && q.pending == None
            && q.flight.value.payload == p.pending.value && q.flight.value.generation == q.generation
            && q.failures == p.failures && q.sent == p.sent + [p.pending.value.serial]
  {
    hide StatusOf;
  }

  lemma BoardAnswerSends(p: Pub, status: int, fixtureRetry: bool, sport: Sport)
    requires Enabled(p, BoardAnswer(status, fixtureRetry))
    ensures var q := Step(p, BoardAnswer(status, fixtureRetry), sport);
            q.sent == p.sent && q.unarchived == p.unarchived
  {
  }

  /** So the one state pushed to a server that fails every time goes out exactly 9 times, and then the timer
      rests. */
  lemma {:induction false} DeadServerGetsNineTries(s: LiveState, event: Event, sport: Sport)
    requires StatusOf(s, event, sport) != Final
    ensures var p := Step(INITIAL, Push(s, event, true), sport);
            && Possible(p, Dead(8), sport) && Run(p, Dead(8), sport).timer
            && Possible(p, Dead(9), sport) && !Run(p, Dead(9), sport).timer
            && Run(p, Dead(9), sport).sent == [0, 0, 0, 0, 0, 0, 0, 0, 0]
  {
    var p := Step(INITIAL, Push(s, event, true), sport);
    StepKeepsFlow(INITIAL, Push(s, event, true), sport);
    PushStamps(INITIAL, s, event, true, sport);
    assert p.timer && p.failures == 0 && p.sent == [];
    hide StatusOf, Step, Run, Possible;
    DeadFrom(p, 8, sport);
    DeadFrom(p, 9, sport);
    NineTimes();
  }

  lemma NineTimes()
    ensures Repeated(0, 9) == [0, 0, 0, 0, 0, 0, 0, 0, 0]
  {
    assert Repeated(0, 3) == [0] + Repeated(0, 2) == [0, 0] + Repeated(0, 1) == [0, 0, 0];
    assert Repeated(0, 6) == [0] + Repeated(0, 5) == [0, 0] + Repeated(0, 4) == [0, 0, 0] + Repeated(0, 3);
    assert Repeated(0, 9) == [0] + Repeated(0, 8) == [0, 0] + Repeated(0, 7) == [0, 0, 0] + Repeated(0, 6);
  }

  /** A newer state cuts a backoff short: it goes out next, and the timer it waits for is its own. */
  lemma NewStateGoesNext(p: Pub, s: LiveState, event: Event, sport: Sport)
    requires Flow(p)
    ensures var q := Step(p, Push(s, event, true), sport);
            && q.pending.Some? && q.pending.value.state == s && q.pending.value.event == event
            && q.pending.value.serial == p.accepted < q.accepted
            && (p.flight == None ==> q.timer && !q.backingOff) && (p.flight.Some? ==> q.timer == p.timer)
  {
    hide WhoIsPlaying, IsOver, IsFresh;
  }

  // ---- Refused for its game, and detached ----------------------------------------------------------------------

  /** The result asked about is answered once, or refused for its game and sent again without: a 400 or a 403 to
      a row that names its game changes nothing but that, and any answer to the row without moves on. */
  lemma RefusedForItsGame(p: Pub, status: int, landed: bool, sport: Sport)
    requires Enabled(p, ArchiveAnswer(status, landed))
    ensures var f := p.flight.value;
            var q := Step(p, ArchiveAnswer(status, landed), sport);
            if f.phase.todo[0].withGame && !f.phase.plain && status in {400, 403} then
              && q.flight == Some(f.(phase := AwaitArchive(f.phase.todo, true)))
              && q.unarchived == p.unarchived && q.archived == p.archived && q.timer == p.timer
              && q.pending == p.pending
            else
              if |f.phase.todo| == 1 then q.flight == None
              else q.flight.Some? && q.flight.value.phase == AwaitArchive(f.phase.todo[1..], false)
  {
    hide Drop, Done, Settled, Marked;
  }

  /** A detach: nothing waits, no timer runs, the failures of the old attachment are forgotten and its flush will
      settle nothing; what is still to be written to the history stays. */
  lemma DetachForgets(p: Pub, sport: Sport)
    ensures var q := Step(p, Detach, sport);
            && q.pending == None && !q.timer && q.failures == 0
            && q.unarchived == p.unarchived && q.archived == p.archived && q.matchInstance == p.matchInstance
            && q.atMatchStart == p.atMatchStart && q.playing == p.playing && q.flight == p.flight
            && (Flow(p) && p.flight.Some? ==> q.flight.value.generation != q.generation)
  {
  }
}
