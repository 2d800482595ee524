/** The live publisher (src/livePush.js) as a protocol: states are pushed, a debounce or backoff timer
    fires, a flush waits for its answers one at a time, and the publisher may be detached at any moment.
    The network decides every answer. */
module LivePush {
  import opened Basics
  import opened LiveStates
  import opened LiveFixture

  const MAX_RETRIES: nat := 8
  const KEEP_ARCHIVED := 50
  const MAX_UNARCHIVED := 5

  // ---- Answers ------------------------------------------------------------------------------------

  /** archive()'s answers beside the HTTP status: nothing was sent, or nobody knows. */
  const NEVER_SENT := 0
  const OUTCOME_UNKNOWN := -1

  predicate Ok(status: int) {
    200 <= status < 300
  }

  predicate Retryable(status: int) {
    status == NEVER_SENT || status >= 500 || status == 408 || status == 429
  }

  predicate MayHaveLanded(status: int) {
    status == OUTCOME_UNKNOWN || status == 504 || status == 524
  }

  predicate ArchiveRetryable(status: int) {
    !MayHaveLanded(status) && Retryable(status)
  }

  /** A POST that was confirmed, or may have been committed all the same. */
  predicate Settled(status: int) {
    Ok(status) || MayHaveLanded(status)
  }

  // ---- The publisher's state ------------------------------------------------------------------------

  /** `serial` numbers the accepted pushes; `inst` is the match instance. */
  datatype Payload = Payload(serial: nat, state: LiveState, event: Event, inst: nat)

  /** A finished match whose history row is not written yet: the latest final row of its instance.
      `withGame` says the row names its game, and then team A is the home team. */
  datatype Queued = Queued(inst: nat, row: Row, withGame: bool)

  datatype Phase =
    | AwaitBoard                                  // the board row (and the fixture row) are out
    | AwaitArchive(todo: seq<Queued>, plain: bool) // the POST for todo[0] is out

  datatype Flight = Flight(payload: Payload, generation: nat, retry: bool, phase: Phase)

  /** One history POST: its match instance, the answer, and whether a row was really committed. */
  datatype Post = Post(inst: nat, status: int, landed: bool)

  datatype Pub = Pub(
    pending: Option<Payload>,
    timer: bool,
    backingOff: bool,
    flight: Option<Flight>,
    failures: nat,
    generation: nat,
    matchInstance: nat,
    atMatchStart: bool,
    playing: Option<multiset<string>>,
    archived: set<nat>,
    unarchived: seq<Queued>, // in insertion order
    floor: nat,              // the match instance last flushed
    accepted: nat,           // pushes accepted so far
    sent: seq<nat>,          // serials of the payloads flushed, in order
    posts: seq<Post>)        // every history POST answered

  const INITIAL: Pub := Pub(None, false, false, None, 0, 0, 0, true, None, {}, [], 0, 0, [], [])

  datatype Op =
    | Push(state: LiveState, event: Event, live: bool) // `live`: configured and switched on
    | TimerFires(home: Option<Which>, now: int)         // which team is home, if the board can tell
    | BoardAnswer(status: int, fixtureRetry: bool)     // the board row's answer; did the fixture row ask for a retry?
    | ArchiveAnswer(status: int, landed: bool)
    | Fault                                            // the timer fires, and making the row throws
    | Detach

  // ---- The queue of unwritten results ---------------------------------------------------------------

  /** Map.set: in place when the key is there, else at the end. */
  function Put(queue: seq<Queued>, q: Queued): seq<Queued> {
    if queue == [] then [q]
    else if queue[0].inst == q.inst then [q] + queue[1..]
    else [queue[0]] + Put(queue[1..], q)
  }

  function Drop(queue: seq<Queued>, inst: nat): seq<Queued> {
    if queue == [] then []
    else if queue[0].inst == inst then Drop(queue[1..], inst)
    else [queue[0]] + Drop(queue[1..], inst)
  }

  function Marked(archived: set<nat>, inst: nat): set<nat> {
    set m | m in archived + {inst} && m >= inst - KEEP_ARCHIVED
  }

  // ---- The steps --------------------------------------------------------------------------------------

  /** push(), the part that sees every state: which match is this? */
  function Noticed(p: Pub, s: LiveState, sport: Sport): Pub {
    var who := WhoIsPlaying(s);
    var starts := !IsFresh(s) && p.atMatchStart;
    var changed := !IsFresh(s) && !p.atMatchStart && p.playing.Some? && p.playing.value != who && !IsOver(s, sport);
    p.(matchInstance := if starts || changed then p.matchInstance + 1 else p.matchInstance,
    atMatchStart := if IsFresh(s) then true else false,
    playing := Some(who))
  }

  function DoPush(p: Pub, s: LiveState, event: Event, live: bool, sport: Sport): Pub {
    var p1 := Noticed(p, s, sport);
    if !live then p1
    else
      var p2 := p1.(pending := Some(Payload(p1.accepted, s, event, p1.matchInstance)), accepted := p1.accepted + 1);
      if p2.flight.Some? || (p2.timer && !p2.backingOff) then p2
      else p2.(timer := true, backingOff := false)
  }

  /** The backlog of results once payload x is flushed: a final row joins it unless its match is
      archived, and a match that is not final any more leaves it. */
  function Requeued(p: Pub, x: Payload, row: Row, final: bool, withGame: bool): seq<Queued> {
    if final && x.inst !in p.archived then
      var put := Put(p.unarchived, Queued(x.inst, row, withGame));
      if |put| > MAX_UNARCHIVED then put[1..] else put
    else if !final then Drop(p.unarchived, x.inst)
    else p.unarchived
  }

  /** A flush of x is on its way, its result queued before anything is sent. */
  function Launched(p: Pub, x: Payload, row: Row, final: bool, withGame: bool): Pub {
    p.(timer := false, backingOff := false, pending := None,
    unarchived := Requeued(p, x, row, final, withGame),
    flight := Some(Flight(x, p.generation, false, AwaitBoard)),
    floor := x.inst, sent := p.sent + [x.serial])
  }

  /** flush() up to its first await. */
  function StartFlush(p: Pub, home: Option<Which>, now: int, sport: Sport): Pub {
    if p.pending == None then p.(timer := false, backingOff := false)
    else
      var x := p.pending.value;
      var row := ToRow(x.state, x.event, sport, now);
      Launched(p, x, ToHomeAway(row, home), row.status == Final, home.Some?)
  }

  /** settle(): what the flush that just ended leaves to do. */
  function Settle(p: Pub, payload: Payload, retry: bool): Pub {
    if !retry then p.(failures := 0, timer := p.timer || p.pending.Some?)
    else if p.failures + 1 > MAX_RETRIES then p.(failures := 0, timer := p.timer || p.pending.Some?)
    else
      p.(failures := p.failures + 1, pending := if p.pending == None then Some(payload) else p.pending,
      timer := true, backingOff := true)
  }

  /** A flush whose row cannot be made: the state is taken and never retried, the backlog untouched. */
  function FailedFlush(p: Pub): Pub {
    var p1 := p.(timer := false, backingOff := false, pending := None);
    if p.pending == None then p1 else Settle(p1, p.pending.value, false)
  }

  /** The flush's `finally`: a flush from before a detach settles nothing. */
  function EndFlush(p: Pub): Pub
    requires p.flight.Some?
  {
    var f := p.flight.value;
    var p1 := p.(flight := None);
    if f.generation == p.generation then Settle(p1, f.payload, f.retry) else p1
  }

  function Continue(p: Pub, f: Flight): Pub
    requires f.phase.AwaitArchive?
  {
    var p1 := p.(flight := Some(f));
    if f.phase.todo == [] then EndFlush(p1) else p1
  }

  /** A final answer for this result: off the backlog, and marked when it landed or may have. */
  predicate Done(status: int) {
    Ok(status) || !ArchiveRetryable(status)
  }

  function Noted(p: Pub, inst: nat, status: int, landed: bool): Pub {
    p.(posts := p.posts + [Post(inst, status, landed)],
    unarchived := if Done(status) then Drop(p.unarchived, inst) else p.unarchived,
    archived := if Settled(status) then Marked(p.archived, inst) else p.archived)
  }

  /** A row that names its game and is refused for it is sent once more without. */
  predicate Resends(f: Flight, status: int)
    requires f.phase.AwaitArchive? && f.phase.todo != []
  {
    f.phase.todo[0].withGame && !f.phase.plain && (status == 400 || status == 403)
  }

  /** The answer to the POST for the head of the backlog. */
  function Archived(p: Pub, f: Flight, status: int, landed: bool): Pub
    requires f.phase.AwaitArchive? && f.phase.todo != []
  {
    var inst := f.phase.todo[0].inst;
    if Resends(f, status) then
      p.(posts := p.posts + [Post(inst, status, landed)],
      flight := Some(f.(phase := AwaitArchive(f.phase.todo, true))))
    else
      Continue(Noted(p, inst, status, landed),
               f.(phase := AwaitArchive(f.phase.todo[1..], false), retry := f.retry || !Done(status)))
  }

  function DoDetach(p: Pub): Pub {
    p.(timer := false, backingOff := false, pending := None, failures := 0, generation := p.generation + 1)
  }

  /** Can this step happen now? An answer needs its request out; a POST that was confirmed committed its
      row, one that was never sent did not, and of any other nobody knows. */
  predicate Enabled(p: Pub, op: Op) {
    match op
    case Push(_, _, _) => true
    case TimerFires(_, _) => p.timer
    case BoardAnswer(_, _) => p.flight.Some? && p.flight.value.phase.AwaitBoard?
    case ArchiveAnswer(status, landed) =>
      && p.flight.Some? && p.flight.value.phase.AwaitArchive? && p.flight.value.phase.todo != []
      && (Ok(status) ==> landed) && (status == NEVER_SENT ==> !landed)
    case Fault => p.timer
    case Detach => true
  }

  function Step(p: Pub, op: Op, sport: Sport): Pub
    requires Enabled(p, op)
  {
    match op
    case Push(s, event, live) => DoPush(p, s, event, live, sport)
    case TimerFires(home, now) => StartFlush(p, home, now, sport)
    case BoardAnswer(status, fixtureRetry) =>
      var f := p.flight.value;
      Continue(p, f.(retry := Retryable(status) || fixtureRetry, phase := AwaitArchive(p.unarchived, false)))
    case ArchiveAnswer(status, landed) => Archived(p, p.flight.value, status, landed)
    case Fault => FailedFlush(p)
    case Detach => DoDetach(p)
  }

  // ---- The publisher ------------------------------------------------------------------------------------

  class LivePublisher {
    const sport: Sport
    var pending: Option<Payload>
    var timer: bool
    var backingOff: bool
    var flight: Option<Flight> // `inFlight`, with what the running flush holds in its locals
    var failures: nat
    var generation: nat
    var matchInstance: nat
    var atMatchStart: bool
    var playing: Option<multiset<string>>
    var archived: set<nat>
    var unarchived: seq<Queued>
    ghost var floor: nat
    var accepted: nat
    ghost var sent: seq<nat>
    ghost var posts: seq<Post>

    ghost function View(): Pub
      reads this
    {
      Pub(pending, timer, backingOff, flight, failures, generation, matchInstance, atMatchStart, playing,
          archived, unarchived, floor, accepted, sent, posts)
    }

    constructor (sport: Sport)
      ensures View() == INITIAL && this.sport == sport
    {
      this.sport := sport;
      pending, timer, backingOff, flight, failures, generation := None, false, false, None, 0, 0;
      matchInstance, atMatchStart, playing := 0, true, None;
      archived, unarchived, accepted := {}, [], 0;
      floor, sent, posts := 0, [], [];
    }

    /** Which match is this? Stamped on every state, ahead of every guard. */
    method Notice(s: LiveState)
      modifies this`matchInstance, this`atMatchStart, this`playing
      ensures View() == Noticed(old(View()), s, sport)
    {
      var who := WhoIsPlaying(s);
      if IsFresh(s) {
        atMatchStart := true;
      } else if atMatchStart {
        matchInstance := matchInstance + 1;
        atMatchStart := false;
      } else if playing.Some? && playing.value != who && !IsOver(s, sport) {
        matchInstance := matchInstance + 1;
      }
      playing := Some(who);
    }

    method PushState(s: LiveState, event: Event, live: bool)
      modifies this
      ensures View() == DoPush(old(View()), s, event, live, sport)
      ensures !IsFresh(s) && old(atMatchStart) ==> matchInstance == old(matchInstance) + 1
      ensures live ==> pending == Some(Payload(old(accepted), s, event, matchInstance))
    {
      Notice(s);
      if !live {
        return;
      }
      pending := Some(Payload(accepted, s, event, matchInstance));
      accepted := accepted + 1;
      if flight.Some? {
        return;
      }
      if timer && !backingOff {
        return;
      }
      backingOff := false;
      timer := true;
    }

    method Requeue(x: Payload, row: Row, final: bool, withGame: bool)
      modifies this`unarchived
      ensures unarchived == Requeued(old(View()), x, row, final, withGame)
    {
      if final && x.inst !in archived {
        unarchived := Put(unarchived, Queued(x.inst, row, withGame));
        if |unarchived| > MAX_UNARCHIVED {
          unarchived := unarchived[1..];
        }
      } else if !final {
        unarchived := Drop(unarchived, x.inst);
      }
    }

    method Launch(x: Payload, row: Row, final: bool, withGame: bool)
      modifies this
      ensures View() == Launched(old(View()), x, row, final, withGame)
    {
      hide Requeued;
      Requeue(x, row, final, withGame);
      timer, backingOff, pending := false, false, None;
      flight := Some(Flight(x, generation, false, AwaitBoard));
      floor, sent := x.inst, sent + [x.serial];
    }

    /** The timer fires: flush() up to its first request. */
    method Flush(home: Option<Which>, now: int)
      modifies this
      ensures View() == StartFlush(old(View()), home, now, sport)
    {
      if pending == None {
        timer, backingOff := false, false;
        return;
      }
      var row := ToRow(pending.value.state, pending.value.event, sport, now);
      Launch(pending.value, ToHomeAway(row, home), row.status == Final, home.Some?);
    }

    method SettleAfter(payload: Payload, retry: bool)
      modifies this
      ensures View() == Settle(old(View()), payload, retry)
    {
      if !retry {
        failures := 0;
        if pending.Some? && !timer {
          timer := true;
        }
        return;
      }
      failures := failures + 1;
      if failures > MAX_RETRIES {
        failures := 0;
        if pending.Some? && !timer {
          timer := true;
        }
        return;
      }
      if pending == None {
        pending := Some(payload);
      }
      timer := true;
      backingOff := true;
    }

    /** The timer fires, and making the row throws. */
    method FlushThrows()
      modifies this
      ensures View() == FailedFlush(old(View()))
    {
      timer, backingOff := false, false;
      if pending == None {
        return;
      }
      var payload := pending.value;
      pending := None;
      SettleAfter(payload, false);
    }

    /** The running flush ends, with all its answers in. */
    method Finish()
      requires flight.Some?
      modifies this
      ensures View() == EndFlush(old(View()))
    {
      var f := flight.value;
      flight := None;
      if f.generation == generation {
        SettleAfter(f.payload, f.retry);
      }
    }

    method OnBoardAnswer(status: int, fixtureRetry: bool)
      requires flight.Some? && flight.value.phase.AwaitBoard?
      modifies this
      ensures View() == Step(old(View()), BoardAnswer(status, fixtureRetry), sport)
    {
      var f := flight.value;
      flight := Some(f.(retry := Retryable(status) || fixtureRetry, phase := AwaitArchive(unarchived, false)));
      if unarchived == [] {
        Finish();
      }
    }

    /** What one answer to an archive POST does to the backlog. */
    method Note(inst: nat, status: int, ghost landed: bool)
      modifies this`unarchived, this`archived, this`posts
      ensures View() == Noted(old(View()), inst, status, landed)
    {
      posts := posts + [Post(inst, status, landed)];
      if Ok(status) {
        unarchived := Drop(unarchived, inst);
        archived := Marked(archived, inst);
      } else if !ArchiveRetryable(status) {
        unarchived := Drop(unarchived, inst);
        if MayHaveLanded(status) {
          archived := Marked(archived, inst);
        }
      }
    }

    method OnArchiveAnswer(status: int, ghost landed: bool)
      requires Enabled(View(), ArchiveAnswer(status, landed))
      modifies this
      ensures View() == Step(old(View()), ArchiveAnswer(status, landed), sport)
    {
      var f := flight.value;
      var inst := f.phase.todo[0].inst;
      if Resends(f, status) {
        posts := posts + [Post(inst, status, landed)];
        flight := Some(f.(phase := AwaitArchive(f.phase.todo, true)));
        return;
      }
      Note(inst, status, landed);
      var retry := f.retry || (!Ok(status) && ArchiveRetryable(status));
      flight := Some(f.(phase := AwaitArchive(f.phase.todo[1..], false), retry := retry));
      if |f.phase.todo| == 1 {
        Finish();
      }
    }

    method Detach()
      modifies this
      ensures View() == DoDetach(old(View()))
    {
      timer, backingOff, pending, failures := false, false, None, 0;
      generation := generation + 1;
    }
  }
}
