/** Matching the board's replies to requests (src/ledboxClient.js): the wire carries no request id, so a
    reply that comes too late is recognised by the one reply the command is owed. */
module LedboxClients {
  import opened Basics

  const ORPHAN_TTL_MS := 15000
  const SET_LAYOUT: string := "SetLayout"

  datatype Request = Request(id: nat, cmd: string)

  /** `to` is the request the board answered; nothing on the wire says so. */
  datatype Reply = Reply(cmd: string, to: nat, failed: bool)

  datatype Outcome = Resolved(reply: Reply) | Refused(reply: Reply) | TimedOut | ConnectionClosed | NotConnected

  datatype Settled = Settled(request: Request, outcome: Outcome)

  /** `online`: there is a socket. `chain` is the requests in order, the first of them on the wire when
      `onWire`, else about to go out; `pending` has one slot per command name; `orphaned` holds until
      when each command is owed one late reply; `ate` the commands for which a reply was dropped since
      one last answered. */
  datatype Client = Client(online: bool, chain: seq<Request>, onWire: bool, pending: map<string, nat>,
                           orphaned: map<string, int>, ate: set<string>, done: seq<Settled>)

  const IDLE: Client := Client(false, [], false, map[], map[], {}, [])

  datatype Op =
    | Connect
    | Send(id: nat, cmd: string)
    | Start                     // the request at the front has its turn
    | Message(reply: Reply, now: int)
    | Timeout(now: int)         // of the request on the wire
    | Close

  // ---- The steps -------------------------------------------------------------------------------------

  /** The request at the front is settled; the next one has its turn a moment later. */
  function Next(c: Client, outcome: Outcome): Client
    requires c.chain != []
  {
    c.(chain := c.chain[1..], onWire := false, done := c.done + [Settled(c.chain[0], outcome)])
  }

  /** send(): behind whatever is still out. */
  function DoSend(c: Client, r: Request): Client {
    c.(chain := c.chain + [r])
  }

  /** _sendNow(): onto the wire, or refused when there is no socket. */
  function DoStart(c: Client): Client
    requires c.chain != []
  {
    if !c.online then Next(c, NotConnected)
    else c.(onWire := true, pending := c.pending[c.chain[0].cmd := c.chain[0].id])
  }

  /** _takeOrphan: does this reply belong to a request that already timed out? */
  predicate Owed(orphaned: map<string, int>, cmd: string, now: int) {
    cmd in orphaned && orphaned[cmd] > now
  }

  function Taken(c: Client, cmd: string, now: int): Client {
    c.(orphaned := c.orphaned - {cmd}, ate := if Owed(c.orphaned, cmd, now) then c.ate + {cmd} else c.ate)
  }

  function Answered(reply: Reply): Outcome {
    if reply.failed then Refused(reply) else Resolved(reply)
  }

  function DoMessage(c: Client, reply: Reply, now: int): Client {
    var c1 := Taken(c, reply.cmd, now);
    if Owed(c.orphaned, reply.cmd, now) || reply.cmd !in c1.pending || c1.chain == [] then c1
    else
      Next(c1.(pending := c1.pending - {reply.cmd}, ate := c1.ate - {reply.cmd}), Answered(reply))
  }

  /** _noteOrphan: the reply to a request that timed out is owed - unless one was already eaten and the
      request timed out all the same: then nothing was in flight after all. */
  function Noted(c: Client, cmd: string, now: int): Client {
    if cmd in c.ate then c.(ate := c.ate - {cmd}, orphaned := c.orphaned - {cmd})
    else c.(orphaned := c.orphaned[cmd := now + ORPHAN_TTL_MS])
  }

  function DoTimeout(c: Client, now: int): Client
    requires c.chain != []
  {
    var cmd := c.chain[0].cmd;
    var c1 := c.(pending := c.pending - {cmd});
    Next(if cmd == SET_LAYOUT then c1 else Noted(c1, cmd, now), TimedOut)
  }

  /** The socket closes: the request on it is rejected, and its debts can never arrive. */
  function DoClose(c: Client): Client {
    var c1 := c.(online := false, pending := map[], orphaned := map[], ate := {});
    if c.onWire && c.chain != [] then Next(c1, ConnectionClosed) else c1
  }

  predicate Enabled(c: Client, op: Op) {
    match op
    case Connect => !c.online
    case Send(_, _) => true
    case Start => c.chain != [] && !c.onWire
    case Message(_, _) => c.online
    case Timeout(_) => c.chain != [] && c.onWire
    case Close => c.online
  }

  function Step(c: Client, op: Op): Client
    requires Enabled(c, op)
  {
    match op
    case Connect => c.(online := true)
    case Send(id, cmd) => DoSend(c, Request(id, cmd))
    case Start => DoStart(c)
    case Message(reply, now) => DoMessage(c, reply, now)
    case Timeout(now) => DoTimeout(c, now)
    case Close => DoClose(c)
  }

  /** Only the request on the wire waits, and no command is both owed a reply and known to have had one
      eaten. */
  predicate Consistent(c: Client) {
    && (c.onWire ==> c.online && c.chain != [])
    && c.pending == (if c.onWire then map[c.chain[0].cmd := c.chain[0].id] else map[])
    && c.orphaned.Keys !! c.ate
    && SET_LAYOUT !in c.orphaned && SET_LAYOUT !in c.ate
    && (!c.online ==> c.orphaned == map[] && c.ate == {})
  }

  lemma StepKeepsConsistent(c: Client, op: Op)
    requires Consistent(c) && Enabled(c, op)
    ensures Consistent(Step(c, op))
  {
    if c.onWire {
      assert map[c.chain[0].cmd := c.chain[0].id] - {c.chain[0].cmd} == map[];
    }
  }

  // ---- The client --------------------------------------------------------------------------------------

  class LedboxClient {
    var online: bool
    var chain: seq<Request>
    var onWire: bool
    var pending: map<string, nat>
    var orphaned: map<string, int>
    var ate: set<string>
    var done: seq<Settled>

    function View(): Client
      reads this
    {
      Client(online, chain, onWire, pending, orphaned, ate, done)
    }

    predicate Valid()
      reads this
    {
      Consistent(View())
    }

    constructor ()
      ensures Valid() && View() == IDLE
    {
      online, chain, onWire, pending, orphaned, ate, done := false, [], false, map[], map[], {}, [];
    }

    method Open()
      requires Valid() && !online
      modifies this`online
      ensures Valid() && View() == Step(old(View()), Connect)
    {
      online := true;
    }

    method Settle(outcome: Outcome)
      requires chain != []
      modifies this`chain, this`onWire, this`done
      ensures View() == Next(old(View()), outcome)
    {
      done := done + [Settled(chain[0], outcome)];
      chain := chain[1..];
      onWire := false;
    }

    method SendRequest(id: nat, cmd: string)
      requires Valid()
      modifies this`chain
      ensures Valid() && View() == Step(old(View()), Send(id, cmd))
    {
      chain := chain + [Request(id, cmd)];
    }

    method SendNow()
      requires Valid() && chain != [] && !onWire
      modifies this
      ensures Valid() && View() == Step(old(View()), Start)
    {
      StepKeepsConsistent(View(), Start);
      if !online {
        Settle(NotConnected);
        return;
      }
      pending := pending[chain[0].cmd := chain[0].id];
      onWire := true;
    }

    method NoteOrphan(cmd: string, now: int)
      modifies this`orphaned, this`ate
      ensures View() == Noted(old(View()), cmd, now)
    {
      if cmd in ate {
        ate := ate - {cmd};
        orphaned := orphaned - {cmd};
        return;
      }
      orphaned := orphaned[cmd := now + ORPHAN_TTL_MS];
    }

    method TakeOrphan(cmd: string, now: int) returns (late: bool)
      modifies this`orphaned, this`ate
      ensures late == Owed(old(orphaned), cmd, now) && View() == Taken(old(View()), cmd, now)
    {
      if cmd !in orphaned {
        assert orphaned - {cmd} == orphaned;
        return false;
      }
      var until := orphaned[cmd];
      orphaned := orphaned - {cmd};
      if until <= now {
        return false;
      }
      ate := ate + {cmd};
      return true;
    }

    method OnMessage(reply: Reply, now: int)
      requires Valid() && online
      modifies this
      ensures Valid() && View() == Step(old(View()), Message(reply, now))
    {
      StepKeepsConsistent(View(), Message(reply, now));
      var late := TakeOrphan(reply.cmd, now);
      if late {
        return;
      }
      if reply.cmd in pending {
        pending := pending - {reply.cmd};
        ate := ate - {reply.cmd};
        Settle(if reply.failed then Refused(reply) else Resolved(reply));
      }
    }

    method OnTimeout(now: int)
      requires Valid() && onWire
      modifies this
      ensures Valid() && View() == Step(old(View()), Timeout(now))
    {
      StepKeepsConsistent(View(), Timeout(now));
      var cmd := chain[0].cmd;
      pending := pending - {cmd};
      if cmd != SET_LAYOUT {
        NoteOrphan(cmd, now);
      }
      Settle(TimedOut);
    }

    method OnClose()
      requires Valid() && online
      modifies this
      ensures Valid() && View() == Step(old(View()), Close)
    {
      online := false;
      if onWire {
        Settle(ConnectionClosed);
      }
      pending, orphaned, ate := map[], map[], {};
    }
  }

  // ---- What every run keeps ------------------------------------------------------------------------------

  predicate Possible(c: Client, ops: seq<Op>)
    decreases |ops|
  {
    if ops == [] then true else Enabled(c, ops[0]) && Possible(Step(c, ops[0]), ops[1..])
  }

  function Run(c: Client, ops: seq<Op>): Client
    requires Possible(c, ops)
    decreases |ops|
  {
    if ops == [] then c else Run(Step(c, ops[0]), ops[1..])
  }

  /** Over every run, per command "one reply owed" and "a reply was eaten" are never both set. */
  lemma {:induction false} NeverBothOwedAndEaten(c: Client, ops: seq<Op>)
    requires Consistent(c) && Possible(c, ops)
    ensures Consistent(Run(c, ops))
    ensures forall cmd :: !(cmd in Run(c, ops).orphaned && cmd in Run(c, ops).ate)
    decreases |ops|
  {
    if ops != [] {
      StepKeepsConsistent(c, ops[0]);
      NeverBothOwedAndEaten(Step(c, ops[0]), ops[1..]);
    }
  }

  // ---- The queue -------------------------------------------------------------------------------------------

  function RequestsOf(done: seq<Settled>): (r: seq<Request>)
    ensures |r| == |done| && forall i :: 0 <= i < |done| ==> r[i] == done[i].request
  {
    seq(|done|, i requires 0 <= i < |done| => done[i].request)
  }

  function Requested(ops: seq<Op>): seq<Request> {
    if ops == [] then []
    else (if ops[0].Send? then [Request(ops[0].id, ops[0].cmd)] else []) + Requested(ops[1..])
  }

  lemma StepKeepsRequests(c: Client, op: Op)
    requires Enabled(c, op)
    ensures var d := Step(c, op);
            RequestsOf(d.done) + d.chain
            == RequestsOf(c.done) + c.chain + if op.Send? then [Request(op.id, op.cmd)] else []
  {
    var d := Step(c, op);
    if d.done != c.done {
      var last := d.done[|c.done|];
      assert d.done == c.done + [last] && c.chain == [last.request] + d.chain;
      assert RequestsOf(d.done) == RequestsOf(c.done) + [last.request];
    }
  }

  /** No request is lost, doubled or overtaken: over every run, those settled and those still out are the ones
      there were and the ones asked since, in the order they were asked. */
  lemma {:induction false} NoRequestIsLost(c: Client, ops: seq<Op>)
    requires Possible(c, ops)
    ensures var d := Run(c, ops);
            RequestsOf(d.done) + d.chain == RequestsOf(c.done) + c.chain + Requested(ops)
    decreases |ops|
  {
    hide Step, RequestsOf;
    if ops != [] {
      StepKeepsRequests(c, ops[0]);
      NoRequestIsLost(Step(c, ops[0]), ops[1..]);
    }
  }

  /** What becomes of the request at the front: refused when its turn comes with no socket, rejected when the
      socket closes on it, given up at its timeout - and in each case the ones behind it stay. */
  lemma FrontIsToldWhy(c: Client, now: int)
    requires Consistent(c) && c.chain != []
    ensures !c.onWire && !c.online ==>
              Step(c, Start) == c.(chain := c.chain[1..], done := c.done + [Settled(c.chain[0], NotConnected)])
    ensures !c.onWire && c.online ==>
              var d := Step(c, Start);
              d.onWire && d.chain == c.chain && d.done == c.done && d.pending == map[c.chain[0].cmd := c.chain[0].id]
    ensures c.onWire ==>
              var d := Step(c, Close);
              && !d.online && !d.onWire && d.chain == c.chain[1..] && d.pending == map[]
              && d.done == c.done + [Settled(c.chain[0], ConnectionClosed)]
    ensures c.onWire ==>
              var d := Step(c, Timeout(now));
              && d.online && !d.onWire && d.chain == c.chain[1..] && d.pending == map[]
              && d.done == c.done + [Settled(c.chain[0], TimedOut)]
    ensures c.online && !c.onWire ==> Step(c, Close).chain == c.chain && Step(c, Close).done == c.done
  {
    if c.onWire {
      assert map[c.chain[0].cmd := c.chain[0].id] - {c.chain[0].cmd} == map[];
    }
  }

  /** The command a step is about, if any. */
  function About(c: Client, op: Op): Option<string>
    requires Enabled(c, op)
  {
    match op
    case Message(reply, _) => Some(reply.cmd)
    case Timeout(_) => Some(c.chain[0].cmd)
    case _ => None
  }

  /** Debts never leak to another command. */
  lemma DebtsDoNotLeak(c: Client, op: Op, cmd: string)
    requires Enabled(c, op) && !op.Close? && About(c, op) != Some(cmd)
    ensures var d := Step(c, op);
            && (cmd in d.ate <==> cmd in c.ate)
            && (cmd in d.orphaned <==> cmd in c.orphaned)
            && (cmd in c.orphaned ==> d.orphaned[cmd] == c.orphaned[cmd])
  {
  }

  // ---- A board that answers in time ------------------------------------------------------------------------

  /** The client and such a board: every request on the wire gets its own reply, a success or a refusal,
      before its timer fires - so the timer fires only when that reply was taken for a late one.
      Requests are sent whenever anybody likes. */
  datatype Prompt =
    | Ask(id: nat, cmd: string)
    | Begin
    | Answer(failed: bool, now: int)
    | GiveUp(now: int)

  /** `answered`: the board has answered the request on the wire, and the reply was dropped. */
  datatype Talk = Talk(c: Client, answered: bool)

  predicate Talking(t: Talk) {
    Consistent(t.c) && t.c.online && (t.answered ==> t.c.onWire && t.c.chain[0].cmd in t.c.ate)
  }

  predicate Prompts(t: Talk, p: Prompt) {
    match p
    case Ask(_, _) => true
    case Begin => t.c.chain != [] && !t.c.onWire
    case Answer(_, _) => t.c.chain != [] && t.c.onWire && !t.answered
    case GiveUp(_) => t.c.chain != [] && t.c.onWire && t.answered
  }

  function OwnReply(r: Request, failed: bool): Reply {
    Reply(r.cmd, r.id, failed)
  }

  function Prompted(t: Talk, p: Prompt): Talk
    requires Prompts(t, p)
  {
    match p
    case Ask(id, cmd) => t.(c := DoSend(t.c, Request(id, cmd)))
    case Begin => t.(c := DoStart(t.c))
    case Answer(failed, now) =>
      var d := DoMessage(t.c, OwnReply(t.c.chain[0], failed), now);
      Talk(d, d.onWire)
    case GiveUp(now) => Talk(DoTimeout(t.c, now), false)
  }

  predicate AllPrompt(t: Talk, ps: seq<Prompt>)
    decreases |ps|
  {
    if ps == [] then true else Prompts(t, ps[0]) && AllPrompt(Prompted(t, ps[0]), ps[1..])
  }

  function TalkOn(t: Talk, ps: seq<Prompt>): Talk
    requires AllPrompt(t, ps)
    decreases |ps|
  {
    if ps == [] then t else TalkOn(Prompted(t, ps[0]), ps[1..])
  }

  /** What such a board comes to, told without slots, timers or eaten replies: a queue of requests, and
      one reply owed to some commands, which the next answer to that command pays or lets lapse. */
  function Outcomes(queue: seq<Request>, owed: map<string, int>, ps: seq<Prompt>): seq<Settled>
    decreases |ps|
  {
    if ps == [] then []
    else
      var rest := ps[1..];
      match ps[0]
      case Ask(id, cmd) => Outcomes(queue + [Request(id, cmd)], owed, rest)
      case Begin => Outcomes(queue, owed, rest)
      case Answer(failed, now) =>
        if queue == [] then Outcomes(queue, owed, rest)
        else if Owed(owed, queue[0].cmd, now) then Outcomes(queue, owed - {queue[0].cmd}, rest)
        else
          [Settled(queue[0], Answered(OwnReply(queue[0], failed)))]
          + Outcomes(queue[1..], owed - {queue[0].cmd}, rest)
      case GiveUp(_) =>
        if queue == [] then Outcomes(queue, owed, rest)
        else [Settled(queue[0], TimedOut)] + Outcomes(queue[1..], owed, rest)
  }

  /** What one prompt settles. */
  function OutcomeNow(t: Talk, p: Prompt): seq<Settled>
    requires Prompts(t, p)
  {
    match p
    case Answer(failed, now) =>
      if Owed(t.c.orphaned, t.c.chain[0].cmd, now) then []
      else [Settled(t.c.chain[0], Answered(OwnReply(t.c.chain[0], failed)))]
    case GiveUp(_) => [Settled(t.c.chain[0], TimedOut)]
    case _ => []
  }

  lemma OnePrompt(t: Talk, p: Prompt)
    requires Talking(t) && Prompts(t, p)
    ensures Talking(Prompted(t, p))
    ensures var u := Prompted(t, p);
            && u.c.done == t.c.done + OutcomeNow(t, p)
            && u.c.orphaned == (if p.Answer? then t.c.orphaned - {t.c.chain[0].cmd} else t.c.orphaned)
            && u.c.chain == (match p
                             case Ask(id, cmd) => t.c.chain + [Request(id, cmd)]
                             case _ => if OutcomeNow(t, p) == [] then t.c.chain else t.c.chain[1..])
            && u.answered == (match p
                              case Ask(_, _) => t.answered
                              case Begin => false
                              case Answer(_, now) => OutcomeNow(t, p) == []
                              case GiveUp(_) => false)
  {
    match p
    case Ask(id, cmd) =>
      StepKeepsConsistent(t.c, Send(id, cmd));
    case Begin =>
      StepKeepsConsistent(t.c, Start);
    case Answer(failed, now) =>
      StepKeepsConsistent(t.c, Message(OwnReply(t.c.chain[0], failed), now));
    case GiveUp(now) =>
      StepKeepsConsistent(t.c, Timeout(now));
      assert t.c.orphaned - {t.c.chain[0].cmd} == t.c.orphaned;
  }

  /** The matching heals itself: from any reachable state with nothing late on the wire, whatever is on
      it, queued behind it or sent meanwhile, a board that answers in time comes to exactly `Outcomes`. */
  lemma {:induction false} MatchingHealsItself(t: Talk, ps: seq<Prompt>)
    requires Talking(t) && AllPrompt(t, ps)
    ensures var u := TalkOn(t, ps);
            Talking(u) && u.c.done == t.c.done + Outcomes(t.c.chain, t.c.orphaned, ps)
    decreases |ps|
  {
    hide Talking, Prompted;
    if ps == [] {
      assert t.c.done + [] == t.c.done;
    } else {
      var u := Prompted(t, ps[0]);
      OnePrompt(t, ps[0]);
      MatchingHealsItself(u, ps[1..]);
      var rest := Outcomes(u.c.chain, u.c.orphaned, ps[1..]);
      assert t.c.done + OutcomeNow(t, ps[0]) + rest == t.c.done + (OutcomeNow(t, ps[0]) + rest);
      assert [] + rest == rest;
    }
  }

  function Asked(ps: seq<Prompt>): seq<Request> {
    if ps == [] then []
    else (match ps[0] case Ask(id, cmd) => [Request(id, cmd)] case _ => []) + Asked(ps[1..])
  }

  predicate OwnOutcome(o: Outcome, r: Request) {
    o in {TimedOut, Resolved(OwnReply(r, false)), Refused(OwnReply(r, true))}
  }

  /** The requests of `line` in order, each with its own reply or none in time. */
  predicate OwnOutcomes(outcomes: seq<Settled>, line: seq<Request>) {
    && |outcomes| <= |line|
    && forall k :: 0 <= k < |outcomes| ==> outcomes[k].request == line[k] && OwnOutcome(outcomes[k].outcome, line[k])
  }

  lemma AnsweredIsOwn(r: Request, failed: bool)
    ensures OwnOutcome(Answered(OwnReply(r, failed)), r) && OwnOutcome(TimedOut, r)
  {
  }

  lemma OwnCons(x: Settled, outcomes: seq<Settled>, line: seq<Request>)
    requires line != [] && x.request == line[0] && OwnOutcome(x.outcome, line[0])
    requires OwnOutcomes(outcomes, line[1..])
    ensures OwnOutcomes([x] + outcomes, line)
  {
  }

  lemma JoinsLine(queue: seq<Request>, r: Request, asked: seq<Request>)
    ensures queue + [r] + asked == queue + ([r] + asked)
  {
  }

  lemma MovesUp(queue: seq<Request>, asked: seq<Request>)
    requires queue != []
    ensures (queue + asked)[1..] == queue[1..] + asked
  {
  }

  lemma {:induction false} AskedFirst(ps: seq<Prompt>)
    requires ps != []
    ensures Asked(ps) == if ps[0].Ask? then [Request(ps[0].id, ps[0].cmd)] + Asked(ps[1..]) else Asked(ps[1..])
  {
    var rest := Asked(ps[1..]);
    assert [] + rest == rest;
  }

  /** The requests in line move up, or one joins them. */
  lemma {:induction false} InLine(queue: seq<Request>, ps: seq<Prompt>)
    requires ps != []
    ensures ps[0].Ask? ==> queue + [Request(ps[0].id, ps[0].cmd)] + Asked(ps[1..]) == queue + Asked(ps)
    ensures !ps[0].Ask? ==> Asked(ps) == Asked(ps[1..])
    ensures !ps[0].Ask? && queue != [] ==> (queue + Asked(ps))[1..] == queue[1..] + Asked(ps[1..])
  {
    hide Asked;
    AskedFirst(ps);
    if ps[0].Ask? {
      JoinsLine(queue, Request(ps[0].id, ps[0].cmd), Asked(ps[1..]));
    } else if queue != [] {
      MovesUp(queue, Asked(ps[1..]));
    }
  }

  /** Whatever the prompts, requests settle in the order they were sent - `line` is the queue and those
      still to come - and no reply is ever handed to another request. */
  lemma {:induction false} EveryReplyIsItsOwn(
    queue: seq<Request>, owed: map<string, int>, ps: seq<Prompt>, line: seq<Request>)
    requires line == queue + Asked(ps)
    ensures OwnOutcomes(Outcomes(queue, owed, ps), line)
    decreases |ps|
  {
    if ps == [] {
    } else {
      InLine(queue, ps);
      hide OwnOutcomes, Owed, OwnOutcome, Answered, OwnReply, Asked;
      var rest := ps[1..];
      match ps[0]
      case Ask(id, cmd) =>
        EveryReplyIsItsOwn(queue + [Request(id, cmd)], owed, rest, line);
      case Begin =>
        EveryReplyIsItsOwn(queue, owed, rest, line);
      case Answer(failed, now) =>
        if queue == [] {
          EveryReplyIsItsOwn(queue, owed, rest, line);
        } else if Owed(owed, queue[0].cmd, now) {
          EveryReplyIsItsOwn(queue, owed - {queue[0].cmd}, rest, line);
        } else {
          var left := owed - {queue[0].cmd};
          EveryReplyIsItsOwn(queue[1..], left, rest, line[1..]);
          AnsweredIsOwn(queue[0], failed);
          OwnCons(Settled(queue[0], Answered(OwnReply(queue[0], failed))), Outcomes(queue[1..], left, rest), line);
        }
      case GiveUp(_) =>
        if queue == [] {
          EveryReplyIsItsOwn(queue, owed, rest, line);
        } else {
          EveryReplyIsItsOwn(queue[1..], owed, rest, line[1..]);
          AnsweredIsOwn(queue[0], true);
          OwnCons(Settled(queue[0], TimedOut), Outcomes(queue[1..], owed, rest), line);
        }
    }
  }

  /** How many requests of a command got no reply in time. */
  function Lost(outcomes: seq<Settled>, cmd: string): nat {
    if outcomes == [] then 0
    else (if outcomes[0].request.cmd == cmd && outcomes[0].outcome == TimedOut then 1 else 0) + Lost(outcomes[1..], cmd)
  }

  /** Is one reply of this command still to be dropped, or dropped and its request not given up yet? */
  function Owing(t: Talk, cmd: string): nat {
    (if cmd in t.c.orphaned then 1 else 0)
    + (if t.answered && t.c.chain != [] && t.c.chain[0].cmd == cmd then 1 else 0)
  }

  function Answers(ps: seq<Prompt>): nat {
    if ps == [] then 0 else (if ps[0].Answer? then 1 else 0) + Answers(ps[1..])
  }

  function One(b: bool): nat {
    if b then 1 else 0
  }

  lemma {:induction false} OnePromptLoses(t: Talk, p: Prompt, cmd: string)
    requires Talking(t) && Prompts(t, p)
    ensures var u := Prompted(t, p);
            && Lost(OutcomeNow(t, p), cmd) + Owing(u, cmd) <= Owing(t, cmd) <= 1
            && |OutcomeNow(t, p)| + One(u.answered) == One(p.Answer?) + One(t.answered)
  {
    OnePrompt(t, p);
    hide Prompted;
    if OutcomeNow(t, p) != [] {
      assert OutcomeNow(t, p)[1..] == [];
    }
  }

  lemma {:induction false} LostAdds(xs: seq<Settled>, ys: seq<Settled>, cmd: string)
    ensures Lost(xs + ys, cmd) == Lost(xs, cmd) + Lost(ys, cmd)
  {
    if xs == [] {
      assert xs + ys == ys;
    } else {
      assert (xs + ys)[1..] == xs[1..] + ys;
      LostAdds(xs[1..], ys, cmd);
    }
  }

  lemma {:induction false} OutcomesUnfold(t: Talk, ps: seq<Prompt>)
    requires Talking(t) && ps != [] && Prompts(t, ps[0])
    ensures var u := Prompted(t, ps[0]);
            Outcomes(t.c.chain, t.c.orphaned, ps) == OutcomeNow(t, ps[0]) + Outcomes(u.c.chain, u.c.orphaned, ps[1..])
  {
    OnePrompt(t, ps[0]);
    hide Prompted, Talking;
    var u := Prompted(t, ps[0]);
    var rest := Outcomes(u.c.chain, u.c.orphaned, ps[1..]);
    assert [] + rest == rest;
  }

  /** So each command loses at most one reply, and none once nothing of it is owed; and every answered
      request settles, once. */
  lemma {:induction false} LosesAtMostOne(t: Talk, ps: seq<Prompt>, cmd: string)
    requires Talking(t) && AllPrompt(t, ps)
    ensures var u := TalkOn(t, ps);
            var outcomes := Outcomes(t.c.chain, t.c.orphaned, ps);
            && Lost(outcomes, cmd) + Owing(u, cmd) <= Owing(t, cmd) <= 1
            && |outcomes| + One(u.answered) == Answers(ps) + One(t.answered)
    decreases |ps|
  {
    hide Talking, Prompted, OutcomeNow, Owing;
    if ps == [] {
      OwingIsOne(t, cmd);
    } else {
      var u := Prompted(t, ps[0]);
      OnePrompt(t, ps[0]);
      OnePromptLoses(t, ps[0], cmd);
      OutcomesUnfold(t, ps);
      LostAdds(OutcomeNow(t, ps[0]), Outcomes(u.c.chain, u.c.orphaned, ps[1..]), cmd);
      LosesAtMostOne(u, ps[1..], cmd);
    }
  }

  lemma OwingIsOne(t: Talk, cmd: string)
    requires Talking(t)
    ensures Owing(t, cmd) <= 1
  {
  }

  // ---- The late reply ------------------------------------------------------------------------------------

  /** Sent on an idle connection, and on the wire. */
  function Sent(c: Client, id: nat, cmd: string): Client {
    DoStart(DoSend(c, Request(id, cmd)))
  }

  /** Where the late reply to a request comes: before the next request of its command is sent, before
      that has its turn, or while it waits for its own. */
  datatype Arrival = BeforeSend | BeforeTurn | WhileWaiting

  function SecondRequest(c: Client, cmd: string, second: nat, late: Reply, lateAt: int, arrival: Arrival): Client {
    match arrival
    case BeforeSend => Sent(DoMessage(c, late, lateAt), second, cmd)
    case BeforeTurn =>
      var heard := DoMessage(DoSend(c, Request(second, cmd)), late, lateAt);
      if heard.chain == [] then heard else DoStart(heard)
    case WhileWaiting => DoMessage(Sent(c, second, cmd), late, lateAt)
  }

  lemma TimeoutOwesOne(c: Client, id: nat, cmd: string, at: int)
    requires Consistent(c) && c.online && c.chain == []
    ensures var d := DoTimeout(Sent(c, id, cmd), at);
            && Consistent(d) && d.online && d.chain == [] && !d.onWire && d.pending == map[]
            && d.done == c.done + [Settled(Request(id, cmd), TimedOut)]
            && (cmd in d.orphaned <==> cmd != SET_LAYOUT && cmd !in c.ate)
            && (cmd in d.orphaned ==> d.orphaned[cmd] == at + ORPHAN_TTL_MS)
  {
    var s1 := DoSend(c, Request(id, cmd));
    StepKeepsConsistent(c, Send(id, cmd));
    StepKeepsConsistent(s1, Start);
    StepKeepsConsistent(Sent(c, id, cmd), Timeout(at));
  }

  /** A request answered clears what was eaten before: the next request of its command that times out is owed
      its late reply again, whatever was dropped before. */
  lemma AnAnswerStartsAfresh(c: Client, failed: bool, now: int, id: nat, at: int)
    requires Consistent(c) && c.online && c.onWire && |c.chain| == 1
    requires c.chain[0].cmd != SET_LAYOUT && !Owed(c.orphaned, c.chain[0].cmd, now)
    ensures var cmd := c.chain[0].cmd;
            var answered := DoMessage(c, Reply(cmd, c.chain[0].id, failed), now);
            var d := DoTimeout(Sent(answered, id, cmd), at);
            && answered.chain == [] && |answered.done| == |c.done| + 1
            && cmd in d.orphaned && d.orphaned[cmd] == at + 15000
  {
    var cmd := c.chain[0].cmd;
    var reply := Reply(cmd, c.chain[0].id, failed);
    StepKeepsConsistent(c, Message(reply, now));
    TimeoutOwesOne(DoMessage(c, reply, now), id, cmd, at);
  }

  /** Exactly when the reply to a request that timed out is not handed to the next request of its
      command: it comes while nobody waits, or it is still owed - not for SetLayout, not right after
      another reply of the command was eaten, and not after its time. */
  lemma LateReplyExactly(c: Client, cmd: string, first: nat, second: nat, timedOutAt: int, lateAt: int,
                         repliedAt: int, arrival: Arrival)
    requires Consistent(c) && c.online && c.chain == [] && first != second
    ensures var late, own := Reply(cmd, first, false), Reply(cmd, second, false);
            var c1 := DoTimeout(Sent(c, first, cmd), timedOutAt);
            var c3 := DoMessage(SecondRequest(c1, cmd, second, late, lateAt, arrival), own, repliedAt);
            var matched := arrival != WhileWaiting
                           || (cmd != "SetLayout" && cmd !in c.ate && lateAt < timedOutAt + 15000);
            && c3.chain == []
            && c3.done == c.done + [Settled(Request(first, cmd), TimedOut),
                                    Settled(Request(second, cmd), Resolved(if matched then own else late))]
  {
    TimeoutOwesOne(c, first, cmd, timedOutAt);
    var c1 := DoTimeout(Sent(c, first, cmd), timedOutAt);
    var late := Reply(cmd, first, false);
    assert map[cmd := second] - {cmd} == map[];
    var c2 := SecondRequest(c1, cmd, second, late, lateAt, arrival);
    if arrival != WhileWaiting || Owed(c1.orphaned, cmd, lateAt) {
      assert c2.chain == [Request(second, cmd)] && c2.pending == map[cmd := second] && cmd !in c2.orphaned;
    } else {
      assert c2.chain == [] && c2.pending == map[];
      assert c2.done == c1.done + [Settled(Request(second, cmd), Resolved(late))];
    }
  }

  lemma {:induction false} RunCons(c: Client, op: Op, ops: seq<Op>)
    requires Enabled(c, op) && Possible(Step(c, op), ops)
    ensures Possible(c, [op] + ops) && Run(c, [op] + ops) == Run(Step(c, op), ops)
  {
    assert ([op] + ops)[1..] == ops;
  }

  /** A request goes out on an idle connection, and more happens. */
  lemma {:induction false} RunSent(c: Client, id: nat, cmd: string, ops: seq<Op>)
    requires c.chain == [] && !c.onWire && Possible(Sent(c, id, cmd), ops)
    ensures Possible(c, [Send(id, cmd), Start] + ops)
    ensures Run(c, [Send(id, cmd), Start] + ops) == Run(Sent(c, id, cmd), ops)
  {
    RunCons(DoSend(c, Request(id, cmd)), Start, ops);
    RunCons(c, Send(id, cmd), [Start] + ops);
    assert [Send(id, cmd), Start] + ops == [Send(id, cmd)] + ([Start] + ops);
  }

  /** A board that is always late gets there: the reply to request 1 is dropped, request 2 times out too
      and the debt is forgotten, and the reply to 2 is taken for the answer to 3. */
  lemma SlowBoardIsMisread(cmd: string)
    requires cmd != SET_LAYOUT
    ensures var ops := [Connect] + ([Send(1, cmd), Start] + ([Timeout(5000)] + ([Send(2, cmd), Start]
                       + ([Message(Reply(cmd, 1, false), 6000)] + ([Timeout(10000)] + ([Send(3, cmd), Start]
                       + ([Message(Reply(cmd, 2, false), 11000)] + [])))))));
            Possible(IDLE, ops)
            && Run(IDLE, ops).done == [Settled(Request(1, cmd), TimedOut), Settled(Request(2, cmd), TimedOut),
                                       Settled(Request(3, cmd), Resolved(Reply(cmd, 2, false)))]
  {
    var c0 := Step(IDLE, Connect);
    var c1 := Sent(c0, 1, cmd);
    var c2 := DoTimeout(c1, 5000);
    var c3 := Sent(c2, 2, cmd);
    var c4 := DoMessage(c3, Reply(cmd, 1, false), 6000);
    var c5 := DoTimeout(c4, 10000);
    var c6 := Sent(c5, 3, cmd);
    var c7 := DoMessage(c6, Reply(cmd, 2, false), 11000);
    assert c7.done == [Settled(Request(1, cmd), TimedOut), Settled(Request(2, cmd), TimedOut),
                       Settled(Request(3, cmd), Resolved(Reply(cmd, 2, false)))];
    hide Sent, DoTimeout, DoMessage, Run;
    var o7: seq<Op> := [Message(Reply(cmd, 2, false), 11000)] + [];
    var o6 := [Send(3, cmd), Start] + o7;
    var o5 := [Timeout(10000)] + o6;
    var o4 := [Message(Reply(cmd, 1, false), 6000)] + o5;
    var o3 := [Send(2, cmd), Start] + o4;
    var o2 := [Timeout(5000)] + o3;
    RunNone(c7);
    RunCons(c6, Message(Reply(cmd, 2, false), 11000), []);
    RunSent(c5, 3, cmd, o7);
    RunCons(c4, Timeout(10000), o6);
    RunCons(c3, Message(Reply(cmd, 1, false), 6000), o5);
    RunSent(c2, 2, cmd, o4);
    RunCons(c1, Timeout(5000), o3);
    RunSent(c0, 1, cmd, o2);
    RunCons(IDLE, Connect, [Send(1, cmd), Start] + o2);
  }

  lemma {:induction false} RunNone(c: Client)
    ensures Possible(c, []) && Run(c, []) == c
  {
  }
}
