/** The undo journal every scoring source shares: a bounded stack of whole-board snapshots, and what
    it guarantees over whole runs of any engine that records through it. */
module UndoJournals {
  import opened Basics

  const UNDO_MAX: nat := 30

  /** The newest `max` entries. */
  function Newest<T>(stack: seq<T>, max: nat): (s: seq<T>)
    ensures |s| <= max && |s| <= |stack|
  {
    if |stack| > max then stack[|stack| - max..] else stack
  }

  /** What recording one action leaves: a no-op adds nothing, and the oldest step falls off. */
  function Recorded<T(==)>(stack: seq<T>, before: T, after: T, max: nat): seq<T> {
    if before == after then stack else Newest(stack + [before], max)
  }

  class UndoJournal<T(==)> {
    const max: nat
    var stack: seq<T> // oldest first

    constructor (max: nat)
      requires max > 0
      ensures this.max == max && stack == []
    {
      this.max := max;
      stack := [];
    }

    method Record(before: T, after: T) returns (added: bool)
      requires |stack| <= max
      modifies this
      ensures stack == Recorded(old(stack), before, after, max)
      ensures added <==> before != after
      ensures |stack| <= max
    {
      if before == after {
        return false;
      }
      stack := stack + [before];
      if |stack| > max {
        stack := stack[1..];
      }
      return true;
    }

    method Pop() returns (step: Option<T>)
      modifies this
      ensures old(stack) == [] ==> step == None && stack == []
      ensures old(stack) != [] ==>
                step == Some(old(stack)[|old(stack)| - 1]) && stack == old(stack)[..|old(stack)| - 1]
    {
      if stack == [] {
        step := None;
      } else {
        step := Some(stack[|stack| - 1]);
        stack := stack[..|stack| - 1];
      }
    }

    method Clear()
      modifies this
      ensures stack == []
    {
      stack := [];
    }
  }

  // ---- Whole runs -------------------------------------------------------------------------

  /** One input of a scoring source. `A` carries everything an action depends on: the tap, the
      clock reading, the match format in force. */
  datatype Cmd<A> = Act(action: A) | Undo

  /** A source as its journal sees it: the board, and the way back. */
  datatype Engine<B> = Engine(board: B, stack: seq<B>)

  /** One input under a journal that keeps `max` steps. */
  function Do<B(==), A>(step: (B, A) -> B, max: nat, e: Engine<B>, c: Cmd<A>): Engine<B> {
    match c
    case Act(a) =>
      var after := step(e.board, a);
      Engine(after, Recorded(e.stack, e.board, after, max))
    case Undo =>
      if e.stack == [] then e
      else Engine(e.stack[|e.stack| - 1], e.stack[..|e.stack| - 1])
  }

  function Run<B(==), A>(step: (B, A) -> B, max: nat, e: Engine<B>, cmds: seq<Cmd<A>>): Engine<B>
    decreases |cmds|
  {
    if cmds == [] then e else Run(step, max, Do(step, max, e, cmds[0]), cmds[1..])
  }

  /** The reference semantics of undo: nothing is ever forgotten. */
  function Ideal<B(==), A>(step: (B, A) -> B, e: Engine<B>, c: Cmd<A>): Engine<B> {
    match c
    case Act(a) =>
      var after := step(e.board, a);
      Engine(after, if after == e.board then e.stack else e.stack + [e.board])
    case Undo =>
      if e.stack == [] then e
      else Engine(e.stack[|e.stack| - 1], e.stack[..|e.stack| - 1])
  }

  function IdealRun<B(==), A>(step: (B, A) -> B, e: Engine<B>, cmds: seq<Cmd<A>>): Engine<B>
    decreases |cmds|
  {
    if cmds == [] then e else IdealRun(step, Ideal(step, e, cmds[0]), cmds[1..])
  }

  function Undos<A>(n: nat): seq<Cmd<A>> {
    seq(n, _ => Undo)
  }

  /** `stack` is the newest part of `full`. */
  predicate Suffix<B(==)>(stack: seq<B>, full: seq<B>) {
    |stack| <= |full| && full[|full| - |stack|..] == stack
  }

  /** No undo of the run finds the bounded journal empty while there was something to take back. */
  predicate WithinReach<B(==), A>(step: (B, A) -> B, max: nat, e: Engine<B>, ideal: Engine<B>, cmds: seq<Cmd<A>>)
    decreases |cmds|
  {
    if cmds == [] then true
    else
      && (cmds[0] == Undo && e.stack == [] ==> ideal.stack == [])
      && WithinReach(step, max, Do(step, max, e, cmds[0]), Ideal(step, ideal, cmds[0]), cmds[1..])
  }

  lemma StepsAgree<B, A>(step: (B, A) -> B, max: nat, e: Engine<B>, ideal: Engine<B>, c: Cmd<A>)
    requires e.board == ideal.board && Suffix(e.stack, ideal.stack)
    requires c == Undo && e.stack == [] ==> ideal.stack == []
    ensures var f, g := Do(step, max, e, c), Ideal(step, ideal, c);
            f.board == g.board && Suffix(f.stack, g.stack)
  {
    match c
    case Act(a) =>
      var before := e.board;
      var grown := e.stack + [before];
      assert (ideal.stack + [before])[|ideal.stack| - |e.stack|..] == grown;
    case Undo =>
      if e.stack != [] {
        var k := |ideal.stack| - |e.stack|;
        assert ideal.stack[k..][|e.stack| - 1] == ideal.stack[|ideal.stack| - 1];
        assert ideal.stack[..|ideal.stack| - 1][k..] == ideal.stack[k..][..|e.stack| - 1];
      }
  }

  /** The bounded journal shows the board of the unbounded one over every run that stays within its
      reach. */
  lemma {:induction false} BoundedUndoRefinesIdeal<B, A>(
    step: (B, A) -> B, max: nat, e: Engine<B>, ideal: Engine<B>, cmds: seq<Cmd<A>>)
    requires e.board == ideal.board && Suffix(e.stack, ideal.stack)
    requires WithinReach(step, max, e, ideal, cmds)
    ensures Run(step, max, e, cmds).board == IdealRun(step, ideal, cmds).board
    ensures Suffix(Run(step, max, e, cmds).stack, IdealRun(step, ideal, cmds).stack)
    decreases |cmds|
  {
    if cmds == [] {
    } else {
      StepsAgree(step, max, e, ideal, cmds[0]);
      BoundedUndoRefinesIdeal(step, max, Do(step, max, e, cmds[0]), Ideal(step, ideal, cmds[0]), cmds[1..]);
    }
  }

  /** Out of reach is the only way to differ: the first undo that finds the bounded journal empty too
      early leaves the board where it is, while the reference takes one more action back. */
  lemma OutOfReachDiffers<B, A>(step: (B, A) -> B, max: nat, e: Engine<B>, ideal: Engine<B>)
    requires e.board == ideal.board && e.stack == [] && ideal.stack != []
    requires ideal.stack[|ideal.stack| - 1] != ideal.board
    ensures Do(step, max, e, Undo).board != Ideal(step, ideal, Undo).board
  {
  }

  /** The board that followed snapshot i: the next snapshot, or the board on show. */
  function After<B>(e: Engine<B>, i: nat): B
    requires i < |e.stack|
  {
    if i + 1 < |e.stack| then e.stack[i + 1] else e.board
  }

  ghost predicate LinkedTo<B, A(!new)>(step: (B, A) -> B, from: B, to: B) {
    from != to && exists a :: step(from, a) == to
  }

  /** The journal chains: every snapshot is one action away from the next one, the last one from the
      board, and none of those actions was a no-op. */
  ghost predicate Chained<B, A(!new)>(step: (B, A) -> B, e: Engine<B>) {
    forall i: nat :: i < |e.stack| ==> LinkedTo(step, e.stack[i], After(e, i))
  }

  /** What a push leaves at place i of the journal was there before, one action earlier than what it
      leaves at place i + 1. */
  lemma PushKeepsOrder<B>(e: Engine<B>, after: B, max: nat, i: nat)
    requires 0 < max && |e.stack| <= max
    requires i < |Newest(e.stack + [e.board], max)|
    ensures var f := Engine(after, Newest(e.stack + [e.board], max));
            var k := |e.stack| + 1 - |f.stack|;
            if i + 1 < |f.stack| then f.stack[i] == e.stack[i + k] && After(f, i) == After(e, i + k)
            else f.stack[i] == e.board && After(f, i) == after
  {
    var grown := e.stack + [e.board];
    var f := Engine(after, Newest(grown, max));
    var k := |e.stack| + 1 - |f.stack|;
    assert f.stack[i] == grown[i + k];
    if i + 1 < |f.stack| {
      assert f.stack[i + 1] == grown[i + 1 + k];
    }
  }

  lemma StepKeepsChain<B, A(!new)>(step: (B, A) -> B, max: nat, e: Engine<B>, c: Cmd<A>)
    requires max > 0 && |e.stack| <= max && Chained(step, e)
    ensures var f := Do(step, max, e, c); |f.stack| <= max && Chained(step, f)
  {
    var f := Do(step, max, e, c);
    if c.Act? && f.board != e.board {
      assert step(e.board, c.action) == f.board;
      assert LinkedTo(step, e.board, f.board);
      var k := |e.stack| + 1 - |f.stack|;
      forall i: nat | i < |f.stack|
        ensures LinkedTo(step, f.stack[i], After(f, i))
      {
        PushKeepsOrder(e, f.board, max, i);
        if i + 1 < |f.stack| {
          assert LinkedTo(step, e.stack[i + k], After(e, i + k));
        }
      }
    } else if c.Undo? && e.stack != [] {
      forall i: nat | i < |f.stack|
        ensures LinkedTo(step, f.stack[i], After(f, i))
      {
        assert LinkedTo(step, e.stack[i], After(e, i));
      }
    }
  }

  /** Over every run the journal stays within its bound and chains to the board on show. */
  lemma {:induction false} RunKeepsChain<B, A(!new)>(step: (B, A) -> B, max: nat, e: Engine<B>, cmds: seq<Cmd<A>>)
    requires max > 0 && |e.stack| <= max && Chained(step, e)
    ensures |Run(step, max, e, cmds).stack| <= max && Chained(step, Run(step, max, e, cmds))
    decreases |cmds|
  {
    if cmds == [] {
    } else {
      StepKeepsChain(step, max, e, cmds[0]);
      RunKeepsChain(step, max, Do(step, max, e, cmds[0]), cmds[1..]);
    }
  }

  /** How many actions of a run changed the board, and so put a step on the journal. */
  function Changes<B(==), A>(step: (B, A) -> B, b: B, acts: seq<A>): (n: nat)
    ensures n <= |acts|
    decreases |acts|
  {
    if acts == [] then 0
    else
      var after := step(b, acts[0]);
      (if after == b then 0 else 1) + Changes(step, after, acts[1..])
  }

  function Acts<A>(acts: seq<A>): seq<Cmd<A>> {
    seq(|acts|, i requires 0 <= i < |acts| => Act(acts[i]))
  }

  lemma {:induction false} RunAppend<B, A>(step: (B, A) -> B, max: nat, e: Engine<B>, xs: seq<Cmd<A>>, ys: seq<Cmd<A>>)
    ensures Run(step, max, e, xs + ys) == Run(step, max, Run(step, max, e, xs), ys)
    decreases |xs|
  {
    if xs == [] {
      assert xs + ys == ys;
    } else {
      assert (xs + ys)[1..] == xs[1..] + ys;
      RunAppend(step, max, Do(step, max, e, xs[0]), xs[1..], ys);
    }
  }

  /** `stack` is what a window of k changes started on `b` leaves above (the newest part of) `below`. */
  predicate TopHolds<B(==)>(stack: seq<B>, board: B, k: nat, b: B, below: seq<B>, max: nat) {
    && |stack| == (if |below| + k <= max then |below| + k else max)
    && k <= |stack|
    && Suffix(stack[..|stack| - k], below)
    && (if k == 0 then board == b else stack[|stack| - k] == b)
  }

  lemma WindowGrows<B>(stack: seq<B>, board: B, j: nat, first: B, b: B, below: seq<B>, max: nat)
    requires j + 1 <= max && |below| <= max
    requires TopHolds(stack, board, j, first, Newest(below + [b], max), max)
    ensures TopHolds(stack, board, j + 1, b, below, max)
  {
    var grown := Newest(below + [b], max);
    var low := stack[..|stack| - j];
    var n := |low|;
    assert low == grown[|grown| - n..];
    assert low[n - 1] == grown[|grown| - 1] == b;
    var shorter := stack[..|stack| - j - 1];
    forall i | 0 <= i < |shorter|
      ensures shorter[i] == below[|below| - |shorter| + i]
    {
      assert shorter[i] == low[i] == grown[|grown| - n + i];
    }
    assert below[|below| - |shorter|..] == shorter;
  }

  /** After `acts` the top of the journal holds the board of every change, newest last. */
  lemma {:induction false} TopAfter<B, A>(step: (B, A) -> B, max: nat, e: Engine<B>, acts: seq<A>)
    requires Changes(step, e.board, acts) <= max && |e.stack| <= max
    ensures var f := Run(step, max, e, Acts(acts));
            TopHolds(f.stack, f.board, Changes(step, e.board, acts), e.board, e.stack, max)
    decreases |acts|
  {
    if acts == [] {
      assert e.stack[..|e.stack|] == e.stack;
    } else {
      var after := step(e.board, acts[0]);
      var g := Do(step, max, e, Act(acts[0]));
      assert g == Engine(after, Recorded(e.stack, e.board, after, max));
      assert Acts(acts)[0] == Act(acts[0]) && Acts(acts)[1..] == Acts(acts[1..]);
      TopAfter(step, max, g, acts[1..]);
      if after != e.board {
        var f := Run(step, max, g, Acts(acts[1..]));
        WindowGrows(f.stack, f.board, Changes(step, after, acts[1..]), after, e.board, e.stack, max);
      }
    }
  }

  /** n undos read the journal from the top. */
  lemma {:induction false} UndosPop<B, A>(step: (B, A) -> B, max: nat, e: Engine<B>, n: nat)
    requires n <= |e.stack|
    ensures Run(step, max, e, Undos<A>(n)) ==
            Engine(if n == 0 then e.board else e.stack[|e.stack| - n], e.stack[..|e.stack| - n])
    decreases n
  {
    if n == 0 {
      assert e.stack[..|e.stack|] == e.stack;
    } else {
      var f := Do(step, max, e, Undo);
      assert Undos<A>(n)[0] == Undo && Undos<A>(n)[1..] == Undos<A>(n - 1);
      UndosPop(step, max, f, n - 1);
      assert f.stack[..|f.stack| - (n - 1)] == e.stack[..|e.stack| - n];
    }
  }

  /** Undo is an exact inverse over whole runs: from any board, whatever actions are applied, as many
      undos as actions that changed something bring back the board itself - and, when nothing fell
      off the journal, the journal too. */
  lemma {:induction false} UndoIsExactInverse<B, A>(step: (B, A) -> B, max: nat, e: Engine<B>, acts: seq<A>)
    requires |e.stack| <= max && Changes(step, e.board, acts) <= max
    ensures var n := Changes(step, e.board, acts);
            var f := Run(step, max, e, Acts(acts) + Undos(n));
            && f.board == e.board
            && Suffix(f.stack, e.stack)
            && (|e.stack| + n <= max ==> f == e)
  {
    var n := Changes(step, e.board, acts);
    RunAppend(step, max, e, Acts(acts), Undos(n));
    TopAfter(step, max, e, acts);
    UndosPop<B, A>(step, max, Run(step, max, e, Acts(acts)), n);
  }

  // ---- Invariants over runs with undo -------------------------------------------------------

  predicate AllAllowed<A>(allowed: A -> bool, cmds: seq<Cmd<A>>) {
    forall i :: 0 <= i < |cmds| ==> cmds[i].Act? ==> allowed(cmds[i].action)
  }

  predicate HoldsThroughout<B>(inv: B -> bool, e: Engine<B>) {
    inv(e.board) && forall i :: 0 <= i < |e.stack| ==> inv(e.stack[i])
  }

  ghost predicate Preserves<B(!new), A(!new)>(step: (B, A) -> B, inv: B -> bool, allowed: A -> bool) {
    forall b, a {:trigger step(b, a)} :: inv(b) && allowed(a) ==> inv(step(b, a))
  }

  /** What every allowed action keeps, every run of allowed actions and undos keeps. */
  lemma {:induction false} RunKeepsInvariant<B(!new), A(!new)>(
    step: (B, A) -> B, max: nat, inv: B -> bool, allowed: A -> bool, e: Engine<B>, cmds: seq<Cmd<A>>)
    requires Preserves(step, inv, allowed)
    requires HoldsThroughout(inv, e) && AllAllowed(allowed, cmds)
    ensures HoldsThroughout(inv, Run(step, max, e, cmds))
    decreases |cmds|
  {
    if cmds == [] {
    } else {
      var f := Do(step, max, e, cmds[0]);
      if cmds[0].Act? {
        assert inv(step(e.board, cmds[0].action));
        var grown := e.stack + [e.board];
        assert forall i :: 0 <= i < |grown| ==> inv(grown[i]);
      }
      assert HoldsThroughout(inv, f);
      RunKeepsInvariant(step, max, inv, allowed, f, cmds[1..]);
    }
  }

  // ---- A journal of annotated boards ----------------------------------------------------------------

  function Seen<C, B>(view: C -> B, e: Engine<C>): Engine<B> {
    Engine(view(e.board), seq(|e.stack|, i requires 0 <= i < |e.stack| => view(e.stack[i])))
  }

  /** The annotated step does to the board what the plain one does, and nothing when that does nothing. */
  ghost predicate Follows<C(!new), B, A(!new)>(annotated: (C, A) -> C, step: (B, A) -> B, view: C -> B) {
    forall c, a {:trigger annotated(c, a)} ::
      view(annotated(c, a)) == step(view(c), a) && (step(view(c), a) == view(c) ==> annotated(c, a) == c)
  }

  lemma StepFollows<C(!new), B, A(!new)>(
    annotated: (C, A) -> C, step: (B, A) -> B, view: C -> B, max: nat, e: Engine<C>, c: Cmd<A>)
    requires Follows(annotated, step, view)
    ensures Seen(view, Do(annotated, max, e, c)) == Do(step, max, Seen(view, e), c)
  {
    var f, g := Seen(view, Do(annotated, max, e, c)), Do(step, max, Seen(view, e), c);
    if c.Act? {
      assert f.board == step(view(e.board), c.action);
    }
    assert |f.stack| == |g.stack|;
    assert forall i :: 0 <= i < |f.stack| ==> f.stack[i] == g.stack[i];
  }

  /** Whatever is noted on the boards, undos and all, the boards are those of the plain engine. */
  lemma {:induction false} RunFollows<C(!new), B, A(!new)>(
    annotated: (C, A) -> C, step: (B, A) -> B, view: C -> B, max: nat, e: Engine<C>, cmds: seq<Cmd<A>>)
    requires Follows(annotated, step, view)
    ensures Seen(view, Run(annotated, max, e, cmds)) == Run(step, max, Seen(view, e), cmds)
    decreases |cmds|
  {
    if cmds == [] {
    } else {
      StepFollows(annotated, step, view, max, e, cmds[0]);
      hide Do, Seen, Follows;
      RunFollows(annotated, step, view, max, Do(annotated, max, e, cmds[0]), cmds[1..]);
    }
  }
}
