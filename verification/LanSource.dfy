/** The breaks of a linked match (src/lanSource.js): a stream of repeated frames becomes edges. */
module LanSources {
  import opened Basics
  import opened LiveStates

  /** `status` is match_status in lower case. */
  datatype Frame = Frame(status: string, timeoutActive: bool, intervalActive: bool, timeouts: Pair<int>,
                         points: Pair<int>, currentSet: Option<int>, lastEvent: string, aOnRight: bool)

  datatype Edge =
    | IntervalStart
    | IntervalEnd
    | TimeoutStart(side: Option<Side>)
    | TimeoutEnd

  /** The breaks as of the last frame. `interval` holds the set the running interval leads into. */
  datatype Link = Link(timeout: bool, intervalFlag: bool, interval: Option<Option<int>>, timeouts: Option<Pair<int>>)

  const UNLINKED: Link := Link(false, false, None, None)

  predicate IsMatchOver(f: Frame) {
    f.status in ["ended", "final", "approved", "finished", "completed"]
  }

  /** Does this frame end the interval that leads into set `leadsInto`? */
  predicate IntervalOver(f: Frame, leadsInto: Option<int>) {
    && !f.intervalActive
    && (|| f.lastEvent in ["end_interval", "set_start", "undo", "manual_reopen_set"]
        || ((leadsInto == None || f.currentSet == None || f.currentSet == leadsInto) && f.points.a + f.points.b > 0))
  }

  /** The interval's edges on a frame: ends, then starts. */
  function IntervalEdges(l: Link, f: Frame): (seq<Edge>, seq<Edge>) {
    if f.intervalActive && !l.intervalFlag then ([], [IntervalStart])
    else if l.interval.Some? && IntervalOver(f, l.interval.value) then ([IntervalEnd], [])
    else ([], [])
  }

  function NextInterval(l: Link, f: Frame): Option<Option<int>> {
    if f.intervalActive && !l.intervalFlag then Some(f.currentSet)
    else if l.interval.Some? && IntervalOver(f, l.interval.value) then None
    else l.interval
  }

  function Went(l: Link, now: int, was: Pair<int> -> int): bool {
    l.timeouts.Some? && now > was(l.timeouts.value)
  }

  /** Who called the timeout: the team whose count went up, by physical side. */
  function CalledBy(l: Link, f: Frame): Option<Side> {
    var upA := Went(l, f.timeouts.a, (p: Pair<int>) => p.a);
    var upB := Went(l, f.timeouts.b, (p: Pair<int>) => p.b);
    if upA == upB then None
    else Some(if upA != f.aOnRight then Left else Right)
  }

  function TimeoutEdges(l: Link, f: Frame): (seq<Edge>, seq<Edge>) {
    var upA := Went(l, f.timeouts.a, (p: Pair<int>) => p.a);
    var upB := Went(l, f.timeouts.b, (p: Pair<int>) => p.b);
    if f.timeoutActive && (!l.timeout || upA || upB) then ([], [TimeoutStart(CalledBy(l, f))])
    else if !f.timeoutActive && l.timeout then ([TimeoutEnd], [])
    else ([], [])
  }

  datatype Seen = Seen(link: Link, edges: seq<Edge>)

  /** One frame. */
  function Breaks(l: Link, f: Frame): Seen {
    if IsMatchOver(f) then Seen(Link(false, false, None, Some(f.timeouts)), [])
    else
      var interval := IntervalEdges(l, f);
      var timeout := TimeoutEdges(l, f);
      Seen(Link(f.timeoutActive, f.intervalActive, NextInterval(l, f), Some(f.timeouts)),
           interval.0 + timeout.0 + interval.1 + timeout.1)
  }

  class LanSource {
    var timeout: bool
    var intervalFlag: bool
    var interval: Option<Option<int>>
    var timeouts: Option<Pair<int>>

    function View(): Link
      reads this
    {
      Link(timeout, intervalFlag, interval, timeouts)
    }

    constructor ()
      ensures View() == UNLINKED
    {
      timeout, intervalFlag, interval, timeouts := false, false, None, None;
    }

    method IntervalFrame(f: Frame) returns (ends: seq<Edge>, starts: seq<Edge>)
      modifies this`interval, this`intervalFlag
      ensures (ends, starts) == IntervalEdges(old(View()), f)
      ensures interval == NextInterval(old(View()), f) && intervalFlag == f.intervalActive
    {
      ends, starts := [], [];
      if f.intervalActive && !intervalFlag {
        interval := Some(f.currentSet);
        starts := [IntervalStart];
      } else if interval.Some? && IntervalOver(f, interval.value) {
        interval := None;
        ends := [IntervalEnd];
      }
      intervalFlag := f.intervalActive;
    }

    method TimeoutFrame(f: Frame, was: Option<Pair<int>>) returns (ends: seq<Edge>, starts: seq<Edge>)
      modifies this`timeout
      ensures (ends, starts) == TimeoutEdges(old(View()).(timeouts := was), f)
      ensures timeout == f.timeoutActive
    {
      ends, starts := [], [];
      var upA := was.Some? && f.timeouts.a > was.value.a;
      var upB := was.Some? && f.timeouts.b > was.value.b;
      if f.timeoutActive && (!timeout || upA || upB) {
        var side := if upA == upB then None else Some(if upA != f.aOnRight then Left else Right);
        starts := [TimeoutStart(side)];
      } else if !f.timeoutActive && timeout {
        ends := [TimeoutEnd];
      }
      timeout := f.timeoutActive;
    }

    method OnFrame(f: Frame) returns (edges: seq<Edge>)
      modifies this
      ensures Seen(View(), edges) == Breaks(old(View()), f)
    {
      var was := timeouts;
      timeouts := Some(f.timeouts);
      if IsMatchOver(f) {
        timeout, intervalFlag, interval := false, false, None;
        return [];
      }
      var intervalEnds, intervalStarts := IntervalFrame(f);
      var timeoutEnds, timeoutStarts := TimeoutFrame(f, was);
      edges := intervalEnds + timeoutEnds + intervalStarts + timeoutStarts;
    }
  }

  // ---- Whole streams --------------------------------------------------------------------------------------

  function Watch(l: Link, frames: seq<Frame>): Seen
    decreases |frames|
  {
    if frames == [] then Seen(l, [])
    else
      var first := Breaks(l, frames[0]);
      var rest := Watch(first.link, frames[1..]);
      Seen(rest.link, first.edges + rest.edges)
  }

  function Repeated(f: Frame, n: nat): seq<Frame> {
    seq(n, _ => f)
  }

  /** The same frames, each one any number of times more. */
  function Stuttered(frames: seq<Frame>, extra: seq<nat>): seq<Frame>
    requires |extra| == |frames|
    decreases |frames|
  {
    if frames == [] then []
    else [frames[0]] + Repeated(frames[0], extra[0]) + Stuttered(frames[1..], extra[1..])
  }

  /** A frame seen again changes nothing and makes no edge. */
  lemma SecondTimeIsQuiet(l: Link, f: Frame)
    ensures Breaks(Breaks(l, f).link, f) == Seen(Breaks(l, f).link, [])
  {
  }

  lemma {:induction false} RepeatsAreQuiet(l: Link, f: Frame, n: nat)
    requires Breaks(l, f) == Seen(l, [])
    ensures Watch(l, Repeated(f, n)) == Seen(l, [])
    decreases n
  {
    if n > 0 {
      assert Repeated(f, n)[1..] == Repeated(f, n - 1);
      RepeatsAreQuiet(l, f, n - 1);
    }
  }

  lemma {:induction false} WatchAppend(l: Link, xs: seq<Frame>, ys: seq<Frame>)
    ensures var first := Watch(l, xs);
            var rest := Watch(first.link, ys);
            Watch(l, xs + ys) == Seen(rest.link, first.edges + rest.edges)
    decreases |xs|
  {
    if xs == [] {
      assert xs + ys == ys;
    } else {
      assert (xs + ys)[1..] == xs[1..] + ys;
      WatchAppend(Breaks(l, xs[0]).link, xs[1..], ys);
      var a := Breaks(l, xs[0]).edges;
      var b := Watch(Breaks(l, xs[0]).link, xs[1..]);
      assert a + (b.edges + Watch(b.link, ys).edges) == a + b.edges + Watch(b.link, ys).edges;
    }
  }

  /** The edges do not stutter: repeating any frame any number of times leaves the emitted edges, and
      where the link stands, unchanged. */
  lemma {:induction false} EdgesDoNotStutter(l: Link, frames: seq<Frame>, extra: seq<nat>)
    requires |extra| == |frames|
    ensures Watch(l, Stuttered(frames, extra)) == Watch(l, frames)
    decreases |frames|
  {
    if frames != [] {
      var f := frames[0];
      var first := Breaks(l, f);
      var again := Repeated(f, extra[0]);
      var rest := Stuttered(frames[1..], extra[1..]);
      SecondTimeIsQuiet(l, f);
      RepeatsAreQuiet(first.link, f, extra[0]);
      WatchAppend(first.link, again, rest);
      assert ([f] + again + rest)[1..] == again + rest;
      assert [] + Watch(first.link, rest).edges == Watch(first.link, rest).edges;
      EdgesDoNotStutter(first.link, frames[1..], extra[1..]);
    }
  }

  // ---- Brackets ---------------------------------------------------------------------------------------------

  datatype Kind = Timeouts | Intervals

  predicate Starts(e: Edge, k: Kind) {
    if k == Timeouts then e.TimeoutStart? else e.IntervalStart?
  }

  predicate Ends(e: Edge, k: Kind) {
    if k == Timeouts then e.TimeoutEnd? else e.IntervalEnd?
  }

  /** The last edge of kind k is a start. */
  predicate IsOpen(edges: seq<Edge>, k: Kind) {
    if edges == [] then false
    else
      var e := edges[|edges| - 1];
      Starts(e, k) || (!Ends(e, k) && IsOpen(edges[..|edges| - 1], k))
  }

  /** Every end follows a start of its kind not already ended. */
  predicate Bracketed(edges: seq<Edge>) {
    if edges == [] then true
    else
      var init, e := edges[..|edges| - 1], edges[|edges| - 1];
      && Bracketed(init)
      && (Ends(e, Timeouts) ==> IsOpen(init, Timeouts)) && (Ends(e, Intervals) ==> IsOpen(init, Intervals))
  }

  lemma {:induction false} AppendEdge(edges: seq<Edge>, e: Edge)
    requires Bracketed(edges)
    requires Ends(e, Timeouts) ==> IsOpen(edges, Timeouts)
    requires Ends(e, Intervals) ==> IsOpen(edges, Intervals)
    ensures Bracketed(edges + [e])
    ensures forall k :: IsOpen(edges + [e], k) <==> Starts(e, k) || (!Ends(e, k) && IsOpen(edges, k))
  {
    assert (edges + [e])[..|edges|] == edges;
  }

  /** A break the link takes to be running was started, and not ended, in the edges so far; `exactly`:
      and no other break was. */
  predicate Tracks(l: Link, edges: seq<Edge>, exactly: bool) {
    && Bracketed(edges)
    && (l.timeout ==> IsOpen(edges, Timeouts)) && (l.interval.Some? ==> IsOpen(edges, Intervals))
    && (exactly ==> (IsOpen(edges, Timeouts) ==> l.timeout) && (IsOpen(edges, Intervals) ==> l.interval.Some?))
  }

  lemma {:induction false} AppendEnds(edges: seq<Edge>, intervalEnds: seq<Edge>, timeoutEnds: seq<Edge>)
    requires Bracketed(edges)
    requires intervalEnds == [] || (intervalEnds == [IntervalEnd] && IsOpen(edges, Intervals))
    requires timeoutEnds == [] || (timeoutEnds == [TimeoutEnd] && IsOpen(edges, Timeouts))
    ensures var all := edges + intervalEnds + timeoutEnds;
            && Bracketed(all)
            && (IsOpen(all, Intervals) <==> intervalEnds == [] && IsOpen(edges, Intervals))
            && (IsOpen(all, Timeouts) <==> timeoutEnds == [] && IsOpen(edges, Timeouts))
  {
    var middle := edges + intervalEnds;
    if intervalEnds == [] {
      assert middle == edges;
    } else {
      AppendEdge(edges, IntervalEnd);
    }
    if timeoutEnds == [] {
      assert middle + timeoutEnds == middle;
    } else {
      AppendEdge(middle, TimeoutEnd);
    }
  }

  lemma {:induction false} AppendStarts(edges: seq<Edge>, intervalStarts: seq<Edge>, timeoutStarts: seq<Edge>)
    requires Bracketed(edges)
    requires intervalStarts == [] || intervalStarts == [IntervalStart]
    requires timeoutStarts == [] || (|timeoutStarts| == 1 && timeoutStarts[0].TimeoutStart?)
    ensures var all := edges + intervalStarts + timeoutStarts;
            && Bracketed(all)
            && (IsOpen(all, Intervals) <==> intervalStarts != [] || IsOpen(edges, Intervals))
            && (IsOpen(all, Timeouts) <==> timeoutStarts != [] || IsOpen(edges, Timeouts))
  {
    var middle := edges + intervalStarts;
    if intervalStarts == [] {
      assert middle == edges;
    } else {
      AppendEdge(edges, IntervalStart);
    }
    if timeoutStarts == [] {
      assert middle + timeoutStarts == middle;
    } else {
      assert timeoutStarts == [timeoutStarts[0]];
      AppendEdge(middle, timeoutStarts[0]);
    }
  }

  lemma Regroup(a: seq<Edge>, b: seq<Edge>, c: seq<Edge>, d: seq<Edge>, e: seq<Edge>)
    ensures a + b + c + d + e == a + (b + c + d + e)
  {
  }

  lemma FrameTracks(l: Link, f: Frame, edges: seq<Edge>, exactly: bool)
    requires Tracks(l, edges, exactly) && (exactly ==> !IsMatchOver(f))
    ensures Tracks(Breaks(l, f).link, edges + Breaks(l, f).edges, exactly)
  {
    hide IsOpen, Bracketed, IntervalOver, CalledBy;
    if IsMatchOver(f) {
      assert edges + [] == edges;
    } else {
      var i, t := IntervalEdges(l, f), TimeoutEdges(l, f);
      AppendEnds(edges, i.0, t.0);
      AppendStarts(edges + i.0 + t.0, i.1, t.1);
      Regroup(edges, i.0, t.0, i.1, t.1);
    }
  }

  predicate NoneOver(frames: seq<Frame>) {
    forall i :: 0 <= i < |frames| ==> !IsMatchOver(frames[i])
  }

  lemma {:induction false} StreamTracks(l: Link, frames: seq<Frame>, before: seq<Edge>, exactly: bool)
    requires Tracks(l, before, exactly) && (exactly ==> NoneOver(frames))
    ensures Tracks(Watch(l, frames).link, before + Watch(l, frames).edges, exactly)
    decreases |frames|
  {
    hide Breaks, Tracks, IsMatchOver;
    if frames == [] {
      assert before + [] == before;
    } else {
      var first := Breaks(l, frames[0]);
      FrameTracks(l, frames[0], before, exactly);
      StreamTracks(first.link, frames[1..], before + first.edges, exactly);
      var rest := Watch(first.link, frames[1..]).edges;
      assert before + (first.edges + rest) == before + first.edges + rest;
    }
  }

  /** From the first frame of a link on, every end edge follows a start of its kind not already ended,
      and a frame of a match that is over makes no edge. */
  lemma {:induction false} EdgesAreBracketed(frames: seq<Frame>)
    ensures Bracketed(Watch(UNLINKED, frames).edges)
    ensures forall l, f :: IsMatchOver(f) ==> Breaks(l, f).edges == []
  {
    StreamTracks(UNLINKED, frames, [], false);
    assert [] + Watch(UNLINKED, frames).edges == Watch(UNLINKED, frames).edges;
  }

  lemma NothingTracks()
    ensures Tracks(UNLINKED, [], true)
  {
  }

  lemma {:induction false} LastFrameTells(l: Link, frames: seq<Frame>)
    requires frames != [] && NoneOver(frames)
    ensures Watch(l, frames).link.timeout == frames[|frames| - 1].timeoutActive
    decreases |frames|
  {
    if |frames| > 1 {
      LastFrameTells(Breaks(l, frames[0]).link, frames[1..]);
    } else {
      assert frames[1..] == [];
    }
  }

  /** No edge is missed: while the match goes on, the last timeout edge is a start exactly while the
      frames show a timeout, and the last interval edge one exactly while the link waits for the end of
      an interval. */
  lemma {:induction false} NoEdgeIsMissed(frames: seq<Frame>)
    requires frames != [] && NoneOver(frames)
    ensures var seen := Watch(UNLINKED, frames);
            && (IsOpen(seen.edges, Timeouts) <==> frames[|frames| - 1].timeoutActive)
            && (IsOpen(seen.edges, Intervals) <==> seen.link.interval.Some?)
  {
    hide Breaks, IsOpen, Bracketed, IsMatchOver;
    NothingTracks();
    StreamTracks(UNLINKED, frames, [], true);
    LastFrameTells(UNLINKED, frames);
    assert [] + Watch(UNLINKED, frames).edges == Watch(UNLINKED, frames).edges;
  }
}
