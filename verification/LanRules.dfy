/** What a linked match's frames announce: whose timeout, on which side, and when an interval is over. */
module LanRules {
  import opened Basics
  import opened LiveStates
  import opened LanSources

  /** The team's timeout count, and whether it rose since the frame before. */
  function Taken(p: Pair<int>, t: TeamId): int {
    if t == TeamA then p.a else p.b
  }

  predicate Rose(l: Link, f: Frame, t: TeamId) {
    l.timeouts.Some? && Taken(f.timeouts, t) > Taken(l.timeouts.value, t)
  }

  predicate RoseAlone(l: Link, f: Frame, t: TeamId) {
    Rose(l, f, t) && !Rose(l, f, t.Other())
  }

  /** A timeout is announced when the frames begin to show one, or a count rises during one; on the side where
      the team stands whose count alone rose, and on no side when that is neither or both. */
  lemma TimeoutIsAnnounced(l: Link, f: Frame)
    requires !IsMatchOver(f)
    ensures var edges := Breaks(l, f).edges;
            && ((exists e :: e in edges && e.TimeoutStart?) <==>
                f.timeoutActive && (!l.timeout || Rose(l, f, TeamA) || Rose(l, f, TeamB)))
            && (TimeoutEnd in edges <==> l.timeout && !f.timeoutActive)
            && (forall side, t :: TimeoutStart(Some(side)) in edges ==>
                  (RoseAlone(l, f, t) <==> BySide(Pair(TeamA, TeamB), f.aOnRight).At(side) == t))
            && (TimeoutStart(None) in edges ==> !RoseAlone(l, f, TeamA) && !RoseAlone(l, f, TeamB))
  {
    hide IntervalOver;
    var edges := Breaks(l, f).edges;
    if f.timeoutActive && (!l.timeout || Rose(l, f, TeamA) || Rose(l, f, TeamB)) {
      assert edges[|edges| - 1].TimeoutStart?;
    }
  }

  /** On one frame every end is announced before any start, and one of each kind at most. */
  lemma EndsComeFirst(l: Link, f: Frame, i: nat, j: nat)
    requires i < j < |Breaks(l, f).edges|
    ensures var edges := Breaks(l, f).edges;
            && !((edges[i].TimeoutStart? || edges[i].IntervalStart?) && edges[j] in {TimeoutEnd, IntervalEnd})
            && (edges[i].TimeoutStart? || edges[i] == TimeoutEnd ==> edges[j] in {IntervalStart, IntervalEnd})
            && (edges[i] in {IntervalStart, IntervalEnd} ==> edges[j].TimeoutStart? || edges[j] == TimeoutEnd)
  {
    hide IntervalOver, CalledBy;
  }

  /** A frame that an interval into set `leadsInto` runs through: its flag still up, or no word of its end and no
      point of that set. */
  predicate RunsThrough(f: Frame, leadsInto: Option<int>) {
    || f.intervalActive
    || (&& f.lastEvent != "end_interval" && f.lastEvent != "set_start" && f.lastEvent != "undo"
        && f.lastEvent != "manual_reopen_set"
        && (f.points.a + f.points.b <= 0
            || (leadsInto.Some? && f.currentSet.Some? && f.currentSet.value != leadsInto.value)))
  }

  lemma OverExactly(f: Frame, leadsInto: Option<int>)
    ensures IntervalOver(f, leadsInto) <==> !RunsThrough(f, leadsInto)
  {
  }

  lemma {:induction false} IntervalRunsFrom(l: Link, frames: seq<Frame>, leadsInto: Option<int>)
    requires l.interval == Some(leadsInto) && l.intervalFlag && NoneOver(frames)
    requires forall i :: 0 <= i < |frames| ==> RunsThrough(frames[i], leadsInto)
    requires forall i :: 0 <= i < |frames| ==> frames[i].intervalActive
    ensures IntervalEnd !in Watch(l, frames).edges && IntervalStart !in Watch(l, frames).edges
    ensures Watch(l, frames).link.interval == l.interval && Watch(l, frames).link.intervalFlag
    decreases |frames|
  {
    hide IsMatchOver, CalledBy, RunsThrough;
    if frames != [] {
      OverExactly(frames[0], leadsInto);
      IntervalRunsFrom(Breaks(l, frames[0]).link, frames[1..], leadsInto);
    }
  }

  lemma {:induction false} IntervalWaitsFrom(l: Link, frames: seq<Frame>, leadsInto: Option<int>)
    requires l.interval == Some(leadsInto) && NoneOver(frames)
    requires forall i :: 0 <= i < |frames| ==> RunsThrough(frames[i], leadsInto) && !frames[i].intervalActive
    ensures IntervalEnd !in Watch(l, frames).edges && IntervalStart !in Watch(l, frames).edges
    ensures Watch(l, frames).link.interval == l.interval
    decreases |frames|
  {
    hide IsMatchOver, CalledBy, RunsThrough;
    if frames != [] {
      OverExactly(frames[0], leadsInto);
      assert !IntervalOver(frames[0], leadsInto);
      IntervalWaitsFrom(Breaks(l, frames[0]).link, frames[1..], leadsInto);
    }
  }

  /** An interval is announced when its flag goes up, and its end when it really ends: through its flag being
      up, and then through every frame it runs through, nothing is announced of it; the first frame after
      those that it does not run through announces its end. */
  lemma {:induction false} IntervalEndsWhenItEnds(l: Link, start: Frame, up: seq<Frame>, down: seq<Frame>, end: Frame)
    requires !l.intervalFlag && start.intervalActive && NoneOver([start, end]) && NoneOver(up) && NoneOver(down)
    requires forall i :: 0 <= i < |up| ==> up[i].intervalActive
    requires forall i :: 0 <= i < |down| ==> RunsThrough(down[i], start.currentSet) && !down[i].intervalActive
    requires !RunsThrough(end, start.currentSet)
    ensures var l1 := Breaks(l, start);
            var l2 := Watch(l1.link, up);
            var l3 := Watch(l2.link, down);
            && IntervalStart in l1.edges
            && IntervalEnd !in l2.edges + l3.edges && IntervalStart !in l2.edges + l3.edges
            && IntervalEnd in Breaks(l3.link, end).edges && Breaks(l3.link, end).link.interval == None
  {
    assert !IsMatchOver([start, end][0]) && !IsMatchOver([start, end][1]);
    hide IsMatchOver, CalledBy, TimeoutEdges;
    var l1 := Breaks(l, start);
    IntervalEdgesAreMade(l, start);
    hide Breaks;
    IntervalRunsFrom(l1.link, up, start.currentSet);
    var l2 := Watch(l1.link, up);
    IntervalWaitsFrom(l2.link, down, start.currentSet);
    OverExactly(end, start.currentSet);
    hide Watch, IntervalOver;
    IntervalEdgesAreMade(Watch(l2.link, down).link, end);
  }

  lemma IntervalEdgesAreMade(l: Link, f: Frame)
    requires !IsMatchOver(f)
    ensures f.intervalActive && !l.intervalFlag ==>
              && IntervalStart in Breaks(l, f).edges
              && Breaks(l, f).link.interval == Some(f.currentSet) && Breaks(l, f).link.intervalFlag
    ensures !f.intervalActive && l.interval.Some? && IntervalOver(f, l.interval.value) ==>
              IntervalEnd in Breaks(l, f).edges && Breaks(l, f).link.interval == None
  {
    hide IsMatchOver, TimeoutEdges, IntervalOver;
    var i, t := IntervalEdges(l, f), TimeoutEdges(l, f);
    assert Breaks(l, f).edges == i.0 + t.0 + i.1 + t.1;
    if f.intervalActive && !l.intervalFlag {
      assert i.1 == [IntervalStart];
    } else if l.interval.Some? && IntervalOver(f, l.interval.value) {
      assert i.0 == [IntervalEnd];
    }
  }

  /** The end of the match forgets the breaks: a timeout or an interval that a later frame shows - the end taken
      back - is announced anew. */
  lemma TheEndForgets(l: Link, over: Frame, f: Frame)
    requires over.status in {"ended", "final", "approved", "finished", "completed"} && !IsMatchOver(f)
    ensures var n := Breaks(l, over);
            && n.edges == []
            && (f.timeoutActive ==> exists e :: e in Breaks(n.link, f).edges && e.TimeoutStart?)
            && (f.intervalActive ==> IntervalStart in Breaks(n.link, f).edges)
            && TimeoutEnd !in Breaks(n.link, f).edges && IntervalEnd !in Breaks(n.link, f).edges
  {
    var n := Breaks(l, over);
    IntervalEdgesAreMade(n.link, f);
    TimeoutIsAnnounced(n.link, f);
    hide IntervalOver, CalledBy;
  }
}
