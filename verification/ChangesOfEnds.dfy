/** Scoring runs with changes of ends anywhere: the source and the log together. */
module ChangesOfEnds {
  import opened Basics
  import opened LiveStates
  import opened UndoJournals
  import opened History
  import opened HistoryByTeam
  import opened ControlServer

  /** A scoring source seen from both ends of the court. `fair` is what its boards keep, `scoring`
      the actions of a scoring run. */
  datatype Court<!B, !A> = Court(rig: Rig<B, A>, swap: B -> B, mirror: A -> A, swapAction: A,
                                 fair: B -> bool, scoring: A -> bool)

  ghost predicate StepsAlike<B(!new), A(!new)>(c: Court<B, A>) {
    forall b, a {:trigger c.rig.step(b, a)} :: c.fair(b) && c.scoring(a) ==>
      var t := c.rig.step(b, a);
      c.fair(t.board) && c.rig.step(c.swap(b), c.mirror(a)) == Stepped(c.swap(t.board), t.event)
  }

  ghost predicate ReadsAlike<B(!new), A(!new)>(c: Court<B, A>) {
    && (forall a {:trigger c.rig.entry(a)} :: c.scoring(a) ==>
          NamesItsSide(c.rig.entry(a)) && !c.rig.entry(a).Reset?
          && c.rig.entry(c.mirror(a)) == MirrorEntry(c.rig.entry(a)))
    && (forall b, f {:trigger c.rig.state(b, f)} ::
          c.rig.state(b, f).endsSwapped.Some? && c.rig.state(c.swap(b), f) == ChangeEnds(c.rig.state(b, f)))
  }

  ghost predicate Swaps<B(!new), A(!new)>(c: Court<B, A>) {
    && (forall b {:trigger c.swap(b)} ::
          c.swap(c.swap(b)) == b && c.rig.step(b, c.swapAction) == Stepped(c.swap(b), NoEvent))
    && c.rig.entry(c.swapAction) == Swap
  }

  /** The source has no left/right bias and reports and logs accordingly. */
  ghost predicate Symmetric<B(!new), A(!new)>(c: Court<B, A>) {
    StepsAlike(c) && ReadsAlike(c) && Swaps(c)
  }

  /** A tap, with the clock stamps it gets on either board; or a change of ends. */
  datatype Item<+A> = Tap(a: A, bestOf: int, stamp: int, otherStamp: int) | Ends(bestOf: int, stamp: int)

  predicate AllScoring<A>(scoring: A -> bool, items: seq<Item<A>>) {
    forall i :: 0 <= i < |items| ==> items[i].Tap? ==> scoring(items[i].a)
  }

  /** The run with nobody changing ends. */
  function Straight<B(==), A>(c: Court<B, A>, s: Sys<B>, items: seq<Item<A>>): Sys<B>
    decreases |items|
  {
    if items == [] then s
    else
      var next := match items[0]
                  case Tap(a, bestOf, stamp, _) => ControlServer.Serve(c.rig, s, Apply(a, bestOf, stamp))
                  case Ends(_, _) => s;
      Straight(c, next, items[1..])
  }

  /** The same run with the changes of ends, every tap after one mirrored. */
  function Turned<B(==), A>(c: Court<B, A>, s: Sys<B>, flipped: bool, items: seq<Item<A>>): Sys<B>
    decreases |items|
  {
    if items == [] then s
    else
      match items[0]
      case Tap(a, bestOf, _, stamp) =>
        var mirrored := if flipped then c.mirror(a) else a;
        Turned(c, ControlServer.Serve(c.rig, s, Apply(mirrored, bestOf, stamp)), flipped, items[1..])
      case Ends(bestOf, stamp) =>
        Turned(c, ControlServer.Serve(c.rig, s, Apply(c.swapAction, bestOf, stamp)), !flipped, items[1..])
  }

  function IsFlipped<A>(flipped: bool, items: seq<Item<A>>): bool
    decreases |items|
  {
    if items == [] then flipped else IsFlipped(flipped != items[0].Ends?, items[1..])
  }

  /** `t` is `s` seen from the other end (or from the same one), telling the same story. */
  predicate Mirrors<B(==), A>(c: Court<B, A>, s: Sys<B>, t: Sys<B>, flipped: bool) {
    && c.fair(s.board)
    && t.board == (if flipped then c.swap(s.board) else s.board)
    && SameStory(s.log, t.log)
  }

  /** No match of either run is within one action's entries of the event cap: neither the one in progress
      nor, since a "-" can bring it back, the one just finished. */
  predicate BelowCap<B(==), A>(c: Court<B, A>, s: Sys<B>, t: Sys<B>, flipped: bool, items: seq<Item<A>>)
    decreases |items|
  {
    if items == [] then true
    else
      && RoomFor(s.log, 3) && RoomFor(t.log, 3)
      && match items[0]
         case Tap(a, bestOf, stamp, otherStamp) =>
           var mirrored := if flipped then c.mirror(a) else a;
           BelowCap(c, ControlServer.Serve(c.rig, s, Apply(a, bestOf, stamp)),
                    ControlServer.Serve(c.rig, t, Apply(mirrored, bestOf, otherStamp)), flipped, items[1..])
         case Ends(bestOf, stamp) =>
           BelowCap(c, s, ControlServer.Serve(c.rig, t, Apply(c.swapAction, bestOf, stamp)), !flipped, items[1..])
  }

  lemma TapMirrors<B(!new), A(!new)>(c: Court<B, A>, s: Sys<B>, t: Sys<B>, flipped: bool, a: A, bestOf: int,
                                     stamp: int, otherStamp: int)
    requires Symmetric(c) && Mirrors(c, s, t, flipped) && c.scoring(a)
    requires RoomFor(s.log, 3) && RoomFor(t.log, 3)
    ensures Mirrors(c, ControlServer.Serve(c.rig, s, Apply(a, bestOf, stamp)),
                    ControlServer.Serve(c.rig, t, Apply(if flipped then c.mirror(a) else a, bestOf, otherStamp)),
                    flipped)
  {
    var b := if flipped then c.mirror(a) else a;
    var x, y := c.rig.step(s.board, a), c.rig.step(t.board, b);
    var r := ReportOf(c.rig, x.board, x.event, bestOf, stamp);
    var q := ReportOf(c.rig, y.board, y.event, bestOf, otherStamp);
    var ea, eb := c.rig.entry(a), c.rig.entry(b);
    ChangeOfEndsIsNoNews(r);
    assert SameNews(r, q);
    if flipped {
      SameEntry(ea, r.state);
    }
    if x.event != SetClosed {
      SameRecorded(s.log, t.log, ea, eb, r, q, x.board != s.board, y.board != t.board, 0);
    }
  }

  lemma EndsMirror<B(!new), A(!new)>(c: Court<B, A>, s: Sys<B>, t: Sys<B>, flipped: bool, bestOf: int, stamp: int)
    requires Symmetric(c) && Mirrors(c, s, t, flipped)
    requires RoomFor(s.log, 3) && RoomFor(t.log, 3)
    ensures Mirrors(c, s, ControlServer.Serve(c.rig, t, Apply(c.swapAction, bestOf, stamp)), !flipped)
  {
    var y := c.rig.step(t.board, c.swapAction);
    assert y == Stepped(c.swap(t.board), NoEvent);
    assert c.swap(c.swap(s.board)) == s.board;
    var q := ReportOf(c.rig, y.board, y.event, bestOf, stamp);
    EndsChangedOnly(s.log, t.log, q, y.board != t.board, 0);
  }

  /** The log is by team: inserting any changes of ends into a scoring run of any length, and mirroring the
      sides of the taps after each, gives the same entries, set ends and archived results, apart from the
      swap entries and the stamps, while no match reaches the event cap. */
  lemma {:induction false} LogIsByTeam<B(!new), A(!new)>(
    c: Court<B, A>, s: Sys<B>, t: Sys<B>, flipped: bool, items: seq<Item<A>>)
    requires Symmetric(c) && AllScoring(c.scoring, items)
    requires Mirrors(c, s, t, flipped) && BelowCap(c, s, t, flipped, items)
    ensures Mirrors(c, Straight(c, s, items), Turned(c, t, flipped, items), IsFlipped(flipped, items))
    decreases |items|
  {
    hide ControlServer.Serve, Mirrors, Symmetric, RoomFor;
    if items == [] {
    } else {
      var rest := items[1..];
      match items[0] {
        case Tap(a, bestOf, stamp, otherStamp) =>
          TapMirrors(c, s, t, flipped, a, bestOf, stamp, otherStamp);
          LogIsByTeam(c, ControlServer.Serve(c.rig, s, Apply(a, bestOf, stamp)),
                      ControlServer.Serve(c.rig, t, Apply(if flipped then c.mirror(a) else a, bestOf, otherStamp)),
                      flipped, rest);
        case Ends(bestOf, stamp) =>
          EndsMirror(c, s, t, flipped, bestOf, stamp);
          LogIsByTeam(c, s, ControlServer.Serve(c.rig, t, Apply(c.swapAction, bestOf, stamp)), !flipped, rest);
      }
    }
  }
}
