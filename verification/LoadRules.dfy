/** A saved state put on the board: every team's things where that team stands. */
module LoadRules {
  import opened Basics
  import opened LiveStates
  import Manual
  import Beach
  import Basketball

  /** Where the state's team A stands. */
  function SideOfA(s: SavedState): Side {
    if s.aOnRight then Right else Left
  }

  predicate LaidOut<T(==)>(x: Sided<T>, p: Pair<T>, sideOfA: Side) {
    x.At(sideOfA) == p.a && x.At(sideOfA.Other()) == p.b
  }

  /** The recorded sets, in order, each team's points on its side, and believable times only. */
  predicate ResultsLaidOut(results: seq<SetResult>, saved: seq<PairResult>, sideOfA: Side) {
    && |results| == |saved|
    && forall i :: 0 <= i < |saved| ==>
         && LaidOut(results[i].score, saved[i].score, sideOfA)
         && results[i].dur == (if saved[i].dur.Some? && saved[i].dur.value >= 0 then saved[i].dur else None)
  }

  /** The entries that are results. */
  function Real(saved: seq<Option<PairResult>>): seq<PairResult> {
    if saved == [] then []
    else (if saved[0] == None then [] else [saved[0].value]) + Real(saved[1..])
  }

  lemma {:induction false} RealResultsLoad(saved: seq<Option<PairResult>>, aOnRight: bool)
    ensures ResultsLaidOut(LoadedResults(saved, aOnRight), Real(saved), if aOnRight then Right else Left)
  {
    if saved != [] {
      RealResultsLoad(saved[1..], aOnRight);
    }
  }

  /** A state loaded indoors: names, points, sets, timeouts, substitutions and recorded sets stand with their
      team, the arrow and the ends as saved, no clock running, and the set closed exactly when the score on
      show is the last one recorded. */
  lemma IndoorIsLaidOut(s: SavedState, swappedBefore: bool)
    ensures var b := Manual.Loaded(s, swappedBefore);
            var a := SideOfA(s);
            && LaidOut(b.m.teams, s.teams, a) && LaidOut(b.m.points, s.points, a) && LaidOut(b.m.sets, s.sets, a)
            && LaidOut(b.m.timeouts, s.timeouts, a) && LaidOut(b.m.subs, s.subs, a)
            && ResultsLaidOut(b.results, Real(s.results), a)
            && b.m.serving == s.serving && b.m.setStart == None
            && b.m.endsSwapped == (if s.endsSwapped == None then swappedBefore else s.endsSwapped.value)
            && b.m.firstServer == (if s.points == Pair(0, 0) then s.serving else None)
            && (b.setClosed <==> b.results != [] && b.results[|b.results| - 1].score == b.m.points
                                 && (s.points.a > 0 || s.points.b > 0))
  {
    RealResultsLoad(s.results, s.aOnRight);
    hide ResultsLaidOut;
  }

  /** A state loaded on the beach: servers and their turns with their pair, the turns read off the serve when
      the state has none. */
  lemma BeachIsLaidOut(s: SavedState, swappedBefore: bool)
    ensures var b := Beach.Loaded(s, swappedBefore);
            var a := SideOfA(s);
            && LaidOut(b.m.teams, s.teams, a) && LaidOut(b.m.points, s.points, a) && LaidOut(b.m.sets, s.sets, a)
            && LaidOut(b.m.timeouts, s.timeouts, a) && ResultsLaidOut(b.results, Real(s.results), a)
            && LaidOut(b.m.servers, Pair(if s.servers.a == 2 then 2 else 1, if s.servers.b == 2 then 2 else 1), a)
            && (s.served.Some? ==> LaidOut(b.m.served, s.served.value, a))
            && (s.served == None ==> forall side: Side :: b.m.served.At(side) == (s.serving == Some(side)))
            && b.m.serving == s.serving && b.m.setStart == None
            && b.m.endsSwapped == (if s.endsSwapped == None then swappedBefore else s.endsSwapped.value)
            && (b.setClosed <==> b.results != [] && b.results[|b.results| - 1].score == b.m.points
                                 && (s.points.a > 0 || s.points.b > 0))
  {
    RealResultsLoad(s.results, s.aOnRight);
    hide ResultsLaidOut;
  }

  /** A state loaded in basketball: the fouls are the state's substitutions, and a game that was over stays so. */
  lemma BasketballIsLaidOut(s: SavedState, swappedBefore: bool)
    requires s.period >= 0
    ensures var b := Basketball.Loaded(s, swappedBefore);
            var a := SideOfA(s);
            && LaidOut(b.m.teams, s.teams, a) && LaidOut(b.m.points, s.points, a) && LaidOut(b.m.fouls, s.subs, a)
            && LaidOut(b.m.timeouts, s.timeouts, a)
            && |b.results| == |Real(s.results)|
            && (forall i :: 0 <= i < |b.results| ==> LaidOut(b.results[i].score, Real(s.results)[i].score, a))
            && b.m.serving == s.serving && b.m.over == s.over
            && b.m.period == (if s.period == 0 then 1 else s.period)
            && b.m.endsSwapped == (if s.endsSwapped == None then swappedBefore else s.endsSwapped.value)
  {
    RealResultsLoad(s.results, s.aOnRight);
  }

  /** The scores of the recorded sets, one by one. */
  predicate SameScores(x: seq<SetResult>, y: seq<SetResult>) {
    |x| == |y| && forall i :: 0 <= i < |x| ==> x[i].score == y[i].score
  }

  /** Loading keeps the running set clock exactly when names, score, sets and recorded scores on the board are
      the ones loaded; in every other way the board is the state's. */
  lemma IndoorClockIsKept(b: Manual.Board, s: SavedState)
    ensures var n := Manual.SetStateStep(b, s);
            && n.(m := n.m.(setStart := None)) == Manual.Loaded(s, b.m.endsSwapped)
            && n.m.setStart
               == if && n.m.teams.left.name == b.m.teams.left.name && n.m.teams.right.name == b.m.teams.right.name
                     && n.m.points == b.m.points && n.m.sets == b.m.sets && SameScores(n.results, b.results)
                  then b.m.setStart else None
  {
  }

  lemma BeachClockIsKept(b: Beach.Board, s: SavedState)
    ensures var n := Beach.SetStateStep(b, s);
            && n.(m := n.m.(setStart := None)) == Beach.Loaded(s, b.m.endsSwapped)
            && n.m.setStart
               == if && n.m.teams.left.name == b.m.teams.left.name && n.m.teams.right.name == b.m.teams.right.name
                     && n.m.points == b.m.points && n.m.sets == b.m.sets && SameScores(n.results, b.results)
                  then b.m.setStart else None
  {
  }
}
