/** What a source reports, saved and loaded again: the resume slot after a power cut, and the console
    handing the board back the state it already shows. */
module Resume {
  import opened Basics
  import opened LiveStates
  import Manual
  import Beach
  import Basketball

  /** A reported state as it comes back, with the beach pairs' servers and service turns. */
  function Saved(s: LiveState, servers: Pair<int>, served: Option<Pair<bool>>): SavedState {
    SavedState(s.aOnRight, s.teams, s.points, s.sets, s.timeouts, s.subs, s.serving, s.endsSwapped,
               seq(|s.results|, i requires 0 <= i < |s.results| => Some(s.results[i])),
               servers, served, s.period, s.over)
  }

  /** The playing times a source can have: measured, or none. */
  predicate Believable(results: seq<SetResult>) {
    forall i :: 0 <= i < |results| ==> SetDur(results[i].dur) == results[i].dur
  }

  lemma {:induction false} ResultsComeBack(results: seq<SetResult>, saved: seq<Option<PairResult>>)
    requires Believable(results) && |saved| == |results|
    requires forall i :: 0 <= i < |results| ==> saved[i] == Some(ReportedResults(results)[i])
    ensures LoadedResults(saved, false) == results
    decreases |results|
  {
    if results != [] {
      var rest := results[1..];
      assert forall i :: 0 <= i < |rest| ==> ReportedResults(rest)[i] == ReportedResults(results)[i + 1];
      ResultsComeBack(results[1..], saved[1..]);
      assert results == [results[0]] + results[1..];
    }
  }

  // ---- Indoor -------------------------------------------------------------------------------------------

  function SavedIndoor(b: Manual.Board, bestOf: int): SavedState {
    Saved(Manual.StateOf(b, bestOf), Pair(1, 1), None)
  }

  /** Who opened the set is known at 0-0 only. */
  function OpenerOnShow(m: Manual.Model): Option<Side> {
    if m.points == Sided(0, 0) then m.serving else None
  }

  /** A resumed board is the board that was saved, except for what a state cannot carry: the set clock,
      the opener of a set in play, and a closed flag that no longer shows in the score. */
  lemma IndoorResumes(b: Manual.Board, bestOf: int, swappedBefore: bool)
    requires Believable(b.results)
    ensures Manual.Loaded(SavedIndoor(b, bestOf), swappedBefore) ==
            Manual.Board(b.m.(setStart := None, firstServer := OpenerOnShow(b.m)),
                         b.results, HoldsLastResult(b.m.points, b.results))
  {
    ResultsComeBack(b.results, SavedIndoor(b, bestOf).results);
  }

  /** Handing the board its own state back changes nothing - the running set clock included - exactly
      when the opener and the closed flag are those the score shows. */
  lemma IndoorReloadIsNothing(b: Manual.Board, bestOf: int)
    requires Believable(b.results)
    ensures Manual.SetStateStep(b, SavedIndoor(b, bestOf)) == b
            <==> b.m.firstServer == OpenerOnShow(b.m) && b.setClosed == HoldsLastResult(b.m.points, b.results)
  {
    IndoorResumes(b, bestOf, b.m.endsSwapped);
  }

  // ---- Beach --------------------------------------------------------------------------------------------

  function SavedBeach(b: Beach.Board, bestOf: int): SavedState {
    Saved(Beach.StateOf(b, bestOf), ByTeamA(b.m.servers), Some(ByTeamA(b.m.served)))
  }

  /** The servers and the service turns come back too. */
  lemma BeachResumes(b: Beach.Board, bestOf: int, swappedBefore: bool)
    requires Believable(b.results) && b.m.servers.left in {1, 2} && b.m.servers.right in {1, 2}
    ensures Beach.Loaded(SavedBeach(b, bestOf), swappedBefore) ==
            Beach.Board(b.m.(setStart := None), b.results, HoldsLastResult(b.m.points, b.results))
  {
    ResultsComeBack(b.results, SavedBeach(b, bestOf).results);
  }

  // ---- Basketball -----------------------------------------------------------------------------------------

  /** A basketball board comes back whole: period, game end, fouls and line score. */
  lemma BasketballResumes(b: Basketball.Board, swappedBefore: bool)
    requires b.m.period >= 1 && forall i :: 0 <= i < |b.results| ==> b.results[i].dur == None
    ensures Basketball.Loaded(Saved(Basketball.StateOf(b), Pair(1, 1), None), swappedBefore) == b
  {
    assert Believable(b.results);
    ResultsComeBack(b.results, Saved(Basketball.StateOf(b), Pair(1, 1), None).results);
  }
}
