/** The recorded sets against the set tally, for both volleyball engines. */
module SetTally {
  import opened Basics

  /** How many recorded sets `side` won. */
  function Wins(results: seq<SetResult>, side: Side): (n: nat)
    ensures n <= |results|
  {
    if results == [] then 0
    else
      var init := results[..|results| - 1];
      Wins(init, side) + if WinnerOf(results[|results| - 1].score) == Some(side) then 1 else 0
  }

  /** A real set result: won by two or more, the winner at 15 or more. */
  predicate RealSet(score: Sided<int>) {
    || (score.left >= 15 && score.left - score.right >= 2)
    || (score.right >= 15 && score.right - score.left >= 2)
  }

  /** The sets won are the recorded sets won, every recorded set is a real one, and a set counts as
      closed only with a result to show for it. */
  predicate TallyStands(sets: Sided<int>, results: seq<SetResult>, setClosed: bool) {
    && sets.left == Wins(results, Left) && sets.right == Wins(results, Right)
    && (forall i :: 0 <= i < |results| ==> RealSet(results[i].score))
    && (setClosed ==> results != [])
  }

  lemma {:induction false} WinsAcross(results: seq<SetResult>, side: Side)
    ensures Wins(FlipResults(results), side.Other()) == Wins(results, side)
  {
    if results == [] {
    } else {
      var init := results[..|results| - 1];
      WinsAcross(init, side);
      assert FlipResults(results)[..|results| - 1] == FlipResults(init);
    }
  }

  lemma {:induction false} WinsAppend(results: seq<SetResult>, r: SetResult, side: Side)
    ensures Wins(results + [r], side) == Wins(results, side) + if WinnerOf(r.score) == Some(side) then 1 else 0
  {
    assert (results + [r])[..|results|] == results;
  }

  lemma AwardKeepsTally(sets: Sided<int>, results: seq<SetResult>, r: SetResult, side: Side)
    requires TallyStands(sets, results, false)
    requires RealSet(r.score) && WinnerOf(r.score) == Some(side)
    ensures TallyStands(With(sets, side, Clamp0(sets.At(side) + 1)), results + [r], true)
  {
    WinsAppend(results, r, Left);
    WinsAppend(results, r, Right);
  }

  /** Dropping the last result and its set point. */
  lemma DropKeepsTally(sets: Sided<int>, results: seq<SetResult>, setClosed: bool, side: Side)
    requires TallyStands(sets, results, setClosed) && results != []
    requires WinnerOf(results[|results| - 1].score) == Some(side)
    ensures TallyStands(With(sets, side, Clamp0(sets.At(side) - 1)), results[..|results| - 1], false)
  {
  }

  lemma SwapKeepsTally(sets: Sided<int>, results: seq<SetResult>, setClosed: bool)
    requires TallyStands(sets, results, setClosed)
    ensures TallyStands(sets.Flipped(), FlipResults(results), setClosed)
  {
    WinsAcross(results, Left);
    WinsAcross(results, Right);
  }
}
