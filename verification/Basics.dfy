/** Vocabulary shared by every component: the two physical sides of the board, values kept per
    side, what an action can raise, and the set arithmetic of `formatRules`. */
module Basics {

  datatype Option<+T> = None | Some(value: T) {
    function GetOr(default: T): T {
      match this
      case Some(v) => v
      case None => default
    }
  }

  datatype Side = Left | Right {
    function Other(): Side {
      if this == Left then Right else Left
    }
  }

  /** A side that may be unset (nobody is serving), seen from the other end of the court. */
  function Across(s: Option<Side>): Option<Side> {
    match s
    case None => None
    case Some(side) => Some(side.Other())
  }

  /** One value for each physical side. */
  datatype Sided<+T> = Sided(left: T, right: T) {
    function At(side: Side): T {
      if side == Left then left else right
    }

    function Flipped(): Sided<T> {
      Sided(right, left)
    }
  }

  function With<T>(s: Sided<T>, side: Side, v: T): Sided<T> {
    if side == Left then Sided(v, s.right) else Sided(s.left, v)
  }

  /** The two teams, named by where they stood when the match began: A on the left. */
  datatype TeamId = TeamA | TeamB {
    function Other(): TeamId {
      if this == TeamA then TeamB else TeamA
    }
  }

  /** The team standing on `side`, given whether the teams stand the reverse of where they started. */
  function TeamOn(side: Side, swapped: bool): TeamId {
    if (side == Right) != swapped then TeamB else TeamA
  }

  datatype Team = Team(name: string, short: string, color: string)

  /** A finished set (or period) as the engines keep it: by physical side. */
  datatype SetResult = SetResult(score: Sided<int>, dur: Option<int>) {
    function Flipped(): SetResult {
      SetResult(score.Flipped(), dur)
    }
  }

  /** What the last action raised (`lastEvent`). */
  datatype Event =
    | NoEvent
    | SetEnd
    | MatchEnd
    | SwitchDue
    | TechTimeout
    | PeriodEnd
    | GameEnd
    | Bonus
    | SetClosed   // a tap refused: the set is already won
    | Undone
    | UndoEmpty

  function Clamp0(n: int): (r: nat)
    ensures r == n || (n < 0 && r == 0)
  {
    if n < 0 then 0 else n
  }

  function Max(x: int, y: int): int {
    if x < y then y else x
  }

  /** Every result, ends exchanged. */
  function FlipResults(results: seq<SetResult>): (flipped: seq<SetResult>)
    ensures |flipped| == |results|
    ensures forall i :: 0 <= i < |results| ==> flipped[i] == results[i].Flipped()
  {
    seq(|results|, i requires 0 <= i < |results| => results[i].Flipped())
  }

  lemma FlipResultsTwice(results: seq<SetResult>)
    ensures FlipResults(FlipResults(results)) == results
  {
    assert forall i :: 0 <= i < |results| ==> results[i].Flipped().Flipped() == results[i];
  }

  lemma FlipAppend(results: seq<SetResult>, r: SetResult)
    ensures FlipResults(results + [r]) == FlipResults(results) + [r.Flipped()]
  {
  }

  lemma FlipDropLast(results: seq<SetResult>)
    requires results != []
    ensures FlipResults(results)[..|results| - 1] == FlipResults(results[..|results| - 1])
  {
  }

  datatype Rules = Rules(toWin: int, deciding: bool, target: int)

  /** settings.js: sets to win, whether both sides stand one set short of the match, the target. */
  function FormatRules(bestOf: int, sets: Sided<int>, normal: int, deciding: int): Rules {
    var toWin := if bestOf == 3 then 2 else 3;
    var last := sets.left == toWin - 1 && sets.right == toWin - 1;
    Rules(toWin, last, if last then deciding else normal)
  }

  /** A set is won at p against o: the target, by two. */
  predicate Won(target: int, p: int, o: int) {
    p >= target && p - o >= 2
  }

  /** Whole seconds between two readings of the monotonic clock, rounded half up. */
  function ElapsedSecs(start: Option<int>, now: int): (secs: Option<int>)
    ensures secs.Some? <==> start.Some?
    ensures secs.Some? ==> secs.value >= 0
  {
    match start
    case None => None
    case Some(s) => Some(Max(0, (now - s + 500) / 1000))
  }

  // ---- Sets already recorded (shared by the two volleyball engines) -------------------------

  predicate LastIs(results: seq<SetResult>, score: Sided<int>) {
    |results| > 0 && results[|results| - 1].score == score
  }

  /** Does the score on show equal the last recorded set (0-0 never counts)? */
  predicate HoldsLastResult(points: Sided<int>, results: seq<SetResult>) {
    LastIs(results, points) && (points.left > 0 || points.right > 0)
  }

  /** The side that won a set with this score. */
  function WinnerOf(score: Sided<int>): Option<Side> {
    if score.left > score.right then Some(Left)
    else if score.right > score.left then Some(Right)
    else None
  }

  /** The side that won the last recorded set, while the set on the board still counts as closed. */
  function ClosedWinner(results: seq<SetResult>, setClosed: bool): Option<Side> {
    if !setClosed || results == [] then None else WinnerOf(results[|results| - 1].score)
  }

  /** The tally the set on the board was played under: without the award of a closed set. */
  function TallyBefore(sets: Sided<int>, results: seq<SetResult>, setClosed: bool): Sided<int> {
    if !setClosed || results == [] then sets
    else
      var s := results[|results| - 1].score;
      if s.left > s.right then Sided(Clamp0(sets.left - 1), Clamp0(sets.right))
      else Sided(Clamp0(sets.left), Clamp0(sets.right - 1))
  }
}
