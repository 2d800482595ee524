/** The a/b liveState contract: what every scoring source reports and every reader consumes. */
module LiveStates {
  import opened Basics

  /** One value for each of the state's two teams. */
  datatype Pair<+T> = Pair(a: T, b: T) {
    function Flipped(): Pair<T> {
      Pair(b, a)
    }
  }

  datatype PairResult = PairResult(score: Pair<int>, dur: Option<int>) {
    function Flipped(): PairResult {
      PairResult(score.Flipped(), dur)
    }
  }

  /** `aOnRight` is side_a == 'right', which only a linked match ever reports; `serving` is a physical
      side. `setsToWin` and `endsSwapped` are absent from a linked match. */
  datatype LiveState = LiveState(
    aOnRight: bool,
    teams: Pair<Team>,
    points: Pair<int>,
    sets: Pair<int>,
    timeouts: Pair<int>,
    subs: Pair<int>,
    serving: Option<Side>,
    endsSwapped: Option<bool>,
    results: seq<PairResult>,
    setsToWin: Option<int>,
    currentSet: int,
    period: int,
    over: bool)

  /** A stored or pushed state on its way into a source. A null entry of set_results is `None`. */
  datatype SavedState = SavedState(
    aOnRight: bool,
    teams: Pair<Team>,
    points: Pair<int>,
    sets: Pair<int>,
    timeouts: Pair<int>,
    subs: Pair<int>,
    serving: Option<Side>,
    endsSwapped: Option<bool>,
    results: seq<Option<PairResult>>,
    servers: Pair<int>,
    served: Option<Pair<bool>>,
    period: int,
    over: bool)

  /** The board's own sources report a = left. */
  function ByTeamA<T>(s: Sided<T>): Pair<T> {
    Pair(s.left, s.right)
  }

  /** A saved pair by physical side, honouring side_a. */
  function BySide<T>(p: Pair<T>, aOnRight: bool): Sided<T> {
    if aOnRight then Sided(p.b, p.a) else Sided(p.a, p.b)
  }

  function FlipPairResults(results: seq<PairResult>): (flipped: seq<PairResult>)
    ensures |flipped| == |results|
    ensures forall i :: 0 <= i < |results| ==> flipped[i] == results[i].Flipped()
  {
    seq(|results|, i requires 0 <= i < |results| => results[i].Flipped())
  }

  /** set_results as a source reports it. */
  function ReportedResults(results: seq<SetResult>): (reported: seq<PairResult>)
    ensures |reported| == |results|
    ensures forall i :: 0 <= i < |results| ==>
              reported[i] == PairResult(ByTeamA(results[i].score), results[i].dur)
  {
    seq(|results|, i requires 0 <= i < |results| => PairResult(ByTeamA(results[i].score), results[i].dur))
  }

  /** A believable playing time, or none. */
  function SetDur(dur: Option<int>): (r: Option<int>)
    ensures r.Some? ==> r == dur && r.value >= 0
  {
    if dur.Some? && dur.value >= 0 then dur else None
  }

  /** set_results as the log and the live row keep it: believable playing times only. */
  function Timed(results: seq<PairResult>): (r: seq<PairResult>)
    ensures |r| == |results|
    ensures forall i :: 0 <= i < |r| ==> r[i] == PairResult(results[i].score, SetDur(results[i].dur))
  {
    seq(|results|, i requires 0 <= i < |results| => PairResult(results[i].score, SetDur(results[i].dur)))
  }

  /** set_results as a source loads it: objects only, by physical side. */
  function LoadedResults(results: seq<Option<PairResult>>, aOnRight: bool): seq<SetResult> {
    if results == [] then []
    else
      var rest := LoadedResults(results[1..], aOnRight);
      match results[0]
      case None => rest
      case Some(r) => [SetResult(BySide(r.score, aOnRight), SetDur(r.dur))] + rest
  }

  /** The same match a moment after the teams changed ends, as the board's own sources report it. */
  function ChangeEnds(s: LiveState): LiveState {
    LiveState(s.aOnRight, s.teams.Flipped(), s.points.Flipped(), s.sets.Flipped(), s.timeouts.Flipped(),
              s.subs.Flipped(), Across(s.serving),
              match s.endsSwapped case None => None case Some(e) => Some(!e),
              FlipPairResults(s.results), s.setsToWin, s.currentSet, s.period, s.over)
  }

  lemma ReportedResultsFlip(results: seq<SetResult>)
    ensures ReportedResults(FlipResults(results)) == FlipPairResults(ReportedResults(results))
  {
    assert forall i :: 0 <= i < |results| ==>
                         FlipResults(results)[i] == results[i].Flipped();
  }
}
