/** The basketball scoring engine (src/basketballSource.js): a running score, periods that end on the
    operator's word, team fouls per quarter. */
module Basketball {
  import opened Basics
  import opened LiveStates
  import opened UndoJournals

  const QUARTERS := 4
  const BONUS_AT := 5

  datatype Model = Model(
    teams: Sided<Team>,
    points: Sided<int>,
    fouls: Sided<int>,
    timeouts: Sided<int>,
    period: int,
    over: bool,
    serving: Option<Side>, // the possession arrow
    endsSwapped: bool)

  /** `results` is the line score: the running score at the end of each period. */
  datatype Board = Board(m: Model, results: seq<SetResult>)

  /** `Foul` is the action type `sub`, `Period` the type `set`, `EndPeriod` `next-set` and
      `RemovePeriod` `remove-set`. */
  datatype Action =
    | Point(side: Option<Side>, delta: int, typed: Option<int>)
    | Foul(side: Option<Side>, delta: int, typed: Option<int>)
    | Timeout(side: Option<Side>, delta: int, typed: Option<int>)
    | Period(delta: int, typed: Option<int>)
    | Serve(side: Option<Side>)
    | Swap
    | TeamEdit(side: Option<Side>, name: Option<string>, short: Option<string>, color: Option<string>)
    | EndPeriod
    | RemovePeriod
    | Reset(keep: Option<Pair<Team>>)
    | SetState(state: Option<SavedState>)
    | Unknown

  datatype Outcome = Outcome(board: Board, event: Event)

  const NEUTRAL: SavedState := SavedState(
    false, Pair(Team("", "HOME", "#2563eb"), Team("", "GUEST", "#ef4444")),
    Pair(0, 0), Pair(0, 0), Pair(0, 0), Pair(0, 0),
    None, Some(false), [], Pair(1, 1), None, 1, false)

  /** A + for the winner of a game that is over. */
  predicate Refuses(m: Model, side: Side) {
    m.over && WinnerOf(m.points) == Some(side)
  }

  function FlipModel(m: Model): Model {
    Model(m.teams.Flipped(), m.points.Flipped(), m.fouls.Flipped(), m.timeouts.Flipped(),
          m.period, m.over, Across(m.serving), !m.endsSwapped)
  }

  function SwapEnds(b: Board): Board {
    Board(FlipModel(b.m), FlipResults(b.results))
  }

  function Adjusted(v: int, delta: int, typed: Option<int>): int {
    if typed.Some? then Clamp0(typed.value) else Clamp0(v + delta)
  }

  function PointStep(b: Board, side: Side, delta: int, typed: Option<int>): Outcome {
    if Refuses(b.m, side) && typed == None && delta > 0 then Outcome(b, SetClosed)
    else Outcome(b.(m := b.m.(points := With(b.m.points, side, Adjusted(b.m.points.At(side), delta, typed)))), NoEvent)
  }

  function FoulStep(b: Board, side: Side, delta: int, typed: Option<int>): Outcome {
    var before := b.m.fouls.At(side);
    var after := Adjusted(before, delta, typed);
    Outcome(b.(m := b.m.(fouls := With(b.m.fouls, side, after))),
            if typed == None && delta > 0 && before < BONUS_AT && after >= BONUS_AT then Bonus else NoEvent)
  }

  function EndPeriodStep(b: Board): Outcome {
    if b.m.over then Outcome(b, NoEvent)
    else
      var results := b.results + [SetResult(b.m.points, None)];
      if b.m.period < QUARTERS then
        Outcome(Board(b.m.(period := b.m.period + 1, fouls := Sided(0, 0)), results), PeriodEnd)
      else if b.m.points.left == b.m.points.right then
        Outcome(Board(b.m.(period := b.m.period + 1), results), PeriodEnd)
      else
        Outcome(Board(b.m.(over := true), results), GameEnd)
  }

  function RemovePeriodStep(b: Board): Board {
    var back := if b.results != [] && !b.m.over then Max(1, b.m.period - 1) else b.m.period;
    Board(b.m.(period := back, over := false), if b.results == [] then [] else b.results[..|b.results| - 1])
  }

  function WithoutDurs(results: seq<SetResult>): (r: seq<SetResult>)
    ensures |r| == |results|
    ensures forall i :: 0 <= i < |r| ==> r[i] == SetResult(results[i].score, None)
  {
    seq(|results|, i requires 0 <= i < |results| => SetResult(results[i].score, None))
  }

  function Loaded(s: SavedState, swappedBefore: bool): Board {
    Board(
      Model(BySide(s.teams, s.aOnRight), BySide(s.points, s.aOnRight), BySide(s.subs, s.aOnRight),
            BySide(s.timeouts, s.aOnRight), Max(1, if s.period == 0 then 1 else s.period), s.over,
            s.serving, s.endsSwapped.GetOr(swappedBefore)),
      WithoutDurs(LoadedResults(s.results, s.aOnRight)))
  }

  function ModelStep(m: Model, a: Action): Model {
    match a
    case Timeout(side, delta, typed) =>
      var s := side.GetOr(Left);
      m.(timeouts := With(m.timeouts, s, Adjusted(m.timeouts.At(s), delta, typed)))
    case Period(delta, typed) =>
      m.(period := if typed.Some? then Max(1, if typed.value == 0 then 1 else typed.value)
                   else Max(1, m.period + delta),
      over := false)
    case Serve(side) => m.(serving := Some(side.GetOr(Left)))
    case TeamEdit(side, name, short, color) =>
      var s := side.GetOr(Left);
      var t := m.teams.At(s);
      m.(teams := With(m.teams, s, Team(name.GetOr(t.name), short.GetOr(t.short), color.GetOr(t.color))))
    case _ => m
  }

  function Step(b: Board, a: Action): Outcome {
    match a
    case Point(side, delta, typed) => PointStep(b, side.GetOr(Left), delta, typed)
    case Foul(side, delta, typed) => FoulStep(b, side.GetOr(Left), delta, typed)
    case Swap => Outcome(SwapEnds(b), NoEvent)
    case EndPeriod => EndPeriodStep(b)
    case RemovePeriod => Outcome(RemovePeriodStep(b), NoEvent)
    case Reset(keep) =>
      Outcome(Loaded(if keep.Some? then NEUTRAL.(teams := keep.value) else NEUTRAL, b.m.endsSwapped), NoEvent)
    case SetState(state) => Outcome(Loaded(state.GetOr(NEUTRAL), b.m.endsSwapped), NoEvent)
    case _ => Outcome(b.(m := ModelStep(b.m, a)), NoEvent)
  }

  function StepBoard(b: Board, a: Action): Board {
    Step(b, a).board
  }

  /** getState(): fouls travel as subs, and there is no set tally. */
  function StateOf(b: Board): LiveState {
    LiveState(false, ByTeamA(b.m.teams), ByTeamA(b.m.points), Pair(0, 0), ByTeamA(b.m.timeouts),
              ByTeamA(b.m.fouls), b.m.serving, Some(b.m.endsSwapped), ReportedResults(b.results),
              None, 0, b.m.period, b.m.over)
  }

  // ---- The engine -------------------------------------------------------------------------

  class BasketballSource {
    var lastEvent: Event
    var lastJournaled: bool
    const journal: UndoJournal<Board>
    var m: Model
    var results: seq<SetResult>

    ghost predicate Valid()
      reads this, journal
    {
      journal.max == UNDO_MAX && |journal.stack| <= UNDO_MAX
    }

    function Snap(): Board
      reads this
    {
      Board(m, results)
    }

    function View(): Engine<Board>
      reads this, journal
    {
      Engine(Snap(), journal.stack)
    }

    constructor ()
      ensures Valid() && fresh(journal)
      ensures Snap() == Loaded(NEUTRAL, false) && journal.stack == []
    {
      journal := new UndoJournal<Board>(UNDO_MAX);
      lastEvent, lastJournaled := NoEvent, false;
      m, results := Loaded(NEUTRAL, false).m, [];
      new;
      FromLiveState(NEUTRAL);
    }

    method FromLiveState(s: SavedState)
      modifies this`m, this`results
      ensures Snap() == Loaded(s, old(m.endsSwapped))
    {
      results := WithoutDurs(LoadedResults(s.results, s.aOnRight));
      m := Model(BySide(s.teams, s.aOnRight), BySide(s.points, s.aOnRight), BySide(s.subs, s.aOnRight),
                 BySide(s.timeouts, s.aOnRight), Max(1, if s.period == 0 then 1 else s.period), s.over,
                 s.serving, s.endsSwapped.GetOr(m.endsSwapped));
    }

    method SwapSides()
      modifies this`m, this`results
      ensures Snap() == SwapEnds(old(Snap()))
    {
      m := m.(teams := m.teams.Flipped(), points := m.points.Flipped(), fouls := m.fouls.Flipped(),
              timeouts := m.timeouts.Flipped());
      if m.serving == Some(Left) {
        m := m.(serving := Some(Right));
      } else if m.serving == Some(Right) {
        m := m.(serving := Some(Left));
      }
      ghost var was := results;
      var i := 0;
      while i < |results|
        modifies this`results
        invariant 0 <= i <= |results| == |was|
        invariant forall k :: 0 <= k < i ==> results[k] == was[k].Flipped()
        invariant forall k :: i <= k < |results| ==> results[k] == was[k]
      {
        results := results[i := results[i].Flipped()];
        i := i + 1;
      }
      assert results == FlipResults(was);
      m := m.(endsSwapped := !m.endsSwapped);
    }

    method FinishPeriod()
      requires lastEvent == NoEvent
      modifies this`m, this`results, this`lastEvent
      ensures Outcome(Snap(), lastEvent) == EndPeriodStep(old(Snap()))
    {
      if m.over {
        return;
      }
      results := results + [SetResult(m.points, None)];
      if m.period < QUARTERS {
        m := m.(period := m.period + 1);
        m := m.(fouls := Sided(0, 0));
        lastEvent := PeriodEnd;
      } else if m.points.left == m.points.right {
        m := m.(period := m.period + 1);
        lastEvent := PeriodEnd;
      } else {
        m := m.(over := true);
        lastEvent := GameEnd;
      }
    }

    method RemoveLastPeriod()
      modifies this`m, this`results
      ensures Snap() == RemovePeriodStep(old(Snap()))
    {
      var wasOver := m.over;
      if results != [] {
        results := results[..|results| - 1];
        if !wasOver {
          m := m.(period := Max(1, m.period - 1));
        }
      }
      m := m.(over := false);
    }

    method Change(a: Action) returns (done: bool)
      requires lastEvent == NoEvent
      modifies this`m, this`results, this`lastEvent
      ensures Outcome(Snap(), lastEvent) == Step(old(Snap()), a)
      ensures !done ==> Snap() == old(Snap())
    {
      done := true;
      match a
      case Point(s, delta, typed) =>
        var side := s.GetOr(Left);
        if Refuses(m, side) && typed == None && delta > 0 {
          lastEvent := SetClosed;
          done := false;
        } else {
          m := m.(points := With(m.points, side, Adjusted(m.points.At(side), delta, typed)));
        }
      case Foul(s, delta, typed) =>
        var side := s.GetOr(Left);
        var before := m.fouls.At(side);
        m := m.(fouls := With(m.fouls, side, Adjusted(before, delta, typed)));
        if typed == None && delta > 0 && before < BONUS_AT && m.fouls.At(side) >= BONUS_AT {
          lastEvent := Bonus;
        }
      case Swap =>
        SwapSides();
      case EndPeriod =>
        FinishPeriod();
      case RemovePeriod =>
        RemoveLastPeriod();
      case Reset(keep) =>
        FromLiveState(if keep.Some? then NEUTRAL.(teams := keep.value) else NEUTRAL);
      case SetState(state) =>
        FromLiveState(state.GetOr(NEUTRAL));
      case Unknown =>
        done := false;
      case _ =>
        m := ModelStep(m, a);
    }

    method Apply(a: Action)
      requires Valid()
      modifies this, journal
      ensures Valid()
      ensures View() == Do(StepBoard, UNDO_MAX, old(View()), Act(a))
      ensures lastEvent == Step(old(Snap()), a).event
      ensures lastJournaled <==> Snap() != old(Snap())
    {
      lastEvent := NoEvent;
      lastJournaled := false;
      var snap := Snap();
      var done := Change(a);
      if done {
        var added := journal.Record(snap, Snap());
        lastJournaled := added;
      }
    }

    method Undo()
      requires Valid()
      modifies this, journal
      ensures Valid()
      ensures View() == Do<Board, Action>(StepBoard, UNDO_MAX, old(View()), UndoJournals.Undo)
      ensures lastEvent == if old(journal.stack) == [] then UndoEmpty else Undone
      ensures !lastJournaled
    {
      var step := journal.Pop();
      lastJournaled := false;
      if step == None {
        lastEvent := UndoEmpty;
        return;
      }
      m, results := step.value.m, step.value.results;
      lastEvent := Undone;
    }
  }

  // ---- The line score ------------------------------------------------------------------------

  /** The periods on record are the ones played: all before the current one, and the current one too
      once the game is over. */
  predicate LineScore(b: Board) {
    b.m.period >= 1 && |b.results| == b.m.period - 1 + if b.m.over then 1 else 0
  }

  /** Everything but typing the period or loading a board. */
  predicate PlaysOrCorrects(a: Action) {
    !a.Period? && !a.SetState?
  }

  /** Through any mix of end-period, remove-period, swap, reset and undo from a board with a line
      score - a fresh one, say. */
  lemma {:induction false} LineScoreCountsPeriods(e: Engine<Board>, cmds: seq<Cmd<Action>>)
    requires HoldsThroughout(LineScore, e) && AllAllowed(PlaysOrCorrects, cmds)
    ensures HoldsThroughout(LineScore, Run(StepBoard, UNDO_MAX, e, cmds))
  {
    RunKeepsInvariant(StepBoard, UNDO_MAX, LineScore, PlaysOrCorrects, e, cmds);
  }

  lemma FreshBoardHasLineScore(endsSwapped: bool)
    ensures LineScore(Loaded(NEUTRAL, endsSwapped))
  {
  }

  /** Ending a period: entering overtime leaves the team fouls unchanged, every new quarter zeroes
      them, and the game is over exactly when a side leads after the fourth quarter or later. */
  lemma FoulsAtThePeriodBreak(b: Board)
    requires !b.m.over
    ensures var t := EndPeriodStep(b);
            && (t.event == PeriodEnd <==> t.board.m.period == b.m.period + 1)
            && (t.event == GameEnd <==> t.board.m.over)
            && (t.board.m.over <==> b.m.period >= QUARTERS && WinnerOf(b.m.points) != None)
            && (t.board.m.period > QUARTERS ==> t.board.m.fouls == b.m.fouls)
            && (t.event == PeriodEnd && t.board.m.period <= QUARTERS ==> t.board.m.fouls == Sided(0, 0))
            && t.board.m.points == b.m.points
  {
  }

  /** Removing the period just ended takes its end back, fouls aside - and a game end as well. */
  lemma RemoveUndoesEnd(b: Board)
    requires LineScore(b) && !b.m.over
    ensures var back := RemovePeriodStep(EndPeriodStep(b).board);
            back.results == b.results && back.m.(fouls := b.m.fouls) == b.m
  {
    var ended := EndPeriodStep(b).board;
    assert ended.results[..|ended.results| - 1] == b.results;
  }

  lemma ReportsChangeOfEnds(b: Board)
    ensures StateOf(SwapEnds(b)) == ChangeEnds(StateOf(b))
  {
    ReportedResultsFlip(b.results);
  }
}
