/** The indoor volleyball scoring engine (src/manualSource.js). `Step` says what one action does to
    the board; the class `ManualSource` is the engine itself, updating its fields in place. */
module Manual {
  import opened Basics
  import opened LiveStates
  import opened UndoJournals

  const DECIDER_SWITCH_AT := 8

  /** The engine's `m`: every field by physical side, as on the panel. */
  datatype Model = Model(
    teams: Sided<Team>,
    points: Sided<int>,
    sets: Sided<int>,
    timeouts: Sided<int>,
    subs: Sided<int>,
    serving: Option<Side>,
    firstServer: Option<Side>,
    endsSwapped: bool,
    setStart: Option<int>)

  /** The whole mutable state: what the undo journal snapshots. */
  datatype Board = Board(m: Model, results: seq<SetResult>, setClosed: bool)

  /** `side` is None when the action names no side, which the engine reads as the left. */
  datatype Action =
    | Point(side: Option<Side>, delta: int, typed: Option<int>)
    | Sets(side: Option<Side>, delta: int, typed: Option<int>)
    | Timeout(side: Option<Side>, delta: int, typed: Option<int>)
    | Sub(side: Option<Side>, delta: int, typed: Option<int>)
    | Serve(side: Option<Side>)
    | Swap
    | TeamEdit(side: Option<Side>, name: Option<string>, short: Option<string>, color: Option<string>)
    | NextSet
    | RemoveSet
    | Reset(keep: Option<Pair<Team>>)
    | SetState(state: Option<SavedState>)
    | Unknown

  /** An action with what else it depends on: the match format in force and the monotonic clock. */
  datatype Input = Input(action: Action, bestOf: int, now: int)

  datatype Outcome = Outcome(board: Board, event: Event)

  const NEUTRAL: SavedState := SavedState(
    false, Pair(Team("", "HOME", "#2563eb"), Team("", "AWAY", "#ef4444")),
    Pair(0, 0), Pair(0, 0), Pair(0, 0), Pair(0, 0),
    Some(Left), Some(false), [], Pair(1, 1), None, 1, false)

  // ---- The rules --------------------------------------------------------------------------

  function RulesFor(bestOf: int, sets: Sided<int>): Rules {
    FormatRules(bestOf, sets, 25, 15)
  }

  // ---- One action -------------------------------------------------------------------------

  function FlipModel(m: Model): Model {
    Model(m.teams.Flipped(), m.points.Flipped(), m.sets.Flipped(), m.timeouts.Flipped(), m.subs.Flipped(),
          Across(m.serving), Across(m.firstServer), !m.endsSwapped, m.setStart)
  }

  /** Every left/right field exchanged, and with it who serves, who opened the set and who stands
      where they started. */
  function SwapEnds(b: Board): Board {
    Board(FlipModel(b.m), FlipResults(b.results), b.setClosed)
  }

  /** A typed value, or a delta; either way never below 0. */
  function Adjusted(v: int, delta: int, typed: Option<int>): int {
    if typed.Some? then Clamp0(typed.value) else Clamp0(v + delta)
  }

  /** The winner's + on a set that is over, while the board still holds the closing score. */
  predicate Refuses(b: Board, side: Side) {
    ClosedWinner(b.results, b.setClosed) == Some(side) && LastIs(b.results, b.m.points)
  }

  function TypedScore(b: Board, side: Side, v: int): Board {
    var points := With(b.m.points, side, Clamp0(v));
    Board(b.m.(points := points), b.results, b.setClosed && HoldsLastResult(points, b.results))
  }

  /** The board once the rally went to `side`: points, serve, set opener, set clock. */
  function RallyWon(m: Model, side: Side, q: int, now: int): Model {
    var p, o := m.points.At(side), m.points.At(side.Other());
    m.(points := With(m.points, side, q),
    serving := Some(side),
    firstServer := if m.firstServer == None && q + o == 1 then m.serving else m.firstServer,
    setStart := if p + o == 0 then Some(now) else m.setStart)
  }

  function Credited(m: Model, side: Side, delta: int): Model {
    m.(sets := With(m.sets, side, Clamp0(m.sets.At(side) + delta)))
  }

  function AwardSet(b: Board, side: Side, now: int): Board {
    Board(Credited(b.m, side, 1), b.results + [SetResult(b.m.points, ElapsedSecs(b.m.setStart, now))], true)
  }

  function TakeBackSet(b: Board, side: Side): Board
    requires b.results != []
  {
    Board(Credited(b.m, side, -1), b.results[..|b.results| - 1], false)
  }

  function BoardRules(b: Board, bestOf: int): Rules {
    RulesFor(bestOf, TallyBefore(b.m.sets, b.results, b.setClosed))
  }

  /** A rally won: the set is awarded on the tap that first wins it, and only once. */
  function Rally(b: Board, side: Side, q: int, rules: Rules, now: int): Outcome {
    var p, o := b.m.points.At(side), b.m.points.At(side.Other());
    var rallied := b.(m := RallyWon(b.m, side, q, now));
    if !Won(rules.target, p, o) && Won(rules.target, q, o) && !b.setClosed then
      var awarded := AwardSet(rallied, side, now);
      Outcome(awarded, if awarded.m.sets.At(side) >= rules.toWin then MatchEnd else SetEnd)
    else if rules.deciding && p < DECIDER_SWITCH_AT && o < DECIDER_SWITCH_AT && q >= DECIDER_SWITCH_AT then
      Outcome(rallied, SwitchDue)
    else
      Outcome(rallied, NoEvent)
  }

  /** A score walked back (or left alone): below the winning condition the set comes back too. */
  function Correction(b: Board, side: Side, q: int, minus: bool, rules: Rules): Board {
    var moved := b.(m := b.m.(points := With(b.m.points, side, q)));
    if minus && !Won(rules.target, q, b.m.points.At(side.Other()))
       && ClosedWinner(b.results, b.setClosed) == Some(side)
    then TakeBackSet(moved, side)
    else moved
  }

  function TapUnder(b: Board, side: Side, delta: int, rules: Rules, now: int): Outcome {
    var q := Clamp0(b.m.points.At(side) + delta);
    if delta > 0 then Rally(b, side, q, rules, now)
    else Outcome(Correction(b, side, q, delta < 0, rules), NoEvent)
  }

  function Tap(b: Board, side: Side, delta: int, bestOf: int, now: int): Outcome {
    TapUnder(b, side, delta, BoardRules(b, bestOf), now)
  }

  function PointStep(b: Board, side: Side, delta: int, typed: Option<int>, bestOf: int, now: int): Outcome {
    if typed == None && delta > 0 && Refuses(b, side) then Outcome(b, SetClosed)
    else if typed.Some? then Outcome(TypedScore(b, side, typed.value), NoEvent)
    else Tap(b, side, delta, bestOf, now)
  }

  function ServeStep(m: Model, side: Side): Model {
    m.(serving := Some(side),
    firstServer := if m.points == Sided(0, 0) then Some(side) else m.firstServer)
  }

  function Renamed(t: Team, name: Option<string>, short: Option<string>, color: Option<string>): Team {
    Team(name.GetOr(t.name), short.GetOr(t.short), color.GetOr(t.color))
  }

  /** Going into the deciding set the sides and the first serve come from a fresh coin toss. */
  predicate IntoDeciding(m: Model, bestOf: int) {
    m.sets.left + m.sets.right == (RulesFor(bestOf, m.sets).toWin - 1) * 2
  }

  function NextSetStep(b: Board, bestOf: int): Board {
    var cleared := b.m.(points := Sided(0, 0), timeouts := Sided(0, 0), subs := Sided(0, 0));
    var placed :=
      if IntoDeciding(b.m, bestOf) then b.(m := cleared)
      else SwapEnds(b.(m := if cleared.firstServer == None then cleared
                            else cleared.(serving := Across(cleared.firstServer))));
    Board(placed.m.(firstServer := placed.m.serving, setStart := None), placed.results, false)
  }

  function RemoveSetStep(b: Board): Board {
    if b.results == [] then b.(setClosed := false)
    else
      var s := b.results[|b.results| - 1].score;
      var m :=
        if s.left > s.right then Credited(b.m, Left, -1)
        else if s.right > s.left then Credited(b.m, Right, -1)
        else b.m;
      Board(m, b.results[..|b.results| - 1], false)
  }

  function Loaded(s: SavedState, swappedBefore: bool): Board {
    var points := BySide(s.points, s.aOnRight);
    var results := LoadedResults(s.results, s.aOnRight);
    Board(
      Model(BySide(s.teams, s.aOnRight), points, BySide(s.sets, s.aOnRight),
            BySide(s.timeouts, s.aOnRight), BySide(s.subs, s.aOnRight),
            s.serving, if points == Sided(0, 0) then s.serving else None,
            s.endsSwapped.GetOr(swappedBefore), None),
      results, HoldsLastResult(points, results))
  }

  /** The console reloading the very board it holds: the running set keeps its clock. */
  predicate SameBoard(x: Board, y: Board) {
    && x.m.teams.left.name == y.m.teams.left.name && x.m.teams.right.name == y.m.teams.right.name
    && x.m.points == y.m.points && x.m.sets == y.m.sets
    && |x.results| == |y.results|
    && forall i :: 0 <= i < |x.results| ==> x.results[i].score == y.results[i].score
  }

  function SetStateStep(b: Board, s: SavedState): Board {
    var loaded := Loaded(s, b.m.endsSwapped);
    if b.m.setStart.Some? && SameBoard(b, loaded) then loaded.(m := loaded.m.(setStart := b.m.setStart)) else loaded
  }

  function ResetStep(b: Board, keep: Option<Pair<Team>>): Board {
    Loaded(if keep.Some? then NEUTRAL.(teams := keep.value) else NEUTRAL, b.m.endsSwapped)
  }

  /** The actions that touch one field of one side, or nothing but the model. */
  function ModelStep(m: Model, a: Action): Model {
    match a
    case Sets(side, delta, typed) =>
      var s := side.GetOr(Left);
      m.(sets := With(m.sets, s, Adjusted(m.sets.At(s), delta, typed)))
    case Timeout(side, delta, typed) =>
      var s := side.GetOr(Left);
      m.(timeouts := With(m.timeouts, s, Adjusted(m.timeouts.At(s), delta, typed)))
    case Sub(side, delta, typed) =>
      var s := side.GetOr(Left);
      m.(subs := With(m.subs, s, Adjusted(m.subs.At(s), delta, typed)))
    case Serve(side) => ServeStep(m, side.GetOr(Left))
    case TeamEdit(side, name, short, color) =>
      var s := side.GetOr(Left);
      m.(teams := With(m.teams, s, Renamed(m.teams.At(s), name, short, color)))
    case _ => m
  }

  function Step(b: Board, x: Input): Outcome {
    match x.action
    case Point(side, delta, typed) => PointStep(b, side.GetOr(Left), delta, typed, x.bestOf, x.now)
    case Swap => Outcome(SwapEnds(b), NoEvent)
    case NextSet => Outcome(NextSetStep(b, x.bestOf), NoEvent)
    case RemoveSet => Outcome(RemoveSetStep(b), NoEvent)
    case Reset(keep) => Outcome(ResetStep(b, keep), NoEvent)
    case SetState(state) => Outcome(SetStateStep(b, state.GetOr(NEUTRAL)), NoEvent)
    case _ => Outcome(b.(m := ModelStep(b.m, x.action)), NoEvent)
  }

  function StepBoard(b: Board, x: Input): Board {
    Step(b, x).board
  }

  /** getState(): a = left. */
  function StateOf(b: Board, bestOf: int): LiveState {
    LiveState(false, ByTeamA(b.m.teams), ByTeamA(b.m.points), ByTeamA(b.m.sets), ByTeamA(b.m.timeouts),
              ByTeamA(b.m.subs), b.m.serving, Some(b.m.endsSwapped), ReportedResults(b.results),
              Some(FormatRules(bestOf, Sided(0, 0), 25, 15).toWin), 0, 0, false)
  }

  // ---- The engine -------------------------------------------------------------------------

  class ManualSource {
    var bestOf: int
    var lastEvent: Event
    var lastJournaled: bool
    const journal: UndoJournal<Board>
    var m: Model
    var results: seq<SetResult>
    var setClosed: bool

    ghost predicate Valid()
      reads this, journal
    {
      journal.max == UNDO_MAX && |journal.stack| <= UNDO_MAX
    }

    /** The whole model as one value: what the journal stores, and how it tells a change from a no-op. */
    function Snap(): Board
      reads this
    {
      Board(m, results, setClosed)
    }

    function View(): Engine<Board>
      reads this, journal
    {
      Engine(Snap(), journal.stack)
    }

    constructor (bestOf: Option<int>)
      ensures Valid() && fresh(journal)
      ensures Snap() == Loaded(NEUTRAL, false) && journal.stack == []
      ensures this.bestOf == if bestOf == Some(3) then 3 else 5
    {
      journal := new UndoJournal<Board>(UNDO_MAX);
      this.bestOf := if bestOf.Some? && bestOf.value == 3 then 3 else 5;
      lastEvent, lastJournaled := NoEvent, false;
      m := Loaded(NEUTRAL, false).m;
      new;
      FromLiveState(NEUTRAL);
    }

    method SetFormat(bestOf: Option<int>)
      modifies this`bestOf
      ensures this.bestOf == if bestOf == None then old(this.bestOf) else if bestOf == Some(3) then 3 else 5
    {
      if bestOf.Some? {
        this.bestOf := if bestOf.value == 3 then 3 else 5;
      }
    }

    method Restore(b: Board)
      modifies this`m, this`results, this`setClosed
      ensures Snap() == b
    {
      m, results, setClosed := b.m, b.results, b.setClosed;
    }

    method SyncClosed()
      modifies this`setClosed
      ensures setClosed == HoldsLastResult(m.points, results)
    {
      setClosed := results != [] && (m.points.left > 0 || m.points.right > 0)
                   && results[|results| - 1].score == m.points;
    }

    method FromLiveState(s: SavedState)
      modifies this`m, this`results, this`setClosed
      ensures Snap() == Loaded(s, old(m.endsSwapped))
    {
      var loaded := LoadedResults(s.results, s.aOnRight);
      m := Model(BySide(s.teams, s.aOnRight), BySide(s.points, s.aOnRight), BySide(s.sets, s.aOnRight),
                 BySide(s.timeouts, s.aOnRight), BySide(s.subs, s.aOnRight), s.serving, None,
                 s.endsSwapped.GetOr(m.endsSwapped), None);
      results := loaded;
      SyncClosed();
      m := m.(firstServer := if m.points.left == 0 && m.points.right == 0 then m.serving else None);
    }

    method SwapResults()
      modifies this`results
      ensures results == FlipResults(old(results))
    {
      ghost var was := results;
      var i := 0;
      while i < |results|
        modifies this`results
        invariant 0 <= i <= |results| == |was|
        invariant forall k :: 0 <= k < i ==> results[k] == was[k].Flipped()
        invariant forall k :: i <= k < |results| ==> results[k] == was[k]
      {
        results := results[i := results[i].Flipped()];
        i := i + 1;
      }
      assert results == FlipResults(was);
    }

    method SwapSides()
      modifies this`m, this`results
      ensures Snap() == SwapEnds(old(Snap()))
    {
      m := m.(teams := m.teams.Flipped(), points := m.points.Flipped(), sets := m.sets.Flipped(),
              timeouts := m.timeouts.Flipped(), subs := m.subs.Flipped());
      if m.serving == Some(Left) {
        m := m.(serving := Some(Right));
      } else if m.serving == Some(Right) {
        m := m.(serving := Some(Left));
      }
      if m.firstServer == Some(Left) {
        m := m.(firstServer := Some(Right));
      } else if m.firstServer == Some(Right) {
        m := m.(firstServer := Some(Left));
      }
      SwapResults();
      m := m.(endsSwapped := !m.endsSwapped);
    }

    /** The side that wins the rally scores, serves next, and may open the set or start its clock. */
    method WinRally(side: Side, after: int, now: int)
      modifies this`m
      ensures m == RallyWon(old(m), side, after, now)
      ensures m.points == With(old(m.points), side, after) && m.serving == Some(side)
    {
      var before, across := m.points.At(side), m.points.At(side.Other());
      var wasServing := m.serving;
      m := m.(points := With(m.points, side, after));
      m := m.(serving := Some(side));
      if m.firstServer == None && m.points.left + m.points.right == 1 {
        m := m.(firstServer := wasServing);
      }
      if before + across == 0 {
        m := m.(setStart := Some(now));
      }
    }

    method Award(side: Side, now: int)
      modifies this`m, this`results, this`setClosed
      ensures Snap() == AwardSet(old(Snap()), side, now)
    {
      m := m.(sets := With(m.sets, side, Clamp0(m.sets.At(side) + 1)));
      results := results + [SetResult(m.points, ElapsedSecs(m.setStart, now))];
      setClosed := true;
    }

    /** The rally rules: a delta on one side's points. */
    method TapPoints(side: Side, delta: int, now: int)
      requires lastEvent == NoEvent
      modifies this`m, this`results, this`setClosed, this`lastEvent
      ensures Outcome(Snap(), lastEvent) == Tap(old(Snap()), side, delta, bestOf, now)
    {
      var before, across := m.points.At(side), m.points.At(side.Other());
      var after := Clamp0(before + delta);
      var rules := BoardRules(Snap(), bestOf);
      var wonBefore := Won(rules.target, before, across);
      var wonNow := Won(rules.target, after, across);
      if delta > 0 {
        WinRally(side, after, now);
        if !wonBefore && wonNow && !setClosed {
          Award(side, now);
          lastEvent := if m.sets.At(side) >= rules.toWin then MatchEnd else SetEnd;
        } else if rules.deciding && before < DECIDER_SWITCH_AT && across < DECIDER_SWITCH_AT
                  && after >= DECIDER_SWITCH_AT {
          lastEvent := SwitchDue;
        }
      } else {
        m := m.(points := With(m.points, side, after));
        if delta < 0 && !wonNow && ClosedWinner(results, setClosed) == Some(side) {
          results := results[..|results| - 1];
          m := m.(sets := With(m.sets, side, Clamp0(m.sets.At(side) - 1)));
          setClosed := false;
        }
      }
    }

    method StartNextSet()
      modifies this`m, this`results, this`setClosed
      ensures Snap() == NextSetStep(old(Snap()), bestOf)
    {
      var toWin := RulesFor(bestOf, m.sets).toWin;
      var intoDeciding := m.sets.left + m.sets.right == (toWin - 1) * 2;
      m := m.(points := Sided(0, 0), timeouts := Sided(0, 0), subs := Sided(0, 0));
      if m.firstServer.Some? && !intoDeciding {
        m := m.(serving := Some(m.firstServer.value.Other()));
      }
      if !intoDeciding {
        SwapSides();
      }
      m := m.(firstServer := m.serving, setStart := None);
      setClosed := false;
    }

    method RemoveLastSet()
      modifies this`m, this`results, this`setClosed
      ensures Snap() == RemoveSetStep(old(Snap()))
    {
      if results != [] {
        var last := results[|results| - 1].score;
        results := results[..|results| - 1];
        if last.left > last.right {
          m := m.(sets := With(m.sets, Left, Clamp0(m.sets.left - 1)));
        } else if last.right > last.left {
          m := m.(sets := With(m.sets, Right, Clamp0(m.sets.right - 1)));
        }
      }
      setClosed := false;
    }

    method Reload(s: SavedState)
      modifies this`m, this`results, this`setClosed
      ensures Snap() == SetStateStep(old(Snap()), s)
    {
      var before := Snap();
      FromLiveState(s);
      if before.m.setStart.Some? && SameBoard(before, Snap()) {
        m := m.(setStart := before.m.setStart);
      }
    }

    /** The effect of an action on the fields; `done` is false when the action is unknown or refused. */
    method Change(a: Action, now: int) returns (done: bool)
      requires lastEvent == NoEvent
      modifies this`m, this`results, this`setClosed, this`lastEvent
      ensures Outcome(Snap(), lastEvent) == Step(old(Snap()), Input(a, bestOf, now))
      ensures !done ==> Snap() == old(Snap())
    {
      done := true;
      match a
      case Point(s, delta, typed) =>
        var side := s.GetOr(Left);
        if typed == None && delta > 0 && Refuses(Snap(), side) {
          lastEvent := SetClosed;
          done := false;
        } else if typed.Some? {
          m := m.(points := With(m.points, side, Clamp0(typed.value)));
          if setClosed {
            SyncClosed();
          }
        } else {
          TapPoints(side, delta, now);
        }
      case Swap =>
        SwapSides();
      case NextSet =>
        StartNextSet();
      case RemoveSet =>
        RemoveLastSet();
      case Reset(keep) =>
        FromLiveState(if keep.Some? then NEUTRAL.(teams := keep.value) else NEUTRAL);
      case SetState(state) =>
        Reload(state.GetOr(NEUTRAL));
      case Unknown =>
        done := false;
      case _ =>
        m := ModelStep(m, a);
    }

    /** One action: the board, the event and the undo journal. An earlier snapshot is a value, so
        nothing the engine does to its fields afterwards can reach it. */
    method Apply(a: Action, now: int)
      requires Valid()
      modifies this, journal
      ensures Valid() && bestOf == old(bestOf)
      ensures View() == Do(StepBoard, UNDO_MAX, old(View()), Act(Input(a, bestOf, now)))
      ensures lastEvent == Step(old(Snap()), Input(a, bestOf, now)).event
      ensures lastJournaled <==> Snap() != old(Snap())
    {
      lastEvent := NoEvent;
      lastJournaled := false;
      var snap := Snap();
      var done := Change(a, now);
      if done {
        var added := journal.Record(snap, Snap());
        lastJournaled := added;
      }
    }

    method Undo()
      requires Valid()
      modifies this, journal
      ensures Valid() && bestOf == old(bestOf)
      ensures View() == Do<Board, Input>(StepBoard, UNDO_MAX, old(View()), UndoJournals.Undo)
      ensures lastEvent == if old(journal.stack) == [] then UndoEmpty else Undone
      ensures !lastJournaled
    {
      var step := journal.Pop();
      lastJournaled := false;
      if step == None {
        lastEvent := UndoEmpty;
        return;
      }
      Restore(step.value);
      lastEvent := Undone;
    }

    method ClearUndo()
      requires Valid()
      modifies journal
      ensures Valid() && journal.stack == []
    {
      journal.Clear();
    }
  }
}
