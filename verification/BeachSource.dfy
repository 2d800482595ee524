/** The beach volleyball scoring engine (src/beachSource.js). */
module Beach {
  import opened Basics
  import opened LiveStates
  import opened UndoJournals

  const TARGET_NORMAL := 21
  const TARGET_DECIDING := 15
  const SWITCH_NORMAL := 7
  const SWITCH_DECIDING := 5
  const TECH_TIMEOUT_AT := 21

  /** `servers` is which player (1 or 2) of each pair is up to serve, `served` whether the pair has
      begun a service turn in this set. */
  datatype Model = Model(
    teams: Sided<Team>,
    points: Sided<int>,
    sets: Sided<int>,
    timeouts: Sided<int>,
    serving: Option<Side>,
    endsSwapped: bool,
    servers: Sided<int>,
    served: Sided<bool>,
    setStart: Option<int>)

  datatype Board = Board(m: Model, results: seq<SetResult>, setClosed: bool)

  datatype Action =
    | Point(side: Option<Side>, delta: int, typed: Option<int>)
    | Sets(side: Option<Side>, delta: int, typed: Option<int>)
    | Timeout(side: Option<Side>, delta: int, typed: Option<int>)
    | Serve(side: Option<Side>)
    | ServeOrder(first: Option<Side>, leftServer: Option<int>, rightServer: Option<int>)
    | ServePlayer(side: Option<Side>, typed: Option<int>)
    | Swap
    | TeamEdit(side: Option<Side>, name: Option<string>, short: Option<string>, color: Option<string>)
    | NextSet
    | RemoveSet
    | Reset(keep: Option<Pair<Team>>)
    | SetState(state: Option<SavedState>)
    | Sub(side: Option<Side>, delta: int, typed: Option<int>) // indoor only: this engine does nothing on it
    | Unknown

  datatype Input = Input(action: Action, bestOf: int, now: int)

  datatype Outcome = Outcome(board: Board, event: Event)

  const NEUTRAL: SavedState := SavedState(
    false, Pair(Team("", "A/A", "#2563eb"), Team("", "B/B", "#ef4444")),
    Pair(0, 0), Pair(0, 0), Pair(0, 0), Pair(0, 0),
    Some(Left), Some(false), [], Pair(1, 1), Some(Pair(true, false)), 1, false)

  // ---- The rules --------------------------------------------------------------------------

  function RulesFor(bestOf: int, sets: Sided<int>): Rules {
    FormatRules(bestOf, sets, TARGET_NORMAL, TARGET_DECIDING)
  }

  function BoardRules(b: Board, bestOf: int): Rules {
    RulesFor(bestOf, TallyBefore(b.m.sets, b.results, b.setClosed))
  }

  function Player(v: int): int {
    if v == 2 then 2 else 1
  }

  function OtherPlayer(v: int): int {
    if v == 1 then 2 else 1
  }

  predicate Refuses(b: Board, side: Side) {
    ClosedWinner(b.results, b.setClosed) == Some(side) && LastIs(b.results, b.m.points)
  }

  // ---- One action -------------------------------------------------------------------------

  function FlipModel(m: Model): Model {
    Model(m.teams.Flipped(), m.points.Flipped(), m.sets.Flipped(), m.timeouts.Flipped(),
          Across(m.serving), !m.endsSwapped, m.servers.Flipped(), m.served.Flipped(), m.setStart)
  }

  function SwapEnds(b: Board): Board {
    Board(FlipModel(b.m), FlipResults(b.results), b.setClosed)
  }

  function Adjusted(v: int, delta: int, typed: Option<int>): int {
    if typed.Some? then Clamp0(typed.value) else Clamp0(v + delta)
  }

  function TypedScore(b: Board, side: Side, v: int): Board {
    var points := With(b.m.points, side, Clamp0(v));
    Board(b.m.(points := points), b.results, b.setClosed && HoldsLastResult(points, b.results))
  }

  /** The pair that wins a rally: on a side-out it serves with its other player, unless it has not
      served in this set yet. */
  function ServiceTurn(m: Model, side: Side): Model {
    if m.serving.Some? && m.serving.value != side && m.served.At(side)
    then m.(servers := With(m.servers, side, OtherPlayer(m.servers.At(side))))
    else m.(served := With(m.served, side, true))
  }

  function RallyWon(m: Model, side: Side, q: int, now: int): Model {
    var p, o := m.points.At(side), m.points.At(side.Other());
    var turned := ServiceTurn(m, side);
    turned.(points := With(m.points, side, q),
    serving := Some(side),
    setStart := if p + o == 0 then Some(now) else m.setStart)
  }

  function Credited(m: Model, side: Side, delta: int): Model {
    m.(sets := With(m.sets, side, Clamp0(m.sets.At(side) + delta)))
  }

  function AwardSet(b: Board, side: Side, now: int): Board {
    Board(Credited(b.m, side, 1), b.results + [SetResult(b.m.points, ElapsedSecs(b.m.setStart, now))], true)
  }

  function TakeBackSet(b: Board, side: Side): Board
    requires b.results != []
  {
    Board(Credited(b.m, side, -1), b.results[..|b.results| - 1], false)
  }

  predicate Crossed(total: int, before: int, cadence: int) {
    cadence > 0 && total / cadence > before / cadence
  }

  /** What a rally that won no set raises: the technical timeout, or a change of ends that is due. */
  function CourtEvent(total: int, before: int, deciding: bool): Event {
    if !deciding && before < TECH_TIMEOUT_AT && total >= TECH_TIMEOUT_AT then TechTimeout
    else if Crossed(total, before, if deciding then SWITCH_DECIDING else SWITCH_NORMAL) then SwitchDue
    else NoEvent
  }

  function Rally(b: Board, side: Side, delta: int, q: int, rules: Rules, deciding: bool, now: int): Outcome {
    var p, o := b.m.points.At(side), b.m.points.At(side.Other());
    var rallied := b.(m := RallyWon(b.m, side, q, now));
    if !Won(rules.target, p, o) && Won(rules.target, q, o) && !b.setClosed then
      var awarded := AwardSet(rallied, side, now);
      Outcome(awarded, if awarded.m.sets.At(side) >= rules.toWin then MatchEnd else SetEnd)
    else if !Won(rules.target, q, o) then
      Outcome(rallied, CourtEvent(q + o, q + o - delta, deciding))
    else
      Outcome(rallied, NoEvent)
  }

  function Correction(b: Board, side: Side, q: int, minus: bool, rules: Rules): Board {
    var moved := b.(m := b.m.(points := With(b.m.points, side, q)));
    if minus && !Won(rules.target, q, b.m.points.At(side.Other()))
       && ClosedWinner(b.results, b.setClosed) == Some(side)
    then TakeBackSet(moved, side)
    else moved
  }

  function TapUnder(b: Board, side: Side, delta: int, rules: Rules, deciding: bool, now: int): Outcome {
    var q := Clamp0(b.m.points.At(side) + delta);
    if delta > 0 then Rally(b, side, delta, q, rules, deciding, now)
    else Outcome(Correction(b, side, q, delta < 0, rules), NoEvent)
  }

  function PointStep(b: Board, side: Side, delta: int, typed: Option<int>, bestOf: int, now: int): Outcome {
    if typed == None && delta > 0 && Refuses(b, side) then Outcome(b, SetClosed)
    else if typed.Some? then Outcome(TypedScore(b, side, typed.value), NoEvent)
    else TapUnder(b, side, delta, BoardRules(b, bestOf), RulesFor(bestOf, b.m.sets).deciding, now)
  }

  /** Declares who serves first, and each pair's first server. */
  function ServeOrderStep(m: Model, first: Side, leftServer: Option<int>, rightServer: Option<int>): Model {
    m.(serving := Some(first),
    servers := Sided(if leftServer.Some? then Player(leftServer.value) else m.servers.left,
                     if rightServer.Some? then Player(rightServer.value) else m.servers.right),
    served := Sided(first == Left, first == Right))
  }

  /** Overrides a pair's server: the typed player, or the other one. */
  function ServePlayerStep(m: Model, side: Side, typed: Option<int>): Model {
    var next := if typed.Some? then Player(typed.value) else OtherPlayer(Player(m.servers.At(side)));
    m.(servers := With(m.servers, side, next), served := With(m.served, side, true))
  }

  function Renamed(t: Team, name: Option<string>, short: Option<string>, color: Option<string>): Team {
    Team(name.GetOr(t.name), short.GetOr(t.short), color.GetOr(t.color))
  }

  predicate IntoDeciding(m: Model, bestOf: int) {
    m.sets.left + m.sets.right == (RulesFor(bestOf, m.sets).toWin - 1) * 2
  }

  function NextSetStep(b: Board, bestOf: int): Board {
    var cleared := b.(m := b.m.(points := Sided(0, 0), timeouts := Sided(0, 0)));
    var placed := if IntoDeciding(b.m, bestOf) then cleared else SwapEnds(cleared);
    var m := placed.m;
    Board(m.(served := Sided(m.serving == Some(Left), m.serving == Some(Right)), setStart := None),
          placed.results, false)
  }

  function RemoveSetStep(b: Board): Board {
    if b.results == [] then b.(setClosed := false)
    else
      var s := b.results[|b.results| - 1].score;
      var m :=
        if s.left > s.right then Credited(b.m, Left, -1)
        else if s.right > s.left then Credited(b.m, Right, -1)
        else b.m;
      Board(m, b.results[..|b.results| - 1], false)
  }

  function Loaded(s: SavedState, swappedBefore: bool): Board {
    var points := BySide(s.points, s.aOnRight);
    var results := LoadedResults(s.results, s.aOnRight);
    var servers := BySide(s.servers, s.aOnRight);
    Board(
      Model(BySide(s.teams, s.aOnRight), points, BySide(s.sets, s.aOnRight),
            BySide(s.timeouts, s.aOnRight), s.serving, s.endsSwapped.GetOr(swappedBefore),
            Sided(Player(servers.left), Player(servers.right)),
            if s.served.Some? then BySide(s.served.value, s.aOnRight)
            else Sided(s.serving == Some(Left), s.serving == Some(Right)),
            None),
      results, HoldsLastResult(points, results))
  }

  predicate SameBoard(x: Board, y: Board) {
    && x.m.teams.left.name == y.m.teams.left.name && x.m.teams.right.name == y.m.teams.right.name
    && x.m.points == y.m.points && x.m.sets == y.m.sets
    && |x.results| == |y.results|
    && forall i :: 0 <= i < |x.results| ==> x.results[i].score == y.results[i].score
  }

  function SetStateStep(b: Board, s: SavedState): Board {
    var loaded := Loaded(s, b.m.endsSwapped);
    if b.m.setStart.Some? && SameBoard(b, loaded) then loaded.(m := loaded.m.(setStart := b.m.setStart)) else loaded
  }

  function ResetStep(b: Board, keep: Option<Pair<Team>>): Board {
    Loaded(if keep.Some? then NEUTRAL.(teams := keep.value) else NEUTRAL, b.m.endsSwapped)
  }

  function ModelStep(m: Model, a: Action): Model {
    match a
    case Sets(side, delta, typed) =>
      var s := side.GetOr(Left);
      m.(sets := With(m.sets, s, Adjusted(m.sets.At(s), delta, typed)))
    case Timeout(side, delta, typed) =>
      var s := side.GetOr(Left);
      m.(timeouts := With(m.timeouts, s, Adjusted(m.timeouts.At(s), delta, typed)))
    case Serve(side) => m.(serving := Some(side.GetOr(Left)))
    case ServeOrder(first, leftServer, rightServer) =>
      ServeOrderStep(m, first.GetOr(Left), leftServer, rightServer)
    case ServePlayer(side, typed) =>
      var of := if side.Some? then side else m.serving;
      if of == None then m else ServePlayerStep(m, of.value, typed)
    case TeamEdit(side, name, short, color) =>
      var s := side.GetOr(Left);
      m.(teams := With(m.teams, s, Renamed(m.teams.At(s), name, short, color)))
    case _ => m
  }

  function Step(b: Board, x: Input): Outcome {
    match x.action
    case Point(side, delta, typed) => PointStep(b, side.GetOr(Left), delta, typed, x.bestOf, x.now)
    case Swap => Outcome(SwapEnds(b), NoEvent)
    case NextSet => Outcome(NextSetStep(b, x.bestOf), NoEvent)
    case RemoveSet => Outcome(RemoveSetStep(b), NoEvent)
    case Reset(keep) => Outcome(ResetStep(b, keep), NoEvent)
    case SetState(state) => Outcome(SetStateStep(b, state.GetOr(NEUTRAL)), NoEvent)
    case _ => Outcome(b.(m := ModelStep(b.m, x.action)), NoEvent)
  }

  function StepBoard(b: Board, x: Input): Board {
    Step(b, x).board
  }

  function StateOf(b: Board, bestOf: int): LiveState {
    LiveState(false, ByTeamA(b.m.teams), ByTeamA(b.m.points), ByTeamA(b.m.sets), ByTeamA(b.m.timeouts),
              Pair(0, 0), b.m.serving, Some(b.m.endsSwapped), ReportedResults(b.results),
              Some(RulesFor(bestOf, b.m.sets).toWin), 0, 0, false)
  }

  // ---- The engine -------------------------------------------------------------------------

  class BeachSource {
    var bestOf: int
    var lastEvent: Event
    var lastJournaled: bool
    const journal: UndoJournal<Board>
    var m: Model
    var results: seq<SetResult>
    var setClosed: bool

    ghost predicate Valid()
      reads this, journal
    {
      journal.max == UNDO_MAX && |journal.stack| <= UNDO_MAX
    }

    function Snap(): Board
      reads this
    {
      Board(m, results, setClosed)
    }

    function View(): Engine<Board>
      reads this, journal
    {
      Engine(Snap(), journal.stack)
    }

    constructor (bestOf: Option<int>)
      ensures Valid() && fresh(journal)
      ensures Snap() == Loaded(NEUTRAL, false) && journal.stack == []
      ensures this.bestOf == if bestOf.Some? && bestOf.value != 3 then 5 else 3
    {
      journal := new UndoJournal<Board>(UNDO_MAX);
      this.bestOf := if bestOf.Some? && bestOf.value != 3 then 5 else 3;
      lastEvent, lastJournaled := NoEvent, false;
      m := Loaded(NEUTRAL, false).m;
      new;
      FromLiveState(NEUTRAL);
    }

    method Restore(b: Board)
      modifies this`m, this`results, this`setClosed
      ensures Snap() == b
    {
      m, results, setClosed := b.m, b.results, b.setClosed;
    }

    method SyncClosed()
      modifies this`setClosed
      ensures setClosed == HoldsLastResult(m.points, results)
    {
      setClosed := results != [] && (m.points.left > 0 || m.points.right > 0)
                   && results[|results| - 1].score == m.points;
    }

    method FromLiveState(s: SavedState)
      modifies this`m, this`results, this`setClosed
      ensures Snap() == Loaded(s, old(m.endsSwapped))
    {
      var loaded := LoadedResults(s.results, s.aOnRight);
      var servers := BySide(s.servers, s.aOnRight);
      m := Model(BySide(s.teams, s.aOnRight), BySide(s.points, s.aOnRight), BySide(s.sets, s.aOnRight),
                 BySide(s.timeouts, s.aOnRight), s.serving, s.endsSwapped.GetOr(m.endsSwapped),
                 Sided(Player(servers.left), Player(servers.right)), Sided(false, false), None);
      if s.served.Some? {
        m := m.(served := BySide(s.served.value, s.aOnRight));
      } else {
        m := m.(served := Sided(m.serving == Some(Left), m.serving == Some(Right)));
      }
      results := loaded;
      SyncClosed();
    }

    method SwapResults()
      modifies this`results
      ensures results == FlipResults(old(results))
    {
      ghost var was := results;
      var i := 0;
      while i < |results|
        modifies this`results
        invariant 0 <= i <= |results| == |was|
        invariant forall k :: 0 <= k < i ==> results[k] == was[k].Flipped()
        invariant forall k :: i <= k < |results| ==> results[k] == was[k]
      {
        results := results[i := results[i].Flipped()];
        i := i + 1;
      }
      assert results == FlipResults(was);
    }

    method SwapSides()
      modifies this`m, this`results
      ensures Snap() == SwapEnds(old(Snap()))
    {
      m := m.(teams := m.teams.Flipped(), points := m.points.Flipped(), sets := m.sets.Flipped(),
              timeouts := m.timeouts.Flipped(), servers := m.servers.Flipped(), served := m.served.Flipped());
      if m.serving == Some(Left) {
        m := m.(serving := Some(Right));
      } else if m.serving == Some(Right) {
        m := m.(serving := Some(Left));
      }
      SwapResults();
      m := m.(endsSwapped := !m.endsSwapped);
    }

    method WinRally(side: Side, after: int, now: int)
      modifies this`m
      ensures m == RallyWon(old(m), side, after, now)
    {
      var before, across := m.points.At(side), m.points.At(side.Other());
      var wasServing := m.serving;
      m := m.(points := With(m.points, side, after));
      if wasServing.Some? && wasServing.value != side {
        if m.served.At(side) {
          m := m.(servers := With(m.servers, side, if m.servers.At(side) == 1 then 2 else 1));
        } else {
          m := m.(served := With(m.served, side, true));
        }
      } else {
        m := m.(served := With(m.served, side, true));
      }
      m := m.(serving := Some(side));
      if before + across == 0 {
        m := m.(setStart := Some(now));
      }
    }

    method Award(side: Side, now: int)
      modifies this`m, this`results, this`setClosed
      ensures Snap() == AwardSet(old(Snap()), side, now)
    {
      m := m.(sets := With(m.sets, side, Clamp0(m.sets.At(side) + 1)));
      results := results + [SetResult(m.points, ElapsedSecs(m.setStart, now))];
      setClosed := true;
    }

    method RallyPoint(side: Side, delta: int, now: int)
      requires lastEvent == NoEvent && delta > 0
      modifies this`m, this`results, this`setClosed, this`lastEvent
      ensures Outcome(Snap(), lastEvent) ==
              Rally(old(Snap()), side, delta, Clamp0(old(m.points).At(side) + delta), BoardRules(old(Snap()), bestOf),
                    RulesFor(bestOf, old(m.sets)).deciding, now)
    {
      hide Won, RulesFor, CourtEvent, FlipResults, Clamp0;
      var before, across := m.points.At(side), m.points.At(side.Other());
      var after := Clamp0(before + delta);
      var rules := BoardRules(Snap(), bestOf);
      var deciding := RulesFor(bestOf, m.sets).deciding;
      var wonNow := Won(rules.target, after, across);
      WinRally(side, after, now);
      if !Won(rules.target, before, across) && wonNow && !setClosed {
        Award(side, now);
        lastEvent := if m.sets.At(side) >= rules.toWin then MatchEnd else SetEnd;
      } else if !wonNow {
        var total := m.points.left + m.points.right;
        lastEvent := CourtEvent(total, total - delta, deciding);
      }
    }

    method CorrectPoints(side: Side, delta: int)
      requires delta <= 0
      modifies this`m, this`results, this`setClosed
      ensures Snap() == Correction(old(Snap()), side, Clamp0(old(m.points).At(side) + delta), delta < 0,
                                   BoardRules(old(Snap()), bestOf))
    {
      var after := Clamp0(m.points.At(side) + delta);
      var rules := BoardRules(Snap(), bestOf);
      m := m.(points := With(m.points, side, after));
      if delta < 0 && !Won(rules.target, after, m.points.At(side.Other()))
         && ClosedWinner(results, setClosed) == Some(side) {
        results := results[..|results| - 1];
        m := m.(sets := With(m.sets, side, Clamp0(m.sets.At(side) - 1)));
        setClosed := false;
      }
    }

    method StartNextSet()
      modifies this`m, this`results, this`setClosed
      ensures Snap() == NextSetStep(old(Snap()), bestOf)
    {
      var toWin := RulesFor(bestOf, m.sets).toWin;
      var intoDeciding := m.sets.left + m.sets.right == (toWin - 1) * 2;
      m := m.(points := Sided(0, 0), timeouts := Sided(0, 0));
      if !intoDeciding {
        SwapSides();
      }
      m := m.(served := Sided(m.serving == Some(Left), m.serving == Some(Right)), setStart := None);
      setClosed := false;
    }

    method RemoveLastSet()
      modifies this`m, this`results, this`setClosed
      ensures Snap() == RemoveSetStep(old(Snap()))
    {
      if results != [] {
        var last := results[|results| - 1].score;
        results := results[..|results| - 1];
        if last.left > last.right {
          m := m.(sets := With(m.sets, Left, Clamp0(m.sets.left - 1)));
        } else if last.right > last.left {
          m := m.(sets := With(m.sets, Right, Clamp0(m.sets.right - 1)));
        }
      }
      setClosed := false;
    }

    method Reload(s: SavedState)
      modifies this`m, this`results, this`setClosed
      ensures Snap() == SetStateStep(old(Snap()), s)
    {
      var before := Snap();
      FromLiveState(s);
      if before.m.setStart.Some? && SameBoard(before, Snap()) {
        m := m.(setStart := before.m.setStart);
      }
    }

    method Change(a: Action, now: int) returns (done: bool)
      requires lastEvent == NoEvent
      modifies this`m, this`results, this`setClosed, this`lastEvent
      ensures Outcome(Snap(), lastEvent) == Step(old(Snap()), Input(a, bestOf, now))
      ensures !done ==> Snap() == old(Snap())
    {
      done := true;
      match a
      case Point(s, delta, typed) =>
        var side := s.GetOr(Left);
        if typed == None && delta > 0 && Refuses(Snap(), side) {
          lastEvent := SetClosed;
          done := false;
        } else if typed.Some? {
          m := m.(points := With(m.points, side, Clamp0(typed.value)));
          if setClosed {
            SyncClosed();
          }
        } else if delta > 0 {
          RallyPoint(side, delta, now);
        } else {
          CorrectPoints(side, delta);
        }
      case Swap =>
        SwapSides();
      case NextSet =>
        StartNextSet();
      case RemoveSet =>
        RemoveLastSet();
      case Reset(keep) =>
        FromLiveState(if keep.Some? then NEUTRAL.(teams := keep.value) else NEUTRAL);
      case SetState(state) =>
        Reload(state.GetOr(NEUTRAL));
      case Sub(_, _, _) =>
        done := false;
      case Unknown =>
        done := false;
      case _ =>
        m := ModelStep(m, a);
    }

    method Apply(a: Action, now: int)
      requires Valid()
      modifies this, journal
      ensures Valid() && bestOf == old(bestOf)
      ensures View() == Do(StepBoard, UNDO_MAX, old(View()), Act(Input(a, bestOf, now)))
      ensures lastEvent == Step(old(Snap()), Input(a, bestOf, now)).event
      ensures lastJournaled <==> Snap() != old(Snap())
    {
      lastEvent := NoEvent;
      lastJournaled := false;
      var snap := Snap();
      var done := Change(a, now);
      if done {
        var added := journal.Record(snap, Snap());
        lastJournaled := added;
      }
    }

    method Undo()
      requires Valid()
      modifies this, journal
      ensures Valid() && bestOf == old(bestOf)
      ensures View() == Do<Board, Input>(StepBoard, UNDO_MAX, old(View()), UndoJournals.Undo)
      ensures lastEvent == if old(journal.stack) == [] then UndoEmpty else Undone
      ensures !lastJournaled
    {
      var step := journal.Pop();
      lastJournaled := false;
      if step == None {
        lastEvent := UndoEmpty;
        return;
      }
      Restore(step.value);
      lastEvent := Undone;
    }
  }
}
