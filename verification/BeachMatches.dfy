/** Whole beach matches: no side bias, the tally, the servers, the changes of court. */
module BeachMatches {
  import opened Basics
  import opened LiveStates
  import opened UndoJournals
  import opened SetTally
  import opened Beach

  // ---- No left/right bias -----------------------------------------------------------------

  function Mirror(a: Action): Action {
    match a
    case Point(side, delta, typed) => Point(Across(side), delta, typed)
    case Sets(side, delta, typed) => Sets(Across(side), delta, typed)
    case Timeout(side, delta, typed) => Timeout(Across(side), delta, typed)
    case Sub(side, delta, typed) => Sub(Across(side), delta, typed)
    case Serve(side) => Serve(Across(side))
    case ServeOrder(first, leftServer, rightServer) => ServeOrder(Across(first), rightServer, leftServer)
    case ServePlayer(side, typed) => ServePlayer(Across(side), typed)
    case TeamEdit(side, name, short, color) => TeamEdit(Across(side), name, short, color)
    case _ => a
  }

  /** `ServePlayer` may leave its side out: it then means the serving pair, wherever that stands. */
  predicate NamesItsSide(a: Action) {
    match a
    case Point(side, _, _) => side.Some?
    case Sets(side, _, _) => side.Some?
    case Timeout(side, _, _) => side.Some?
    case Sub(side, _, _) => side.Some?
    case Serve(side) => side.Some?
    case ServeOrder(first, _, _) => first.Some?
    case TeamEdit(side, _, _, _) => side.Some?
    case Reset(_) => false
    case SetState(_) => false
    case _ => true
  }

  predicate Unbiased(b: Board, x: Input) {
    var here := Step(b, x);
    var there := Step(SwapEnds(b), x.(action := Mirror(x.action)));
    there == Outcome(SwapEnds(here.board), here.event)
  }

  predicate LastDecided(b: Board) {
    b.setClosed && b.results != [] ==> WinnerOf(b.results[|b.results| - 1].score) != None
  }

  lemma SwapTwice(b: Board)
    ensures SwapEnds(SwapEnds(b)) == b
  {
    FlipResultsTwice(b.results);
  }

  lemma WinnerAcross(b: Board)
    ensures ClosedWinner(FlipResults(b.results), b.setClosed) == Across(ClosedWinner(b.results, b.setClosed))
  {
  }

  lemma RulesAcross(b: Board, bestOf: int)
    requires LastDecided(b)
    ensures BoardRules(SwapEnds(b), bestOf) == BoardRules(b, bestOf)
  {
  }

  lemma RallyWonAcross(m: Model, side: Side, q: int, now: int)
    ensures RallyWon(FlipModel(m), side.Other(), q, now) == FlipModel(RallyWon(m, side, q, now))
  {
    assert ServiceTurn(FlipModel(m), side.Other()) == FlipModel(ServiceTurn(m, side));
  }

  lemma CreditAcross(m: Model, side: Side, delta: int)
    ensures Credited(FlipModel(m), side.Other(), delta) == FlipModel(Credited(m, side, delta))
  {
  }

  lemma AwardAcross(b: Board, side: Side, now: int)
    ensures AwardSet(SwapEnds(b), side.Other(), now) == SwapEnds(AwardSet(b, side, now))
  {
    CreditAcross(b.m, side, 1);
    FlipAppend(b.results, SetResult(b.m.points, ElapsedSecs(b.m.setStart, now)));
  }

  lemma TakeBackAcross(b: Board, side: Side)
    requires b.results != []
    ensures TakeBackSet(SwapEnds(b), side.Other()) == SwapEnds(TakeBackSet(b, side))
  {
    CreditAcross(b.m, side, -1);
    FlipDropLast(b.results);
  }

  lemma RallyAcross(b: Board, side: Side, delta: int, q: int, rules: Rules, deciding: bool, now: int)
    ensures var t := Rally(b, side, delta, q, rules, deciding, now);
            Rally(SwapEnds(b), side.Other(), delta, q, rules, deciding, now) == Outcome(SwapEnds(t.board), t.event)
  {
    var rallied := b.(m := RallyWon(b.m, side, q, now));
    RallyWonAcross(b.m, side, q, now);
    assert SwapEnds(rallied) == SwapEnds(b).(m := RallyWon(FlipModel(b.m), side.Other(), q, now));
    AwardAcross(rallied, side, now);
  }

  lemma CorrectionAcross(b: Board, side: Side, q: int, minus: bool, rules: Rules)
    ensures Correction(SwapEnds(b), side.Other(), q, minus, rules) == SwapEnds(Correction(b, side, q, minus, rules))
  {
    WinnerAcross(b);
    var moved := b.(m := b.m.(points := With(b.m.points, side, q)));
    assert SwapEnds(moved) == SwapEnds(b).(m := FlipModel(b.m).(points := With(b.m.points.Flipped(), side.Other(), q)));
    if b.results != [] {
      TakeBackAcross(moved, side);
    }
  }

  lemma TapAcross(b: Board, side: Side, delta: int, rules: Rules, deciding: bool, now: int)
    ensures var t := TapUnder(b, side, delta, rules, deciding, now);
            TapUnder(SwapEnds(b), side.Other(), delta, rules, deciding, now) == Outcome(SwapEnds(t.board), t.event)
  {
    var q := Clamp0(b.m.points.At(side) + delta);
    if delta > 0 {
      RallyAcross(b, side, delta, q, rules, deciding, now);
    } else {
      CorrectionAcross(b, side, q, delta < 0, rules);
    }
  }

  lemma PointAcross(b: Board, side: Side, delta: int, typed: Option<int>, bestOf: int, now: int)
    requires LastDecided(b)
    ensures var t := PointStep(b, side, delta, typed, bestOf, now);
            PointStep(SwapEnds(b), side.Other(), delta, typed, bestOf, now) == Outcome(SwapEnds(t.board), t.event)
  {
    WinnerAcross(b);
    assert Refuses(SwapEnds(b), side.Other()) == Refuses(b, side);
    if typed == None {
      RulesAcross(b, bestOf);
      TapAcross(b, side, delta, BoardRules(b, bestOf), RulesFor(bestOf, b.m.sets).deciding, now);
    }
  }

  lemma NextSetAcross(b: Board, bestOf: int)
    ensures NextSetStep(SwapEnds(b), bestOf) == SwapEnds(NextSetStep(b, bestOf))
  {
    FlipResultsTwice(b.results);
  }

  lemma RemoveSetAcross(b: Board)
    ensures RemoveSetStep(SwapEnds(b)) == SwapEnds(RemoveSetStep(b))
  {
    if b.results != [] {
      FlipDropLast(b.results);
      CreditAcross(b.m, Left, -1);
      CreditAcross(b.m, Right, -1);
    }
  }

  lemma ModelActionAcross(m: Model, a: Action)
    requires NamesItsSide(a)
    ensures ModelStep(FlipModel(m), Mirror(a)) == FlipModel(ModelStep(m, a))
  {
  }

  /** The beach engine has no left/right bias: an action taken from the other end of the court - the
      serve order and the pairs' players included - changes the same things for the same pair and
      raises the same event, in every state whose closed set was won by somebody. */
  lemma NoSideBias(b: Board, x: Input)
    requires NamesItsSide(x.action) && LastDecided(b)
    ensures Unbiased(b, x)
  {
    match x.action {
      case Point(side, delta, typed) => PointAcross(b, side.value, delta, typed, x.bestOf, x.now);
      case NextSet => NextSetAcross(b, x.bestOf);
      case RemoveSet => RemoveSetAcross(b);
      case _ => ModelActionAcross(b.m, x.action);
    }
  }

  lemma JournaledAlike(b: Board, x: Input)
    requires NamesItsSide(x.action) && LastDecided(b)
    ensures var y := x.(action := Mirror(x.action));
            StepBoard(SwapEnds(b), y) != SwapEnds(b) <==> StepBoard(b, x) != b
  {
    NoSideBias(b, x);
    SwapTwice(b);
    SwapTwice(StepBoard(b, x));
  }

  /** Reading the tie's set by the other target, a rally can raise a court change here that it does not
      raise there: a pair below 20 points taken to 20, the other pair at 18 or less. */
  predicate CourtChangeShows(b: Board, side: Side, bestOf: int) {
    var p, o := b.m.points.At(side), b.m.points.At(side.Other());
    && p < TARGET_NORMAL - 1 && o <= TARGET_NORMAL - 3
    && CourtEvent(TARGET_NORMAL - 1 + o, p + o, RulesFor(bestOf, b.m.sets).deciding) != NoEvent
  }

  /** A closed set recorded as a tie (only a loaded board has one) is charged to the right, so from the
      other end the deciding set can be read differently; it shows while a court change is in reach. */
  predicate Ambiguous(b: Board, bestOf: int) {
    && !LastDecided(b)
    && BoardRules(SwapEnds(b), bestOf).target != BoardRules(b, bestOf).target
    && (CourtChangeShows(b, Left, bestOf) || CourtChangeShows(b, Right, bestOf))
  }

  lemma CourtEventGrows(total: int, more: int, before: int, deciding: bool)
    requires total <= more && CourtEvent(more, before, deciding) == NoEvent
    ensures CourtEvent(total, before, deciding) == NoEvent
  {
    assert total / SWITCH_NORMAL <= more / SWITCH_NORMAL && total / SWITCH_DECIDING <= more / SWITCH_DECIDING;
  }

  /** A closed set is not awarded again: the rules of a tied set only show in the court changes. */
  lemma TieIgnoresRules(b: Board, side: Side, delta: int, rules: Rules, across: Rules, bestOf: int, now: int)
    requires !LastDecided(b)
    requires rules.target in {TARGET_NORMAL, TARGET_DECIDING} && across.target in {TARGET_NORMAL, TARGET_DECIDING}
    requires rules.target == across.target || !CourtChangeShows(b, side, bestOf)
    ensures var deciding := RulesFor(bestOf, b.m.sets).deciding;
            TapUnder(b, side, delta, across, deciding, now) == TapUnder(b, side, delta, rules, deciding, now)
  {
    hide RallyWon, AwardSet, CourtEvent;
    var p, o := b.m.points.At(side), b.m.points.At(side.Other());
    var q := Clamp0(p + delta);
    if delta > 0 && Won(rules.target, q, o) != Won(across.target, q, o) {
      assert TARGET_DECIDING <= q < TARGET_NORMAL && q == p + delta && q - o >= 2;
      CourtEventGrows(q + o, TARGET_NORMAL - 1 + o, p + o, RulesFor(bestOf, b.m.sets).deciding);
    }
  }

  lemma TypedAcross(b: Board, side: Side, v: int)
    ensures TypedScore(SwapEnds(b), side.Other(), v) == SwapEnds(TypedScore(b, side, v))
  {
  }

  lemma TieWithoutWitness(b: Board, x: Input)
    requires NamesItsSide(x.action) && !LastDecided(b) && !Ambiguous(b, x.bestOf)
    ensures Unbiased(b, x)
  {
    hide TapUnder, NextSetStep, RemoveSetStep, ModelStep, CourtChangeShows;
    match x.action {
      case Point(side, delta, typed) =>
        WinnerAcross(b);
        assert !Refuses(b, side.value) && !Refuses(SwapEnds(b), side.value.Other());
        if typed == None {
          var across := BoardRules(SwapEnds(b), x.bestOf);
          TieIgnoresRules(b, side.value, delta, BoardRules(b, x.bestOf), across, x.bestOf, x.now);
          TapAcross(b, side.value, delta, across, RulesFor(x.bestOf, b.m.sets).deciding, x.now);
        } else {
          TypedAcross(b, side.value, typed.value);
        }
      case NextSet => NextSetAcross(b, x.bestOf);
      case RemoveSet => RemoveSetAcross(b);
      case _ => ModelActionAcross(b.m, x.action);
    }
  }

  lemma TiedTapTo20(b: Board, side: Side, rules: Rules, deciding: bool)
    requires !LastDecided(b) && rules.target in {TARGET_NORMAL, TARGET_DECIDING}
    requires b.m.points.At(side) < TARGET_NORMAL - 1 && b.m.points.At(side.Other()) <= TARGET_NORMAL - 3
    ensures var p, o := b.m.points.At(side), b.m.points.At(side.Other());
            TapUnder(b, side, TARGET_NORMAL - 1 - p, rules, deciding, 0).event
            == if rules.target == TARGET_NORMAL then CourtEvent(TARGET_NORMAL - 1 + o, p + o, deciding) else NoEvent
  {
    hide RallyWon, AwardSet, CourtEvent;
  }

  /** The tap that shows it: straight to 20. */
  lemma TieWithWitness(b: Board, side: Side, bestOf: int)
    requires Ambiguous(b, bestOf) && CourtChangeShows(b, side, bestOf)
    ensures !Unbiased(b, Input(Point(Some(side), TARGET_NORMAL - 1 - b.m.points.At(side), None), bestOf, 0))
  {
    hide TapUnder, CourtEvent;
    var delta := TARGET_NORMAL - 1 - b.m.points.At(side);
    var here, there := BoardRules(b, bestOf), BoardRules(SwapEnds(b), bestOf);
    var deciding := RulesFor(bestOf, b.m.sets).deciding;
    WinnerAcross(b);
    assert RulesFor(bestOf, SwapEnds(b).m.sets).deciding == deciding;
    assert PointStep(b, side, delta, None, bestOf, 0) == TapUnder(b, side, delta, here, deciding, 0);
    assert PointStep(SwapEnds(b), side.Other(), delta, None, bestOf, 0)
        == TapUnder(SwapEnds(b), side.Other(), delta, there, deciding, 0);
    TapAcross(b, side, delta, there, deciding, 0);
    TiedTapTo20(b, side, here, deciding);
    TiedTapTo20(b, side, there, deciding);
  }

  /** Exactly when a board treats both ends alike: for every action, unless it is `Ambiguous`. */
  lemma BiasExactly(b: Board, bestOf: int)
    ensures (forall a, now {:trigger Input(a, bestOf, now)} :: NamesItsSide(a) ==> Unbiased(b, Input(a, bestOf, now)))
            <==> !Ambiguous(b, bestOf)
  {
    if Ambiguous(b, bestOf) {
      TieWithWitness(b, if CourtChangeShows(b, Left, bestOf) then Left else Right, bestOf);
    } else {
      forall a, now {:trigger Input(a, bestOf, now)} | NamesItsSide(a)
        ensures Unbiased(b, Input(a, bestOf, now))
      {
        if LastDecided(b) {
          NoSideBias(b, Input(a, bestOf, now));
        } else {
          TieWithoutWitness(b, Input(a, bestOf, now));
        }
      }
    }
  }

  /** A board a state can load: the set recorded at 12-12, one set against two. */
  const TIED: SavedState :=
    NEUTRAL.(points := Pair(12, 12), sets := Pair(1, 2), results := [Some(PairResult(Pair(12, 12), None))])

  /** From one end the set on it was a third, to 15; from the other it was not, and a change of court comes
      due on the way to 20-12. */
  lemma LoadedTieIsBiased(b: Board)
    ensures var loaded := StepBoard(b, Input(SetState(Some(TIED)), 3, 0));
            Ambiguous(loaded, 3) && !Unbiased(loaded, Input(Point(Some(Left), 8, None), 3, 0))
  {
    var loaded := StepBoard(b, Input(SetState(Some(TIED)), 3, 0));
    var r := SetResult(Sided(12, 12), None);
    assert LoadedResults(TIED.results[1..], false) == [];
    assert loaded.results == [r] && loaded.setClosed && loaded.m.sets == Sided(1, 2);
    assert FlipResults([r]) == [r.Flipped()];
    assert CourtChangeShows(loaded, Left, 3);
    TieWithWitness(loaded, Left, 3);
  }

  lemma ReportsChangeOfEnds(b: Board, bestOf: int)
    ensures StateOf(SwapEnds(b), bestOf) == ChangeEnds(StateOf(b, bestOf))
  {
    ReportedResultsFlip(b.results);
  }

  // ---- The tally counts the recorded sets --------------------------------------------------

  predicate Sound(b: Board) {
    TallyStands(b.m.sets, b.results, b.setClosed)
  }

  predicate PlaysOrCorrects(x: Input) {
    !x.action.Sets? && !x.action.SetState?
  }

  lemma RallyKeepsTally(b: Board, side: Side, delta: int, q: int, bestOf: int, deciding: bool, now: int)
    requires Sound(b)
    ensures Sound(Rally(b, side, delta, q, BoardRules(b, bestOf), deciding, now).board)
  {
    var rallied := b.(m := RallyWon(b.m, side, q, now));
    var rules := BoardRules(b, bestOf);
    if !b.setClosed && Won(rules.target, q, b.m.points.At(side.Other())) {
      AwardKeepsTally(b.m.sets, b.results, SetResult(rallied.m.points, ElapsedSecs(rallied.m.setStart, now)), side);
    }
  }

  lemma PointKeepsTally(b: Board, side: Side, delta: int, bestOf: int, now: int)
    requires Sound(b)
    ensures Sound(PointStep(b, side, delta, None, bestOf, now).board)
  {
    var q := Clamp0(b.m.points.At(side) + delta);
    if delta > 0 {
      RallyKeepsTally(b, side, delta, q, bestOf, RulesFor(bestOf, b.m.sets).deciding, now);
    } else if ClosedWinner(b.results, b.setClosed) == Some(side) {
      DropKeepsTally(b.m.sets, b.results, b.setClosed, side);
    }
  }

  lemma RemoveKeepsTally(b: Board)
    requires Sound(b)
    ensures Sound(RemoveSetStep(b))
  {
    if b.results != [] {
      assert RealSet(b.results[|b.results| - 1].score);
      DropKeepsTally(b.m.sets, b.results, b.setClosed, WinnerOf(b.results[|b.results| - 1].score).value);
    }
  }

  lemma NextSetKeepsTally(b: Board, bestOf: int)
    requires Sound(b)
    ensures Sound(NextSetStep(b, bestOf))
  {
    SwapKeepsTally(b.m.sets, b.results, b.setClosed);
  }

  lemma StepKeepsTally(b: Board, x: Input)
    requires Sound(b) && PlaysOrCorrects(x)
    ensures Sound(StepBoard(b, x))
  {
    match x.action {
      case Point(side, delta, typed) =>
        if typed == None {
          PointKeepsTally(b, side.GetOr(Left), delta, x.bestOf, x.now);
        }
      case RemoveSet => RemoveKeepsTally(b);
      case Swap => SwapKeepsTally(b.m.sets, b.results, b.setClosed);
      case NextSet => NextSetKeepsTally(b, x.bestOf);
      case _ =>
    }
  }

  /** Over every run of scoring, corrections, changes of ends, resets and undos from a sound board. */
  lemma {:induction false} TallyCountsRecordedSets(e: Engine<Board>, cmds: seq<Cmd<Input>>)
    requires HoldsThroughout(Sound, e)
    requires AllAllowed(PlaysOrCorrects, cmds)
    ensures HoldsThroughout(Sound, Run(StepBoard, UNDO_MAX, e, cmds))
  {
    forall b, x {:trigger StepBoard(b, x)} | Sound(b) && PlaysOrCorrects(x)
      ensures Sound(StepBoard(b, x))
    {
      StepKeepsTally(b, x);
    }
    RunKeepsInvariant(StepBoard, UNDO_MAX, Sound, PlaysOrCorrects, e, cmds);
  }

  // ---- Rallies and changes of ends ----------------------------------------------------------

  /** What happens between two corrections: a rally goes to a side, or the pairs change ends. */
  datatype Move = RallyTo(side: Side, now: int) | Ends

  function Moved(b: Board, mv: Move, bestOf: int): Outcome {
    match mv
    case RallyTo(side, now) => PointStep(b, side, 1, None, bestOf, now)
    case Ends => Outcome(SwapEnds(b), NoEvent)
  }

  function Play(b: Board, moves: seq<Move>, bestOf: int): Board
    decreases |moves|
  {
    if moves == [] then b else Play(Moved(b, moves[0], bestOf).board, moves[1..], bestOf)
  }

  // ---- The servers ----------------------------------------------------------------------------

  /** The pair that won a move's rally, if it was one; a tap refused as set-closed is no rally. */
  function Winner(b: Board, mv: Move, bestOf: int): seq<TeamId> {
    if mv.RallyTo? && Moved(b, mv, bestOf).event != SetClosed then [TeamOn(mv.side, b.m.endsSwapped)] else []
  }

  /** The pairs that won the rallies of a run, in order. */
  function Winners(b: Board, moves: seq<Move>, bestOf: int): seq<TeamId>
    decreases |moves|
  {
    if moves == [] then []
    else Winner(b, moves[0], bestOf) + Winners(Moved(b, moves[0], bestOf).board, moves[1..], bestOf)
  }

  /** Who serves after these rallies: whoever won the last one. */
  function ServesAfter(first: TeamId, winners: seq<TeamId>): TeamId {
    if winners == [] then first else winners[|winners| - 1]
  }

  /** How many service turns `t` has begun: one if it was declared first, and one each time it won a
      rally the other pair served. */
  function Turns(first: TeamId, winners: seq<TeamId>, t: TeamId): nat {
    if winners == [] then (if t == first then 1 else 0)
    else
      var init := winners[..|winners| - 1];
      Turns(first, init, t)
      + if winners[|winners| - 1] == t && ServesAfter(first, init) != t then 1 else 0
  }

  /** The closed form: the declared player, flipped once for every service turn after the first. */
  function ServerAfter(declared: int, turns: nat): int {
    if turns <= 1 || turns % 2 == 1 then declared else OtherPlayer(declared)
  }

  function SideOf(t: TeamId, swapped: bool): Side {
    if (t == TeamB) != swapped then Right else Left
  }

  /** Pair t's server and flag are the closed form over the rallies so far. */
  predicate PairTracks(m: Model, first: TeamId, declared: int, winners: seq<TeamId>, t: TeamId) {
    var side := SideOf(t, m.endsSwapped);
    var turns := Turns(first, winners, t);
    m.servers.At(side) == ServerAfter(declared, turns) && (m.served.At(side) <==> turns > 0)
  }

  predicate Tracks(m: Model, first: TeamId, playerA: int, playerB: int, winners: seq<TeamId>) {
    && PairTracks(m, first, playerA, winners, TeamA)
    && PairTracks(m, first, playerB, winners, TeamB)
    && m.serving == Some(SideOf(ServesAfter(first, winners), m.endsSwapped))
  }

  lemma {:induction false} TurnsAppend(first: TeamId, winners: seq<TeamId>, w: TeamId, t: TeamId)
    ensures Turns(first, winners + [w], t) ==
            Turns(first, winners, t) + if w == t && ServesAfter(first, winners) != t then 1 else 0
  {
    assert (winners + [w])[..|winners|] == winners;
  }

  lemma {:induction false} ServingPairHasServed(first: TeamId, winners: seq<TeamId>)
    ensures Turns(first, winners, ServesAfter(first, winners)) > 0
  {
    if winners != [] {
      ServingPairHasServed(first, winners[..|winners| - 1]);
    }
  }

  lemma ServerFlips(declared: int, turns: nat)
    requires declared == 1 || declared == 2
    ensures turns > 0 ==> ServerAfter(declared, turns + 1) == OtherPlayer(ServerAfter(declared, turns))
    ensures ServerAfter(declared, 1) == ServerAfter(declared, 0) == declared
  {
  }

  /** What a rally does to the servers, whatever else it raises. */
  lemma RallyTurns(b: Board, side: Side, bestOf: int, now: int)
    requires PointStep(b, side, 1, None, bestOf, now).event != SetClosed
    ensures var c := PointStep(b, side, 1, None, bestOf, now).board;
            && c.m.serving == Some(side) && c.m.endsSwapped == b.m.endsSwapped
            && c.m.servers == ServiceTurn(b.m, side).servers && c.m.served == ServiceTurn(b.m, side).served
  {
  }

  lemma PairTracksRally(m: Model, side: Side, first: TeamId, declared: int, winners: seq<TeamId>, t: TeamId)
    requires PairTracks(m, first, declared, winners, t)
    requires declared == 1 || declared == 2
    requires m.serving == Some(SideOf(ServesAfter(first, winners), m.endsSwapped))
    ensures PairTracks(ServiceTurn(m, side), first, declared, winners + [TeamOn(side, m.endsSwapped)], t)
  {
    TurnsAppend(first, winners, TeamOn(side, m.endsSwapped), t);
    ServingPairHasServed(first, winners);
    ServerFlips(declared, Turns(first, winners, t));
  }

  lemma TracksTurn(m: Model, c: Model, side: Side, first: TeamId, playerA: int, playerB: int, winners: seq<TeamId>)
    requires Tracks(m, first, playerA, playerB, winners)
    requires playerA in {1, 2} && playerB in {1, 2}
    requires c.serving == Some(side) && c.endsSwapped == m.endsSwapped
    requires c.servers == ServiceTurn(m, side).servers && c.served == ServiceTurn(m, side).served
    ensures Tracks(c, first, playerA, playerB, winners + [TeamOn(side, m.endsSwapped)])
  {
    PairTracksRally(m, side, first, playerA, winners, TeamA);
    PairTracksRally(m, side, first, playerB, winners, TeamB);
  }

  lemma TracksEnds(m: Model, first: TeamId, playerA: int, playerB: int, winners: seq<TeamId>)
    requires Tracks(m, first, playerA, playerB, winners)
    ensures Tracks(FlipModel(m), first, playerA, playerB, winners)
  {
  }

  lemma TracksMove(b: Board, mv: Move, bestOf: int, first: TeamId, playerA: int, playerB: int, winners: seq<TeamId>)
    requires Tracks(b.m, first, playerA, playerB, winners)
    requires playerA in {1, 2} && playerB in {1, 2}
    ensures Tracks(Moved(b, mv, bestOf).board.m, first, playerA, playerB, winners + Winner(b, mv, bestOf))
  {
    assert winners + [] == winners;
    match mv
    case Ends =>
      TracksEnds(b.m, first, playerA, playerB, winners);
    case RallyTo(side, now) =>
      var t := PointStep(b, side, 1, None, bestOf, now);
      if t.event != SetClosed {
        RallyTurns(b, side, bestOf, now);
        TracksTurn(b.m, t.board.m, side, first, playerA, playerB, winners);
      } else {
        assert t.board == b;
      }
  }

  lemma {:induction false} TracksRun(
    b: Board, moves: seq<Move>, bestOf: int, first: TeamId, playerA: int, playerB: int, before: seq<TeamId>)
    requires Tracks(b.m, first, playerA, playerB, before)
    requires playerA in {1, 2} && playerB in {1, 2}
    ensures Tracks(Play(b, moves, bestOf).m, first, playerA, playerB, before + Winners(b, moves, bestOf))
    decreases |moves|
  {
    hide Tracks, Moved, Winner;
    if moves == [] {
      assert before + [] == before;
    } else {
      var c := Moved(b, moves[0], bestOf).board;
      TracksMove(b, moves[0], bestOf, first, playerA, playerB, before);
      TracksRun(c, moves[1..], bestOf, first, playerA, playerB, before + Winner(b, moves[0], bestOf));
      assert before + (Winner(b, moves[0], bestOf) + Winners(c, moves[1..], bestOf))
          == before + Winner(b, moves[0], bestOf) + Winners(c, moves[1..], bestOf);
    }
  }

  lemma DeclaredTracks(m: Model, first: Side, left: int, right: int)
    ensures var swapped := m.endsSwapped;
            Tracks(ServeOrderStep(m, first, Some(left), Some(right)), TeamOn(first, swapped),
                   Player(if swapped then right else left), Player(if swapped then left else right), [])
  {
  }

  /** Server tracking refines its closed form: after a declared serve order and any rallies, with
      changes of ends anywhere, each pair's server is its declared player flipped once for every
      service turn after its first, and the declared player while it has not served. */
  lemma {:induction false} ServersFollowTheDeclaredOrder(
    b: Board, first: Side, left: int, right: int, moves: seq<Move>, bestOf: int)
    ensures var declared := b.(m := ServeOrderStep(b.m, first, Some(left), Some(right)));
            var swapped := b.m.endsSwapped;
            Tracks(Play(declared, moves, bestOf).m, TeamOn(first, swapped),
                   Player(if swapped then right else left), Player(if swapped then left else right),
                   Winners(declared, moves, bestOf))
  {
    var declared := b.(m := ServeOrderStep(b.m, first, Some(left), Some(right)));
    var swapped := b.m.endsSwapped;
    var playerA, playerB := Player(if swapped then right else left), Player(if swapped then left else right);
    var ws := Winners(declared, moves, bestOf);
    DeclaredTracks(b.m, first, left, right);
    hide Tracks, Play, Winners, ServeOrderStep;
    TracksRun(declared, moves, bestOf, TeamOn(first, swapped), playerA, playerB, []);
    assert [] + ws == ws;
  }

  // ---- Changes of court ------------------------------------------------------------------------

  /** How often a run raised `e`. */
  function Raised(b: Board, moves: seq<Move>, bestOf: int, e: Event): nat
    decreases |moves|
  {
    if moves == [] then 0
    else
      var t := Moved(b, moves[0], bestOf);
      (if t.event == e then 1 else 0) + Raised(t.board, moves[1..], bestOf, e)
  }

  function Sum(b: Board): int {
    b.m.points.left + b.m.points.right
  }

  function TechDue(total: int, deciding: bool): int {
    if !deciding && total >= TECH_TIMEOUT_AT then 1 else 0
  }

  function CourtDue(total: int, deciding: bool): int {
    total / (if deciding then SWITCH_DECIDING else SWITCH_NORMAL)
  }

  predicate Deciding(b: Board, bestOf: int) {
    RulesFor(bestOf, b.m.sets).deciding
  }

  /** And so the pair that serves is flagged as having begun a service turn in this set. */
  lemma {:induction false} ServingPairIsFlagged(
    b: Board, first: Side, left: int, right: int, moves: seq<Move>, bestOf: int)
    ensures var m := Play(b.(m := ServeOrderStep(b.m, first, Some(left), Some(right))), moves, bestOf).m;
            m.serving.Some? && m.served.At(m.serving.value)
  {
    var declared := b.(m := ServeOrderStep(b.m, first, Some(left), Some(right)));
    ServersFollowTheDeclaredOrder(b, first, left, right, moves, bestOf);
    ServingPairHasServed(TeamOn(first, b.m.endsSwapped), Winners(declared, moves, bestOf));
  }

  /** A set that counts as closed stays closed under further taps and changes of ends. */
  lemma {:induction false} ClosedStaysClosed(b: Board, moves: seq<Move>, bestOf: int)
    requires b.setClosed
    ensures Play(b, moves, bestOf).setClosed
    decreases |moves|
  {
    if moves == [] {
    } else {
      assert Moved(b, moves[0], bestOf).board.setClosed;
      ClosedStaysClosed(Moved(b, moves[0], bestOf).board, moves[1..], bestOf);
    }
  }

  /** One more point raises exactly what the new sum makes due. */
  lemma CourtEventCounts(total: nat, deciding: bool)
    ensures var e := CourtEvent(total + 1, total, deciding);
            && e in {NoEvent, TechTimeout, SwitchDue}
            && (if e == TechTimeout then 1 else 0) == TechDue(total + 1, deciding) - TechDue(total, deciding)
            && (if e in {TechTimeout, SwitchDue} then 1 else 0)
               == CourtDue(total + 1, deciding) - CourtDue(total, deciding)
  {
    if deciding {
      assert (total + 1) / 5 - total / 5 <= 1;
    } else {
      assert (total + 1) / 7 - total / 7 <= 1;
    }
  }

  /** An unfinished set: open, and nobody at a winning score. */
  predicate Unfinished(b: Board, bestOf: int) {
    var target := RulesFor(bestOf, b.m.sets).target;
    var l, r := b.m.points.left, b.m.points.right;
    !b.setClosed && l >= 0 && r >= 0 && !Won(target, l, r) && !Won(target, r, l)
  }

  lemma UnfinishedRally(b: Board, side: Side, bestOf: int, now: int)
    requires Unfinished(b, bestOf)
    requires !PointStep(b, side, 1, None, bestOf, now).board.setClosed
    ensures var t := PointStep(b, side, 1, None, bestOf, now);
            && Unfinished(t.board, bestOf) && Sum(t.board) == Sum(b) + 1
            && t.board.m.sets == b.m.sets
            && t.event == CourtEvent(Sum(b) + 1, Sum(b), Deciding(b, bestOf))
  {
    hide CourtEvent, FlipResults, ElapsedSecs;
  }

  /** One move of an unfinished set adds what its new sum makes due. */
  lemma OneMove(b: Board, mv: Move, bestOf: int)
    requires Unfinished(b, bestOf)
    requires !Moved(b, mv, bestOf).board.setClosed
    ensures var t := Moved(b, mv, bestOf);
            var d := Deciding(b, bestOf);
            && Unfinished(t.board, bestOf) && Deciding(t.board, bestOf) == d
            && (if t.event == TechTimeout then 1 else 0) == TechDue(Sum(t.board), d) - TechDue(Sum(b), d)
            && (if t.event in {TechTimeout, SwitchDue} then 1 else 0)
               == CourtDue(Sum(t.board), d) - CourtDue(Sum(b), d)
  {
    if mv.RallyTo? {
      UnfinishedRally(b, mv.side, bestOf, mv.now);
      CourtEventCounts(Sum(b), Deciding(b, bestOf));
    }
  }

  lemma {:induction false} CourtEventsOf(b: Board, moves: seq<Move>, bestOf: int)
    requires Unfinished(b, bestOf)
    requires !Play(b, moves, bestOf).setClosed
    ensures var c := Play(b, moves, bestOf);
            var d := Deciding(b, bestOf);
            && Raised(b, moves, bestOf, TechTimeout) == TechDue(Sum(c), d) - TechDue(Sum(b), d)
            && Raised(b, moves, bestOf, TechTimeout) + Raised(b, moves, bestOf, SwitchDue)
               == CourtDue(Sum(c), d) - CourtDue(Sum(b), d)
    decreases |moves|
  {
    if moves == [] {
    } else {
      var t := Moved(b, moves[0], bestOf);
      if t.board.setClosed {
        ClosedStaysClosed(t.board, moves[1..], bestOf);
      }
      OneMove(b, moves[0], bestOf);
      CourtEventsOf(t.board, moves[1..], bestOf);
    }
  }

  /** Court changes are counted exactly: over every rally sequence from 0-0 in an unfinished set, with
      changes of ends anywhere. Before the decider one technical timeout once the sum has reached 21,
      and court changes with it make sum / 7; in the decider sum / 5 court changes and no timeout. */
  lemma {:induction false} CourtChangesCountedExactly(b: Board, moves: seq<Move>, bestOf: int)
    requires !b.setClosed && b.m.points == Sided(0, 0)
    requires !Play(b, moves, bestOf).setClosed
    ensures var sum := Sum(Play(b, moves, bestOf));
            var techs := Raised(b, moves, bestOf, TechTimeout);
            var switches := Raised(b, moves, bestOf, SwitchDue);
            if Deciding(b, bestOf) then techs == 0 && switches == sum / 5
            else techs == (if sum >= 21 then 1 else 0) && techs + switches == sum / 7
  {
    CourtEventsOf(b, moves, bestOf);
  }
}
