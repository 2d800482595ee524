/** What the indoor engine keeps over whole matches. */
module ManualTheorems {
  import opened Basics
  import opened LiveStates
  import opened UndoJournals
  import opened Manual

  // ---- No left/right bias -----------------------------------------------------------------

  /** The same action with its side named from the other end of the court. */
  function Mirror(a: Action): Action {
    match a
    case Point(side, delta, typed) => Point(Across(side), delta, typed)
    case Sets(side, delta, typed) => Sets(Across(side), delta, typed)
    case Timeout(side, delta, typed) => Timeout(Across(side), delta, typed)
    case Sub(side, delta, typed) => Sub(Across(side), delta, typed)
    case Serve(side) => Serve(Across(side))
    case TeamEdit(side, name, short, color) => TeamEdit(Across(side), name, short, color)
    case _ => a
  }

  /** An action that says which side it means where it needs one, and does not load a board. */
  predicate NamesItsSide(a: Action) {
    match a
    case Point(side, _, _) => side.Some?
    case Sets(side, _, _) => side.Some?
    case Timeout(side, _, _) => side.Some?
    case Sub(side, _, _) => side.Some?
    case Serve(side) => side.Some?
    case TeamEdit(side, _, _, _) => side.Some?
    case Reset(_) => false
    case SetState(_) => false
    case _ => true
  }

  /** Acting from the other end of the court equals acting here and then changing ends. */
  predicate Unbiased(b: Board, x: Input) {
    var here := Step(b, x);
    var there := Step(SwapEnds(b), x.(action := Mirror(x.action)));
    there == Outcome(SwapEnds(here.board), here.event)
  }

  /** A set that counts as closed was won by somebody. */
  predicate LastDecided(b: Board) {
    b.setClosed && b.results != [] ==> WinnerOf(b.results[|b.results| - 1].score) != None
  }

  lemma SwapTwice(b: Board)
    ensures SwapEnds(SwapEnds(b)) == b
  {
    FlipResultsTwice(b.results);
  }

  lemma WinnerAcross(b: Board)
    ensures ClosedWinner(FlipResults(b.results), b.setClosed) == Across(ClosedWinner(b.results, b.setClosed))
  {
  }

  lemma RulesAcross(b: Board, bestOf: int)
    requires LastDecided(b)
    ensures BoardRules(SwapEnds(b), bestOf) == BoardRules(b, bestOf)
  {
  }

  lemma RallyWonAcross(m: Model, side: Side, q: int, now: int)
    ensures RallyWon(FlipModel(m), side.Other(), q, now) == FlipModel(RallyWon(m, side, q, now))
  {
  }

  lemma CreditAcross(m: Model, side: Side, delta: int)
    ensures Credited(FlipModel(m), side.Other(), delta) == FlipModel(Credited(m, side, delta))
  {
  }

  lemma AwardAcross(b: Board, side: Side, now: int)
    ensures AwardSet(SwapEnds(b), side.Other(), now) == SwapEnds(AwardSet(b, side, now))
  {
    CreditAcross(b.m, side, 1);
    FlipAppend(b.results, SetResult(b.m.points, ElapsedSecs(b.m.setStart, now)));
  }

  lemma TakeBackAcross(b: Board, side: Side)
    requires b.results != []
    ensures TakeBackSet(SwapEnds(b), side.Other()) == SwapEnds(TakeBackSet(b, side))
  {
    CreditAcross(b.m, side, -1);
    FlipDropLast(b.results);
  }

  lemma RallyAcross(b: Board, side: Side, q: int, rules: Rules, now: int)
    ensures var t := Rally(b, side, q, rules, now);
            Rally(SwapEnds(b), side.Other(), q, rules, now) == Outcome(SwapEnds(t.board), t.event)
  {
    var rallied := b.(m := RallyWon(b.m, side, q, now));
    RallyWonAcross(b.m, side, q, now);
    assert SwapEnds(rallied) == SwapEnds(b).(m := RallyWon(FlipModel(b.m), side.Other(), q, now));
    AwardAcross(rallied, side, now);
  }

  lemma CorrectionAcross(b: Board, side: Side, q: int, minus: bool, rules: Rules)
    ensures Correction(SwapEnds(b), side.Other(), q, minus, rules) == SwapEnds(Correction(b, side, q, minus, rules))
  {
    WinnerAcross(b);
    var moved := b.(m := b.m.(points := With(b.m.points, side, q)));
    assert SwapEnds(moved) == SwapEnds(b).(m := FlipModel(b.m).(points := With(b.m.points.Flipped(), side.Other(), q)));
    if b.results != [] {
      TakeBackAcross(moved, side);
    }
  }

  lemma TapAcross(b: Board, side: Side, delta: int, rules: Rules, now: int)
    ensures var t := TapUnder(b, side, delta, rules, now);
            TapUnder(SwapEnds(b), side.Other(), delta, rules, now) == Outcome(SwapEnds(t.board), t.event)
  {
    var q := Clamp0(b.m.points.At(side) + delta);
    if delta > 0 {
      RallyAcross(b, side, q, rules, now);
    } else {
      CorrectionAcross(b, side, q, delta < 0, rules);
    }
  }

  lemma PointAcross(b: Board, side: Side, delta: int, typed: Option<int>, bestOf: int, now: int)
    requires typed == None ==> BoardRules(SwapEnds(b), bestOf) == BoardRules(b, bestOf)
    ensures var t := PointStep(b, side, delta, typed, bestOf, now);
            PointStep(SwapEnds(b), side.Other(), delta, typed, bestOf, now) == Outcome(SwapEnds(t.board), t.event)
  {
    WinnerAcross(b);
    assert Refuses(SwapEnds(b), side.Other()) == Refuses(b, side);
    if typed == None {
      TapAcross(b, side, delta, BoardRules(b, bestOf), now);
    }
  }

  lemma NextSetAcross(b: Board, bestOf: int)
    ensures NextSetStep(SwapEnds(b), bestOf) == SwapEnds(NextSetStep(b, bestOf))
  {
    FlipResultsTwice(b.results);
  }

  lemma RemoveSetAcross(b: Board)
    ensures RemoveSetStep(SwapEnds(b)) == SwapEnds(RemoveSetStep(b))
  {
    if b.results != [] {
      FlipDropLast(b.results);
      CreditAcross(b.m, Left, -1);
      CreditAcross(b.m, Right, -1);
    }
  }

  lemma OtherActionsAcross(b: Board, x: Input)
    requires NamesItsSide(x.action) && !x.action.Point?
    ensures Unbiased(b, x)
  {
    match x.action {
      case NextSet =>
        NextSetAcross(b, x.bestOf);
      case RemoveSet =>
        RemoveSetAcross(b);
      case _ =>
    }
  }

  /** The engine has no left/right bias: an action taken from the other end of the court changes the
      same things for the same team and raises the same event. */
  lemma NoSideBias(b: Board, x: Input)
    requires NamesItsSide(x.action) && LastDecided(b)
    ensures Unbiased(b, x)
  {
    if x.action.Point? {
      RulesAcross(b, x.bestOf);
      PointAcross(b, x.action.side.value, x.action.delta, x.action.typed, x.bestOf, x.now);
    } else {
      OtherActionsAcross(b, x);
    }
  }

  /** ... and it is put on the undo journal from either end alike. */
  lemma JournaledAlike(b: Board, x: Input)
    requires NamesItsSide(x.action) && LastDecided(b)
    ensures var y := x.(action := Mirror(x.action));
            StepBoard(SwapEnds(b), y) != SwapEnds(b) <==> StepBoard(b, x) != b
  {
    NoSideBias(b, x);
    SwapTwice(b);
    SwapTwice(StepBoard(b, x));
  }

  /** A closed set recorded as a tie (only a loaded board has one) is charged to the right, so from
      the other end the deciding set can be read differently; before 8 points it shows. */
  predicate Ambiguous(b: Board, bestOf: int) {
    && !LastDecided(b)
    && BoardRules(SwapEnds(b), bestOf).deciding != BoardRules(b, bestOf).deciding
    && b.m.points.left < DECIDER_SWITCH_AT && b.m.points.right < DECIDER_SWITCH_AT
  }

  /** A closed set is not awarded again, and no switch is due with a side at 8 already: the rules of
      a tied set only show in the switch prompt. */
  lemma TieIgnoresRules(b: Board, side: Side, delta: int, rules: Rules, across: Rules, now: int)
    requires !LastDecided(b)
    requires rules.toWin == across.toWin
    requires rules.deciding == across.deciding
             || b.m.points.left >= DECIDER_SWITCH_AT || b.m.points.right >= DECIDER_SWITCH_AT
    ensures TapUnder(b, side, delta, across, now) == TapUnder(b, side, delta, rules, now)
  {
  }

  lemma TiedTap(b: Board, side: Side, delta: int, bestOf: int, now: int)
    requires !LastDecided(b) && !Ambiguous(b, bestOf)
    ensures var t := Tap(b, side, delta, bestOf, now);
            Tap(SwapEnds(b), side.Other(), delta, bestOf, now) == Outcome(SwapEnds(t.board), t.event)
  {
    var across := BoardRules(SwapEnds(b), bestOf);
    TieIgnoresRules(b, side, delta, BoardRules(b, bestOf), across, now);
    TapAcross(b, side, delta, across, now);
  }

  lemma TieWithoutWitness(b: Board, x: Input)
    requires NamesItsSide(x.action) && !LastDecided(b) && !Ambiguous(b, x.bestOf)
    ensures Unbiased(b, x)
  {
    if x.action.Point? {
      var side := x.action.side.value;
      WinnerAcross(b);
      if x.action.typed == None {
        TiedTap(b, side, x.action.delta, x.bestOf, x.now);
        assert !Refuses(b, side) && !Refuses(SwapEnds(b), side.Other());
      } else {
        PointAcross(b, side, x.action.delta, x.action.typed, x.bestOf, x.now);
      }
    } else {
      OtherActionsAcross(b, x);
    }
  }

  /** Exactly when a board treats both ends alike: for every action, unless it is `Ambiguous`. */
  lemma BiasExactly(b: Board, bestOf: int)
    ensures (forall a, now {:trigger Input(a, bestOf, now)} :: NamesItsSide(a) ==> Unbiased(b, Input(a, bestOf, now)))
            <==> !Ambiguous(b, bestOf)
  {
    if Ambiguous(b, bestOf) {
      var tap := Input(Point(Some(Left), DECIDER_SWITCH_AT - b.m.points.left, None), bestOf, 0);
      WinnerAcross(b);
      assert Step(b, tap).event == SwitchDue <==> BoardRules(b, bestOf).deciding;
      assert !Unbiased(b, tap);
    } else {
      forall a, now {:trigger Input(a, bestOf, now)} | NamesItsSide(a)
        ensures Unbiased(b, Input(a, bestOf, now))
      {
        if LastDecided(b) {
          NoSideBias(b, Input(a, bestOf, now));
        } else {
          TieWithoutWitness(b, Input(a, bestOf, now));
        }
      }
    }
  }

  /** A board a state can load: the set recorded at 5-5, two sets against three. */
  const TIED: SavedState :=
    NEUTRAL.(points := Pair(5, 5), sets := Pair(2, 3), results := [Some(PairResult(Pair(5, 5), None))])

  /** From one end the set on it was a fifth, from the other it was not: three points to 8-5 make a switch
      due at one end only. */
  lemma LoadedTieIsBiased(b: Board)
    ensures var loaded := StepBoard(b, Input(SetState(Some(TIED)), 5, 0));
            Ambiguous(loaded, 5) && !Unbiased(loaded, Input(Point(Some(Left), 3, None), 5, 0))
  {
    var loaded := StepBoard(b, Input(SetState(Some(TIED)), 5, 0));
    var r := SetResult(Sided(5, 5), None);
    assert LoadedResults(TIED.results[1..], false) == [];
    assert loaded.results == [r] && loaded.setClosed && loaded.m.sets == Sided(2, 3);
    assert FlipResults([r]) == [r.Flipped()];
    WinnerAcross(loaded);
    assert Step(loaded, Input(Point(Some(Left), 3, None), 5, 0)).event
        != Step(SwapEnds(loaded), Input(Point(Some(Right), 3, None), 5, 0)).event;
  }

  /** What the engine reports after a change of ends is the same match seen from the other side. */
  lemma ReportsChangeOfEnds(b: Board, bestOf: int)
    ensures StateOf(SwapEnds(b), bestOf) == ChangeEnds(StateOf(b, bestOf))
  {
    ReportedResultsFlip(b.results);
  }
}
