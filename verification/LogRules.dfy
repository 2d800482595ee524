/** What the log of each engine says of a tap: the entry credits the team standing where the tap was made,
    and stands beside the counts by team after it. */
module LogRules {
  import opened Basics
  import opened LiveStates
  import opened UndoJournals
  import opened History
  import opened LogCredits
  import HU = HistoryUndo
  import CS = ControlServer

  /** What a board keeps by side, of one team: A stands on the left until the ends are changed. */
  function Teamwise<T>(s: Sided<T>, swapped: bool, t: TeamId): T {
    if (t == TeamA) == swapped then s.right else s.left
  }

  lemma TeamStandsThere<T>(s: Sided<T>, side: Side, swapped: bool)
    ensures Teamwise(s, swapped, Standing(side, swapped)) == s.At(side)
    ensures Teamwise(s, swapped, Standing(side, swapped).Other()) == s.At(side.Other())
  {
  }

  /** The side an action names, the left when it names none. */
  function Named(side: Option<Side>): Side {
    if side == Some(Right) then Right else Left
  }

  function Called(t: Team, team: TeamId): string {
    if t.short == "" && t.name == "" then (if team == TeamA then "A" else "B")
    else if t.short == "" then t.name
    else t.short
  }

  /** What the board shows after an action. */
  datatype Shown = Shown(teams: Sided<Team>, points: Sided<int>, sets: Sided<int>, server: Option<Side>, swapped: bool)

  /** The log gained `what`, beside the score, the sets, the server and the names on the board by team. */
  predicate Entered(l: Log, n: Log, what: What, b: Shown) {
    var k := |InProgress(l)|;
    && |PlayByPlay(n)| > k && PlayByPlay(n)[..k] == InProgress(l)
    && var e := PlayByPlay(n)[k];
       && e.what == what
       && e.srv == (if b.server == None then None else Some(Standing(b.server.value, b.swapped)))
       && (forall t :: Of(e.score, t) == Teamwise(b.points, b.swapped, t))
       && (forall t :: Of(e.sets, t) == Teamwise(b.sets, b.swapped, t))
       && (forall t :: Of(TeamNames(n), t) == Called(Teamwise(b.teams, b.swapped, t), t))
  }

  /** The state a source reports of that board. */
  predicate Reported(r: Report, b: Shown) {
    && r.state.teams == Pair(b.teams.left, b.teams.right)
    && r.state.points == Pair(b.points.left, b.points.right)
    && r.state.sets == Pair(b.sets.left, b.sets.right)
    && r.state.endsSwapped == Some(b.swapped)
    && (if r.basketball then b.server == None else r.state.serving == b.server)
  }

  lemma EntryReadsTheBoard(l: Log, n: Log, what: What, r: Report, tracked: bool, b: Shown)
    requires GoesOnWith(l, n, what, r, tracked) && Reported(r, b)
    ensures Entered(l, n, what, b)
  {
    hide Newest;
    var e := PlayByPlay(n)[|InProgress(l)|];
    assert Stamped(e, r, tracked);
  }

  /** An action of any engine with an entry of its own, in a match with room. */
  lemma RequestIsLogged<B, A>(rig: CS.Rig<B, A>, s: CS.Sys<B>, op: CS.Op<A>, what: What, b: Shown)
    requires op.Apply?
    requires var t := rig.step(s.board, op.a);
             var r := CS.ReportOf(rig, t.board, t.event, op.bestOf, op.stamp);
             var a := rig.entry(op.a);
             && t.event != SetClosed && !a.Reset? && !HU.Reopens(s.log, a, r) && HasSpace(s.log)
             && EntryFor(a, r.state) == Some(what) && Reported(r, b)
             && (s.log.current.Some? || a.Point? || a.Timeout? || a.Sub? || a.Sets? || a.Serve?)
    ensures Entered(s.log, CS.Serve(rig, s, op).log, what, b)
  {
    var t := rig.step(s.board, op.a);
    var r := CS.ReportOf(rig, t.board, t.event, op.bestOf, op.stamp);
    hide EntryFor, GoesOnWith, Entered, Record, ClosesWith, ArchivedAs, HU.Reopens;
    ActionIsLogged(s.log, rig.entry(op.a), r, t.board != s.board, what);
    EntryReadsTheBoard(s.log, Record(s.log, rig.entry(op.a), r, t.board != s.board), what, r, t.board != s.board, b);
  }

  /** After the action's own entry the log files the set it won: its number, the points on show and the
      playing time; and when that won the match, its end, and the match itself in the archive: the sets won by
      each team, every recorded set, the game it was begun under. */
  predicate SetFiled(l: Log, n: Log, b: Shown, results: seq<SetResult>, over: bool) {
    var k := |InProgress(l)|;
    var events := PlayByPlay(n);
    && |events| == k + (if over then 3 else 2)
    && (forall t :: Of(events[k + 1].score, t) == Teamwise(b.points, b.swapped, t))
    && (forall t :: Of(events[k + 1].sets, t) == Teamwise(b.sets, b.swapped, t))
    && (if over then events[k + 2].what == MatchOver && MatchFiled(l, n, b, results)
        else n.current.Some? && n.matches == l.matches)
    && var what := events[k + 1].what;
       && what.SetEnded? && what.number == b.sets.left + b.sets.right
       && (results != [] ==>
             && (forall t :: Of(what.score, t) == Teamwise(results[|results| - 1].score, b.swapped, t))
             && what.dur == SetDur(results[|results| - 1].dur))
  }

  predicate MatchFiled(l: Log, n: Log, b: Shown, results: seq<SetResult>) {
    && n.current == None && n.matches != []
    && var m := n.matches[|n.matches| - 1];
       && n.matches == Newest(l.matches + [m], 100)
       && m.game == FiledUnder(l)
       && (forall t :: Of(m.result, t) == Teamwise(b.sets, b.swapped, t))
       && |m.sets| == |results|
       && (forall i, t :: 0 <= i < |results| ==> Of(m.sets[i].score, t) == Teamwise(results[i].score, b.swapped, t))
  }

  lemma FilingReadsTheBoard(l: Log, n: Log, what: What, r: Report, tracked: bool, b: Shown, results: seq<SetResult>)
    requires GoesOnWith(l, n, what, r, tracked) && ClosesWith(n, |InProgress(l)| + 1, r)
    requires r.event in {SetEnd, MatchEnd} && (r.event == MatchEnd ==> ArchivedAs(n, FiledUnder(l), r))
    requires Reported(r, b) && r.state.results == ReportedResults(results)
    ensures SetFiled(l, n, b, results, r.event == MatchEnd)
  {
    hide Newest, MatchFiled;
    var k := |InProgress(l)|;
    var e := PlayByPlay(n)[k + 1];
    assert Stamped(e, r, tracked) && FilesTheSet(e.what, r);
    if r.event == MatchEnd {
      ArchiveReadsTheBoard(l, n, r, b, results);
    }
  }

  lemma ArchiveReadsTheBoard(l: Log, n: Log, r: Report, b: Shown, results: seq<SetResult>)
    requires r.event == MatchEnd && ArchivedAs(n, FiledUnder(l), r) && n.current == None
    requires n.matches != [] && n.matches == Newest(l.matches + [n.matches[|n.matches| - 1]], MAX_MATCHES)
    requires Reported(r, b) && r.state.results == ReportedResults(results)
    ensures MatchFiled(l, n, b, results)
  {
    hide Newest;
    var m := n.matches[|n.matches| - 1];
    assert m.sets == Timed(Results(r.state)) && |Results(r.state)| == |results|;
    forall i, t | 0 <= i < |results|
      ensures Of(m.sets[i].score, t) == Teamwise(results[i].score, b.swapped, t)
    {
    }
  }

  /** So any engine's set or match won is filed. */
  lemma WinIsFiled<B, A>(rig: CS.Rig<B, A>, s: CS.Sys<B>, op: CS.Op<A>, what: What, b: Shown, results: seq<SetResult>)
    requires op.Apply?
    requires var t := rig.step(s.board, op.a);
             var r := CS.ReportOf(rig, t.board, t.event, op.bestOf, op.stamp);
             var a := rig.entry(op.a);
             && t.event in {SetEnd, MatchEnd} && a.Point? && a.delta > 0 && HasSpace(s.log)
             && EntryFor(a, r.state) == Some(what) && Reported(r, b) && r.state.results == ReportedResults(results)
    ensures SetFiled(s.log, CS.Serve(rig, s, op).log, b, results, rig.step(s.board, op.a).event == MatchEnd)
  {
    var t := rig.step(s.board, op.a);
    var r := CS.ReportOf(rig, t.board, t.event, op.bestOf, op.stamp);
    var a := rig.entry(op.a);
    assert !HU.Reopens(s.log, a, r);
    hide EntryFor, GoesOnWith, SetFiled, Record, ClosesWith, ArchivedAs, HU.Reopens, HasSpace;
    ActionIsLogged(s.log, a, r, t.board != s.board, what);
    FilingReadsTheBoard(s.log, Record(s.log, a, r, t.board != s.board), what, r, t.board != s.board, b, results);
  }

  /** A count of `t` moved by d, or to a typed value, and never below 0; the other team's stayed. */
  predicate Counted(before: Sided<int>, after: Sided<int>, swapped: bool, t: TeamId, d: int, typed: Option<int>) {
    var to := if typed == None then Teamwise(before, swapped, t) + d else typed.value;
    && Teamwise(after, swapped, t) == (if to < 0 then 0 else to)
    && Teamwise(after, swapped, t.Other()) == Teamwise(before, swapped, t.Other())
  }

  lemma CountedAt(before: Sided<int>, after: Sided<int>, side: Side, swapped: bool, d: int, typed: Option<int>)
    requires var to := if typed == None then before.At(side) + d else typed.value;
             after == With(before, side, if to < 0 then 0 else to)
    ensures Counted(before, after, swapped, Standing(side, swapped), d, typed)
  {
  }

  /** What the log says of a count: who, and by how much or to what. */
  function Count(c: Counter, t: TeamId, d: int, typed: Option<int>): What
    requires d != 0 || typed.Some?
  {
    if d != 0 then Tapped(c, t, d) else Typed(c, t, typed.value)
  }

  /** The entry of an action is the team's standing where it was made. */
  lemma EntryNamesTheTeam(side: Option<Side>, d: int, typed: Option<int>, s: LiveState, swapped: bool)
    requires s.endsSwapped == Some(swapped)
    ensures var team := Standing(Named(side), swapped);
            && (d != 0 || typed.Some? ==>
                  && EntryFor(LogAction.Point(side, d, typed), s) == Some(Count(Points, team, d, typed))
                  && EntryFor(LogAction.Timeout(side, d, typed), s) == Some(Count(Timeouts, team, d, typed))
                  && EntryFor(LogAction.Sub(side, d, typed), s) == Some(Count(Subs, team, d, typed)))
            && EntryFor(LogAction.Sets(side, typed), s) == Some(TallySet(team, typed))
            && EntryFor(LogAction.Serve(side), s) == Some(Served(team))
  {
  }
}

/** The indoor log. */
module IndoorLog {
  import opened Basics
  import opened LiveStates
  import opened UndoJournals
  import opened LogCredits
  import opened LogRules
  import opened Consoles
  import opened Manual
    import History
  import HU = HistoryUndo
  import CS = ControlServer

  function ShownOf(b: Board): LogRules.Shown {
    LogRules.Shown(b.m.teams, b.m.points, b.m.sets, b.m.serving, b.m.endsSwapped)
  }

  function Tap(a: Action, bestOf: int, now: int, stamp: int): CS.Op<Input> {
    CS.Apply(Input(a, bestOf, now), bestOf, stamp)
  }

  /** Not a - that could take the end of a match back. */
  predicate GoesForward(l: History.Log, d: int) {
    l.current.Some? || l.lastFinished == None || d >= 0
  }

  lemma TapIsLogged(s: CS.Sys<Board>, a: Action, d: int, bestOf: int, now: int, stamp: int, what: History.What)
    requires HasSpace(s.log) && GoesForward(s.log, d)
    requires var t := Step(s.board, Input(a, bestOf, now));
             t.event != SetClosed && History.EntryFor(IndoorEntry(a), StateOf(t.board, bestOf)) == Some(what)
    requires a.Point? || a.Timeout? || a.Sub? || a.Sets? || a.Serve?
    requires a.Point? ==> a.delta == d
    ensures var n := CS.Serve(Indoor(), s, Tap(a, bestOf, now, stamp));
            Entered(s.log, n.log, what, ShownOf(n.board)) && n.board == Step(s.board, Input(a, bestOf, now)).board
  {
    hide Step, History.EntryFor, Entered, HasSpace, History.Record;
    RequestIsLogged(Indoor(), s, Tap(a, bestOf, now, stamp), what, ShownOf(Step(s.board, Input(a, bestOf, now)).board));
  }

  lemma EndsAreReported(b: Board, bestOf: int)
    ensures StateOf(b, bestOf).endsSwapped == Some(b.m.endsSwapped)
  {
  }

  lemma PointGoesTo(b: Board, side: Side, d: int, typed: Option<int>, bestOf: int, now: int)
    requires PointStep(b, side, d, typed, bestOf, now).event != SetClosed
    ensures var n := PointStep(b, side, d, typed, bestOf, now).board;
            var to := if typed == None then b.m.points.At(side) + d else typed.value;
            && n.m.endsSwapped == b.m.endsSwapped && n.m.teams == b.m.teams
            && n.m.points == With(b.m.points, side, if to < 0 then 0 else to)
            && (d > 0 && typed == None ==> n.m.serving == Some(side))
  {
    hide BoardRules, Won, ElapsedSecs, HoldsLastResult, Refuses, ClosedWinner;
  }

  lemma PointMoves(b: Board, side: Option<Side>, d: int, typed: Option<int>, bestOf: int, now: int)
    requires Step(b, Input(Point(side, d, typed), bestOf, now)).event != SetClosed
    ensures var n := Step(b, Input(Point(side, d, typed), bestOf, now)).board;
            && n.m.endsSwapped == b.m.endsSwapped && n.m.teams == b.m.teams
            && Counted(b.m.points, n.m.points, b.m.endsSwapped, Standing(Named(side), b.m.endsSwapped), d, typed)
            && (d > 0 && typed == None ==> n.m.serving == Some(Named(side)))
  {
    assert side.GetOr(Left) == Named(side);
    hide Counted, PointStep, Standing;
    PointGoesTo(b, Named(side), d, typed, bestOf, now);
    CountedAt(b.m.points, PointStep(b, Named(side), d, typed, bestOf, now).board.m.points, Named(side), b.m.endsSwapped,
              d, typed);
  }

  /** A tap on the points that is not refused is logged for the team standing there: the entry's score is
      that team's, moved by what was tapped or to what was typed, the other's as it was; after a + it serves. */
  lemma PointIsCredited(s: CS.Sys<Board>, side: Option<Side>, d: int, typed: Option<int>, bestOf: int, now: int,
                        stamp: int)
    requires HasSpace(s.log) && GoesForward(s.log, d) && (d != 0 || typed.Some?)
    requires Step(s.board, Input(Point(side, d, typed), bestOf, now)).event != SetClosed
    ensures var n := CS.Serve(Indoor(), s, Tap(Point(side, d, typed), bestOf, now, stamp));
            var swapped := s.board.m.endsSwapped;
            var team := Standing(Named(side), swapped);
            && n.board.m.endsSwapped == swapped && n.board.m.teams == s.board.m.teams
            && Entered(s.log, n.log, Count(History.Points, team, d, typed), ShownOf(n.board))
            && Counted(s.board.m.points, n.board.m.points, swapped, team, d, typed)
            && (d > 0 && typed == None ==> n.board.m.serving == Some(Named(side)))
  {
    PointMoves(s.board, side, d, typed, bestOf, now);
    hide Entered, HasSpace, CS.Serve, Step, History.EntryFor, GoesForward, Counted, StateOf, Indoor, ShownOf;
    var b := Step(s.board, Input(Point(side, d, typed), bestOf, now)).board;
    EndsAreReported(b, bestOf);
    EntryNamesTheTeam(side, d, typed, StateOf(b, bestOf), s.board.m.endsSwapped);
    TapIsLogged(s, Point(side, d, typed), d, bestOf, now, stamp,
                Count(History.Points, Standing(Named(side), s.board.m.endsSwapped), d, typed));
  }

  lemma TimeoutMoves(b: Board, side: Option<Side>, d: int, typed: Option<int>, bestOf: int, now: int)
    ensures var t := Step(b, Input(Timeout(side, d, typed), bestOf, now));
            && t.event == NoEvent && t.board == b.(m := b.m.(timeouts := t.board.m.timeouts))
            && Counted(b.m.timeouts, t.board.m.timeouts, b.m.endsSwapped, Standing(Named(side), b.m.endsSwapped), d,
                       typed)
  {
    hide Counted;
    CountedAt(b.m.timeouts, Step(b, Input(Timeout(side, d, typed), bestOf, now)).board.m.timeouts, Named(side),
              b.m.endsSwapped, d, typed);
  }

  /** A timeout is logged for the team whose timeouts it moved. */
  lemma TimeoutIsCredited(s: CS.Sys<Board>, side: Option<Side>, d: int, typed: Option<int>, bestOf: int, now: int,
                          stamp: int)
    requires HasSpace(s.log) && (d != 0 || typed.Some?)
    ensures var n := CS.Serve(Indoor(), s, Tap(Timeout(side, d, typed), bestOf, now, stamp));
            var team := Standing(Named(side), s.board.m.endsSwapped);
            && Entered(s.log, n.log, Count(History.Timeouts, team, d, typed), ShownOf(n.board))
            && ShownOf(n.board) == ShownOf(s.board)
            && Counted(s.board.m.timeouts, n.board.m.timeouts, s.board.m.endsSwapped, team, d, typed)
  {
    TimeoutMoves(s.board, side, d, typed, bestOf, now);
    hide Entered, HasSpace, CS.Serve, Step, History.EntryFor, Counted, StateOf, Indoor;
    var b := Step(s.board, Input(Timeout(side, d, typed), bestOf, now)).board;
    EndsAreReported(b, bestOf);
    EntryNamesTheTeam(side, d, typed, StateOf(b, bestOf), s.board.m.endsSwapped);
    TapIsLogged(s, Timeout(side, d, typed), 0, bestOf, now, stamp,
                Count(History.Timeouts, Standing(Named(side), s.board.m.endsSwapped), d, typed));
  }

  lemma SubMoves(b: Board, side: Option<Side>, d: int, typed: Option<int>, bestOf: int, now: int)
    ensures var t := Step(b, Input(Sub(side, d, typed), bestOf, now));
            && t.event == NoEvent && t.board == b.(m := b.m.(subs := t.board.m.subs))
            && Counted(b.m.subs, t.board.m.subs, b.m.endsSwapped, Standing(Named(side), b.m.endsSwapped), d, typed)
  {
    hide Counted;
    CountedAt(b.m.subs, Step(b, Input(Sub(side, d, typed), bestOf, now)).board.m.subs, Named(side), b.m.endsSwapped,
              d, typed);
  }

  /** A substitution is logged for the team whose substitutions it moved. */
  lemma SubIsCredited(s: CS.Sys<Board>, side: Option<Side>, d: int, typed: Option<int>, bestOf: int, now: int,
                      stamp: int)
    requires HasSpace(s.log) && (d != 0 || typed.Some?)
    ensures var n := CS.Serve(Indoor(), s, Tap(Sub(side, d, typed), bestOf, now, stamp));
            var team := Standing(Named(side), s.board.m.endsSwapped);
            && Entered(s.log, n.log, Count(History.Subs, team, d, typed), ShownOf(n.board))
            && ShownOf(n.board) == ShownOf(s.board)
            && Counted(s.board.m.subs, n.board.m.subs, s.board.m.endsSwapped, team, d, typed)
  {
    SubMoves(s.board, side, d, typed, bestOf, now);
    hide Entered, HasSpace, CS.Serve, Step, History.EntryFor, Counted, StateOf, Indoor;
    var b := Step(s.board, Input(Sub(side, d, typed), bestOf, now)).board;
    EndsAreReported(b, bestOf);
    EntryNamesTheTeam(side, d, typed, StateOf(b, bestOf), s.board.m.endsSwapped);
    TapIsLogged(s, Sub(side, d, typed), 0, bestOf, now, stamp,
                Count(History.Subs, Standing(Named(side), s.board.m.endsSwapped), d, typed));
  }

  lemma TallyAndServeMove(b: Board, side: Option<Side>, d: int, typed: Option<int>, bestOf: int, now: int)
    ensures var t := Step(b, Input(Sets(side, d, typed), bestOf, now));
            && t.event == NoEvent && t.board == b.(m := b.m.(sets := t.board.m.sets))
            && Counted(b.m.sets, t.board.m.sets, b.m.endsSwapped, Standing(Named(side), b.m.endsSwapped), d, typed)
    ensures var t := Step(b, Input(Serve(side), bestOf, now));
            && t.event == NoEvent
            && t.board == b.(m := b.m.(serving := Some(Named(side)), firstServer := t.board.m.firstServer))
  {
    hide Counted;
    CountedAt(b.m.sets, Step(b, Input(Sets(side, d, typed), bestOf, now)).board.m.sets, Named(side), b.m.endsSwapped,
              d, typed);
  }

  /** A set tally is logged for the team whose sets it moved, beside the tally by team after it; a serve for
      the team that serves. */
  lemma TallyAndServeAreCredited(s: CS.Sys<Board>, side: Option<Side>, d: int, typed: Option<int>, bestOf: int,
                                 now: int, stamp: int)
    requires HasSpace(s.log)
    ensures var n := CS.Serve(Indoor(), s, Tap(Sets(side, d, typed), bestOf, now, stamp));
            var team := Standing(Named(side), s.board.m.endsSwapped);
            && Entered(s.log, n.log, History.TallySet(team, typed), ShownOf(n.board))
            && ShownOf(n.board) == ShownOf(s.board).(sets := n.board.m.sets)
            && Counted(s.board.m.sets, n.board.m.sets, s.board.m.endsSwapped, team, d, typed)
    ensures var n := CS.Serve(Indoor(), s, Tap(Serve(side), bestOf, now, stamp));
            var team := Standing(Named(side), s.board.m.endsSwapped);
            && Entered(s.log, n.log, History.Served(team), ShownOf(n.board))
            && ShownOf(n.board) == ShownOf(s.board).(server := Some(Named(side)))
  {
    TallyAndServeMove(s.board, side, d, typed, bestOf, now);
    hide Entered, HasSpace, CS.Serve, Step, History.EntryFor, Counted, StateOf, Indoor;
    var b := Step(s.board, Input(Sets(side, d, typed), bestOf, now)).board;
    var c := Step(s.board, Input(Serve(side), bestOf, now)).board;
    EndsAreReported(b, bestOf);
    EndsAreReported(c, bestOf);
    EntryNamesTheTeam(side, d, typed, StateOf(b, bestOf), s.board.m.endsSwapped);
    EntryNamesTheTeam(side, d, typed, StateOf(c, bestOf), s.board.m.endsSwapped);
    var team := Standing(Named(side), s.board.m.endsSwapped);
    TapIsLogged(s, Sets(side, d, typed), 0, bestOf, now, stamp, History.TallySet(team, typed));
    TapIsLogged(s, Serve(side), 0, bestOf, now, stamp, History.Served(team));
  }

  lemma WonSetIsRecorded(b: Board, side: Side, d: int, bestOf: int, now: int)
    requires PointStep(b, side, d, None, bestOf, now).event in {SetEnd, MatchEnd}
    ensures var n := PointStep(b, side, d, None, bestOf, now).board;
            && n.results == b.results + [SetResult(n.m.points, ElapsedSecs(n.m.setStart, now))] && d > 0
            && n.m.endsSwapped == b.m.endsSwapped
            && n.m.sets.At(side) == Clamp0(b.m.sets.At(side) + 1)
            && n.m.sets.At(side.Other()) == b.m.sets.At(side.Other())
  {
    hide ElapsedSecs, BoardRules, Won;
  }

  /** The + that wins a set files it for its winner, at the score on show; the one that wins the match files
      that too. */
  lemma WonSetIsLogged(s: CS.Sys<Board>, side: Option<Side>, d: int, bestOf: int, now: int, stamp: int)
    requires HasSpace(s.log) && s.board.m.sets.left >= 0 && s.board.m.sets.right >= 0
    requires Step(s.board, Input(Point(side, d, None), bestOf, now)).event in {SetEnd, MatchEnd}
    ensures var n := CS.Serve(Indoor(), s, Tap(Point(side, d, None), bestOf, now, stamp));
            var swapped := s.board.m.endsSwapped;
            var team := Standing(Named(side), swapped);
            var over := Step(s.board, Input(Point(side, d, None), bestOf, now)).event == MatchEnd;
            && SetFiled(s.log, n.log, ShownOf(n.board), n.board.results, over)
            && n.board.results == s.board.results + [SetResult(n.board.m.points, ElapsedSecs(n.board.m.setStart, now))]
            && n.board.m.endsSwapped == swapped
            && Teamwise(n.board.m.sets, swapped, team) == Teamwise(s.board.m.sets, swapped, team) + 1
            && Teamwise(n.board.m.sets, swapped, team.Other()) == Teamwise(s.board.m.sets, swapped, team.Other())
  {
    var op := Tap(Point(side, d, None), bestOf, now, stamp);
    var b := Step(s.board, op.a).board;
    WonSetIsRecorded(s.board, Named(side), d, bestOf, now);
    TeamStandsThere(s.board.m.sets, Named(side), s.board.m.endsSwapped);
    TeamStandsThere(b.m.sets, Named(side), s.board.m.endsSwapped);
    hide SetFiled, HasSpace, PointStep, History.EntryFor, History.Record, Teamwise, ElapsedSecs;
    EndsAreReported(b, bestOf);
    EntryNamesTheTeam(side, d, None, StateOf(b, bestOf), s.board.m.endsSwapped);
    WinIsFiled(Indoor(), s, op, Count(History.Points, Standing(Named(side), s.board.m.endsSwapped), d, None),
               ShownOf(b), b.results);
  }

  /** A change of ends and a set removed are logged as such. */
  lemma ChangesAreLogged(s: CS.Sys<Board>, bestOf: int, now: int, stamp: int)
    requires HasSpace(s.log) && s.log.current.Some?
    ensures var n := CS.Serve(Indoor(), s, Tap(Swap, bestOf, now, stamp));
            Entered(s.log, n.log, History.EndsChanged, ShownOf(n.board)) && n.board == SwapEnds(s.board)
    ensures var n := CS.Serve(Indoor(), s, Tap(RemoveSet, bestOf, now, stamp));
            Entered(s.log, n.log, History.SetRemoved, ShownOf(n.board)) && n.board == RemoveSetStep(s.board)
  {
    hide Entered, HasSpace, SwapEnds, RemoveSetStep, History.Record;
    RequestIsLogged(Indoor(), s, Tap(Swap, bestOf, now, stamp), History.EndsChanged, ShownOf(SwapEnds(s.board)));
    RequestIsLogged(Indoor(), s, Tap(RemoveSet, bestOf, now, stamp), History.SetRemoved,
                    ShownOf(RemoveSetStep(s.board)));
  }
}

/** The beach log. */
module BeachLog {
  import opened Basics
  import opened LiveStates
  import opened UndoJournals
  import opened LogCredits
  import opened LogRules
  import opened BeachConsoles
  import opened Beach
    import History
  import HU = HistoryUndo
  import CS = ControlServer

  function ShownOf(b: Board): LogRules.Shown {
    LogRules.Shown(b.m.teams, b.m.points, b.m.sets, b.m.serving, b.m.endsSwapped)
  }

  function Tap(a: Action, bestOf: int, now: int, stamp: int): CS.Op<Input> {
    CS.Apply(Input(a, bestOf, now), bestOf, stamp)
  }

  /** Not a - that could take the end of a match back. */
  predicate GoesForward(l: History.Log, d: int) {
    l.current.Some? || l.lastFinished == None || d >= 0
  }

  lemma TapIsLogged(s: CS.Sys<Board>, a: Action, d: int, bestOf: int, now: int, stamp: int, what: History.What)
    requires HasSpace(s.log) && GoesForward(s.log, d)
    requires var t := Step(s.board, Input(a, bestOf, now));
             t.event != SetClosed && History.EntryFor(Logged(a), StateOf(t.board, bestOf)) == Some(what)
    requires a.Point? || a.Timeout? || a.Sub? || a.Sets? || a.Serve?
    requires a.Point? ==> a.delta == d
    ensures var n := CS.Serve(Rig(), s, Tap(a, bestOf, now, stamp));
            Entered(s.log, n.log, what, ShownOf(n.board)) && n.board == Step(s.board, Input(a, bestOf, now)).board
  {
    hide Step, History.EntryFor, Entered, HasSpace, History.Record;
    RequestIsLogged(Rig(), s, Tap(a, bestOf, now, stamp), what, ShownOf(Step(s.board, Input(a, bestOf, now)).board));
  }

  lemma EndsAreReported(b: Board, bestOf: int)
    ensures StateOf(b, bestOf).endsSwapped == Some(b.m.endsSwapped)
  {
  }

  lemma ServiceMovesNoPoints(m: Model, side: Side)
    ensures ServiceTurn(m, side) == m.(servers := ServiceTurn(m, side).servers, served := ServiceTurn(m, side).served)
  {
  }

  lemma PointGoesTo(b: Board, side: Side, d: int, typed: Option<int>, bestOf: int, now: int)
    requires PointStep(b, side, d, typed, bestOf, now).event != SetClosed
    ensures var n := PointStep(b, side, d, typed, bestOf, now).board;
            var to := if typed == None then b.m.points.At(side) + d else typed.value;
            && n.m.endsSwapped == b.m.endsSwapped && n.m.teams == b.m.teams
            && n.m.points == With(b.m.points, side, if to < 0 then 0 else to)
            && (d > 0 && typed == None ==> n.m.serving == Some(side))
  {
    ServiceMovesNoPoints(b.m, side);
    hide BoardRules, RulesFor, Won, ElapsedSecs, HoldsLastResult, Refuses, ClosedWinner, CourtEvent, ServiceTurn;
  }

  lemma PointMoves(b: Board, side: Option<Side>, d: int, typed: Option<int>, bestOf: int, now: int)
    requires Step(b, Input(Point(side, d, typed), bestOf, now)).event != SetClosed
    ensures var n := Step(b, Input(Point(side, d, typed), bestOf, now)).board;
            && n.m.endsSwapped == b.m.endsSwapped && n.m.teams == b.m.teams
            && Counted(b.m.points, n.m.points, b.m.endsSwapped, Standing(Named(side), b.m.endsSwapped), d, typed)
            && (d > 0 && typed == None ==> n.m.serving == Some(Named(side)))
  {
    assert side.GetOr(Left) == Named(side);
    hide Counted, PointStep, Standing;
    PointGoesTo(b, Named(side), d, typed, bestOf, now);
    CountedAt(b.m.points, PointStep(b, Named(side), d, typed, bestOf, now).board.m.points, Named(side), b.m.endsSwapped,
              d, typed);
  }

  /** A tap on the points that is not refused is logged for the team standing there: the entry's score is
      that team's, moved by what was tapped or to what was typed, the other's as it was; after a + it serves. */
  lemma PointIsCredited(s: CS.Sys<Board>, side: Option<Side>, d: int, typed: Option<int>, bestOf: int, now: int,
                        stamp: int)
    requires HasSpace(s.log) && GoesForward(s.log, d) && (d != 0 || typed.Some?)
    requires Step(s.board, Input(Point(side, d, typed), bestOf, now)).event != SetClosed
    ensures var n := CS.Serve(Rig(), s, Tap(Point(side, d, typed), bestOf, now, stamp));
            var swapped := s.board.m.endsSwapped;
            var team := Standing(Named(side), swapped);
            && n.board.m.endsSwapped == swapped && n.board.m.teams == s.board.m.teams
            && Entered(s.log, n.log, Count(History.Points, team, d, typed), ShownOf(n.board))
            && Counted(s.board.m.points, n.board.m.points, swapped, team, d, typed)
            && (d > 0 && typed == None ==> n.board.m.serving == Some(Named(side)))
  {
    PointMoves(s.board, side, d, typed, bestOf, now);
    hide Entered, HasSpace, CS.Serve, Step, History.EntryFor, GoesForward, Counted, StateOf, Rig, ShownOf;
    var b := Step(s.board, Input(Point(side, d, typed), bestOf, now)).board;
    EndsAreReported(b, bestOf);
    EntryNamesTheTeam(side, d, typed, StateOf(b, bestOf), s.board.m.endsSwapped);
    TapIsLogged(s, Point(side, d, typed), d, bestOf, now, stamp,
                Count(History.Points, Standing(Named(side), s.board.m.endsSwapped), d, typed));
  }

  lemma TimeoutMoves(b: Board, side: Option<Side>, d: int, typed: Option<int>, bestOf: int, now: int)
    ensures var t := Step(b, Input(Timeout(side, d, typed), bestOf, now));
            && t.event == NoEvent && t.board == b.(m := b.m.(timeouts := t.board.m.timeouts))
            && Counted(b.m.timeouts, t.board.m.timeouts, b.m.endsSwapped, Standing(Named(side), b.m.endsSwapped), d,
                       typed)
  {
    hide Counted;
    CountedAt(b.m.timeouts, Step(b, Input(Timeout(side, d, typed), bestOf, now)).board.m.timeouts, Named(side),
              b.m.endsSwapped, d, typed);
  }

  /** A timeout is logged for the team whose timeouts it moved. */
  lemma TimeoutIsCredited(s: CS.Sys<Board>, side: Option<Side>, d: int, typed: Option<int>, bestOf: int, now: int,
                          stamp: int)
    requires HasSpace(s.log) && (d != 0 || typed.Some?)
    ensures var n := CS.Serve(Rig(), s, Tap(Timeout(side, d, typed), bestOf, now, stamp));
            var team := Standing(Named(side), s.board.m.endsSwapped);
            && Entered(s.log, n.log, Count(History.Timeouts, team, d, typed), ShownOf(n.board))
            && ShownOf(n.board) == ShownOf(s.board)
            && Counted(s.board.m.timeouts, n.board.m.timeouts, s.board.m.endsSwapped, team, d, typed)
  {
    TimeoutMoves(s.board, side, d, typed, bestOf, now);
    hide Entered, HasSpace, CS.Serve, Step, History.EntryFor, Counted, StateOf, Rig;
    var b := Step(s.board, Input(Timeout(side, d, typed), bestOf, now)).board;
    EndsAreReported(b, bestOf);
    EntryNamesTheTeam(side, d, typed, StateOf(b, bestOf), s.board.m.endsSwapped);
    TapIsLogged(s, Timeout(side, d, typed), 0, bestOf, now, stamp,
                Count(History.Timeouts, Standing(Named(side), s.board.m.endsSwapped), d, typed));
  }

  lemma TallyAndServeMove(b: Board, side: Option<Side>, d: int, typed: Option<int>, bestOf: int, now: int)
    ensures var t := Step(b, Input(Sets(side, d, typed), bestOf, now));
            && t.event == NoEvent && t.board == b.(m := b.m.(sets := t.board.m.sets))
            && Counted(b.m.sets, t.board.m.sets, b.m.endsSwapped, Standing(Named(side), b.m.endsSwapped), d, typed)
    ensures var t := Step(b, Input(Serve(side), bestOf, now));
            && t.event == NoEvent
            && t.board == b.(m := b.m.(serving := Some(Named(side))))
  {
    hide Counted;
    CountedAt(b.m.sets, Step(b, Input(Sets(side, d, typed), bestOf, now)).board.m.sets, Named(side), b.m.endsSwapped,
              d, typed);
  }

  /** A set tally is logged for the team whose sets it moved, beside the tally by team after it; a serve for
      the team that serves. */
  lemma TallyAndServeAreCredited(s: CS.Sys<Board>, side: Option<Side>, d: int, typed: Option<int>, bestOf: int,
                                 now: int, stamp: int)
    requires HasSpace(s.log)
    ensures var n := CS.Serve(Rig(), s, Tap(Sets(side, d, typed), bestOf, now, stamp));
            var team := Standing(Named(side), s.board.m.endsSwapped);
            && Entered(s.log, n.log, History.TallySet(team, typed), ShownOf(n.board))
            && ShownOf(n.board) == ShownOf(s.board).(sets := n.board.m.sets)
            && Counted(s.board.m.sets, n.board.m.sets, s.board.m.endsSwapped, team, d, typed)
    ensures var n := CS.Serve(Rig(), s, Tap(Serve(side), bestOf, now, stamp));
            var team := Standing(Named(side), s.board.m.endsSwapped);
            && Entered(s.log, n.log, History.Served(team), ShownOf(n.board))
            && ShownOf(n.board) == ShownOf(s.board).(server := Some(Named(side)))
  {
    TallyAndServeMove(s.board, side, d, typed, bestOf, now);
    hide Entered, HasSpace, CS.Serve, Step, History.EntryFor, Counted, StateOf, Rig;
    var b := Step(s.board, Input(Sets(side, d, typed), bestOf, now)).board;
    var c := Step(s.board, Input(Serve(side), bestOf, now)).board;
    EndsAreReported(b, bestOf);
    EndsAreReported(c, bestOf);
    EntryNamesTheTeam(side, d, typed, StateOf(b, bestOf), s.board.m.endsSwapped);
    EntryNamesTheTeam(side, d, typed, StateOf(c, bestOf), s.board.m.endsSwapped);
    var team := Standing(Named(side), s.board.m.endsSwapped);
    TapIsLogged(s, Sets(side, d, typed), 0, bestOf, now, stamp, History.TallySet(team, typed));
    TapIsLogged(s, Serve(side), 0, bestOf, now, stamp, History.Served(team));
  }

  lemma WonSetIsRecorded(b: Board, side: Side, d: int, bestOf: int, now: int)
    requires PointStep(b, side, d, None, bestOf, now).event in {SetEnd, MatchEnd}
    ensures var n := PointStep(b, side, d, None, bestOf, now).board;
            && n.results == b.results + [SetResult(n.m.points, ElapsedSecs(n.m.setStart, now))] && d > 0
            && n.m.endsSwapped == b.m.endsSwapped
            && n.m.sets.At(side) == Clamp0(b.m.sets.At(side) + 1)
            && n.m.sets.At(side.Other()) == b.m.sets.At(side.Other())
  {
    hide ElapsedSecs, BoardRules, Won;
  }

  /** The + that wins a set files it for its winner, at the score on show; the one that wins the match files
      that too. */
  lemma WonSetIsLogged(s: CS.Sys<Board>, side: Option<Side>, d: int, bestOf: int, now: int, stamp: int)
    requires HasSpace(s.log) && s.board.m.sets.left >= 0 && s.board.m.sets.right >= 0
    requires Step(s.board, Input(Point(side, d, None), bestOf, now)).event in {SetEnd, MatchEnd}
    ensures var n := CS.Serve(Rig(), s, Tap(Point(side, d, None), bestOf, now, stamp));
            var swapped := s.board.m.endsSwapped;
            var team := Standing(Named(side), swapped);
            var over := Step(s.board, Input(Point(side, d, None), bestOf, now)).event == MatchEnd;
            && SetFiled(s.log, n.log, ShownOf(n.board), n.board.results, over)
            && n.board.results == s.board.results + [SetResult(n.board.m.points, ElapsedSecs(n.board.m.setStart, now))]
            && n.board.m.endsSwapped == swapped
            && Teamwise(n.board.m.sets, swapped, team) == Teamwise(s.board.m.sets, swapped, team) + 1
            && Teamwise(n.board.m.sets, swapped, team.Other()) == Teamwise(s.board.m.sets, swapped, team.Other())
  {
    var op := Tap(Point(side, d, None), bestOf, now, stamp);
    var b := Step(s.board, op.a).board;
    WonSetIsRecorded(s.board, Named(side), d, bestOf, now);
    TeamStandsThere(s.board.m.sets, Named(side), s.board.m.endsSwapped);
    TeamStandsThere(b.m.sets, Named(side), s.board.m.endsSwapped);
    hide SetFiled, HasSpace, PointStep, History.EntryFor, History.Record, Teamwise, ElapsedSecs;
    EndsAreReported(b, bestOf);
    EntryNamesTheTeam(side, d, None, StateOf(b, bestOf), s.board.m.endsSwapped);
    WinIsFiled(Rig(), s, op, Count(History.Points, Standing(Named(side), s.board.m.endsSwapped), d, None), ShownOf(b),
               b.results);
  }

  /** A change of ends and a set removed are logged as such. */
  lemma ChangesAreLogged(s: CS.Sys<Board>, bestOf: int, now: int, stamp: int)
    requires HasSpace(s.log) && s.log.current.Some?
    ensures var n := CS.Serve(Rig(), s, Tap(Swap, bestOf, now, stamp));
            Entered(s.log, n.log, History.EndsChanged, ShownOf(n.board)) && n.board == SwapEnds(s.board)
    ensures var n := CS.Serve(Rig(), s, Tap(RemoveSet, bestOf, now, stamp));
            Entered(s.log, n.log, History.SetRemoved, ShownOf(n.board)) && n.board == RemoveSetStep(s.board)
  {
    hide Entered, HasSpace, SwapEnds, RemoveSetStep, History.Record;
    RequestIsLogged(Rig(), s, Tap(Swap, bestOf, now, stamp), History.EndsChanged, ShownOf(SwapEnds(s.board)));
    RequestIsLogged(Rig(), s, Tap(RemoveSet, bestOf, now, stamp), History.SetRemoved, ShownOf(RemoveSetStep(s.board)));
  }
}

/** The basketball log. */
module BasketballLog {
  import opened Basics
  import opened LiveStates
  import opened UndoJournals
  import opened LogCredits
  import opened LogRules
  import opened BasketballConsoles
  import opened Basketball
  import History
  import HU = HistoryUndo
  import CS = ControlServer

  /** There is no set tally, and the log names no server. */
  function ShownOf(b: Board): LogRules.Shown {
    LogRules.Shown(b.m.teams, b.m.points, Sided(0, 0), None, b.m.endsSwapped)
  }

  function Tap(a: Action, bestOf: int, stamp: int): CS.Op<Action> {
    CS.Apply(a, bestOf, stamp)
  }

  predicate GoesForward(l: History.Log, d: int) {
    l.current.Some? || l.lastFinished == None || d >= 0
  }

  lemma TapIsLogged(s: CS.Sys<Board>, a: Action, d: int, bestOf: int, stamp: int, what: History.What)
    requires HasSpace(s.log) && GoesForward(s.log, d)
    requires var t := Step(s.board, a);
             t.event != SetClosed && History.EntryFor(Logged(a), StateOf(t.board)) == Some(what)
    requires a.Point? || a.Timeout? || a.Foul? || a.Serve?
    requires a.Point? ==> a.delta == d
    ensures var n := CS.Serve(Rig(), s, Tap(a, bestOf, stamp));
            Entered(s.log, n.log, what, ShownOf(n.board)) && n.board == Step(s.board, a).board
  {
    hide Step, History.EntryFor, Entered, HasSpace, History.Record;
    RequestIsLogged(Rig(), s, Tap(a, bestOf, stamp), what, ShownOf(Step(s.board, a).board));
  }

  lemma EndsAreReported(b: Board)
    ensures StateOf(b).endsSwapped == Some(b.m.endsSwapped)
  {
  }

  lemma CountersMove(b: Board, side: Option<Side>, d: int, typed: Option<int>)
    ensures var team := Standing(Named(side), b.m.endsSwapped);
            var p, f, t, a := Step(b, Point(side, d, typed)), Step(b, Foul(side, d, typed)),
                              Step(b, Timeout(side, d, typed)), Step(b, Serve(side));
            && (p.event != SetClosed ==>
                  && p.board == b.(m := b.m.(points := p.board.m.points))
                  && Counted(b.m.points, p.board.m.points, b.m.endsSwapped, team, d, typed))
            && f.event != SetClosed && f.board == b.(m := b.m.(fouls := f.board.m.fouls))
            && Counted(b.m.fouls, f.board.m.fouls, b.m.endsSwapped, team, d, typed)
            && t.event == NoEvent && t.board == b.(m := b.m.(timeouts := t.board.m.timeouts))
            && Counted(b.m.timeouts, t.board.m.timeouts, b.m.endsSwapped, team, d, typed)
            && a.event == NoEvent && a.board == b.(m := b.m.(serving := Some(Named(side))))
  {
    hide Counted;
    var p, f, t := Step(b, Point(side, d, typed)), Step(b, Foul(side, d, typed)), Step(b, Timeout(side, d, typed));
    if p.event != SetClosed {
      CountedAt(b.m.points, p.board.m.points, Named(side), b.m.endsSwapped, d, typed);
    }
    CountedAt(b.m.fouls, f.board.m.fouls, Named(side), b.m.endsSwapped, d, typed);
    CountedAt(b.m.timeouts, t.board.m.timeouts, Named(side), b.m.endsSwapped, d, typed);
  }

  /** Points, team fouls and timeouts are each logged for the team they moved. */
  lemma CountsAreCredited(s: CS.Sys<Board>, side: Option<Side>, d: int, typed: Option<int>, bestOf: int, stamp: int)
    requires HasSpace(s.log) && GoesForward(s.log, d) && (d != 0 || typed.Some?)
    ensures var n := CS.Serve(Rig(), s, Tap(Point(side, d, typed), bestOf, stamp));
            var team := Standing(Named(side), s.board.m.endsSwapped);
            Step(s.board, Point(side, d, typed)).event != SetClosed ==>
              && Entered(s.log, n.log, Count(History.Points, team, d, typed), ShownOf(n.board))
              && ShownOf(n.board) == ShownOf(s.board).(points := n.board.m.points)
              && Counted(s.board.m.points, n.board.m.points, s.board.m.endsSwapped, team, d, typed)
    ensures var n := CS.Serve(Rig(), s, Tap(Foul(side, d, typed), bestOf, stamp));
            var team := Standing(Named(side), s.board.m.endsSwapped);
            && Entered(s.log, n.log, Count(History.Subs, team, d, typed), ShownOf(n.board))
            && ShownOf(n.board) == ShownOf(s.board)
            && Counted(s.board.m.fouls, n.board.m.fouls, s.board.m.endsSwapped, team, d, typed)
    ensures var n := CS.Serve(Rig(), s, Tap(Timeout(side, d, typed), bestOf, stamp));
            var team := Standing(Named(side), s.board.m.endsSwapped);
            && Entered(s.log, n.log, Count(History.Timeouts, team, d, typed), ShownOf(n.board))
            && ShownOf(n.board) == ShownOf(s.board)
            && Counted(s.board.m.timeouts, n.board.m.timeouts, s.board.m.endsSwapped, team, d, typed)
  {
    CountersMove(s.board, side, d, typed);
    hide Entered, HasSpace, CS.Serve, Step, History.EntryFor, Counted, StateOf, Rig;
    var p, f, t := Step(s.board, Point(side, d, typed)).board, Step(s.board, Foul(side, d, typed)).board,
                   Step(s.board, Timeout(side, d, typed)).board;
    EndsAreReported(p);
    EndsAreReported(f);
    EndsAreReported(t);
    var swapped := s.board.m.endsSwapped;
    var team := Standing(Named(side), swapped);
    if Step(s.board, Point(side, d, typed)).event != SetClosed {
      EntryNamesTheTeam(side, d, typed, StateOf(p), swapped);
      TapIsLogged(s, Point(side, d, typed), d, bestOf, stamp, Count(History.Points, team, d, typed));
    }
    EntryNamesTheTeam(side, d, typed, StateOf(f), swapped);
    TapIsLogged(s, Foul(side, d, typed), 0, bestOf, stamp, Count(History.Subs, team, d, typed));
    EntryNamesTheTeam(side, d, typed, StateOf(t), swapped);
    TapIsLogged(s, Timeout(side, d, typed), 0, bestOf, stamp, Count(History.Timeouts, team, d, typed));
  }

  /** The possession arrow is logged for the team it points to. */
  lemma ArrowIsCredited(s: CS.Sys<Board>, side: Option<Side>, bestOf: int, stamp: int)
    requires HasSpace(s.log)
    ensures var n := CS.Serve(Rig(), s, Tap(Serve(side), bestOf, stamp));
            && Entered(s.log, n.log, History.Served(Standing(Named(side), s.board.m.endsSwapped)), ShownOf(n.board))
            && n.board == s.board.(m := s.board.m.(serving := Some(Named(side))))
  {
    CountersMove(s.board, side, 0, None);
    hide Entered, HasSpace, CS.Serve, Step, History.EntryFor, Counted, StateOf, Rig;
    var b := Step(s.board, Serve(side)).board;
    EndsAreReported(b);
    EntryNamesTheTeam(side, 0, None, StateOf(b), s.board.m.endsSwapped);
    TapIsLogged(s, Serve(side), 0, bestOf, stamp, History.Served(Standing(Named(side), s.board.m.endsSwapped)));
  }

  lemma PeriodEnds(b: Board)
    requires !b.m.over && b.m.period >= 1
    ensures var t := Step(b, EndPeriod);
            && t.event == (if t.board.m.over then GameEnd else PeriodEnd)
            && ShownOf(t.board) == ShownOf(b) && |t.board.results| == |b.results| + 1
            && t.board.m.period == (if t.board.m.over then b.m.period else b.m.period + 1)
  {
  }

  /** The end of period `number`, at that score by team. */
  predicate PeriodFiled(l: History.Log, n: History.Log, b: LogRules.Shown, number: int, sets: nat, over: bool) {
    var k := |InProgress(l)|;
    var events := PlayByPlay(n);
    && |events| == k + (if over then 2 else 1)
    && events[..k] == InProgress(l) && events[k].what == History.PeriodEnded(number)
    && (forall t :: Of(events[k].score, t) == Teamwise(b.points, b.swapped, t))
    && (!over ==> n.current.Some? && n.matches == l.matches)
    && (over ==>
          && events[k + 1].what == History.MatchOver && n.current == None && n.matches != []
          && var m := n.matches[|n.matches| - 1];
             && n.matches == Newest(l.matches + [m], 100)
             && m.game == FiledUnder(l) && |m.sets| == sets
             && (forall t :: Of(m.result, t) == Teamwise(b.points, b.swapped, t)))
  }

  lemma CloseIsFiled(l: History.Log, r: History.Report, undoable: bool, b: LogRules.Shown, number: int)
    requires HasSpace(l) && l.current.Some? && Reported(r, b) && number >= 1
    requires r.event in {PeriodEnd, GameEnd} && r.state.period == (if r.event == GameEnd then number else number + 1)
    ensures PeriodFiled(l, History.Record(l, History.Other, r, undoable), b, number, |r.state.results|,
                        r.event == GameEnd)
  {
    CloseOnlyIsLogged(l, History.Other, r, undoable);
    hide Newest, History.Record;
    var n := History.Record(l, History.Other, r, undoable);
    assert Stamped(PlayByPlay(n)[|InProgress(l)|], r, undoable);
  }

  /** A period ended in a game under way is logged with its number, and the end of the game after it: the
      game is archived with its final score by team, and the whole line score. */
  lemma PeriodIsLogged(s: CS.Sys<Board>, bestOf: int, stamp: int)
    requires HasSpace(s.log) && s.log.current.Some? && !s.board.m.over && s.board.m.period >= 1
    ensures var n := CS.Serve(Rig(), s, Tap(EndPeriod, bestOf, stamp));
            PeriodFiled(s.log, n.log, ShownOf(s.board), s.board.m.period, |s.board.results| + 1, n.board.m.over)
  {
    PeriodEnds(s.board);
    hide Step, PeriodFiled, HasSpace, History.Record, ShownOf;
    var t := Step(s.board, EndPeriod);
    var r := CS.ReportOf(Rig(), t.board, t.event, bestOf, stamp);
    StateReads(t.board, r);
    CloseIsFiled(s.log, r, t.board != s.board, ShownOf(s.board), s.board.m.period);
  }

  lemma StateReads(b: Board, r: History.Report)
    requires r.state == StateOf(b) && r.basketball
    ensures Reported(r, ShownOf(b)) && |r.state.results| == |b.results|
  {
  }

  /** A change of ends and a period removed are logged as such. */
  lemma ChangesAreLogged(s: CS.Sys<Board>, bestOf: int, stamp: int)
    requires HasSpace(s.log) && s.log.current.Some?
    ensures var n := CS.Serve(Rig(), s, Tap(Swap, bestOf, stamp));
            Entered(s.log, n.log, History.EndsChanged, ShownOf(n.board)) && n.board == SwapEnds(s.board)
    ensures var n := CS.Serve(Rig(), s, Tap(RemovePeriod, bestOf, stamp));
            Entered(s.log, n.log, History.SetRemoved, ShownOf(n.board)) && n.board == RemovePeriodStep(s.board)
  {
    hide Entered, HasSpace, SwapEnds, RemovePeriodStep, History.Record;
    RequestIsLogged(Rig(), s, Tap(Swap, bestOf, stamp), History.EndsChanged, ShownOf(SwapEnds(s.board)));
    RequestIsLogged(Rig(), s, Tap(RemovePeriod, bestOf, stamp), History.SetRemoved, ShownOf(RemovePeriodStep(s.board)));
  }
}
