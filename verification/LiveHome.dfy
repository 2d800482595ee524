/** Who the published rows credit: the home team is team A of the game's row, with everything that is its. */
module LiveHome {
  import opened Basics
  import opened LiveStates
  import opened LiveFixture

  // ---- The row of a game ----------------------------------------------------------------------------------

  /** A team that goes by one of the schedule's two names, read as a person would. */
  predicate GoesBy(norm: string -> string, t: Team, name: string, short: string) {
    || (norm(t.name) != "" && norm(t.name) in [norm(name), norm(short)])
    || (norm(t.short) != "" && norm(t.short) in [norm(name), norm(short)])
  }

  predicate IsHome(norm: string -> string, t: Team, f: Fixture) {
    GoesBy(norm, t, f.home, f.homeShort)
  }

  predicate IsAway(norm: string -> string, t: Team, f: Fixture) {
    GoesBy(norm, t, f.away, f.awayShort)
  }

  function Own<T>(p: Pair<T>, w: Which): T {
    if w == A then p.a else p.b
  }

  function Rival(w: Which): Which {
    if w == A then B else A
  }

  function First<T>(p: Pair<T>, w: Which): Pair<T> {
    Pair(Own(p, w), Own(p, Rival(w)))
  }

  /** Where that team of the state stands. */
  function SideOf(s: LiveState, w: Which): Side {
    if (w == B) == s.aOnRight then Left else Right
  }

  /** The row shows `w` as team A: its name, its points, its sets, its timeouts, its substitutions or fouls,
      its serve, its side of every set - and the other team as team B. */
  predicate Leads(row: Row, s: LiveState, sport: Sport, w: Which) {
    && row.teams == First(s.teams, w) && row.points == First(s.points, w)
    && row.sets == First(s.sets, w) && row.timeouts == First(s.timeouts, w)
    && (if sport == Basketball then row.fouls == First(s.subs, w) && row.subs == Pair(0, 0)
        else row.subs == First(s.subs, w) && row.fouls == Pair(0, 0))
    && row.serving == (if s.serving == None then None
                       else if s.serving == Some(SideOf(s, w)) then Some(Left) else Some(Right))
    && |row.results| == |s.results|
    && (forall i :: 0 <= i < |s.results| ==>
          row.results[i].score == First(s.results[i].score, w) && row.results[i].dur == SetDur(s.results[i].dur))
  }

  lemma RowLeads(s: LiveState, event: Event, sport: Sport, now: int, w: Which)
    ensures Leads(ToHomeAway(ToRow(s, event, sport, now), Some(w)), s, sport, w)
    ensures ToHomeAway(ToRow(s, event, sport, now), None) == ToRow(s, event, sport, now)
  {
    hide StatusOf, IsOver;
    var row := ToHomeAway(ToRow(s, event, sport, now), Some(w));
    if s.serving.Some? {
      assert Across(s.serving) == Some(s.serving.value.Other());
      assert Across(Across(s.serving)) == s.serving;
    }
    assert row.serving == (if s.serving == None then None
                           else if s.serving == Some(SideOf(s, w)) then Some(Left) else Some(Right));
    assert row.teams == First(s.teams, w);
    forall i | 0 <= i < |s.results|
      ensures row.results[i].score == First(s.results[i].score, w) && row.results[i].dur == SetDur(s.results[i].dur)
    {
    }
  }

  lemma MeetingIsGoingBy(norm: string -> string, t: Team, name: string, short: string)
    ensures Meets(NameSet(norm, t.name, t.short), NameSet(norm, name, short)) <==> GoesBy(norm, t, name, short)
  {
    var x, y := NameSet(norm, t.name, t.short), NameSet(norm, name, short);
    if GoesBy(norm, t, name, short) {
      if norm(t.name) != "" && norm(t.name) in [norm(name), norm(short)] {
        assert norm(t.name) in x * y;
      } else {
        assert norm(t.short) in x * y;
      }
    }
  }

  lemma HomeIsTold(norm: string -> string, s: LiveState, f: Fixture)
    ensures HomeIsA(norm, s.teams, f) <==> IsHome(norm, s.teams.a, f) || IsAway(norm, s.teams.b, f)
    ensures HomeIsA(norm, s.teams.Flipped(), f) <==> IsHome(norm, s.teams.b, f) || IsAway(norm, s.teams.a, f)
  {
    MeetingIsGoingBy(norm, s.teams.a, f.home, f.homeShort);
    MeetingIsGoingBy(norm, s.teams.b, f.home, f.homeShort);
    MeetingIsGoingBy(norm, s.teams.a, f.away, f.awayShort);
    MeetingIsGoingBy(norm, s.teams.b, f.away, f.awayShort);
    hide GoesBy, Meets, NameSet;
  }

  /** The home team leads its game's row: a team that goes by the home names, when the board does not also fit
      the other way round; or whose opponent goes by the away names. */
  lemma HomeTeamLeads(norm: string -> string, s: LiveState, f: Fixture, event: Event, sport: Sport, now: int, w: Which)
    requires IsHome(norm, Own(s.teams, w), f) || IsAway(norm, Own(s.teams, Rival(w)), f)
    requires !IsHome(norm, Own(s.teams, Rival(w)), f) && !IsAway(norm, Own(s.teams, w), f)
    ensures HomeSide(norm, s, f) == Some(w)
    ensures Leads(ToHomeAway(ToRow(s, event, sport, now), HomeSide(norm, s, f)), s, sport, w)
  {
    HomeIsTold(norm, s, f);
    RowLeads(s, event, sport, now, w);
    hide HomeIsA, IsHome, IsAway, Leads;
  }

  /** Names that fit both ways leave it to where home started: the left, for a board set up from the game. The
      board's own sources say whether the ends were changed since. */
  lemma HomeStartedOnTheLeft(norm: string -> string, s: LiveState, f: Fixture, event: Event, sport: Sport, now: int)
    requires IsHome(norm, s.teams.a, f) || IsAway(norm, s.teams.b, f)
    requires IsHome(norm, s.teams.b, f) || IsAway(norm, s.teams.a, f)
    ensures HomeSide(norm, s, f).Some? <==> f.homeStartsLeft && s.endsSwapped.Some?
    ensures f.homeStartsLeft && s.endsSwapped.Some? ==>
              Leads(ToHomeAway(ToRow(s, event, sport, now), HomeSide(norm, s, f)), s, sport,
                    if s.endsSwapped.value then B else A)
  {
    HomeIsTold(norm, s, f);
    RowLeads(s, event, sport, now, A);
    RowLeads(s, event, sport, now, B);
    hide HomeIsA, IsHome, IsAway, Leads;
  }

  /** Names that fit neither way name nobody, whatever else the board knows. */
  lemma StrangersAreNobodys(norm: string -> string, s: LiveState, f: Fixture)
    requires forall t :: t in {s.teams.a, s.teams.b} ==> !IsHome(norm, t, f) && !IsAway(norm, t, f)
    ensures HomeSide(norm, s, f) == None
  {
    HomeIsTold(norm, s, f);
    hide HomeIsA, IsHome, IsAway;
  }

  // ---- What a row says of the match -----------------------------------------------------------------------

  /** A row is final when its match is won, or just ended; idle on a neutral board; and live in between. The
      set it names is the one being played, or the last one played. */
  lemma RowReadsTheMatch(s: LiveState, event: Event, sport: Sport, now: int)
    ensures var row := ToRow(s, event, sport, now);
            && (row.status == Final <==> IsOver(s, sport) || event == MatchEnd) && row.over == IsOver(s, sport)
            && (row.status == Idle ==>
                  && s.points == s.sets == Pair(0, 0) && s.results == []
                  && s.teams.a.name == s.teams.b.name == "")
            && (row.status == Playing ==>
                  || s.points != Pair(0, 0) || s.sets != Pair(0, 0) || s.results != []
                  || s.teams.a.name != "" || s.teams.b.name != "")
            && (sport == Basketball ==> row.period == s.period)
            && (sport != Basketball && s.results != [] && row.status == Final ==> row.period == |s.results|)
            && (sport != Basketball && s.results != [] && row.status != Final ==> row.period == |s.results| + 1)
            && (sport != Basketball && s.results == [] ==>
                  row.period == if s.currentSet == 0 then 1 else s.currentSet)
            && row.sport == sport && row.event == event && row.ts == now
  {
  }

  /** A volleyball match is over when a team has the sets its format asks for: those the board reports, else 3
      indoors and 2 on the beach. A basketball game is when its source says so. */
  lemma OverIsEnoughSets(s: LiveState, sport: Sport)
    ensures sport == Basketball ==> IsOver(s, sport) == s.over
    ensures sport != Basketball && s.setsToWin.Some? && s.setsToWin.value > 0 ==>
              (IsOver(s, sport) <==> s.sets.a >= s.setsToWin.value || s.sets.b >= s.setsToWin.value)
    ensures sport != Basketball && (s.setsToWin == None || s.setsToWin.value <= 0) ==>
              (IsOver(s, sport) <==> Max(s.sets.a, s.sets.b) >= (if sport == BeachVolleyball then 2 else 3))
  {
  }
}

/** The rows of the board's own matches. */
module PublishedMatches {
  import opened Basics
  import opened LiveStates
  import opened LiveFixture
  import opened LiveHome
  import LogRules
  import Manual
  import Beach
  import Basketball

  lemma SetsAfterPoint(b: Manual.Board, side: Side, d: int, bestOf: int, now: int)
    requires bestOf in {3, 5} && 2 * b.m.sets.left <= bestOf && 2 * b.m.sets.right <= bestOf
    ensures var t := Manual.PointStep(b, side, d, None, bestOf, now);
            t.event == MatchEnd <==> 2 * t.board.m.sets.left > bestOf || 2 * t.board.m.sets.right > bestOf
  {
    hide TallyBefore, Won, ElapsedSecs, Manual.Refuses;
  }

  /** The match point makes the row final, and it stays so without the event - on every later push of that
      board; no set won before it does. */
  lemma MatchPointIsFinal(b: Manual.Board, side: Side, d: int, bestOf: int, now: int, event: Event)
    requires bestOf in {3, 5} && 2 * b.m.sets.left <= bestOf && 2 * b.m.sets.right <= bestOf
    requires event != MatchEnd
    ensures var t := Manual.PointStep(b, side, d, None, bestOf, now);
            StatusOf(Manual.StateOf(t.board, bestOf), event, Volleyball) == Final <==> t.event == MatchEnd
  {
    SetsAfterPoint(b, side, d, bestOf, now);
    hide Manual.PointStep;
  }

  lemma BeachSetsAfterPoint(b: Beach.Board, side: Side, d: int, bestOf: int, now: int)
    requires bestOf in {3, 5} && 2 * b.m.sets.left <= bestOf && 2 * b.m.sets.right <= bestOf
    ensures var t := Beach.PointStep(b, side, d, None, bestOf, now);
            t.event == MatchEnd <==> 2 * t.board.m.sets.left > bestOf || 2 * t.board.m.sets.right > bestOf
  {
    hide TallyBefore, Won, ElapsedSecs, Beach.Refuses, Beach.Crossed;
  }

  lemma BeachMatchPointIsFinal(b: Beach.Board, side: Side, d: int, bestOf: int, now: int, event: Event)
    requires bestOf in {3, 5} && 2 * b.m.sets.left <= bestOf && 2 * b.m.sets.right <= bestOf
    requires event != MatchEnd
    ensures var t := Beach.PointStep(b, side, d, None, bestOf, now);
            StatusOf(Beach.StateOf(t.board, bestOf), event, BeachVolleyball) == Final <==> t.event == MatchEnd
  {
    BeachSetsAfterPoint(b, side, d, bestOf, now);
    hide Beach.PointStep;
  }

  /** The row of a game the board was set up from is by where the teams started: team A's column is the team
      that began on the left, at every moment of the match. */
  lemma RowIsByTeam(norm: string -> string, b: Manual.Board, bestOf: int, f: Fixture, event: Event, now: int)
    requires var s := Manual.StateOf(b, bestOf);
             && (IsHome(norm, s.teams.a, f) || IsAway(norm, s.teams.b, f))
             && (IsHome(norm, s.teams.b, f) || IsAway(norm, s.teams.a, f))
    requires f.homeStartsLeft
    ensures var s := Manual.StateOf(b, bestOf);
            var row := ToHomeAway(ToRow(s, event, Volleyball, now), HomeSide(norm, s, f));
            var swapped := b.m.endsSwapped;
            && row.teams == Pair(LogRules.Teamwise(b.m.teams, swapped, TeamA),
                                 LogRules.Teamwise(b.m.teams, swapped, TeamB))
            && row.points == Pair(LogRules.Teamwise(b.m.points, swapped, TeamA),
                                  LogRules.Teamwise(b.m.points, swapped, TeamB))
            && row.sets == Pair(LogRules.Teamwise(b.m.sets, swapped, TeamA),
                                LogRules.Teamwise(b.m.sets, swapped, TeamB))
  {
    var s := Manual.StateOf(b, bestOf);
    HomeStartedOnTheLeft(norm, s, f, event, Volleyball, now);
    hide IsHome, IsAway, HomeSide, ToHomeAway, ToRow;
  }
}
