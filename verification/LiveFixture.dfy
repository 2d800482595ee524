/** The published rows: the board row (src/livePush.js toRow, isOver, isFresh, whoIsPlaying) and the
    fixture row turned so that team A is the home team (src/liveFixture.js). */
module LiveFixture {
  import opened Basics
  import opened LiveStates

  datatype Sport = Volleyball | BeachVolleyball | Basketball

  datatype Status = Idle | Playing | Final

  /** A live_scores row. `serving` Left means team A. */
  datatype Row = Row(
    sport: Sport,
    status: Status,
    event: Event,
    ts: int,
    over: bool,
    period: int,
    teams: Pair<Team>,
    points: Pair<int>,
    sets: Pair<int>,
    timeouts: Pair<int>,
    subs: Pair<int>,
    fouls: Pair<int>,
    serving: Option<Side>,
    results: seq<PairResult>)

  // ---- The board row ----------------------------------------------------------------------------

  /** Is the match over? From the match state only; the reported format wins over the constant. */
  predicate IsOver(s: LiveState, sport: Sport) {
    if sport == Basketball then s.over
    else
      var toWin :=
        if s.setsToWin.Some? && s.setsToWin.value > 0 then s.setsToWin.value
        else if sport == BeachVolleyball then 2 else 3;
      s.sets.a >= toWin || s.sets.b >= toWin
  }

  /** Nothing scored yet. */
  predicate IsFresh(s: LiveState) {
    s.points == Pair(0, 0) && s.sets == Pair(0, 0)
  }

  predicate IsBlank(s: LiveState) {
    s.teams.a.name == "" && s.teams.b.name == "" && IsFresh(s) && s.results == []
  }

  function NameOf(t: Team): string {
    if t.name != "" then t.name else t.short
  }

  /** Who is playing, in no order: a change of ends is the same match. */
  function WhoIsPlaying(s: LiveState): multiset<string> {
    multiset{NameOf(s.teams.a), NameOf(s.teams.b)}
  }

  function StatusOf(s: LiveState, event: Event, sport: Sport): Status {
    if IsOver(s, sport) || event == MatchEnd then Final else if IsBlank(s) then Idle else Playing
  }

  /** Basketball carries its fouls in the state's subs; a linked state's serve is re-projected onto A. */
  function ToRow(s: LiveState, event: Event, sport: Sport, now: int): Row {
    var status := StatusOf(s, event, sport);
    var period :=
      if sport == Basketball then s.period
      else if s.results != [] then |s.results| + (if status == Final then 0 else 1)
      else if s.currentSet != 0 then s.currentSet else 1;
    Row(sport, status, event, now, IsOver(s, sport), period, s.teams, s.points, s.sets, s.timeouts,
        if sport == Basketball then Pair(0, 0) else s.subs,
        if sport == Basketball then s.subs else Pair(0, 0),
        if s.aOnRight then Across(s.serving) else s.serving,
        Timed(s.results))
  }

  // ---- The fixture row ----------------------------------------------------------------------------

  datatype Fixture = Fixture(id: int, home: string, away: string, homeShort: string, awayShort: string,
                             homeStartsLeft: bool)

  datatype Which = A | B

  /** The names as a person would read them; `norm` folds case, accents, spacing and the club's own
      short form. Empty ones do not count. */
  function NameSet(norm: string -> string, name: string, short: string): set<string> {
    {norm(name), norm(short)} - {""}
  }

  predicate Meets(x: set<string>, y: set<string>) {
    x * y != {}
  }

  predicate HomeIsA(norm: string -> string, teams: Pair<Team>, f: Fixture) {
    || Meets(NameSet(norm, teams.a.name, teams.a.short), NameSet(norm, f.home, f.homeShort))
    || Meets(NameSet(norm, teams.b.name, teams.b.short), NameSet(norm, f.away, f.awayShort))
  }

  /** Which of the state's teams is the fixture's home team, or None when the board cannot tell. */
  function HomeSide(norm: string -> string, s: LiveState, f: Fixture): Option<Which> {
    var homeIsA := HomeIsA(norm, s.teams, f);
    var homeIsB := HomeIsA(norm, s.teams.Flipped(), f);
    if homeIsA != homeIsB then Some(if homeIsA then A else B)
    else if homeIsA && f.homeStartsLeft && s.endsSwapped.Some? then Some(if s.endsSwapped.value then B else A)
    else None
  }

  function OtherWhich(w: Option<Which>): Option<Which> {
    match w
    case None => None
    case Some(v) => Some(if v == A then B else A)
  }

  /** The row with team A the home team. */
  function ToHomeAway(row: Row, side: Option<Which>): Row {
    if side != Some(B) then row
    else
      row.(teams := row.teams.Flipped(), points := row.points.Flipped(), sets := row.sets.Flipped(),
      timeouts := row.timeouts.Flipped(), subs := row.subs.Flipped(), fouls := row.fouls.Flipped(),
      serving := Across(row.serving), results := FlipPairResults(row.results))
  }

  // ---- What a change of ends does to them -----------------------------------------------------------

  /** `toHomeAway` with 'b' undoes itself. */
  lemma TurningTwice(row: Row)
    ensures ToHomeAway(ToHomeAway(row, Some(B)), Some(B)) == row
  {
    assert FlipPairResults(FlipPairResults(row.results)) == row.results;
    assert row.serving != None ==> Across(Across(row.serving)) == row.serving;
  }

  /** The home side changes with the ends, or the board cannot tell from either. */
  lemma HomeSideFlips(norm: string -> string, s: LiveState, f: Fixture)
    requires s.endsSwapped.Some?
    ensures HomeSide(norm, ChangeEnds(s), f) == OtherWhich(HomeSide(norm, s, f))
  {
    assert s.teams.Flipped().Flipped() == s.teams;
  }

  /** A change of ends turns the board row round and touches nothing else. */
  lemma RowFlips(s: LiveState, event: Event, sport: Sport, now: int)
    requires !s.aOnRight
    ensures ToRow(ChangeEnds(s), event, sport, now) == ToHomeAway(ToRow(s, event, sport, now), Some(B))
  {
    assert Timed(FlipPairResults(s.results)) == FlipPairResults(Timed(s.results));
  }

  /** The game's home/away row does not change at a change of ends: whenever the board can tell who is
      home - and it writes no such row when it cannot - the row is the same from either end. */
  lemma FixtureRowSurvivesChangeOfEnds(norm: string -> string, s: LiveState, f: Fixture, event: Event, sport: Sport,
                                       now: int)
    requires !s.aOnRight && s.endsSwapped.Some?
    ensures HomeSide(norm, ChangeEnds(s), f) == None <==> HomeSide(norm, s, f) == None
    ensures HomeSide(norm, s, f) != None ==>
              ToHomeAway(ToRow(ChangeEnds(s), event, sport, now), HomeSide(norm, ChangeEnds(s), f))
              == ToHomeAway(ToRow(s, event, sport, now), HomeSide(norm, s, f))
  {
    HomeSideFlips(norm, s, f);
    RowFlips(s, event, sport, now);
    TurningTwice(ToRow(s, event, sport, now));
  }

  /** Without a home side the expression itself is the board row, which turns: so it survives every
      change of ends exactly when the board can tell, or shows a row that reads the same both ways. */
  lemma FixtureRowExactly(norm: string -> string, s: LiveState, f: Fixture, event: Event, sport: Sport, now: int)
    requires !s.aOnRight && s.endsSwapped.Some?
    ensures var row := ToRow(s, event, sport, now);
            ToHomeAway(ToRow(ChangeEnds(s), event, sport, now), HomeSide(norm, ChangeEnds(s), f))
              == ToHomeAway(row, HomeSide(norm, s, f))
            <==> HomeSide(norm, s, f) != None || ToHomeAway(row, Some(B)) == row
  {
    HomeSideFlips(norm, s, f);
    RowFlips(s, event, sport, now);
    TurningTwice(ToRow(s, event, sport, now));
  }

  /** A board whose teams are not the fixture's, one point played. */
  const STRANGERS: LiveState :=
    LiveState(false, Pair(Team("X", "", ""), Team("Y", "", "")), Pair(1, 0), Pair(0, 0), Pair(0, 0), Pair(0, 0),
              Some(Left), Some(false), [], Some(3), 0, 0, false)

  /** Its row does turn, so nothing may be written from it under the game. */
  lemma UnknownHomeTurnsTheRow(sport: Sport, now: int)
    ensures var norm := (name: string) => name;
            var f := Fixture(1, "Home", "Away", "", "", true);
            var turned := ChangeEnds(STRANGERS);
            && HomeSide(norm, STRANGERS, f) == None
            && ToHomeAway(ToRow(turned, NoEvent, sport, now), HomeSide(norm, turned, f))
               != ToHomeAway(ToRow(STRANGERS, NoEvent, sport, now), HomeSide(norm, STRANGERS, f))
  {
    var norm := (name: string) => name;
    var f := Fixture(1, "Home", "Away", "", "", true);
    var x, y, home, away := "X", "Y", "Home", "Away";
    assert |x| != |home| && |x| != |away| && |y| != |home| && |y| != |away|;
    assert !HomeIsA(norm, STRANGERS.teams, f) && !HomeIsA(norm, STRANGERS.teams.Flipped(), f);
    HomeSideFlips(norm, STRANGERS, f);
    assert ToRow(STRANGERS, NoEvent, sport, now).points == Pair(1, 0);
  }

  /** Neither a change of ends nor the side a team stands on says a new match began. */
  lemma ChangeOfEndsIsNoNewMatch(s: LiveState, sport: Sport)
    ensures WhoIsPlaying(ChangeEnds(s)) == WhoIsPlaying(s)
    ensures IsFresh(ChangeEnds(s)) == IsFresh(s) && IsOver(ChangeEnds(s), sport) == IsOver(s, sport)
  {
  }
}
