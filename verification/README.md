# Scoreboard verification

A Dafny model of the scoreboard's state machines, and proofs that they agree with each other over whole
matches. Five parts:

1. The **scoring engines** - indoor (`ManualSource.dfy`), beach (`BeachSource.dfy`), basketball
   (`BasketballSource.dfy`) - work by physical side, update their fields in place and keep a bounded stack of
   earlier boards (`UndoJournal.dfy`). Each engine is a class whose methods are proved against a function of
   the old board (`Step`, `Loaded`, `SwapEnds`, ...); what holds over whole runs is proved about that function
   (`ManualTheorems.dfy`, `ManualMatches.dfy`, `BeachMatches.dfy`, `SetTally.dfy`). What each action means for
   each side, field by field, is in `ManualRules.dfy`, `BeachRules.dfy` and `BasketballRules.dfy`; `LoadRules.dfy`
   says where a saved state puts everything, and `Resume.dfy` takes what a source reports through a save and a
   load.
2. The **match log** (`HistoryStore.dfy`) archives and reopens matches, works by team, and keeps its own undo
   journal (`HistoryUndo.dfy`). `LogCredits.dfy` and `LogRules.dfy` say what an entry credits: which team, with
   what score, and what the action closed, each against the board itself. The control server applies an action
   to the engine and persists it in the log (`ControlServer.dfy`, stated for any engine); `HistoryByTeam.dfy` and
   `ChangesOfEnds.dfy` say that a change of ends leaves no other trace in the log; `Console.dfy` is the server
   with the indoor engine and the log as objects, `PrematchRules.dfy` what the start of a match cuts, and
   `OtherConsoles.dfy` states the composed theorems for the beach and basketball engines.
3. The **live publisher** (`LivePush.dfy`, `LivePushRuns.dfy`) as a protocol: pushes, a debounce or backoff
   timer, answers of any status in any order, faults, detach. `LivePushMatches.dfy` says which pushes are one
   match, and where every result ends up. `LiveFixture.dfy` is the pure layer that turns a board by side into a
   row by home and away, and `LiveHome.dfy` says whom such a row credits.
4. The **wire to the panel**: the incremental gzip de-framer (`GzipHeader.dfy`, `StreamDecoder.dfy`,
   `Chunking.dfy`, and `StreamRecovery.dfy` for a stream that went wrong) and the matching of replies that carry
   no ids (`LedboxClient.dfy`).
5. The **break edges of a linked match** (`LanSource.dfy`, `LanRules.dfy`).

`Basics.dfy` and `LiveState.dfy` hold sides, teams, set results, the format rules and the state a source
reports. An earlier board is a value, so nothing the engine later does to its fields can reach it: every
`Apply` and `Undo` is proved to leave exactly the journal the functional run has.

Where the code does not keep what its comments or its tests suggest, the code is modelled as it is, an input is
named, and the exact condition is proved:

- a closed set recorded as a tie (only a loaded board has one) makes the two ends read the deciding set
  differently (`BiasExactly` and `LoadedTieIsBiased`, indoor and beach);
- a full archive of 100 matches loses its oldest for good when a match is archived and that is undone
  (`UndoneExactly`, `FullArchiveIsNotRestored`);
- an action the engine did not journal is persisted all the same, and can reopen the last archived match or
  drop the one in progress where no undo reaches it (`UnjournaledExactly`): a timeout called and taken back on a
  fresh board and then a reset (`ResetDropsAMatch`), or an empty board loaded after a match and then a "-" on its
  0 (`MinusReopensAMatch`);
- a state pushed after a re-attach, while a flush from before the detach is still running, is not sent until
  something else is pushed (`StrandedExactly`, `LeftBehindExactly`, `ReattachDuringAFlushStrands`);
- a server that commits a history row and answers with an error that says it did not gets the row twice
  (`NoDuplicateRows`, `CommittedRefusalIsDoubled`);
- a late reply of the panel can be handed to the next request of its command, after another late reply was
  dropped, for SetLayout, or after its time (`LateReplyExactly`, `SlowBoardIsMisread`);
- `toHomeAway` with no home side is the board row, which turns at a change of ends (`FixtureRowExactly`,
  `UnknownHomeTurnsTheRow`).

The live entries of a match are those of journaled actions: undo markers and entries of un-journaled actions stay
in the log after an undo (`KeepsOld` says that all of those as old as the actions undone do, in order).

## Model

| member | source | states |
|---|---|---|
| `UndoJournals.UndoJournal.Record` | src/manualSource.js:42-48 | a step is added exactly when the action changed the board, the oldest falling off beyond the cap; a refused, unknown or no-op action adds none |
| `UndoJournals.UndoJournal.Pop` | src/manualSource.js:49 | the newest step and the journal without it; nothing from an empty journal |
| `UndoJournals.BoundedUndoRefinesIdeal` | src/manualSource.js:33-53 | while no undo reaches past what the cap kept, the bounded journal shows the same board as an unbounded one, over every run of actions and undos |
| `UndoJournals.OutOfReachDiffers` | src/manualSource.js:42-50 | out of reach is the only way to differ: there the bounded journal leaves the board and the unbounded one takes back one action more |
| `UndoJournals.RunKeepsChain` | src/manualSource.js:33-53 | over every run the journal never holds more than its cap, and each of its boards, by one action, becomes the one above it and the last the board on show |
| `UndoJournals.UndoIsExactInverse` | src/manualSource.js:245-271 | as many undos as actions that changed something bring back model, recorded sets and closed flag, and the journal itself when nothing fell off it |
| `UndoJournals.RunKeepsInvariant` | src/manualSource.js:264-271 | what every allowed action keeps, every run of allowed actions and undos keeps, for the board and for every board an undo can bring back |
| `UndoJournals.RunFollows` | src/manualSource.js:264-271 | notes kept beside the boards, and undone with them, never change which board a run of actions and undos shows |
| `Manual.ManualSource.constructor` | src/manualSource.js:138-152 | a fresh engine shows the neutral board with nothing to undo, best of 5 unless told 3 |
| `Manual.ManualSource.SetFormat` | src/manualSource.js:154-161 | no format given keeps the old one; 3 is best of 3 and anything else best of 5 |
| `Manual.ManualSource.FromLiveState` | src/manualSource.js:188-231 | a saved state by team is laid out by side, entries that are no result dropped, and the closed flag read off the last result |
| `Manual.ManualSource.SyncClosed` | src/manualSource.js:237-240 | a set counts as closed exactly when the board holds the last recorded score |
| `Manual.ManualSource.Restore` | src/manualSource.js:249-254 | model, results and closed flag are those of the earlier board |
| `Manual.ManualSource.SwapSides` | src/manualSource.js:495-510 | the board afterwards is the whole board - results and first server included - seen from the other side |
| `Manual.ManualSource.WinRally` | src/manualSource.js:356-371 | the winner of a rally scores and serves, opens the set and starts its clock when it is the first |
| `Manual.ManualSource.TapPoints` | src/manualSource.js:345-401 | board and event of one + or - are those of the rally rules |
| `Manual.ManualSource.StartNextSet` | src/manualSource.js:440-466 | the board afterwards is that of the next set |
| `Manual.ManualSource.RemoveLastSet` | src/manualSource.js:467-476 | the last recorded set and its set point are gone and the set is open |
| `Manual.ManualSource.Reload` | src/manualSource.js:481-488 | a loaded board keeps the running set clock exactly when it is the same board |
| `Manual.ManualSource.Apply` | src/manualSource.js:318-492 | board, event and journal after any action are those of one step of the engine's run, and the action is journaled exactly when the board changed |
| `Manual.ManualSource.Undo` | src/manualSource.js:264-271 | board and journal after an undo are those of the run's undo; with nothing to undo it says so and changes nothing |
| `Manual.ManualSource.ClearUndo` | src/manualSource.js:260 | nothing is left to undo |
| `ManualTheorems.SwapTwice` | src/manualSource.js:495-510 | two changes of ends are none |
| `ManualTheorems.NoSideBias` | src/manualSource.js:318-510 | an action from the other end of the court changes the same things for the same team and raises the same event, unless the closed set on the board was recorded as a tie |
| `ManualTheorems.JournaledAlike` | src/manualSource.js:490 | and it is put on the undo journal from either end alike |
| `ManualTheorems.TieIgnoresRules` | src/manualSource.js:374-400 | the rules a tied set is read by show in the prompt to change ends and nowhere else |
| `ManualTheorems.BiasExactly` | src/manualSource.js:175-185 | a board treats both ends alike for every action exactly when it is not a tied closed set that the two ends read differently with both sides below 8 |
| `ManualTheorems.LoadedTieIsBiased` | src/manualSource.js:175-185 | a board loaded at 5-5 with that score recorded and sets at 2-3 is one: three points make a switch due at one end only |
| `ManualTheorems.ReportsChangeOfEnds` | src/manualSource.js:295-316 | after a change of ends the engine reports the same match seen from the other side |
| `SetTally.WinsAcross` | src/manualSource.js:495-510 | exchanging ends in every recorded result exchanges the sets won |
| `ManualMatches.TapKeepsTally` | src/manualSource.js:364-400 | a + or - keeps tally, recorded sets and closed flag consistent, award and take-back included |
| `ManualMatches.RemoveKeepsTally` | src/manualSource.js:467-476 | so does removing the last set |
| `ManualMatches.TallyCountsRecordedSets` | src/manualSource.js:318-492 | in every state reachable without a typed tally or a loaded board each side's sets won are the recorded sets it won, every recorded set has a margin of 2 and a winner at 15 or more, and a closed set has a result |
| `ManualMatches.FreshBoardIsSound` | src/manualSource.js:477-480 | a fresh or reset board is such a state |
| `ManualMatches.OneTap` | src/manualSource.js:356-392 | one + before the last moves only the points; the last one records the score on show and counts the set |
| `ManualMatches.AwardedOnTheExactTap` | src/manualSource.js:364-388 | from any open board the set is awarded on tap number max(target, other + 2) - p and on none before |
| `ManualMatches.WinnerIsRefused` | src/manualSource.js:327-344 | while the board holds the closing score every + of the winner is refused and changes nothing, and the loser's awards nothing |
| `ManualMatches.JustAwarded` | src/manualSource.js:373-388 | a tap that raised a set or match end leaves that side the winner of the closed set |
| `ManualMatches.AwardRulesStand` | src/manualSource.js:175-185 | once awarded, the set - the deciding one too - is still judged by the rules it was played under |
| `ManualMatches.MinusTakesTheSetBack` | src/manualSource.js:389-400 | the winner's - right after the award restores points, tally, recorded sets and closed flag, deciding set included |
| `ManualMatches.NeverAwardedTwice` | src/manualSource.js:364-400 | whatever is tapped up and down without a typed score, at most one set more is ever on record, exactly while it counts as closed, and the earlier ones stay |
| `ManualMatches.OpenerStays` | src/manualSource.js:356-371 | no point, correction or change of ends changes which team opened the set |
| `ManualMatches.NextSetAlternates` | src/manualSource.js:440-466 | the next set is opened by the other team, and the arrow points at it |
| `ManualMatches.DecidingSetFollowsTheArrow` | src/manualSource.js:445-464 | into the deciding set the arrow stays, names the opener, and nobody changes ends |
| `ManualMatches.FirstServeAlternates` | src/manualSource.js:440-466 | over every run from any board - declarations, loads and undos included - the team that opens a set is the one that did not open the set before it (rule 12.1.2 of the FIVB Official Volleyball Rules), except into the deciding set and after an opener the engine does not know |
| `ManualRules.DecidingSetIsTheLast` | src/settings.js:305-311 | the deciding set is the last of the format with the others shared, played to 15, all others to 25 |
| `ManualRules.MatchIsWonByMajority` | src/manualSource.js:373-388 | a set won ends the match exactly when its winner then has more than half of its sets |
| `ManualRules.PlusMovesThePoint` | src/manualSource.js:356-371 | a + that is not refused raises its side's points by it and nobody else's, that side serves next, and the set's opener is who served the first rally unless it was declared |
| `ManualRules.RefusedExactly` | src/manualSource.js:327-336 | a + is refused exactly while the set is closed, the board holds the score it closed at, and it is the winner's |
| `ManualRules.MinusMovesThePoint` | src/manualSource.js:354-400 | a - lowers its side's points, not below 0, and leaves serve, opener and clock |
| `ManualRules.TypedScoreReopens` | src/manualSource.js:343-353 | a typed score moves only the number, raises nothing, and opens the set exactly when it is not the score last recorded |
| `ManualRules.TypedAwayIsPlayedAgain` | src/manualSource.js:337-387 | so a set typed away from its closing score is won, and recorded, again on the exact tap |
| `ManualRules.CountersMove` | src/manualSource.js:402-417 | timeouts, substitutions and the tally move for the side named, by the delta or to the typed value, never below 0, and nothing else moves |
| `ManualRules.ServeAndNamesMove` | src/manualSource.js:418-439 | a serve names the side that serves, and at 0-0 the opener; a team edit changes what it carries of the side named |
| `ManualRules.NextSetClears` | src/manualSource.js:440-466 | the next set starts open and untimed at 0-0 with every team's name, sets and recorded scores, ends changed exactly when it is not into the deciding set |
| `ManualRules.RemoveLastOpens` | src/manualSource.js:467-476 | removing a set takes the last result and the set point of whoever won it |
| `ManualRules.WinnerServesNext` | src/manualSource.js:356-371 | over every run with its undos the arrow names the team that won the last rally, through corrections and changes of ends, until a serve, a next set or a load |
| `ManualRules.SwitchIsDueOnce` | src/manualSource.js:380-387 | the change of ends of the deciding set is due once, when a side first reaches 8, and in no other set |
| `ManualRules.SetIsTimed` | src/manualSource.js:364-388 | a set won is timed from its first rally to its last, in whole seconds rounded |
| `Beach.BeachSource.RallyPoint` | src/beachSource.js:282-331 | board and event of a + are those of the beach rally rules |
| `Beach.BeachSource.CorrectPoints` | src/beachSource.js:332-343 | a - moves the points and takes back the set the score had won |
| `Beach.BeachSource.StartNextSet` | src/beachSource.js:396-413 | the board afterwards is that of the next set, with only the serving pair's turn begun |
| `Beach.BeachSource.SwapSides` | src/beachSource.js:444-458 | the board afterwards is the whole board - servers and their turns included - seen from the other side |
| `Beach.BeachSource.FromLiveState` | src/beachSource.js:122-168 | a saved state by team is laid out by side, with missing server turns read off the serve |
| `Beach.BeachSource.Apply` | src/beachSource.js:245-439 | board, event and journal after any action are those of one step of the engine's run |
| `Beach.BeachSource.Undo` | src/beachSource.js:192-200 | board and journal after an undo are those of the run's undo |
| `BeachMatches.SwapTwice` | src/beachSource.js:444-458 | two changes of ends are none, for the servers too |
| `BeachMatches.NoSideBias` | src/beachSource.js:245-458 | an action from the other end - serve order and players included - changes the same things for the same pair and raises the same event, unless the closed set was recorded as a tie |
| `BeachMatches.BiasExactly` | src/beachSource.js:104-111 | a board treats both ends alike for every action exactly when it is not a tied closed set whose target the two ends read differently while a rally up to 20 can make a court change due |
| `BeachMatches.LoadedTieIsBiased` | src/beachSource.js:104-111 | a board loaded at 12-12 with that score recorded and sets at 1-2 is one |
| `BeachMatches.JournaledAlike` | src/beachSource.js:437 | an action is put on the undo journal from either end alike |
| `BeachMatches.ReportsChangeOfEnds` | src/beachSource.js:222-243 | after a change of ends the engine reports the same match seen from the other side |
| `BeachMatches.TallyCountsRecordedSets` | src/beachSource.js:301-343 | the sets won are the recorded sets won, every recorded set is real and a closed set has a result, over every run without a typed tally or a loaded board |
| `BeachMatches.ServingPairHasServed` | src/beachSource.js:361-373 | in the closed form that starts from a declared order, the pair that serves has always begun a service turn |
| `BeachMatches.TracksTurn` | src/beachSource.js:290-300 | one rally moves a pair's server exactly when it wins the serve back after an earlier turn of its own |
| `BeachMatches.ServersFollowTheDeclaredOrder` | src/beachSource.js:361-373 | after a declared serve order and any rallies, changes of ends anywhere, each pair's server is its declared player flipped (service turns begun - 1) times, and the declared player while it has not served |
| `BeachMatches.ServingPairIsFlagged` | src/beachSource.js:290-373 | and on the board that pair is flagged as having served |
| `BeachMatches.CourtEventCounts` | src/beachSource.js:316-331 | one point more raises exactly what the new sum makes due |
| `BeachMatches.CourtChangesCountedExactly` | src/beachSource.js:316-331 | from 0-0 in an unfinished set: one technical timeout once the sum reached 21 and, with it, sum / 7 court changes; in the decider sum / 5 and no timeout |
| `BeachRules.DecidingSetIsTheLast` | src/beachSource.js:104-111 | the deciding set is the last of the format with the others shared, played to 15, all others to 21 |
| `BeachRules.MatchIsWonByMajority` | src/beachSource.js:305-315 | a set won ends the match exactly when its winner then has more than half of its sets |
| `BeachRules.PlusMovesThePoint` | src/beachSource.js:279-304 | a + that is not refused raises its side's points by it, that side serves next, the clock starts at 0-0, and the other pair keeps its server and its turn |
| `BeachRules.RefusedExactly` | src/beachSource.js:254-262 | a + is refused exactly while the set is closed, the board holds the score it closed at, and it is the winner's |
| `BeachRules.WonSetIsRecorded` | src/beachSource.js:305-315 | a set won is recorded at the score on show with its playing time and counts for its winner |
| `BeachRules.MinusMovesThePoint` | src/beachSource.js:332-343 | a - lowers its side's points, not below 0, and leaves serve and servers |
| `BeachRules.TypedScoreReopens` | src/beachSource.js:262-278 | a typed score moves only the number and opens the set exactly when it is not the score last recorded |
| `BeachRules.CountersMove` | src/beachSource.js:346-357 | timeouts and the tally move for the side named and nothing else moves; a substitution moves nothing |
| `BeachRules.ServeAndNamesMove` | src/beachSource.js:358-395 | a serve names the side that serves; a team edit changes what it carries of the side named |
| `BeachRules.OrderIsDeclared` | src/beachSource.js:361-373 | a declared order sets who serves first and each pair's first server, with only the first pair's turn begun |
| `BeachRules.ServerIsCorrected` | src/beachSource.js:374-384 | a pair's server is corrected to the player typed or its other one - of the pair named, else the one serving |
| `BeachRules.NextSetClears` | src/beachSource.js:396-413 | the next set starts open and untimed at 0-0, each pair with its server, ends changed exactly when it is not into the deciding set |
| `BeachRules.RemoveLastOpens` | src/beachSource.js:414-424 | removing a set takes the last result and the set point of whoever won it |
| `BeachRules.AwardedOnTheExactTap` | src/beachSource.js:279-315 | from any open board the set is awarded on tap number max(target, other + 2) - p and on none before |
| `BeachRules.WinnerIsRefused` | src/beachSource.js:254-262 | while the board holds the closing score every + of the winner is refused, and the loser's awards nothing |
| `BeachRules.MinusTakesTheSetBack` | src/beachSource.js:332-343 | the winner's - right after the award restores points, tally, recorded sets and closed flag, deciding set included |
| `Basketball.BasketballSource.FinishPeriod` | src/basketballSource.js:231-253 | board and event of an ended period are those of the rules |
| `Basketball.BasketballSource.RemoveLastPeriod` | src/basketballSource.js:254-265 | the board afterwards is the one with the last period removed |
| `Basketball.BasketballSource.Apply` | src/basketballSource.js:159-278 | board, event and journal after any action are those of one step of the engine's run |
| `Basketball.BasketballSource.Undo` | src/basketballSource.js:129-136 | board and journal after an undo are those of the run's undo |
| `Basketball.LineScoreCountsPeriods` | src/basketballSource.js:231-295 | in every state reachable without a typed period or a loaded board the recorded periods are period - 1, and one more once the game is over |
| `Basketball.FreshBoardHasLineScore` | src/basketballSource.js:266-269 | a fresh or reset board is such a state |
| `Basketball.FoulsAtThePeriodBreak` | src/basketballSource.js:231-253 | entering overtime leaves the team fouls, every new quarter zeroes them, and the game is over exactly when a side leads after the fourth quarter or later |
| `Basketball.RemoveUndoesEnd` | src/basketballSource.js:254-265 | removing the period just ended takes its end back, and a game end too, team fouls aside |
| `Basketball.ReportsChangeOfEnds` | src/basketballSource.js:283-295 | after a change of ends the engine reports the same game seen from the other side |
| `BasketballRules.CountersMove` | src/basketballSource.js:168-208 | points, fouls and timeouts move for the side named, by the delta or to the typed value, and nothing else moves; only a + of the winner of a game that is over is refused |
| `BasketballRules.ArrowAndNamesMove` | src/basketballSource.js:217-230 | the arrow points to the side named; a team edit changes what it carries of it |
| `BasketballRules.TypedPeriodResumes` | src/basketballSource.js:209-216 | a typed or stepped period takes a game that was over up again |
| `BasketballRules.BonusComesWithTheFifth` | src/basketballSource.js:190-203 | however many fouls follow one another, the bonus is raised once: with the fifth |
| `BasketballRules.PeriodIsRecorded` | src/basketballSource.js:231-265 | an ended period puts the score on show on the line score, a removed one takes the last off and the game up again |
| `BasketballRules.GameLastsFourQuarters` | src/basketballSource.js:231-253 | however often "End period" is pressed: level, the game goes on into overtime; with a leader it is over from the end of the fourth period on |
| `LoadRules.RealResultsLoad` | src/manualSource.js:188-231 | the entries of a saved state that are results load in order, each team's points on its side, unbelievable times dropped |
| `LoadRules.IndoorIsLaidOut` | src/manualSource.js:188-240 | a state loaded indoors: everything of a team stands on its side, arrow and ends as saved, no clock running, the opener known at 0-0 only, the set closed exactly when the score on show is the last one recorded |
| `LoadRules.BeachIsLaidOut` | src/beachSource.js:122-168 | so on the beach, servers and service turns with their pair |
| `LoadRules.BasketballIsLaidOut` | src/basketballSource.js:79-112 | so in basketball, team fouls from the state's substitutions, period and end of the game as saved |
| `LoadRules.IndoorClockIsKept` | src/manualSource.js:481-488 | loading keeps the running set clock exactly when names, score, sets and recorded scores on the board are the ones loaded |
| `LoadRules.BeachClockIsKept` | src/beachSource.js:428-433 | so on the beach |
| `Resume.ResultsComeBack` | src/manualSource.js:188-199 | reported set results load back as they were, order, sides and playing times included |
| `Resume.IndoorResumes` | src/manualSource.js:188-316 | a board saved and loaded again is the same board but for what a state cannot carry: the set clock, the opener of a set in play, a closed flag the score no longer shows |
| `Resume.IndoorReloadIsNothing` | src/manualSource.js:481-486 | handing the board its own state back changes nothing, the running set clock included, exactly when opener and closed flag are those the score shows |
| `Resume.BeachResumes` | src/beachSource.js:122-243 | the pairs' servers and service turns come back with the rest |
| `Resume.BasketballResumes` | src/basketballSource.js:79-157 | a basketball board comes back whole: period, game end, fouls and line score |
| `History.HistoryStore.RecordAction` | src/historyStore.js:99-111 | the log after an action is that of one record, with its step on the journal exactly when the source journaled it |
| `History.HistoryStore.WriteAction` | src/historyStore.js:117-208 | archive, match in progress and step after an action are those of the writing rules |
| `History.HistoryStore.ReopenMatch` | src/historyStore.js:223-236 | the last archived match is in progress again, without its "match over" |
| `History.HistoryStore.PushEntry` | src/historyStore.js:297-302 | an entry is kept, and remembered by the open step, while the match is below its cap |
| `History.HistoryStore.FinishMatch` | src/historyStore.js:352-375 | the match in progress goes to the end of an archive of at most 100 |
| `History.HistoryStore.RevertStep` | src/historyStore.js:317-345 | what a step did to the log is taken back |
| `History.HistoryStore.UndoLastAction` | src/historyStore.js:311-350 | the newest step is taken back and one marker stays |
| `History.HistoryStore.Clear` | src/historyStore.js:388 | nothing is left of archive, match in progress or journal |
| `History.HistoryStore.SetGame` | src/historyStore.js:273-277 | the next match's fixture; a match with entries keeps the one it was filed against |
| `HistoryUndo.WriteSummary` | src/historyStore.js:117-208 | whatever an action did, its step accounts for it: where the match came from, which entries are its own, and whether it was archived |
| `HistoryUndo.WithoutPushed` | src/historyStore.js:326-331 | erasing the entries a step pushed leaves what was there before it |
| `HistoryUndo.UndoTakesBack` | src/historyStore.js:311-350 | whatever a journaled action did - started, finished, reopened or reset a match - undoing it from any log that shows what it left restores the archive and the live entries, while the archive has room |
| `HistoryUndo.UndoKeepsOld` | src/historyStore.js:311-350 | and every entry older than the action - of un-journaled actions and undo markers too - is still there, in order |
| `HistoryUndo.UndoOfDropped` | src/historyStore.js:311-350 | undoing an action of a match dropped since restores the archive and brings nothing of the match back |
| `HistoryUndo.FullArchiveLosesItsOldest` | src/historyStore.js:366-368 | without room the archive is not restored |
| `HistoryUndo.UndoneExactly` | src/historyStore.js:311-375 | an action's effect is undone exactly when the archive had room for the match it may have ended |
| `HistoryUndo.FullArchiveIsNotRestored` | src/historyStore.js:352-375 | the match point of the 101st match, undone, does not bring the archive back |
| `HistoryUndo.NoStepNoJournal` | src/historyStore.js:99-111 | an action the source did not journal leaves the log's journal alone, whatever it does |
| `HistoryUndo.UnjournaledExactly` | src/historyStore.js:99-148 | an action that was persisted but not journaled leaves the archive and the live entries alone exactly when it ends no match, reopens none and closes none in progress |
| `HistoryUndo.RecordKeepsWellFormed` | src/historyStore.js:99-208 | every entry and match the log can still reach is older than the next one it makes |
| `HistoryUndo.UndoKeepsWellFormed` | src/historyStore.js:311-350 | so after every undo |
| `LogCredits.ActionIsLogged` | src/historyStore.js:117-207 | an action with an entry of its own, in a match with room: the play-by-play goes on with that entry and what the action closed, each beside score, sets and server after it; the match has the names on the board, and is archived exactly when it is over |
| `LogCredits.CloseOnlyIsLogged` | src/historyStore.js:183-207 | an action without one adds only what it closed |
| `LogCredits.MinusReopensExactly` | src/historyStore.js:124-236 | a - or a set removed on the match just archived takes it up again exactly when it leaves fewer sets won than archived, or the game not over: off the archive, under its id, date and game, its play-by-play without the end; otherwise the archive stays |
| `LogCredits.MatchPointWalkedBack` | src/historyStore.js:190-236 | the match point and then a -: the play-by-play before it, the point, the set it won and the -, under the game the match was begun for |
| `LogCredits.UndoLeavesAMarker` | src/historyStore.js:346-350 | an undo leaves its marker last in the match in progress, unless its play-by-play is full |
| `LogCredits.UndoneStartLeavesNoMatch` | src/historyStore.js:311-345 | undoing the action that began a match leaves none in progress: the log is between matches as before, archive and last finish included |
| `LogCredits.StartSettlesTheLast` | src/historyStore.js:135-146 | a match begun settles the one before: nothing reopens that any more |
| `LogCredits.UndoRestoresTheFinish` | src/historyStore.js:311-345 | an undone reset, and an undone - that took the end of a match back, leave the match just finished as it was |
| `ControlServer.ServeKeepsAligned` | src/controlServer.js:1107-1152 | any action, undo, undo-clear, log clear or filing keeps the log's journal what the newest of the source's own steps did to the log, entry for entry |
| `ControlServer.JournalsStayAligned` | src/controlServer.js:214-222 | so over every run of them, full archive or not, both journals capped at 30; the source need only leave the board alone when it refuses |
| `ControlServer.FreshIsAligned` | src/controlServer.js:2144-2147 | a source and a log with nothing to undo are aligned |
| `ControlServer.LogRemembers` | src/historyStore.js:99-111 | the log gains one step for every action the source journaled, up to its cap, whatever the actions do |
| `ControlServer.ActionsThenUndosRestore` | src/controlServer.js:1057-1153 | from any state, actions and filings followed by as many undos as the source journaled of them restore the board, the archive and both journals less what fell off, whatever matches they started, finished, reopened or reset; the match in progress at the start comes back, live entries and all older ones, exactly when no un-journaled reset dropped it |
| `HistoryByTeam.ChangeOfEndsIsNoNews` | src/historyStore.js:75-89 | a change of ends shows the log nothing new: names, score, tally, results and server by team are unchanged |
| `HistoryByTeam.SameEntry` | src/historyStore.js:159-181 | the mirrored tap after a change of ends leaves the same entry |
| `HistoryByTeam.SameRecorded` | src/historyStore.js:117-208 | the same news about the same team keeps two logs telling the same story, archive and reopening included |
| `HistoryByTeam.EndsChangedOnly` | src/historyStore.js:173-177 | a change of ends adds its own entry and tells nothing else |
| `LogRules.EntryNamesTheTeam` | src/historyStore.js:156-181 | the entry of an action is of the team standing on the side it names, the left when it names none |
| `LogRules.EntryReadsTheBoard` | src/historyStore.js:75-155 | the entry stands beside the score, the sets, the server and the names on the board, each read by where the teams stand |
| `LogRules.WinIsFiled` | src/historyStore.js:183-201 | the + that wins a set files it after its own entry - number, score by team, time - and the one that wins the match files its end and archives result and every set by team, under its game |
| `IndoorLog.PointIsCredited` | src/historyStore.js:156-172 | a tap on the points that is not refused is logged for the team standing there, whose component of the entry's score it moved by what was tapped or to what was typed, the other's as it was; after a + that team serves |
| `IndoorLog.TimeoutIsCredited` | src/historyStore.js:156-172 | a timeout is logged for the team whose timeouts it moved |
| `IndoorLog.SubIsCredited` | src/historyStore.js:156-172 | a substitution is logged for the team whose substitutions it moved |
| `IndoorLog.TallyAndServeAreCredited` | src/historyStore.js:173-181 | a set tally is logged for the team whose sets it moved, a serve for the team that serves |
| `IndoorLog.WonSetIsLogged` | src/historyStore.js:183-201 | a set won is filed for its winner, one set more for that team and none for the other, at the score on show and its playing time |
| `IndoorLog.ChangesAreLogged` | src/historyStore.js:173-181 | a change of ends and a set removed are logged as such, beside the board after them |
| `BeachLog.PointIsCredited` | src/historyStore.js:156-172 | the same of a tap on the points on the beach |
| `BeachLog.TimeoutIsCredited` | src/historyStore.js:156-172 | the same of a timeout |
| `BeachLog.TallyAndServeAreCredited` | src/historyStore.js:173-181 | the same of a set tally and a serve |
| `BeachLog.WonSetIsLogged` | src/historyStore.js:183-201 | the same of a set won |
| `BeachLog.ChangesAreLogged` | src/historyStore.js:173-181 | the same of a change of ends and a set removed |
| `BasketballLog.CountsAreCredited` | src/historyStore.js:156-172 | points, team fouls and timeouts are each logged for the team they moved |
| `BasketballLog.ArrowIsCredited` | src/historyStore.js:173-181 | the possession arrow is logged for the team it points to, and no entry names a server |
| `BasketballLog.PeriodIsLogged` | src/historyStore.js:183-207 | a period ended is logged with its number and score by team, and the end of the game after it: archived with the final score by team and the whole line score |
| `BasketballLog.ChangesAreLogged` | src/historyStore.js:173-181 | a change of ends and a period removed are logged as such |
| `ChangesOfEnds.LogIsByTeam` | src/historyStore.js:68-208 | changes of ends put anywhere into a scoring run of any length, the taps after each mirrored, give the same entries, set ends and archived results, swap entries and stamps aside, while no match comes within one action of the event cap |
| `Consoles.IndoorEventsAreHonest` | src/manualSource.js:327-401 | a refused tap changes nothing, and what ends a set or a match, or makes a switch due, changed the board and so is journaled |
| `Consoles.Console.Action` | src/controlServer.js:1107-1146 | engine and log after an action are those of one served action; a refused tap leaves the log alone |
| `Consoles.Console.Post` | src/controlServer.js:1057-1152 | engine, log and pre-match flag after a request are those of its steps: the undo trail cut when it starts the match, the action with the teams a restart keeps, the restarted game filed again |
| `Consoles.RestartKeepsTheGame` | src/controlServer.js:1075-1150 | a reset during an unfinished scheduled game leaves the next match filed under that game and the same teams at 0-0, each where it started |
| `Consoles.Console.TakeBack` | src/controlServer.js:1107-1133 | engine and log after an undo are those of one served undo; with nothing to undo the log is left alone |
| `Consoles.Console.ClearUndo` | src/controlServer.js:2144-2147 | neither the source nor the log has anything left to undo |
| `Consoles.Console.ClearLog` | src/controlServer.js:1684-1690 | the log is empty, the source untouched |
| `Consoles.IndoorUndoRestoresBoardAndLog` | src/controlServer.js:1107-1152 | so after any run of indoor requests from a fresh board and a loaded archive |
| `Consoles.PostsAreTakenBack` | src/controlServer.js:1057-1153 | from any state, whole posts - restarts of a scheduled game with their filing among them - are taken back by their undos, while none starts the match from the pre-match |
| `Consoles.RestartIsTakenBack` | src/controlServer.js:1075-1150 | a restart tapped by mistake is taken back by one undo: board, archive, live entries and every older one, full archive or not |
| `Consoles.DroppedOnTheWay` | src/historyStore.js:120-124 | a match begun and dropped on the way does no harm: a timeout up, down, a reset and two undos end on the fresh board and the empty log |
| `Consoles.ResetDropsAMatch` | src/historyStore.js:120-124 | a timeout up and down on a fresh board, then a reset: the board does not change and nothing is journaled, but the log drops the match in progress |
| `Consoles.MinusReopensAMatch` | src/historyStore.js:146-149 | after any finished match an empty board is loaded and a "-" tapped on its 0: nothing is journaled, but the match is out of the archive again |
| `Consoles.ThreeTapsFinishAMatch` | src/historyStore.js:190-206 | a board gets to such a finished match in three taps |
| `PrematchRules.StartsExactly` | src/controlServer.js:66 | the posts that keep the pre-match are names, the serve and the ends, and no other |
| `PrematchRules.StartCutsTheTrail` | src/controlServer.js:1093-1102 | the first post that starts the match leaves one step to undo at most, its own: however many undos follow, the board shown is the one it left or the one it found |
| `PrematchRules.TeamsKeepTheTrail` | src/controlServer.js:1093-1102 | names, the serve and the ends are one request each and cut nothing |
| `PrematchRules.RestartsExactly` | src/controlServer.js:1072-1089 | a reset is a restart exactly when the board has a game - the log's, its match's, or the one the pre-match was set up for - and nobody has the sets to have won it |
| `PrematchRules.ResetKeepsTheGame` | src/controlServer.js:1072-1151 | after a reset the next match is filed under that game exactly then, and under none otherwise, with the board at 0-0 and, in that case, no team's name kept |
| `PrematchRules.ResetBoard` | src/manualSource.js:477-480 | a reset board has nothing scored, called or recorded, both teams where they started and the left to serve; kept teams stand A on the left |
| `Consoles.IndoorLogIsByTeam` | src/manualSource.js:495-510 | an indoor scoring run of any length with any changes of ends ends on the same board turned round and in a log that tells the same story |
| `BeachConsoles.UndoRestoresBoardAndLog` | src/controlServer.js:1107-1152 | beach requests are taken back by their undos, servers and service turns included |
| `BeachConsoles.LogIsByTeam` | src/beachSource.js:444-458 | a beach scoring run with any changes of ends tells the same story in the log |
| `BasketballConsoles.UndoRestoresBoardAndLog` | src/controlServer.js:1107-1152 | basketball requests are taken back by their undos, fouls, period and line score included |
| `BasketballConsoles.NoSideBias` | src/basketballSource.js:159-295 | a basketball action from the other end changes the same things for the same team and raises the same event, in every state |
| `BasketballConsoles.LogIsByTeam` | src/basketballSource.js:283-295 | a basketball scoring run with any changes of ends tells the same story in the log, typed periods aside |
| `BasketballConsoles.TypedPeriodIsNotByTeam` | src/historyStore.js:173-174 | that input: a typed period carries no side and is filed under whoever stands on the left |
| `LiveFixture.TurningTwice` | src/liveFixture.js:116-132 | `toHomeAway` with "b" undoes itself |
| `LiveFixture.HomeSideFlips` | src/liveFixture.js:102-113 | the home side flips with the ends, or cannot be told from either |
| `LiveFixture.RowFlips` | src/livePush.js:117-175 | a change of ends turns the board row round and touches nothing else |
| `LiveFixture.FixtureRowSurvivesChangeOfEnds` | src/liveFixture.js:102-132 | the game's home/away row is the same before and after a change of ends whenever the board can tell who is home |
| `LiveFixture.FixtureRowExactly` | src/liveFixture.js:125-132 | the expression survives a change of ends exactly when the board can tell who is home or shows a row that reads the same both ways |
| `LiveFixture.UnknownHomeTurnsTheRow` | src/liveFixture.js:102-132 | teams that are not the fixture's and one point played: the expression does change with the ends |
| `LiveFixture.ChangeOfEndsIsNoNewMatch` | src/livePush.js:182-202 | a change of ends never looks like a new match, a fresh board or the end of one |
| `LiveHome.RowLeads` | src/liveFixture.js:116-132 | a row turned to a team shows it as team A: its name, points, sets, timeouts, substitutions or fouls, its serve, its side of every set, and the other team as B |
| `LiveHome.HomeTeamLeads` | src/liveFixture.js:86-132 | a team that goes by the home names, or whose opponent goes by the away names, when the other way round does not fit as well, is the home side and leads the row of the game |
| `LiveHome.HomeStartedOnTheLeft` | src/liveFixture.js:86-132 | names that fit both ways: the board can tell exactly when it was set up from the game and knows whether ends were changed, and then the team that started on the left leads |
| `LiveHome.StrangersAreNobodys` | src/liveFixture.js:86-113 | names that fit neither way name no home side |
| `LiveHome.RowReadsTheMatch` | src/livePush.js:117-175 | a row is final when the match is won or just ended, idle on a neutral board and live in between, and names the set being played or the last one played |
| `LiveHome.OverIsEnoughSets` | src/livePush.js:80-87 | a volleyball match is over when a team has the sets its format asks for, 3 indoors and 2 on the beach when none is reported; basketball when its source says so |
| `PublishedMatches.MatchPointIsFinal` | src/livePush.js:112-131 | the indoor match point makes the row final, and it stays final without the event; no set won before does |
| `PublishedMatches.BeachMatchPointIsFinal` | src/livePush.js:112-131 | so on the beach |
| `PublishedMatches.RowIsByTeam` | src/liveFixture.js:86-132 | the row of a game the board was set up from, its names fitting both ways, has in team A's columns the team that began on the left, at every moment of the match |
| `LivePush.LivePublisher.PushState` | src/livePush.js:271-317 | match instance, waiting state and timer after a push are those of the protocol's push |
| `LivePush.LivePublisher.Flush` | src/livePush.js:390-426 | the flush takes the waiting state, and a final row joins the backlog of at most 5 before anything is sent |
| `LivePush.LivePublisher.FlushThrows` | src/livePush.js:404-408 | a flush whose row cannot be made takes the state, leaves the backlog alone and is not retried |
| `LivePush.LivePublisher.SettleAfter` | src/livePush.js:532-551 | a failed payload waits again unless a newer state does, up to the retry limit |
| `LivePush.LivePublisher.OnBoardAnswer` | src/livePush.js:427-500 | the answer to the board row leads to the archive requests |
| `LivePush.LivePublisher.OnArchiveAnswer` | src/livePush.js:501-519 | what one answer does to backlog, marks and retry, the resend without the game included |
| `LivePush.LivePublisher.Detach` | src/livePush.js:657-664 | nothing waits and no timer runs after a detach, and the running flush settles nothing any more |
| `LivePushRuns.FlushesNeverOverlap` | src/livePush.js:390-397 | over every run, whenever the timer can fire no flush is running |
| `LivePushRuns.StrandedExactly` | src/livePush.js:520-551 | a state is stranded exactly when a flush from before a detach ends with that state waiting |
| `LivePushRuns.NothingIsStranded` | src/livePush.js:297-323 | while attached a waiting state has its timer armed or a flush running, in every run that accepts no state behind such a flush |
| `LivePushRuns.LeftBehindExactly` | src/livePush.js:520-551 | over every run a waiting state has its timer armed or its flush running, except exactly when the last state accepted came behind a flush from before a detach, with no detach since |
| `LivePushRuns.ReattachDuringAFlushStrands` | src/livePush.js:641-664 | the run that strands one: pushed, flushed, detached, pushed again, answered |
| `LivePushRuns.RowsGoOutInPushOrder` | src/livePush.js:532-551 | over every run no flush carries an older state than one before it |
| `LivePushRuns.FlushesAreBounded` | src/livePush.js:532-551 | with nothing new accepted, the flushes still to start are bounded from any state of a run |
| `LivePushRuns.RetriesAreBounded` | src/livePush.js:532-551 | after the last accepted push at most maxRetries + 1 flushes start, whatever the network answers |
| `LivePushRuns.OneHistoryRowPerMatch` | src/livePush.js:231-267 | over every run no match is posted again once a post of it was confirmed or may have landed, although only 50 instances stay marked; at most 5 results wait |
| `LivePushRuns.NoDuplicateRows` | src/livePush.js:553-558 | two rows of one match are committed only when the first was committed under an answer that says it was not |
| `LivePushRuns.CommittedRefusalIsDoubled` | src/livePush.js:501-519 | and then they are: a row committed and answered with a 503 is posted again |
| `LivePushMatches.InstanceCountsMatches` | src/livePush.js:271-299 | over every run a state accepted is stamped with the number of matches pushed so far: first points after a 0-0 board, or other teams in a match that is not over, pushes made while publishing was off included |
| `LivePushMatches.NewMatchIsNew` | src/livePush.js:271-299 | such a state gets an instance above that of every payload waiting or in flight, every result in the backlog, every mark and every history post of the run |
| `LivePushMatches.SameMatchKeepsItsNumber` | src/livePush.js:271-299 | and every other state keeps the instance |
| `LivePushMatches.EveryResultIsAccountedFor` | src/livePush.js:416-519 | over every run, whenever the last flush of a match was final, its newest row waits in the backlog, or its last history post was written, perhaps written or refused for good, or five newer results pushed it out; nothing else waits |
| `LivePushMatches.EveryMatchOfTheEveningIsFiled` | src/livePush.js:271-519 | any number of matches with a 0-0 board before each and a server that answers leave as many history posts, each of an instance of its own |
| `LivePushMatches.FlushEnds` | src/livePush.js:532-551 | after a failure the newest state there is goes out again after a backoff, until it failed 9 times in a row; after an answer, whatever was pushed meanwhile |
| `LivePushMatches.DeadServerGetsNineTries` | src/livePush.js:532-551 | so one state pushed to a server that fails every time goes out exactly 9 times |
| `LivePushMatches.NewStateGoesNext` | src/livePush.js:309-317 | a newer state cuts a backoff short and is the one that goes out next |
| `LivePushMatches.RefusedForItsGame` | src/livePush.js:501-519 | a row refused for its game is sent once more without it and nothing else changes; every other answer moves on to the next result |
| `LivePushMatches.DetachForgets` | src/livePush.js:657-664 | a detach forgets what waits and the failures so far, and keeps what is still to be written to the history |
| `GzipHeaders.FindZero` | src/ledboxProtocol.js:176-183 | the first zero at or after a place, or none |
| `GzipHeaders.GzipHeaderLength` | src/ledboxProtocol.js:170-187 | the cursor loop finds the header length of section 2.3 of RFC 1952 |
| `GzipHeaders.HeaderFoundExactly` | src/ledboxProtocol.js:170-187 | for every combination of flags the parser answers 0 on every prefix until a byte of the body follows the header, and the exact length ever after |
| `StreamDecoders.StreamDecoder.ResyncHead` | src/ledboxProtocol.js:122-130 | the buffer starts at the next magic behind its head, or is empty |
| `StreamDecoders.StreamDecoder.DrainHead` | src/ledboxProtocol.js:80-104 | the loop ends, and yields the messages of the complete members at the head in order |
| `StreamDecoders.StreamDecoder.PushChunk` | src/ledboxProtocol.js:63-77 | messages, buffer and stall clock after a chunk are those of one push |
| `StreamDecoders.BufferIsSuffix` | src/ledboxProtocol.js:63-130 | whatever bytes arrive, in whatever chunks, the buffer is always the end of the bytes received |
| `Chunking.TakesMember` | src/ledboxProtocol.js:143-165 | a complete member at the head is taken whole, whatever follows |
| `Chunking.WaitsForMember` | src/ledboxProtocol.js:143-165 | from a proper prefix of a member nothing is taken |
| `Chunking.DrainsWhole` | src/ledboxProtocol.js:80-104 | draining takes exactly the complete members and leaves the rest |
| `Chunking.QuickStreamsNeverStall` | src/ledboxProtocol.js:109-114 | a stream that arrives within the stall time altogether never stalls, however it is cut |
| `Chunking.DecodingIgnoresChunking` | src/ledboxProtocol.js:63-165 | of a stream of well-formed members, cut anywhere and broken off anywhere, the decoder yields the messages of the complete members in order, keeps the bytes of the next and never resyncs |
| `StreamRecovery.StaleHeadIsDropped` | src/ledboxProtocol.js:63-130 | a reply cut off in the middle, or more than 64 KiB: the chunk that finds it overdue drops it and yields the message of every complete member behind it, in order, there and then |
| `StreamRecovery.SlowHeadIsKept` | src/ledboxProtocol.js:109-114 | before that the bytes are kept whole, the clock running from the first chunk that left them undecoded |
| `StreamRecovery.JunkIsDropped` | src/ledboxProtocol.js:143-149 | bytes in front of a reply that are no gzip header are dropped at once |
| `StreamRecovery.DeafNoLongerThanTheDeadline` | src/ledboxProtocol.js:109-114 | over any run of chunks that yield nothing, leave bytes and drop none, the last arrives no more than 5 s after the first and no more than 64 KiB have piled up |
| `StreamRecovery.MessageEndsTheSilence` | src/ledboxProtocol.js:109-114 | a message read, or a buffer emptied, gives the next one its full time |
| `StreamRecovery.FooterDecides` | src/ledboxProtocol.js:157-165 | a member's message counts exactly when its footer is the CRC-32 of the body and its length, lowest byte first |
| `LedboxClients.LedboxClient.SendRequest` | src/ledboxClient.js:408-413 | a request waits behind all that are still out |
| `LedboxClients.LedboxClient.SendNow` | src/ledboxClient.js:415-448 | the request whose turn it is owns its command's slot, or is refused when there is no socket |
| `LedboxClients.LedboxClient.NoteOrphan` | src/ledboxClient.js:377-386 | a timed-out command is owed one reply, unless a reply was eaten for it, which settles that |
| `LedboxClients.LedboxClient.TakeOrphan` | src/ledboxClient.js:389-397 | a reply is taken for the late one exactly while one is owed and its time is not up |
| `LedboxClients.LedboxClient.OnMessage` | src/ledboxClient.js:341-373 | a reply settles the request on the wire of its command, unless it pays a debt or nobody waits |
| `LedboxClients.LedboxClient.OnTimeout` | src/ledboxClient.js:418-430 | the request gives up, and its reply is owed - but not for SetLayout |
| `LedboxClients.LedboxClient.OnClose` | src/ledboxClient.js:301-330 | the waiting request is rejected, and a closed socket owes nothing |
| `LedboxClients.NeverBothOwedAndEaten` | src/ledboxClient.js:341-397 | over every run "one reply owed" and "a reply was eaten" are never both set for a command |
| `LedboxClients.NoRequestIsLost` | src/ledboxClient.js:399-448 | over every run the requests settled and those still out are the ones there were and the ones asked since, in the order they were asked |
| `LedboxClients.FrontIsToldWhy` | src/ledboxClient.js:301-448 | the request at the front is refused when its turn comes with no socket, rejected when the socket closes on it and given up at its timeout, and the ones behind it stay |
| `LedboxClients.DebtsDoNotLeak` | src/ledboxClient.js:377-397 | no step changes what is owed or eaten for another command |
| `LedboxClients.MatchingHealsItself` | src/ledboxClient.js:341-448 | from any reachable state with nothing late on the wire - requests out, queued or sent meanwhile, answered or refused - a board that answers in time comes to exactly what a plain queue does in which a command still owed one reply loses its next answer |
| `LedboxClients.EveryReplyIsItsOwn` | src/ledboxClient.js:399-413 | and in it requests settle in the order they were sent, each with its own reply or none in time |
| `LedboxClients.LosesAtMostOne` | src/ledboxClient.js:377-397 | each command loses at most one reply, none once nothing of it is owed, and every answered request settles once |
| `LedboxClients.AnAnswerStartsAfresh` | src/ledboxClient.js:341-397 | once a request is answered, the next one of its command that times out is owed its late reply again, whatever was eaten before |
| `LedboxClients.LateReplyExactly` | src/ledboxClient.js:341-430 | the request after one that timed out gets its own reply exactly when the late one comes while nobody waits, or is still owed: not for SetLayout, not right after another reply was eaten, not after 15 s |
| `LedboxClients.SlowBoardIsMisread` | src/ledboxClient.js:377-397 | a board that is always late gets there: the late reply to the second request resolves the third |
| `LanSources.LanSource.OnFrame` | src/lanSource.js:155-193 | edges and remembered breaks after a frame are those of the break rules |
| `LanSources.EdgesDoNotStutter` | src/lanSource.js:155-193 | repeating any frame any number of times leaves the emitted edges and the remembered breaks unchanged |
| `LanSources.EdgesAreBracketed` | src/lanSource.js:155-193 | every end edge follows a start of its kind not already ended, and a frame of a match that is over makes no edge |
| `LanSources.NoEdgeIsMissed` | src/lanSource.js:155-193 | while the match goes on, the last timeout edge is a start exactly while the frames show a timeout, and the last interval edge one exactly while the end of an interval is awaited |
| `LanRules.TimeoutIsAnnounced` | src/lanSource.js:176-191 | a timeout is announced when the frames begin to show one or a count rises during one, on the side where the team stands whose count alone rose, and its end when they stop |
| `LanRules.EndsComeFirst` | src/lanSource.js:155-193 | on one frame every end is announced before any start, one edge of each kind at most |
| `LanRules.IntervalEndsWhenItEnds` | src/lanSource.js:57-80 | an interval is announced when its flag goes up and its end on the first frame that is the end of it - the scorer's word, or a point of the set it leads into - whatever frames come between |
| `LanRules.TheEndForgets` | src/lanSource.js:159-166 | the end of a match forgets the breaks: one that a later frame shows is announced anew |

## Left out

- Network, HTTP, server-sent events, files and real timers: only the answer classes and clock readings the steps consume are modelled, as arguments.
- Clocks: times are integers, one clock reading serves a whole action, and an entry's wall-clock and elapsed stamps are one `stamp`.
- zlib, CRC-32 and JSON: parameters of the decoder; inflate is required to complete on every extension as it did on a prefix, to use no more bytes than it was given, and to make nothing of nothing.
- Undo labels, log words and upper-casing of names: an undo's words are an argument, and the fixture's name normalisation is a function parameter.
- Events emitted to listeners, and the state fields that only describe the sport (`server_a`, `server_b` and the like) beyond what log and publisher read.
- BasketballConsoles.LogIsByTeam: not for typed periods, which the log files under whoever stands on the left (`TypedPeriodIsNotByTeam`).
- Object identity: entries and archived matches carry a number of their own, so equal values are one object; `prevCurrent`, an object reference in the source, is kept as a value.
- Fields of the log no theorem promises: `_game` after an undone reset, and `_lastFinished` after an undo that leaves only undo markers in the match.
- `/api/game/link` and `linkGame`: team edits applied without `persist`, outside the alignment of the journals.
- ControlServer.ActionsThenUndosRestore: asks of the actions undone that the archive has room for each match they end, and that those the engine did not journal end and reopen none. For one action alone these conditions are exact (`UndoneExactly`, `UnjournaledExactly`); over a run they are sufficient.
- Consoles.PostsAreTakenBack: not for a post that starts the match from the pre-match, which cuts the undo trail on purpose.
- Consoles.Console.Post: the board in hand mode; switching away from a linked match, colours and the screens are not modelled.
- Consoles.RestartKeepsTheGame: for a game number above 0, as the schedule has them.
- ChangesOfEnds.LogIsByTeam: the header names of the match in progress are compared once it is archived, since every action rewrites them.
- Sports whose log is switched off, the resume slot, the upload of finished matches and the panel's result screen.
- LivePushRuns.NothingIsStranded: for runs that accept no state behind a flush from before a detach; `LeftBehindExactly` has the exact condition.
- LivePush.LivePublisher.OnBoardAnswer: the fixture row's writes are reduced to whether one asks for a retry; choosing the channel, refused fixtures and clearing a left game are not modelled.
- `whoIsPlaying`: a multiset of the names instead of a sorted, joined string, so names that contain the separator are not confused as they could be.
- Numbers typed as strings, NaN and fractions: an action's numbers are integers.
- The panel client's screens, blinks, layouts, tests and clock, the handshake and address changes.
- LivePushMatches.EveryResultIsAccountedFor: history posts carry their instance and answer; which row each carried is said of the backlog they are taken from.
- IndoorLog.PointIsCredited: in a match with room for three entries more, and not for a - that could take the end of a match back, which `MinusReopensExactly` covers; the same holds of its companions.
- PublishedMatches.MatchPointIsFinal: from a board on which neither side has won the match yet.
- LedboxClients.MatchingHealsItself: assumes nothing late is on the wire, every reply within its request's time, and a socket that stays open.
- Schedule, hall login, match sheet, hardware checks, brightness, colours, mappers and overlay text: branch lists or formatting with easier claims.
