# CricVision core, modelled in Dafny

CricVision is a cricket-club web app. It keeps a player directory, schedules matches between
two squads, scores them ball by ball, settles the tie-breakers (super over and bowl-out), and
tracks the match fees and the club's withdrawals. This project models the logic of the app in
Dafny and proves what that logic promises.

**The live scorer** (`LiveMatch.tsx`) is the largest part:
- The screen's state is a class, `LiveMatchScreen.LiveMatchScorer`. Every handler is a method
  whose postcondition ties the new state to a step function on a pure `EngineState`
  (`MatchFlow`). The properties are proved as lemmas about those step functions
  (`MatchFlowProps`, `ScoringProps`, `BowlOutRules`).
- The button strings sent for each delivery have their own module, `Events`. It proves that
  the engine reads each button's string as that button means it.
- The innings ledger has its own module, `Ledger`. Its credits keep the wicket count and the
  fall-of-wickets list in step.
- The bowl-out contest is modelled in `BowlOutRules`.

**The smaller cores**, one module each:

| module | source | what it covers |
|---|---|---|
| `Scheduling` | `Scheduling.tsx` | the match form |
| `App` | `App.tsx` | the app's player and match lists |
| `Fees` | `Fees.tsx` | fee editor, totals and reminders |
| `Finance` | `Finance.tsx` | balance and withdrawal form |
| `Dashboard` | `Dashboard.tsx` | directory sort and search |
| `PlayerDetails` | `PlayerDetailsModal.tsx` | career figures and match lines |
| `Scorecard` | `ScorecardModal.tsx` | the scorecard |
| `TimePicker` | `TimePicker.tsx` | the time picker |
| `Fielding` | `fieldingPositionsData.ts` | the left-handed field map |
| `Constants` | `constants.ts` | the date rewrite and the seed players |

`Common` and `Domain` hold the shared records of `types.ts` and string and list helpers.

How JavaScript values are represented:
- Player ids and names are strings. An empty string is falsy, as in JavaScript.
- Object literals are lists of entries in insertion order (`Domain.Dict`).
- Numbers read from text fields reach the model already parsed: `Option<int>` for `parseInt`,
  `Option<real>` for `parseFloat` (the withdrawal amount). `None` stands for NaN.
- The clock, the coin toss and the measured ball speed are parameters.

## Model

| member | source | states |
|---|---|---|
| Events.Encode | components/LiveMatch.tsx:1310-1320 | each scoring button sends a non-empty string; a run button sends its digit, an extra "Wd+k"/"Nb+k", a wicket "W", a short run "<scored>S<attempted>" |
| Events.BaseEvent | components/LiveMatch.tsx:736 | the base event is the text before the first '+', all of the string when there is none |
| Events.ExtraSegment | components/LiveMatch.tsx:740 | the extra part is the text between the first and the second '+' |
| Events.ParseLeadingInt | components/LiveMatch.tsx:740 | `parseInt` yields NaN (none) exactly when the text does not start with a digit |
| Events.ParseLeadingIntReads | components/LiveMatch.tsx:740 | `parseInt` reads back the number written at the front of a string, whatever non-digit text follows |
| Events.ShortRunMatch | components/LiveMatch.tsx:734 | matches if and only if the string is a non-empty digit run, one 'S' and a non-empty digit run, and then yields the two numbers those runs spell |
| Events.ReadEvent | components/LiveMatch.tsx:734-740 | the reading keeps the base event, the short-run match and the extra runs (0 without a '+') |
| Events.BaseRunValue | components/LiveMatch.tsx:747-748 | only "0".."4" and "6" carry a run value, and that value is the digit |
| Events.RunsScored | components/LiveMatch.tsx:744-749 | the bat's runs: a short run's completed runs, a run button's value, otherwise the caller's runs option |
| Events.LegalCount | components/LiveMatch.tsx:905 | the legal deliveries of an over never outnumber its events |
| Events.ReadBack | components/LiveMatch.tsx:734-749 | the event the engine's reading finds in a string; it finds one only where the extra part reads as a number |
| Events.Decode | components/LiveMatch.tsx:734-749 | a string decodes only when it reads as a number where the engine needs one and it is exactly the string of the event it decodes to |
| Events.ReadEncode | components/LiveMatch.tsx:734-749 | the engine reads every button's string as the button means it: runs, extras, wicket, short run |
| Events.ReadBackEncode | components/LiveMatch.tsx:734-749 | the engine's reading of every button's string finds that button |
| Events.DecodeEncode | components/LiveMatch.tsx:734-749 | every button's string decodes back to that button |
| Events.DecodeExactly | components/LiveMatch.tsx:734-749 | a string decodes to an event if and only if it is that event's button string |
| Events.LegalityOfEncode | components/LiveMatch.tsx:772 | a button's string counts as a legal ball exactly when the button is not a wide or a no-ball |
| Ledger.InitialInningsState | components/LiveMatch.tsx:24-35 | the loop over the player ids builds the fresh ledger: every id with zero figures, no score, balls or wickets |
| Ledger.InitialInnings | components/LiveMatch.tsx:24-35 | the fresh ledger of an innings; `Ledger.InitialInningsFresh` states its promise: exactly the listed players, every one with zero figures, and no wickets |
| Ledger.InitialInningsFresh | components/LiveMatch.tsx:24-35 | a fresh ledger lists exactly the given players, all with zero figures |
| Ledger.InitialWicketsConsistent | components/LiveMatch.tsx:24-35 | a fresh ledger's wicket count agrees with its empty fall-of-wickets list |
| Ledger.ParseFormatOvers | components/LiveMatch.tsx:17-22 | the overs display reads back as the ball count, with a negative count shown as 0 |
| Ledger.FormatOvers | components/LiveMatch.tsx:17-22 | completed overs, a dot and the balls of the over in progress; `Ledger.ParseFormatOvers` and `Ledger.FormatOversInjective` state that it reads back as the ball count and tells counts apart |
| Ledger.FormatOversInjective | components/LiveMatch.tsx:17-22 | two different ball counts never show the same overs figure |
| Ledger.CreditBatter | components/LiveMatch.tsx:754-757 | the batter's runs go up by r and a four or six is counted only when boundaries count; other batters are unchanged |
| Ledger.Concede | components/LiveMatch.tsx:760 | the bowler's runs conceded go up by r; no other figure changes |
| Ledger.CreditRuns | components/LiveMatch.tsx:751-760 | runs off the bat go to the total, to the striker when set, and to the bowler when set |
| Ledger.CreditExtra | components/LiveMatch.tsx:761-770 | a wide or no-ball adds 1 + k to the total and the bowler; only a no-ball's k goes to the striker |
| Ledger.CountLegalBall | components/LiveMatch.tsx:772-777 | a legal ball adds one ball to the innings, to the striker and to the bowler |
| Ledger.RecordWicket | components/LiveMatch.tsx:792-801 | one more wicket; the batter is out with mode, bowler and fielder; one fall-of-wicket entry at the current score |
| Ledger.RunsKeepWicketsConsistent | components/LiveMatch.tsx:751-777 | run credits keep the fall-of-wickets list consistent with the wicket count |
| Ledger.RecordWicketKeepsConsistent | components/LiveMatch.tsx:792-801 | a recorded dismissal extends the fall-of-wickets list consistently |
| Scoring.DismissedId | components/LiveMatch.tsx:786-805 | the dismissed batter is the named one, else the striker; no one on a free hit with bowled, caught or lbw |
| Scoring.ScoreBall | components/LiveMatch.tsx:744-770 | the run credits of a delivery, as the source orders them |
| Scoring.LedgerAfterBall | components/LiveMatch.tsx:744-806 | run credits, then the legal-ball count, then the dismissal |
| Scoring.FastestAfterBall | components/LiveMatch.tsx:778-783 | only a legal ball with a speed and a bowler can set the record, and only when it is faster or there is none |
| Scoring.LiveAfterBall | components/LiveMatch.tsx:855-921 | the cursor after the ball: ends, bowler, previous bowler, over events, target and free hit |
| Scoring.NotOutBatters | components/LiveMatch.tsx:810 | the count never exceeds the match players |
| Scoring.NotOutBattersCounts | components/LiveMatch.tsx:810 | the count is the length of the list of match players on the batting side's roster who are not out; it is 0 exactly when there is none |
| Scoring.MaxWickets | components/LiveMatch.tsx:809 | the wickets that close an innings, two in a super over and ten otherwise; stated in `ScoringProps.InningsClosingLimits` |
| Scoring.BallCap | components/LiveMatch.tsx:808-811 | the legal balls that close an innings, with none when no overs are scheduled; stated in `ScoringProps.InningsClosingLimits` |
| Scoring.InningsOver | components/LiveMatch.tsx:808-811 | the innings-closing test; `ScoringProps.InningsClosingLimits` states it case by case |
| Scoring.TargetReached | components/LiveMatch.tsx:812 | the chase is complete in the second innings once the score reaches a positive target; `MatchFlowProps.ChaseEndsMatch` and `MatchFlowProps.DefendedTargetWins` state what follows either way |
| Scoring.RunOutEnds | components/LiveMatch.tsx:860-886 | the ends after a run-out with a replacement named; `ScoringProps.RunOutEndsCharacterised` states it for all inputs |
| Scoring.EndsAfterBall | components/LiveMatch.tsx:856-902 | the ends after a delivery; `ScoringProps.RunOutEndsCharacterised`, `ScoringProps.OtherDismissalEnds` and `ScoringProps.RotationParity` state its three cases |
| Scoring.NextFreeHit | components/LiveMatch.tsx:904 | the next ball is a free hit; `ScoringProps.FreeHitAfter` states when |
| Scoring.IsOverEnd | components/LiveMatch.tsx:905-906 | the over is complete; `ScoringProps.OverEnd` states what happens on it and otherwise |
| ScoringProps.BallScoreConservation | components/LiveMatch.tsx:744-770 | total and bowler's runs conceded rise by the ball's total, the striker's runs by their share; nobody else's runs change |
| ScoringProps.CountKeepsRuns | components/LiveMatch.tsx:772-777 | counting a legal ball changes no runs |
| ScoringProps.WicketKeepsRuns | components/LiveMatch.tsx:786-806 | recording a dismissal changes no runs |
| ScoringProps.ScoreBallCredits | components/LiveMatch.tsx:744-770 | run credits leave balls, wickets and dismissals alone |
| ScoringProps.LegalBallCounters | components/LiveMatch.tsx:772-777 | a legal ball raises innings, striker and bowler balls by exactly one; a wide or no-ball changes none of them |
| ScoringProps.WicketRecording | components/LiveMatch.tsx:786-806 | a dismissal adds one wicket, marks the batter out and appends one fall entry; the bowler is credited only for modes other than run-out |
| ScoringProps.FreeHitProtects | components/LiveMatch.tsx:790-804 | on a free hit, bowled, caught or lbw changes nothing wicket-related |
| ScoringProps.BallKeepsWicketsConsistent | components/LiveMatch.tsx:744-806 | the wicket count and the fall-of-wickets list stay in step through every delivery |
| ScoringProps.FreeHitAfter | components/LiveMatch.tsx:904 | the next ball is a free hit exactly after a no-ball, or after a wide bowled on a free hit |
| ScoringProps.RotationParity | components/LiveMatch.tsx:896-902 | without a dismissal the batters change ends exactly when the rotation count is odd |
| ScoringProps.RotationOfButtons | components/LiveMatch.tsx:897 | the rotation count of each button: attempted runs, run value, extra runs, or none |
| ScoringProps.RunOutEndsCharacterised | components/LiveMatch.tsx:860-886 | after a run-out the not-out batter is on strike exactly when (it is the batter the completed runs leave on strike) differs from (the batters crossed); the newcomer takes the other end |
| ScoringProps.RunOutExample | components/LiveMatch.tsx:860-886 | a worked run-out: one run completed, crossed, striker out; the newcomer faces |
| ScoringProps.OtherDismissalEnds | components/LiveMatch.tsx:887-895 | any other dismissal empties only the dismissed batter's end |
| ScoringProps.OverEnd | components/LiveMatch.tsx:904-921 | the sixth legal ball ends the over: ends swap, bowler cleared and remembered as previous, over events emptied; otherwise bowler and previous bowler stay |
| ScoringProps.InningsClosingLimits | components/LiveMatch.tsx:808-811 | a super over closes at two wickets or six legal balls whatever the scheduled overs; a main innings at ten wickets or the scheduled overs, with no ball limit when none are scheduled; either when at most one batter is left after a delivery that was not a dismissal attempt |
| BowlOutRules.Taken | components/LiveMatch.tsx:977-978 | the attempts a team has made number at most all attempts |
| BowlOutRules.Hits | components/LiveMatch.tsx:970-971 | a team's hits number at most its attempts |
| BowlOutRules.Restart | components/LiveMatch.tsx:947 | a new bowl-out starts with no attempts, the first team, round one and no bowlers |
| BowlOutRules.RestartAsWritten | components/LiveMatch.tsx:947 | as written, the restart keeps the attempts of an earlier bowl-out |
| BowlOutRules.RestartAlternates | components/LiveMatch.tsx:947 | a proper restart has the alternating shape |
| BowlOutRules.TakenAlternating | components/LiveMatch.tsx:966-974 | in an alternating list the first team made the odd-numbered attempts and the second the even-numbered ones |
| BowlOutRules.HitsAtMostTaken | components/LiveMatch.tsx:970-971 | a team's hits never exceed its attempts |
| BowlOutRules.AttemptKeepsAlternating | components/LiveMatch.tsx:1011 | an attempt that does not decide the contest keeps the alternating shape |
| BowlOutRules.DecidedIsFinal | components/LiveMatch.tsx:976-992 | when the contest stops early, the winner's hits exceed the loser's hits plus every attempt the loser had left; a tie only after both bowled five |
| BowlOutRules.LastAttemptDecides | components/LiveMatch.tsx:973-976 | a well-formed contest is decided by the second team's fifth attempt at the latest |
| BowlOutRules.Attempt | components/LiveMatch.tsx:964-1011 | one bowl-out attempt; `BowlOutRules.AttemptKeepsAlternating`, `BowlOutRules.DecidedIsFinal` and `BowlOutRules.LastAttemptDecides` state that it keeps the turns alternating, ends only when the result cannot change, and ends by the tenth attempt |
| BowlOutRules.Misses | components/LiveMatch.tsx:964-1011 | the attempts of a contest in which every ball misses |
| BowlOutRules.StaleAttemptsEndEarly | components/LiveMatch.tsx:947 | with the attempts of a tied first bowl-out kept, a second one ends after three attempts though the second team had four left |
| BowlOutRules.FreshRestartContinues | components/LiveMatch.tsx:947 | from a proper restart the same three attempts leave the contest open |
| MatchFlow.WithCurrent | components/LiveMatch.tsx:640-651 | only the current innings of the pair is replaced |
| MatchFlow.TeamNames | components/LiveMatch.tsx:616-636 | no sides before toss and decision; in a super over the second-batting side bats first; otherwise the toss decides the first innings |
| MatchFlow.Sync | components/LiveMatch.tsx:639-653 | the effect renames the current innings' sides only when the batting side differs and is known |
| MatchFlow.AvailableBatsmen | components/LiveMatch.tsx:1022 | a player is offered exactly when it is a match player on the batting side, not out and at neither end |
| MatchFlow.AvailableBowlers | components/LiveMatch.tsx:1023 | a player is offered exactly when it is a match player on the bowling side that bowled neither this over nor the last |
| MatchFlow.MatchPlayers | components/LiveMatch.tsx:549 | the club's players who are in the match, in the club's order |
| MatchFlow.Opening | components/LiveMatch.tsx:551-586 | a reopened match resumes its stored progress (stage, innings number, innings, cursor); without it the stage follows the decision and status, stored innings are reloaded and the cursor is empty; toss, tie-breakers, open super over, tied innings and completed record as the match says; no undo history |
| MatchFlow.ResumedProgress | components/LiveMatch.tsx:557-571 | progress stored on the match wins: its stage, innings and cursor, and its innings number unless that is zero; without it the stage is the toss before a decision, the summary once completed and play otherwise, the innings are the stored ones and the cursor is empty; the innings number then is 2 exactly when a second innings is stored |
| MatchFlow.StoredInnings | components/LiveMatch.tsx:566-569 | each innings is the one stored on the match, or a fresh innings over the match's players where none is stored |
| MatchFlow.InitialEngine | components/LiveMatch.tsx:548-653 | the opened screen differs from the opening state only in the current innings' team names, which follow the toss |
| MatchFlow.SavedRecord | components/LiveMatch.tsx:590-608 | while a match is live and not over, the record handed back carries the progress and the fastest ball, and outside a super over the innings pair; nothing else on the match changes; otherwise the record is unchanged |
| MatchFlow.EndMatch | components/LiveMatch.tsx:681-701 | a completed match keeps everything else and records winner, result, date, innings, tie-breakers, fastest ball and player of the match, and clears the stored progress |
| MatchFlow.WithSuperOverResult | components/LiveMatch.tsx:819-821 | only the last tie-breaker gets the super-over innings and result |
| MatchFlow.WithBowlOutResult | components/LiveMatch.tsx:994-999 | only the last tie-breaker gets the bowl-out attempts and result |
| MatchFlow.TossStep | components/LiveMatch.tsx:658 | the toss goes to the first or second team name, and the stage becomes the decision |
| MatchFlow.DecisionStep | components/LiveMatch.tsx:659 | the decision and toss winner are stored on the match and the stage becomes the openers |
| MatchFlow.ToggleOpener | components/LiveMatch.tsx:662 | an opener is toggled; a third is ignored |
| MatchFlow.ToggleBowler | components/LiveMatch.tsx:663 | the opening bowler is selected, or cleared when selected again |
| MatchFlow.SelectOpenerStep | components/LiveMatch.tsx:662 | the opener toggle on the screen's state; `MatchFlowProps.OpenersAtMostTwo` states that at most two openers are ever selected |
| MatchFlow.SelectBowlerStep | components/LiveMatch.tsx:663 | the bowler toggle on the screen's state; `MatchFlow.ToggleBowler`'s contract states the selection |
| MatchFlow.StartPlayStep | components/LiveMatch.tsx:666-679 | play starts with the openers and bowler, a fresh over, a target of first-innings score + 1 in the second innings, and no undo history |
| MatchFlow.ChaseWon | components/LiveMatch.tsx:815-828 | the chasing side wins, by the wickets it has left or in the super over |
| MatchFlow.SuperOverClosed | components/LiveMatch.tsx:832-844 | the higher super-over score wins; level scores reopen the choice below two tie-breakers, else the match is tied |
| MatchFlow.InningsClosed | components/LiveMatch.tsx:831-852 | a closed innings leads to the break, the tie choice or a win for the defending side |
| MatchFlow.BallStepRecording | components/LiveMatch.tsx:724-923 | one delivery: the snapshot, the ledger, the fastest ball, then the match end, the innings end or the new positions |
| MatchFlow.BallStep | components/LiveMatch.tsx:724-923 | one delivery, with the fastest ball after it recorded if it ends the match |
| MatchFlow.BallStepAsWritten | components/LiveMatch.tsx:690 | one delivery as written: a match ended by it records the fastest ball from before it |
| MatchFlow.UndoStep | components/LiveMatch.tsx:703-722 | undo restores innings, live state and fastest ball of the last snapshot and drops it; with none nothing changes |
| MatchFlow.NewBatsmanStep | components/LiveMatch.tsx:926 | only the striker changes |
| MatchFlow.NewNonStrikerStep | components/LiveMatch.tsx:927 | only the non-striker changes |
| MatchFlow.NewBowlerStep | components/LiveMatch.tsx:928-931 | the bowler changes and the undo history empties |
| MatchFlow.StartSecondInningsStep | components/LiveMatch.tsx:1154 | innings 2 is set up with target first-innings score + 1, cleared selections and no undo history |
| MatchFlow.StartTieBreakerWith | components/LiveMatch.tsx:933-951 | a tie-breaker is appended; a super over swaps the sides into fresh ledgers; a bowl-out starts with the first team |
| MatchFlow.StartTieBreakerStep | components/LiveMatch.tsx:933-951 | the tie-breaker start with the bowl-out attempts cleared |
| MatchFlow.StartTieBreakerAsWritten | components/LiveMatch.tsx:947 | as written, the bowl-out start keeps earlier attempts |
| MatchFlow.BowlOutBowlersStep | components/LiveMatch.tsx:953-962 | the chosen bowlers of the first or second team are stored |
| MatchFlow.DeclareTieStep | components/LiveMatch.tsx:1162 | Declare Tie ends the match with no winner and "Match Tied" |
| MatchFlow.BowlOutAttemptStep | components/LiveMatch.tsx:964-1013 | one attempt on the screen's state; `MatchFlowProps.BowlOutAttemptKeepsShape` and `MatchFlowProps.BowlOutDecides` state the open and the decided cases |
| MatchFlow.ShortRunForm | components/LiveMatch.tsx:1043-1056 | accepted exactly when both numbers are present with 0 <= scored < attempted; then the event is "<scored>S<attempted>" |
| MatchFlowProps.SyncIdempotent | components/LiveMatch.tsx:639-653 | aligning the team names twice changes nothing more |
| MatchFlowProps.BallKeepsSides | components/LiveMatch.tsx:724-923 | a delivery never changes who bats and who bowls |
| MatchFlowProps.UndoRestoresBall | components/LiveMatch.tsx:703-725 | undo after a delivery restores the innings, live state, fastest ball and history from before it |
| MatchFlowProps.UndoAfterOpenBall | components/LiveMatch.tsx:703-725 | undo after a delivery that keeps the innings going gives back the whole state |
| MatchFlowProps.OpenBallLedger | components/LiveMatch.tsx:912-921 | a delivery that keeps the innings going writes its ledger to the current innings |
| MatchFlowProps.ChaseEndsMatch | components/LiveMatch.tsx:812-828 | reaching the target ends the match with the chasing side the winner, recording the winning ball's ledger |
| MatchFlowProps.ScoresLevelIsTie | components/LiveMatch.tsx:847 | the second innings closing one run short of the target goes to the tie-breaker choice |
| MatchFlowProps.DefendedTargetWins | components/LiveMatch.tsx:848 | otherwise the defending side wins by at least one run, the runs the chase fell short |
| MatchFlowProps.FirstInningsBreak | components/LiveMatch.tsx:845 | the first innings closing leads to the break and leaves the match record alone |
| MatchFlowProps.SuperOverDecided | components/LiveMatch.tsx:835-842 | a super over decided on runs is won by the side with more and recorded on the last tie-breaker |
| MatchFlowProps.SuperOverTieLadder | components/LiveMatch.tsx:843 | a tied super over reopens the choice below two tie-breakers and otherwise ends the match tied |
| MatchFlowProps.EndRecordsFastestBall | components/LiveMatch.tsx:778-783 | a match ended by a delivery records the fastest ball the scorer holds after it |
| MatchFlowProps.EndRecordsStaleFastestBall | components/LiveMatch.tsx:690 | as written, a winning delivery that sets the record stores the previous record |
| MatchFlowProps.ReopenResumesProgress | components/LiveMatch.tsx:557-571 | a live match saved by the effect and opened again resumes at the same stage, innings number, innings, cursor and fastest ball |
| MatchFlowProps.CompletedOpensAtSummary | components/LiveMatch.tsx:557 | a completed match carries no progress and reopens at the summary with an empty cursor |
| MatchFlowProps.SaveSettles | components/LiveMatch.tsx:590-608 | once the saved record is the screen's match, the effect hands back the same record again: saving settles after one round |
| MatchFlowProps.SuperOverKeepsMainInnings | components/LiveMatch.tsx:602 | in a super over, after a save made during the main match has been taken back in, the effect hands back the main match's innings |
| MatchFlowProps.TossDecidesFirstInnings | components/LiveMatch.tsx:631-635 | the toss winner bats first when it chose to bat, the other team when it chose to bowl |
| MatchFlowProps.SidesSwapBetweenInnings | components/LiveMatch.tsx:631-635 | the two innings of the main match have opposite sides |
| MatchFlowProps.SuperOverSwapsSides | components/LiveMatch.tsx:619-629 | a super over is batted first by the side that batted second |
| MatchFlowProps.OpenersAtMostTwo | components/LiveMatch.tsx:662 | at most two openers are ever selected |
| MatchFlowProps.BowlOutStartsAlternating | components/LiveMatch.tsx:947 | a started bowl-out has the alternating shape when the team names differ |
| MatchFlowProps.BowlOutAttemptKeepsShape | components/LiveMatch.tsx:1011 | an attempt the scorer takes that does not decide keeps the shape |
| MatchFlowProps.BowlOutDecides | components/LiveMatch.tsx:980-1009 | a decided bowl-out ends the match with a winner who cannot be caught; a tie reopens the choice below two tie-breakers, else the match is tied |
| LiveMatchScreen.CreditBat | components/LiveMatch.tsx:751-760 | the copy's total, striker and bowler figures after runs off the bat |
| LiveMatchScreen.CreditExtras | components/LiveMatch.tsx:761-770 | the copy's figures after a wide or no-ball |
| LiveMatchScreen.CreditDelivery | components/LiveMatch.tsx:751-770 | the run credits of one delivery equal the specification's |
| LiveMatchScreen.CountDelivery | components/LiveMatch.tsx:772-777 | the legal-ball count equals the specification's |
| LiveMatchScreen.RecordDismissal | components/LiveMatch.tsx:786-806 | the dismissal on the copy equals the specification's |
| LiveMatchScreen.ApplyBall | components/LiveMatch.tsx:727-806 | the ledger of the copied innings after the delivery equals the specification's |
| LiveMatchScreen.LiveMatchScorer.constructor | components/LiveMatch.tsx:548-653 | the opened screen's state is the specification's initial state |
| LiveMatchScreen.LiveMatchScorer.AlignSides | components/LiveMatch.tsx:639-653 | the effect's new state is the specification's |
| LiveMatchScreen.LiveMatchScorer.SaveProgress | components/LiveMatch.tsx:590-608 | the effect's record becomes the screen's match, as the app's re-render gives it back; nothing else changes |
| LiveMatchScreen.LiveMatchScorer.CallToss | components/LiveMatch.tsx:658 | the toss handler's new state is the specification's |
| LiveMatchScreen.LiveMatchScorer.Decide | components/LiveMatch.tsx:659 | the decision handler's new state is the specification's |
| LiveMatchScreen.LiveMatchScorer.SelectOpener | components/LiveMatch.tsx:662 | the opener toggle's new state is the specification's |
| LiveMatchScreen.LiveMatchScorer.SelectOpeningBowler | components/LiveMatch.tsx:663 | the bowler toggle's new state is the specification's |
| LiveMatchScreen.LiveMatchScorer.StartPlay | components/LiveMatch.tsx:666-679 | Start Play's new state is the specification's |
| LiveMatchScreen.LiveMatchScorer.Finish | components/LiveMatch.tsx:681-701 | `endMatch` stores the completed record and moves to the match-over stage |
| LiveMatchScreen.LiveMatchScorer.BallPlayed | components/LiveMatch.tsx:724-923 | the new state after a delivery is the corrected `MatchFlow.BallStep`'s: a match that ends on it records the fastest ball including that delivery, where the code as written (`MatchFlow.BallStepAsWritten`) records the value from before it |
| LiveMatchScreen.LiveMatchScorer.RecordDelivery | components/LiveMatch.tsx:725-806 | the snapshot is pushed and the copied ledger and fastest ball are the specification's |
| LiveMatchScreen.LiveMatchScorer.ChaseCompleted | components/LiveMatch.tsx:815-828 | the chase-completed state is the specification's |
| LiveMatchScreen.LiveMatchScorer.InningsEnded | components/LiveMatch.tsx:831-852 | the innings-over state is the specification's |
| LiveMatchScreen.LiveMatchScorer.SuperOverEnded | components/LiveMatch.tsx:834-844 | the closed super over's state is the specification's |
| LiveMatchScreen.LiveMatchScorer.Undo | components/LiveMatch.tsx:703-722 | undo's new state is the specification's |
| LiveMatchScreen.LiveMatchScorer.NewBatsman | components/LiveMatch.tsx:926 | the new striker's state is the specification's |
| LiveMatchScreen.LiveMatchScorer.NewNonStriker | components/LiveMatch.tsx:927 | the new non-striker's state is the specification's |
| LiveMatchScreen.LiveMatchScorer.NewBowler | components/LiveMatch.tsx:928-931 | the new bowler's state is the specification's |
| LiveMatchScreen.LiveMatchScorer.StartSecondInnings | components/LiveMatch.tsx:1154 | the second innings' state is the specification's |
| LiveMatchScreen.LiveMatchScorer.StartTieBreaker | components/LiveMatch.tsx:933-951 | the started tie-breaker's state is the corrected `MatchFlow.StartTieBreakerStep`'s: bowl-out attempts are cleared, where the code as written (`MatchFlow.StartTieBreakerAsWritten`) keeps the earlier ones |
| LiveMatchScreen.LiveMatchScorer.ChooseBowlOutBowlers | components/LiveMatch.tsx:953-962 | the chosen bowlers' state is the specification's |
| LiveMatchScreen.LiveMatchScorer.TakeBowlOutAttempt | components/LiveMatch.tsx:964-1013 | the attempt's state is the specification's |
| LiveMatchScreen.LiveMatchScorer.DeclareTie | components/LiveMatch.tsx:1162 | Declare Tie's state is the specification's |
| LiveMatchScreen.LiveMatchScorer.ShortRunConfirm | components/LiveMatch.tsx:1015-1020 | a confirmed short run is scored as its event string |
| Scheduling.CaptainRoster | components/Scheduling.tsx:95-109 | the new captain is in the roster exactly once; the old captain is gone; every other player stays; nothing new is added |
| Scheduling.TeamName | components/Scheduling.tsx:92-93 | a side is named "<captain>'s XI", or the placeholder without a captain |
| Scheduling.UnpaidFees | components/Scheduling.tsx:166 | every listed player, and only they, owe the fee |
| Scheduling.ParsedOvers | components/Scheduling.tsx:160 | the overs parse exactly when the text starts with a digit |
| Scheduling.ParsedOversReads | components/Scheduling.tsx:160 | the number typed as the overs is the number stored, also when text follows it |
| Scheduling.CreateMatch | components/Scheduling.tsx:145-168 | a match exists exactly when the form is complete: scheduled, the union of both squads without repeats, all fees unpaid, fee 100, no tie-breakers |
| Scheduling.Complete | components/Scheduling.tsx:145-152 | what the submit button needs; `Scheduling.CreateMatch` states that a match is created exactly when it holds |
| Scheduling.CreatedSides | components/Scheduling.tsx:162-163 | two different side names give two squads; equal names leave the second squad |
| Scheduling.MatchForm.constructor | components/Scheduling.tsx:77-87 | an empty form dated today with 07:00 and 10 overs |
| Scheduling.MatchForm.SelectCaptain | components/Scheduling.tsx:95-109 | the edited side's roster becomes `CaptainRoster`; the other side is untouched |
| Scheduling.MatchForm.AddPlayer | components/Scheduling.tsx:133 | the player is appended to the edited squad only |
| Scheduling.MatchForm.RemovePlayer | components/Scheduling.tsx:135-140 | the edited side's captain stays; any other id leaves only the edited squad |
| Scheduling.MatchForm.AvailablePlayers | components/Scheduling.tsx:116-121 | the players offered are in neither squad and match the search |
| Scheduling.MatchForm.CaptainBOptions | components/Scheduling.tsx:111 | the second captain's options exclude the first captain |
| Scheduling.MatchForm.Submit | components/Scheduling.tsx:142-178 | nothing is created when a detail, a captain or eleven players on a side is missing; otherwise the created match and a reset form |
| Scheduling.MatchForm.Reset | components/Scheduling.tsx:170-177 | the form is cleared after a submit |
| Scheduling.PickedNotOffered | components/Scheduling.tsx:116-121 | a player already in a squad is never offered |
| App.Values | App.tsx:224 | the map's values in insertion order |
| App.LastImport | App.tsx:217-222 | the last importable player with the id; none exactly when no importable player has it |
| App.MergeGet | App.tsx:213-226 | after the import an id holds its last importable player; an id no import carries keeps what it held |
| App.MergeKeepsOrder | App.tsx:213-226 | old entries keep their order and position; new ids are appended |
| App.ImportReplacesInPlace | App.tsx:213-226 | with distinct ids, each old player stays in place unless an import replaces it |
| App.IndexDistinct | App.tsx:215 | players with distinct ids are filed one entry each, in order |
| App.StartMatchIn | App.tsx:228-231 | only the match with the id becomes live; every other match is unchanged |
| App.ReplaceById | App.tsx:185-186 | the update of a player, and likewise of a match (App.tsx:235-237): only the same-id entry is replaced; the length and ids are kept |
| App.ReplaceMatchTwice | App.tsx:235-237 | a later update of the same match wins; updating twice equals updating once |
| App.StartThenUpdate | App.tsx:228-237 | starting then updating a match leaves every other match as it was |
| App.VisibleMatches | App.tsx:152-157 | a match not completed or without completion date is always shown; a shown completed one passed the date check |
| App.ClubApp.constructor | App.tsx:37-45 | the app starts with the given lists, no user and no live match |
| App.ClubApp.ImportPlayers | App.tsx:213-226 | the loop's result is the map built from the players and then the importable imports |
| App.ClubApp.Register | App.tsx:174-183 | the player gets id "p" + (count + 1) and today's date, is appended and signed in |
| App.ClubApp.UpdatePlayer | App.tsx:185-189 | the same-id player is replaced, and the signed-in user too when it is that player |
| App.ClubApp.AddMatch | App.tsx:194-199 | the match gets id "m" + (count + 1) and goes in front |
| App.ClubApp.StartMatch | App.tsx:228-233 | the match goes live and becomes the one being scored |
| App.ClubApp.UpdateMatch | App.tsx:235-237 | the same-id match is replaced |
| Fees.PaidCount | components/Fees.tsx:262 | the paid entries number at most the fee entries |
| Fees.PaidCountUpdate | components/Fees.tsx:47-49 | changing one player's status changes the paid count by at most one, in the direction of the change |
| Fees.TotalFeesCollected | components/Fees.tsx:260-264 | the sum over completed matches of paid count times the fee (100 when unset); nothing is collected while no match is completed; the dashboard total (components/Dashboard.tsx:115-121) is this same function |
| Fees.TotalFeesAppend | components/Fees.tsx:260-264 | the total over two lists of matches is the sum of their totals |
| Fees.TotalFeesBounds | components/Fees.tsx:260-264 | with non-negative fees the total lies between 0 and the total owed |
| Fees.LoserTeam | components/Fees.tsx:237-240 | with a winner, the first team name other than the winner; none without a winner |
| Fees.FindPlayer | components/Fees.tsx:45 | the first player with the id, if any |
| Fees.KnownPlayers | components/Fees.tsx:55 | the ids that name a player, mapped to the players, in order |
| Fees.PlayersToShow | components/Fees.tsx:51-59 | the losing squad's players when there is a winner, all match players otherwise |
| Fees.TieShowsEveryone | components/Fees.tsx:51-59 | a match without a winner lists every known match player |
| Fees.UnpaidIds | components/Fees.tsx:244 | exactly the squad ids whose status is Unpaid |
| Fees.ReminderFor | components/Fees.tsx:236-255 | a reminder exists exactly when there is a winner, a losing team and a known unpaid loser; it lists exactly those players |
| Fees.MatchesWithUnpaidLosers | components/Fees.tsx:234-257 | one reminder per completed match that has one, in order |
| Fees.TieHasNoReminder | components/Fees.tsx:237 | a tied match never gets a reminder |
| Fees.IsTie | components/Fees.tsx:350 | no winner and a description mentioning a tie; `Fees.TieShowsEveryone` and `Fees.TieHasNoReminder` state what a tie means for the editor and the reminders |
| Fees.SaveFees | components/Fees.tsx:270-271 | saving changes only the fees and the fee per player |
| Fees.SaveUnchanged | components/Fees.tsx:270-271 | saving the match's own fees gives the match back |
| Fees.FeeEditor.constructor | components/Fees.tsx:42-43 | the editor starts from the match's fees and its fee, 100 when unset |
| Fees.FeeEditor.StatusChange | components/Fees.tsx:47-49 | one player's status changes; every other entry is unchanged |
| Fees.FeeEditor.SetFeeAmount | components/Fees.tsx:73 | the parsed amount, or 0 when it does not parse or is 0 |
| Fees.FeeEditor.Save | components/Fees.tsx:270-271 | the saved match carries the editor's fees and fee |
| Finance.TotalWithdrawn | components/Finance.tsx:58 | the sum of the amounts, non-negative when every amount is positive |
| Finance.FinancialSummary | components/Finance.tsx:49-62 | collected is the fees page's total; withdrawn is the sum of the ledger; balance plus withdrawn equals collected |
| Finance.BalanceAfterWithdrawal | components/Finance.tsx:58-59 | a recorded withdrawal lowers the balance by its amount |
| Finance.AcceptedKeepsBalance | components/Finance.tsx:72-77 | an accepted withdrawal never takes the balance below zero |
| Finance.FinanceScreen.constructor | components/Finance.tsx:44-47 | an empty form dated today |
| Finance.FinanceScreen.Submit | components/Finance.tsx:64-81 | rejected unchanged when a field is missing or the amount exceeds the balance; otherwise recorded in front, balance down by the amount and still >= 0, the form cleared |
| Dashboard.ValueOf | components/Dashboard.tsx:36-37 | a key's value is missing exactly for an unset jersey number |
| Dashboard.StringLessIrreflexive | components/Dashboard.tsx:42-47 | no text sorts before itself |
| Dashboard.StringLessTransitive | components/Dashboard.tsx:42-47 | text order is transitive |
| Dashboard.StringLessTotal | components/Dashboard.tsx:42-47 | two different texts are ordered one way or the other |
| Dashboard.CompareValues | components/Dashboard.tsx:35-49 | a missing first value gives 1, a missing second -1; otherwise -1/1 by the direction and 0 for equal values |
| Dashboard.ValueLessIrreflexive | components/Dashboard.tsx:42-47 | no value sorts before itself |
| Dashboard.ValueLessAsymmetric | components/Dashboard.tsx:42-47 | two values are never each before the other |
| Dashboard.ValueLessTransitive | components/Dashboard.tsx:42-47 | value order is transitive |
| Dashboard.ValueLessTotal | components/Dashboard.tsx:42-47 | two different values are ordered one way or the other |
| Dashboard.BeforeTotal | components/Dashboard.tsx:39-48 | of two values one may always come first |
| Dashboard.BeforeTransitive | components/Dashboard.tsx:39-48 | the sort order is transitive |
| Dashboard.CompareAgrees | components/Dashboard.tsx:39-48 | the comparator answers as the order does whenever a value is present |
| Dashboard.Insert | components/Dashboard.tsx:35 | inserting adds exactly the player |
| Dashboard.InsertSorted | components/Dashboard.tsx:35-49 | inserting into a sorted list keeps it sorted |
| Dashboard.SortBy | components/Dashboard.tsx:35-49 | the sort is a permutation of its input |
| Dashboard.SortBySorted | components/Dashboard.tsx:35-49 | the sorted list is in the requested order |
| Dashboard.SortedItems | components/Dashboard.tsx:32-52 | no sort config keeps the list as it is; the result is always a permutation of the input |
| Dashboard.MissingLast | components/Dashboard.tsx:39-40 | players without a value come after players with one, whatever the direction |
| Dashboard.NextConfig | components/Dashboard.tsx:54-60 | the same key while ascending turns descending; anything else sorts ascending on the key |
| Dashboard.ClickTwiceFlips | components/Dashboard.tsx:54-60 | two clicks on a new key give descending order on it |
| Dashboard.FilteredPlayers | components/Dashboard.tsx:102-106 | a player stays exactly when the name contains the term ignoring case, or its jersey number's digits contain it |
| Dashboard.MatchesSearch | components/Dashboard.tsx:102-106 | the search predicate; `Dashboard.FilteredPlayers` states that a player is kept exactly when it holds, and `Dashboard.EmptySearchKeepsAll` that an empty search keeps everyone |
| Dashboard.EmptySearchKeepsAll | components/Dashboard.tsx:102-106 | an empty search keeps every player |
| Dashboard.Directory.constructor | components/Dashboard.tsx:29-30 | the directory starts unsorted |
| Dashboard.Directory.RequestSort | components/Dashboard.tsx:54-60 | the new config is the next config for the key |
| Dashboard.Directory.Items | components/Dashboard.tsx:102-108 | the shown players are the filtered players sorted by the config |
| PlayerDetails.Contribution | components/PlayerDetailsModal.tsx:88-118 | one match adds at most one played match, and won plus lost is at most played |
| PlayerDetails.ContributionFacts | components/PlayerDetailsModal.tsx:88-118 | a counted match on a side adds a played match, a win when that side won and a loss when another won; runs and wickets come from the two main innings only |
| PlayerDetails.CareerTotals | components/PlayerDetailsModal.tsx:87-119 | won plus lost is at most played, which is at most the number of matches |
| PlayerDetails.CareerTotalsAppend | components/PlayerDetailsModal.tsx:87-119 | the totals over two lists of matches add up |
| PlayerDetails.MatchesPlayedCount | components/PlayerDetailsModal.tsx:88-93 | matches played counts the completed matches with innings in which the player is on a side |
| PlayerDetails.OnlyCountedMatches | components/PlayerDetailsModal.tsx:88 | matches that are not completed or have no innings add nothing |
| PlayerDetails.PlayerStats | components/PlayerDetailsModal.tsx:74-130 | no figures without a player; otherwise the loop's totals are the career totals |
| PlayerDetails.TallyMatch | components/PlayerDetailsModal.tsx:88-118 | one pass of the loop adds the match's contribution |
| PlayerDetails.ProcessInnings | components/PlayerDetailsModal.tsx:101-115 | one innings adds the player's runs, balls, wickets and balls bowled |
| PlayerDetails.Result | components/PlayerDetailsModal.tsx:140-145 | Win or Loss exactly when there is a winner; Tie exactly for the tie description without a winner; N/A otherwise |
| PlayerDetails.Batting | components/PlayerDetailsModal.tsx:150-154 | a batting line only for balls faced; the second innings wins over the first |
| PlayerDetails.Bowling | components/PlayerDetailsModal.tsx:155-166 | a bowling line only for balls bowled; the second innings wins over the first |
| PlayerDetails.MatchLines | components/PlayerDetailsModal.tsx:132-177 | one line per completed match with innings that lists the player, and only those |
| PlayerDetails.Line | components/PlayerDetailsModal.tsx:132-177 | one match line; `PlayerDetails.MatchLines`, `PlayerDetails.LineResult`, `PlayerDetails.Batting` and `PlayerDetails.Bowling` state its parts |
| PlayerDetails.LineResult | components/PlayerDetailsModal.tsx:138-145 | a line's result is the match's result for the player's side |
| Scorecard.FormatOvers | components/ScorecardModal.tsx:16-21 | "0.0" for no or negative balls, else overs, a dot and the balls of the over |
| Scorecard.FormatOversAgrees | components/ScorecardModal.tsx:16-21 | the card's and the profile's overs figure equal the scorer's for every count |
| Scorecard.PlayerName | components/ScorecardModal.tsx:26 | the name of the first player with the id, shown as "Unknown" when that name is empty or no player has the id; never empty |
| Scorecard.DismissalText | components/ScorecardModal.tsx:30-42 | "not out" exactly when the batter is not out |
| Scorecard.DismissalTextCases | components/ScorecardModal.tsx:30-42 | b., c. … b., lbw b., run out (…), or "out", by the mode of dismissal |
| Scorecard.BattingRows | components/ScorecardModal.tsx:53-57 | a row for each squad batter with figures who faced a ball or is out, in squad order |
| Scorecard.BowlingRows | components/ScorecardModal.tsx:65-69 | a row for each squad bowler with figures who bowled a ball, in squad order |
| Scorecard.Card | components/ScorecardModal.tsx:168-177 | a card exactly when both sides are listed on the match |
| Scorecard.BowlOutHits | components/ScorecardModal.tsx:181-183 | a side's hits number at most the attempts |
| Scorecard.BowlOutHitsAgree | components/ScorecardModal.tsx:181-183 | the card's hits are the hits the bowl-out decides on |
| Scorecard.BowlOutTallyCounts | components/ScorecardModal.tsx:180-183 | each of the first two sides shows its hits among the attempts |
| Scorecard.BowlOutTally | components/ScorecardModal.tsx:180-183 | the hits shown for the first two sides; `Scorecard.BowlOutTallyCounts` states them |
| TimePicker.Hour12 | components/TimePicker.tsx:37-39 | the 12-hour dial shows 1..12 and agrees with the hour modulo 12 |
| TimePicker.FromValue | components/TimePicker.tsx:34-45 | a value of the shape HH:mm sets hour, minute and period (PM exactly from 12); any other value changes nothing |
| TimePicker.Hour24 | components/TimePicker.tsx:49-55 | PM below 12 adds 12, 12 AM is 0, otherwise the hour |
| TimePicker.DialsAgree | components/TimePicker.tsx:37-55 | a selected hour converted to 24 hours and back is the same hour and period |
| TimePicker.ToValue | components/TimePicker.tsx:47-56 | nothing while a select is empty; else the zero-padded 24-hour hour, a colon and the minute |
| TimePicker.Reported | components/TimePicker.tsx:56-59 | a change is reported only when the new value differs |
| TimePicker.ValueRoundTrip | components/TimePicker.tsx:34-59 | every HH:mm value with hour below 24 survives the picker unchanged, so no change is reported |
| TimePicker.DialsBack | components/TimePicker.tsx:37-56 | every hour 0..23 converted to 12 hours and back gives itself |
| TimePicker.SelectsRoundTrip | components/TimePicker.tsx:34-59 | an hour 1..12, a two-digit minute and a period survive the round trip |
| TimePicker.PaddedHour | components/TimePicker.tsx:56 | an hour of the day renders as two digits that read back as it |
| Fielding.MirrorAlign | components/fieldingPositionsData.ts:74-78 | start and end swap; middle and no anchor stay |
| Fielding.MirrorAlignInvolution | components/fieldingPositionsData.ts:74-78 | mirroring the anchor twice gives it back |
| Fielding.MirrorPosition | components/fieldingPositionsData.ts:83-87 | x becomes 1000 - x, y stays, the anchor is mirrored |
| Fielding.MirrorPositionInvolution | components/fieldingPositionsData.ts:83-87 | mirroring a position twice gives it back |
| Fielding.MirrorField | components/fieldingPositionsData.ts:80-89 | the left-handed map has the same names in the same order, each position mirrored |
| Fielding.MirrorFieldTwice | components/fieldingPositionsData.ts:80-89 | mirroring the map twice gives back the right-handed map |
| Fielding.MirrorStaysOnDrawing | components/fieldingPositionsData.ts:80-89 | positions within 0..1000 stay within it, and a name finds its mirrored position |
| Fielding.LeftHandedOnDrawing | components/fieldingPositionsData.ts:29-89 | the left-handed map of the right-handed table has its names and lies on the drawing |
| Constants.FormatDate | constants.ts:56-62 | three '-'-separated pieces are reversed; any other string is returned as it is |
| Constants.DayFirstToYearFirst | constants.ts:56-60 | DD-MM-YYYY becomes YYYY-MM-DD |
| Constants.FormatDateTwice | constants.ts:56-60 | rewriting a three-piece date twice gives it back |
| Constants.RemoveSpaces | constants.ts:76 | the photo seed keeps exactly the characters that are not whitespace, in order |
| Constants.SeedPlayers | constants.ts:64-79 | one player per seed row, in order, with the row's id |
| Constants.SeedPlayer | constants.ts:64-79 | the player made from one seed row; `Constants.SeedPlayersFacts` and `Constants.SeedRegistrationDates` state its fields |
| Constants.SeedPlayersFacts | constants.ts:64-79 | id, name and jersey kept; birth date rewritten; Maharashtra, India; registered 2024-05-20 for p4 and 2023-01-01 otherwise |
| Constants.SeedRegistrationDates | constants.ts:77 | the two registration dates read 2024-05-20 and 2023-01-01 |
| Domain.TeamOf | components/PlayerDetailsModal.tsx:90 | the first side whose squad lists the player; none exactly when no squad does |

## Left out

- The player-of-the-match heuristic (`calculateManOfTheMatch`) uses floating-point strike
  rates and economies. The model takes the chosen player as a parameter of the end of a match.
- Ball speeds are integers. Strike rate and economy (`toFixed`) are not computed.
- The coin toss is a boolean parameter. The clock (completion dates, withdrawal ids, today's
  date) is a parameter too.
- Not modelled:
  - persistence in local storage. The scorer replaces `matchRecord` itself where the component
    calls `onUpdateMatch` with a record of its own: the toss decision (`MatchFlow.DecisionStep`)
    and the end of the match (`MatchFlow.EndMatch`). The live-progress effect's record
    (`MatchFlow.SavedRecord`) comes back in only through `LiveMatchScorer.SaveProgress`, which
    models the effect followed by the app's re-render. The step functions and the other handlers
    do not call it; a caller decides when the effect runs;
  - toasts, modals, alerts and every JSX rendering;
  - the PDF and spreadsheet exports;
  - the file import of `ImportExport.tsx`.
- Date arithmetic is a parameter or not modelled:
  - the seven-day window of `visibleMatches` is the `recent` parameter;
  - not modelled are the date sorts of completed matches, of match lines and of the
    withdrawal ledger, the newest member, and `toLocaleDateString` of match dates.
- Dashboard.SortBy: `Array.prototype.sort` is modelled by a stable insertion sort. For two
  players without a jersey number the source's comparator answers 1 both ways. No order gives
  that answer, so the order such players get from the engine's sort is left open. The model
  keeps them in list order.
- Scheduling.ParsedOvers: `parseInt` of the overs text reads leading digits only. The sign,
  leading whitespace and other bases are not modelled. Likewise `parseFloat` of the withdrawal
  amount arrives already parsed (Finance), and `parseInt` of the fee amount arrives already
  parsed (Fees).
- Finance.TotalWithdrawn, Finance.FinancialSummary and Finance.FinanceScreen.Submit: withdrawal
  amounts and the balance are exact reals. Fractional amounts such as 12.5 are kept, but the
  rounding of JavaScript's binary floating point (0.1 + 0.2) is not modelled.
- Lower-casing and whitespace cover ASCII only.
- MatchFlow.SavedRecord: in a super over it hands back `s.matchRecord.innings`. The component
  hands back `match.innings` of the prop, which the app re-reads after every update, so there it
  is the main match's innings saved before the tie. The two agree once a save made during the
  main match has been taken back in by `LiveMatchScorer.SaveProgress`
  (`MatchFlowProps.SuperOverKeepsMainInnings`). A state built from the step functions alone,
  for a match scored from the toss, still carries the innings the screen opened with, `None`.
- LiveMatchScreen.LiveMatchScorer.BallPlayed and LiveMatchScreen.LiveMatchScorer.StartTieBreaker:
  these follow the corrected readings under "## Findings", not the component as written. The code
  as written is `MatchFlow.BallStepAsWritten` and `MatchFlow.StartTieBreakerAsWritten`.
- Scorecard.Card: the source throws when a side is not listed on the match; the model returns
  none.
- PlayerDetails.PlayerStats: a missing player is modelled as `Option`. A missing matches list
  cannot occur, because the matches are a sequence.
- The seed rows themselves (the text of `playersFromPdf`) are a parameter of `SeedPlayers`.
- The per-field state setters of the scorer (`SetStage`, `SetInnings`, …) stand for React's
  `useState` setters and carry no property of their own.
- The scorer's wicket and run-out dialog flow is reduced to the options passed with the
  delivery (`BallOptions`).
- Login and logout (`handleLogin`, `handleLogout`) are not modelled; authentication is not
  part of this model.

## Findings

| source | as written | input that shows it | evidently intended | confidence | as-written member | corrected member |
|---|---|---|---|---|---|---|
| components/LiveMatch.tsx:947 | starting a bowl-out keeps the attempts of an earlier bowl-out | a first bowl-out tied 0-0 (nine attempts stored), then a second in which the first team hits and both then miss: it ends after three attempts, although the second team could still equal the score | a new bowl-out starts with no attempts | not executed | BowlOutRules.StaleAttemptsEndEarly | BowlOutRules.DecidedIsFinal |
| components/LiveMatch.tsx:690 | `endMatch` stores the fastest ball from before the last delivery | the winning delivery of a chase is legal, has a speed and is faster than the record | the completed match records the fastest ball including that delivery | not executed | MatchFlowProps.EndRecordsStaleFastestBall | MatchFlowProps.EndRecordsFastestBall |

The scorer class `LiveMatchScreen.LiveMatchScorer` follows the corrected column of both rows.
`BallPlayed` equals `MatchFlow.BallStep`, not `MatchFlow.BallStepAsWritten`. `StartTieBreaker`
equals `MatchFlow.StartTieBreakerStep`, not `MatchFlow.StartTieBreakerAsWritten`. The code as
written is modelled by those two as-written functions and the lemmas beside them.
