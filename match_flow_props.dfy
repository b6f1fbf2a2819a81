/** Properties of the live scorer's steps: undo, the ways a delivery ends an innings or the
    match, the tie-breaker ladder, the toss deciding who bats, and the record kept when a
    match ends on a record-breaking delivery. */
module MatchFlowProps {
  import opened Common
  import opened Domain
  import opened Events
  import opened Ledger
  import opened Scoring
  import opened BowlOutRules
  import opened MatchFlow

  /** The fields the batting and bowling sides are derived from. */
  ghost predicate SameSides(s: EngineState, t: EngineState) {
    && t.matchRecord.tossWinner == s.matchRecord.tossWinner
    && t.matchRecord.decision == s.matchRecord.decision
    && t.matchRecord.teams == s.matchRecord.teams
    && t.isSuperOver == s.isSuperOver
    && t.currentInningsNum == s.currentInningsNum
    && (s.isSuperOver ==> t.tiedMatchInnings == s.tiedMatchInnings)
  }

  lemma SameSidesSameNames(s: EngineState, t: EngineState)
    requires SameSides(s, t)
    ensures TeamNames(t) == TeamNames(s)
  {
  }

  /** Aligning the team names twice changes nothing more. */
  lemma SyncIdempotent(s: EngineState)
    ensures Sync(Sync(s)) == Sync(s)
  {
    SameSidesSameNames(s, Sync(s));
  }

  /** A delivery never changes who bats and who bowls. */
  lemma BallKeepsSides(s: EngineState, event: string, o: BallOptions, speed: int, stamp: EndStamp, recordPreBall: bool)
    requires BallReady(s, event, o)
    ensures SameSides(s, BallStepRecording(s, event, o, speed, stamp, recordPreBall))
  {
    var r := ReadEvent(event);
    var inn := BallLedger(s, event, o);
    var pair := WithCurrent(s.innings, s.currentInningsNum, inn);
    var fb := FastestAfterBall(s.fastestBall, r, speed, s.liveState.currentBowlerId);
    var recorded := if recordPreBall then s.fastestBall else fb;
    var pushed := s.(overHistory := s.overHistory + [Snapshot(s.innings, s.liveState, s.fastestBall)], fastestBall := fb);
    var t := BallStepRecording(s, event, o, speed, stamp, recordPreBall);
    if ChaseCompletes(s, event, o) {
      var c := ChaseWon(pushed, TeamNames(s).batting, inn, pair, recorded, stamp);
      assert t == Sync(c);
    } else if ClosesInnings(s, event, o) {
      var c := InningsClosed(pushed, TeamNames(s), inn, pair, recorded, stamp);
      assert t == Sync(c);
    } else {
      var c := pushed.(innings := pair, liveState := LiveAfterBall(s.liveState, event, o, DismissedId(r, o, s.liveState.onStrikeBatsmanId, s.liveState.isFreeHit)));
      assert t == Sync(c);
    }
  }

  /** Undo after a delivery restores the innings, the live cursor, the fastest ball and the
      undo history from before it, whatever the delivery did to the stage. */
  lemma UndoRestoresBall(s: EngineState, event: string, o: BallOptions, speed: int, stamp: EndStamp)
    requires BallReady(s, event, o) && InLine(s)
    ensures var u := UndoStep(BallStep(s, event, o, speed, stamp));
            u.innings == s.innings && u.liveState == s.liveState && u.fastestBall == s.fastestBall
            && u.overHistory == s.overHistory
  {
    var t := BallStep(s, event, o, speed, stamp);
    BallKeepsSides(s, event, o, speed, stamp, false);
    var restored := t.(overHistory := s.overHistory, innings := s.innings, liveState := s.liveState, fastestBall := s.fastestBall);
    assert t.overHistory[..|t.overHistory| - 1] == s.overHistory;
    assert UndoStep(t) == Sync(restored);
    SameSidesSameNames(s, restored);
  }

  /** Undo after a delivery that neither completes the chase nor closes the innings gives
      back exactly the state before it. */
  lemma UndoAfterOpenBall(s: EngineState, event: string, o: BallOptions, speed: int, stamp: EndStamp)
    requires BallReady(s, event, o) && InLine(s)
    requires !ChaseCompletes(s, event, o) && !ClosesInnings(s, event, o)
    ensures UndoStep(BallStep(s, event, o, speed, stamp)) == s
  {
    var t := BallStep(s, event, o, speed, stamp);
    UndoRestoresBall(s, event, o, speed, stamp);
    BallKeepsSides(s, event, o, speed, stamp, false);
    var u := UndoStep(t);
    assert u == s.(innings := u.innings, liveState := u.liveState, fastestBall := u.fastestBall, overHistory := u.overHistory);
  }

  /** A delivery that keeps the innings going writes its ledger to the current innings. */
  lemma OpenBallLedger(s: EngineState, event: string, o: BallOptions, speed: int, stamp: EndStamp)
    requires BallReady(s, event, o) && InLine(s)
    requires !ChaseCompletes(s, event, o) && !ClosesInnings(s, event, o)
    ensures var t := BallStep(s, event, o, speed, stamp);
            && CurrentInnings(t) == BallLedger(s, event, o)
            && t.stage == s.stage && t.matchRecord == s.matchRecord
  {
    var t := BallStep(s, event, o, speed, stamp);
    var inn := BallLedger(s, event, o);
    var pair := WithCurrent(s.innings, s.currentInningsNum, inn);
    var pre := s.(overHistory := t.overHistory, fastestBall := t.fastestBall, innings := pair,
                  liveState := t.liveState);
    assert t == Sync(pre);
    SameSidesSameNames(s, pre);
    assert CurrentInnings(s) == inn.(score := CurrentInnings(s).score, wickets := CurrentInnings(s).wickets,
      totalLegalBalls := CurrentInnings(s).totalLegalBalls, batsmenStats := CurrentInnings(s).batsmenStats,
      bowlerStats := CurrentInnings(s).bowlerStats, fallOfWickets := CurrentInnings(s).fallOfWickets);
  }

  /** Reaching the target ends the match with the chasing side the winner, and the match
      records the ledger including the winning delivery. */
  lemma ChaseEndsMatch(s: EngineState, event: string, o: BallOptions, speed: int, stamp: EndStamp)
    requires BallReady(s, event, o) && ChaseCompletes(s, event, o)
    ensures var t := BallStep(s, event, o, speed, stamp);
            && t.stage == MatchOver && t.matchRecord.status == Completed && t.completedMatch == Some(t.matchRecord)
            && (TeamNames(s).batting != "" ==> t.matchRecord.winner == Some(TeamNames(s).batting))
            && (!s.isSuperOver ==>
                  t.matchRecord.innings == Some(Full(WithCurrent(s.innings, s.currentInningsNum, BallLedger(s, event, o))))
                  && t.matchRecord.resultDescription
                     == Some(WonBy(TeamNames(s).batting, 10 - BallLedger(s, event, o).wickets, "wicket")))
  {
    ChasingStep(s, event, o, speed, stamp);
    ChaseRecorded(s, event, o, speed, stamp);
    ChaseRecordedLine(s, event, o, speed, stamp);
  }

  /** A delivery that completes the chase is the chase's win, with the snapshot pushed and
      the fastest ball after it recorded. */
  lemma ChasingStep(s: EngineState, event: string, o: BallOptions, speed: int, stamp: EndStamp)
    requires BallReady(s, event, o) && ChaseCompletes(s, event, o)
    ensures var inn := BallLedger(s, event, o);
            var fb := FastestAfterBall(s.fastestBall, ReadEvent(event), speed, s.liveState.currentBowlerId);
            BallStep(s, event, o, speed, stamp)
            == Sync(ChaseWon(s.(overHistory := s.overHistory + [Snapshot(s.innings, s.liveState, s.fastestBall)], fastestBall := fb),
                             TeamNames(s).batting, inn, WithCurrent(s.innings, s.currentInningsNum, inn), fb, stamp))
  {
  }

  /** The chase's win on its own: completed and the winner recorded ... */
  lemma ChaseRecorded(s: EngineState, event: string, o: BallOptions, speed: int, stamp: EndStamp)
    requires BallReady(s, event, o)
    ensures var inn := BallLedger(s, event, o);
            var fb := FastestAfterBall(s.fastestBall, ReadEvent(event), speed, s.liveState.currentBowlerId);
            var t := Sync(ChaseWon(s.(overHistory := s.overHistory + [Snapshot(s.innings, s.liveState, s.fastestBall)], fastestBall := fb),
                                   TeamNames(s).batting, inn, WithCurrent(s.innings, s.currentInningsNum, inn), fb, stamp));
            && t.stage == MatchOver && t.matchRecord.status == Completed && t.completedMatch == Some(t.matchRecord)
            && (TeamNames(s).batting != "" ==> t.matchRecord.winner == Some(TeamNames(s).batting))
  {
  }

  /** ... and in the main match the innings with the winning delivery and the wickets in hand. */
  lemma ChaseRecordedLine(s: EngineState, event: string, o: BallOptions, speed: int, stamp: EndStamp)
    requires BallReady(s, event, o)
    ensures var inn := BallLedger(s, event, o);
            var fb := FastestAfterBall(s.fastestBall, ReadEvent(event), speed, s.liveState.currentBowlerId);
            var t := Sync(ChaseWon(s.(overHistory := s.overHistory + [Snapshot(s.innings, s.liveState, s.fastestBall)], fastestBall := fb),
                                   TeamNames(s).batting, inn, WithCurrent(s.innings, s.currentInningsNum, inn), fb, stamp));
            !s.isSuperOver ==>
              t.matchRecord.innings == Some(Full(WithCurrent(s.innings, s.currentInningsNum, BallLedger(s, event, o))))
              && t.matchRecord.resultDescription
                 == Some(WonBy(TeamNames(s).batting, 10 - BallLedger(s, event, o).wickets, "wicket"))
  {
  }

  /** In the second innings of the main match, an innings that closes one run short of the
      target is a tie and goes to the choice of tie-breaker, keeping the main innings. */
  lemma ScoresLevelIsTie(s: EngineState, event: string, o: BallOptions, speed: int, stamp: EndStamp)
    requires BallReady(s, event, o) && !s.isSuperOver && s.currentInningsNum == 2
    requires !ChaseCompletes(s, event, o) && ClosesInnings(s, event, o)
    requires BallLedger(s, event, o).score == s.liveState.target - 1
    ensures var t := BallStep(s, event, o, speed, stamp);
            && t.stage == TieBreakerSelection && t.matchRecord == s.matchRecord
            && t.tiedMatchInnings == Some(Full(WithCurrent(s.innings, 2, BallLedger(s, event, o))))
  {
  }

  /** Otherwise the side defending the target wins by the runs the chase fell short (at
      least one, by `ShortOfTarget`). */
  lemma DefendedTargetWins(s: EngineState, event: string, o: BallOptions, speed: int, stamp: EndStamp)
    requires BallReady(s, event, o) && !s.isSuperOver && s.currentInningsNum == 2 && s.liveState.target > 0
    requires !ChaseCompletes(s, event, o) && ClosesInnings(s, event, o)
    requires BallLedger(s, event, o).score != s.liveState.target - 1
    ensures var t := BallStep(s, event, o, speed, stamp);
            && t.stage == MatchOver && t.matchRecord.status == Completed
            && (TeamNames(s).bowling != "" ==> t.matchRecord.winner == Some(TeamNames(s).bowling))
            && t.matchRecord.resultDescription
               == Some(WonBy(TeamNames(s).bowling, s.liveState.target - 1 - BallLedger(s, event, o).score, "run"))
  {
    ClosingStep(s, event, o, speed, stamp);
    DefendedClose(s, event, o, speed, stamp);
    var fb := FastestAfterBall(s.fastestBall, ReadEvent(event), speed, s.liveState.currentBowlerId);
    var inn := BallLedger(s, event, o);
    DefendedResult(s.(overHistory := s.overHistory + [Snapshot(s.innings, s.liveState, s.fastestBall)], fastestBall := fb),
                   TeamNames(s), inn, WithCurrent(s.innings, s.currentInningsNum, inn), fb, stamp);
  }

  /** A second innings that ends without the chase completed and not level ends at least
      one run short of a tie: the defending side's margin is at least one run. */
  lemma ShortOfTarget(s: EngineState, event: string, o: BallOptions)
    requires BallReady(s, event, o) && s.currentInningsNum == 2 && s.liveState.target > 0
    requires !ChaseCompletes(s, event, o) && BallLedger(s, event, o).score != s.liveState.target - 1
    ensures s.liveState.target - 1 - BallLedger(s, event, o).score >= 1
  {
  }

  /** A delivery that closes the innings without completing a chase is the innings' close,
      with the snapshot pushed and the fastest ball after it recorded. */
  lemma ClosingStep(s: EngineState, event: string, o: BallOptions, speed: int, stamp: EndStamp)
    requires BallReady(s, event, o) && !ChaseCompletes(s, event, o) && ClosesInnings(s, event, o)
    ensures var inn := BallLedger(s, event, o);
            var fb := FastestAfterBall(s.fastestBall, ReadEvent(event), speed, s.liveState.currentBowlerId);
            BallStep(s, event, o, speed, stamp)
            == Sync(InningsClosed(s.(overHistory := s.overHistory + [Snapshot(s.innings, s.liveState, s.fastestBall)], fastestBall := fb),
                                  TeamNames(s), inn, WithCurrent(s.innings, s.currentInningsNum, inn), fb, stamp))
  {
  }

  /** The closing of the main match's second innings short of a tie, on its own: the match
      is over and completed with the defending side as the winner ... */
  lemma DefendedClose(s: EngineState, event: string, o: BallOptions, speed: int, stamp: EndStamp)
    requires BallReady(s, event, o) && !s.isSuperOver && s.currentInningsNum == 2
    requires BallLedger(s, event, o).score != s.liveState.target - 1
    ensures var inn := BallLedger(s, event, o);
            var fb := FastestAfterBall(s.fastestBall, ReadEvent(event), speed, s.liveState.currentBowlerId);
            var t := Sync(InningsClosed(s.(overHistory := s.overHistory + [Snapshot(s.innings, s.liveState, s.fastestBall)], fastestBall := fb),
                                        TeamNames(s), inn, WithCurrent(s.innings, s.currentInningsNum, inn), fb, stamp));
            && t.stage == MatchOver && t.matchRecord.status == Completed
            && (TeamNames(s).bowling != "" ==> t.matchRecord.winner == Some(TeamNames(s).bowling))
  {
  }

  /** The result line of a main-match second innings closed short of a tie, for any state. */
  lemma DefendedResult(p: EngineState, sides: Sides, inn: Innings, pair: InningsPair, recorded: Option<FastestBall>, stamp: EndStamp)
    requires !p.isSuperOver && p.currentInningsNum == 2 && inn.score != p.liveState.target - 1
    ensures Sync(InningsClosed(p, sides, inn, pair, recorded, stamp)).matchRecord.resultDescription
            == Some(WonBy(sides.bowling, p.liveState.target - 1 - inn.score, "run"))
  {
  }

  /** The first innings closing leads to the break and leaves the match record alone. */
  lemma FirstInningsBreak(s: EngineState, event: string, o: BallOptions, speed: int, stamp: EndStamp)
    requires BallReady(s, event, o) && s.currentInningsNum == 1
    requires ClosesInnings(s, event, o)
    ensures var t := BallStep(s, event, o, speed, stamp);
            t.stage == InningsBreak && t.matchRecord == s.matchRecord && t.completedMatch == s.completedMatch
  {
  }

  /** A super over decided on runs: the side with more runs wins it and the last
      tie-breaker records the result. */
  lemma SuperOverDecided(s: EngineState, event: string, o: BallOptions, speed: int, stamp: EndStamp)
    requires BallReady(s, event, o) && s.isSuperOver && s.currentInningsNum == 2 && |s.tieBreakers| > 0
    requires !ChaseCompletes(s, event, o) && ClosesInnings(s, event, o)
    ensures var t := BallStep(s, event, o, speed, stamp);
            var pair := WithCurrent(s.innings, 2, BallLedger(s, event, o));
            var w := if pair.innings1.score > pair.innings2.score then pair.innings1.battingTeam else pair.innings2.battingTeam;
            pair.innings1.score != pair.innings2.score ==>
              && t.stage == MatchOver
              && t.matchRecord.resultDescription == Some(w + " won in Super Over")
              && t.tieBreakers[|t.tieBreakers| - 1].resultDescription == Some(w + " won in Super Over")
              && t.tieBreakers[|t.tieBreakers| - 1].superOver == Some(pair)
              && t.matchRecord.innings == s.tiedMatchInnings
  {
  }

  /** A tied super over goes back to the choice of tie-breaker while fewer than two
      tie-breakers have been used, and otherwise ends the match as a tie. */
  lemma SuperOverTieLadder(s: EngineState, event: string, o: BallOptions, speed: int, stamp: EndStamp)
    requires BallReady(s, event, o) && s.isSuperOver && s.currentInningsNum == 2
    requires !ChaseCompletes(s, event, o) && ClosesInnings(s, event, o)
    requires var pair := WithCurrent(s.innings, 2, BallLedger(s, event, o));
             pair.innings1.score == pair.innings2.score
    ensures var t := BallStep(s, event, o, speed, stamp);
            && (|s.tieBreakers| < 2 ==> t.stage == TieBreakerSelection && t.liveState == EmptyLiveState
                                         && t.matchRecord == s.matchRecord)
            && (|s.tieBreakers| >= 2 ==> t.stage == MatchOver && t.matchRecord.winner.None?
                                          && t.matchRecord.resultDescription == Some("Match Tied after multiple Super Overs"))
  {
  }

  // ---------------------------------------------------------------- the record kept at the end

  /** A match that ends on a delivery records the same fastest ball the scorer holds after
      it. */
  lemma EndRecordsFastestBall(s: EngineState, event: string, o: BallOptions, speed: int, stamp: EndStamp)
    requires BallReady(s, event, o)
    requires ChaseCompletes(s, event, o) || ClosesInnings(s, event, o)
    ensures var t := BallStep(s, event, o, speed, stamp);
            t.stage == MatchOver ==> t.matchRecord.fastestBall == t.fastestBall
  {
  }

  /** As the scorer is written, a match won by a delivery that also sets the fastest-ball
      record stores the previous record, not the one the scorer now holds. */
  lemma EndRecordsStaleFastestBall(s: EngineState, event: string, o: BallOptions, speed: int, stamp: EndStamp)
    requires BallReady(s, event, o) && ChaseCompletes(s, event, o)
    requires FastestAfterBall(s.fastestBall, ReadEvent(event), speed, s.liveState.currentBowlerId) != s.fastestBall
    ensures var t := BallStepAsWritten(s, event, o, speed, stamp);
            t.stage == MatchOver && t.matchRecord.fastestBall == s.fastestBall && t.matchRecord.fastestBall != t.fastestBall
  {
  }

  // ---------------------------------------------------------------- toss and sides

  /** A live match saved by the screen's effect and opened again resumes where it stopped:
      the same stage, innings number, innings pair, live cursor and fastest ball. Only the
      undo history starts afresh. */
  lemma ReopenResumesProgress(s: EngineState, registry: seq<PlayerId>)
    requires s.matchRecord.status == Live && s.stage != MatchOver && s.currentInningsNum != 0
    ensures var o := Opening(SavedRecord(s), registry);
            && o.stage == s.stage && o.currentInningsNum == s.currentInningsNum
            && o.innings == s.innings && o.liveState == s.liveState
            && o.fastestBall == s.fastestBall && o.overHistory == []
  {
  }

  /** Once the app hands the saved record back as the screen's match, the effect finds
      nothing new to store: saving settles after one round. */
  lemma SaveSettles(s: EngineState)
    ensures SavedRecord(s.(matchRecord := SavedRecord(s))) == SavedRecord(s)
  {
  }

  /** In a super over the effect hands back the innings already on the match: after a save
      during the main match has been taken back in, those are the main match's innings. */
  lemma SuperOverKeepsMainInnings(s: EngineState, t: EngineState)
    requires !s.isSuperOver && s.matchRecord.status == Live && s.stage != MatchOver
    requires s.matchRecord.liveProgress != Some(LiveMatchProgress(s.stage, s.currentInningsNum, s.innings, s.liveState))
    requires t.isSuperOver && t.matchRecord == SavedRecord(s)
    ensures SavedRecord(t).innings == Some(MatchInnings(Some(s.innings.innings1), Some(s.innings.innings2)))
  {
  }

  /** A completed match carries no progress, so reopening it shows the summary. */
  lemma CompletedOpensAtSummary(s: EngineState, winner: string, description: string, finalInnings: Option<MatchInnings>,
                                tbs: seq<TieBreaker>, fastest: Option<FastestBall>, stamp: EndStamp, registry: seq<PlayerId>)
    requires s.matchRecord.decision.Some?
    ensures var o := Opening(EndMatch(s, winner, description, finalInnings, tbs, fastest, stamp).matchRecord, registry);
            o.stage == MatchOver && o.liveState == EmptyLiveState && o.completedMatch.Some?
  {
  }

  /** After the toss and the decision, the first innings is batted by the toss winner when
      it chose to bat and by the other team when it chose to bowl. */
  lemma TossDecidesFirstInnings(s: EngineState, firstTeamWins: bool, d: TossDecision)
    requires !s.isSuperOver && s.currentInningsNum == 1
    requires var t := TossStep(s, firstTeamWins); t.tossWinner.Some? && t.tossWinner.value != ""
    ensures var t := TossStep(s, firstTeamWins);
            var u := DecisionStep(t, d);
            var keys := Keys(s.matchRecord.teams);
            var first := if d == Bat then t.tossWinner.value else FirstOther(keys, t.tossWinner.value);
            first != "" ==> u.innings.innings1.battingTeam == first
  {
  }

  /** The sides of the two innings of the main match are each other's opposites. */
  lemma SidesSwapBetweenInnings(s: EngineState)
    requires !s.isSuperOver && s.matchRecord.tossWinner.Some? && s.matchRecord.decision.Some?
    ensures TeamNames(s.(currentInningsNum := 1)).batting == TeamNames(s.(currentInningsNum := 2)).bowling
    ensures TeamNames(s.(currentInningsNum := 1)).bowling == TeamNames(s.(currentInningsNum := 2)).batting
  {
  }

  /** A super over after a main-match tie is batted first by the side that batted second,
      against the side that batted first. */
  lemma SuperOverSwapsSides(s: EngineState)
    requires s.tiedMatchInnings == Some(Full(s.innings))
    requires s.innings.innings1.battingTeam != "" && s.innings.innings2.battingTeam != ""
    ensures var t := StartTieBreakerStep(s, SuperOver);
            && t.innings.innings1.battingTeam == s.innings.innings2.battingTeam
            && t.innings.innings1.bowlingTeam == s.innings.innings1.battingTeam
            && t.innings.innings2.battingTeam == s.innings.innings1.battingTeam
            && t.innings.innings1.score == 0 && t.innings.innings2.score == 0
  {
  }

  /** At most two opening batters are ever selected. */
  lemma {:induction false} OpenersAtMostTwo(openers: seq<PlayerId>, id: PlayerId)
    requires |openers| <= 2
    ensures |ToggleOpener(openers, id)| <= 2
  {
    if id in openers {
      FilterLength(openers, p => p != id);
    }
  }

  // ---------------------------------------------------------------- bowl-out in the scorer

  /** A bowl-out started by the scorer has the alternating shape when the match has two
      distinct team names, and each attempt that does not decide it keeps that shape. */
  lemma BowlOutStartsAlternating(s: EngineState)
    requires var keys := Keys(s.matchRecord.teams); |keys| >= 2 && keys[0] != keys[1]
    ensures var keys := Keys(s.matchRecord.teams);
            Alternating(StartTieBreakerStep(s, BowlOut).bowlOut, keys[0], keys[1])
  {
  }

  lemma BowlOutAttemptKeepsShape(s: EngineState, outcome: Outcome, stamp: EndStamp)
    requires var keys := Keys(s.matchRecord.teams); |keys| >= 2 && Alternating(s.bowlOut, keys[0], keys[1])
    requires var keys := Keys(s.matchRecord.teams); Attempt(s.bowlOut, keys[0], keys[1], outcome).Continue?
    ensures var keys := Keys(s.matchRecord.teams);
            var t := BowlOutAttemptStep(s, outcome, stamp);
            Alternating(t.bowlOut, keys[0], keys[1]) && t.stage == s.stage && t.matchRecord == s.matchRecord
  {
    var keys := Keys(s.matchRecord.teams);
    AttemptKeepsAlternating(s.bowlOut, keys[0], keys[1], outcome);
  }

  /** A decided bowl-out with a winner ends the match with that winner, who cannot be
      caught; a tied one goes back to the choice while fewer than two tie-breakers have been
      used and otherwise ends the match as a tie. */
  lemma BowlOutDecides(s: EngineState, outcome: Outcome, stamp: EndStamp)
    requires var keys := Keys(s.matchRecord.teams);
             |keys| >= 2 && keys[0] != "" && keys[1] != "" && Alternating(s.bowlOut, keys[0], keys[1])
    requires var keys := Keys(s.matchRecord.teams); Attempt(s.bowlOut, keys[0], keys[1], outcome).Decided?
    ensures var keys := Keys(s.matchRecord.teams);
            var d := Attempt(s.bowlOut, keys[0], keys[1], outcome);
            var t := BowlOutAttemptStep(s, outcome, stamp);
            && (d.winner != "" ==> t.stage == MatchOver && t.matchRecord.winner == Some(d.winner))
            && (d.winner == "" && |s.tieBreakers| < 2 ==> t.stage == TieBreakerSelection)
            && (d.winner == "" && |s.tieBreakers| >= 2 ==>
                  t.stage == MatchOver && t.matchRecord.resultDescription == Some("Match Tied after Bowl Out"))
  {
    var keys := Keys(s.matchRecord.teams);
    var d := Attempt(s.bowlOut, keys[0], keys[1], outcome);
    if d.winner != "" {
      var text := d.winner + " won in Bowl Out";
      assert text[|text| - 1] == 't';
    }
  }
}
