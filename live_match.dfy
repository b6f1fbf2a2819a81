/** The scoring screen's state as an object whose handlers update it in place. Each handler
    is proved to perform exactly the corresponding step of `MatchFlow`. */
module LiveMatchScreen {
  import opened Common
  import opened Domain
  import opened Events
  import opened Ledger
  import opened Scoring
  import opened BowlOutRules
  import opened MatchFlow

  /** Run credits of one delivery: runs off the bat, otherwise a wide's or no-ball's runs. */
  method CreditDelivery(inn: Innings, r: EventReading, o: BallOptions, striker: PlayerId, bowler: PlayerId)
    returns (cur: Innings)
    requires r.extraRuns.Some?
    requires KnownOrUnset(inn, striker) && KnownOrUnset(inn, bowler)
    ensures cur == ScoreBall(inn, r, o, striker, bowler)
  {
    var runsScored := RunsScored(r, o.runsScored);
    if runsScored > 0 {
      cur := CreditBat(inn, runsScored, striker, bowler, r.shortRun.None?);
    } else if IsExtraBase(r.base) {
      cur := CreditExtras(inn, r.base == "Nb", r.extraRuns.value, striker, bowler);
    } else {
      cur := inn;
    }
  }

  /** Runs off the bat, field by field: the total, the striker's runs and boundaries, the
      bowler's runs conceded. */
  method CreditBat(inn: Innings, runsScored: nat, striker: PlayerId, bowler: PlayerId, boundary: bool)
    returns (cur: Innings)
    requires KnownOrUnset(inn, striker) && KnownOrUnset(inn, bowler)
    ensures cur == CreditRuns(inn, runsScored, striker, bowler, boundary)
  {
    cur := inn.(score := inn.score + runsScored);
    if striker != "" {
      var b := cur.batsmenStats[striker];
      b := b.(runs := b.runs + runsScored);
      if boundary && runsScored == 4 { b := b.(fours := b.fours + 1); }
      if boundary && runsScored == 6 { b := b.(sixes := b.sixes + 1); }
      cur := cur.(batsmenStats := cur.batsmenStats[striker := b]);
    }
    if bowler != "" {
      var w := cur.bowlerStats[bowler];
      cur := cur.(bowlerStats := cur.bowlerStats[bowler := w.(runsConceded := w.runsConceded + runsScored)]);
    }
  }

  /** A wide or no-ball, field by field: the penalty and further runs to the total and the
      bowler, a no-ball's further runs to the striker. */
  method CreditExtras(inn: Innings, noBall: bool, extraRuns: nat, striker: PlayerId, bowler: PlayerId)
    returns (cur: Innings)
    requires KnownOrUnset(inn, striker) && KnownOrUnset(inn, bowler)
    ensures cur == CreditExtra(inn, noBall, extraRuns, striker, bowler)
  {
    var totalRuns := 1 + extraRuns;
    cur := inn.(score := inn.score + totalRuns);
    if bowler != "" {
      var w := cur.bowlerStats[bowler];
      cur := cur.(bowlerStats := cur.bowlerStats[bowler := w.(runsConceded := w.runsConceded + totalRuns)]);
    }
    if noBall && extraRuns > 0 && striker != "" {
      var b := cur.batsmenStats[striker];
      b := b.(runs := b.runs + extraRuns);
      if extraRuns == 4 { b := b.(fours := b.fours + 1); }
      if extraRuns == 6 { b := b.(sixes := b.sixes + 1); }
      cur := cur.(batsmenStats := cur.batsmenStats[striker := b]);
    }
  }

  /** One more legal ball for the innings, the striker and the bowler. */
  method CountDelivery(inn: Innings, striker: PlayerId, bowler: PlayerId) returns (cur: Innings)
    requires KnownOrUnset(inn, striker) && KnownOrUnset(inn, bowler)
    ensures cur == CountLegalBall(inn, striker, bowler)
  {
    cur := inn.(totalLegalBalls := inn.totalLegalBalls + 1);
    if striker != "" {
      var b := cur.batsmenStats[striker];
      cur := cur.(batsmenStats := cur.batsmenStats[striker := b.(balls := b.balls + 1)]);
    }
    if bowler != "" {
      var w := cur.bowlerStats[bowler];
      cur := cur.(bowlerStats := cur.bowlerStats[bowler := w.(ballsBowled := w.ballsBowled + 1)]);
    }
  }

  /** The dismissal of `outId`: the wicket count, the batter's record, the bowler's
      wicket when the mode credits one, and the fall-of-wicket entry. */
  method RecordDismissal(inn: Innings, outId: PlayerId, howOut: Option<HowOut>, fielderId: PlayerId, bowler: PlayerId)
    returns (cur: Innings)
    requires Tracks(inn, outId) && KnownOrUnset(inn, bowler)
    ensures cur == RecordWicket(inn, outId, howOut, fielderId, bowler)
  {
    cur := inn.(wickets := inn.wickets + 1);
    var b := cur.batsmenStats[outId];
    b := b.(isOut := true, howOut := howOut);
    if CreditsBowler(howOut) {
      b := b.(bowlerId := Some(bowler));
      if bowler != "" {
        var w := cur.bowlerStats[bowler];
        cur := cur.(bowlerStats := cur.bowlerStats[bowler := w.(wickets := w.wickets + 1)]);
      }
    }
    if fielderId != "" { b := b.(fielderId := Some(fielderId)); }
    cur := cur.(batsmenStats := cur.batsmenStats[outId := b]);
    cur := cur.(fallOfWickets := cur.fallOfWickets + [FallOfWicket(cur.score, cur.wickets, outId)]);
  }

  /** The ledger update of one delivery on a copy of the current innings: run credits,
      then the legal-ball count, then the dismissal. */
  method ApplyBall(inn: Innings, r: EventReading, o: BallOptions, striker: PlayerId, bowler: PlayerId, isFreeHit: bool)
    returns (cur: Innings)
    requires r.extraRuns.Some?
    requires KnownOrUnset(inn, striker) && KnownOrUnset(inn, bowler) && KnownOrUnset(inn, o.batsmanOutId)
    ensures cur == LedgerAfterBall(inn, r, o, striker, bowler, isFreeHit)
  {
    cur := CreditDelivery(inn, r, o, striker, bowler);
    if IsLegalReading(r) {
      cur := CountDelivery(cur, striker, bowler);
    }
    var outId := DismissedId(r, o, striker, isFreeHit);
    if outId != "" {
      cur := RecordDismissal(cur, outId, o.howOut, o.fielderId, bowler);
    }
  }

  /** The scoring screen. Each field is one piece of the component's state; the handlers
      change it only through the setters, one per piece, in the order the component calls
      them, and every handler ends with the effect that aligns the team names.
      In two places the scorer follows what the component evidently intends rather than
      what it does: a delivery that ends the match records the fastest ball including that
      delivery (the component's `endMatch` reads the value from before it; that reading is
      MatchFlow.BallStepAsWritten), and a new tie-breaker starts with no bowl-out attempts
      (the component keeps the earlier ones; that reading is MatchFlow.StartTieBreakerAsWritten). */
  class LiveMatchScorer {
    var matchRecord: Match
    var matchPlayers: seq<PlayerId>
    var stage: Stage
    var tossWinner: Option<string>
    var tieBreakers: seq<TieBreaker>
    var isSuperOver: bool
    var tiedMatchInnings: Option<MatchInnings>
    var completedMatch: Option<Match>
    var currentInningsNum: int
    var innings: InningsPair
    var liveState: LiveState
    var overHistory: seq<Snapshot>
    var bowlOut: BowlOutState
    var fastestBall: Option<FastestBall>
    var openers: seq<PlayerId>
    var bowler: seq<PlayerId>

    /** The screen's state as a value. */
    function State(): EngineState
      reads this
    {
      EngineState(matchRecord, matchPlayers, stage, tossWinner, tieBreakers, isSuperOver, tiedMatchInnings,
                  completedMatch, currentInningsNum, innings, liveState, overHistory, bowlOut, fastestBall,
                  openers, bowler)
    }

    /** Opening the screen on a match with the club's player ids: every piece of state takes
        its initial value, then the effect aligns the team names. */
    constructor (m: Match, registry: seq<PlayerId>)
      ensures State() == InitialEngine(m, registry)
    {
      var o := Opening(m, registry);
      matchRecord, matchPlayers, stage, tossWinner := o.matchRecord, o.matchPlayers, o.stage, o.tossWinner;
      tieBreakers, isSuperOver, tiedMatchInnings, completedMatch := o.tieBreakers, o.isSuperOver, o.tiedMatchInnings, o.completedMatch;
      currentInningsNum, innings, liveState, overHistory := o.currentInningsNum, o.innings, o.liveState, o.overHistory;
      bowlOut, fastestBall, openers, bowler := o.bowlOut, o.fastestBall, o.openers, o.bowler;
      new;
      AlignSides();
    }

    /** The live-progress effect followed by the app's re-render: the record the effect hands
        back becomes the match the screen is given. */
    method SaveProgress()
      modifies this
      ensures State() == old(State()).(matchRecord := SavedRecord(old(State())))
    {
      SetMatch(SavedRecord(State()));
    }

    // ---------------------------------------------------------------- setters

    method SetMatch(v: Match)
      modifies this
      ensures State() == old(State()).(matchRecord := v)
    {
      matchRecord := v;
    }

    method SetStage(v: Stage)
      modifies this
      ensures State() == old(State()).(stage := v)
    {
      stage := v;
    }

    method SetTossWinner(v: Option<string>)
      modifies this
      ensures State() == old(State()).(tossWinner := v)
    {
      tossWinner := v;
    }

    method SetTieBreakers(v: seq<TieBreaker>)
      modifies this
      ensures State() == old(State()).(tieBreakers := v)
    {
      tieBreakers := v;
    }

    method SetIsSuperOver(v: bool)
      modifies this
      ensures State() == old(State()).(isSuperOver := v)
    {
      isSuperOver := v;
    }

    method SetTiedMatchInnings(v: Option<MatchInnings>)
      modifies this
      ensures State() == old(State()).(tiedMatchInnings := v)
    {
      tiedMatchInnings := v;
    }

    method SetCompletedMatchData(v: Option<Match>)
      modifies this
      ensures State() == old(State()).(completedMatch := v)
    {
      completedMatch := v;
    }

    method SetCurrentInningsNum(v: int)
      modifies this
      ensures State() == old(State()).(currentInningsNum := v)
    {
      currentInningsNum := v;
    }

    method SetInnings(v: InningsPair)
      modifies this
      ensures State() == old(State()).(innings := v)
    {
      innings := v;
    }

    method SetLiveState(v: LiveState)
      modifies this
      ensures State() == old(State()).(liveState := v)
    {
      liveState := v;
    }

    method SetOverHistory(v: seq<Snapshot>)
      modifies this
      ensures State() == old(State()).(overHistory := v)
    {
      overHistory := v;
    }

    method SetBowlOutState(v: BowlOutState)
      modifies this
      ensures State() == old(State()).(bowlOut := v)
    {
      bowlOut := v;
    }

    method SetFastestBall(v: Option<FastestBall>)
      modifies this
      ensures State() == old(State()).(fastestBall := v)
    {
      fastestBall := v;
    }

    method SetOpeners(v: seq<PlayerId>)
      modifies this
      ensures State() == old(State()).(openers := v)
    {
      openers := v;
    }

    method SetBowler(v: seq<PlayerId>)
      modifies this
      ensures State() == old(State()).(bowler := v)
    {
      bowler := v;
    }

    // ---------------------------------------------------------------- the effect

    /** When the current innings names a batting side other than the one the toss implies,
        both its team names are replaced. */
    method AlignSides()
      modifies this
      ensures State() == Sync(old(State()))
    {
      var sides := TeamNames(State());
      var cur := CurrentInnings(State());
      if cur.battingTeam != sides.batting && sides.batting != "" {
        SetInnings(WithCurrent(innings, currentInningsNum, cur.(battingTeam := sides.batting, bowlingTeam := sides.bowling)));
      }
    }

    // ---------------------------------------------------------------- toss and openers

    /** The coin: `firstTeamWins` stands for the random draw. */
    method CallToss(firstTeamWins: bool)
      modifies this
      ensures State() == TossStep(old(State()), firstTeamWins)
    {
      var keys := Keys(matchRecord.teams);
      var i := if firstTeamWins then 0 else 1;
      SetTossWinner(if i < |keys| then Some(keys[i]) else None);
      SetStage(Decision);
      AlignSides();
    }

    method Decide(d: TossDecision)
      modifies this
      ensures State() == DecisionStep(old(State()), d)
    {
      SetMatch(matchRecord.(tossWinner := tossWinner, decision := Some(d)));
      SetStage(Openers);
      AlignSides();
    }

    method SelectOpener(id: PlayerId)
      modifies this
      ensures State() == SelectOpenerStep(old(State()), id)
    {
      SetOpeners(ToggleOpener(openers, id));
      AlignSides();
    }

    method SelectOpeningBowler(id: PlayerId)
      modifies this
      ensures State() == SelectBowlerStep(old(State()), id)
    {
      SetBowler(ToggleBowler(bowler, id));
      AlignSides();
    }

    /** Start Play is offered only with two openers and one bowler chosen. */
    method StartPlay()
      requires |openers| == 2 && |bowler| == 1
      modifies this
      ensures State() == StartPlayStep(old(State()))
    {
      SetLiveState(liveState.(onStrikeBatsmanId := openers[0], offStrikeBatsmanId := openers[1],
                              currentBowlerId := bowler[0],
                              target := if currentInningsNum == 2 then innings.innings1.score + 1 else 0,
                              previousBowlerId := "", currentOverEvents := [], isFreeHit := false));
      SetStage(Play);
      SetOverHistory([]);
      AlignSides();
    }

    // ---------------------------------------------------------------- the end of the match

    /** `endMatch`: the completed record goes to the parent and to the summary. */
    method Finish(winner: string, description: string, finalInnings: Option<MatchInnings>,
                  tbs: seq<TieBreaker>, fastest: Option<FastestBall>, stamp: EndStamp)
      modifies this
      ensures State() == EndMatch(old(State()), winner, description, finalInnings, tbs, fastest, stamp)
    {
      var final := matchRecord.(status := Completed,
                                winner := if winner == "" then None else Some(winner),
                                resultDescription := Some(description),
                                completionDate := Some(stamp.completionDate),
                                innings := finalInnings,
                                liveProgress := None,
                                tieBreakers := Some(tbs),
                                fastestBall := fastest,
                                manOfTheMatchId := stamp.manOfTheMatch);
      SetMatch(final);
      SetCompletedMatchData(Some(final));
      SetStage(MatchOver);
    }

    // ---------------------------------------------------------------- deliveries

    /** One delivery: the snapshot for undo, the ledger of the current innings updated on a
        copy, the fastest ball, then the end of the match, the end of the innings, or the
        batters' and bowler's new positions. A match that ends here records the fastest ball
        as it stands after this delivery: the corrected step, not MatchFlow.BallStepAsWritten. */
    method BallPlayed(event: string, o: BallOptions, speed: int, stamp: EndStamp)
      requires BallReady(State(), event, o)
      modifies this
      ensures State() == BallStep(old(State()), event, o, speed, stamp)
    {
      ghost var s := State();
      var sides := TeamNames(State());
      var live := liveState;
      var cur, pair := RecordDelivery(event, o, speed);
      if TargetReached(currentInningsNum, live.target, cur.score) {
        ChaseCompleted(sides.batting, cur, pair, stamp);
      } else {
        var notOut := NotOutBatters(matchPlayers, Get(matchRecord.teams, sides.batting), cur);
        if InningsOver(cur, isSuperOver, matchRecord.totalOvers, notOut, IsWicketBall(ReadEvent(event), o)) {
          InningsEnded(sides, cur, pair, stamp);
        } else {
          var r := ReadEvent(event);
          SetInnings(pair);
          SetLiveState(LiveAfterBall(live, event, o, DismissedId(r, o, live.onStrikeBatsmanId, live.isFreeHit)));
        }
      }
      AlignSides();
    }

    /** The part of a delivery every outcome shares: the snapshot for undo, the ledger of the
        current innings updated on a copy, and the fastest ball. */
    method RecordDelivery(event: string, o: BallOptions, speed: int) returns (cur: Innings, pair: InningsPair)
      requires BallReady(State(), event, o)
      modifies this
      ensures cur == BallLedger(old(State()), event, o)
      ensures pair == WithCurrent(old(innings), old(currentInningsNum), cur)
      ensures State() == old(State()).(overHistory := old(overHistory) + [Snapshot(old(innings), old(liveState), old(fastestBall))],
                                       fastestBall := FastestAfterBall(old(fastestBall), ReadEvent(event), speed, old(liveState).currentBowlerId))
    {
      var r := ReadEvent(event);
      var live, fb := liveState, fastestBall;
      SetOverHistory(overHistory + [Snapshot(innings, live, fb)]);
      cur := ApplyBall(CurrentInnings(State()), r, o, live.onStrikeBatsmanId, live.currentBowlerId, live.isFreeHit);
      pair := WithCurrent(innings, currentInningsNum, cur);
      if IsLegalReading(r) && speed != 0 && live.currentBowlerId != "" && (fb.None? || speed > fb.value.speed) {
        SetFastestBall(Some(FastestBall(live.currentBowlerId, speed)));
      }
    }

    /** The chase is complete. */
    method ChaseCompleted(winner: string, cur: Innings, pair: InningsPair, stamp: EndStamp)
      modifies this
      ensures State() == ChaseWon(old(State()), winner, cur, pair, old(fastestBall), stamp)
    {
      if isSuperOver {
        var result := winner + " won in Super Over";
        var tbs := WithSuperOverResult(tieBreakers, pair, result);
        SetTieBreakers(tbs);
        Finish(winner, result, tiedMatchInnings, tbs, fastestBall, stamp);
      } else {
        var left := MaxWickets(false) - cur.wickets;
        Finish(winner, WonBy(winner, left, "wicket"), Some(Full(pair)), tieBreakers, fastestBall, stamp);
      }
    }

    /** The innings is over without the target reached. */
    method InningsEnded(sides: Sides, cur: Innings, pair: InningsPair, stamp: EndStamp)
      modifies this
      ensures State() == InningsClosed(old(State()), sides, cur, pair, old(fastestBall), stamp)
    {
      var fb, target := fastestBall, liveState.target;
      SetInnings(pair);
      if isSuperOver {
        if currentInningsNum == 1 {
          SetStage(InningsBreak);
        } else {
          SuperOverEnded(stamp);
        }
      } else if currentInningsNum == 1 {
        SetStage(InningsBreak);
      } else if cur.score == target - 1 {
        SetTiedMatchInnings(Some(Full(pair)));
        SetStage(TieBreakerSelection);
      } else {
        var margin := target - 1 - cur.score;
        Finish(sides.bowling, WonBy(sides.bowling, margin, "run"), Some(Full(pair)), tieBreakers, fb, stamp);
      }
    }

    /** The super over's second innings is over. */
    method SuperOverEnded(stamp: EndStamp)
      modifies this
      ensures State() == SuperOverClosed(old(State()), old(fastestBall), stamp)
    {
      var fb := fastestBall;
      var score1, score2 := innings.innings1.score, innings.innings2.score;
      var winner := if score1 > score2 then innings.innings1.battingTeam
                    else if score2 > score1 then innings.innings2.battingTeam else "";
      var result := if score1 != score2 then winner + " won in Super Over" else "Super Over Tied";
      var tbs := WithSuperOverResult(tieBreakers, innings, result);
      SetTieBreakers(tbs);
      if score1 == score2 {
        if |tbs| < 2 {
          SetLiveState(EmptyLiveState);
          SetOpeners([]);
          SetBowler([]);
          SetStage(TieBreakerSelection);
        } else {
          Finish("", "Match Tied after multiple Super Overs", tiedMatchInnings, tbs, fb, stamp);
        }
      } else {
        Finish(winner, result, tiedMatchInnings, tbs, fb, stamp);
      }
    }

    /** Takes back the last delivery of the over; with nothing to undo nothing changes. */
    method Undo()
      modifies this
      ensures State() == UndoStep(old(State()))
    {
      if overHistory == [] {
        return;
      }
      var last := overHistory[|overHistory| - 1];
      SetInnings(last.innings);
      SetLiveState(last.liveState);
      SetFastestBall(last.fastestBall);
      SetOverHistory(overHistory[..|overHistory| - 1]);
      AlignSides();
    }

    method NewBatsman(id: PlayerId)
      modifies this
      ensures State() == NewBatsmanStep(old(State()), id)
    {
      SetLiveState(liveState.(onStrikeBatsmanId := id));
      AlignSides();
    }

    method NewNonStriker(id: PlayerId)
      modifies this
      ensures State() == NewNonStrikerStep(old(State()), id)
    {
      SetLiveState(liveState.(offStrikeBatsmanId := id));
      AlignSides();
    }

    /** A new bowler starts a new over, which cannot be undone past. */
    method NewBowler(id: PlayerId)
      modifies this
      ensures State() == NewBowlerStep(old(State()), id)
    {
      SetLiveState(liveState.(currentBowlerId := id));
      SetOverHistory([]);
      AlignSides();
    }

    method StartSecondInnings()
      modifies this
      ensures State() == StartSecondInningsStep(old(State()))
    {
      var target := innings.innings1.score + 1;
      SetCurrentInningsNum(2);
      SetStage(Openers);
      SetOpeners([]);
      SetBowler([]);
      SetLiveState(liveState.(onStrikeBatsmanId := "", offStrikeBatsmanId := "", currentBowlerId := "",
                              target := target, previousBowlerId := "",
                              currentOverEvents := [], isFreeHit := false));
      SetOverHistory([]);
      AlignSides();
    }

    // ---------------------------------------------------------------- tie-breakers

    method StartTieBreaker(kind: TieBreakerKind)
      modifies this
      ensures State() == StartTieBreakerStep(old(State()), kind)
    {
      SetTieBreakers(tieBreakers + [TieBreaker(kind, None, None, None)]);
      if kind == SuperOver {
        var soBat, soBowl := innings.innings2.battingTeam, innings.innings1.battingTeam;
        SetIsSuperOver(true);
        SetCurrentInningsNum(1);
        var first := InitialInningsState(matchRecord.players, soBat, soBowl);
        var second := InitialInningsState(matchRecord.players, soBowl, soBat);
        SetInnings(InningsPair(first, second));
        SetLiveState(EmptyLiveState);
        SetOpeners([]);
        SetBowler([]);
        SetStage(Openers);
      } else {
        SetBowlOutState(Restart(bowlOut, TeamAt(Keys(matchRecord.teams), 0)));
        SetStage(BowlOutPlay);
      }
      AlignSides();
    }

    method ChooseBowlOutBowlers(firstTeam: bool, bowlers: seq<PlayerId>)
      modifies this
      ensures State() == BowlOutBowlersStep(old(State()), firstTeam, bowlers)
    {
      if firstTeam {
        SetBowlOutState(bowlOut.(teamABowlers := bowlers));
      } else {
        SetBowlOutState(bowlOut.(teamBBowlers := bowlers));
        SetStage(BowlOutPlay);
      }
      AlignSides();
    }

    /** One bowl-out attempt: the attempt is appended and the turn passes, or the contest
        is decided and recorded. */
    method TakeBowlOutAttempt(outcome: Outcome, stamp: EndStamp)
      modifies this
      ensures State() == BowlOutAttemptStep(old(State()), outcome, stamp)
    {
      var keys := Keys(matchRecord.teams);
      match Attempt(bowlOut, TeamAt(keys, 0), TeamAt(keys, 1), outcome) {
        case Continue(next) =>
          SetBowlOutState(next);
        case Decided(attempts, winner, description) =>
          var finalInnings := if tiedMatchInnings.Some? then tiedMatchInnings else Some(Full(innings));
          var tbs := WithBowlOutResult(tieBreakers, attempts, description);
          SetTieBreakers(tbs);
          if description == "Bowl Out Tied" {
            if |tbs| < 2 {
              SetStage(TieBreakerSelection);
            } else {
              Finish("", "Match Tied after Bowl Out", finalInnings, tbs, fastestBall, stamp);
            }
          } else {
            Finish(winner, description, finalInnings, tbs, fastestBall, stamp);
          }
      }
      AlignSides();
    }

    /** Declare Tie ends the match with no winner. */
    method DeclareTie(stamp: EndStamp)
      modifies this
      ensures State() == DeclareTieStep(old(State()), stamp)
    {
      Finish("", "Match Tied", if tiedMatchInnings.Some? then tiedMatchInnings else Some(Full(innings)), tieBreakers, fastestBall, stamp);
      AlignSides();
    }

    /** A short run confirmed on the form is scored as its event string. */
    method ShortRunConfirm(scored: nat, attempted: nat, speed: int, stamp: EndStamp)
      requires BallReady(State(), Encode(ShortRun(scored, attempted)), NoOptions)
      modifies this
      ensures State() == BallStep(old(State()), Encode(ShortRun(scored, attempted)), NoOptions, speed, stamp)
    {
      BallPlayed(Encode(ShortRun(scored, attempted)), NoOptions, speed, stamp);
    }
  }
}
