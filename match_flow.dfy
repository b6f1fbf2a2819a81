/** The live scorer of a match as a state machine over values: each handler of the scoring
    screen is a step from one state to the next, followed (as the screen's effect does after
    every change) by putting the current innings' team names in line with the toss. */
module MatchFlow {
  import opened Common
  import opened Domain
  import opened Events
  import opened Ledger
  import opened Scoring
  import opened BowlOutRules

  /** What undo restores: the innings pair, the live cursor and the fastest ball before a
      delivery. */
  datatype Snapshot = Snapshot(innings: InningsPair, liveState: LiveState, fastestBall: Option<FastestBall>)

  /** What ending a match takes from outside the scorer: the clock reading stored as the
      completion date, and the player of the match the club's heuristic picks. */
  datatype EndStamp = EndStamp(completionDate: string, manOfTheMatch: Option<PlayerId>)

  datatype EngineState = EngineState(
    matchRecord: Match,
    matchPlayers: seq<PlayerId>,
    stage: Stage,
    tossWinner: Option<string>,
    tieBreakers: seq<TieBreaker>,
    isSuperOver: bool,
    tiedMatchInnings: Option<MatchInnings>,
    completedMatch: Option<Match>,
    currentInningsNum: int,
    innings: InningsPair,
    liveState: LiveState,
    overHistory: seq<Snapshot>,
    bowlOut: BowlOutState,
    fastestBall: Option<FastestBall>,
    openers: seq<PlayerId>,
    bowler: seq<PlayerId>)

  // ---------------------------------------------------------------- derived values

  function CurrentInnings(s: EngineState): Innings {
    if s.currentInningsNum == 2 then s.innings.innings2 else s.innings.innings1
  }

  function WithCurrent(pair: InningsPair, num: int, inn: Innings): (out: InningsPair)
    ensures num == 2 ==> out.innings2 == inn && out.innings1 == pair.innings1
    ensures num != 2 ==> out.innings1 == inn && out.innings2 == pair.innings2
  {
    if num == 2 then pair.(innings2 := inn) else pair.(innings1 := inn)
  }

  function Full(pair: InningsPair): MatchInnings {
    MatchInnings(Some(pair.innings1), Some(pair.innings2))
  }

  /** The main-match innings when a tie was recorded, else the innings being scored. */
  function TiedOrCurrent(s: EngineState): Option<MatchInnings> {
    if s.tiedMatchInnings.Some? then s.tiedMatchInnings else Some(Full(s.innings))
  }

  /** The team name at a position of the match's team list, "" past its end. */
  function TeamAt(keys: seq<string>, i: nat): string {
    if i < |keys| then keys[i] else ""
  }

  datatype Sides = Sides(batting: string, bowling: string)

  /** Who bats and who bowls now. Nothing is known before the toss and the decision. In a
      super over the side that batted second in the tied match bats first. Otherwise the
      toss winner bats first when it chose to bat, and the other team does when it chose to
      bowl. */
  function TeamNames(s: EngineState): (sides: Sides)
    ensures (s.matchRecord.tossWinner.None? || s.matchRecord.tossWinner.value == "" || s.matchRecord.decision.None?) ==> sides == Sides("", "")
  {
    var toss := s.matchRecord.tossWinner;
    if toss.None? || toss.value == "" || s.matchRecord.decision.None? then Sides("", "")
    else if s.isSuperOver then
      var tied := s.tiedMatchInnings;
      if tied.None? || tied.value.innings1.None? || tied.value.innings2.None?
         || tied.value.innings1.value.battingTeam == "" || tied.value.innings2.value.battingTeam == ""
      then Sides("", "")
      else
        var first, second := tied.value.innings1.value.battingTeam, tied.value.innings2.value.battingTeam;
        if s.currentInningsNum == 1 then Sides(second, first) else Sides(first, second)
    else
      var keys := Keys(s.matchRecord.teams);
      var firstBat := if s.matchRecord.decision.value == Bat then toss.value else FirstOther(keys, toss.value);
      if s.currentInningsNum == 1 then Sides(firstBat, FirstOther(keys, firstBat))
      else Sides(FirstOther(keys, firstBat), firstBat)
  }

  /** The screen's effect: when the current innings names a batting side other than the one
      the toss implies, both team names of that innings are replaced. */
  function Sync(s: EngineState): (t: EngineState)
    ensures t == s.(innings := t.innings)
    ensures t.matchRecord == s.matchRecord && t.stage == s.stage
    ensures var sides := TeamNames(s);
            sides.batting != "" ==> CurrentInnings(t).battingTeam == sides.batting
  {
    var sides := TeamNames(s);
    var cur := CurrentInnings(s);
    if cur.battingTeam != sides.batting && sides.batting != "" then
      s.(innings := WithCurrent(s.innings, s.currentInningsNum, cur.(battingTeam := sides.batting, bowlingTeam := sides.bowling)))
    else s
  }

  /** The batting side has the team names the toss implies (or none are implied). */
  predicate InLine(s: EngineState) {
    Sync(s) == s
  }

  /** The players of the batting side who are not out and not at the crease. */
  function AvailableBatsmen(s: EngineState): (r: seq<PlayerId>)
    ensures forall p :: p in r <==>
              && p in s.matchPlayers
              && Get(s.matchRecord.teams, TeamNames(s).batting).Some?
              && p in Get(s.matchRecord.teams, TeamNames(s).batting).value
              && !(p in CurrentInnings(s).batsmenStats && CurrentInnings(s).batsmenStats[p].isOut)
              && p != s.liveState.onStrikeBatsmanId && p != s.liveState.offStrikeBatsmanId
  {
    var roster := Get(s.matchRecord.teams, TeamNames(s).batting);
    var stats := CurrentInnings(s).batsmenStats;
    Filter(s.matchPlayers, p => roster.Some? && p in roster.value && !(p in stats && stats[p].isOut)
                                && p != s.liveState.onStrikeBatsmanId && p != s.liveState.offStrikeBatsmanId)
  }

  /** The players of the bowling side other than the bowler of this over and of the last. */
  function AvailableBowlers(s: EngineState): (r: seq<PlayerId>)
    ensures forall p :: p in r <==>
              && p in s.matchPlayers
              && Get(s.matchRecord.teams, TeamNames(s).bowling).Some?
              && p in Get(s.matchRecord.teams, TeamNames(s).bowling).value
              && p != s.liveState.currentBowlerId && p != s.liveState.previousBowlerId
  {
    var roster := Get(s.matchRecord.teams, TeamNames(s).bowling);
    Filter(s.matchPlayers, p => roster.Some? && p in roster.value
                                && p != s.liveState.currentBowlerId && p != s.liveState.previousBowlerId)
  }

  // ---------------------------------------------------------------- opening the screen

  /** The club's players who are in this match, in the club's order. */
  function MatchPlayers(registry: seq<PlayerId>, m: Match): (r: seq<PlayerId>)
    ensures forall p :: p in r <==> p in registry && p in m.players
  {
    Filter(registry, p => p in m.players)
  }

  /** The last tie-breaker is a super over whose result is still open. */
  predicate SuperOverOpen(tbs: seq<TieBreaker>) {
    |tbs| > 0 && tbs[|tbs| - 1].kind == SuperOver
    && (tbs[|tbs| - 1].resultDescription.None? || tbs[|tbs| - 1].resultDescription.value == "")
  }

  /** The innings stored on a match, each one missing replaced by a fresh ledger of the
      match's players with no team names. */
  function StoredInnings(m: Match): (pair: InningsPair)
    ensures m.innings.Some? && m.innings.value.innings1.Some? ==> pair.innings1 == m.innings.value.innings1.value
    ensures m.innings.Some? && m.innings.value.innings2.Some? ==> pair.innings2 == m.innings.value.innings2.value
    ensures m.innings.None? || m.innings.value.innings1.None? ==> pair.innings1 == InitialInnings(m.players, "", "")
    ensures m.innings.None? || m.innings.value.innings2.None? ==> pair.innings2 == InitialInnings(m.players, "", "")
  {
    var stored := m.innings.GetOr(MatchInnings(None, None));
    InningsPair(stored.innings1.GetOr(InitialInnings(m.players, "", "")),
                stored.innings2.GetOr(InitialInnings(m.players, "", "")))
  }

  /** Where a reopened match resumes: the progress stored on it while it was live, or else
      play once the toss is decided (the summary once completed), the stored innings and an
      empty cursor. */
  function ResumedProgress(m: Match): (p: LiveMatchProgress)
    ensures m.liveProgress.Some? ==>
              && p.stage == m.liveProgress.value.stage && p.innings == m.liveProgress.value.innings
              && p.liveState == m.liveProgress.value.liveState
    ensures m.liveProgress.Some? && m.liveProgress.value.currentInningsNum != 0 ==>
              p.currentInningsNum == m.liveProgress.value.currentInningsNum
    ensures m.liveProgress.None? ==>
              && p.stage == (if m.decision.None? then Toss else if m.status == Completed then MatchOver else Play)
              && p.innings == StoredInnings(m) && p.liveState == EmptyLiveState
    ensures m.liveProgress.None? || m.liveProgress.value.currentInningsNum == 0 ==>
              p.currentInningsNum == if m.innings.Some? && m.innings.value.innings2.Some? then 2 else 1
  {
    var lp := m.liveProgress;
    var num := if lp.Some? && lp.value.currentInningsNum != 0 then lp.value.currentInningsNum
               else if m.innings.Some? && m.innings.value.innings2.Some? then 2 else 1;
    if lp.Some? then lp.value.(currentInningsNum := num)
    else
      var stage := if m.decision.Some? then (if m.status == Completed then MatchOver else Play) else Toss;
      LiveMatchProgress(stage, num, StoredInnings(m), EmptyLiveState)
  }

  /** The state the scoring screen opens with for a match and the club's player ids, before
      its effect aligns the team names: the resumed progress, the match's toss winner and
      tie-breakers, a super over whose result is still open resumed as one, and no undo
      history, selections or bowl-out. */
  function Opening(m: Match, registry: seq<PlayerId>): (s: EngineState)
    ensures s.matchRecord == m && s.matchPlayers == MatchPlayers(registry, m)
    ensures LiveMatchProgress(s.stage, s.currentInningsNum, s.innings, s.liveState) == ResumedProgress(m)
    ensures s.overHistory == [] && s.bowlOut == NoBowlOut && s.fastestBall == m.fastestBall
    ensures s.openers == [] && s.bowler == []
    ensures s.tossWinner.Some? <==> m.tossWinner.Some? && m.tossWinner.value != ""
    ensures s.tossWinner.Some? ==> s.tossWinner == m.tossWinner
    ensures s.tieBreakers == m.tieBreakers.GetOr([])
    ensures s.isSuperOver <==> SuperOverOpen(s.tieBreakers)
    ensures s.tiedMatchInnings == if s.isSuperOver || m.status != Live then m.innings else None
    ensures s.completedMatch == if m.status == Completed then Some(m) else None
  {
    var tbs := m.tieBreakers.GetOr([]);
    var so := SuperOverOpen(tbs);
    var toss := if m.tossWinner.Some? && m.tossWinner.value != "" then m.tossWinner else None;
    var tied := if so || m.status != Live then m.innings else None;
    var p := ResumedProgress(m);
    EngineState(m, MatchPlayers(registry, m), p.stage, toss, tbs, so, tied,
                if m.status == Completed then Some(m) else None, p.currentInningsNum, p.innings,
                p.liveState, [], NoBowlOut, m.fastestBall, [], [])
  }

  /** The screen's state when it opens: the opening state with only the current innings'
      team names put in line. */
  function InitialEngine(m: Match, registry: seq<PlayerId>): (s: EngineState)
    ensures s == Opening(m, registry).(innings := s.innings)
    ensures var sides := TeamNames(Opening(m, registry));
            sides.batting != "" ==> CurrentInnings(s).battingTeam == sides.batting
  {
    Sync(Opening(m, registry))
  }

  /** The match record the screen's effect hands back after every change while a match is
      live and not over: the progress (stage, innings number, innings pair and cursor) and
      the fastest ball are stored on it, and outside a super over so is the innings pair.
      Nothing is handed back when nothing it compares has changed. */
  function SavedRecord(s: EngineState): (m: Match)
    ensures s.matchRecord.status != Live || s.stage == MatchOver ==> m == s.matchRecord
    ensures s.matchRecord.status == Live && s.stage != MatchOver ==>
              m.liveProgress == Some(LiveMatchProgress(s.stage, s.currentInningsNum, s.innings, s.liveState))
              && m.fastestBall == s.fastestBall
    ensures s.isSuperOver ==> m.innings == s.matchRecord.innings
    ensures m == s.matchRecord.(innings := m.innings, liveProgress := m.liveProgress, fastestBall := m.fastestBall)
    ensures m.status == s.matchRecord.status && m.tieBreakers == s.matchRecord.tieBreakers
  {
    var progress := LiveMatchProgress(s.stage, s.currentInningsNum, s.innings, s.liveState);
    if s.matchRecord.status == Live && s.stage != MatchOver
       && (s.matchRecord.liveProgress != Some(progress) || s.matchRecord.fastestBall != s.fastestBall) then
      s.matchRecord.(innings := if s.isSuperOver then s.matchRecord.innings
                                else Some(MatchInnings(Some(s.innings.innings1), Some(s.innings.innings2))),
                     liveProgress := Some(progress),
                     fastestBall := s.fastestBall)
    else s.matchRecord
  }

  // ---------------------------------------------------------------- ending the match

  /** The completed match record: status, winner ("" records none), result, completion
      date, final innings, tie-breakers, fastest ball and player of the match. The scorer
      stores it, keeps it for the summary and moves to the match-over stage. */
  function EndMatch(s: EngineState, winner: string, description: string, finalInnings: Option<MatchInnings>,
                    tbs: seq<TieBreaker>, fastest: Option<FastestBall>, stamp: EndStamp): (t: EngineState)
    ensures t.stage == MatchOver && t.completedMatch == Some(t.matchRecord)
    ensures t.matchRecord.status == Completed && t.matchRecord.resultDescription == Some(description)
    ensures t.matchRecord.liveProgress.None?
    ensures t.matchRecord.winner.None? <==> winner == ""
    ensures t.matchRecord.winner.Some? ==> t.matchRecord.winner.value == winner
    ensures t.matchRecord.teams == s.matchRecord.teams && t.matchRecord.players == s.matchRecord.players && t.matchRecord.fastestBall == fastest
    ensures t == s.(matchRecord := t.matchRecord, completedMatch := t.completedMatch, stage := MatchOver)
  {
    var final := s.matchRecord.(status := Completed,
                          winner := if winner == "" then None else Some(winner),
                          resultDescription := Some(description),
                          completionDate := Some(stamp.completionDate),
                          innings := finalInnings,
                          liveProgress := None,
                          tieBreakers := Some(tbs),
                          fastestBall := fastest,
                          manOfTheMatchId := stamp.manOfTheMatch);
    s.(matchRecord := final, completedMatch := Some(final), stage := MatchOver)
  }

  /** The tie-breakers with the last one given its super-over innings and result. */
  function WithSuperOverResult(tbs: seq<TieBreaker>, pair: InningsPair, description: string): (out: seq<TieBreaker>)
    ensures |out| == |tbs| && out[..|out| - (if |out| > 0 then 1 else 0)] == tbs[..|tbs| - (if |tbs| > 0 then 1 else 0)]
    ensures |out| > 0 ==> out[|out| - 1] == tbs[|tbs| - 1].(superOver := Some(pair), resultDescription := Some(description))
  {
    if |tbs| == 0 then tbs
    else tbs[..|tbs| - 1] + [tbs[|tbs| - 1].(superOver := Some(pair), resultDescription := Some(description))]
  }

  /** The tie-breakers with the last one given its bowl-out attempts and result. */
  function WithBowlOutResult(tbs: seq<TieBreaker>, attempts: seq<BowlOutAttempt>, description: string): (out: seq<TieBreaker>)
    ensures |out| == |tbs| && out[..|out| - (if |out| > 0 then 1 else 0)] == tbs[..|tbs| - (if |tbs| > 0 then 1 else 0)]
    ensures |out| > 0 ==> out[|out| - 1] == tbs[|tbs| - 1].(bowlOutResult := Some(attempts), resultDescription := Some(description))
  {
    if |tbs| == 0 then tbs
    else tbs[..|tbs| - 1] + [tbs[|tbs| - 1].(bowlOutResult := Some(attempts), resultDescription := Some(description))]
  }

  /** "<n> <unit>" with the unit in the plural unless n is 1. */
  function Counted(n: int, unit: string): string {
    IntToString(n) + " " + unit + (if n != 1 then "s" else "")
  }

  /** The result line of a match won outright: "<team> won by <n> <unit>". */
  function WonBy(team: string, n: int, unit: string): string {
    team + " won by " + Counted(n, unit)
  }

  // ---------------------------------------------------------------- the handlers

  /** The coin: the first or the second team wins the toss (absent when there is no such
      team). */
  function TossStep(s: EngineState, firstTeamWins: bool): (t: EngineState)
    ensures t.stage == Decision
    ensures t.tossWinner.Some? ==> t.tossWinner.value in Keys(s.matchRecord.teams)
  {
    var keys := Keys(s.matchRecord.teams);
    var i := if firstTeamWins then 0 else 1;
    Sync(s.(tossWinner := if i < |keys| then Some(keys[i]) else None, stage := Decision))
  }

  /** The toss winner's choice, stored on the match. */
  function DecisionStep(s: EngineState, d: TossDecision): (t: EngineState)
    ensures t.stage == Openers && t.matchRecord.decision == Some(d) && t.matchRecord.tossWinner == s.tossWinner
  {
    Sync(s.(matchRecord := s.matchRecord.(tossWinner := s.tossWinner, decision := Some(d)), stage := Openers))
  }

  /** Choosing an opening batter toggles it; a third one is ignored. */
  function ToggleOpener(openers: seq<PlayerId>, id: PlayerId): (r: seq<PlayerId>)
    ensures id in openers ==> id !in r && forall p :: p in r ==> p in openers
    ensures id !in openers && |openers| < 2 ==> r == openers + [id]
    ensures id !in openers && |openers| >= 2 ==> r == openers
  {
    if id in openers then Filter(openers, p => p != id)
    else if |openers| < 2 then openers + [id] else openers
  }

  /** Choosing the opening bowler selects it, or clears the choice when it was selected. */
  function ToggleBowler(bowler: seq<PlayerId>, id: PlayerId): (r: seq<PlayerId>)
    ensures |r| <= 1
    ensures r == [] <==> id in bowler
  {
    if id in bowler then [] else [id]
  }

  function SelectOpenerStep(s: EngineState, id: PlayerId): EngineState {
    Sync(s.(openers := ToggleOpener(s.openers, id)))
  }

  function SelectBowlerStep(s: EngineState, id: PlayerId): EngineState {
    Sync(s.(bowler := ToggleBowler(s.bowler, id)))
  }

  /** Play starts with the two openers, the opening bowler, a fresh over and, in the second
      innings, a target one more than the first innings' score. */
  function StartPlayStep(s: EngineState): (t: EngineState)
    requires |s.openers| == 2 && |s.bowler| == 1
    ensures t.stage == Play && t.overHistory == []
    ensures t.liveState.onStrikeBatsmanId == s.openers[0] && t.liveState.offStrikeBatsmanId == s.openers[1]
    ensures t.liveState.currentBowlerId == s.bowler[0] && t.liveState.currentOverEvents == [] && !t.liveState.isFreeHit
    ensures t.liveState.target == (if s.currentInningsNum == 2 then s.innings.innings1.score + 1 else 0)
  {
    Sync(s.(liveState := s.liveState.(onStrikeBatsmanId := s.openers[0], offStrikeBatsmanId := s.openers[1],
                                      currentBowlerId := s.bowler[0],
                                      target := if s.currentInningsNum == 2 then s.innings.innings1.score + 1 else 0,
                                      previousBowlerId := "", currentOverEvents := [], isFreeHit := false),
            stage := Play, overHistory := []))
  }

  /** A delivery may be scored when the event string has a readable extras count and every
      batter and bowler it touches has a ledger entry. */
  predicate BallReady(s: EngineState, event: string, o: BallOptions) {
    var cur := CurrentInnings(s);
    && WellFormedEvent(event)
    && KnownOrUnset(cur, s.liveState.onStrikeBatsmanId)
    && KnownOrUnset(cur, s.liveState.currentBowlerId)
    && KnownOrUnset(cur, o.batsmanOutId)
  }

  /** The ledger of the current innings after the delivery. */
  function BallLedger(s: EngineState, event: string, o: BallOptions): (inn: Innings)
    requires BallReady(s, event, o)
  {
    LedgerAfterBall(CurrentInnings(s), ReadEvent(event), o, s.liveState.onStrikeBatsmanId,
                    s.liveState.currentBowlerId, s.liveState.isFreeHit)
  }

  /** The delivery reaches the chasing side's target. */
  predicate ChaseCompletes(s: EngineState, event: string, o: BallOptions)
    requires BallReady(s, event, o)
  {
    TargetReached(s.currentInningsNum, s.liveState.target, BallLedger(s, event, o).score)
  }

  /** The delivery closes the innings (by wickets, balls, or batters left). */
  predicate ClosesInnings(s: EngineState, event: string, o: BallOptions)
    requires BallReady(s, event, o)
  {
    var inn := BallLedger(s, event, o);
    var notOut := NotOutBatters(s.matchPlayers, Get(s.matchRecord.teams, TeamNames(s).batting), inn);
    InningsOver(inn, s.isSuperOver, s.matchRecord.totalOvers, notOut, IsWicketBall(ReadEvent(event), o))
  }

  /** The chase is complete: in a super over the batting side wins it; otherwise it wins
      by the wickets it has left. The innings being scored is not written back. */
  function ChaseWon(p: EngineState, winner: string, inn: Innings, pair: InningsPair,
                    recorded: Option<FastestBall>, stamp: EndStamp): (t: EngineState)
    ensures t.stage == MatchOver && t.overHistory == p.overHistory && t.fastestBall == p.fastestBall
    ensures t.innings == p.innings && t.matchRecord.fastestBall == recorded
    ensures t.matchRecord.tossWinner == p.matchRecord.tossWinner && t.matchRecord.decision == p.matchRecord.decision
    ensures t.matchRecord.teams == p.matchRecord.teams && t.isSuperOver == p.isSuperOver
    ensures t.currentInningsNum == p.currentInningsNum && (p.isSuperOver ==> t.tiedMatchInnings == p.tiedMatchInnings)
  {
    if p.isSuperOver then
      var result := winner + " won in Super Over";
      var tbs := WithSuperOverResult(p.tieBreakers, pair, result);
      EndMatch(p.(tieBreakers := tbs), winner, result, p.tiedMatchInnings, tbs, recorded, stamp)
    else
      var left := MaxWickets(false) - inn.wickets;
      EndMatch(p, winner, WonBy(winner, left, "wicket"), Some(Full(pair)), p.tieBreakers, recorded, stamp)
  }

  /** The second innings of a super over is over: the higher score wins it; level scores
      offer another tie-breaker, or after two tie-breakers end the match as a tie. */
  function SuperOverClosed(q: EngineState, recorded: Option<FastestBall>, stamp: EndStamp): (t: EngineState)
    ensures t.overHistory == q.overHistory && t.fastestBall == q.fastestBall && t.innings == q.innings
    ensures t.stage == MatchOver ==> t.matchRecord.fastestBall == recorded
    ensures t.matchRecord.tossWinner == q.matchRecord.tossWinner && t.matchRecord.decision == q.matchRecord.decision
    ensures t.matchRecord.teams == q.matchRecord.teams && t.isSuperOver == q.isSuperOver
    ensures t.currentInningsNum == q.currentInningsNum && t.tiedMatchInnings == q.tiedMatchInnings
  {
    var pair := q.innings;
    var score1, score2 := pair.innings1.score, pair.innings2.score;
    var winner := if score1 > score2 then pair.innings1.battingTeam
                  else if score2 > score1 then pair.innings2.battingTeam else "";
    var result := if score1 != score2 then winner + " won in Super Over" else "Super Over Tied";
    var tbs := WithSuperOverResult(q.tieBreakers, pair, result);
    var r := q.(tieBreakers := tbs);
    if score1 == score2 then
      if |tbs| < 2 then r.(liveState := EmptyLiveState, openers := [], bowler := [], stage := TieBreakerSelection)
      else EndMatch(r, "", "Match Tied after multiple Super Overs", q.tiedMatchInnings, tbs, recorded, stamp)
    else EndMatch(r, winner, result, q.tiedMatchInnings, tbs, recorded, stamp)
  }

  /** The innings is over without the target reached: a break after the first innings,
      the super over's close, a tie, or a win for the side defending the target. */
  function InningsClosed(p: EngineState, sides: Sides, inn: Innings, pair: InningsPair,
                         recorded: Option<FastestBall>, stamp: EndStamp): (t: EngineState)
    ensures t.overHistory == p.overHistory && t.fastestBall == p.fastestBall && t.innings == pair
    ensures t.stage == MatchOver ==> t.matchRecord.fastestBall == recorded
    ensures t.matchRecord.tossWinner == p.matchRecord.tossWinner && t.matchRecord.decision == p.matchRecord.decision
    ensures t.matchRecord.teams == p.matchRecord.teams && t.isSuperOver == p.isSuperOver
    ensures t.currentInningsNum == p.currentInningsNum && (p.isSuperOver ==> t.tiedMatchInnings == p.tiedMatchInnings)
  {
    var q := p.(innings := pair);
    if p.isSuperOver then
      if p.currentInningsNum == 1 then q.(stage := InningsBreak)
      else SuperOverClosed(q, recorded, stamp)
    else if p.currentInningsNum == 1 then q.(stage := InningsBreak)
    else if inn.score == p.liveState.target - 1 then
      q.(tiedMatchInnings := Some(Full(pair)), stage := TieBreakerSelection)
    else
      var margin := p.liveState.target - 1 - inn.score;
      EndMatch(q, sides.bowling, WonBy(sides.bowling, margin, "run"), Some(Full(pair)), p.tieBreakers, recorded, stamp)
  }

  /** One delivery. `recordPreBall` selects which fastest ball a match that ends on this
      delivery records: the one before it (as the scorer is written) or the one after it. */
  function BallStepRecording(s: EngineState, event: string, o: BallOptions, speed: int, stamp: EndStamp, recordPreBall: bool): (t: EngineState)
    requires BallReady(s, event, o)
    ensures t.overHistory == s.overHistory + [Snapshot(s.innings, s.liveState, s.fastestBall)]
    ensures t.fastestBall == FastestAfterBall(s.fastestBall, ReadEvent(event), speed, s.liveState.currentBowlerId)
  {
    var r := ReadEvent(event);
    var live := s.liveState;
    var inn := BallLedger(s, event, o);
    var pair := WithCurrent(s.innings, s.currentInningsNum, inn);
    var fb := FastestAfterBall(s.fastestBall, r, speed, live.currentBowlerId);
    var recorded := if recordPreBall then s.fastestBall else fb;
    var pushed := s.(overHistory := s.overHistory + [Snapshot(s.innings, live, s.fastestBall)], fastestBall := fb);
    if ChaseCompletes(s, event, o) then
      Sync(ChaseWon(pushed, TeamNames(s).batting, inn, pair, recorded, stamp))
    else if ClosesInnings(s, event, o) then
      Sync(InningsClosed(pushed, TeamNames(s), inn, pair, recorded, stamp))
    else
      Sync(pushed.(innings := pair,
                   liveState := LiveAfterBall(live, event, o, DismissedId(r, o, live.onStrikeBatsmanId, live.isFreeHit))))
  }

  /** One delivery, with a match that ends on it recording the fastest ball including it. */
  function BallStep(s: EngineState, event: string, o: BallOptions, speed: int, stamp: EndStamp): (t: EngineState)
    requires BallReady(s, event, o)
    ensures t.overHistory == s.overHistory + [Snapshot(s.innings, s.liveState, s.fastestBall)]
  {
    BallStepRecording(s, event, o, speed, stamp, false)
  }

  /** One delivery as the scorer is written: a match that ends on it records the fastest
      ball from before it. */
  function BallStepAsWritten(s: EngineState, event: string, o: BallOptions, speed: int, stamp: EndStamp): (t: EngineState)
    requires BallReady(s, event, o)
    ensures t.overHistory == s.overHistory + [Snapshot(s.innings, s.liveState, s.fastestBall)]
  {
    BallStepRecording(s, event, o, speed, stamp, true)
  }

  /** Undo restores the innings, the live cursor and the fastest ball of the last snapshot
      and drops it; with no snapshot nothing changes. */
  function UndoStep(s: EngineState): (t: EngineState)
    ensures s.overHistory == [] ==> t == s
    ensures s.overHistory != [] ==> t.overHistory == s.overHistory[..|s.overHistory| - 1]
  {
    if s.overHistory == [] then s
    else
      var last := s.overHistory[|s.overHistory| - 1];
      Sync(s.(overHistory := s.overHistory[..|s.overHistory| - 1], innings := last.innings,
              liveState := last.liveState, fastestBall := last.fastestBall))
  }

  function NewBatsmanStep(s: EngineState, id: PlayerId): (t: EngineState)
    ensures t.liveState == s.liveState.(onStrikeBatsmanId := id)
  {
    Sync(s.(liveState := s.liveState.(onStrikeBatsmanId := id)))
  }

  function NewNonStrikerStep(s: EngineState, id: PlayerId): (t: EngineState)
    ensures t.liveState == s.liveState.(offStrikeBatsmanId := id)
  {
    Sync(s.(liveState := s.liveState.(offStrikeBatsmanId := id)))
  }

  /** A new bowler takes the over; undo history does not reach back past it. */
  function NewBowlerStep(s: EngineState, id: PlayerId): (t: EngineState)
    ensures t.liveState == s.liveState.(currentBowlerId := id) && t.overHistory == []
  {
    Sync(s.(liveState := s.liveState.(currentBowlerId := id), overHistory := []))
  }

  /** The break ends: the second innings is set up with a target one more than the first
      innings' score. */
  function StartSecondInningsStep(s: EngineState): (t: EngineState)
    ensures t.currentInningsNum == 2 && t.stage == Openers && t.openers == [] && t.bowler == [] && t.overHistory == []
    ensures t.liveState == EmptyLiveState.(target := s.innings.innings1.score + 1)
  {
    Sync(s.(currentInningsNum := 2, stage := Openers, openers := [], bowler := [],
            liveState := s.liveState.(onStrikeBatsmanId := "", offStrikeBatsmanId := "", currentBowlerId := "",
                                      target := s.innings.innings1.score + 1, previousBowlerId := "",
                                      currentOverEvents := [], isFreeHit := false),
            overHistory := []))
  }

  /** A tie-breaker is added. A super over starts a fresh one-over contest in which the side
      that batted second bats first; a bowl-out starts with the first team to bowl.
      `keepAttempts` keeps the attempts of an earlier bowl-out, as the scorer is written. */
  function StartTieBreakerWith(s: EngineState, kind: TieBreakerKind, keepAttempts: bool): (t: EngineState)
    ensures t.tieBreakers == s.tieBreakers + [TieBreaker(kind, None, None, None)]
    ensures kind == SuperOver ==> t.isSuperOver && t.currentInningsNum == 1 && t.stage == Openers && t.liveState == EmptyLiveState
    ensures kind == BowlOut ==> t.stage == BowlOutPlay && t.bowlOut.currentTurn == 1
                                && t.bowlOut.currentTeam == TeamAt(Keys(s.matchRecord.teams), 0)
  {
    var tbs := s.tieBreakers + [TieBreaker(kind, None, None, None)];
    if kind == SuperOver then
      var soBat, soBowl := s.innings.innings2.battingTeam, s.innings.innings1.battingTeam;
      Sync(s.(tieBreakers := tbs, isSuperOver := true, currentInningsNum := 1,
              innings := InningsPair(InitialInnings(s.matchRecord.players, soBat, soBowl), InitialInnings(s.matchRecord.players, soBowl, soBat)),
              liveState := EmptyLiveState, openers := [], bowler := [], stage := Openers))
    else
      var teamA := TeamAt(Keys(s.matchRecord.teams), 0);
      Sync(s.(tieBreakers := tbs,
              bowlOut := if keepAttempts then RestartAsWritten(s.bowlOut, teamA) else Restart(s.bowlOut, teamA),
              stage := BowlOutPlay))
  }

  function StartTieBreakerStep(s: EngineState, kind: TieBreakerKind): (t: EngineState)
    ensures kind == BowlOut ==> t.bowlOut.attempts == []
  {
    StartTieBreakerWith(s, kind, false)
  }

  function StartTieBreakerAsWritten(s: EngineState, kind: TieBreakerKind): (t: EngineState)
    ensures kind == BowlOut ==> t.bowlOut.attempts == s.bowlOut.attempts
  {
    StartTieBreakerWith(s, kind, true)
  }

  /** The five bowlers of the first or the second team are chosen. */
  function BowlOutBowlersStep(s: EngineState, firstTeam: bool, bowlers: seq<PlayerId>): (t: EngineState)
    ensures firstTeam ==> t.bowlOut == s.bowlOut.(teamABowlers := bowlers)
    ensures !firstTeam ==> t.bowlOut == s.bowlOut.(teamBBowlers := bowlers) && t.stage == BowlOutPlay
  {
    if firstTeam then Sync(s.(bowlOut := s.bowlOut.(teamABowlers := bowlers)))
    else Sync(s.(bowlOut := s.bowlOut.(teamBBowlers := bowlers), stage := BowlOutPlay))
  }

  /** One bowl-out attempt. A decided contest records its attempts and result on the last
      tie-breaker; a tie goes back to the choice of tie-breaker while fewer than two have
      been used, and otherwise ends the match as a tie. */
  function BowlOutAttemptStep(s: EngineState, outcome: Outcome, stamp: EndStamp): EngineState {
    var keys := Keys(s.matchRecord.teams);
    match Attempt(s.bowlOut, TeamAt(keys, 0), TeamAt(keys, 1), outcome)
    case Continue(next) => Sync(s.(bowlOut := next))
    case Decided(attempts, winner, description) =>
      var tbs := WithBowlOutResult(s.tieBreakers, attempts, description);
      var r := s.(tieBreakers := tbs);
      if description == "Bowl Out Tied" then
        if |tbs| < 2 then Sync(r.(stage := TieBreakerSelection))
        else Sync(EndMatch(r, "", "Match Tied after Bowl Out", TiedOrCurrent(s), tbs, s.fastestBall, stamp))
      else Sync(EndMatch(r, winner, description, TiedOrCurrent(s), tbs, s.fastestBall, stamp))
  }

  /** The scorer declares the match a tie. */
  function DeclareTieStep(s: EngineState, stamp: EndStamp): (t: EngineState)
    ensures t.stage == MatchOver && t.matchRecord.winner.None? && t.matchRecord.resultDescription == Some("Match Tied")
    ensures t.matchRecord.innings == TiedOrCurrent(s)
  {
    Sync(EndMatch(s, "", "Match Tied", TiedOrCurrent(s), s.tieBreakers, s.fastestBall, stamp))
  }

  // ---------------------------------------------------------------- short runs

  datatype ShortRunEntry = Accepted(event: string) | Rejected(message: string)

  /** The short-run form: both numbers must be present, the runs scored not negative and the
      runs attempted positive, and fewer runs scored than attempted. An accepted entry is
      scored as the event "<scored>S<attempted>". Absent numbers stand for text that does
      not start with a number. */
  function ShortRunForm(scored: Option<int>, attempted: Option<int>): (e: ShortRunEntry)
    ensures e.Accepted? <==> scored.Some? && attempted.Some? && 0 <= scored.value < attempted.value
    ensures e.Accepted? ==> Decode(e.event) == Some(ShortRun(scored.value, attempted.value))
  {
    if scored.None? || attempted.None? || scored.value < 0 || attempted.value <= 0 then
      Rejected("Please enter valid, positive numbers.")
    else if scored.value >= attempted.value then
      Rejected("Runs attempted must be greater than runs scored.")
    else
      DecodeEncode(ShortRun(scored.value, attempted.value));
      Accepted(Encode(ShortRun(scored.value, attempted.value)))
  }
}
