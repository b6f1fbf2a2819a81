/** What one delivery does, as the live scorer computes it: the ledger after the ball,
    the fastest-ball record, the free-hit flag, the batters' ends (including run-outs),
    the end of the over, and the limits that close an innings. */
module Scoring {
  import opened Common
  import opened Domain
  import opened Events
  import opened Ledger

  /** The optional details a delivery comes with. An empty id means "not given"; the
      run-out flow passes the completed runs, the replacement batter and whether the
      batters had crossed. */
  datatype BallOptions = BallOptions(
    batsmanOutId: PlayerId,
    howOut: Option<HowOut>,
    fielderId: PlayerId,
    runsScored: nat,
    newBatsmanIdForRunOut: PlayerId,
    batsmenCrossed: bool)

  const NoOptions := BallOptions("", None, "", 0, "", false)

  // ---------------------------------------------------------------- classification

  /** The delivery is a dismissal attempt: a "W" event or any mode of dismissal. */
  predicate IsWicketBall(r: EventReading, o: BallOptions) {
    r.base == "W" || o.howOut.Some?
  }

  /** The dismissals a free hit protects against. */
  predicate IsProtectedDismissal(howOut: Option<HowOut>) {
    howOut == Some(Bowled) || howOut == Some(Caught) || howOut == Some(LBW)
  }

  /** The batter whose dismissal is recorded, or "" when none is: the named batter (else
      the striker), unless it is a free hit and the mode is bowled, caught or lbw. */
  function DismissedId(r: EventReading, o: BallOptions, striker: PlayerId, isFreeHit: bool): (id: PlayerId)
    ensures id != "" ==> IsWicketBall(r, o) && !(isFreeHit && IsProtectedDismissal(o.howOut))
    ensures id != "" ==> id == (if o.batsmanOutId != "" then o.batsmanOutId else striker)
    ensures IsWicketBall(r, o) && !(isFreeHit && IsProtectedDismissal(o.howOut)) && (o.batsmanOutId != "" || striker != "") ==> id != ""
  {
    if !IsWicketBall(r, o) then ""
    else
      var candidate := if o.batsmanOutId != "" then o.batsmanOutId else striker;
      if candidate != "" && !(isFreeHit && IsProtectedDismissal(o.howOut)) then candidate else ""
  }

  /** The next delivery is a free hit after a no-ball, and stays one across a wide. */
  predicate NextFreeHit(r: EventReading, isFreeHit: bool) {
    r.base == "Nb" || (isFreeHit && r.base == "Wd")
  }

  /** Runs the delivery adds to the total (runs off the bat, or 1 + extras for Wd/Nb). */
  function BallTotal(r: EventReading, o: BallOptions): nat
    requires r.extraRuns.Some?
  {
    var bat := RunsScored(r, o.runsScored);
    if bat > 0 then bat else if IsExtraBase(r.base) then 1 + r.extraRuns.value else 0
  }

  /** Runs the delivery adds to the striker's own tally. */
  function StrikerRuns(r: EventReading, o: BallOptions): nat
    requires r.extraRuns.Some?
  {
    var bat := RunsScored(r, o.runsScored);
    if bat > 0 then bat else if r.base == "Nb" then r.extraRuns.value else 0
  }

  // ---------------------------------------------------------------- ledger after the ball

  /** The run credits of a delivery (before it is counted and before any dismissal). */
  function ScoreBall(inn: Innings, r: EventReading, o: BallOptions, striker: PlayerId, bowler: PlayerId): (out: Innings)
    requires r.extraRuns.Some?
    requires KnownOrUnset(inn, striker) && KnownOrUnset(inn, bowler)
    ensures out.batsmenStats.Keys == inn.batsmenStats.Keys && out.bowlerStats.Keys == inn.bowlerStats.Keys
    ensures out == inn.(score := out.score, batsmenStats := out.batsmenStats, bowlerStats := out.bowlerStats)
  {
    var bat := RunsScored(r, o.runsScored);
    if bat > 0 then CreditRuns(inn, bat, striker, bowler, r.shortRun.None?)
    else if IsExtraBase(r.base) then CreditExtra(inn, r.base == "Nb", r.extraRuns.value, striker, bowler)
    else inn
  }

  /** Everything a delivery does to the ledger of the innings in progress, in the order the
      scorer does it: run credits, the legal-ball count, then the dismissal. */
  function LedgerAfterBall(inn: Innings, r: EventReading, o: BallOptions, striker: PlayerId, bowler: PlayerId, isFreeHit: bool): (out: Innings)
    requires r.extraRuns.Some?
    requires KnownOrUnset(inn, striker) && KnownOrUnset(inn, bowler) && KnownOrUnset(inn, o.batsmanOutId)
    ensures out.batsmenStats.Keys == inn.batsmenStats.Keys && out.bowlerStats.Keys == inn.bowlerStats.Keys
    ensures out.battingTeam == inn.battingTeam && out.bowlingTeam == inn.bowlingTeam
  {
    var scored := ScoreBall(inn, r, o, striker, bowler);
    var counted := if IsLegalReading(r) then CountLegalBall(scored, striker, bowler) else scored;
    var outId := DismissedId(r, o, striker, isFreeHit);
    if outId != "" then RecordWicket(counted, outId, o.howOut, o.fielderId, bowler) else counted
  }

  /** The fastest-ball record after a delivery: a legal ball with a speed and a bowler
      replaces it when there is none yet or the speed is strictly higher. */
  function FastestAfterBall(fb: Option<FastestBall>, r: EventReading, speed: int, bowler: PlayerId): (out: Option<FastestBall>)
    ensures out.Some? && fb.Some? ==> out.value.speed >= fb.value.speed
    ensures out != fb ==> out == Some(FastestBall(bowler, speed)) && IsLegalReading(r) && speed != 0 && bowler != ""
  {
    if IsLegalReading(r) && speed != 0 && bowler != "" && (fb.None? || speed > fb.value.speed)
    then Some(FastestBall(bowler, speed))
    else fb
  }

  // ---------------------------------------------------------------- ends

  datatype Ends = Ends(striker: PlayerId, nonStriker: PlayerId)

  /** Ends after a run-out with a replacement batter. `strikerAfterRuns` is whoever the
      completed runs alone would leave on strike; the batter who is not out then stays at
      that end unless the two had crossed on the dismissal attempt, and the newcomer
      takes the other end. */
  function RunOutEnds(striker: PlayerId, nonStriker: PlayerId, outId: PlayerId, newId: PlayerId, completedRuns: nat, crossed: bool): Ends {
    var notOut := if outId == striker then nonStriker else striker;
    var strikerAfterRuns := if completedRuns % 2 != 0 then nonStriker else striker;
    if crossed then
      if notOut == strikerAfterRuns then Ends(newId, notOut) else Ends(notOut, newId)
    else
      if notOut == strikerAfterRuns then Ends(notOut, newId) else Ends(newId, notOut)
  }

  /** Ends after the delivery, before any change of ends at the end of the over. */
  function EndsAfterBall(r: EventReading, o: BallOptions, live: LiveState, outId: PlayerId): Ends
    requires r.extraRuns.Some?
  {
    var striker, nonStriker := live.onStrikeBatsmanId, live.offStrikeBatsmanId;
    if outId != "" then
      if o.howOut == Some(RunOut) && o.newBatsmanIdForRunOut != "" then
        RunOutEnds(striker, nonStriker, outId, o.newBatsmanIdForRunOut, o.runsScored, o.batsmenCrossed)
      else if outId == striker then Ends("", nonStriker)
      else Ends(striker, "")
    else if RotationRuns(r) % 2 != 0 then Ends(nonStriker, striker)
    else Ends(striker, nonStriker)
  }

  /** The over is complete: this legal delivery brings the legal balls of the over to a
      positive multiple of six. */
  predicate IsOverEnd(r: EventReading, eventsAfter: seq<string>) {
    IsLegalReading(r) && LegalCount(eventsAfter) > 0 && LegalCount(eventsAfter) % 6 == 0
  }

  /** The live cursor after a delivery that does not close the innings. */
  function LiveAfterBall(live: LiveState, event: string, o: BallOptions, outId: PlayerId): (out: LiveState)
    requires WellFormedEvent(event)
    ensures out.target == live.target
    ensures out.isFreeHit == NextFreeHit(ReadEvent(event), live.isFreeHit)
  {
    var r := ReadEvent(event);
    var eventsAfter := live.currentOverEvents + [event];
    var ends := EndsAfterBall(r, o, live, outId);
    var overEnd := IsOverEnd(r, eventsAfter);
    var ends' := if overEnd then Ends(ends.nonStriker, ends.striker) else ends;
    LiveState(ends'.striker, ends'.nonStriker,
              if overEnd then "" else live.currentBowlerId,
              if overEnd then live.currentBowlerId else live.previousBowlerId,
              if overEnd then [] else eventsAfter,
              live.target,
              NextFreeHit(r, live.isFreeHit))
  }

  // ---------------------------------------------------------------- innings limits

  /** Legal balls after which the innings closes: one over in a super over, otherwise the
      scheduled overs, with no cap when they are unset or zero. */
  function BallCap(isSuperOver: bool, totalOvers: Option<int>): Option<int> {
    if isSuperOver then Some(6)
    else if totalOvers.Some? && totalOvers.value != 0 then Some(totalOvers.value * 6)
    else None
  }

  /** Wickets that close an innings: two in a super over, ten otherwise. */
  function MaxWickets(isSuperOver: bool): nat {
    if isSuperOver then 2 else 10
  }

  /** A match player on the batting side's roster who has not been dismissed. */
  predicate IsNotOutBatter(roster: Option<seq<PlayerId>>, inn: Innings, p: PlayerId) {
    roster.Some? && p in roster.value && !(p in inn.batsmenStats && inn.batsmenStats[p].isOut)
  }

  /** The number of batters of the batting side who are not out, over the match players
      (`matchPlayers.filter(...).length`). */
  function NotOutBatters(matchPlayers: seq<PlayerId>, roster: Option<seq<PlayerId>>, inn: Innings): (n: nat)
    ensures n <= |matchPlayers|
  {
    CountWhere(matchPlayers, p => IsNotOutBatter(roster, inn, p))
  }

  /** The count is the length of the list of not-out batters of the batting side, and it is
      zero exactly when no match player is one. */
  lemma NotOutBattersCounts(matchPlayers: seq<PlayerId>, roster: Option<seq<PlayerId>>, inn: Innings)
    ensures NotOutBatters(matchPlayers, roster, inn) == |Filter(matchPlayers, p => IsNotOutBatter(roster, inn, p))|
    ensures NotOutBatters(matchPlayers, roster, inn) == 0 <==> forall p :: p in matchPlayers ==> !IsNotOutBatter(roster, inn, p)
  {
    var notOut := p => IsNotOutBatter(roster, inn, p);
    FilterLength(matchPlayers, notOut);
    var r := Filter(matchPlayers, notOut);
    assert r != [] ==> r[0] in matchPlayers && notOut(r[0]);
    assert forall i :: 0 <= i < |matchPlayers| && notOut(matchPlayers[i]) ==> matchPlayers[i] in r;
  }

  /** The innings is over: the wicket limit, the ball cap, or at most one batter left
      after a delivery that was not a dismissal attempt. */
  predicate InningsOver(inn: Innings, isSuperOver: bool, totalOvers: Option<int>, notOut: nat, isWicket: bool) {
    || inn.wickets >= MaxWickets(isSuperOver)
    || (BallCap(isSuperOver, totalOvers).Some? && inn.totalLegalBalls >= BallCap(isSuperOver, totalOvers).value)
    || (notOut <= 1 && !isWicket)
  }

  /** The chasing side has reached its target. */
  predicate TargetReached(inningsNum: int, target: int, score: int) {
    inningsNum == 2 && target > 0 && score >= target
  }
}
