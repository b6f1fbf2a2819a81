/** The innings ledger of the live scorer: the empty ledger an innings starts from,
    the overs display, and the four ways one delivery can change the ledger (runs off
    the bat, a wide or no-ball, a legal delivery, a dismissal). */
module Ledger {
  import opened Common
  import opened Domain

  const FreshBatsman := BatsmanStats(0, 0, false, 0, 0, None, None, None)
  const FreshBowler := BowlerStats(0, 0, 0)

  /** The ledger of an innings nobody has batted in yet: every listed player has zero figures. */
  function InitialInnings(playerIds: seq<PlayerId>, battingTeam: string, bowlingTeam: string): Innings {
    Innings(battingTeam, bowlingTeam, 0, 0, 0,
            map p | p in playerIds :: FreshBatsman,
            map p | p in playerIds :: FreshBowler,
            [])
  }

  /** Builds the starting ledger one player at a time. */
  method InitialInningsState(playerIds: seq<PlayerId>, battingTeam: string, bowlingTeam: string) returns (inn: Innings)
    ensures inn == InitialInnings(playerIds, battingTeam, bowlingTeam)
  {
    var batsmen: map<PlayerId, BatsmanStats> := map[];
    var bowlers: map<PlayerId, BowlerStats> := map[];
    for i := 0 to |playerIds|
      invariant batsmen.Keys == bowlers.Keys == set p | p in playerIds[..i]
      invariant forall p :: p in batsmen ==> batsmen[p] == FreshBatsman
      invariant forall p :: p in bowlers ==> bowlers[p] == FreshBowler
    {
      assert playerIds[..i + 1] == playerIds[..i] + [playerIds[i]];
      batsmen := batsmen[playerIds[i] := FreshBatsman];
      bowlers := bowlers[playerIds[i] := FreshBowler];
    }
    assert playerIds[..|playerIds|] == playerIds;
    inn := Innings(battingTeam, bowlingTeam, 0, 0, 0, batsmen, bowlers, []);
  }

  // ---------------------------------------------------------------- overs display

  /** `formatOvers`: completed overs, a dot, and the balls of the over in progress;
      a negative count shows as "0.0". */
  function FormatOvers(balls: int): string {
    var b := if balls < 0 then 0 else balls;
    NatToString(b / 6) + "." + NatToString(b % 6)
  }

  /** Reads an overs figure back: whole overs, a dot, and a single ball digit 0..5. */
  function ParseOvers(s: string): (r: Option<nat>)
    ensures r.Some? ==> |s| >= 3 && s[|s| - 2] == '.'
  {
    if |s| >= 3 && s[|s| - 2] == '.' && AllDigits(s[..|s| - 2]) && IsDigit(s[|s| - 1])
       && DigitValue(s[|s| - 1]) < 6
    then Some(ParseDigits(s[..|s| - 2]) * 6 + DigitValue(s[|s| - 1]))
    else None
  }

  /** The overs display loses nothing: it reads back as the ball count (clamped at 0). */
  lemma {:induction false} ParseFormatOvers(balls: int)
    ensures ParseOvers(FormatOvers(balls)) == Some(if balls < 0 then 0 else balls)
  {
    var b := if balls < 0 then 0 else balls;
    var overs, ball := NatToString(b / 6), NatToString(b % 6);
    var s := FormatOvers(balls);
    assert |ball| == 1;
    assert s == overs + "." + ball;
    assert s[..|s| - 2] == overs;
    assert s[|s| - 2] == '.';
    assert s[|s| - 1] == ball[0];
    ParseNatToString(b / 6);
    ParseNatToString(b % 6);
    assert ParseDigits(ball) == DigitValue(ball[0]) by {
      assert ball[..0] == [];
    }
  }

  /** Two different non-negative ball counts never show the same overs figure. */
  lemma FormatOversInjective(a: nat, b: nat)
    requires FormatOvers(a) == FormatOvers(b)
    ensures a == b
  {
    ParseFormatOvers(a);
    ParseFormatOvers(b);
  }

  // ---------------------------------------------------------------- per-delivery changes

  /** The ledger keeps figures for `id` (an id the engine may index). */
  predicate Tracks(inn: Innings, id: PlayerId) {
    id in inn.batsmenStats && id in inn.bowlerStats
  }

  /** `id` is either unset or has figures in this ledger. */
  predicate KnownOrUnset(inn: Innings, id: PlayerId) {
    id == "" || Tracks(inn, id)
  }

  /** Adds `r` runs to a batter, with a four or a six counted when `boundary` allows it. */
  function CreditBatter(stats: map<PlayerId, BatsmanStats>, id: PlayerId, r: nat, boundary: bool): (out: map<PlayerId, BatsmanStats>)
    requires id in stats
    ensures out.Keys == stats.Keys
    ensures forall p :: p in stats && p != id ==> out[p] == stats[p]
    ensures out[id].runs == stats[id].runs + r && out[id].balls == stats[id].balls && out[id].isOut == stats[id].isOut
    ensures out[id].fours == stats[id].fours + (if boundary && r == 4 then 1 else 0)
    ensures out[id].sixes == stats[id].sixes + (if boundary && r == 6 then 1 else 0)
  {
    var s := stats[id];
    stats[id := s.(runs := s.runs + r,
                   fours := if boundary && r == 4 then s.fours + 1 else s.fours,
                   sixes := if boundary && r == 6 then s.sixes + 1 else s.sixes)]
  }

  /** Charges `r` runs to a bowler. */
  function Concede(stats: map<PlayerId, BowlerStats>, id: PlayerId, r: nat): (out: map<PlayerId, BowlerStats>)
    requires id in stats
    ensures out.Keys == stats.Keys
    ensures forall p :: p in stats && p != id ==> out[p] == stats[p]
    ensures out[id] == stats[id].(runsConceded := stats[id].runsConceded + r)
  {
    stats[id := stats[id].(runsConceded := stats[id].runsConceded + r)]
  }

  /** Runs off the bat: the total, the striker (if one is set) and the bowler (if one is
      set) each go up by `r`; a short run never counts a boundary. */
  function CreditRuns(inn: Innings, r: nat, striker: PlayerId, bowler: PlayerId, boundary: bool): (out: Innings)
    requires KnownOrUnset(inn, striker) && KnownOrUnset(inn, bowler)
    ensures out.score == inn.score + r
    ensures out == inn.(score := out.score, batsmenStats := out.batsmenStats, bowlerStats := out.bowlerStats)
  {
    inn.(score := inn.score + r,
         batsmenStats := if striker != "" then CreditBatter(inn.batsmenStats, striker, r, boundary) else inn.batsmenStats,
         bowlerStats := if bowler != "" then Concede(inn.bowlerStats, bowler, r) else inn.bowlerStats)
  }

  /** A wide or no-ball with `k` further runs: one penalty run plus `k` go to the total
      and to the bowler; only a no-ball's further runs go to the striker. */
  function CreditExtra(inn: Innings, noBall: bool, k: nat, striker: PlayerId, bowler: PlayerId): (out: Innings)
    requires KnownOrUnset(inn, striker) && KnownOrUnset(inn, bowler)
    ensures out.score == inn.score + 1 + k
    ensures out == inn.(score := out.score, batsmenStats := out.batsmenStats, bowlerStats := out.bowlerStats)
  {
    inn.(score := inn.score + 1 + k,
         bowlerStats := if bowler != "" then Concede(inn.bowlerStats, bowler, 1 + k) else inn.bowlerStats,
         batsmenStats := if noBall && k > 0 && striker != "" then CreditBatter(inn.batsmenStats, striker, k, true) else inn.batsmenStats)
  }

  /** A legal delivery: one more ball for the innings, the striker and the bowler. */
  function CountLegalBall(inn: Innings, striker: PlayerId, bowler: PlayerId): (out: Innings)
    requires KnownOrUnset(inn, striker) && KnownOrUnset(inn, bowler)
    ensures out.totalLegalBalls == inn.totalLegalBalls + 1
    ensures out == inn.(totalLegalBalls := out.totalLegalBalls, batsmenStats := out.batsmenStats, bowlerStats := out.bowlerStats)
  {
    inn.(totalLegalBalls := inn.totalLegalBalls + 1,
         batsmenStats := if striker != "" then inn.batsmenStats[striker := inn.batsmenStats[striker].(balls := inn.batsmenStats[striker].balls + 1)]
                         else inn.batsmenStats,
         bowlerStats := if bowler != "" then inn.bowlerStats[bowler := inn.bowlerStats[bowler].(ballsBowled := inn.bowlerStats[bowler].ballsBowled + 1)]
                        else inn.bowlerStats)
  }

  /** The bowler is credited with a dismissal exactly when a mode of dismissal is given
      and it is not a run-out. */
  predicate CreditsBowler(howOut: Option<HowOut>) {
    howOut.Some? && howOut.value != RunOut
  }

  /** Records the dismissal of `outId`: one more wicket, the batter marked out with the
      mode, bowler and fielder, and a fall-of-wicket entry at the current score. */
  function RecordWicket(inn: Innings, outId: PlayerId, howOut: Option<HowOut>, fielderId: PlayerId, bowler: PlayerId): (out: Innings)
    requires Tracks(inn, outId) && KnownOrUnset(inn, bowler)
    ensures out.wickets == inn.wickets + 1
    ensures out.fallOfWickets == inn.fallOfWickets + [FallOfWicket(inn.score, inn.wickets + 1, outId)]
    ensures out == inn.(wickets := out.wickets, batsmenStats := out.batsmenStats, bowlerStats := out.bowlerStats, fallOfWickets := out.fallOfWickets)
    ensures outId in out.batsmenStats && out.batsmenStats[outId].isOut && out.batsmenStats[outId].howOut == howOut
    ensures bowler != "" ==>
              (bowler in out.bowlerStats
               && out.bowlerStats[bowler].wickets == inn.bowlerStats[bowler].wickets + (if CreditsBowler(howOut) then 1 else 0))
  {
    var s := inn.batsmenStats[outId];
    var s' := s.(isOut := true,
                 howOut := howOut,
                 bowlerId := if CreditsBowler(howOut) then Some(bowler) else s.bowlerId,
                 fielderId := if fielderId != "" then Some(fielderId) else s.fielderId);
    inn.(wickets := inn.wickets + 1,
         batsmenStats := inn.batsmenStats[outId := s'],
         bowlerStats := if CreditsBowler(howOut) && bowler != "" then inn.bowlerStats[bowler := inn.bowlerStats[bowler].(wickets := inn.bowlerStats[bowler].wickets + 1)]
                        else inn.bowlerStats,
         fallOfWickets := inn.fallOfWickets + [FallOfWicket(inn.score, inn.wickets + 1, outId)])
  }

  // ---------------------------------------------------------------- ledger invariant

  /** The wicket count and the fall-of-wickets list agree: one entry per wicket, numbered
      1, 2, ..., at non-decreasing scores no greater than the current score. */
  ghost predicate WicketsConsistent(inn: Innings) {
    && inn.wickets == |inn.fallOfWickets|
    && (forall i :: 0 <= i < |inn.fallOfWickets| ==> inn.fallOfWickets[i].wicket == i + 1 && inn.fallOfWickets[i].score <= inn.score)
    && (forall i, j :: 0 <= i < j < |inn.fallOfWickets| ==> inn.fallOfWickets[i].score <= inn.fallOfWickets[j].score)
  }

  /** A fresh ledger lists exactly the given players, all with zero figures, and has no
      score, balls or wickets yet. */
  lemma InitialInningsFresh(playerIds: seq<PlayerId>, battingTeam: string, bowlingTeam: string)
    ensures var inn := InitialInnings(playerIds, battingTeam, bowlingTeam);
            && inn.batsmenStats.Keys == inn.bowlerStats.Keys == set p | p in playerIds
            && (forall p :: p in inn.batsmenStats ==> inn.batsmenStats[p] == FreshBatsman)
            && (forall p :: p in inn.bowlerStats ==> inn.bowlerStats[p] == FreshBowler)
            && inn.score == 0 && inn.wickets == 0 && inn.totalLegalBalls == 0 && inn.fallOfWickets == []
            && inn.battingTeam == battingTeam && inn.bowlingTeam == bowlingTeam
  {
  }

  lemma InitialWicketsConsistent(playerIds: seq<PlayerId>, battingTeam: string, bowlingTeam: string)
    ensures WicketsConsistent(InitialInnings(playerIds, battingTeam, bowlingTeam))
  {
  }

  /** Run credits keep the wicket record consistent (scores only grow). */
  lemma RunsKeepWicketsConsistent(inn: Innings, out: Innings)
    requires WicketsConsistent(inn)
    requires out.score >= inn.score && out.wickets == inn.wickets && out.fallOfWickets == inn.fallOfWickets
    ensures WicketsConsistent(out)
  {
  }

  /** A recorded dismissal extends the record consistently. */
  lemma RecordWicketKeepsConsistent(inn: Innings, outId: PlayerId, howOut: Option<HowOut>, fielderId: PlayerId, bowler: PlayerId)
    requires Tracks(inn, outId) && KnownOrUnset(inn, bowler)
    requires WicketsConsistent(inn)
    ensures WicketsConsistent(RecordWicket(inn, outId, howOut, fielderId, bowler))
  {
  }
}
