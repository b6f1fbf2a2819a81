/** The scorecard of a completed match: the overs display, the dismissal text of each
    batter, which batters and bowlers get a row, and the hits of each side in a bowl-out. */
module Scorecard {
  import opened Common
  import opened Domain
  import Ledger
  import BowlOutRules

  /** The scorecard's `formatOvers`: no balls (or a negative count) show as "0.0", otherwise
      completed overs, a dot and the balls of the over in progress. */
  function FormatOvers(balls: int): (s: string)
    ensures balls <= 0 ==> s == "0.0"
  {
    if balls <= 0 then "0.0" else NatToString(balls / 6) + "." + NatToString(balls % 6)
  }

  /** It shows every ball count as the live scorer's overs display does. */
  lemma FormatOversAgrees(balls: int)
    ensures FormatOvers(balls) == Ledger.FormatOvers(balls)
  {
    if balls <= 0 {
      assert NatToString(0) == "0";
    }
  }

  /** A player's name, or "Unknown" for an id no player has (or whose name is empty). */
  function PlayerName(players: seq<Player>, id: PlayerId): (name: string)
    ensures name != ""
    ensures (forall i :: 0 <= i < |players| ==> players[i].id != id) ==> name == "Unknown"
    ensures |players| > 0 && players[0].id == id && players[0].fullName != "" ==> name == players[0].fullName
    ensures forall i :: 0 <= i < |players| && players[i].id == id && (forall j :: 0 <= j < i ==> players[j].id != id) ==>
              name == (if players[i].fullName == "" then "Unknown" else players[i].fullName)
  {
    if players == [] then "Unknown"
    else if players[0].id == id then (if players[0].fullName == "" then "Unknown" else players[0].fullName)
    else PlayerName(players[1..], id)
  }

  /** `getDismissalString`: how a batter got out, naming the bowler and the fielder. */
  function DismissalText(players: seq<Player>, stats: BatsmanStats): (s: string)
    ensures !stats.isOut <==> s == "not out"
  {
    if !stats.isOut then "not out"
    else
      var bowler := PlayerName(players, stats.bowlerId.GetOr(""));
      var fielder := PlayerName(players, stats.fielderId.GetOr(""));
      var s := match stats.howOut
               case Some(Bowled) => "b. " + bowler
               case Some(Caught) => "c. " + fielder + " b. " + bowler
               case Some(LBW) => "lbw b. " + bowler
               case Some(RunOut) => "run out (" + fielder + ")"
               case None => "out";
      assert s[0] != 'n';
      s
  }

  /** The dismissal text names the kind of dismissal: caught and bowled both name the
      bowler last, a run out names only the fielder. */
  lemma DismissalTextCases(players: seq<Player>, stats: BatsmanStats)
    requires stats.isOut
    ensures var bowler := PlayerName(players, stats.bowlerId.GetOr(""));
            var fielder := PlayerName(players, stats.fielderId.GetOr(""));
            && (stats.howOut == Some(Bowled) ==> DismissalText(players, stats) == "b. " + bowler)
            && (stats.howOut == Some(Caught) ==> DismissalText(players, stats) == "c. " + fielder + " b. " + bowler)
            && (stats.howOut == Some(LBW) ==> DismissalText(players, stats) == "lbw b. " + bowler)
            && (stats.howOut == Some(RunOut) ==> DismissalText(players, stats) == "run out (" + fielder + ")")
            && (stats.howOut.None? ==> DismissalText(players, stats) == "out")
  {
  }

  datatype BattingRow = BattingRow(id: PlayerId, name: string, status: string, runs: nat, balls: nat, fours: nat, sixes: nat)

  datatype BowlingRow = BowlingRow(id: PlayerId, name: string, overs: string, runsConceded: nat, wickets: nat)

  /** A batter appears on the card once it has faced a ball or been dismissed. */
  predicate ShowsBatter(inn: Innings, id: PlayerId) {
    id in inn.batsmenStats && (inn.batsmenStats[id].balls > 0 || inn.batsmenStats[id].isOut)
  }

  /** A bowler appears on the card once it has bowled a ball. */
  predicate ShowsBowler(inn: Innings, id: PlayerId) {
    id in inn.bowlerStats && inn.bowlerStats[id].ballsBowled > 0
  }

  /** The batting rows for a squad, in squad order. */
  function BattingRows(players: seq<Player>, inn: Innings, squad: seq<PlayerId>): (rows: seq<BattingRow>)
    ensures |rows| == CountWhere(squad, id => ShowsBatter(inn, id))
    ensures forall r :: r in rows ==> r.id in squad && ShowsBatter(inn, r.id)
    ensures forall id :: id in squad && ShowsBatter(inn, id) ==> exists r :: r in rows && r.id == id
  {
    if squad == [] then []
    else
      var id := squad[0];
      var rest := BattingRows(players, inn, squad[1..]);
      if ShowsBatter(inn, id) then
        var s := inn.batsmenStats[id];
        [BattingRow(id, PlayerName(players, id), DismissalText(players, s), s.runs, s.balls, s.fours, s.sixes)] + rest
      else rest
  }

  /** The bowling rows for a squad, in squad order. */
  function BowlingRows(players: seq<Player>, inn: Innings, squad: seq<PlayerId>): (rows: seq<BowlingRow>)
    ensures |rows| == CountWhere(squad, id => ShowsBowler(inn, id))
    ensures forall r :: r in rows ==> r.id in squad && ShowsBowler(inn, r.id)
    ensures forall id :: id in squad && ShowsBowler(inn, id) ==> exists r :: r in rows && r.id == id
  {
    if squad == [] then []
    else
      var id := squad[0];
      var rest := BowlingRows(players, inn, squad[1..]);
      if ShowsBowler(inn, id) then
        var s := inn.bowlerStats[id];
        [BowlingRow(id, PlayerName(players, id), FormatOvers(s.ballsBowled), s.runsConceded, s.wickets)] + rest
      else rest
  }

  /** The card for one innings: batting rows from the batting side's squad and bowling rows
      from the bowling side's. A side the match does not list has no squad to read, and
      the card cannot be drawn. */
  datatype InningsCard = InningsCard(batting: seq<BattingRow>, bowling: seq<BowlingRow>)

  function Card(m: Match, players: seq<Player>, inn: Innings): (c: Option<InningsCard>)
    ensures c.Some? <==> Get(m.teams, inn.battingTeam).Some? && Get(m.teams, inn.bowlingTeam).Some?
    ensures c.Some? ==> (&& c.value.batting == BattingRows(players, inn, Get(m.teams, inn.battingTeam).value)
                         && c.value.bowling == BowlingRows(players, inn, Get(m.teams, inn.bowlingTeam).value))
  {
    match (Get(m.teams, inn.battingTeam), Get(m.teams, inn.bowlingTeam))
    case (Some(bat), Some(bowl)) => Some(InningsCard(BattingRows(players, inn, bat), BowlingRows(players, inn, bowl)))
    case _ => None
  }

  /** A side's hits in a bowl-out, counted attempt by attempt. */
  function BowlOutHits(attempts: seq<BowlOutAttempt>, team: Option<string>): (n: nat)
    ensures team.None? ==> n == 0
    ensures n <= |attempts|
  {
    if attempts == [] || team.None? then 0
    else (if attempts[0].teamName == team.value && attempts[0].outcome == Hit then 1 else 0)
         + BowlOutHits(attempts[1..], team)
  }

  /** The card's count is the count the bowl-out itself decides on. */
  lemma {:induction false} BowlOutHitsAgree(attempts: seq<BowlOutAttempt>, team: string)
    ensures BowlOutHits(attempts, Some(team)) == BowlOutRules.Hits(attempts, team)
  {
    if attempts != [] {
      BowlOutHitsAgree(attempts[1..], team);
    }
  }

  /** The hits shown for the two sides named on the bowl-out card: the first two team
      names (a side the match does not name shows none). */
  function BowlOutTally(m: Match, attempts: seq<BowlOutAttempt>): (nat, nat) {
    var ks := Keys(m.teams);
    (BowlOutHits(attempts, if |ks| > 0 then Some(ks[0]) else None),
     BowlOutHits(attempts, if |ks| > 1 then Some(ks[1]) else None))
  }

  /** Each side's tally is its hits among the attempts. */
  lemma BowlOutTallyCounts(m: Match, attempts: seq<BowlOutAttempt>)
    ensures var ks := Keys(m.teams);
            var hits := BowlOutTally(m, attempts);
            && (|ks| > 0 ==> hits.0 == BowlOutRules.Hits(attempts, ks[0]))
            && (|ks| > 1 ==> hits.1 == BowlOutRules.Hits(attempts, ks[1]))
            && (|ks| <= 1 ==> hits.1 == 0)
  {
    var ks := Keys(m.teams);
    if |ks| > 0 { BowlOutHitsAgree(attempts, ks[0]); }
    if |ks| > 1 { BowlOutHitsAgree(attempts, ks[1]); }
  }
}
