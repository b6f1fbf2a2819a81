/** A player's career as the player details view shows it: totals over the completed
    matches, and one line per completed match the player took part in. */
module PlayerDetails {
  import opened Common
  import opened Domain
  import Scorecard
  import Fees

  // ---------------------------------------------------------------- career totals

  datatype CareerStats = CareerStats(
    matchesPlayed: nat,
    totalRuns: nat,
    totalBallsFaced: nat,
    totalWickets: nat,
    totalBallsBowled: nat,
    matchesWon: nat,
    matchesLost: nat)

  const NoCareer := CareerStats(0, 0, 0, 0, 0, 0, 0)

  function Add(a: CareerStats, b: CareerStats): CareerStats {
    CareerStats(a.matchesPlayed + b.matchesPlayed, a.totalRuns + b.totalRuns,
                a.totalBallsFaced + b.totalBallsFaced, a.totalWickets + b.totalWickets,
                a.totalBallsBowled + b.totalBallsBowled, a.matchesWon + b.matchesWon,
                a.matchesLost + b.matchesLost)
  }

  /** A match counts towards a career once it is completed and has its innings recorded. */
  predicate Counted(m: Match) {
    m.status == Completed && m.innings.Some?
  }

  /** The player's team in a match, when it has a (non-empty) name. */
  predicate PlaysIn(m: Match, id: PlayerId) {
    Truthy(TeamOf(m.teams, id))
  }

  function RunsIn(inn: Option<Innings>, id: PlayerId): nat {
    if inn.Some? && id in inn.value.batsmenStats then inn.value.batsmenStats[id].runs else 0
  }

  function BallsFacedIn(inn: Option<Innings>, id: PlayerId): nat {
    if inn.Some? && id in inn.value.batsmenStats then inn.value.batsmenStats[id].balls else 0
  }

  function WicketsIn(inn: Option<Innings>, id: PlayerId): nat {
    if inn.Some? && id in inn.value.bowlerStats then inn.value.bowlerStats[id].wickets else 0
  }

  function BallsBowledIn(inn: Option<Innings>, id: PlayerId): nat {
    if inn.Some? && id in inn.value.bowlerStats then inn.value.bowlerStats[id].ballsBowled else 0
  }

  /** What one match adds to a career: an appearance, a win or a loss when the player has
      a team, and the figures of both innings of the match (tie-breaker innings are not
      part of them), whether or not the player has a team. */
  function Contribution(m: Match, id: PlayerId): (c: CareerStats)
    ensures c.matchesWon + c.matchesLost <= c.matchesPlayed <= 1
  {
    if !Counted(m) then NoCareer
    else
      var team := TeamOf(m.teams, id);
      var played := if Truthy(team) then 1 else 0;
      var won := if Truthy(team) && m.winner == team then 1 else 0;
      var lost := if Truthy(team) && m.winner != team && Truthy(m.winner) then 1 else 0;
      var inns := m.innings.value;
      CareerStats(played,
                  RunsIn(inns.innings1, id) + RunsIn(inns.innings2, id),
                  BallsFacedIn(inns.innings1, id) + BallsFacedIn(inns.innings2, id),
                  WicketsIn(inns.innings1, id) + WicketsIn(inns.innings2, id),
                  BallsBowledIn(inns.innings1, id) + BallsBowledIn(inns.innings2, id),
                  won, lost)
  }

  /** A match that is not counted adds nothing; a counted one adds an appearance exactly
      when the player has a team, a win when that team is the winner, a loss when another
      winner is set, and the runs and wickets of both innings. */
  lemma ContributionFacts(m: Match, id: PlayerId)
    ensures var c := Contribution(m, id);
            && (!Counted(m) ==> c == NoCareer)
            && (Counted(m) ==> (c.matchesPlayed == 1 <==> PlaysIn(m, id)))
            && (c.matchesWon == 1 <==> Counted(m) && PlaysIn(m, id) && m.winner == TeamOf(m.teams, id))
            && (c.matchesLost == 1 <==> Counted(m) && PlaysIn(m, id) && m.winner != TeamOf(m.teams, id) && Truthy(m.winner))
            && (Counted(m) ==> (var inns := m.innings.value;
                                && c.totalRuns == RunsIn(inns.innings1, id) + RunsIn(inns.innings2, id)
                                && c.totalWickets == WicketsIn(inns.innings1, id) + WicketsIn(inns.innings2, id)))
  {
  }

  /** The career over a list of matches, match by match. A player never wins and loses
      more matches than it played. */
  function CareerTotals(ms: seq<Match>, id: PlayerId): (t: CareerStats)
    ensures t.matchesWon + t.matchesLost <= t.matchesPlayed <= |ms|
  {
    if ms == [] then NoCareer else Add(Contribution(ms[0], id), CareerTotals(ms[1..], id))
  }

  /** The career over two lists of matches is the sum of the careers over each. */
  lemma {:induction false} CareerTotalsAppend(a: seq<Match>, b: seq<Match>, id: PlayerId)
    ensures CareerTotals(a + b, id) == Add(CareerTotals(a, id), CareerTotals(b, id))
  {
    if a != [] {
      CareerTotalsAppend(a[1..], b, id);
      var ab := a + b;
      assert ab[0] == a[0] && ab[1..] == a[1..] + b;
      var c := Contribution(a[0], id);
      assert CareerTotals(ab, id) == Add(c, CareerTotals(ab[1..], id));
      assert CareerTotals(a, id) == Add(c, CareerTotals(a[1..], id));
      AddAssociative(c, CareerTotals(a[1..], id), CareerTotals(b, id));
    } else {
      assert a + b == b;
      AddZero(CareerTotals(b, id));
    }
  }

  lemma AddZero(x: CareerStats)
    ensures Add(NoCareer, x) == x
  {
    assert Add(NoCareer, x) == CareerStats(x.matchesPlayed, x.totalRuns, x.totalBallsFaced, x.totalWickets,
                                           x.totalBallsBowled, x.matchesWon, x.matchesLost);
  }

  lemma AddAssociative(x: CareerStats, y: CareerStats, z: CareerStats)
    ensures Add(x, Add(y, z)) == Add(Add(x, y), z)
  {
  }

  /** The matches played are the counted matches in which the player has a team. */
  lemma {:induction false} MatchesPlayedCount(ms: seq<Match>, id: PlayerId)
    ensures CareerTotals(ms, id).matchesPlayed == CountWhere(ms, m => Counted(m) && PlaysIn(m, id))
  {
    if ms != [] {
      MatchesPlayedCount(ms[1..], id);
      ContributionFacts(ms[0], id);
    }
  }

  /** Matches that are not completed, or carry no innings, change nothing in a career. */
  lemma {:induction false} OnlyCountedMatches(ms: seq<Match>, id: PlayerId)
    ensures CareerTotals(ms, id) == CareerTotals(Filter(ms, Counted), id)
  {
    if ms != [] {
      OnlyCountedMatches(ms[1..], id);
      ContributionFacts(ms[0], id);
      var f := Filter(ms[1..], Counted);
      if Counted(ms[0]) {
        assert Filter(ms, Counted) == [ms[0]] + f;
        assert ([ms[0]] + f)[0] == ms[0] && ([ms[0]] + f)[1..] == f;
      } else {
        assert Filter(ms, Counted) == f;
        AddZero(CareerTotals(ms[1..], id));
      }
    }
  }

  /** `playerStats`: the seven counters, updated match by match. No player, no totals. */
  method PlayerStats(player: Option<Player>, matches: seq<Match>) returns (stats: Option<CareerStats>)
    ensures player.None? ==> stats.None?
    ensures player.Some? ==> stats == Some(CareerTotals(matches, player.value.id))
  {
    if player.None? {
      return None;
    }
    var id := player.value.id;
    var totals := NoCareer;
    for i := 0 to |matches|
      invariant totals == CareerTotals(matches[..i], id)
    {
      CareerTotalsAppend(matches[..i], [matches[i]], id);
      assert matches[..i + 1] == matches[..i] + [matches[i]];
      assert CareerTotals([matches[i]], id) == Contribution(matches[i], id) by {
        assert [matches[i]][1..] == [];
        AddZeroRight(Contribution(matches[i], id));
      }
      totals := TallyMatch(matches[i], id, totals);
    }
    assert matches[..|matches|] == matches;
    return Some(totals);
  }

  lemma AddZeroRight(x: CareerStats)
    ensures Add(x, NoCareer) == x
  {
    assert Add(x, NoCareer) == CareerStats(x.matchesPlayed, x.totalRuns, x.totalBallsFaced, x.totalWickets,
                                           x.totalBallsBowled, x.matchesWon, x.matchesLost);
  }

  /** One pass of the loop: a match that is not completed or has no innings is skipped;
      otherwise the appearance, the result and both innings' figures are counted. */
  method TallyMatch(m: Match, id: PlayerId, totals: CareerStats) returns (totals': CareerStats)
    ensures totals' == Add(totals, Contribution(m, id))
  {
    if m.status != Completed || m.innings.None? {
      AddZeroRight(totals);
      return totals;
    }
    totals' := totals;
    var playerTeam := TeamOf(m.teams, id);
    if Truthy(playerTeam) {
      totals' := totals'.(matchesPlayed := totals'.matchesPlayed + 1);
      if m.winner == playerTeam {
        totals' := totals'.(matchesWon := totals'.matchesWon + 1);
      } else if Truthy(m.winner) {
        totals' := totals'.(matchesLost := totals'.matchesLost + 1);
      }
    }
    totals' := ProcessInnings(m.innings.value.innings1, id, totals');
    totals' := ProcessInnings(m.innings.value.innings2, id, totals');
  }

  /** `processInnings` of the totals: the player's batting and bowling figures of one
      innings added to the running counters. */
  method ProcessInnings(inn: Option<Innings>, id: PlayerId, totals: CareerStats) returns (totals': CareerStats)
    ensures totals' == totals.(totalRuns := totals.totalRuns + RunsIn(inn, id),
                               totalBallsFaced := totals.totalBallsFaced + BallsFacedIn(inn, id),
                               totalWickets := totals.totalWickets + WicketsIn(inn, id),
                               totalBallsBowled := totals.totalBallsBowled + BallsBowledIn(inn, id))
  {
    totals' := totals;
    if inn.None? {
      return;
    }
    if id in inn.value.batsmenStats {
      var batStats := inn.value.batsmenStats[id];
      totals' := totals'.(totalRuns := totals'.totalRuns + batStats.runs,
                          totalBallsFaced := totals'.totalBallsFaced + batStats.balls);
    }
    if id in inn.value.bowlerStats {
      var bowlStats := inn.value.bowlerStats[id];
      totals' := totals'.(totalWickets := totals'.totalWickets + bowlStats.wickets,
                          totalBallsBowled := totals'.totalBallsBowled + bowlStats.ballsBowled);
    }
  }

  // ---------------------------------------------------------------- match lines

  datatype MatchResult = Win | Loss | Tie | NotAvailable

  datatype BowlingFigures = BowlingFigures(overs: string, runsConceded: nat, wickets: nat)

  datatype MatchLine = MatchLine(
    matchId: string,
    matchName: string,
    matchDate: string,
    result: MatchResult,
    resultDescription: string,
    batting: Option<BatsmanStats>,
    bowling: Option<BowlingFigures>)

  /** The player's result: a set winner is a win for the player's team and a loss
      otherwise; with no winner, a description mentioning a tie makes it a tie. */
  function Result(m: Match, teamName: string): (r: MatchResult)
    ensures r == Win <==> Truthy(m.winner) && m.winner.value == teamName
    ensures r == Loss <==> Truthy(m.winner) && m.winner.value != teamName
    ensures r == Tie <==> Fees.IsTie(m)
  {
    if Truthy(m.winner) then (if m.winner.value == teamName then Win else Loss)
    else if Fees.IsTie(m) then Tie
    else NotAvailable
  }

  /** The player's batting record: the later innings in which it faced a ball. */
  function Batting(inns: MatchInnings, id: PlayerId): (b: Option<BatsmanStats>)
    ensures b.Some? <==> BallsFacedIn(inns.innings1, id) > 0 || BallsFacedIn(inns.innings2, id) > 0
    ensures BallsFacedIn(inns.innings2, id) > 0 ==> b == Some(inns.innings2.value.batsmenStats[id])
    ensures BallsFacedIn(inns.innings2, id) == 0 && BallsFacedIn(inns.innings1, id) > 0 ==>
              b == Some(inns.innings1.value.batsmenStats[id])
  {
    if BallsFacedIn(inns.innings2, id) > 0 then Some(inns.innings2.value.batsmenStats[id])
    else if BallsFacedIn(inns.innings1, id) > 0 then Some(inns.innings1.value.batsmenStats[id])
    else None
  }

  function Figures(s: BowlerStats): BowlingFigures {
    BowlingFigures(Scorecard.FormatOvers(s.ballsBowled), s.runsConceded, s.wickets)
  }

  /** The player's bowling figures: from the later innings in which it bowled a ball. */
  function Bowling(inns: MatchInnings, id: PlayerId): (b: Option<BowlingFigures>)
    ensures b.Some? <==> BallsBowledIn(inns.innings1, id) > 0 || BallsBowledIn(inns.innings2, id) > 0
    ensures BallsBowledIn(inns.innings2, id) > 0 ==> b == Some(Figures(inns.innings2.value.bowlerStats[id]))
    ensures BallsBowledIn(inns.innings2, id) == 0 && BallsBowledIn(inns.innings1, id) > 0 ==>
              b == Some(Figures(inns.innings1.value.bowlerStats[id]))
  {
    if BallsBowledIn(inns.innings2, id) > 0 then Some(Figures(inns.innings2.value.bowlerStats[id]))
    else if BallsBowledIn(inns.innings1, id) > 0 then Some(Figures(inns.innings1.value.bowlerStats[id]))
    else None
  }

  /** A match gets a line when it is completed, lists the player and has its innings. */
  predicate Listed(m: Match, id: PlayerId) {
    m.status == Completed && id in m.players && m.innings.Some?
  }

  /** One match line. A player on no team is judged against the team name "N/A". */
  function Line(m: Match, id: PlayerId): MatchLine
    requires m.innings.Some?
  {
    var teamName := match TeamOf(m.teams, id)
                    case Some(t) => if t == "" then "N/A" else t
                    case None => "N/A";
    MatchLine(m.id, m.name, m.date, Result(m, teamName),
              if Truthy(m.resultDescription) then m.resultDescription.value else "Result not available",
              Batting(m.innings.value, id), Bowling(m.innings.value, id))
  }

  /** `playerMatchStats`: a line per listed match, in the order of the matches. */
  function MatchLines(ms: seq<Match>, id: PlayerId): (lines: seq<MatchLine>)
    ensures |lines| == CountWhere(ms, m => Listed(m, id))
  {
    if ms == [] then []
    else
      var rest := MatchLines(ms[1..], id);
      if Listed(ms[0], id) then [Line(ms[0], id)] + rest else rest
  }

  /** The lines are exactly those of the listed matches: each line comes from a match that
      lists the player, and each such match has its line. */
  lemma {:induction false} MatchLinesExactly(ms: seq<Match>, id: PlayerId)
    ensures forall l :: l in MatchLines(ms, id) ==> exists m :: m in ms && Listed(m, id) && l == Line(m, id)
    ensures forall m :: m in ms && Listed(m, id) ==> Line(m, id) in MatchLines(ms, id)
  {
    if ms != [] {
      MatchLinesExactly(ms[1..], id);
      assert forall m :: m in ms[1..] ==> m in ms;
      assert forall m :: m in ms ==> m == ms[0] || m in ms[1..];
    }
  }

  /** A player whose team won has a win on its line; a player whose team lost, a loss. */
  lemma LineResult(m: Match, id: PlayerId)
    requires m.innings.Some? && PlaysIn(m, id) && Truthy(m.winner)
    ensures Line(m, id).result == (if m.winner == TeamOf(m.teams, id) then Win else Loss)
  {
  }
}
