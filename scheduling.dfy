/** The match scheduling form: picking each side's captain and squad, the players still
    free to pick, and turning a complete form into a scheduled match. */
module Scheduling {
  import opened Common
  import opened Domain
  import Constants
  import Events
  import Dashboard

  datatype Side = A | B

  /** The squad after choosing a captain: the previous captain (when there was one) leaves,
      and the new captain is added once, keeping every other player. */
  function CaptainRoster(prev: seq<PlayerId>, oldCaptain: Option<PlayerId>, captain: PlayerId): (r: seq<PlayerId>)
    ensures captain in r
    ensures forall i, j :: 0 <= i < j < |r| ==> r[i] != r[j]
    ensures Truthy(oldCaptain) && oldCaptain.value != captain ==> oldCaptain.value !in r
    ensures forall id :: id in r ==> id == captain || (id in prev && !(Truthy(oldCaptain) && id == oldCaptain.value))
    ensures forall id :: id in prev && !(Truthy(oldCaptain) && id == oldCaptain.value) ==> id in r
  {
    var kept := if Truthy(oldCaptain) then Filter(prev, id => id != oldCaptain.value) else prev;
    var r := Dedup(kept + [captain]);
    assert captain == (kept + [captain])[|kept|];
    assert forall id :: id in prev && !(Truthy(oldCaptain) && id == oldCaptain.value) ==> id in kept + [captain];
    r
  }

  /** `getPlayerName`: the first player with the id, or "" for an unknown id. */
  function NameOf(players: seq<Player>, id: PlayerId): string {
    if players == [] then ""
    else if players[0].id == id then players[0].fullName
    else NameOf(players[1..], id)
  }

  /** A side's name: its captain's name followed by "'s XI", or the placeholder. */
  function TeamName(players: seq<Player>, captain: Option<PlayerId>, placeholder: string): (name: string)
    ensures !Truthy(captain) ==> name == placeholder
    ensures Truthy(captain) ==> name == NameOf(players, captain.value) + "'s XI"
  {
    if Truthy(captain) then NameOf(players, captain.value) + "'s XI" else placeholder
  }

  /** Every player of a squad list owes the fee. */
  function UnpaidFees(ids: seq<PlayerId>): (fees: map<PlayerId, FeeStatus>)
    ensures fees.Keys == set id | id in ids
    ensures forall id :: id in fees ==> fees[id] == Unpaid
  {
    map id | id in ids :: Unpaid
  }

  /** `parseInt(totalOvers, 10)` on the overs input; NaN (no leading digit) is none. */
  function ParsedOvers(overs: string): (n: Option<int>)
    ensures n.Some? <==> overs != [] && IsDigit(overs[0])
  {
    match Events.ParseLeadingInt(overs)
    case Some(k) => Some(k)
    case None => None
  }

  /** The overs number typed into the form is the one stored, also when text follows it. */
  lemma ParsedOversReads(n: nat, rest: string)
    requires rest == [] || !IsDigit(rest[0])
    ensures ParsedOvers(NatToString(n) + rest) == Some(n)
  {
    Events.ParseLeadingIntReads(n, rest);
  }

  /** What the submit button needs before it creates a match. */
  predicate Complete(name: string, date: string, time: string, overs: string,
                     captainA: Option<PlayerId>, captainB: Option<PlayerId>,
                     teamA: seq<PlayerId>, teamB: seq<PlayerId>)
  {
    name != "" && date != "" && time != "" && overs != "" && Truthy(captainA) && Truthy(captainB)
    && |teamA| >= 11 && |teamB| >= 11
  }

  /** The match a complete form creates (its id is given when it is added to the list):
      scheduled, both squads under their captains' team names, every selected player
      once, each owing the default fee, and no tie-breakers yet. */
  function CreateMatch(players: seq<Player>, name: string, date: string, time: string, overs: string,
                       captainA: Option<PlayerId>, captainB: Option<PlayerId>,
                       teamA: seq<PlayerId>, teamB: seq<PlayerId>): (m: Option<Match>)
    ensures m.Some? <==> Complete(name, date, time, overs, captainA, captainB, teamA, teamB)
    ensures m.Some? ==>
              && m.value.status == Scheduled
              && m.value.name == name && m.value.date == date && m.value.time == Some(time)
              && (forall id :: id in m.value.players <==> id in teamA || id in teamB)
              && (forall i, j :: 0 <= i < j < |m.value.players| ==> m.value.players[i] != m.value.players[j])
              && m.value.fees.Keys == (set id | id in m.value.players)
              && (forall id :: id in m.value.fees ==> m.value.fees[id] == Unpaid)
              && m.value.feePerPlayer == Some(Constants.MatchFeePerPlayer)
              && m.value.tieBreakers == Some([])
              && m.value.totalOvers == ParsedOvers(overs)
              && m.value.winner.None? && m.value.innings.None?
  {
    if !Complete(name, date, time, overs, captainA, captainB, teamA, teamB) then None
    else
      var nameA := TeamName(players, captainA, "Team A");
      var nameB := TeamName(players, captainB, "Team B");
      var all := Dedup(teamA + teamB);
      assert forall id :: id in teamA || id in teamB <==> id in teamA + teamB;
      Some(Match("", name, date, Some(time), all,
                 Put(Put([], nameA, teamA), nameB, teamB),
                 Some(Put(Put([], nameA, captainA.value), nameB, captainB.value)),
                 Scheduled, None, None, UnpaidFees(all), Some(Constants.MatchFeePerPlayer),
                 None, None, ParsedOvers(overs), None, None, None, None, Some([]), None))
  }

  /** With two differently named captains the match lists two sides, A's first, each with
      its squad; with equal names the second squad overwrites the first under one name. */
  lemma CreatedSides(players: seq<Player>, name: string, date: string, time: string, overs: string,
                     captainA: Option<PlayerId>, captainB: Option<PlayerId>, teamA: seq<PlayerId>, teamB: seq<PlayerId>)
    requires Complete(name, date, time, overs, captainA, captainB, teamA, teamB)
    ensures var m := CreateMatch(players, name, date, time, overs, captainA, captainB, teamA, teamB).value;
            var nameA, nameB := TeamName(players, captainA, "Team A"), TeamName(players, captainB, "Team B");
            && (nameA != nameB ==> Keys(m.teams) == [nameA, nameB] && Get(m.teams, nameA) == Some(teamA)
                                   && Get(m.teams, nameB) == Some(teamB))
            && (nameA == nameB ==> Keys(m.teams) == [nameA] && Get(m.teams, nameA) == Some(teamB))
  {
    var nameA, nameB := TeamName(players, captainA, "Team A"), TeamName(players, captainB, "Team B");
    var one: Dict<seq<PlayerId>> := Put([], nameA, teamA);
    GetPut(one, nameB, teamB, nameA);
    GetPut(one, nameB, teamB, nameB);
    GetPut([], nameA, teamA, nameA);
  }

  /** The scheduling form's state. */
  class MatchForm {
    const players: seq<Player>
    var matchName: string
    var matchDate: string
    var matchTime: string
    var totalOvers: string
    var captainA: Option<PlayerId>
    var captainB: Option<PlayerId>
    var teamA: seq<PlayerId>
    var teamB: seq<PlayerId>
    var editingTeam: Side
    var searchTerm: string

    /** A fresh form: today's date, 07:00, 10 overs, no captains and empty squads. */
    constructor (players: seq<Player>, today: string)
      ensures this.players == players && matchName == "" && matchDate == today && matchTime == "07:00"
      ensures totalOvers == "10" && captainA.None? && captainB.None? && teamA == [] && teamB == []
      ensures editingTeam == A && searchTerm == ""
    {
      this.players := players;
      matchName, matchDate, matchTime, totalOvers := "", today, "07:00", "10";
      captainA, captainB := None, None;
      teamA, teamB := [], [];
      editingTeam := A;
      searchTerm := "";
    }

    /** The squad being edited. */
    function Selected(): seq<PlayerId>
      reads this
    {
      if editingTeam == A then teamA else teamB
    }

    /** `handleCaptainSelect`: the side's previous captain leaves its squad, the new captain
        is recorded and joins the squad once; the other side is untouched. */
    method SelectCaptain(playerId: PlayerId, team: Side)
      modifies this
      ensures team == A ==> teamA == CaptainRoster(old(teamA), old(captainA), playerId) && captainA == Some(playerId)
                            && teamB == old(teamB) && captainB == old(captainB)
      ensures team == B ==> teamB == CaptainRoster(old(teamB), old(captainB), playerId) && captainB == Some(playerId)
                            && teamA == old(teamA) && captainA == old(captainA)
      ensures matchName == old(matchName) && editingTeam == old(editingTeam) && searchTerm == old(searchTerm)
    {
      if team == A {
        teamA := CaptainRoster(teamA, captainA, playerId);
        captainA := Some(playerId);
      } else {
        teamB := CaptainRoster(teamB, captainB, playerId);
        captainB := Some(playerId);
      }
    }

    /** `addPlayer`: the player is appended to the squad being edited. */
    method AddPlayer(playerId: PlayerId)
      modifies this
      ensures editingTeam == A ==> teamA == old(teamA) + [playerId] && teamB == old(teamB)
      ensures editingTeam == B ==> teamB == old(teamB) + [playerId] && teamA == old(teamA)
      ensures captainA == old(captainA) && captainB == old(captainB) && editingTeam == old(editingTeam)
    {
      if editingTeam == A {
        teamA := teamA + [playerId];
      } else {
        teamB := teamB + [playerId];
      }
    }

    /** `removePlayer`: the edited side's captain stays; any other id leaves the edited squad
        (every copy of it), and nothing else changes. */
    method RemovePlayer(playerId: PlayerId)
      modifies this
      ensures var captain := if old(editingTeam) == A then old(captainA) else old(captainB);
              captain == Some(playerId) ==> unchanged(this)
      ensures var captain := if old(editingTeam) == A then old(captainA) else old(captainB);
              captain != Some(playerId) ==>
                && Selected() == Filter(old(Selected()), id => id != playerId)
                && playerId !in Selected()
                && (forall id :: id in old(Selected()) && id != playerId ==> id in Selected())
      ensures editingTeam == old(editingTeam) && captainA == old(captainA) && captainB == old(captainB)
      ensures editingTeam == A ==> teamB == old(teamB)
      ensures editingTeam == B ==> teamA == old(teamA)
    {
      if (editingTeam == A && captainA == Some(playerId)) || (editingTeam == B && captainB == Some(playerId)) {
        return;
      }
      if editingTeam == A {
        teamA := Filter(teamA, id => id != playerId);
      } else {
        teamB := Filter(teamB, id => id != playerId);
      }
    }

    /** `availablePlayers`: players in neither squad whom the search matches. */
    function AvailablePlayers(): (ps: seq<Player>)
      reads this
      ensures forall p :: p in ps ==> (p in players && p.id !in teamA && p.id !in teamB
                                     && Dashboard.MatchesSearch(p, searchTerm))
      ensures forall p :: p in players && p.id !in teamA && p.id !in teamB && Dashboard.MatchesSearch(p, searchTerm)
                          ==> p in ps
    {
      var a, b, term := teamA, teamB, searchTerm;
      var free := Filter(players, (p: Player) => p.id !in a && p.id !in b);
      Filter(free, (p: Player) => Dashboard.MatchesSearch(p, term))
    }

    /** `availablePlayersForCaptainB`: everyone but side A's captain. */
    function CaptainBOptions(): (ps: seq<Player>)
      reads this
      ensures forall p :: p in ps ==> p in players && Some(p.id) != captainA
      ensures forall p :: p in players && Some(p.id) != captainA ==> p in ps
    {
      var captain := captainA;
      Filter(players, (p: Player) => Some(p.id) != captain)
    }

    /** `handleSubmit`: an incomplete form creates nothing and stays as it is; a complete one
        creates the match and resets the form for the next one (dated `today`). */
    method Submit(today: string) returns (created: Option<Match>)
      modifies this
      ensures created == CreateMatch(players, old(matchName), old(matchDate), old(matchTime), old(totalOvers),
                                     old(captainA), old(captainB), old(teamA), old(teamB))
      ensures created.None? ==> unchanged(this)
      ensures created.Some? ==> && matchName == "" && matchDate == today && matchTime == "07:00" && totalOvers == "10"
                                && captainA.None? && captainB.None? && teamA == [] && teamB == [] && searchTerm == ""
    {
      var name, date, time, overs := matchName, matchDate, matchTime, totalOvers;
      var capA, capB, squadA, squadB := captainA, captainB, teamA, teamB;
      if name == "" || date == "" || time == "" || overs == "" || !Truthy(capA) || !Truthy(capB) {
        assert !Complete(name, date, time, overs, capA, capB, squadA, squadB);
        return None;
      }
      if |squadA| < 11 || |squadB| < 11 {
        assert !Complete(name, date, time, overs, capA, capB, squadA, squadB);
        return None;
      }
      created := CreateMatch(players, name, date, time, overs, capA, capB, squadA, squadB);
      Reset(today);
    }

    /** The form after a match is created: empty again and dated `today`. */
    method Reset(today: string)
      modifies this
      ensures matchName == "" && matchDate == today && matchTime == "07:00" && totalOvers == "10"
      ensures captainA.None? && captainB.None? && teamA == [] && teamB == [] && searchTerm == ""
      ensures editingTeam == old(editingTeam)
    {
      matchName, matchDate, matchTime, totalOvers := "", today, "07:00", "10";
      captainA, captainB := None, None;
      teamA, teamB := [], [];
      searchTerm := "";
    }
  }

  /** A player picked for either squad is never offered again. */
  lemma PickedNotOffered(f: MatchForm, p: Player)
    requires p.id in f.teamA || p.id in f.teamB
    ensures p !in f.AvailablePlayers()
  {
  }
}
