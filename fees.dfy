/** Match fees: what the club has collected, which losing players still owe for a match,
    and the per-match fee editor (each player's status and the fee per player). */
module Fees {
  import opened Common
  import opened Domain
  import Constants

  // ---------------------------------------------------------------- collected fees

  /** The players marked as having paid (`Object.values(fees).filter(s => s === 'Paid').length`). */
  function PaidCount(fees: map<PlayerId, FeeStatus>): (n: nat)
    ensures n <= |fees|
  {
    var paid := PaidSet(fees);
    CardinalitySubset(paid, fees.Keys);
    |paid|
  }

  function PaidSet(fees: map<PlayerId, FeeStatus>): (paid: set<PlayerId>)
    ensures paid <= fees.Keys
    ensures forall id :: id in paid <==> id in fees && fees[id] == Paid
  {
    set id | id in fees && fees[id] == Paid
  }

  lemma CardinalitySubset(a: set<PlayerId>, b: set<PlayerId>)
    requires a <= b
    ensures |a| <= |b|
  {
    assert b == a + (b - a);
  }

  /** Marking one player changes the paid count by at most one: up when the player becomes
      paid, down when a paid player becomes something else, and not otherwise. */
  lemma {:induction false} PaidCountUpdate(fees: map<PlayerId, FeeStatus>, id: PlayerId, status: FeeStatus)
    ensures var wasPaid := id in fees && fees[id] == Paid;
            PaidCount(fees[id := status]) ==
              PaidCount(fees) + (if status == Paid then 1 else 0) - (if wasPaid then 1 else 0)
  {
    PaidSetUpdate(fees, id, status);
    CardinalityWithout(PaidSet(fees), id);
    CardinalityWithout(PaidSet(fees[id := status]), id);
  }

  /** Marking one player leaves everyone else's paid status alone. */
  lemma PaidSetUpdate(fees: map<PlayerId, FeeStatus>, id: PlayerId, status: FeeStatus)
    ensures PaidSet(fees[id := status]) - {id} == PaidSet(fees) - {id}
    ensures id in PaidSet(fees[id := status]) <==> status == Paid
  {
  }

  lemma CardinalityWithout(a: set<PlayerId>, x: PlayerId)
    ensures |a| == |a - {x}| + (if x in a then 1 else 0)
  {
    if x in a {
      assert a == (a - {x}) + {x};
    } else {
      assert a - {x} == a;
    }
  }

  /** The fee a match charges each player: its own, or the club default. */
  function FeeOf(m: Match): int {
    m.feePerPlayer.GetOr(Constants.MatchFeePerPlayer)
  }

  /** `totalFeesCollected`: over the completed matches, the paid players times the fee. */
  function TotalFeesCollected(ms: seq<Match>): (total: int)
    ensures (forall i :: 0 <= i < |ms| ==> ms[i].status != Completed) ==> total == 0
  {
    if ms == [] then 0
    else MatchFeesCollected(ms[0]) + TotalFeesCollected(ms[1..])
  }

  /** What one match contributes: its paid players times its fee, once it is completed. */
  function MatchFeesCollected(m: Match): int {
    if m.status == Completed then PaidCount(m.fees) * FeeOf(m) else 0
  }

  /** The total over two lists of matches is the sum of their totals. */
  lemma {:induction false} TotalFeesAppend(a: seq<Match>, b: seq<Match>)
    ensures TotalFeesCollected(a + b) == TotalFeesCollected(a) + TotalFeesCollected(b)
  {
    if a != [] {
      TotalFeesAppend(a[1..], b);
      assert (a + b)[0] == a[0] && (a + b)[1..] == a[1..] + b;
    } else {
      assert a + b == b;
    }
  }

  /** With fees that are not negative, nothing is ever owed back: the total is at least 0
      and at most every listed player paying. */
  lemma {:induction false} TotalFeesBounds(ms: seq<Match>)
    requires forall i :: 0 <= i < |ms| ==> FeeOf(ms[i]) >= 0
    ensures 0 <= TotalFeesCollected(ms) <= TotalFeesOwed(ms)
  {
    if ms != [] {
      TotalFeesBounds(ms[1..]);
      MatchFeesBounds(ms[0]);
    }
  }

  /** One match collects between nothing and every listed player paying. */
  lemma MatchFeesBounds(m: Match)
    requires FeeOf(m) >= 0
    ensures 0 <= MatchFeesCollected(m) <= MatchFeesOwed(m)
  {
    if m.status == Completed {
      MultiplyBound(PaidCount(m.fees), |m.fees|, FeeOf(m));
    }
  }

  lemma MultiplyBound(a: nat, b: nat, c: nat)
    requires a <= b
    ensures a * c <= b * c
  {
  }

  /** What the completed matches would bring in if every listed player paid. */
  function TotalFeesOwed(ms: seq<Match>): int {
    if ms == [] then 0
    else MatchFeesOwed(ms[0]) + TotalFeesOwed(ms[1..])
  }

  function MatchFeesOwed(m: Match): int {
    if m.status == Completed then |m.fees| * FeeOf(m) else 0
  }

  // ---------------------------------------------------------------- ties and losers

  /** A tie: no winner and a description mentioning a tie (any case). Fees of a tied
      match cannot be edited. */
  predicate IsTie(m: Match) {
    !Truthy(m.winner) && m.resultDescription.Some? && Includes(Lower(m.resultDescription.value), "tie")
  }

  /** The losing side: the first team other than the winner; "" when there is no winner or
      no other team. */
  function LoserTeam(m: Match): (name: string)
    ensures !Truthy(m.winner) ==> name == ""
    ensures name != "" ==> name in Keys(m.teams) && Some(name) != m.winner
  {
    if Truthy(m.winner) then FirstOther(Keys(m.teams), m.winner.value) else ""
  }

  /** The squad of the losing side (empty when there is none). */
  function LoserSquad(m: Match): seq<PlayerId> {
    var loser := LoserTeam(m);
    if loser != "" then Get(m.teams, loser).value else []
  }

  /** `players.find(p => p.id === id)`. */
  function FindPlayer(players: seq<Player>, id: PlayerId): (p: Option<Player>)
    ensures p.None? <==> forall i :: 0 <= i < |players| ==> players[i].id != id
    ensures p.Some? ==> p.value in players && p.value.id == id
  {
    if players == [] then None
    else if players[0].id == id then Some(players[0])
    else FindPlayer(players[1..], id)
  }

  /** `ids.map(getPlayer).filter(p => !!p)`: the known players among the ids, in id order. */
  function KnownPlayers(players: seq<Player>, ids: seq<PlayerId>): (ps: seq<Player>)
    ensures |ps| <= |ids|
    ensures forall p :: p in ps ==> p in players && p.id in ids
    ensures forall id :: id in ids && FindPlayer(players, id).Some? ==> FindPlayer(players, id).value in ps
  {
    if ids == [] then []
    else
      var rest := KnownPlayers(players, ids[1..]);
      assert forall id :: id in ids[1..] ==> id in ids;
      match FindPlayer(players, ids[0])
      case Some(p) => [p] + rest
      case None => rest
  }

  /** The fee editor's list: the losing side's players when there is a winner, every
      player of the match otherwise. */
  function PlayersToShow(m: Match, players: seq<Player>): (ps: seq<Player>)
    ensures Truthy(m.winner) ==> ps == KnownPlayers(players, LoserSquad(m))
    ensures !Truthy(m.winner) ==> ps == KnownPlayers(players, m.players)
  {
    if Truthy(m.winner) then KnownPlayers(players, LoserSquad(m)) else KnownPlayers(players, m.players)
  }

  /** A tied match's editor lists every player of the match. */
  lemma TieShowsEveryone(m: Match, players: seq<Player>)
    requires IsTie(m)
    ensures PlayersToShow(m, players) == KnownPlayers(players, m.players)
  {
  }

  // ---------------------------------------------------------------- reminders

  /** A reminder: the match, its losing side and the players of that side who have not paid. */
  datatype Reminder = Reminder(m: Match, unpaidLosers: seq<Player>, loserTeamName: string)

  /** The ids on a squad whose status is exactly 'Unpaid' (no status, or 'Exempt', is not). */
  function UnpaidIds(squad: seq<PlayerId>, fees: map<PlayerId, FeeStatus>): (ids: seq<PlayerId>)
    ensures forall id :: id in ids <==> id in squad && id in fees && fees[id] == Unpaid
  {
    Filter(squad, id => id in fees && fees[id] == Unpaid)
  }

  /** The reminder for one match, if any: there must be a winner, a losing side, and a
      known player of that side whose fee is unpaid. */
  function ReminderFor(m: Match, players: seq<Player>): (r: Option<Reminder>)
    ensures r.Some? <==> Truthy(m.winner) && LoserTeam(m) != "" &&
                         |KnownPlayers(players, UnpaidIds(LoserSquad(m), m.fees))| > 0
    ensures r.Some? ==> r.value.m == m && r.value.loserTeamName == LoserTeam(m)
    ensures r.Some? ==> forall p :: p in r.value.unpaidLosers ==>
                          p in players && p.id in LoserSquad(m) && p.id in m.fees && m.fees[p.id] == Unpaid
    ensures r.Some? ==> forall id :: (id in LoserSquad(m) && id in m.fees && m.fees[id] == Unpaid &&
                                      FindPlayer(players, id).Some?) ==> FindPlayer(players, id).value in r.value.unpaidLosers
  {
    if !Truthy(m.winner) then None
    else
      var loser := LoserTeam(m);
      if loser == "" then None
      else
        var unpaid := KnownPlayers(players, UnpaidIds(LoserSquad(m), m.fees));
        if |unpaid| == 0 then None else Some(Reminder(m, unpaid, loser))
  }

  /** `matchesWithUnpaidLosers`: the reminders of the completed matches, in match order. */
  function MatchesWithUnpaidLosers(ms: seq<Match>, players: seq<Player>): (rs: seq<Reminder>)
    ensures |rs| <= |ms|
    ensures forall r :: r in rs ==> r.m in ms && r.m.status == Completed && ReminderFor(r.m, players) == Some(r)
    ensures forall m :: m in ms && m.status == Completed && ReminderFor(m, players).Some? ==>
                          ReminderFor(m, players).value in rs
  {
    if ms == [] then []
    else
      var rest := MatchesWithUnpaidLosers(ms[1..], players);
      assert forall m :: m in ms[1..] ==> m in ms;
      if ms[0].status == Completed && ReminderFor(ms[0], players).Some? then
        [ReminderFor(ms[0], players).value] + rest
      else rest
  }

  /** A tied match never gets a reminder. */
  lemma TieHasNoReminder(m: Match, players: seq<Player>)
    requires IsTie(m)
    ensures ReminderFor(m, players).None?
  {
  }

  // ---------------------------------------------------------------- saving

  /** `handleSave`: the match with the edited fees and fee per player, and nothing else
      changed. */
  function SaveFees(m: Match, fees: map<PlayerId, FeeStatus>, feePerPlayer: int): (r: Match)
    ensures r.fees == fees && r.feePerPlayer == Some(feePerPlayer) && FeeOf(r) == feePerPlayer
    ensures r.(fees := m.fees, feePerPlayer := m.feePerPlayer) == m
  {
    m.(fees := fees, feePerPlayer := Some(feePerPlayer))
  }

  /** The fee editor's state: the statuses being edited and the fee per player. */
  class FeeEditor {
    const m: Match
    var fees: map<PlayerId, FeeStatus>
    var feePerPlayer: int

    /** Opening the editor copies the match's statuses and its fee (or the default). */
    constructor (m: Match)
      ensures this.m == m && fees == m.fees && feePerPlayer == FeeOf(m)
    {
      this.m := m;
      fees := m.fees;
      feePerPlayer := m.feePerPlayer.GetOr(Constants.MatchFeePerPlayer);
    }

    /** `handleStatusChange`: one player's status is set; every other entry is kept. */
    method StatusChange(playerId: PlayerId, status: FeeStatus)
      modifies this
      ensures fees == old(fees)[playerId := status] && feePerPlayer == old(feePerPlayer)
      ensures forall id :: id != playerId ==> (id in fees <==> id in old(fees)) &&
                                              (id in fees ==> fees[id] == old(fees)[id])
    {
      fees := fees[playerId := status];
    }

    /** The fee amount input: `parseInt(value, 10) || 0`, where `parsed` is what `parseInt`
        gave (None for NaN); NaN and 0 both store 0. */
    method SetFeeAmount(parsed: Option<int>)
      modifies this
      ensures feePerPlayer == (if parsed.Some? then parsed.value else 0) && fees == old(fees)
    {
      feePerPlayer := parsed.GetOr(0);
    }

    /** Saving hands the edited statuses and fee to `handleSave`. */
    method Save() returns (saved: Match)
      ensures saved == SaveFees(m, fees, feePerPlayer)
      ensures saved.fees == fees && FeeOf(saved) == feePerPlayer
    {
      saved := SaveFees(m, fees, feePerPlayer);
    }
  }

  /** Opening the editor and saving straight away changes nothing but the fee being
      recorded on the match. */
  lemma SaveUnchanged(m: Match)
    ensures SaveFees(m, m.fees, FeeOf(m)).fees == m.fees
    ensures TotalFeesCollected([SaveFees(m, m.fees, FeeOf(m))]) == TotalFeesCollected([m])
  {
  }
}
