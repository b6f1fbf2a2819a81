/** The application's lists of players and matches and the handlers that change them:
    importing players, registering one, starting, adding and updating matches, and the
    matches shown on the other screens. */
module App {
  import opened Common
  import opened Domain

  // ---------------------------------------------------------------- player import

  /** The values of a JavaScript `Map` keyed by id, in insertion order. */
  function Values(d: Dict<Player>): (ps: seq<Player>)
    ensures |ps| == |d|
    ensures forall i :: 0 <= i < |d| ==> ps[i] == d[i].value
  {
    seq(|d|, i requires 0 <= i < |d| => d[i].value)
  }

  /** `new Map(players.map(p => [p.id, p]))`: each player filed under its id; a repeated id
      keeps its first position and its last player. */
  function Index(ps: seq<Player>): Dict<Player>
    decreases |ps|
  {
    if ps == [] then [] else Put(Index(ps[..|ps| - 1]), ps[|ps| - 1].id, ps[|ps| - 1])
  }

  /** An imported player is taken only when it has an id and a name. */
  predicate Importable(p: Player) {
    p.id != "" && p.fullName != ""
  }

  /** The map after the imports, one `set` per importable player, in order. */
  function Merge(d: Dict<Player>, imported: seq<Player>): Dict<Player>
    decreases |imported|
  {
    if imported == [] then d
    else
      var before := Merge(d, imported[..|imported| - 1]);
      var p := imported[|imported| - 1];
      if Importable(p) then Put(before, p.id, p) else before
  }

  /** The last importable player with the id, if any. */
  function LastImport(imported: seq<Player>, id: PlayerId): (r: Option<Player>)
    ensures r.Some? ==> r.value in imported && r.value.id == id && Importable(r.value)
    ensures r.None? <==> forall p :: p in imported && Importable(p) ==> p.id != id
    decreases |imported|
  {
    if imported == [] then None
    else
      var p := imported[|imported| - 1];
      var rest := imported[..|imported| - 1];
      assert imported == rest + [p];
      if Importable(p) && p.id == id then Some(p) else LastImport(rest, id)
  }

  /** After the import an id holds its last importable player; an id no importable player
      carries keeps what it held before. */
  lemma {:induction false} MergeGet(d: Dict<Player>, imported: seq<Player>, id: PlayerId)
    ensures Get(Merge(d, imported), id) == if LastImport(imported, id).Some? then LastImport(imported, id) else Get(d, id)
    decreases |imported|
  {
    if imported != [] {
      var p := imported[|imported| - 1];
      var rest := imported[..|imported| - 1];
      MergeGet(d, rest, id);
      if Importable(p) {
        GetPut(Merge(d, rest), p.id, p, id);
      }
    }
  }

  /** The import never moves or drops an existing entry: the old ids come first, in their
      old order, and new ids are appended. */
  lemma {:induction false} MergeKeepsOrder(d: Dict<Player>, imported: seq<Player>)
    ensures |Merge(d, imported)| >= |d|
    ensures Keys(Merge(d, imported))[..|d|] == Keys(d)
    decreases |imported|
  {
    if imported != [] {
      var rest := imported[..|imported| - 1];
      MergeKeepsOrder(d, rest);
      var before := Merge(d, rest);
      var p := imported[|imported| - 1];
      if Importable(p) {
        if p.id !in Keys(before) {
          assert Keys(Merge(d, imported))[..|d|] == (Keys(before) + [p.id])[..|d|];
        }
      }
    }
  }

  /** Importing players into a list whose ids are all different: the result has one entry
      per old player, in the old order, except that a player whose id is imported is
      replaced by the last import with that id. */
  lemma ImportReplacesInPlace(players: seq<Player>, imported: seq<Player>, i: nat)
    requires forall j, k :: 0 <= j < k < |players| ==> players[j].id != players[k].id
    requires i < |players|
    ensures var after := Values(Merge(Index(players), imported));
            i < |after| && after[i] == LastImport(imported, players[i].id).GetOr(players[i])
  {
    var d := Index(players);
    var merged := Merge(d, imported);
    var id := players[i].id;
    MergedKeys(players, imported);
    GetAt(merged, i);
    assert Get(merged, id) == Some(merged[i].value);
    IndexDistinct(players);
    GetAt(d, i);
    assert Get(d, id) == Some(players[i]);
    MergeGet(d, imported, id);
    assert Values(merged)[i] == merged[i].value;
  }

  /** With distinct ids, the first entries of the merged map are the old players' ids. */
  lemma MergedKeys(players: seq<Player>, imported: seq<Player>)
    requires forall j, k :: 0 <= j < k < |players| ==> players[j].id != players[k].id
    ensures |Merge(Index(players), imported)| >= |players|
    ensures forall j :: 0 <= j < |players| ==> Merge(Index(players), imported)[j].key == players[j].id
  {
    var d := Index(players);
    IndexDistinct(players);
    MergeKeepsOrder(d, imported);
    var ks := Keys(Merge(d, imported));
    forall j | 0 <= j < |players| ensures ks[j] == players[j].id {
      assert ks[j] == ks[..|d|][j] == Keys(d)[j];
    }
  }

  /** The entries of a player list filed by id, one per player. */
  function Entries(ps: seq<Player>): (d: Dict<Player>)
    ensures |d| == |ps| && forall j :: 0 <= j < |ps| ==> d[j] == Entry(ps[j].id, ps[j])
  {
    seq(|ps|, j requires 0 <= j < |ps| => Entry(ps[j].id, ps[j]))
  }

  /** Indexing players whose ids are all different keeps them all, in order. */
  lemma {:induction false} IndexDistinct(players: seq<Player>)
    requires forall j, k :: 0 <= j < k < |players| ==> players[j].id != players[k].id
    ensures Index(players) == Entries(players)
    decreases |players|
  {
    if players != [] {
      var rest := players[..|players| - 1];
      var p := players[|players| - 1];
      IndexDistinct(rest);
      assert p.id !in Keys(Entries(rest)) by {
        forall j | 0 <= j < |rest| ensures Keys(Entries(rest))[j] != p.id {
          assert Entries(rest)[j].key == rest[j].id;
        }
      }
      PutAppends(Entries(rest), p.id, p);
      assert Entries(rest) + [Entry(p.id, p)] == Entries(players);
    }
  }

  lemma {:induction false} PutAppends<V>(d: Dict<V>, k: string, v: V)
    requires k !in Keys(d)
    ensures Put(d, k, v) == d + [Entry(k, v)]
  {
    if d != [] {
      assert d[0].key != k;
      assert k !in Keys(d[1..]) by {
        assert Keys(d) == [d[0].key] + Keys(d[1..]);
      }
      PutAppends(d[1..], k, v);
      assert d == [d[0]] + d[1..];
    }
  }

  /** The value found for the key at position `i` is the entry there, when keys do not
      repeat before it. */
  lemma {:induction false} GetAt<V>(d: Dict<V>, i: nat)
    requires i < |d| && forall j :: 0 <= j < i ==> d[j].key != d[i].key
    ensures Get(d, d[i].key) == Some(d[i].value)
  {
    if i > 0 {
      GetAt(d[1..], i - 1);
    }
  }

  // ---------------------------------------------------------------- list updates

  /** `handleStartMatch` on the list: only the match with the id becomes live. */
  function StartMatchIn(ms: seq<Match>, id: string): (r: seq<Match>)
    ensures |r| == |ms|
    ensures forall i :: 0 <= i < |ms| && ms[i].id == id ==> r[i] == ms[i].(status := Live)
    ensures forall i :: 0 <= i < |ms| && ms[i].id != id ==> r[i] == ms[i]
  {
    seq(|ms|, i requires 0 <= i < |ms| => if ms[i].id == id then ms[i].(status := Live) else ms[i])
  }

  function IdOfMatch(m: Match): string { m.id }

  function IdOfPlayer(p: Player): string { p.id }

  /** `handleUpdateMatch` and `handleUpdatePlayer` on their lists
      (`xs.map(x => x.id === updated.id ? updated : x)`): the entry with the same id is
      replaced, every other entry is kept. */
  function ReplaceById<T>(xs: seq<T>, idOf: T -> string, updated: T): (r: seq<T>)
    ensures |r| == |xs|
    ensures forall i :: 0 <= i < |xs| ==> idOf(r[i]) == idOf(xs[i])
    ensures forall i :: 0 <= i < |xs| && idOf(xs[i]) == idOf(updated) ==> r[i] == updated
    ensures forall i :: 0 <= i < |xs| && idOf(xs[i]) != idOf(updated) ==> r[i] == xs[i]
  {
    seq(|xs|, i requires 0 <= i < |xs| => if idOf(xs[i]) == idOf(updated) then updated else xs[i])
  }

  /** Updating twice with the same match is updating once, and a later update of the same
      match wins. */
  lemma ReplaceMatchTwice(ms: seq<Match>, first: Match, second: Match)
    requires first.id == second.id
    ensures ReplaceById(ReplaceById(ms, IdOfMatch, first), IdOfMatch, second) == ReplaceById(ms, IdOfMatch, second)
  {
  }

  /** Starting a match that is then updated with a record carrying its own status keeps
      every other match as it was. */
  lemma StartThenUpdate(ms: seq<Match>, updated: Match)
    ensures forall i :: 0 <= i < |ms| && ms[i].id != updated.id ==>
                          ReplaceById(StartMatchIn(ms, updated.id), IdOfMatch, updated)[i] == ms[i]
    ensures forall i :: 0 <= i < |ms| && ms[i].id == updated.id ==>
                          ReplaceById(StartMatchIn(ms, updated.id), IdOfMatch, updated)[i] == updated
  {
  }

  /** `visibleMatches`: a completed match with a completion date is shown only when the
      date passes `recent` (the seven-day window); every other match is always shown. */
  function VisibleMatches(ms: seq<Match>, recent: string -> bool): (r: seq<Match>)
    ensures forall m :: m in ms && (m.status != Completed || !Truthy(m.completionDate)) ==> m in r
    ensures forall m :: m in r ==> m in ms
    ensures forall m :: m in r && m.status == Completed && Truthy(m.completionDate) ==> recent(m.completionDate.value)
  {
    Filter(ms, (m: Match) => m.status != Completed || !Truthy(m.completionDate) || recent(m.completionDate.value))
  }

  // ---------------------------------------------------------------- the application state

  class ClubApp {
    var players: seq<Player>
    var matches: seq<Match>
    var currentUser: Option<Player>
    var liveMatchId: Option<string>

    constructor (players: seq<Player>, matches: seq<Match>)
      ensures this.players == players && this.matches == matches
      ensures currentUser.None? && liveMatchId.None?
    {
      this.players := players;
      this.matches := matches;
      currentUser := None;
      liveMatchId := None;
    }

    /** `handleImportPlayers`: the players filed by id, then each importable imported
        player set under its id, and the map's values become the list. */
    method ImportPlayers(imported: seq<Player>)
      modifies this
      ensures players == Values(Merge(Index(old(players)), imported))
      ensures matches == old(matches) && currentUser == old(currentUser) && liveMatchId == old(liveMatchId)
    {
      var playersMap := Index(players);
      var i := 0;
      while i < |imported|
        invariant 0 <= i <= |imported|
        invariant playersMap == Merge(Index(players), imported[..i])
      {
        var importedPlayer := imported[i];
        assert imported[..i + 1][..i] == imported[..i];
        if importedPlayer.id != "" && importedPlayer.fullName != "" {
          playersMap := Put(playersMap, importedPlayer.id, importedPlayer);
        }
        i := i + 1;
      }
      assert imported[..|imported|] == imported;
      players := Values(playersMap);
    }

    /** `handleRegister`: the new player gets the next id and today's registration date,
        joins the end of the list and is signed in. */
    method Register(newPlayer: Player, today: string)
      modifies this
      ensures players == old(players) + [newPlayer.(id := "p" + NatToString(|old(players)| + 1), registrationDate := today)]
      ensures currentUser == Some(players[|players| - 1])
      ensures matches == old(matches) && liveMatchId == old(liveMatchId)
    {
      var player := newPlayer.(id := "p" + NatToString(|players| + 1), registrationDate := today);
      players := players + [player];
      currentUser := Some(player);
    }

    /** `handleUpdatePlayer`: the player with the same id is replaced, and so is the signed-in
        user when it is that player. */
    method UpdatePlayer(updated: Player)
      modifies this
      ensures players == ReplaceById(old(players), IdOfPlayer, updated)
      ensures currentUser == (if old(currentUser).Some? && old(currentUser).value.id == updated.id
                              then Some(updated) else old(currentUser))
      ensures matches == old(matches) && liveMatchId == old(liveMatchId)
    {
      players := ReplaceById(players, IdOfPlayer, updated);
      if currentUser.Some? && currentUser.value.id == updated.id {
        currentUser := Some(updated);
      }
    }

    /** `handleAddMatch`: the new match gets the next id and goes to the front. */
    method AddMatch(newMatch: Match)
      modifies this
      ensures matches == [newMatch.(id := "m" + NatToString(|old(matches)| + 1))] + old(matches)
      ensures players == old(players) && currentUser == old(currentUser) && liveMatchId == old(liveMatchId)
    {
      var m := newMatch.(id := "m" + NatToString(|matches| + 1));
      matches := [m] + matches;
    }

    /** `handleStartMatch`: the match goes live and becomes the one being scored. */
    method StartMatch(matchId: string)
      modifies this
      ensures matches == StartMatchIn(old(matches), matchId) && liveMatchId == Some(matchId)
      ensures players == old(players) && currentUser == old(currentUser)
    {
      matches := StartMatchIn(matches, matchId);
      liveMatchId := Some(matchId);
    }

    /** `handleUpdateMatch`. */
    method UpdateMatch(updated: Match)
      modifies this
      ensures matches == ReplaceById(old(matches), IdOfMatch, updated)
      ensures players == old(players) && currentUser == old(currentUser) && liveMatchId == old(liveMatchId)
    {
      matches := ReplaceById(matches, IdOfMatch, updated);
    }
  }
}
