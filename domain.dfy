/** The records of types.ts: players, matches, innings ledgers, tie-breakers and the
    live-play cursor. JavaScript objects whose key order matters (`teams`, `captains`)
    are kept as insertion-ordered entry lists; dictionaries whose order never matters
    (the per-player statistics and fee maps) are Dafny maps. */
module Domain {
  import opened Common

  // ---------------------------------------------------------------- JS objects

  datatype Entry<V> = Entry(key: string, value: V)

  /** An object literal: its entries in insertion order (`Object.keys` order). */
  type Dict<V> = seq<Entry<V>>

  function Keys<V>(d: Dict<V>): (ks: seq<string>)
    ensures |ks| == |d|
    ensures forall i :: 0 <= i < |d| ==> ks[i] == d[i].key
  {
    if d == [] then [] else [d[0].key] + Keys(d[1..])
  }

  /** `d[k]`, undefined when the key is absent. */
  function Get<V>(d: Dict<V>, k: string): (r: Option<V>)
    ensures r.None? <==> k !in Keys(d)
  {
    if d == [] then None else if d[0].key == k then Some(d[0].value) else Get(d[1..], k)
  }

  /** `{ ...d, [k]: v }`: an existing key keeps its position and takes the new value,
      a new key is appended. */
  function Put<V>(d: Dict<V>, k: string, v: V): (r: Dict<V>)
    ensures k in Keys(d) ==> Keys(r) == Keys(d)
    ensures k !in Keys(d) ==> Keys(r) == Keys(d) + [k]
  {
    if d == [] then [Entry(k, v)]
    else if d[0].key == k then [Entry(k, v)] + d[1..]
    else
      var rest := Put(d[1..], k, v);
      assert Keys([d[0]] + rest) == [d[0].key] + Keys(rest);
      [d[0]] + rest
  }

  /** Reading back after `Put`: the written key has the new value, every other key its old one. */
  lemma {:induction false} GetPut<V>(d: Dict<V>, k: string, v: V, k': string)
    ensures Get(Put(d, k, v), k') == if k' == k then Some(v) else Get(d, k')
  {
    if d != [] && d[0].key != k {
      GetPut(d[1..], k, v, k');
      assert Put(d, k, v)[1..] == Put(d[1..], k, v);
    }
  }

  /** `keys.find(name => name !== x) || ''`: the first key other than `x`, or '' when
      there is none (or when that key is itself ''). */
  function FirstOther(keys: seq<string>, x: string): (r: string)
    ensures (forall i :: 0 <= i < |keys| ==> keys[i] == x) ==> r == ""
    ensures r != "" ==> exists i :: 0 <= i < |keys| && keys[i] == r && r != x &&
                                   forall j :: 0 <= j < i ==> keys[j] == x
  {
    if keys == [] then ""
    else if keys[0] != x then keys[0]
    else
      var r := FirstOther(keys[1..], x);
      assert r != "" ==> exists i :: 0 <= i < |keys| && keys[i] == r && r != x &&
                                     forall j :: 0 <= j < i ==> keys[j] == x by {
        if r != "" {
          var i :| 0 <= i < |keys| - 1 && keys[1..][i] == r && r != x &&
                   forall j :: 0 <= j < i ==> keys[1..][j] == x;
          assert forall j :: 0 <= j < i + 1 ==> keys[j] == x by {
            forall j | 0 <= j < i + 1 ensures keys[j] == x {
              if j > 0 { assert keys[j] == keys[1..][j - 1]; }
            }
          }
        }
      }
      r
  }

  /** `Object.keys(teams).find(name => teams[name].includes(id))`: the first team whose
      squad lists the player. */
  function TeamOf(teams: Dict<seq<PlayerId>>, id: PlayerId): (r: Option<string>)
    ensures r.None? <==> forall i :: 0 <= i < |teams| ==> id !in teams[i].value
    ensures r.Some? ==> exists i :: 0 <= i < |teams| && teams[i].key == r.value && id in teams[i].value &&
                                   forall j :: 0 <= j < i ==> id !in teams[j].value
  {
    if teams == [] then None
    else if id in teams[0].value then Some(teams[0].key)
    else
      var r := TeamOf(teams[1..], id);
      assert r.Some? ==> exists i :: 0 <= i < |teams| && teams[i].key == r.value && id in teams[i].value &&
                                     forall j :: 0 <= j < i ==> id !in teams[j].value by {
        if r.Some? {
          var i :| 0 <= i < |teams| - 1 && teams[1..][i].key == r.value && id in teams[1..][i].value &&
                   forall j :: 0 <= j < i ==> id !in teams[1..][j].value;
          assert forall j :: 0 <= j < i + 1 ==> id !in teams[j].value by {
            forall j | 0 <= j < i + 1 ensures id !in teams[j].value {
              if j > 0 { assert teams[j] == teams[1..][j - 1]; }
            }
          }
        }
      }
      r
  }

  // ---------------------------------------------------------------- players

  datatype Gender = Male | Female | Other
  datatype PlayerRole = Batter | Bowler | AllRounder

  datatype Player = Player(
    id: PlayerId,
    fullName: string,
    email: string,
    dob: string,
    gender: Gender,
    role: PlayerRole,
    state: string,
    country: string,
    photoUrl: string,
    registrationDate: string,
    jerseyNumber: Option<int>)

  // ---------------------------------------------------------------- innings ledger

  datatype HowOut = Bowled | Caught | LBW | RunOut

  datatype BatsmanStats = BatsmanStats(
    runs: nat,
    balls: nat,
    isOut: bool,
    fours: nat,
    sixes: nat,
    howOut: Option<HowOut>,
    fielderId: Option<PlayerId>,
    bowlerId: Option<PlayerId>)

  datatype BowlerStats = BowlerStats(ballsBowled: nat, runsConceded: nat, wickets: nat)

  datatype FallOfWicket = FallOfWicket(score: nat, wicket: nat, batsmanId: PlayerId)

  datatype Innings = Innings(
    battingTeam: string,
    bowlingTeam: string,
    score: nat,
    wickets: nat,
    totalLegalBalls: nat,
    batsmenStats: map<PlayerId, BatsmanStats>,
    bowlerStats: map<PlayerId, BowlerStats>,
    fallOfWickets: seq<FallOfWicket>)

  /** The pair of innings the live engine keeps (`LiveMatchProgress.innings`). */
  datatype InningsPair = InningsPair(innings1: Innings, innings2: Innings)

  // ---------------------------------------------------------------- tie-breakers

  datatype Outcome = Hit | Miss

  datatype BowlOutAttempt = BowlOutAttempt(teamName: string, bowlerId: PlayerId, outcome: Outcome)

  datatype TieBreakerKind = SuperOver | BowlOut

  datatype TieBreaker = TieBreaker(
    kind: TieBreakerKind,
    superOver: Option<InningsPair>,
    bowlOutResult: Option<seq<BowlOutAttempt>>,
    resultDescription: Option<string>)

  // ---------------------------------------------------------------- live play

  datatype Stage = Toss | Decision | Openers | Play | InningsBreak | MatchOver | TieBreakerSelection | BowlOutPlay

  datatype LiveState = LiveState(
    onStrikeBatsmanId: PlayerId,
    offStrikeBatsmanId: PlayerId,
    currentBowlerId: PlayerId,
    previousBowlerId: PlayerId,
    currentOverEvents: seq<string>,
    target: int,
    isFreeHit: bool)

  const EmptyLiveState := LiveState("", "", "", "", [], 0, false)

  datatype TossDecision = Bat | Bowl

  /** Speeds are compared only, so an integer stands in for the recorded km/h figure. */
  datatype FastestBall = FastestBall(bowlerId: PlayerId, speed: int)

  // ---------------------------------------------------------------- matches

  datatype MatchStatus = Scheduled | Live | Completed

  datatype FeeStatus = Paid | Unpaid | Exempt

  datatype MatchInnings = MatchInnings(innings1: Option<Innings>, innings2: Option<Innings>)

  /** What the scorer stores on a live match after every change, so that a reopened match
      resumes where it stopped (`LiveMatchProgress`). */
  datatype LiveMatchProgress = LiveMatchProgress(stage: Stage, currentInningsNum: int, innings: InningsPair, liveState: LiveState)

  datatype Match = Match(
    id: string,
    name: string,
    date: string,
    time: Option<string>,
    players: seq<PlayerId>,
    teams: Dict<seq<PlayerId>>,
    captains: Option<Dict<PlayerId>>,
    status: MatchStatus,
    winner: Option<string>,
    resultDescription: Option<string>,
    fees: map<PlayerId, FeeStatus>,
    feePerPlayer: Option<int>,
    tossWinner: Option<string>,
    decision: Option<TossDecision>,
    totalOvers: Option<int>,
    innings: Option<MatchInnings>,
    liveProgress: Option<LiveMatchProgress>,
    completionDate: Option<string>,
    manOfTheMatchId: Option<PlayerId>,
    tieBreakers: Option<seq<TieBreaker>>,
    fastestBall: Option<FastestBall>)

  datatype Withdrawal = Withdrawal(id: string, amount: real, reason: string, date: string, personName: Option<string>)
}
