/** The bowl-out tie-breaker: each side's five bowlers bowl alternately at an unguarded
    wicket, the first team first; the contest stops as soon as one side can no longer be
    caught, and more hits wins. */
module BowlOutRules {
  import opened Common
  import opened Domain

  datatype BowlOutState = BowlOutState(
    attempts: seq<BowlOutAttempt>,
    currentTeam: string,
    currentTurn: int,
    teamABowlers: seq<PlayerId>,
    teamBBowlers: seq<PlayerId>)

  const NoBowlOut := BowlOutState([], "", 1, [], [])

  /** What one attempt leads to: the contest goes on, or it is decided with the full list
      of attempts, the winner ("" for a tie) and the result text. */
  datatype AttemptResult =
    | Continue(next: BowlOutState)
    | Decided(attempts: seq<BowlOutAttempt>, winner: string, description: string)

  /** Attempts a team has made. */
  function Taken(attempts: seq<BowlOutAttempt>, team: string): (n: nat)
    ensures n <= |attempts|
  {
    CountWhere(attempts, (a: BowlOutAttempt) => a.teamName == team)
  }

  /** Attempts of a team that hit the stumps. */
  function Hits(attempts: seq<BowlOutAttempt>, team: string): (n: nat)
    ensures n <= |attempts|
  {
    CountWhere(attempts, (a: BowlOutAttempt) => a.teamName == team && a.outcome == Hit)
  }

  /** `list[i]`, or "" when the list has no such position. */
  function BowlerAt(bowlers: seq<PlayerId>, i: int): PlayerId {
    if 0 <= i < |bowlers| then bowlers[i] else ""
  }

  /** One attempt by the team whose turn it is. The contest is over after the fifth round,
      or when one side's hits exceed the other's plus the attempts the other has left
      (counted before this attempt). */
  function Attempt(b: BowlOutState, teamA: string, teamB: string, outcome: Outcome): AttemptResult {
    var bowlerId := if b.currentTeam == teamA then BowlerAt(b.teamABowlers, b.currentTurn - 1)
                    else BowlerAt(b.teamBBowlers, b.currentTurn - 1);
    var newAttempts := b.attempts + [BowlOutAttempt(b.currentTeam, bowlerId, outcome)];
    var hitsA, hitsB := Hits(newAttempts, teamA), Hits(newAttempts, teamB);
    var nextTeam := if b.currentTeam == teamA then teamB else teamA;
    var nextTurn := if nextTeam == teamA then b.currentTurn + 1 else b.currentTurn;
    var over := nextTurn > 5
                || hitsA > hitsB + (5 - Taken(b.attempts, teamB))
                || hitsB > hitsA + (5 - Taken(b.attempts, teamA));
    if over then
      if hitsA > hitsB then Decided(newAttempts, teamA, teamA + " won in Bowl Out")
      else if hitsB > hitsA then Decided(newAttempts, teamB, teamB + " won in Bowl Out")
      else Decided(newAttempts, "", "Bowl Out Tied")
    else
      Continue(b.(attempts := newAttempts, currentTeam := nextTeam, currentTurn := nextTurn))
  }

  /** The state a new bowl-out starts from: no attempts, the first team to bowl, round one
      and no bowlers chosen yet. */
  function Restart(b: BowlOutState, teamA: string): (r: BowlOutState)
    ensures r.attempts == [] && r.currentTeam == teamA && r.currentTurn == 1
  {
    BowlOutState([], teamA, 1, [], [])
  }

  /** The restart as the scorer writes it: the attempts of an earlier bowl-out are kept. */
  function RestartAsWritten(b: BowlOutState, teamA: string): (r: BowlOutState)
    ensures r.attempts == b.attempts && r.currentTeam == teamA && r.currentTurn == 1
  {
    b.(currentTeam := teamA, currentTurn := 1, teamABowlers := [], teamBBowlers := [])
  }

  // ---------------------------------------------------------------- invariant

  /** The shape of a bowl-out in progress: teams alternate, the first team first, the round
      is 1..5, and the number of attempts matches the round and the side about to bowl. */
  ghost predicate Alternating(b: BowlOutState, teamA: string, teamB: string) {
    && teamA != teamB
    && 1 <= b.currentTurn <= 5
    && (b.currentTeam == teamA || b.currentTeam == teamB)
    && |b.attempts| == 2 * (b.currentTurn - 1) + (if b.currentTeam == teamB then 1 else 0)
    && (forall i :: 0 <= i < |b.attempts| ==> b.attempts[i].teamName == (if i % 2 == 0 then teamA else teamB))
  }

  lemma RestartAlternates(b: BowlOutState, teamA: string, teamB: string)
    requires teamA != teamB
    ensures Alternating(Restart(b, teamA), teamA, teamB)
  {
  }

  /** In an alternating list the first team has made the odd-numbered attempts and the
      second the even-numbered ones. */
  lemma {:induction false} TakenAlternating(attempts: seq<BowlOutAttempt>, teamA: string, teamB: string)
    requires teamA != teamB
    requires forall i :: 0 <= i < |attempts| ==> attempts[i].teamName == (if i % 2 == 0 then teamA else teamB)
    ensures Taken(attempts, teamA) == (|attempts| + 1) / 2
    ensures Taken(attempts, teamB) == |attempts| / 2
  {
    if attempts != [] {
      var n := |attempts|;
      var init := attempts[..n - 1];
      TakenAlternating(init, teamA, teamB);
      CountWhereSnoc(init, attempts[n - 1], (a: BowlOutAttempt) => a.teamName == teamA);
      CountWhereSnoc(init, attempts[n - 1], (a: BowlOutAttempt) => a.teamName == teamB);
      assert init + [attempts[n - 1]] == attempts;
    }
  }

  lemma {:induction false} CountWhereSnoc<T>(s: seq<T>, x: T, p: T -> bool)
    ensures CountWhere(s + [x], p) == CountWhere(s, p) + (if p(x) then 1 else 0)
  {
    if s == [] {
      assert [x][1..] == [];
    } else {
      assert (s + [x])[1..] == s[1..] + [x];
      CountWhereSnoc(s[1..], x, p);
    }
  }

  lemma {:induction false} HitsAtMostTaken(attempts: seq<BowlOutAttempt>, team: string)
    ensures Hits(attempts, team) <= Taken(attempts, team)
  {
    if attempts != [] {
      HitsAtMostTaken(attempts[1..], team);
    }
  }

  /** An attempt that does not decide the contest keeps its shape. */
  lemma AttemptKeepsAlternating(b: BowlOutState, teamA: string, teamB: string, outcome: Outcome)
    requires Alternating(b, teamA, teamB)
    requires Attempt(b, teamA, teamB, outcome).Continue?
    ensures Alternating(Attempt(b, teamA, teamB, outcome).next, teamA, teamB)
  {
    var next := Attempt(b, teamA, teamB, outcome).next;
    var n := |b.attempts|;
    forall i | 0 <= i < |next.attempts|
      ensures next.attempts[i].teamName == (if i % 2 == 0 then teamA else teamB)
    {
      if i == n {
        assert n % 2 == (if b.currentTeam == teamB then 1 else 0);
      }
    }
  }

  /** Soundness of stopping early: whenever the contest is decided, the winner's hits exceed
      the loser's hits plus every attempt the loser still had; a tie is declared only when
      both sides have bowled all five. */
  lemma {:induction false} DecidedIsFinal(b: BowlOutState, teamA: string, teamB: string, outcome: Outcome)
    requires Alternating(b, teamA, teamB) && teamA != "" && teamB != ""
    requires Attempt(b, teamA, teamB, outcome).Decided?
    ensures var d := Attempt(b, teamA, teamB, outcome);
            var loser := if d.winner == teamA then teamB else teamA;
            && Taken(d.attempts, teamA) <= 5 && Taken(d.attempts, teamB) <= 5
            && (d.winner != "" ==> Hits(d.attempts, d.winner) > Hits(d.attempts, loser) + (5 - Taken(d.attempts, loser)))
            && (d.winner == "" ==> Taken(d.attempts, teamA) == 5 && Taken(d.attempts, teamB) == 5
                                   && Hits(d.attempts, teamA) == Hits(d.attempts, teamB))
  {
    var d := Attempt(b, teamA, teamB, outcome);
    DecidedAlternates(b, teamA, teamB, outcome);
    TakenAlternating(b.attempts, teamA, teamB);
    TakenAlternating(d.attempts, teamA, teamB);
    HitsAtMostTaken(d.attempts, teamA);
    HitsAtMostTaken(d.attempts, teamB);
  }

  /** The attempts of a decided contest still alternate, the first team first. */
  lemma DecidedAlternates(b: BowlOutState, teamA: string, teamB: string, outcome: Outcome)
    requires Alternating(b, teamA, teamB)
    requires Attempt(b, teamA, teamB, outcome).Decided?
    ensures var d := Attempt(b, teamA, teamB, outcome);
            && |d.attempts| == |b.attempts| + 1 && d.attempts[..|b.attempts|] == b.attempts
            && forall i :: 0 <= i < |d.attempts| ==> d.attempts[i].teamName == (if i % 2 == 0 then teamA else teamB)
  {
    var d := Attempt(b, teamA, teamB, outcome);
    var n := |b.attempts|;
    var last := d.attempts[n];
    assert d.attempts == b.attempts + [last];
    assert last.teamName == b.currentTeam;
    forall i | 0 <= i < |d.attempts|
      ensures d.attempts[i].teamName == (if i % 2 == 0 then teamA else teamB)
    {
      if i == n {
        assert n % 2 == (if b.currentTeam == teamB then 1 else 0);
      }
    }
  }

  /** A well-formed contest always ends by the tenth attempt: the second team's fifth
      attempt decides it. */
  lemma LastAttemptDecides(b: BowlOutState, teamA: string, teamB: string, outcome: Outcome)
    requires Alternating(b, teamA, teamB)
    requires b.currentTurn == 5 && b.currentTeam == teamB
    ensures Attempt(b, teamA, teamB, outcome).Decided?
  {
  }

  // ---------------------------------------------------------------- stale attempts

  function Misses(n: nat, teamA: string, teamB: string): (s: seq<BowlOutAttempt>)
    ensures |s| == n
  {
    if n == 0 then [] else Misses(n - 1, teamA, teamB) + [BowlOutAttempt(if (n - 1) % 2 == 0 then teamA else teamB, "", Miss)]
  }

  /** The scorer's state after a bowl-out tied with every attempt missed: the deciding tenth
      attempt is not stored, so nine attempts remain. */
  function TiedBowlOutLeftover(): BowlOutState {
    BowlOutState(Misses(9, "A", "B"), "B", 5, BowlersA, BowlersB)
  }

  /** With the attempts kept from a first, tied bowl-out, a second bowl-out in which the
      first team hits, then both miss, is over after three attempts with the first team the
      winner by one hit, although the second team still had four attempts. */
  lemma StaleAttemptsEndEarly()
    ensures var b0 := RestartAsWritten(TiedBowlOutLeftover(), "A").(teamABowlers := BowlersA, teamBBowlers := BowlersB);
            && Attempt(b0, "A", "B", Hit).Continue?
            && Attempt(Attempt(b0, "A", "B", Hit).next, "A", "B", Miss).Continue?
            && Attempt(Attempt(Attempt(b0, "A", "B", Hit).next, "A", "B", Miss).next, "A", "B", Miss).Decided?
            && Attempt(Attempt(Attempt(b0, "A", "B", Hit).next, "A", "B", Miss).next, "A", "B", Miss).winner == "A"
  {
    var m := Misses(9, "A", "B");
    MissesAlternate(9, "A", "B");
    TakenAlternating(m, "A", "B");
    NoHitsInMisses(9, "A", "B");
    StaleRun(m);
  }

  /** The three attempts of the second bowl-out, from nine stale attempts without a hit,
      five by the first team and four by the second. */
  lemma StaleRun(m: seq<BowlOutAttempt>)
    requires Taken(m, "A") == 5 && Taken(m, "B") == 4 && Hits(m, "A") == 0 && Hits(m, "B") == 0
    ensures var b0 := BowlOutState(m, "A", 1, BowlersA, BowlersB);
            && Attempt(b0, "A", "B", Hit).Continue?
            && Attempt(Attempt(b0, "A", "B", Hit).next, "A", "B", Miss).Continue?
            && Attempt(Attempt(Attempt(b0, "A", "B", Hit).next, "A", "B", Miss).next, "A", "B", Miss).Decided?
            && Attempt(Attempt(Attempt(b0, "A", "B", Hit).next, "A", "B", Miss).next, "A", "B", Miss).winner == "A"
  {
    var m1 := m + [BowlOutAttempt("A", "a1", Hit)];
    var m2 := m1 + [BowlOutAttempt("B", "b1", Miss)];
    StaleFirst(m);
    StaleSecond(m1);
    StaleThird(m2);
  }

  const BowlersA: seq<PlayerId> := ["a1", "a2", "a3", "a4", "a5"]
  const BowlersB: seq<PlayerId> := ["b1", "b2", "b3", "b4", "b5"]

  lemma StaleFirst(m: seq<BowlOutAttempt>)
    requires Taken(m, "A") == 5 && Taken(m, "B") == 4 && Hits(m, "A") == 0 && Hits(m, "B") == 0
    ensures Attempt(BowlOutState(m, "A", 1, BowlersA, BowlersB), "A", "B", Hit)
            == Continue(BowlOutState(m + [BowlOutAttempt("A", "a1", Hit)], "B", 1, BowlersA, BowlersB))
    ensures var m1 := m + [BowlOutAttempt("A", "a1", Hit)];
            Taken(m1, "A") == 6 && Taken(m1, "B") == 4 && Hits(m1, "A") == 1 && Hits(m1, "B") == 0
  {
    var x := BowlOutAttempt("A", "a1", Hit);
    TakenSnoc(m, x, "A"); TakenSnoc(m, x, "B"); HitsSnoc(m, x, "A"); HitsSnoc(m, x, "B");
  }

  lemma StaleSecond(m1: seq<BowlOutAttempt>)
    requires Taken(m1, "A") == 6 && Taken(m1, "B") == 4 && Hits(m1, "A") == 1 && Hits(m1, "B") == 0
    ensures Attempt(BowlOutState(m1, "B", 1, BowlersA, BowlersB), "A", "B", Miss)
            == Continue(BowlOutState(m1 + [BowlOutAttempt("B", "b1", Miss)], "A", 2, BowlersA, BowlersB))
    ensures var m2 := m1 + [BowlOutAttempt("B", "b1", Miss)];
            Taken(m2, "A") == 6 && Taken(m2, "B") == 5 && Hits(m2, "A") == 1 && Hits(m2, "B") == 0
  {
    var x := BowlOutAttempt("B", "b1", Miss);
    TakenSnoc(m1, x, "A"); TakenSnoc(m1, x, "B"); HitsSnoc(m1, x, "A"); HitsSnoc(m1, x, "B");
  }

  lemma StaleThird(m2: seq<BowlOutAttempt>)
    requires Taken(m2, "A") == 6 && Taken(m2, "B") == 5 && Hits(m2, "A") == 1 && Hits(m2, "B") == 0
    ensures Attempt(BowlOutState(m2, "A", 2, BowlersA, BowlersB), "A", "B", Miss)
            == Decided(m2 + [BowlOutAttempt("A", "a2", Miss)], "A", "A won in Bowl Out")
  {
    var x := BowlOutAttempt("A", "a2", Miss);
    HitsSnoc(m2, x, "A"); HitsSnoc(m2, x, "B");
    assert BowlerAt(BowlersA, 1) == "a2";
    assert "A" + " won in Bowl Out" == "A won in Bowl Out";
  }

  lemma TakenSnoc(s: seq<BowlOutAttempt>, x: BowlOutAttempt, team: string)
    ensures Taken(s + [x], team) == Taken(s, team) + (if x.teamName == team then 1 else 0)
  {
    CountWhereSnoc(s, x, (a: BowlOutAttempt) => a.teamName == team);
  }

  lemma HitsSnoc(s: seq<BowlOutAttempt>, x: BowlOutAttempt, team: string)
    ensures Hits(s + [x], team) == Hits(s, team) + (if x.teamName == team && x.outcome == Hit then 1 else 0)
  {
    CountWhereSnoc(s, x, (a: BowlOutAttempt) => a.teamName == team && a.outcome == Hit);
  }

  lemma {:induction false} MissesAlternate(n: nat, teamA: string, teamB: string)
    ensures forall i :: 0 <= i < n ==> Misses(n, teamA, teamB)[i].teamName == (if i % 2 == 0 then teamA else teamB)
  {
    if n > 0 {
      MissesAlternate(n - 1, teamA, teamB);
    }
  }

  lemma {:induction false} NoHitsInMisses(n: nat, teamA: string, teamB: string)
    ensures Hits(Misses(n, teamA, teamB), teamA) == 0 && Hits(Misses(n, teamA, teamB), teamB) == 0
  {
    if n > 0 {
      NoHitsInMisses(n - 1, teamA, teamB);
      var x := BowlOutAttempt(if (n - 1) % 2 == 0 then teamA else teamB, "", Miss);
      CountWhereSnoc(Misses(n - 1, teamA, teamB), x, (a: BowlOutAttempt) => a.teamName == teamA && a.outcome == Hit);
      CountWhereSnoc(Misses(n - 1, teamA, teamB), x, (a: BowlOutAttempt) => a.teamName == teamB && a.outcome == Hit);
    }
  }

  /** From a proper restart the same three attempts leave the contest open. */
  lemma FreshRestartContinues()
    ensures var b0 := Restart(TiedBowlOutLeftover(), "A").(teamABowlers := BowlersA, teamBBowlers := BowlersB);
            && Attempt(b0, "A", "B", Hit).Continue?
            && Attempt(Attempt(b0, "A", "B", Hit).next, "A", "B", Miss).Continue?
            && Attempt(Attempt(Attempt(b0, "A", "B", Hit).next, "A", "B", Miss).next, "A", "B", Miss).Continue?
  {
    var bowlersA, bowlersB := BowlersA, BowlersB;
    var x1, x2, x3 := BowlOutAttempt("A", "a1", Hit), BowlOutAttempt("B", "b1", Miss), BowlOutAttempt("A", "a2", Miss);
    var m0: seq<BowlOutAttempt> := [];
    var m1 := m0 + [x1];
    var m2 := m1 + [x2];
    TakenSnoc(m0, x1, "A"); TakenSnoc(m0, x1, "B"); HitsSnoc(m0, x1, "A"); HitsSnoc(m0, x1, "B");
    var b1 := BowlOutState(m1, "B", 1, bowlersA, bowlersB);
    assert Attempt(BowlOutState(m0, "A", 1, bowlersA, bowlersB), "A", "B", Hit) == Continue(b1);
    TakenSnoc(m1, x2, "A"); TakenSnoc(m1, x2, "B"); HitsSnoc(m1, x2, "A"); HitsSnoc(m1, x2, "B");
    var b2 := BowlOutState(m2, "A", 2, bowlersA, bowlersB);
    assert Attempt(b1, "A", "B", Miss) == Continue(b2);
    HitsSnoc(m2, x3, "A"); HitsSnoc(m2, x3, "B");
    assert Attempt(b2, "A", "B", Miss).Continue?;
  }
}
