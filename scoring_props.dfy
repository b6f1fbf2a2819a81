/** Properties of a single delivery: where its runs go, what it counts, when a dismissal
    is recorded, who is on strike next and when the over ends. */
module ScoringProps {
  import opened Common
  import opened Domain
  import opened Events
  import opened Ledger
  import opened Scoring

  /** Score conservation: the total and the bowler's runs conceded rise by the delivery's
      total, the striker's runs by his share, and no other player's runs change. */
  lemma BallScoreConservation(inn: Innings, r: EventReading, o: BallOptions, striker: PlayerId, bowler: PlayerId, isFreeHit: bool)
    requires r.extraRuns.Some?
    requires KnownOrUnset(inn, striker) && KnownOrUnset(inn, bowler) && KnownOrUnset(inn, o.batsmanOutId)
    ensures LedgerAfterBall(inn, r, o, striker, bowler, isFreeHit).score == inn.score + BallTotal(r, o)
    ensures bowler != "" ==>
      LedgerAfterBall(inn, r, o, striker, bowler, isFreeHit).bowlerStats[bowler].runsConceded
        == inn.bowlerStats[bowler].runsConceded + BallTotal(r, o)
    ensures striker != "" ==>
      LedgerAfterBall(inn, r, o, striker, bowler, isFreeHit).batsmenStats[striker].runs
        == inn.batsmenStats[striker].runs + StrikerRuns(r, o)
    ensures forall p :: p in inn.batsmenStats && p != striker ==>
      LedgerAfterBall(inn, r, o, striker, bowler, isFreeHit).batsmenStats[p].runs == inn.batsmenStats[p].runs
    ensures forall p :: p in inn.bowlerStats && p != bowler ==>
      LedgerAfterBall(inn, r, o, striker, bowler, isFreeHit).bowlerStats[p].runsConceded == inn.bowlerStats[p].runsConceded
  {
    var scored := ScoreBall(inn, r, o, striker, bowler);
    ScoreBallCredits(inn, r, o, striker, bowler);
    var counted := if IsLegalReading(r) then CountLegalBall(scored, striker, bowler) else scored;
    if IsLegalReading(r) { CountKeepsRuns(scored, striker, bowler); }
    var outId := DismissedId(r, o, striker, isFreeHit);
    var out := if outId != "" then RecordWicket(counted, outId, o.howOut, o.fielderId, bowler) else counted;
    if outId != "" { WicketKeepsRuns(counted, outId, o.howOut, o.fielderId, bowler); }
    assert out == LedgerAfterBall(inn, r, o, striker, bowler, isFreeHit);
    assert SameRuns(scored, out);
  }

  lemma CountKeepsRuns(inn: Innings, striker: PlayerId, bowler: PlayerId)
    requires KnownOrUnset(inn, striker) && KnownOrUnset(inn, bowler)
    ensures SameRuns(inn, CountLegalBall(inn, striker, bowler))
  {
  }

  lemma WicketKeepsRuns(inn: Innings, outId: PlayerId, howOut: Option<HowOut>, fielderId: PlayerId, bowler: PlayerId)
    requires Tracks(inn, outId) && KnownOrUnset(inn, bowler)
    ensures SameRuns(inn, RecordWicket(inn, outId, howOut, fielderId, bowler))
  {
  }

  /** Two ledgers with the same players that agree on the total and on everybody's runs. */
  ghost predicate SameRuns(a: Innings, b: Innings) {
    && a.score == b.score
    && a.batsmenStats.Keys == b.batsmenStats.Keys && a.bowlerStats.Keys == b.bowlerStats.Keys
    && (forall p :: p in a.batsmenStats ==> b.batsmenStats[p].runs == a.batsmenStats[p].runs)
    && (forall p :: p in a.bowlerStats ==> b.bowlerStats[p].runsConceded == a.bowlerStats[p].runsConceded)
  }

  lemma ScoreBallCredits(inn: Innings, r: EventReading, o: BallOptions, striker: PlayerId, bowler: PlayerId)
    requires r.extraRuns.Some?
    requires KnownOrUnset(inn, striker) && KnownOrUnset(inn, bowler)
    ensures var out := ScoreBall(inn, r, o, striker, bowler);
            && out.score == inn.score + BallTotal(r, o)
            && (bowler != "" ==> out.bowlerStats[bowler].runsConceded == inn.bowlerStats[bowler].runsConceded + BallTotal(r, o))
            && (striker != "" ==> out.batsmenStats[striker].runs == inn.batsmenStats[striker].runs + StrikerRuns(r, o))
            && (forall p :: p in inn.batsmenStats && p != striker ==> out.batsmenStats[p].runs == inn.batsmenStats[p].runs)
            && (forall p :: p in inn.bowlerStats && p != bowler ==> out.bowlerStats[p].runsConceded == inn.bowlerStats[p].runsConceded)
  {
    var bat := RunsScored(r, o.runsScored);
    if bat == 0 && IsExtraBase(r.base) && r.base == "Nb" && r.extraRuns.value == 0 {
      assert StrikerRuns(r, o) == 0;
    }
  }

  /** The run credits leave the ball counts, the wickets and the dismissals alone. */
  lemma ScoreBallKeepsCounts(inn: Innings, r: EventReading, o: BallOptions, striker: PlayerId, bowler: PlayerId)
    requires r.extraRuns.Some?
    requires KnownOrUnset(inn, striker) && KnownOrUnset(inn, bowler)
    ensures var out := ScoreBall(inn, r, o, striker, bowler);
            && out.totalLegalBalls == inn.totalLegalBalls && out.wickets == inn.wickets
            && out.fallOfWickets == inn.fallOfWickets
            && (forall p :: p in inn.batsmenStats ==>
                  out.batsmenStats[p].isOut == inn.batsmenStats[p].isOut && out.batsmenStats[p].balls == inn.batsmenStats[p].balls)
            && (forall p :: p in inn.bowlerStats ==>
                  out.bowlerStats[p].wickets == inn.bowlerStats[p].wickets
                  && out.bowlerStats[p].ballsBowled == inn.bowlerStats[p].ballsBowled)
  {
    var bat := RunsScored(r, o.runsScored);
    if bat > 0 {
      var out := CreditRuns(inn, bat, striker, bowler, r.shortRun.None?);
      assert forall p :: p in inn.bowlerStats ==> out.bowlerStats[p].wickets == inn.bowlerStats[p].wickets;
    } else if IsExtraBase(r.base) {
      var out := CreditExtra(inn, r.base == "Nb", r.extraRuns.value, striker, bowler);
      assert forall p :: p in inn.bowlerStats ==> out.bowlerStats[p].wickets == inn.bowlerStats[p].wickets;
    }
  }

  /** Counting a legal ball leaves the wickets and the dismissals alone. */
  lemma CountKeepsDismissals(inn: Innings, striker: PlayerId, bowler: PlayerId)
    requires KnownOrUnset(inn, striker) && KnownOrUnset(inn, bowler)
    ensures var out := CountLegalBall(inn, striker, bowler);
            && out.wickets == inn.wickets && out.fallOfWickets == inn.fallOfWickets
            && (forall p :: p in inn.batsmenStats ==> out.batsmenStats[p].isOut == inn.batsmenStats[p].isOut)
            && (forall p :: p in inn.bowlerStats ==> out.bowlerStats[p].wickets == inn.bowlerStats[p].wickets)
  {
  }

  /** Only a legal delivery is counted, once for the innings, the striker and the bowler. */
  lemma LegalBallCounters(inn: Innings, r: EventReading, o: BallOptions, striker: PlayerId, bowler: PlayerId, isFreeHit: bool)
    requires r.extraRuns.Some?
    requires KnownOrUnset(inn, striker) && KnownOrUnset(inn, bowler) && KnownOrUnset(inn, o.batsmanOutId)
    ensures LedgerAfterBall(inn, r, o, striker, bowler, isFreeHit).totalLegalBalls
              == inn.totalLegalBalls + (if IsLegalReading(r) then 1 else 0)
    ensures striker != "" ==>
      LedgerAfterBall(inn, r, o, striker, bowler, isFreeHit).batsmenStats[striker].balls
        == inn.batsmenStats[striker].balls + (if IsLegalReading(r) then 1 else 0)
    ensures bowler != "" ==>
      LedgerAfterBall(inn, r, o, striker, bowler, isFreeHit).bowlerStats[bowler].ballsBowled
        == inn.bowlerStats[bowler].ballsBowled + (if IsLegalReading(r) then 1 else 0)
  {
  }

  /** A recorded dismissal adds one wicket, marks the batter out with the given mode and
      appends one fall-of-wicket entry at the score after the delivery's runs; the bowler
      is credited only for a mode other than run-out. Without one, the wickets and the
      fall-of-wickets list do not change. */
  lemma WicketRecording(inn: Innings, r: EventReading, o: BallOptions, striker: PlayerId, bowler: PlayerId, isFreeHit: bool)
    requires r.extraRuns.Some?
    requires KnownOrUnset(inn, striker) && KnownOrUnset(inn, bowler) && KnownOrUnset(inn, o.batsmanOutId)
    ensures var out := LedgerAfterBall(inn, r, o, striker, bowler, isFreeHit);
            var outId := DismissedId(r, o, striker, isFreeHit);
            && (outId == "" ==> out.wickets == inn.wickets && out.fallOfWickets == inn.fallOfWickets)
            && (outId != "" ==>
                  && out.wickets == inn.wickets + 1
                  && out.batsmenStats[outId].isOut
                  && out.batsmenStats[outId].howOut == o.howOut
                  && out.fallOfWickets == inn.fallOfWickets + [FallOfWicket(inn.score + BallTotal(r, o), inn.wickets + 1, outId)])
            && (bowler != "" ==>
                  out.bowlerStats[bowler].wickets
                    == inn.bowlerStats[bowler].wickets + (if outId != "" && CreditsBowler(o.howOut) then 1 else 0))
  {
    if DismissedId(r, o, striker, isFreeHit) != "" {
      DismissalRecorded(inn, r, o, striker, bowler, isFreeHit);
    } else {
      NoDismissal(inn, r, o, striker, bowler, isFreeHit);
    }
  }

  lemma DismissalRecorded(inn: Innings, r: EventReading, o: BallOptions, striker: PlayerId, bowler: PlayerId, isFreeHit: bool)
    requires r.extraRuns.Some?
    requires KnownOrUnset(inn, striker) && KnownOrUnset(inn, bowler) && KnownOrUnset(inn, o.batsmanOutId)
    requires DismissedId(r, o, striker, isFreeHit) != ""
    ensures var out := LedgerAfterBall(inn, r, o, striker, bowler, isFreeHit);
            var outId := DismissedId(r, o, striker, isFreeHit);
            && out.wickets == inn.wickets + 1
            && out.batsmenStats[outId].isOut
            && out.batsmenStats[outId].howOut == o.howOut
            && out.fallOfWickets == inn.fallOfWickets + [FallOfWicket(inn.score + BallTotal(r, o), inn.wickets + 1, outId)]
            && (bowler != "" ==>
                  out.bowlerStats[bowler].wickets == inn.bowlerStats[bowler].wickets + (if CreditsBowler(o.howOut) then 1 else 0))
  {
    var scored := ScoreBall(inn, r, o, striker, bowler);
    ScoreBallCredits(inn, r, o, striker, bowler);
    ScoreBallKeepsCounts(inn, r, o, striker, bowler);
    var counted := if IsLegalReading(r) then CountLegalBall(scored, striker, bowler) else scored;
    if IsLegalReading(r) { CountKeepsDismissals(scored, striker, bowler); }
    var outId := DismissedId(r, o, striker, isFreeHit);
    assert LedgerAfterBall(inn, r, o, striker, bowler, isFreeHit) == RecordWicket(counted, outId, o.howOut, o.fielderId, bowler);
  }

  lemma NoDismissal(inn: Innings, r: EventReading, o: BallOptions, striker: PlayerId, bowler: PlayerId, isFreeHit: bool)
    requires r.extraRuns.Some?
    requires KnownOrUnset(inn, striker) && KnownOrUnset(inn, bowler) && KnownOrUnset(inn, o.batsmanOutId)
    requires DismissedId(r, o, striker, isFreeHit) == ""
    ensures var out := LedgerAfterBall(inn, r, o, striker, bowler, isFreeHit);
            && out.wickets == inn.wickets && out.fallOfWickets == inn.fallOfWickets
            && (bowler != "" ==> out.bowlerStats[bowler].wickets == inn.bowlerStats[bowler].wickets)
  {
    var scored := ScoreBall(inn, r, o, striker, bowler);
    ScoreBallKeepsCounts(inn, r, o, striker, bowler);
    var counted := if IsLegalReading(r) then CountLegalBall(scored, striker, bowler) else scored;
    if IsLegalReading(r) { CountKeepsDismissals(scored, striker, bowler); }
    assert LedgerAfterBall(inn, r, o, striker, bowler, isFreeHit) == counted;
  }

  /** On a free hit a bowled, caught or lbw decision changes nothing wicket-related. */
  lemma FreeHitProtects(inn: Innings, r: EventReading, o: BallOptions, striker: PlayerId, bowler: PlayerId)
    requires r.extraRuns.Some?
    requires KnownOrUnset(inn, striker) && KnownOrUnset(inn, bowler) && KnownOrUnset(inn, o.batsmanOutId)
    requires IsProtectedDismissal(o.howOut)
    ensures var out := LedgerAfterBall(inn, r, o, striker, bowler, true);
            && out.wickets == inn.wickets
            && out.fallOfWickets == inn.fallOfWickets
            && (forall p :: p in inn.batsmenStats ==> out.batsmenStats[p].isOut == inn.batsmenStats[p].isOut)
            && (bowler != "" ==> out.bowlerStats[bowler].wickets == inn.bowlerStats[bowler].wickets)
  {
    assert DismissedId(r, o, striker, true) == "";
  }

  /** The wicket count and the fall-of-wickets list stay in step through every delivery. */
  lemma {:induction false} BallKeepsWicketsConsistent(inn: Innings, r: EventReading, o: BallOptions, striker: PlayerId, bowler: PlayerId, isFreeHit: bool)
    requires r.extraRuns.Some?
    requires KnownOrUnset(inn, striker) && KnownOrUnset(inn, bowler) && KnownOrUnset(inn, o.batsmanOutId)
    requires WicketsConsistent(inn)
    ensures WicketsConsistent(LedgerAfterBall(inn, r, o, striker, bowler, isFreeHit))
  {
    var scored := ScoreBall(inn, r, o, striker, bowler);
    var counted := if IsLegalReading(r) then CountLegalBall(scored, striker, bowler) else scored;
    RunsKeepWicketsConsistent(inn, scored);
    RunsKeepWicketsConsistent(scored, counted);
    var outId := DismissedId(r, o, striker, isFreeHit);
    if outId != "" {
      RecordWicketKeepsConsistent(counted, outId, o.howOut, o.fielderId, bowler);
    }
  }

  /** Free hits, stated on the buttons: a no-ball always gives one, a wide carries the
      current one over, and any other delivery ends it. */
  lemma FreeHitAfter(e: BallEvent, isFreeHit: bool)
    ensures NextFreeHit(ReadEvent(Encode(e)), isFreeHit) <==> (e.Extra? && (e.kind == NoBall || isFreeHit))
  {
    ReadEncode(e);
    if e.Runs? {
      assert IsDigit(NatToString(e.n)[0]);
    } else if e.ShortRun? {
      assert IsDigit(Encode(e)[0]);
    }
  }

  /** Strike rotation: after a delivery with no recorded dismissal the batters have changed
      ends (before the end-of-over swap) exactly when the rotation count is odd. */
  lemma RotationParity(r: EventReading, o: BallOptions, live: LiveState)
    requires r.extraRuns.Some?
    requires live.onStrikeBatsmanId != live.offStrikeBatsmanId
    ensures var ends := EndsAfterBall(r, o, live, "");
            (ends.striker == live.offStrikeBatsmanId) <==> RotationRuns(r) % 2 == 1
    ensures var ends := EndsAfterBall(r, o, live, "");
            {ends.striker, ends.nonStriker} == {live.onStrikeBatsmanId, live.offStrikeBatsmanId}
  {
  }

  /** The rotation count of each button: the attempted runs of a short run, the value of a
      run button, the further runs of a wide or no-ball, none for a wicket; a run-out's "5"
      is not among the run values and rotates nothing. */
  lemma RotationOfButtons(e: BallEvent)
    ensures e.ShortRun? ==> RotationRuns(ReadEvent(Encode(e))) == e.attempted
    ensures e.Extra? ==> RotationRuns(ReadEvent(Encode(e))) == e.k
    ensures e.Wicket? ==> RotationRuns(ReadEvent(Encode(e))) == 0
    ensures e.Runs? && e.n <= 6 && e.n != 5 ==> RotationRuns(ReadEvent(Encode(e))) == e.n
    ensures e == Runs(5) ==> RotationRuns(ReadEvent(Encode(e))) == 0
  {
    ReadEncode(e);
    match e
    case Runs(n) =>
      if n <= 6 {
        assert n == 0 || n == 1 || n == 2 || n == 3 || n == 4 || n == 5 || n == 6;
      }
    case ShortRun(scored, attempted) =>
    case Extra(kind, k) =>
    case Wicket =>
  }

  /** Run-out ends: the batter who is not out is on strike exactly when (he was at the
      end the completed runs leave on strike) differs from (the batters crossed), and the
      replacement takes the other end. */
  lemma RunOutEndsCharacterised(striker: PlayerId, nonStriker: PlayerId, outId: PlayerId, newId: PlayerId, completedRuns: nat, crossed: bool)
    requires striker != nonStriker && (outId == striker || outId == nonStriker)
    requires newId != striker && newId != nonStriker
    ensures var notOut := if outId == striker then nonStriker else striker;
            var strikerAfterRuns := if completedRuns % 2 == 1 then nonStriker else striker;
            var ends := RunOutEnds(striker, nonStriker, outId, newId, completedRuns, crossed);
            && (ends.striker == notOut <==> ((notOut == strikerAfterRuns) != crossed))
            && {ends.striker, ends.nonStriker} == {notOut, newId}
  {
  }

  /** A worked run-out: striker A and non-striker B complete one run, cross again and A is
      run out at the end he was running to; B, the batter left on strike by the completed
      run, ends at the non-striker's end and the newcomer C faces. */
  lemma RunOutExample()
    ensures RunOutEnds("A", "B", "A", "C", 1, true) == Ends("C", "B")
    ensures RunOutEnds("A", "B", "A", "C", 1, false) == Ends("B", "C")
    ensures RunOutEnds("A", "B", "B", "C", 0, false) == Ends("A", "C")
  {
  }

  /** Any other recorded dismissal leaves the dismissed batter's end empty and the other
      batter where he was. */
  lemma OtherDismissalEnds(r: EventReading, o: BallOptions, live: LiveState, outId: PlayerId)
    requires r.extraRuns.Some?
    requires outId != "" && (outId == live.onStrikeBatsmanId || outId == live.offStrikeBatsmanId)
    requires live.onStrikeBatsmanId != live.offStrikeBatsmanId
    requires !(o.howOut == Some(RunOut) && o.newBatsmanIdForRunOut != "")
    ensures var ends := EndsAfterBall(r, o, live, outId);
            if outId == live.onStrikeBatsmanId then ends == Ends("", live.offStrikeBatsmanId)
            else ends == Ends(live.onStrikeBatsmanId, "")
  {
  }

  lemma LegalCountSnoc(events: seq<string>, e: string)
    ensures LegalCount(events + [e]) == LegalCount(events) + (if IsExtraBase(BaseEvent(e)) then 0 else 1)
  {
    assert (events + [e])[..|events|] == events;
  }

  /** The over ends on its sixth legal delivery: while fewer than six legal balls have been
      bowled in the over, a delivery completes it exactly when it is legal and five had been
      bowled; afterwards the over's record again holds fewer than six legal balls, the bowler
      is cleared and remembered as the previous bowler, and the ends are swapped. Otherwise
      the bowler and the previous bowler stay and the delivery is appended to the over. */
  lemma {:induction false} OverEnd(live: LiveState, event: string, o: BallOptions, outId: PlayerId)
    requires WellFormedEvent(event)
    requires LegalCount(live.currentOverEvents) < 6
    ensures var r := ReadEvent(event);
            IsOverEnd(r, live.currentOverEvents + [event]) <==> IsLegalReading(r) && LegalCount(live.currentOverEvents) == 5
    ensures LegalCount(LiveAfterBall(live, event, o, outId).currentOverEvents) < 6
    ensures var r := ReadEvent(event);
            var out := LiveAfterBall(live, event, o, outId);
            var ends := EndsAfterBall(r, o, live, outId);
            if IsOverEnd(r, live.currentOverEvents + [event]) then
              && out.currentBowlerId == "" && out.previousBowlerId == live.currentBowlerId
              && out.currentOverEvents == []
              && out.onStrikeBatsmanId == ends.nonStriker && out.offStrikeBatsmanId == ends.striker
            else
              && out.currentBowlerId == live.currentBowlerId && out.previousBowlerId == live.previousBowlerId
              && out.currentOverEvents == live.currentOverEvents + [event]
              && out.onStrikeBatsmanId == ends.striker && out.offStrikeBatsmanId == ends.nonStriker
  {
    var r := ReadEvent(event);
    OverEndAtSix(live.currentOverEvents, event);
    var out := LiveAfterBall(live, event, o, outId);
    if IsOverEnd(r, live.currentOverEvents + [event]) {
      assert out.currentOverEvents == [];
    } else {
      assert out.currentOverEvents == live.currentOverEvents + [event];
    }
  }

  /** The over ends on the delivery that makes six legal balls, and never holds more. */
  lemma OverEndAtSix(events: seq<string>, e: string)
    requires WellFormedEvent(e)
    requires LegalCount(events) < 6
    ensures IsOverEnd(ReadEvent(e), events + [e]) <==> IsLegalReading(ReadEvent(e)) && LegalCount(events) == 5
    ensures LegalCount(events + [e]) <= 6
  {
    LegalCountSnoc(events, e);
  }

  /** When an innings closes: a super over at two wickets or six legal balls whatever the
      scheduled overs; a main innings at ten wickets or the scheduled overs, with no ball limit
      when none are scheduled (`match.totalOvers || Infinity`); either when at most one batter
      is left after a delivery that was not a dismissal attempt. */
  lemma InningsClosingLimits(inn: Innings, totalOvers: Option<int>, notOut: nat, isWicket: bool)
    ensures InningsOver(inn, true, totalOvers, notOut, isWicket)
            <==> inn.wickets >= 2 || inn.totalLegalBalls >= 6 || (notOut <= 1 && !isWicket)
    ensures totalOvers.None? || totalOvers == Some(0) ==>
              (InningsOver(inn, false, totalOvers, notOut, isWicket) <==> inn.wickets >= 10 || (notOut <= 1 && !isWicket))
    ensures totalOvers.Some? && totalOvers.value != 0 ==>
              (InningsOver(inn, false, totalOvers, notOut, isWicket)
               <==> inn.wickets >= 10 || inn.totalLegalBalls >= 6 * totalOvers.value || (notOut <= 1 && !isWicket))
  {
  }
}
