/** The club's finances: fees collected, withdrawals made and the balance between them,
    and the withdrawal form that only records a withdrawal the balance can cover. */
module Finance {
  import opened Common
  import opened Domain
  import Fees

  /** Fees are whole rupees (`parseInt`); withdrawal amounts are read with `parseFloat`, so the
      amounts withdrawn and the balance are reals. */
  datatype Summary = Summary(totalCollected: int, totalWithdrawn: real, balance: real)

  /** The sum of all withdrawal amounts. */
  function TotalWithdrawn(ws: seq<Withdrawal>): (total: real)
    ensures (forall i :: 0 <= i < |ws| ==> ws[i].amount > 0.0) ==> total >= 0.0
  {
    if ws == [] then 0.0 else ws[0].amount + TotalWithdrawn(ws[1..])
  }

  /** `financialSummary`: the fees collected over the completed matches (the same total the
      fees page shows), the amounts withdrawn, and what is left. */
  function FinancialSummary(matches: seq<Match>, ws: seq<Withdrawal>): (s: Summary)
    ensures s.totalCollected == Fees.TotalFeesCollected(matches)
    ensures s.totalWithdrawn == TotalWithdrawn(ws)
    ensures s.balance + s.totalWithdrawn == s.totalCollected as real
  {
    var collected := Fees.TotalFeesCollected(matches);
    var withdrawn := TotalWithdrawn(ws);
    Summary(collected, withdrawn, collected as real - withdrawn)
  }

  /** A withdrawal recorded in front of the ledger takes its amount off the balance. */
  lemma BalanceAfterWithdrawal(matches: seq<Match>, ws: seq<Withdrawal>, w: Withdrawal)
    ensures FinancialSummary(matches, [w] + ws).balance == FinancialSummary(matches, ws).balance - w.amount
  {
    assert ([w] + ws)[1..] == ws;
  }

  datatype Outcome = Rejected(message: string) | Recorded

  const InvalidFields := "Please fill out all fields with valid values."
  const InsufficientBalance := "Insufficient balance to withdraw."

  /** The finance page's ledger and its withdrawal form. `amount` holds the amount input as
      `parseFloat` reads it (None for NaN); an empty input reads as NaN. */
  class FinanceScreen {
    const matches: seq<Match>
    var withdrawals: seq<Withdrawal>
    var amount: Option<real>
    var reason: string
    var date: string
    var personName: string

    /** An empty form dated today. */
    constructor (matches: seq<Match>, withdrawals: seq<Withdrawal>, today: string)
      ensures this.matches == matches && this.withdrawals == withdrawals
      ensures amount.None? && reason == "" && date == today && personName == ""
    {
      this.matches := matches;
      this.withdrawals := withdrawals;
      amount := None;
      reason := "";
      date := today;
      personName := "";
    }

    function Balance(): real
      reads this
    {
      FinancialSummary(matches, withdrawals).balance
    }

    /** The form is filled in: a positive amount, a reason and a date. */
    predicate Filled()
      reads this
    {
      amount.Some? && amount.value > 0.0 && reason != "" && date != ""
    }

    /** `handleWithdrawalSubmit`: an incomplete form, or an amount above the balance, is
        refused with nothing changed. Otherwise the withdrawal is recorded (its id made from
        the ledger's length and the clock) with an empty person name stored as none, and
        the amount, reason and person name are cleared. An accepted withdrawal never takes
        the balance below zero. */
    method Submit(now: nat) returns (outcome: Outcome)
      modifies this
      ensures !old(Filled()) ==> outcome == Rejected(InvalidFields) && unchanged(this)
      ensures old(Filled()) && old(amount.value) > old(Balance()) ==>
                outcome == Rejected(InsufficientBalance) && unchanged(this)
      ensures outcome == Recorded <==> old(Filled()) && old(amount.value) <= old(Balance())
      ensures outcome == Recorded ==>
                && withdrawals == [Withdrawal("w" + NatToString(|old(withdrawals)| + 1) + "_" + NatToString(now),
                                              old(amount.value), old(reason), old(date),
                                              if old(personName) == "" then None else Some(old(personName)))]
                                  + old(withdrawals)
                && Balance() == old(Balance()) - old(amount.value) && Balance() >= 0.0
                && amount.None? && reason == "" && personName == "" && date == old(date)
    {
      if amount.None? || amount.value <= 0.0 || reason == "" || date == "" {
        return Rejected(InvalidFields);
      }
      var numericAmount := amount.value;
      if numericAmount > Balance() {
        return Rejected(InsufficientBalance);
      }
      var w := Withdrawal("w" + NatToString(|withdrawals| + 1) + "_" + NatToString(now), numericAmount, reason, date,
                          if personName == "" then None else Some(personName));
      BalanceAfterWithdrawal(matches, withdrawals, w);
      withdrawals := [w] + withdrawals;
      amount := None;
      reason := "";
      personName := "";
      return Recorded;
    }
  }

  /** A ledger built only from accepted withdrawals never overdraws: starting from a
      balance that is not negative, recording any amount up to the balance keeps it so. */
  lemma AcceptedKeepsBalance(matches: seq<Match>, ws: seq<Withdrawal>, w: Withdrawal)
    requires FinancialSummary(matches, ws).balance >= w.amount
    ensures FinancialSummary(matches, [w] + ws).balance >= 0.0
  {
    BalanceAfterWithdrawal(matches, ws, w);
  }
}
