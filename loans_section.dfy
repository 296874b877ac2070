/** The loans screen (src/components/LoansSection.tsx): the fortnightly
    commitment of the active loans, each loan's progress bar and the
    status its toggle sends. */
module LoansSection {
  import opened Collections
  import opened Entities
  import opened Projections
  import Commands

  function IsPaid(l: Loan): bool { l.status == Paid }

  /** `totalLoansPerFortnight`: the payments of the active loans only, i.e.
      all payments less those of the paid loans. */
  function TotalLoansPerFortnight(loans: seq<Loan>): (r: Money)
    ensures r + SumOf(Filter(loans, IsPaid), LoanPayment) == SumOf(loans, LoanPayment)
  {
    SumOfFilterSplit(loans, IsActive, IsPaid, LoanPayment);
    SumOf(ActiveLoans(loans), LoanPayment)
  }

  /** A new loan raises the commitment by its payment while active, and
      not at all once paid. */
  lemma {:induction false} TotalAfterNewLoan(loans: seq<Loan>, l: Loan)
    ensures TotalLoansPerFortnight(loans + [l]) ==
      TotalLoansPerFortnight(loans) + (if l.status == Active then l.paymentPerFortnight else 0.0)
  {
    FilterAppend(loans, [l], IsActive);
    SumOfAppend(Filter(loans, IsActive), Filter([l], IsActive), LoanPayment);
    assert Filter([l], IsActive) == if IsActive(l) then [l] else [];
  }

  /** A JavaScript number as the progress bar sees it: a finite value,
      minus infinity, or NaN. */
  datatype Ratio = Finite(value: real) | MinusInfinity | NotANumber

  /** `Math.min(100, current / total * 100)`. A zero total divides to
      +Infinity (capped at 100), -Infinity or, for 0/0, NaN (which
      `Math.min` propagates). */
  function Progress(current: real, total: real): (p: Ratio)
    ensures p.Finite? ==> p.value <= 100.0
    ensures total != 0.0 ==> p == Finite(Min(100.0, current / total * 100.0))
    ensures total > 0.0 ==> p.Finite? && (p.value == 100.0 <==> current >= total)
    ensures total > 0.0 && current >= 0.0 ==> 0.0 <= p.value
    ensures total == 0.0 ==>
      p == (if current > 0.0 then Finite(100.0) else if current < 0.0 then MinusInfinity else NotANumber)
  {
    if total != 0.0 then
      if total > 0.0 then PercentOfPositive(current, total); Finite(Min(100.0, current / total * 100.0))
      else Finite(Min(100.0, current / total * 100.0))
    else if current > 0.0 then Finite(100.0)
    else if current < 0.0 then MinusInfinity
    else NotANumber
  }

  lemma PercentOfPositive(current: real, total: real)
    requires total > 0.0
    ensures current / total * 100.0 >= 100.0 <==> current >= total
    ensures current >= 0.0 ==> current / total * 100.0 >= 0.0
  {
    var q := current / total;
    assert q * total == current;
    if q >= 1.0 { assert q * total >= total; }
  }

  /** The status the toggle sends: a paid loan is reopened, any other is
      marked paid. */
  function ToggleTarget(status: LoanStatus): (t: LoanStatus)
    ensures t != status
  {
    if status == Paid then Active else Paid
  }

  /** Toggling a loan twice leaves the store as it was. */
  lemma ToggleTwiceRestores(s: Commands.Snapshot, loanId: Id, status: LoanStatus)
    requires forall i :: 0 <= i < |s.loans| && s.loans[i].id == loanId ==> s.loans[i].status == status
    ensures var once := Commands.SetLoanStatus(s, loanId, ToggleTarget(status));
      Commands.SetLoanStatus(once, loanId, ToggleTarget(ToggleTarget(status))) == s
  {
    var once := Commands.SetLoanStatus(s, loanId, ToggleTarget(status));
    var twice := Commands.SetLoanStatus(once, loanId, ToggleTarget(ToggleTarget(status)));
    assert twice.loans == s.loans by {
      forall i | 0 <= i < |s.loans| ensures twice.loans[i] == s.loans[i] {
        if s.loans[i].id == loanId {
          assert ToggleTarget(ToggleTarget(status)) == status;
        }
      }
    }
  }
}
