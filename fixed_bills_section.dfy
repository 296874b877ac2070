/** The fixed-bills screen (src/components/FixedBillsSection.tsx). It
    recomputes the fortnight's bill total with its own copy of the hook's
    reduce, adds the payments of every loan, paid ones included, and greys
    out the bills pinned to the other fortnight. */
module FixedBillsSection {
  import opened Collections
  import opened Entities
  import opened Projections
  import LoansSection

  /** The screen's `reduce` over the bills, accumulating from the left. */
  function BillsFold(bills: seq<FixedBill>, currentFortnight: int, sum: Money): Money
    decreases |bills|
  {
    if |bills| == 0 then sum
    else
      var bill := bills[0];
      var next :=
        if HasExplicitFortnight(bill) then
          (if bill.fortnight.value == currentFortnight then sum + bill.amount else sum)
        else if bill.frequency == Biweekly then sum + bill.amount
        else sum + bill.amount / 2.0;
      BillsFold(bills[1..], currentFortnight, next)
  }

  /** `totalBillsPerFortnight` for a given day of the month. */
  function TotalBillsPerFortnight(bills: seq<FixedBill>, day: int): Money {
    BillsFold(bills, CurrentFortnight(day), 0.0)
  }

  lemma {:induction false} BillsFoldIsSum(bills: seq<FixedBill>, fortnight: int, sum: Money)
    ensures BillsFold(bills, fortnight, sum) == sum + SumOf(bills, ContributionIn(fortnight))
  {
    if |bills| > 0 {
      var bill := bills[0];
      BillsFoldIsSum(bills[1..], fortnight, sum + BillContribution(bill, fortnight));
    }
  }

  /** The screen's copy agrees with the hook's `getTotalFixedBills`. */
  lemma SameBillTotalAsHook(bills: seq<FixedBill>, day: int)
    ensures TotalBillsPerFortnight(bills, day) == TotalFixedBills(bills, day)
  {
    BillsFoldIsSum(bills, CurrentFortnight(day), 0.0);
  }

  /** `totalCommitted`: this fortnight's bills plus the payment of every loan. */
  function TotalCommitted(bills: seq<FixedBill>, loans: seq<Loan>, day: int): Money {
    TotalBillsPerFortnight(bills, day) + SumOf(loans, LoanPayment)
  }

  /** The screen commits more than the surplus computation subtracts: the
      difference is exactly the payments of the loans already paid. */
  lemma CommittedCountsPaidLoans(bills: seq<FixedBill>, loans: seq<Loan>, day: int)
    ensures TotalCommitted(bills, loans, day) ==
      TotalFixedBills(bills, day) + TotalLoansPayment(loans)
      + SumOf(Filter(loans, LoansSection.IsPaid), LoanPayment)
  {
    SameBillTotalAsHook(bills, day);
    var _ := LoansSection.TotalLoansPerFortnight(loans);
  }

  /** `isInactive`: the bill is pinned to the other fortnight. */
  predicate IsInactive(bill: FixedBill, currentFortnight: int) {
    HasExplicitFortnight(bill) && bill.fortnight.value != currentFortnight
  }

  /** The greyed-out bills are exactly those that add nothing to the
      fortnight's total (for a bill with a non-zero amount). */
  lemma InactiveIffNoContribution(bill: FixedBill, day: int)
    requires bill.amount != 0.0
    ensures IsInactive(bill, CurrentFortnight(day)) <==> BillContribution(bill, CurrentFortnight(day)) == 0.0
  {
  }
}
