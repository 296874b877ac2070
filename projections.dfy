/** The derived state of the budget hook: pure folds over the tables,
    recomputed from the latest snapshot on every read
    (src/hooks/useBudget.ts, lines 197-211 and 633-678). */
module Projections {
  import opened Collections
  import opened Entities

  /** Selects the loan-typed expenses paid against `loanId`. */
  function PaidTowards(loanId: Id): Expense -> bool {
    (e: Expense) => e.categoryType == LoanKind && e.categoryId == loanId
  }

  function IsGasIncome(i: Income): bool { i.includesGas }
  function IsGasExpense(e: Expense): bool { e.isGas }
  function IsActive(l: Loan): bool { l.status == Active }

  /** Amount repaid on a loan: the sum of its loan-typed expenses. */
  function LoanPaid(expenses: seq<Expense>, loanId: Id): Money
  {
    SumOf(Filter(expenses, PaidTowards(loanId)), ExpenseAmount)
  }

  /** `loansWithProgress`: every loan with its `currentAmount` taken from
      the expense log rather than from the stored row. */
  function LoansWithProgress(loans: seq<Loan>, expenses: seq<Expense>): (r: seq<Loan>)
    ensures |r| == |loans|
    ensures forall i :: 0 <= i < |loans| ==>
      r[i] == loans[i].(currentAmount := LoanPaid(expenses, loans[i].id))
  {
    seq(|loans|, i requires 0 <= i < |loans| => loans[i].(currentAmount := LoanPaid(expenses, loans[i].id)))
  }

  function TotalBalance(cats: seq<Category>): Money
  {
    SumOf(cats, CategoryAmount)
  }

  function TotalGasIncome(incomes: seq<Income>): Money
  {
    SumOf(Filter(incomes, IsGasIncome), IncomeAmount)
  }

  function TotalGasExpenses(expenses: seq<Expense>): Money
  {
    SumOf(Filter(expenses, IsGasExpense), ExpenseAmount)
  }

  /** What is left of the gas sub-ledger, floored at zero. */
  function GasAvailable(incomes: seq<Income>, expenses: seq<Expense>): (r: Money)
    ensures r >= 0.0
    ensures r >= TotalGasIncome(incomes) - TotalGasExpenses(expenses)
    ensures r == 0.0 || r == TotalGasIncome(incomes) - TotalGasExpenses(expenses)
  {
    Max(0.0, TotalGasIncome(incomes) - TotalGasExpenses(expenses))
  }

  /** Pay period of a day of the month: days 15 to 29 are fortnight 1,
      every other day (30, 31, 1 to 14) is fortnight 2. */
  function CurrentFortnight(day: int): (f: int)
    ensures f == 1 || f == 2
    ensures f == 1 <==> 15 <= day <= 29
  {
    if 15 <= day <= 29 then 1 else 2
  }

  /** Whether the bill carries an explicit fortnight (`Number(fortnight)` is 1 or 2). */
  predicate HasExplicitFortnight(bill: FixedBill) {
    bill.fortnight.Some? && (bill.fortnight.value == 1 || bill.fortnight.value == 2)
  }

  /** What one bill adds to the total of the current fortnight. */
  function BillContribution(bill: FixedBill, fortnight: int): (r: Money)
    ensures HasExplicitFortnight(bill) ==>
      r == (if bill.fortnight.value == fortnight then bill.amount else 0.0)
    ensures !HasExplicitFortnight(bill) && bill.frequency == Biweekly ==> r == bill.amount
    ensures !HasExplicitFortnight(bill) && bill.frequency == Monthly ==> r * 2.0 == bill.amount
  {
    if HasExplicitFortnight(bill) then
      if bill.fortnight.value == fortnight then bill.amount else 0.0
    else if bill.frequency == Biweekly then bill.amount
    else bill.amount / 2.0
  }

  function ContributionIn(fortnight: int): FixedBill -> Money {
    (b: FixedBill) => BillContribution(b, fortnight)
  }

  /** `getTotalFixedBills` for a given day of the month. */
  function TotalFixedBills(bills: seq<FixedBill>, day: int): Money
  {
    SumOf(bills, ContributionIn(CurrentFortnight(day)))
  }

  /** `activeLoans`: the loans whose status is active, in their order. */
  function ActiveLoans(loans: seq<Loan>): (r: seq<Loan>)
    ensures IsSubsequence(r, loans)
    ensures forall l :: l in r <==> l in loans && l.status == Active
    ensures forall l :: multiset(r)[l] == if l.status == Active then multiset(loans)[l] else 0
  {
    FilterIsSubsequence(loans, IsActive);
    FilterMembers(loans, IsActive);
    FilterCount(loans, IsActive);
    Filter(loans, IsActive)
  }

  /** `getTotalLoansPayment`: the fortnightly payments of the active loans only. */
  function TotalLoansPayment(loans: seq<Loan>): Money
  {
    SumOf(ActiveLoans(loans), LoanPayment)
  }

  /** `getFixedSurplus`: the fixed balance not yet earmarked for this
      fortnight's bills and active-loan payments, never negative. */
  function FixedSurplus(cats: seq<Category>, bills: seq<FixedBill>, loans: seq<Loan>, day: int): (r: Money)
    ensures r >= 0.0
    ensures SlugIndex(cats, FixedSlug) < 0 ==> r == 0.0
    ensures 0 <= SlugIndex(cats, FixedSlug) ==>
      var committed := TotalFixedBills(bills, day) + TotalLoansPayment(loans);
      var fixed := cats[SlugIndex(cats, FixedSlug)].amount;
      r >= fixed - committed && (r == 0.0 || r == fixed - committed)
  {
    var k := SlugIndex(cats, FixedSlug);
    if k < 0 then 0.0
    else Max(0.0, cats[k].amount - TotalFixedBills(bills, day) - TotalLoansPayment(loans))
  }

  // ---------------------------------------------------------------------
  // Properties of the projections

  /** A payment appended to the log raises exactly that loan's progress. */
  lemma {:induction false} LoanPaidAfterAppend(expenses: seq<Expense>, e: Expense, loanId: Id)
    ensures LoanPaid(expenses + [e], loanId) ==
      LoanPaid(expenses, loanId) + (if e.categoryType == LoanKind && e.categoryId == loanId then e.amount else 0.0)
  {
    FilterAppend(expenses, [e], PaidTowards(loanId));
    SumOfAppend(Filter(expenses, PaidTowards(loanId)), Filter([e], PaidTowards(loanId)), ExpenseAmount);
    assert Filter([e], PaidTowards(loanId)) == if PaidTowards(loanId)(e) then [e] else [];
  }

  /** Only gas-flagged expenses move the gas sub-ledger, by their amount. */
  lemma {:induction false} GasExpensesAfterAppend(expenses: seq<Expense>, e: Expense)
    ensures TotalGasExpenses(expenses + [e]) ==
      TotalGasExpenses(expenses) + (if e.isGas then e.amount else 0.0)
  {
    FilterAppend(expenses, [e], IsGasExpense);
    SumOfAppend(Filter(expenses, IsGasExpense), Filter([e], IsGasExpense), ExpenseAmount);
    assert Filter([e], IsGasExpense) == if e.isGas then [e] else [];
  }

  lemma {:induction false} GasIncomeAfterAppend(incomes: seq<Income>, i: Income)
    ensures TotalGasIncome(incomes + [i]) ==
      TotalGasIncome(incomes) + (if i.includesGas then i.amount else 0.0)
  {
    FilterAppend(incomes, [i], IsGasIncome);
    SumOfAppend(Filter(incomes, IsGasIncome), Filter([i], IsGasIncome), IncomeAmount);
    assert Filter([i], IsGasIncome) == if i.includesGas then [i] else [];
  }

  /** A monthly bill without an explicit fortnight weighs half its amount
      in every fortnight; one tied to fortnight 1 weighs its full amount on
      days 15 to 29 and nothing on the other days. */
  lemma ProrationByDay(bill: FixedBill, day: int)
    ensures !HasExplicitFortnight(bill) && bill.frequency == Monthly ==>
      TotalFixedBills([bill], day) * 2.0 == bill.amount
    ensures bill.fortnight == Some(1) ==>
      TotalFixedBills([bill], day) == (if 15 <= day <= 29 then bill.amount else 0.0)
  {
    assert TotalFixedBills([bill], day) == BillContribution(bill, CurrentFortnight(day)) + SumOf([bill][1..], ContributionIn(CurrentFortnight(day)));
  }

  /** With non-negative payments, the active loans weigh at most all loans. */
  lemma {:induction false} ActiveLoansAtMostAll(loans: seq<Loan>)
    requires forall i :: 0 <= i < |loans| ==> loans[i].paymentPerFortnight >= 0.0
    ensures 0.0 <= TotalLoansPayment(loans) <= SumOf(loans, LoanPayment)
  {
    var notActive := (l: Loan) => !IsActive(l);
    SumOfFilterSplit(loans, IsActive, notActive, LoanPayment);
    var paid := Filter(loans, notActive);
    FilterMembers(loans, notActive);
    assert forall i :: 0 <= i < |paid| ==> paid[i].paymentPerFortnight >= 0.0 by {
      forall i | 0 <= i < |paid| ensures paid[i].paymentPerFortnight >= 0.0 {
        assert paid[i] in loans;
      }
    }
    SumOfNonnegative(paid, LoanPayment);
    var active := ActiveLoans(loans);
    assert forall i :: 0 <= i < |active| ==> active[i].paymentPerFortnight >= 0.0 by {
      forall i | 0 <= i < |active| ensures active[i].paymentPerFortnight >= 0.0 {
        assert active[i] in loans;
      }
    }
    SumOfNonnegative(active, LoanPayment);
  }

  /** When nothing is committed negatively, the surplus never exceeds the
      fixed balance (nor zero). */
  lemma SurplusAtMostFixedBalance(cats: seq<Category>, bills: seq<FixedBill>, loans: seq<Loan>, day: int)
    requires forall i :: 0 <= i < |bills| ==> bills[i].amount >= 0.0
    requires forall i :: 0 <= i < |loans| ==> loans[i].paymentPerFortnight >= 0.0
    ensures FixedSurplus(cats, bills, loans, day) <=
      Max(0.0, if SlugIndex(cats, FixedSlug) < 0 then 0.0 else cats[SlugIndex(cats, FixedSlug)].amount)
  {
    var f := ContributionIn(CurrentFortnight(day));
    assert forall i :: 0 <= i < |bills| ==> f(bills[i]) >= 0.0;
    SumOfNonnegative(bills, f);
    ActiveLoansAtMostAll(loans);
  }
}
