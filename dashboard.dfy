/** The dashboard screen (src/components/Dashboard.tsx): which sheet or
    modal an action opens, the payroll income it logs, moving the fixed
    surplus, the two upcoming sinking funds and the goal amounts it shows. */
module Dashboard {
  import opened Collections
  import opened Entities
  import opened Projections
  import Commands
  import IncomeWizard
  import Ledger

  // -----------------------------------------------------------------------
  // Navigation

  /** The quick actions of the action sheet. */
  datatype Action = IncomeAction | TransferAction | GoalAction | PeriodicAction
                  | ExpenseAction | LoanAction | ExternalIncomeAction

  /** The actions that are edited in a centred modal rather than a sheet. */
  predicate OpensModal(a: Action) {
    a == GoalAction || a == PeriodicAction || a == ExpenseAction || a == LoanAction
  }

  /** `Nómina + Gasolina` for a payroll that carries gas money, else `Nómina`. */
  function IncomeConcept(includesGas: bool): (c: string)
    ensures includesGas <==> c == "Nómina + Gasolina"
    ensures !includesGas <==> c == "Nómina"
  {
    if includesGas then "Nómina + Gasolina" else "Nómina"
  }

  /** The payroll record `handleIncomeSubmit` passes to `addIncome`; the
      store's new id and the current time are parameters. */
  function PayrollIncome(sub: IncomeWizard.Submission, incomeId: Id, date: int): Income {
    Income(incomeId, date, IncomeConcept(sub.includesGas), sub.amount, sub.includesGas)
  }

  /** The surplus card shows when there is a surplus and something it could
      be committed to. */
  predicate ShowSurplusCard(surplus: Money, bills: seq<FixedBill>, loans: seq<Loan>) {
    surplus > 0.0 && (|bills| > 0 || |loans| > 0)
  }

  /** A card is only offered for money the fixed bucket really holds. */
  lemma SurplusCardHasMoney(s: Commands.Snapshot, day: int)
    requires ShowSurplusCard(FixedSurplus(s.categories, s.fixedBills, s.loans, day), s.fixedBills, s.loans)
    ensures 0 <= SlugIndex(s.categories, FixedSlug)
    ensures FixedSurplus(s.categories, s.fixedBills, s.loans, day) ==
      s.categories[SlugIndex(s.categories, FixedSlug)].amount
        - TotalFixedBills(s.fixedBills, day) - TotalLoansPayment(s.loans)
  {
  }

  // -----------------------------------------------------------------------
  // Moving the surplus

  /** Where the surplus card can send the money. */
  datatype SurplusTarget = ToSavings | ToVariable
  {
    function Slug(): string {
      match this
      case ToSavings => SavingsSlug
      case ToVariable => VariableSlug
    }
  }

  /** `handleMoveSurplus` on the state the screen was drawn from: with a
      surplus, transfer exactly it from the fixed bucket to the chosen one;
      without, nothing. The non-null assertion on the looked-up bucket
      throws when no category has its slug: that is the error. The screen
      is only drawn when the fixed bucket exists. */
  function MoveSurplus(s: Commands.Snapshot, day: int, to: SurplusTarget): (r: Result<Commands.Snapshot>)
    requires 0 <= SlugIndex(s.categories, FixedSlug)
    ensures FixedSurplus(s.categories, s.fixedBills, s.loans, day) <= 0.0 ==> r == Ok(s)
    ensures r.Err? <==> FixedSurplus(s.categories, s.fixedBills, s.loans, day) > 0.0 && SlugIndex(s.categories, to.Slug()) < 0
  {
    var surplus := FixedSurplus(s.categories, s.fixedBills, s.loans, day);
    if surplus > 0.0 then
      var kt := SlugIndex(s.categories, to.Slug());
      if kt < 0 then Err("Cannot read properties of undefined (reading 'id')")
      else Ok(Commands.TransferBetweenCategories(s, s.categories[SlugIndex(s.categories, FixedSlug)].id, s.categories[kt].id, surplus))
    else Ok(s)
  }

  /** Moving the surplus leaves the fixed bucket holding exactly what this
      fortnight's bills and active loans commit, so no surplus is left; the
      chosen bucket gains the whole surplus, every other bucket and every
      other table is unchanged, and the total balance is preserved. */
  lemma MoveSurplusEmptiesSurplus(s: Commands.Snapshot, day: int, to: SurplusTarget)
    requires Commands.WellFormed(s) && 0 <= SlugIndex(s.categories, FixedSlug)
    requires MoveSurplus(s, day, to).Ok?
    ensures var r := MoveSurplus(s, day, to).value;
      && r == s.(categories := r.categories)
      && FixedSurplus(r.categories, r.fixedBills, r.loans, day) == 0.0
      && TotalBalance(r.categories) == TotalBalance(s.categories)
    ensures var r := MoveSurplus(s, day, to).value;
      var surplus := FixedSurplus(s.categories, s.fixedBills, s.loans, day);
      var kt := SlugIndex(s.categories, to.Slug());
      && |r.categories| == |s.categories|
      && (surplus > 0.0 ==> 0 <= kt && r.categories[kt].amount == s.categories[kt].amount + surplus)
      && forall i :: 0 <= i < |s.categories| && s.categories[i].slug != FixedSlug && s.categories[i].slug != to.Slug() ==>
           r.categories[i] == s.categories[i]
  {
    var cats := s.categories;
    var surplus := FixedSurplus(cats, s.fixedBills, s.loans, day);
    if surplus > 0.0 {
      var kf := SlugIndex(cats, FixedSlug);
      var kt := SlugIndex(cats, to.Slug());
      var fromId, toId := cats[kf].id, cats[kt].id;
      SlugRow(cats, FixedSlug, kt);
      assert fromId != toId;
      Commands.TransferMoves(s, fromId, toId, surplus);
      Commands.TransferConserves(s, fromId, toId, surplus);
      Commands.TransferKeepsKeys(s, fromId, toId, surplus);
      var r := MoveSurplus(s, day, to).value;
      assert SlugIndex(r.categories, FixedSlug) == kf;
      assert r.categories[kf].amount == cats[kf].amount - surplus;
      forall i | 0 <= i < |cats| && cats[i].slug != FixedSlug && cats[i].slug != to.Slug()
        ensures r.categories[i] == cats[i]
      {
        SlugRow(cats, FixedSlug, i);
        SlugRow(cats, to.Slug(), i);
      }
    }
  }

  // -----------------------------------------------------------------------
  // Upcoming sinking funds

  /** A fund that has not yet reached its target. */
  predicate Underfunded(f: PeriodicExpense) {
    f.currentAmount < f.targetAmount
  }

  predicate SortedByDue(s: seq<PeriodicExpense>) {
    forall i, j :: 0 <= i < j < |s| ==> s[i].dueDate <= s[j].dueDate
  }

  /** Insert `f` before the first fund due no earlier than it. */
  function InsertByDue(f: PeriodicExpense, s: seq<PeriodicExpense>): (r: seq<PeriodicExpense>)
    ensures multiset(r) == multiset(s) + multiset{f}
  {
    if |s| == 0 || f.dueDate <= s[0].dueDate then [f] + s
    else
      assert s == [s[0]] + s[1..];
      [s[0]] + InsertByDue(f, s[1..])
  }

  /** Inserting into a sorted list keeps it sorted. */
  lemma {:induction false} InsertKeepsSorted(f: PeriodicExpense, s: seq<PeriodicExpense>)
    requires SortedByDue(s)
    ensures SortedByDue(InsertByDue(f, s))
  {
    if |s| > 0 && f.dueDate > s[0].dueDate {
      var t := InsertByDue(f, s[1..]);
      InsertKeepsSorted(f, s[1..]);
      forall j | 0 <= j < |t|
        ensures s[0].dueDate <= t[j].dueDate
      {
        assert t[j] in multiset(t);
        assert t[j] in multiset(s[1..]) || t[j] == f;
      }
    }
  }

  /** `sort((a, b) => a.dueDate - b.dueDate)`: ascending by due date, each
      fund inserted ahead of the later ones it ties with, as a stable sort
      keeps them. */
  function SortByDue(s: seq<PeriodicExpense>): (r: seq<PeriodicExpense>)
    ensures multiset(r) == multiset(s)
    ensures SortedByDue(r)
  {
    if |s| == 0 then []
    else
      assert s == [s[0]] + s[1..];
      InsertKeepsSorted(s[0], SortByDue(s[1..]));
      InsertByDue(s[0], SortByDue(s[1..]))
  }

  /** `upcomingExpenses`: the underfunded funds, soonest due first, at most two. */
  function UpcomingExpenses(funds: seq<PeriodicExpense>): seq<PeriodicExpense> {
    var sorted := SortByDue(Filter(funds, Underfunded));
    if |sorted| <= 2 then sorted else sorted[..2]
  }

  /** The upcoming list holds two funds when there are two or more
      underfunded ones and all of them otherwise; each is an underfunded fund
      of the list; and they come soonest first. */
  lemma UpcomingSelection(funds: seq<PeriodicExpense>)
    ensures var r := UpcomingExpenses(funds);
      var u := Filter(funds, Underfunded);
      && |r| == (if |u| < 2 then |u| else 2)
      && SortedByDue(r)
      && (forall f :: f in r ==> f in funds && Underfunded(f))
  {
    var u := Filter(funds, Underfunded);
    var sorted := SortByDue(u);
    var r := UpcomingExpenses(funds);
    FilterMembers(funds, Underfunded);
    assert |sorted| == |multiset(sorted)| == |multiset(u)| == |u|;
    forall f | f in r
      ensures f in u
    {
      assert f in multiset(sorted);
    }
  }

  /** An underfunded fund left out of the upcoming list is due no earlier
      than the second one shown. */
  lemma UpcomingLeftOutDueLater(funds: seq<PeriodicExpense>, f: PeriodicExpense)
    requires f in funds && Underfunded(f)
    ensures var r := UpcomingExpenses(funds);
      f !in r ==> |r| == 2 && r[1].dueDate <= f.dueDate
  {
    var sorted := SortByDue(Filter(funds, Underfunded));
    FilterMembers(funds, Underfunded);
    assert f in multiset(sorted);
    var j :| 0 <= j < |sorted| && sorted[j] == f;
    if j < 2 && 2 < |sorted| {
      assert sorted[..2][j] == f;
    }
  }

  // -----------------------------------------------------------------------
  // Goal amounts shown

  /** The savings bucket's balance, 0 without one. */
  function SavingsBalance(cats: seq<Category>): (b: Money)
    ensures SlugIndex(cats, SavingsSlug) < 0 ==> b == 0.0
    ensures 0 <= SlugIndex(cats, SavingsSlug) ==> b == cats[SlugIndex(cats, SavingsSlug)].amount
  {
    var k := SlugIndex(cats, SavingsSlug);
    if k >= 0 then cats[k].amount else 0.0
  }

  /** The amount a goal card shows: its allocation's share of the savings
      bucket, whatever the goal's own stored amount. */
  function DynamicGoalAmount(cats: seq<Category>, goal: Goal): Money {
    SavingsBalance(cats) * goal.allocationPercentage / 100.0
  }

  /** With a non-negative savings balance and an allocation between 0 and
      100, the shown amount is a part of the balance. */
  lemma DynamicAmountWithinSavings(cats: seq<Category>, goal: Goal)
    requires SavingsBalance(cats) >= 0.0 && 0.0 <= goal.allocationPercentage <= 100.0
    ensures 0.0 <= DynamicGoalAmount(cats, goal) <= SavingsBalance(cats)
  {
    var b, p := SavingsBalance(cats), goal.allocationPercentage;
    IncomeWizard.ProductNonnegative(b, p);
    IncomeWizard.ProductNonnegative(b, 100.0 - p);
    assert b * (100.0 - p) == b * 100.0 - b * p;
  }

  /** The stored amount plays no part in the shown one. */
  lemma DynamicIgnoresStored(cats: seq<Category>, goal: Goal, stored: Money)
    ensures DynamicGoalAmount(cats, goal.(currentAmount := stored)) == DynamicGoalAmount(cats, goal)
  {
  }

  /** The shown amounts of a list of goals add up to the savings balance
      times the sum of their allocations, so allocations that sum to at
      most 100 never show more than the bucket holds. */
  lemma {:induction false} DynamicAmountsShareSavings(cats: seq<Category>, goals: seq<Goal>)
    ensures SumOf(goals, (g: Goal) => DynamicGoalAmount(cats, g)) * 100.0 ==
      SavingsBalance(cats) * SumOf(goals, (g: Goal) => g.allocationPercentage)
  {
    if |goals| > 0 {
      DynamicAmountsShareSavings(cats, goals[1..]);
      var b := SavingsBalance(cats);
      var a, rest := goals[0].allocationPercentage, SumOf(goals[1..], (g: Goal) => g.allocationPercentage);
      assert b * (a + rest) == b * a + b * rest;
    }
  }

  /** The two goal amounts are kept apart: a goal-typed expense lowers the
      stored amount of its goal, floored at zero, but leaves every shown
      amount as it was, since no category moves. */
  lemma GoalExpenseLeavesShownAmount(s: Commands.Snapshot, e: Expense, goal: Goal)
    requires Commands.WellFormed(s) && e.categoryType == GoalKind && !e.isGas
    requires 0 <= GoalIndex(s.goals, e.categoryId)
    ensures var r := Commands.AddExpense(s, e);
      && DynamicGoalAmount(r.categories, goal) == DynamicGoalAmount(s.categories, goal)
      && r.goals[GoalIndex(r.goals, e.categoryId)].currentAmount ==
           Max(0.0, s.goals[GoalIndex(s.goals, e.categoryId)].currentAmount - e.amount)
  {
    Commands.AddExpenseEffect(s, e);
  }

  // -----------------------------------------------------------------------
  // The screen's state

  class Screen {
    var activeSheet: Option<Action>
    var activeModal: Option<Action>

    constructor()
      ensures activeSheet.None? && activeModal.None?
    {
      activeSheet := None;
      activeModal := None;
    }

    /** `handleAction`: goal, fund, expense and loan close the sheet and
        open their modal; the others open their sheet and leave the modal. */
    method HandleAction(a: Action)
      modifies this
      ensures OpensModal(a) ==> activeSheet.None? && activeModal == Some(a)
      ensures !OpensModal(a) ==> activeSheet == Some(a) && activeModal == old(activeModal)
    {
      if OpensModal(a) {
        activeSheet := None;
        activeModal := Some(a);
      } else {
        activeSheet := Some(a);
      }
    }

    /** `handleIncomeSubmit`: log the payroll with its concept and split,
        then close the sheet. */
    method HandleIncomeSubmit(budget: Ledger.Budget, sub: IncomeWizard.Submission, incomeId: Id, date: int)
      modifies this, budget
      ensures budget.State() == Commands.AddIncome(old(budget.State()), PayrollIncome(sub, incomeId, date), sub.distribution)
      ensures old(budget.Valid()) ==> budget.Valid()
      ensures activeSheet.None? && activeModal == old(activeModal)
    {
      budget.AddIncome(PayrollIncome(sub, incomeId, date), sub.distribution);
      activeSheet := None;
    }

    /** `handleMoveSurplus` on the store the screen was drawn from. */
    method HandleMoveSurplus(budget: Ledger.Budget, day: int, to: SurplusTarget) returns (error: Option<string>)
      requires 0 <= SlugIndex(budget.categories, FixedSlug)
      modifies budget
      ensures var r := MoveSurplus(old(budget.State()), day, to);
        && (r.Ok? ==> error.None? && budget.State() == r.value)
        && (r.Err? ==> error == Some(r.message) && budget.State() == old(budget.State()))
      ensures old(budget.Valid()) ==> budget.Valid()
    {
      var cats := budget.categories;
      var surplus := FixedSurplus(cats, budget.fixedBills, budget.loans, day);
      error := None;
      if surplus > 0.0 {
        var kt := SlugIndex(cats, to.Slug());
        if kt < 0 {
          error := Some("Cannot read properties of undefined (reading 'id')");
          return;
        }
        budget.TransferBetweenCategories(cats[SlugIndex(cats, FixedSlug)].id, cats[kt].id, surplus);
      }
    }
  }

  /** A payroll without gas raises the total balance by its split, which
      is within 1.5 of the entered amount when the split covers 100% and
      all three buckets exist. */
  lemma PayrollCreditsItsAmount(s: Commands.Snapshot, amount: real, p: IncomeWizard.Percentages, incomeId: Id, date: int)
    requires Commands.WellFormed(s) && p.fixed + p.savings + p.variable == 100
    requires 0 <= SlugIndex(s.categories, FixedSlug) && 0 <= SlugIndex(s.categories, SavingsSlug)
    requires 0 <= SlugIndex(s.categories, VariableSlug)
    ensures var sub := IncomeWizard.Submission(amount, false, IncomeWizard.Amounts(amount, p));
      var r := Commands.AddIncome(s, PayrollIncome(sub, incomeId, date), sub.distribution);
      && r.incomes == s.incomes + [Income(incomeId, date, "Nómina", amount, false)]
      && amount - 1.5 < TotalBalance(r.categories) - TotalBalance(s.categories) <= amount + 1.5
  {
    var d := IncomeWizard.Amounts(amount, p);
    var sub := IncomeWizard.Submission(amount, false, d);
    Commands.AddIncomeTotal(s, PayrollIncome(sub, incomeId, date), d);
    IncomeWizard.AmountsDrift(amount, p);
  }
}
