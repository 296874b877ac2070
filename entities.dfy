/** The ledger's records, as the budget hook declares them
    (src/hooks/useBudget.ts, lines 8-73). Money is an exact `real`; dates
    are integer timestamps supplied by the caller. */
module Entities {
  import opened Collections

  type Id = string
  type Money = real

  const FixedSlug: string := "fixed"
  const SavingsSlug: string := "savings"
  const VariableSlug: string := "variable"

  /** One of the three budget buckets; `amount` is its balance. */
  datatype Category = Category(
    id: Id, slug: string, name: string, nameEs: string, percentage: real, amount: Money)

  datatype Goal = Goal(
    id: Id, name: string, targetAmount: Money, currentAmount: Money,
    allocationPercentage: real, dueDate: Option<int>)

  datatype FundFrequency = MonthlyFund | QuarterlyFund | YearlyFund

  /** A sinking fund ("gasto periódico"). */
  datatype PeriodicExpense = PeriodicExpense(
    id: Id, name: string, targetAmount: Money, currentAmount: Money,
    dueDate: int, frequency: FundFrequency)

  datatype Income = Income(id: Id, date: int, concept: string, amount: Money, includesGas: bool)

  datatype BillFrequency = Monthly | Biweekly

  /** `fortnight` is the optional explicit pay period (1 or 2); `None` is null. */
  datatype FixedBill = FixedBill(
    id: Id, name: string, amount: Money, frequency: BillFrequency, fortnight: Option<int>)

  /** The `categoryType` of an expense: which table `categoryId` points into. */
  datatype ExpenseKind = FixedKind | SavingsKind | VariableKind | GoalKind | PeriodicKind | LoanKind
  {
    /** The kind's name as stored. */
    function Name(): string {
      match this
      case FixedKind => "fixed"
      case SavingsKind => "savings"
      case VariableKind => "variable"
      case GoalKind => "goal"
      case PeriodicKind => "periodic"
      case LoanKind => "loan"
    }

    /** `['fixed', 'savings', 'variable'].includes(categoryType)`. */
    predicate IsBase() {
      FixedKind? || SavingsKind? || VariableKind?
    }
  }

  datatype Expense = Expense(
    id: Id, date: int, amount: Money, categoryId: Id, categoryType: ExpenseKind,
    description: string, isGas: bool)

  datatype DurationType = Fortnights | Months

  datatype LoanStatus = Active | Paid

  /** `currentAmount` is only a cache: the hook recomputes it from the
      expense log (see Projections.LoansWithProgress). */
  datatype Loan = Loan(
    id: Id, name: string, totalAmount: Money, currentAmount: Money,
    durationValue: real, durationType: DurationType, paymentPerFortnight: Money,
    startDate: int, status: LoanStatus)

  /** Selectors used with Collections.Filter. */
  function ExpenseWithoutId(id: Id): Expense -> bool { (e: Expense) => e.id != id }
  function IncomeWithoutId(id: Id): Income -> bool { (i: Income) => i.id != id }

  function CategoryAmount(c: Category): Money { c.amount }
  function IncomeAmount(i: Income): Money { i.amount }
  function ExpenseAmount(e: Expense): Money { e.amount }
  function LoanPayment(l: Loan): Money { l.paymentPerFortnight }

  // The key columns of the tables. A lookup `find(x => x.id === id)` is
  // the row at `IndexOf` of the id in its table's key column.

  function CategoryIds(cats: seq<Category>): (r: seq<Id>)
    ensures |r| == |cats| && forall i {:trigger r[i]} :: 0 <= i < |cats| ==> r[i] == cats[i].id
  {
    if |cats| == 0 then [] else [cats[0].id] + CategoryIds(cats[1..])
  }

  function CategorySlugs(cats: seq<Category>): (r: seq<string>)
    ensures |r| == |cats| && forall i {:trigger r[i]} :: 0 <= i < |cats| ==> r[i] == cats[i].slug
  {
    if |cats| == 0 then [] else [cats[0].slug] + CategorySlugs(cats[1..])
  }

  function GoalIds(goals: seq<Goal>): (r: seq<Id>)
    ensures |r| == |goals| && forall i {:trigger r[i]} :: 0 <= i < |goals| ==> r[i] == goals[i].id
  {
    if |goals| == 0 then [] else [goals[0].id] + GoalIds(goals[1..])
  }

  function FundIds(funds: seq<PeriodicExpense>): (r: seq<Id>)
    ensures |r| == |funds| && forall i {:trigger r[i]} :: 0 <= i < |funds| ==> r[i] == funds[i].id
  {
    if |funds| == 0 then [] else [funds[0].id] + FundIds(funds[1..])
  }

  function ExpenseIds(expenses: seq<Expense>): (r: seq<Id>)
    ensures |r| == |expenses| && forall i {:trigger r[i]} :: 0 <= i < |expenses| ==> r[i] == expenses[i].id
  {
    if |expenses| == 0 then [] else [expenses[0].id] + ExpenseIds(expenses[1..])
  }

  /** `categories.findIndex(c => c.id === x)`. */
  function CategoryIndex(cats: seq<Category>, x: Id): (k: int)
    ensures -1 <= k < |cats|
    ensures k < 0 ==> forall i :: 0 <= i < |cats| ==> cats[i].id != x
    ensures 0 <= k ==> cats[k].id == x && forall i :: 0 <= i < k ==> cats[i].id != x
  {
    var keys := CategoryIds(cats);
    assert forall i :: 0 <= i < |cats| ==> keys[i] == cats[i].id;
    IndexOf(keys, x)
  }

  /** `categories.findIndex(c => c.slug === x)`. */
  function SlugIndex(cats: seq<Category>, x: string): (k: int)
    ensures -1 <= k < |cats|
    ensures k < 0 ==> forall i :: 0 <= i < |cats| ==> cats[i].slug != x
    ensures 0 <= k ==> cats[k].slug == x && forall i :: 0 <= i < k ==> cats[i].slug != x
  {
    var keys := CategorySlugs(cats);
    assert forall i :: 0 <= i < |cats| ==> keys[i] == cats[i].slug;
    IndexOf(keys, x)
  }

  /** `goals.findIndex(g => g.id === x)`. */
  function GoalIndex(goals: seq<Goal>, x: Id): (k: int)
    ensures -1 <= k < |goals|
    ensures k < 0 ==> forall i :: 0 <= i < |goals| ==> goals[i].id != x
    ensures 0 <= k ==> goals[k].id == x && forall i :: 0 <= i < k ==> goals[i].id != x
  {
    var keys := GoalIds(goals);
    assert forall i :: 0 <= i < |goals| ==> keys[i] == goals[i].id;
    IndexOf(keys, x)
  }

  /** `periodicExpenses.findIndex(p => p.id === x)`. */
  function FundIndex(funds: seq<PeriodicExpense>, x: Id): (k: int)
    ensures -1 <= k < |funds|
    ensures k < 0 ==> forall i :: 0 <= i < |funds| ==> funds[i].id != x
    ensures 0 <= k ==> funds[k].id == x && forall i :: 0 <= i < k ==> funds[i].id != x
  {
    var keys := FundIds(funds);
    assert forall i :: 0 <= i < |funds| ==> keys[i] == funds[i].id;
    IndexOf(keys, x)
  }

  /** `expenses.findIndex(e => e.id === x)`. */
  function ExpenseIndex(expenses: seq<Expense>, x: Id): (k: int)
    ensures -1 <= k < |expenses|
    ensures k < 0 ==> forall i :: 0 <= i < |expenses| ==> expenses[i].id != x
    ensures 0 <= k ==> expenses[k].id == x && forall i :: 0 <= i < k ==> expenses[i].id != x
  {
    var keys := ExpenseIds(expenses);
    assert forall i :: 0 <= i < |expenses| ==> keys[i] == expenses[i].id;
    IndexOf(keys, x)
  }

  predicate UniqueCategoryIds(cats: seq<Category>) { NoDuplicates(CategoryIds(cats)) }
  predicate UniqueCategorySlugs(cats: seq<Category>) { NoDuplicates(CategorySlugs(cats)) }
  predicate UniqueGoalIds(goals: seq<Goal>) { NoDuplicates(GoalIds(goals)) }
  predicate UniqueFundIds(funds: seq<PeriodicExpense>) { NoDuplicates(FundIds(funds)) }

  /** With unique keys, the row at `k` is the one found by its key, and
      no other row carries that key. */
  lemma UniqueCategoryIdAt(cats: seq<Category>, k: int)
    requires UniqueCategoryIds(cats) && 0 <= k < |cats|
    ensures CategoryIndex(cats, cats[k].id) == k
    ensures forall i :: 0 <= i < |cats| && i != k ==> cats[i].id != cats[k].id
  {
    var keys := CategoryIds(cats);
    NoDuplicatesIndex(keys, k);
    assert forall i :: 0 <= i < |cats| ==> keys[i] == cats[i].id;
  }

  lemma UniqueCategorySlugAt(cats: seq<Category>, k: int)
    requires UniqueCategorySlugs(cats) && 0 <= k < |cats|
    ensures SlugIndex(cats, cats[k].slug) == k
    ensures forall i :: 0 <= i < |cats| && i != k ==> cats[i].slug != cats[k].slug
  {
    var keys := CategorySlugs(cats);
    NoDuplicatesIndex(keys, k);
    assert forall i :: 0 <= i < |cats| ==> keys[i] == cats[i].slug;
  }

  lemma UniqueGoalIdAt(goals: seq<Goal>, k: int)
    requires UniqueGoalIds(goals) && 0 <= k < |goals|
    ensures GoalIndex(goals, goals[k].id) == k
    ensures forall i :: 0 <= i < |goals| && i != k ==> goals[i].id != goals[k].id
  {
    var keys := GoalIds(goals);
    NoDuplicatesIndex(keys, k);
    assert forall i :: 0 <= i < |goals| ==> keys[i] == goals[i].id;
  }

  lemma UniqueFundIdAt(funds: seq<PeriodicExpense>, k: int)
    requires UniqueFundIds(funds) && 0 <= k < |funds|
    ensures FundIndex(funds, funds[k].id) == k
    ensures forall i :: 0 <= i < |funds| && i != k ==> funds[i].id != funds[k].id
  {
    var keys := FundIds(funds);
    NoDuplicatesIndex(keys, k);
    assert forall i :: 0 <= i < |funds| ==> keys[i] == funds[i].id;
  }

  /** With unique ids and slugs, the row found by a slug is the only row
      with that slug, and the only row with its id. */
  lemma SlugRow(cats: seq<Category>, slug: string, i: int)
    requires UniqueCategoryIds(cats) && UniqueCategorySlugs(cats) && 0 <= i < |cats|
    ensures var k := SlugIndex(cats, slug);
      && ((0 <= k && cats[i].id == cats[k].id) <==> cats[i].slug == slug)
      && (cats[i].slug == slug ==> k == i)
  {
    var k := SlugIndex(cats, slug);
    UniqueCategorySlugAt(cats, i);
    if 0 <= k {
      UniqueCategoryIdAt(cats, k);
    }
  }
}
