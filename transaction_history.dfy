/** The expense history (src/components/TransactionHistory.tsx): the name
    shown for an expense's target, the filter tabs and the filtered total. */
module TransactionHistory {
  import opened Collections
  import opened Entities

  /** The name shown for what an expense was paid from: a goal's or fund's
      name (a missing or empty one falls back to a generic label), else the
      bucket's Spanish name, else `'Otro'`. */
  function CategoryName(e: Expense, cats: seq<Category>, goals: seq<Goal>, funds: seq<PeriodicExpense>): (n: string)
    ensures e.categoryType == GoalKind ==>
      var k := GoalIndex(goals, e.categoryId);
      n == (if k >= 0 && goals[k].name != "" then goals[k].name else "Meta")
    ensures e.categoryType == PeriodicKind ==>
      var k := FundIndex(funds, e.categoryId);
      n == (if k >= 0 && funds[k].name != "" then funds[k].name else "Gasto Periódico")
    ensures e.categoryType != GoalKind && e.categoryType != PeriodicKind ==>
      var k := CategoryIndex(cats, e.categoryId);
      n == (if k >= 0 then cats[k].nameEs else "Otro")
  {
    if e.categoryType == GoalKind then
      var k := GoalIndex(goals, e.categoryId);
      if k >= 0 && goals[k].name != "" then goals[k].name else "Meta"
    else if e.categoryType == PeriodicKind then
      var k := FundIndex(funds, e.categoryId);
      if k >= 0 && funds[k].name != "" then funds[k].name else "Gasto Periódico"
    else
      var k := CategoryIndex(cats, e.categoryId);
      if k >= 0 then cats[k].nameEs else "Otro"
  }

  /** Only a bucket with an empty Spanish name can show an empty label. */
  lemma CategoryNameNonEmpty(e: Expense, cats: seq<Category>, goals: seq<Goal>, funds: seq<PeriodicExpense>)
    requires forall i :: 0 <= i < |cats| ==> cats[i].nameEs != ""
    ensures CategoryName(e, cats, goals, funds) != ""
  {
  }

  datatype Bucket = FixedBucket | SavingsBucket | VariableBucket
  {
    function Name(): string {
      match this
      case FixedBucket => "fixed"
      case SavingsBucket => "savings"
      case VariableBucket => "variable"
    }

    function Kind(): ExpenseKind {
      match this
      case FixedBucket => FixedKind
      case SavingsBucket => SavingsKind
      case VariableBucket => VariableKind
    }
  }

  /** The filter tabs. */
  datatype HistoryFilter = AllExpenses | CurrentMonth | CurrentFortnight | ByBucket(bucket: Bucket)

  /** The instants the date tabs compare with: the first and last instant
      of this month, fifteen days ago, and now. */
  datatype Window = Window(monthStart: int, monthEnd: int, fortnightStart: int, now: int)

  /** Whether the tab keeps the expense; the intervals are closed. A bucket
      tab keeps an expense whose id or whose type carries the bucket's name. */
  predicate Keeps(f: HistoryFilter, w: Window, e: Expense) {
    match f
    case CurrentMonth => w.monthStart <= e.date <= w.monthEnd
    case CurrentFortnight => w.fortnightStart <= e.date <= w.now
    case ByBucket(b) => e.categoryId == b.Name() || e.categoryType.Name() == b.Name()
    case AllExpenses => true
  }

  function Keeper(f: HistoryFilter, w: Window): Expense -> bool {
    (e: Expense) => Keeps(f, w, e)
  }

  /** `filteredExpenses`: the kept expenses in their order. */
  function FilteredExpenses(expenses: seq<Expense>, f: HistoryFilter, w: Window): (r: seq<Expense>)
    ensures IsSubsequence(r, expenses)
    ensures forall e :: e in r <==> e in expenses && Keeps(f, w, e)
    ensures forall e :: multiset(r)[e] == if Keeps(f, w, e) then multiset(expenses)[e] else 0
  {
    FilterIsSubsequence(expenses, Keeper(f, w));
    FilterMembers(expenses, Keeper(f, w));
    FilterCount(expenses, Keeper(f, w));
    Filter(expenses, Keeper(f, w))
  }

  /** `totalFiltered`. */
  function TotalFiltered(expenses: seq<Expense>, f: HistoryFilter, w: Window): Money {
    SumOf(FilteredExpenses(expenses, f, w), ExpenseAmount)
  }

  /** The default tab shows every expense and their whole total. */
  lemma AllKeepsEverything(expenses: seq<Expense>, w: Window)
    ensures FilteredExpenses(expenses, AllExpenses, w) == expenses
    ensures TotalFiltered(expenses, AllExpenses, w) == SumOf(expenses, ExpenseAmount)
  {
    FilterAll(expenses, Keeper(AllExpenses, w));
  }

  /** What a tab shows plus what it hides is the whole log. */
  lemma ShownPlusHidden(expenses: seq<Expense>, f: HistoryFilter, w: Window)
    ensures TotalFiltered(expenses, f, w) + SumOf(Filter(expenses, (e: Expense) => !Keeps(f, w, e)), ExpenseAmount)
         == SumOf(expenses, ExpenseAmount)
  {
    SumOfFilterSplit(expenses, Keeper(f, w), (e: Expense) => !Keeps(f, w, e), ExpenseAmount);
  }

  /** The type names are matched literally, so the kind an expense carries
      decides the bucket tab: a goal, fund or loan payment with a generated
      id appears under no bucket tab. */
  lemma BucketTabByKind(e: Expense, b: Bucket, w: Window)
    requires e.categoryId != "fixed" && e.categoryId != "savings" && e.categoryId != "variable"
    ensures Keeps(ByBucket(b), w, e) <==> e.categoryType == b.Kind()
  {
    match e.categoryType
    case FixedKind =>
    case SavingsKind =>
    case VariableKind =>
    case GoalKind =>
    case PeriodicKind =>
    case LoanKind =>
  }
}
