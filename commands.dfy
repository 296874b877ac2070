/** The ledger commands of the budget hook as functions from one snapshot
    of the store to the next (src/hooks/useBudget.ts, lines 216-289 and
    424-710). Each command reads the cached snapshot it was issued against,
    as the hook does, except step 4 of `updateExpense`, which re-reads the
    store after its own first writes. */
module Commands {
  import opened Collections
  import opened Entities
  import opened Projections

  /** The store's tables, each in store order. */
  datatype Snapshot = Snapshot(
    categories: seq<Category>,
    goals: seq<Goal>,
    periodicExpenses: seq<PeriodicExpense>,
    incomes: seq<Income>,
    fixedBills: seq<FixedBill>,
    loans: seq<Loan>,
    expenses: seq<Expense>)

  /** Rows are keyed by unique ids and there is one category per slug. */
  predicate WellFormed(s: Snapshot) {
    && UniqueCategoryIds(s.categories)
    && UniqueCategorySlugs(s.categories)
    && UniqueGoalIds(s.goals)
    && UniqueFundIds(s.periodicExpenses)
  }

  /** The per-bucket amounts an income is split into. */
  datatype Distribution = Distribution(fixed: Money, savings: Money, variable: Money)

  // -----------------------------------------------------------------------
  // Row writes: `update({...}).eq('id', id)` rewrites every row with that id.

  function SetCategoryAmount(cats: seq<Category>, id: Id, amount: Money): (r: seq<Category>)
    ensures |r| == |cats|
    ensures forall i {:trigger r[i]} :: 0 <= i < |cats| ==>
      r[i] == if cats[i].id == id then cats[i].(amount := amount) else cats[i]
  {
    if |cats| == 0 then []
    else
      [if cats[0].id == id then cats[0].(amount := amount) else cats[0]] + SetCategoryAmount(cats[1..], id, amount)
  }

  function SetGoalAmount(goals: seq<Goal>, id: Id, amount: Money): (r: seq<Goal>)
    ensures |r| == |goals|
    ensures forall i {:trigger r[i]} :: 0 <= i < |goals| ==>
      r[i] == if goals[i].id == id then goals[i].(currentAmount := amount) else goals[i]
  {
    if |goals| == 0 then []
    else
      [if goals[0].id == id then goals[0].(currentAmount := amount) else goals[0]] + SetGoalAmount(goals[1..], id, amount)
  }

  function SetFundAmount(funds: seq<PeriodicExpense>, id: Id, amount: Money): (r: seq<PeriodicExpense>)
    ensures |r| == |funds|
    ensures forall i {:trigger r[i]} :: 0 <= i < |funds| ==>
      r[i] == if funds[i].id == id then funds[i].(currentAmount := amount) else funds[i]
  {
    if |funds| == 0 then []
    else
      [if funds[0].id == id then funds[0].(currentAmount := amount) else funds[0]] + SetFundAmount(funds[1..], id, amount)
  }

  // Read a row by id, then write its balance plus or minus an amount; a
  // missing row is left alone. A debit is floored at zero, a credit is not.

  function CreditCategory(cats: seq<Category>, id: Id, amount: Money): (r: seq<Category>)
    ensures CategoryIds(r) == CategoryIds(cats) && CategorySlugs(r) == CategorySlugs(cats)
  {
    var k := CategoryIndex(cats, id);
    if k < 0 then cats
    else
      var x := cats[k].amount + amount;
      SetCategoryKeys(cats, id, x); SetCategoryAmount(cats, id, x)
  }

  function DebitCategory(cats: seq<Category>, id: Id, amount: Money): (r: seq<Category>)
    ensures CategoryIds(r) == CategoryIds(cats) && CategorySlugs(r) == CategorySlugs(cats)
  {
    var k := CategoryIndex(cats, id);
    if k < 0 then cats
    else
      var x := Max(0.0, cats[k].amount - amount);
      SetCategoryKeys(cats, id, x); SetCategoryAmount(cats, id, x)
  }

  function CreditGoal(goals: seq<Goal>, id: Id, amount: Money): (r: seq<Goal>)
    ensures GoalIds(r) == GoalIds(goals)
  {
    var k := GoalIndex(goals, id);
    if k < 0 then goals
    else
      var x := goals[k].currentAmount + amount;
      SetGoalKeys(goals, id, x); SetGoalAmount(goals, id, x)
  }

  function DebitGoal(goals: seq<Goal>, id: Id, amount: Money): (r: seq<Goal>)
    ensures GoalIds(r) == GoalIds(goals)
  {
    var k := GoalIndex(goals, id);
    if k < 0 then goals
    else
      var x := Max(0.0, goals[k].currentAmount - amount);
      SetGoalKeys(goals, id, x); SetGoalAmount(goals, id, x)
  }

  function CreditFund(funds: seq<PeriodicExpense>, id: Id, amount: Money): (r: seq<PeriodicExpense>)
    ensures FundIds(r) == FundIds(funds)
  {
    var k := FundIndex(funds, id);
    if k < 0 then funds
    else
      var x := funds[k].currentAmount + amount;
      SetFundKeys(funds, id, x); SetFundAmount(funds, id, x)
  }

  function DebitFund(funds: seq<PeriodicExpense>, id: Id, amount: Money): (r: seq<PeriodicExpense>)
    ensures FundIds(r) == FundIds(funds)
  {
    var k := FundIndex(funds, id);
    if k < 0 then funds
    else
      var x := Max(0.0, funds[k].currentAmount - amount);
      SetFundKeys(funds, id, x); SetFundAmount(funds, id, x)
  }

  // -----------------------------------------------------------------------
  // Income

  /** The share of a distribution that goes to the category with `slug`. */
  function SlugShare(slug: string, d: Distribution): Money {
    if slug == FixedSlug then d.fixed
    else if slug == SavingsSlug then d.savings
    else if slug == VariableSlug then d.variable
    else 0.0
  }

  /** `share` when some category has `slug`, else nothing is credited. */
  function IfPresent(cats: seq<Category>, slug: string, share: Money): Money {
    if 0 <= SlugIndex(cats, slug) then share else 0.0
  }

  /** Write the balance that the category with `slug` has in `snapshot`,
      plus `share`, to the rows of `cats` with that category's id. */
  function CreditSlug(snapshot: seq<Category>, cats: seq<Category>, slug: string, share: Money): (r: seq<Category>)
    ensures CategoryIds(r) == CategoryIds(cats) && CategorySlugs(r) == CategorySlugs(cats)
  {
    var k := SlugIndex(snapshot, slug);
    if k < 0 then cats
    else
      var x := snapshot[k].amount + share;
      SetCategoryKeys(cats, snapshot[k].id, x); SetCategoryAmount(cats, snapshot[k].id, x)
  }

  /** `addIncome`: log the income; a gas income is isolated, any other is
      split over the fixed, savings and variable categories, each written
      from the balance read before the first write. */
  function AddIncome(s: Snapshot, income: Income, distribution: Distribution): (r: Snapshot)
  {
    var logged := s.(incomes := s.incomes + [income]);
    if income.includesGas then logged
    else
      var c1 := CreditSlug(s.categories, s.categories, FixedSlug, distribution.fixed);
      var c2 := CreditSlug(s.categories, c1, SavingsSlug, distribution.savings);
      logged.(categories := CreditSlug(s.categories, c2, VariableSlug, distribution.variable))
  }

  /** The concept an external income is logged under. */
  function ExternalConcept(concept: string): (c: string)
    ensures c != ""
    ensures concept != "" ==> c == concept
  {
    if concept == "" then "Ingreso Extra" else concept
  }

  /** `addExternalIncome`: log a non-gas income, then credit one category
      if it exists. */
  function AddExternalIncome(s: Snapshot, amount: Money, categoryId: Id, concept: string,
                             incomeId: Id, date: int): (r: Snapshot)
  {
    s.(incomes := s.incomes + [Income(incomeId, date, ExternalConcept(concept), amount, false)],
       categories := CreditCategory(s.categories, categoryId, amount))
  }

  // -----------------------------------------------------------------------
  // Transfer

  /** The two writes of `transferBetweenCategories`: both use the snapshot
      balances and nothing checks that the source can afford the amount. */
  function TransferRows(cats: seq<Category>, fromId: Id, toId: Id, amount: Money): (r: seq<Category>)
    ensures |r| == |cats|
  {
    var kf := CategoryIndex(cats, fromId);
    var kt := CategoryIndex(cats, toId);
    if 0 <= kf && 0 <= kt then
      SetCategoryAmount(SetCategoryAmount(cats, fromId, cats[kf].amount - amount), toId, cats[kt].amount + amount)
    else cats
  }

  /** `transferBetweenCategories`: a no-op unless both categories exist. */
  function TransferBetweenCategories(s: Snapshot, fromId: Id, toId: Id, amount: Money): Snapshot
  {
    s.(categories := TransferRows(s.categories, fromId, toId, amount))
  }

  // -----------------------------------------------------------------------
  // Loans

  /** The expense row a loan payment appends. */
  function LoanPaymentRecord(expenseId: Id, date: int, amount: Money, loanId: Id): Expense {
    Expense(expenseId, date, amount, loanId, LoanKind, "Abono a Préstamo", false)
  }

  /** `payLoan`: fails before any write when the source category is
      missing; otherwise debits it (floored at zero) and logs a loan-typed
      expense, which is what advances the loan's derived progress. */
  function PayLoan(s: Snapshot, loanId: Id, amount: Money, sourceCategoryId: Id,
                   expenseId: Id, date: int): (r: Result<Snapshot>)
  {
    if CategoryIndex(s.categories, sourceCategoryId) < 0 then Err("Categoría de origen no encontrada")
    else
      Ok(s.(categories := DebitCategory(s.categories, sourceCategoryId, amount),
            expenses := s.expenses + [LoanPaymentRecord(expenseId, date, amount, loanId)]))
  }

  /** `toggleLoanStatus`: write `status` to the loan rows with that id; the
      caller passes the flip of the status it displays. */
  function SetLoanStatus(s: Snapshot, loanId: Id, status: LoanStatus): (r: Snapshot)
    ensures r == s.(loans := r.loans) && |r.loans| == |s.loans|
    ensures forall i :: 0 <= i < |s.loans| ==>
      r.loans[i] == if s.loans[i].id == loanId then s.loans[i].(status := status) else s.loans[i]
  {
    s.(loans := seq(|s.loans|, i requires 0 <= i < |s.loans| =>
      if s.loans[i].id == loanId then s.loans[i].(status := status) else s.loans[i]))
  }

  // -----------------------------------------------------------------------
  // Expenses

  /** The expense draws on a balance: it is not gas and its target row exists. */
  predicate Debits(s: Snapshot, e: Expense) {
    && !e.isGas
    && (|| (e.categoryType.IsBase() && 0 <= CategoryIndex(s.categories, e.categoryId))
        || (e.categoryType == GoalKind && 0 <= GoalIndex(s.goals, e.categoryId))
        || (e.categoryType == PeriodicKind && 0 <= FundIndex(s.periodicExpenses, e.categoryId)))
  }

  /** The balance the expense draws on. */
  function TargetBalance(s: Snapshot, e: Expense): Money
    requires Debits(s, e)
  {
    if e.categoryType.IsBase() then s.categories[CategoryIndex(s.categories, e.categoryId)].amount
    else if e.categoryType == GoalKind then s.goals[GoalIndex(s.goals, e.categoryId)].currentAmount
    else s.periodicExpenses[FundIndex(s.periodicExpenses, e.categoryId)].currentAmount
  }

  /** Step 2 of `addExpense`: debit the target, floored at zero, unless gas;
      a loan-typed expense has no balance to debit. */
  function DebitTarget(s: Snapshot, e: Expense): (r: Snapshot)
  {
    if e.isGas then s
    else if e.categoryType.IsBase() then s.(categories := DebitCategory(s.categories, e.categoryId, e.amount))
    else if e.categoryType == GoalKind then s.(goals := DebitGoal(s.goals, e.categoryId, e.amount))
    else if e.categoryType == PeriodicKind then s.(periodicExpenses := DebitFund(s.periodicExpenses, e.categoryId, e.amount))
    else s
  }

  /** Credit the target back by exactly the amount, unless gas (the refund
      of `deleteExpense` and step 1 of `updateExpense`). */
  function RefundTarget(s: Snapshot, e: Expense): (r: Snapshot)
  {
    if e.isGas then s
    else if e.categoryType.IsBase() then s.(categories := CreditCategory(s.categories, e.categoryId, e.amount))
    else if e.categoryType == GoalKind then s.(goals := CreditGoal(s.goals, e.categoryId, e.amount))
    else if e.categoryType == PeriodicKind then s.(periodicExpenses := CreditFund(s.periodicExpenses, e.categoryId, e.amount))
    else s
  }

  /** `addExpense`: log the expense, then debit its target. */
  function AddExpense(s: Snapshot, e: Expense): (r: Snapshot)
  {
    DebitTarget(s.(expenses := s.expenses + [e]), e)
  }

  /** `deleteExpense`: an unknown id changes nothing; otherwise remove the
      rows with that id and refund the target of the cached record. */
  function DeleteExpense(s: Snapshot, expenseId: Id): (r: Snapshot)
  {
    var k := ExpenseIndex(s.expenses, expenseId);
    if k < 0 then s
    else RefundTarget(s.(expenses := Filter(s.expenses, ExpenseWithoutId(expenseId))), s.expenses[k])
  }

  /** A partial expense update; `None` is an absent field. */
  datatype ExpenseUpdate = ExpenseUpdate(
    date: Option<int>, amount: Option<Money>, categoryId: Option<Id>,
    categoryType: Option<ExpenseKind>, description: Option<string>, isGas: Option<bool>)

  /** Step 3 of `updateExpense`: the payload written to the record. An
      empty category id or description is not written. */
  function PatchExpense(e: Expense, u: ExpenseUpdate): Expense {
    e.(date := u.date.GetOr(e.date),
       amount := u.amount.GetOr(e.amount),
       categoryId := if u.categoryId.Some? && u.categoryId.value != "" then u.categoryId.value else e.categoryId,
       categoryType := u.categoryType.GetOr(e.categoryType),
       description := if u.description.Some? && u.description.value != "" then u.description.value else e.description,
       isGas := u.isGas.GetOr(e.isGas))
  }

  function PatchExpenses(expenses: seq<Expense>, id: Id, u: ExpenseUpdate): (r: seq<Expense>)
    ensures |r| == |expenses|
    ensures forall i {:trigger r[i]} :: 0 <= i < |expenses| ==>
      r[i] == if expenses[i].id == id then PatchExpense(expenses[i], u) else expenses[i]
  {
    seq(|expenses|, i requires 0 <= i < |expenses| =>
      if expenses[i].id == id then PatchExpense(expenses[i], u) else expenses[i])
  }

  /** Step 4 of `updateExpense`: read the new target back from the store
      and write its balance minus the new amount, floored at zero (a missing
      row reads as zero and the write reaches no row). A periodic-fund
      target is read but never written, and a gas expense writes nothing. */
  function ApplyNewImpact(s: Snapshot, categoryId: Id, kind: ExpenseKind, amount: Money, isGas: bool): (r: Snapshot)
  {
    if isGas then s
    else if kind.IsBase() then
      var k := CategoryIndex(s.categories, categoryId);
      var targetAmount := if 0 <= k then s.categories[k].amount else 0.0;
      s.(categories := SetCategoryAmount(s.categories, categoryId, Max(0.0, targetAmount - amount)))
    else if kind == GoalKind then
      var k := GoalIndex(s.goals, categoryId);
      var targetAmount := if 0 <= k then s.goals[k].currentAmount else 0.0;
      s.(goals := SetGoalAmount(s.goals, categoryId, Max(0.0, targetAmount - amount)))
    else s
  }

  /** `updateExpense`: (1) refund the old target from the snapshot,
      (2) resolve the new amount, target and kind, (3) patch the record,
      (4) apply the new impact against the store as it now is. */
  function UpdateExpense(s: Snapshot, id: Id, u: ExpenseUpdate, oldExpense: Expense): (r: Snapshot)
  {
    var reverted := RefundTarget(s, oldExpense);
    var patched := reverted.(expenses := PatchExpenses(reverted.expenses, id, u));
    ApplyNewImpact(patched, u.categoryId.GetOr(oldExpense.categoryId), u.categoryType.GetOr(oldExpense.categoryType),
                   u.amount.GetOr(oldExpense.amount), u.isGas.GetOr(oldExpense.isGas))
  }

  // -----------------------------------------------------------------------
  // Income edits and reset

  /** A partial income update; `None` is an absent field. */
  datatype IncomeUpdate = IncomeUpdate(date: Option<int>, concept: Option<string>, amount: Option<Money>)

  /** The payload of `updateIncome`: an empty concept or a zero amount is not written. */
  function PatchIncome(i: Income, u: IncomeUpdate): Income {
    i.(date := u.date.GetOr(i.date),
       concept := if u.concept.Some? && u.concept.value != "" then u.concept.value else i.concept,
       amount := if u.amount.Some? && u.amount.value != 0.0 then u.amount.value else i.amount)
  }

  /** `updateIncome`: patch the record; balances are deliberately not adjusted. */
  function UpdateIncome(s: Snapshot, id: Id, u: IncomeUpdate): (r: Snapshot)
    ensures r == s.(incomes := r.incomes) && |r.incomes| == |s.incomes|
    ensures forall i :: 0 <= i < |s.incomes| ==>
      r.incomes[i].id == s.incomes[i].id && r.incomes[i].includesGas == s.incomes[i].includesGas
    ensures forall i :: 0 <= i < |s.incomes| ==>
      r.incomes[i] == if s.incomes[i].id == id then PatchIncome(s.incomes[i], u) else s.incomes[i]
  {
    s.(incomes := seq(|s.incomes|, i requires 0 <= i < |s.incomes| =>
      if s.incomes[i].id == id then PatchIncome(s.incomes[i], u) else s.incomes[i]))
  }

  /** `deleteIncome`: drop the record; balances are deliberately not adjusted. */
  function DeleteIncome(s: Snapshot, id: Id): (r: Snapshot)
    ensures r == s.(incomes := r.incomes)
    ensures forall i :: i in r.incomes <==> i in s.incomes && i.id != id
    ensures forall i :: multiset(r.incomes)[i] == if i.id != id then multiset(s.incomes)[i] else 0
  {
    FilterMembers(s.incomes, IncomeWithoutId(id));
    FilterCount(s.incomes, IncomeWithoutId(id));
    s.(incomes := Filter(s.incomes, IncomeWithoutId(id)))
  }

  function ZeroBalances(cats: seq<Category>): (r: seq<Category>)
    ensures |r| == |cats|
    ensures forall i {:trigger r[i]} :: 0 <= i < |cats| ==> r[i] == cats[i].(amount := 0.0)
  {
    if |cats| == 0 then [] else [cats[0].(amount := 0.0)] + ZeroBalances(cats[1..])
  }

  /** `resetData`: without a signed-in user nothing happens; otherwise every
      log and configuration table is emptied and every category is kept
      with a zero balance. */
  function ResetData(s: Snapshot, signedIn: bool): (r: Snapshot)
  {
    if !signedIn then s
    else Snapshot(ZeroBalances(s.categories), [], [], [], [], [], [])
  }

  // =======================================================================
  // Facts about one table write

  /** A write to an id no row carries changes nothing. */
  lemma SetMissingCategory(cats: seq<Category>, id: Id, amount: Money)
    requires CategoryIndex(cats, id) < 0
    ensures SetCategoryAmount(cats, id, amount) == cats
  {
  }

  lemma SetMissingGoal(goals: seq<Goal>, id: Id, amount: Money)
    requires GoalIndex(goals, id) < 0
    ensures SetGoalAmount(goals, id, amount) == goals
  {
  }

  /** A balance write keeps every row's id and slug. */
  lemma SetCategoryKeys(cats: seq<Category>, id: Id, amount: Money)
    ensures CategoryIds(SetCategoryAmount(cats, id, amount)) == CategoryIds(cats)
    ensures CategorySlugs(SetCategoryAmount(cats, id, amount)) == CategorySlugs(cats)
  {
    var r := SetCategoryAmount(cats, id, amount);
    assert forall i :: 0 <= i < |r| ==> CategoryIds(r)[i] == CategoryIds(cats)[i];
    assert forall i :: 0 <= i < |r| ==> CategorySlugs(r)[i] == CategorySlugs(cats)[i];
  }

  lemma SetGoalKeys(goals: seq<Goal>, id: Id, amount: Money)
    ensures GoalIds(SetGoalAmount(goals, id, amount)) == GoalIds(goals)
  {
    var r := SetGoalAmount(goals, id, amount);
    assert forall i :: 0 <= i < |r| ==> GoalIds(r)[i] == GoalIds(goals)[i];
  }

  lemma SetFundKeys(funds: seq<PeriodicExpense>, id: Id, amount: Money)
    ensures FundIds(SetFundAmount(funds, id, amount)) == FundIds(funds)
  {
    var r := SetFundAmount(funds, id, amount);
    assert forall i :: 0 <= i < |r| ==> FundIds(r)[i] == FundIds(funds)[i];
  }

  lemma ZeroBalancesKeys(cats: seq<Category>)
    ensures CategoryIds(ZeroBalances(cats)) == CategoryIds(cats)
    ensures CategorySlugs(ZeroBalances(cats)) == CategorySlugs(cats)
  {
    var r := ZeroBalances(cats);
    assert forall i :: 0 <= i < |r| ==> CategoryIds(r)[i] == CategoryIds(cats)[i];
    assert forall i :: 0 <= i < |r| ==> CategorySlugs(r)[i] == CategorySlugs(cats)[i];
  }

  /** Of two writes to the same id, the second wins. */
  lemma SetCategoryTwice(cats: seq<Category>, id: Id, x: Money, y: Money)
    ensures SetCategoryAmount(SetCategoryAmount(cats, id, x), id, y) == SetCategoryAmount(cats, id, y)
  {
  }

  /** Writing one category's balance moves the total by the difference. */
  lemma SetCategoryAmountTotal(cats: seq<Category>, k: int, amount: Money)
    requires UniqueCategoryIds(cats) && 0 <= k < |cats|
    ensures TotalBalance(SetCategoryAmount(cats, cats[k].id, amount)) ==
      TotalBalance(cats) - cats[k].amount + amount
  {
    UniqueCategoryIdAt(cats, k);
    SumOfPointUpdate(cats, SetCategoryAmount(cats, cats[k].id, amount), CategoryAmount, k);
  }

  /** A credit raises the total by the amount exactly when the row exists. */
  lemma CreditCategoryTotal(cats: seq<Category>, id: Id, amount: Money)
    requires UniqueCategoryIds(cats)
    ensures TotalBalance(CreditCategory(cats, id, amount)) ==
      TotalBalance(cats) + (if 0 <= CategoryIndex(cats, id) then amount else 0.0)
  {
    var k := CategoryIndex(cats, id);
    if 0 <= k {
      SetCategoryAmountTotal(cats, k, cats[k].amount + amount);
    }
  }

  /** Crediting back what was just debited restores the table exactly
      when the floor at zero did not cut the debit. */
  lemma CreditAfterDebitCategory(cats: seq<Category>, id: Id, amount: Money)
    requires UniqueCategoryIds(cats)
    ensures var k := CategoryIndex(cats, id);
      CreditCategory(DebitCategory(cats, id, amount), id, amount) == cats <==>
        (k < 0 || amount <= cats[k].amount)
  {
    var k := CategoryIndex(cats, id);
    if 0 <= k {
      UniqueCategoryIdAt(cats, k);
      var back := CreditCategory(DebitCategory(cats, id, amount), id, amount);
      assert back[k].amount == Max(0.0, cats[k].amount - amount) + amount;
      if amount <= cats[k].amount {
        assert back == cats;
      }
    }
  }

  lemma CreditAfterDebitGoal(goals: seq<Goal>, id: Id, amount: Money)
    requires UniqueGoalIds(goals)
    ensures var k := GoalIndex(goals, id);
      CreditGoal(DebitGoal(goals, id, amount), id, amount) == goals <==>
        (k < 0 || amount <= goals[k].currentAmount)
  {
    var k := GoalIndex(goals, id);
    if 0 <= k {
      UniqueGoalIdAt(goals, k);
      var back := CreditGoal(DebitGoal(goals, id, amount), id, amount);
      assert back[k].currentAmount == Max(0.0, goals[k].currentAmount - amount) + amount;
      if amount <= goals[k].currentAmount {
        assert back == goals;
      }
    }
  }

  lemma CreditAfterDebitFund(funds: seq<PeriodicExpense>, id: Id, amount: Money)
    requires UniqueFundIds(funds)
    ensures var k := FundIndex(funds, id);
      CreditFund(DebitFund(funds, id, amount), id, amount) == funds <==>
        (k < 0 || amount <= funds[k].currentAmount)
  {
    var k := FundIndex(funds, id);
    if 0 <= k {
      UniqueFundIdAt(funds, k);
      var back := CreditFund(DebitFund(funds, id, amount), id, amount);
      assert back[k].currentAmount == Max(0.0, funds[k].currentAmount - amount) + amount;
      if amount <= funds[k].currentAmount {
        assert back == funds;
      }
    }
  }

  // =======================================================================
  // No command changes a key, so every command keeps ids and slugs unique

  /** `r` has the ids and slugs of `s`, row by row, in every keyed table. */
  predicate SameKeys(s: Snapshot, r: Snapshot) {
    && CategoryIds(r.categories) == CategoryIds(s.categories)
    && CategorySlugs(r.categories) == CategorySlugs(s.categories)
    && GoalIds(r.goals) == GoalIds(s.goals)
    && FundIds(r.periodicExpenses) == FundIds(s.periodicExpenses)
  }

  lemma SameKeysKeepWellFormed(s: Snapshot, r: Snapshot)
    requires SameKeys(s, r)
    ensures WellFormed(r) <==> WellFormed(s)
  {
  }

  lemma AddIncomeKeepsKeys(s: Snapshot, income: Income, d: Distribution)
    ensures SameKeys(s, AddIncome(s, income, d))
  {
  }

  lemma AddExternalIncomeKeepsKeys(s: Snapshot, amount: Money, categoryId: Id, concept: string,
                                   incomeId: Id, date: int)
    ensures SameKeys(s, AddExternalIncome(s, amount, categoryId, concept, incomeId, date))
  {
  }

  lemma TransferKeepsKeys(s: Snapshot, fromId: Id, toId: Id, amount: Money)
    ensures SameKeys(s, TransferBetweenCategories(s, fromId, toId, amount))
  {
    TransferRowsKeys(s.categories, fromId, toId, amount);
  }

  lemma TransferRowsKeys(cats: seq<Category>, fromId: Id, toId: Id, amount: Money)
    ensures var r := TransferRows(cats, fromId, toId, amount);
      CategoryIds(r) == CategoryIds(cats) && CategorySlugs(r) == CategorySlugs(cats)
  {
    var kf := CategoryIndex(cats, fromId);
    var kt := CategoryIndex(cats, toId);
    if 0 <= kf && 0 <= kt {
      var x := cats[kf].amount - amount;
      var y := cats[kt].amount + amount;
      var c1 := SetCategoryAmount(cats, fromId, x);
      var c2 := SetCategoryAmount(c1, toId, y);
      assert TransferRows(cats, fromId, toId, amount) == c2;
      SetCategoryKeys(cats, fromId, x);
      SetCategoryKeys(c1, toId, y);
    }
  }

  lemma PayLoanKeepsKeys(s: Snapshot, loanId: Id, amount: Money, sourceCategoryId: Id,
                         expenseId: Id, date: int)
    ensures var r := PayLoan(s, loanId, amount, sourceCategoryId, expenseId, date);
      r.Ok? ==> SameKeys(s, r.value)
  {
  }

  lemma TargetWriteKeepsKeys(s: Snapshot, e: Expense)
    ensures SameKeys(s, DebitTarget(s, e)) && SameKeys(s, RefundTarget(s, e))
  {
  }

  lemma ExpenseCommandsKeepKeys(s: Snapshot, e: Expense, expenseId: Id)
    ensures SameKeys(s, AddExpense(s, e)) && SameKeys(s, DeleteExpense(s, expenseId))
  {
    TargetWriteKeepsKeys(s.(expenses := s.expenses + [e]), e);
    var k := ExpenseIndex(s.expenses, expenseId);
    if 0 <= k {
      TargetWriteKeepsKeys(s.(expenses := Filter(s.expenses, ExpenseWithoutId(expenseId))), s.expenses[k]);
    }
  }

  lemma UpdateExpenseKeepsKeys(s: Snapshot, id: Id, u: ExpenseUpdate, oldExpense: Expense)
    ensures SameKeys(s, UpdateExpense(s, id, u, oldExpense))
  {
    TargetWriteKeepsKeys(s, oldExpense);
    var reverted := RefundTarget(s, oldExpense);
    var newAmount := u.amount.GetOr(oldExpense.amount);
    var newCategoryId := u.categoryId.GetOr(oldExpense.categoryId);
    var newCategoryType := u.categoryType.GetOr(oldExpense.categoryType);
    if !u.isGas.GetOr(oldExpense.isGas) {
      if newCategoryType.IsBase() {
        var k := CategoryIndex(reverted.categories, newCategoryId);
        var targetAmount := if 0 <= k then reverted.categories[k].amount else 0.0;
        SetCategoryKeys(reverted.categories, newCategoryId, Max(0.0, targetAmount - newAmount));
      } else if newCategoryType == GoalKind {
        var k := GoalIndex(reverted.goals, newCategoryId);
        var targetAmount := if 0 <= k then reverted.goals[k].currentAmount else 0.0;
        SetGoalKeys(reverted.goals, newCategoryId, Max(0.0, targetAmount - newAmount));
      }
    }
  }

  // Unique keys are an invariant of every command.

  lemma AddIncomeKeepsWellFormed(s: Snapshot, income: Income, d: Distribution)
    ensures WellFormed(s) ==> WellFormed(AddIncome(s, income, d))
  {
    AddIncomeKeepsKeys(s, income, d);
    SameKeysKeepWellFormed(s, AddIncome(s, income, d));
  }

  lemma AddExternalIncomeKeepsWellFormed(s: Snapshot, amount: Money, categoryId: Id, concept: string,
                                         incomeId: Id, date: int)
    ensures WellFormed(s) ==> WellFormed(AddExternalIncome(s, amount, categoryId, concept, incomeId, date))
  {
    AddExternalIncomeKeepsKeys(s, amount, categoryId, concept, incomeId, date);
    SameKeysKeepWellFormed(s, AddExternalIncome(s, amount, categoryId, concept, incomeId, date));
  }

  lemma TransferKeepsWellFormed(s: Snapshot, fromId: Id, toId: Id, amount: Money)
    ensures WellFormed(s) ==> WellFormed(TransferBetweenCategories(s, fromId, toId, amount))
  {
    TransferKeepsKeys(s, fromId, toId, amount);
    SameKeysKeepWellFormed(s, TransferBetweenCategories(s, fromId, toId, amount));
  }

  lemma PayLoanKeepsWellFormed(s: Snapshot, loanId: Id, amount: Money, sourceCategoryId: Id,
                               expenseId: Id, date: int)
    ensures var r := PayLoan(s, loanId, amount, sourceCategoryId, expenseId, date);
      WellFormed(s) && r.Ok? ==> WellFormed(r.value)
  {
    var r := PayLoan(s, loanId, amount, sourceCategoryId, expenseId, date);
    PayLoanKeepsKeys(s, loanId, amount, sourceCategoryId, expenseId, date);
    if r.Ok? {
      SameKeysKeepWellFormed(s, r.value);
    }
  }

  lemma ExpenseCommandsKeepWellFormed(s: Snapshot, e: Expense, expenseId: Id)
    ensures WellFormed(s) ==> WellFormed(AddExpense(s, e)) && WellFormed(DeleteExpense(s, expenseId))
  {
    ExpenseCommandsKeepKeys(s, e, expenseId);
    SameKeysKeepWellFormed(s, AddExpense(s, e));
    SameKeysKeepWellFormed(s, DeleteExpense(s, expenseId));
  }

  lemma UpdateExpenseKeepsWellFormed(s: Snapshot, id: Id, u: ExpenseUpdate, oldExpense: Expense)
    ensures WellFormed(s) ==> WellFormed(UpdateExpense(s, id, u, oldExpense))
  {
    UpdateExpenseKeepsKeys(s, id, u, oldExpense);
    SameKeysKeepWellFormed(s, UpdateExpense(s, id, u, oldExpense));
  }

  /** A reset keeps the category keys and empties every other keyed table. */
  lemma ResetKeepsWellFormed(s: Snapshot, signedIn: bool)
    requires WellFormed(s)
    ensures WellFormed(ResetData(s, signedIn))
  {
    ZeroBalancesKeys(s.categories);
  }

  // =======================================================================
  // Properties of the commands

  /** Only the row of the expense's own target may differ between `s` and
      `r`, and the income, bill and loan tables are untouched. */
  predicate OnlyTargetChanged(s: Snapshot, r: Snapshot, e: Expense) {
    && |r.categories| == |s.categories| && |r.goals| == |s.goals|
    && |r.periodicExpenses| == |s.periodicExpenses|
    && (forall i :: 0 <= i < |s.categories| ==>
          r.categories[i] == s.categories[i] ||
          (!e.isGas && e.categoryType.IsBase() && s.categories[i].id == e.categoryId &&
           r.categories[i] == s.categories[i].(amount := r.categories[i].amount)))
    && (forall i :: 0 <= i < |s.goals| ==>
          r.goals[i] == s.goals[i] ||
          (!e.isGas && e.categoryType == GoalKind && s.goals[i].id == e.categoryId &&
           r.goals[i] == s.goals[i].(currentAmount := r.goals[i].currentAmount)))
    && (forall i :: 0 <= i < |s.periodicExpenses| ==>
          r.periodicExpenses[i] == s.periodicExpenses[i] ||
          (!e.isGas && e.categoryType == PeriodicKind && s.periodicExpenses[i].id == e.categoryId &&
           r.periodicExpenses[i] == s.periodicExpenses[i].(currentAmount := r.periodicExpenses[i].currentAmount)))
    && r.incomes == s.incomes && r.fixedBills == s.fixedBills && r.loans == s.loans
  }

  /** One bucket's credit in `addIncome`, seen from one row: the row of
      the bucket gets its snapshot balance plus the share, any other row is
      left as it was. */
  lemma CreditSlugAt(snapshot: seq<Category>, cats: seq<Category>, slug: string, share: Money, i: int)
    requires UniqueCategoryIds(snapshot) && UniqueCategorySlugs(snapshot)
    requires CategoryIds(cats) == CategoryIds(snapshot) && 0 <= i < |snapshot|
    ensures CreditSlug(snapshot, cats, slug, share)[i] ==
      if snapshot[i].slug == slug then cats[i].(amount := snapshot[i].amount + share) else cats[i]
  {
    SlugRow(snapshot, slug, i);
    assert CategoryIds(cats)[i] == CategoryIds(snapshot)[i];
  }

  /** `addIncome` always logs the income. A gas income touches no balance;
      any other adds to each bucket exactly its share. */
  lemma AddIncomeSplits(s: Snapshot, income: Income, d: Distribution)
    requires WellFormed(s)
    ensures var r := AddIncome(s, income, d);
      && r.incomes == s.incomes + [income]
      && r == s.(incomes := r.incomes, categories := r.categories)
      && |r.categories| == |s.categories|
      && (income.includesGas ==> r.categories == s.categories)
      && (!income.includesGas ==> forall i :: 0 <= i < |s.categories| ==>
            r.categories[i] == s.categories[i].(amount := s.categories[i].amount + SlugShare(s.categories[i].slug, d)))
  {
    if !income.includesGas {
      var cats := s.categories;
      var c1 := CreditSlug(cats, cats, FixedSlug, d.fixed);
      var c2 := CreditSlug(cats, c1, SavingsSlug, d.savings);
      forall i | 0 <= i < |cats|
        ensures CreditSlug(cats, c2, VariableSlug, d.variable)[i] ==
          cats[i].(amount := cats[i].amount + SlugShare(cats[i].slug, d))
      {
        CreditSlugAt(cats, cats, FixedSlug, d.fixed, i);
        CreditSlugAt(cats, c1, SavingsSlug, d.savings, i);
        CreditSlugAt(cats, c2, VariableSlug, d.variable, i);
      }
    }
  }

  /** One bucket's credit in `addIncome` moves the total by its share when
      the bucket exists, and the writes keep every row's id. */
  lemma CreditSlugTotal(snapshot: seq<Category>, cats: seq<Category>, slug: string, share: Money)
    requires UniqueCategoryIds(cats) && CategoryIds(cats) == CategoryIds(snapshot)
    requires var k := SlugIndex(snapshot, slug); 0 <= k ==> cats[k].amount == snapshot[k].amount
    ensures CategoryIds(CreditSlug(snapshot, cats, slug, share)) == CategoryIds(cats)
    ensures TotalBalance(CreditSlug(snapshot, cats, slug, share)) ==
      TotalBalance(cats) + IfPresent(snapshot, slug, share)
  {
    var k := SlugIndex(snapshot, slug);
    if 0 <= k {
      assert CategoryIds(cats)[k] == CategoryIds(snapshot)[k];
      SetCategoryAmountTotal(cats, k, snapshot[k].amount + share);
    }
  }

  /** A non-gas income raises the total balance by the shares of the
      buckets that exist; with all three present, by the whole split. */
  lemma AddIncomeTotal(s: Snapshot, income: Income, d: Distribution)
    requires WellFormed(s) && !income.includesGas
    ensures TotalBalance(AddIncome(s, income, d).categories) ==
      TotalBalance(s.categories) + IfPresent(s.categories, FixedSlug, d.fixed)
        + IfPresent(s.categories, SavingsSlug, d.savings) + IfPresent(s.categories, VariableSlug, d.variable)
  {
    var cats := s.categories;
    var c1 := CreditSlug(cats, cats, FixedSlug, d.fixed);
    var c2 := CreditSlug(cats, c1, SavingsSlug, d.savings);
    CreditSlugTotal(cats, cats, FixedSlug, d.fixed);
    var ks := SlugIndex(cats, SavingsSlug);
    if 0 <= ks {
      SlugRow(cats, FixedSlug, ks);
    }
    CreditSlugTotal(cats, c1, SavingsSlug, d.savings);
    var kv := SlugIndex(cats, VariableSlug);
    if 0 <= kv {
      SlugRow(cats, FixedSlug, kv);
      SlugRow(cats, SavingsSlug, kv);
    }
    CreditSlugTotal(cats, c2, VariableSlug, d.variable);
  }

  /** An external income is always logged (never as gas); the total balance
      grows by the amount exactly when the category exists. */
  lemma AddExternalIncomeCredits(s: Snapshot, amount: Money, categoryId: Id, concept: string, incomeId: Id, date: int)
    requires WellFormed(s)
    ensures var r := AddExternalIncome(s, amount, categoryId, concept, incomeId, date);
      && |r.incomes| == |s.incomes| + 1 && r.incomes[|s.incomes|].amount == amount
      && !r.incomes[|s.incomes|].includesGas
      && TotalGasIncome(r.incomes) == TotalGasIncome(s.incomes)
      && TotalBalance(r.categories) ==
           TotalBalance(s.categories) + (if 0 <= CategoryIndex(s.categories, categoryId) then amount else 0.0)
    ensures var r := AddExternalIncome(s, amount, categoryId, concept, incomeId, date);
      && |r.categories| == |s.categories|
      && forall i :: 0 <= i < |s.categories| ==>
           r.categories[i] == s.categories[i].(amount := s.categories[i].amount
             + (if s.categories[i].id == categoryId then amount else 0.0))
  {
    GasIncomeAfterAppend(s.incomes, Income(incomeId, date, ExternalConcept(concept), amount, false));
    CreditCategoryTotal(s.categories, categoryId, amount);
    CategoryRowWrite(s.categories, categoryId, amount, true);
    var k := CategoryIndex(s.categories, categoryId);
    if 0 <= k {
      UniqueCategoryIdAt(s.categories, k);
    }
  }

  /** If either id is unknown a transfer changes nothing. Between two
      distinct existing categories it moves exactly `amount` from one to
      the other; it checks no sufficiency, so the source may end negative. */
  lemma TransferMoves(s: Snapshot, fromId: Id, toId: Id, amount: Money)
    requires WellFormed(s)
    ensures var r := TransferBetweenCategories(s, fromId, toId, amount);
      && r == s.(categories := r.categories)
      && (CategoryIndex(s.categories, fromId) < 0 || CategoryIndex(s.categories, toId) < 0 ==> r == s)
      && (fromId != toId && 0 <= CategoryIndex(s.categories, fromId) && 0 <= CategoryIndex(s.categories, toId) ==>
           && |r.categories| == |s.categories|
           && forall i :: 0 <= i < |s.categories| ==>
                r.categories[i] == s.categories[i].(amount := s.categories[i].amount
                  + (if s.categories[i].id == fromId then -amount else if s.categories[i].id == toId then amount else 0.0)))
  {
    var cats := s.categories;
    var kf := CategoryIndex(cats, fromId);
    var kt := CategoryIndex(cats, toId);
    if fromId != toId && 0 <= kf && 0 <= kt {
      UniqueCategoryIdAt(cats, kf);
      UniqueCategoryIdAt(cats, kt);
    }
  }

  /** A transfer between two present categories is the two writes of its body. */
  lemma TransferRowsAt(cats: seq<Category>, fromId: Id, toId: Id, amount: Money)
    requires 0 <= CategoryIndex(cats, fromId) && 0 <= CategoryIndex(cats, toId)
    ensures var kf := CategoryIndex(cats, fromId);
      var kt := CategoryIndex(cats, toId);
      TransferRows(cats, fromId, toId, amount) ==
        SetCategoryAmount(SetCategoryAmount(cats, cats[kf].id, cats[kf].amount - amount), cats[kt].id, cats[kt].amount + amount)
  {
  }

  /** Two writes to two distinct rows move the total by both differences. */
  lemma TwoWritesTotal(cats: seq<Category>, kf: int, kt: int, x: Money, y: Money)
    requires UniqueCategoryIds(cats) && 0 <= kf < |cats| && 0 <= kt < |cats| && kf != kt
    ensures TotalBalance(SetCategoryAmount(SetCategoryAmount(cats, cats[kf].id, x), cats[kt].id, y)) ==
      TotalBalance(cats) - cats[kf].amount + x - cats[kt].amount + y
  {
    var c1 := SetCategoryAmount(cats, cats[kf].id, x);
    SetCategoryKeys(cats, cats[kf].id, x);
    UniqueCategoryIdAt(cats, kt);
    assert c1[kt] == cats[kt];
    SetCategoryAmountTotal(cats, kf, x);
    SetCategoryAmountTotal(c1, kt, y);
  }

  /** A transfer between two distinct existing categories preserves the
      total balance. */
  lemma TransferConserves(s: Snapshot, fromId: Id, toId: Id, amount: Money)
    requires UniqueCategoryIds(s.categories) && fromId != toId
    ensures TotalBalance(TransferBetweenCategories(s, fromId, toId, amount).categories) == TotalBalance(s.categories)
  {
    var cats := s.categories;
    var kf := CategoryIndex(cats, fromId);
    var kt := CategoryIndex(cats, toId);
    if 0 <= kf && 0 <= kt {
      var x := cats[kf].amount - amount;
      var y := cats[kt].amount + amount;
      TransferRowsAt(cats, fromId, toId, amount);
      TwoWritesTotal(cats, kf, kt, x, y);
    }
  }

  /** With the same id on both sides the second write, made from the stale
      snapshot, wins: the category gains `amount` and so does the total. */
  lemma SelfTransferAddsMoney(s: Snapshot, id: Id, amount: Money)
    requires UniqueCategoryIds(s.categories) && 0 <= CategoryIndex(s.categories, id)
    ensures var r := TransferBetweenCategories(s, id, id, amount);
      var k := CategoryIndex(s.categories, id);
      && r.categories[k].amount == s.categories[k].amount + amount
      && TotalBalance(r.categories) == TotalBalance(s.categories) + amount
  {
    var cats := s.categories;
    var k := CategoryIndex(cats, id);
    var x := cats[k].amount + amount;
    SetCategoryTwice(cats, id, cats[k].amount - amount, x);
    SetCategoryAmountTotal(cats, k, x);
    var r := SetCategoryAmount(cats, id, x);
    assert r[k].amount == x;
  }

  /** `payLoan` fails exactly when the source is unknown. Otherwise the
      source is debited to max(0, balance - amount), the payment is logged,
      the paid loan's derived progress grows by exactly `amount`, no other
      loan's progress moves and the gas sub-ledger is untouched. */
  lemma PayLoanEffect(s: Snapshot, loanId: Id, amount: Money, sourceId: Id, expenseId: Id, date: int)
    requires WellFormed(s)
    ensures var r := PayLoan(s, loanId, amount, sourceId, expenseId, date);
      && (r.Err? <==> CategoryIndex(s.categories, sourceId) < 0)
      && (r.Ok? ==>
            var k := CategoryIndex(s.categories, sourceId);
            && r.value == s.(categories := r.value.categories, expenses := r.value.expenses)
            && r.value.expenses == s.expenses + [LoanPaymentRecord(expenseId, date, amount, loanId)]
            && |r.value.categories| == |s.categories|
            && r.value.categories[k].amount == Max(0.0, s.categories[k].amount - amount)
            && (forall i :: 0 <= i < |s.categories| && i != k ==> r.value.categories[i] == s.categories[i])
            && LoanPaid(r.value.expenses, loanId) == LoanPaid(s.expenses, loanId) + amount
            && (forall other :: other != loanId ==> LoanPaid(r.value.expenses, other) == LoanPaid(s.expenses, other))
            && GasAvailable(r.value.incomes, r.value.expenses) == GasAvailable(s.incomes, s.expenses))
  {
    var r := PayLoan(s, loanId, amount, sourceId, expenseId, date);
    if r.Ok? {
      var e := LoanPaymentRecord(expenseId, date, amount, loanId);
      UniqueCategoryIdAt(s.categories, CategoryIndex(s.categories, sourceId));
      LoanPaidAfterAppend(s.expenses, e, loanId);
      forall other | other != loanId
        ensures LoanPaid(r.value.expenses, other) == LoanPaid(s.expenses, other)
      {
        LoanPaidAfterAppend(s.expenses, e, other);
      }
      GasExpensesAfterAppend(s.expenses, e);
    }
  }

  /** A credit or a debit by id changes at most the balance of the rows
      with that id; the row found ends at balance + amount or at
      max(0, balance - amount). */
  lemma CategoryRowWrite(cats: seq<Category>, id: Id, amount: Money, credit: bool)
    requires UniqueCategoryIds(cats)
    ensures var r := if credit then CreditCategory(cats, id, amount) else DebitCategory(cats, id, amount);
      var k := CategoryIndex(cats, id);
      && |r| == |cats| && CategoryIndex(r, id) == k
      && (forall i :: 0 <= i < |cats| ==>
            r[i] == cats[i] || (cats[i].id == id && r[i] == cats[i].(amount := r[i].amount)))
      && (0 <= k ==> r[k].amount == if credit then cats[k].amount + amount else Max(0.0, cats[k].amount - amount))
  {
    var k := CategoryIndex(cats, id);
    if 0 <= k {
      UniqueCategoryIdAt(cats, k);
    }
  }

  lemma GoalRowWrite(goals: seq<Goal>, id: Id, amount: Money, credit: bool)
    requires UniqueGoalIds(goals)
    ensures var r := if credit then CreditGoal(goals, id, amount) else DebitGoal(goals, id, amount);
      var k := GoalIndex(goals, id);
      && |r| == |goals| && GoalIndex(r, id) == k
      && (forall i :: 0 <= i < |goals| ==>
            r[i] == goals[i] || (goals[i].id == id && r[i] == goals[i].(currentAmount := r[i].currentAmount)))
      && (0 <= k ==>
            r[k].currentAmount == if credit then goals[k].currentAmount + amount else Max(0.0, goals[k].currentAmount - amount))
  {
    var k := GoalIndex(goals, id);
    if 0 <= k {
      UniqueGoalIdAt(goals, k);
    }
  }

  lemma FundRowWrite(funds: seq<PeriodicExpense>, id: Id, amount: Money, credit: bool)
    requires UniqueFundIds(funds)
    ensures var r := if credit then CreditFund(funds, id, amount) else DebitFund(funds, id, amount);
      var k := FundIndex(funds, id);
      && |r| == |funds| && FundIndex(r, id) == k
      && (forall i :: 0 <= i < |funds| ==>
            r[i] == funds[i] || (funds[i].id == id && r[i] == funds[i].(currentAmount := r[i].currentAmount)))
      && (0 <= k ==>
            r[k].currentAmount == if credit then funds[k].currentAmount + amount else Max(0.0, funds[k].currentAmount - amount))
  {
    var k := FundIndex(funds, id);
    if 0 <= k {
      UniqueFundIdAt(funds, k);
    }
  }

  /** What a debit or a refund of `e` leaves behind: only `e`'s target row
      changes; a debit leaves it at max(0, balance - amount) and a refund
      at balance + amount. */
  lemma TargetWrite(s: Snapshot, e: Expense, credit: bool)
    requires WellFormed(s)
    ensures var r := if credit then RefundTarget(s, e) else DebitTarget(s, e);
      && r.expenses == s.expenses
      && OnlyTargetChanged(s, r, e)
      && (e.isGas || e.categoryType == LoanKind ==>
            r.categories == s.categories && r.goals == s.goals && r.periodicExpenses == s.periodicExpenses)
      && (Debits(s, e) ==>
            && Debits(r, e)
            && TargetBalance(r, e) == if credit then TargetBalance(s, e) + e.amount else Max(0.0, TargetBalance(s, e) - e.amount))
  {
    if !e.isGas && e.categoryType.IsBase() {
      CategoryRowWrite(s.categories, e.categoryId, e.amount, credit);
    } else if !e.isGas && e.categoryType == GoalKind {
      GoalRowWrite(s.goals, e.categoryId, e.amount, credit);
    } else if !e.isGas && e.categoryType == PeriodicKind {
      FundRowWrite(s.periodicExpenses, e.categoryId, e.amount, credit);
    }
  }

  /** An expense changes no balance when it is gas or loan-typed, and
      nothing outside its own target row otherwise; its target ends at
      max(0, balance - amount). Only a gas expense moves the gas
      sub-ledger, by exactly its amount. */
  lemma AddExpenseEffect(s: Snapshot, e: Expense)
    requires WellFormed(s)
    ensures var r := AddExpense(s, e);
      && r.expenses == s.expenses + [e]
      && OnlyTargetChanged(s, r, e)
      && (e.isGas || e.categoryType == LoanKind ==>
            r.categories == s.categories && r.goals == s.goals && r.periodicExpenses == s.periodicExpenses)
      && (Debits(s, e) ==> Debits(r, e) && TargetBalance(r, e) == Max(0.0, TargetBalance(s, e) - e.amount))
      && TotalGasExpenses(r.expenses) == TotalGasExpenses(s.expenses) + (if e.isGas then e.amount else 0.0)
  {
    GasExpensesAfterAppend(s.expenses, e);
    TargetWrite(s.(expenses := s.expenses + [e]), e, false);
  }

  /** Deleting an unknown id is a no-op; deleting a known one removes its
      rows and credits the target of the record by exactly its amount. */
  lemma DeleteExpenseRefunds(s: Snapshot, expenseId: Id)
    requires WellFormed(s)
    ensures var r := DeleteExpense(s, expenseId);
      var k := ExpenseIndex(s.expenses, expenseId);
      && (k < 0 ==> r == s)
      && (0 <= k ==>
            var e := s.expenses[k];
            && (forall x :: x in r.expenses <==> x in s.expenses && x.id != expenseId)
            && OnlyTargetChanged(s, r, e)
            && (Debits(s, e) ==> Debits(r, e) && TargetBalance(r, e) == TargetBalance(s, e) + e.amount))
  {
    var k := ExpenseIndex(s.expenses, expenseId);
    if 0 <= k {
      FilterMembers(s.expenses, ExpenseWithoutId(expenseId));
      TargetWrite(s.(expenses := Filter(s.expenses, ExpenseWithoutId(expenseId))), s.expenses[k], true);
    }
  }

  /** An expense appended under a fresh id is the one found by that id,
      and filtering that id out gives back the log before the append. */
  lemma FreshExpenseFound(expenses: seq<Expense>, e: Expense)
    requires ExpenseIndex(expenses, e.id) < 0
    ensures ExpenseIndex(expenses + [e], e.id) == |expenses|
    ensures Filter(expenses + [e], ExpenseWithoutId(e.id)) == expenses
  {
    var added := expenses + [e];
    assert added[|expenses|].id == e.id;
    FreshExpenseDropped(expenses, e);
  }

  /** Dropping a fresh id from the log gives back the log without it. */
  lemma FreshExpenseDropped(expenses: seq<Expense>, e: Expense)
    requires forall i :: 0 <= i < |expenses| ==> expenses[i].id != e.id
    ensures Filter(expenses + [e], ExpenseWithoutId(e.id)) == expenses
  {
    var p := ExpenseWithoutId(e.id);
    FilterAppend(expenses, [e], p);
    FilterAll(expenses, p);
    FilterCons(e, [], p);
    assert [e] + [] == [e];
  }

  /** Deleting an expense that was just added (under a fresh id) gives back
      the very same snapshot exactly when the floor at zero did not cut the
      debit, that is when the target could afford the amount. */
  lemma AddThenDeleteRestores(s: Snapshot, e: Expense)
    requires WellFormed(s) && ExpenseIndex(s.expenses, e.id) < 0
    ensures DeleteExpense(AddExpense(s, e), e.id) == s <==>
      (!Debits(s, e) || e.amount <= TargetBalance(s, e))
  {
    FreshExpenseFound(s.expenses, e);
    assert DeleteExpense(AddExpense(s, e), e.id) == RefundTarget(DebitTarget(s, e), e);
    if !e.isGas && e.categoryType.IsBase() {
      CreditAfterDebitCategory(s.categories, e.categoryId, e.amount);
    } else if !e.isGas && e.categoryType == GoalKind {
      CreditAfterDebitGoal(s.goals, e.categoryId, e.amount);
    } else if !e.isGas && e.categoryType == PeriodicKind {
      CreditAfterDebitFund(s.periodicExpenses, e.categoryId, e.amount);
    }
  }

  /** The expense `updateExpense` means to leave behind. */
  function UpdatedExpense(oldExpense: Expense, u: ExpenseUpdate, newId: Id): Expense {
    Expense(newId, u.date.GetOr(oldExpense.date), u.amount.GetOr(oldExpense.amount),
            u.categoryId.GetOr(oldExpense.categoryId), u.categoryType.GetOr(oldExpense.categoryType),
            u.description.GetOr(oldExpense.description), u.isGas.GetOr(oldExpense.isGas))
  }

  /** A debit or a refund neither reads nor writes the expense log. */
  lemma TargetWriteIgnoresLog(s: Snapshot, log: seq<Expense>, e: Expense)
    ensures DebitTarget(s.(expenses := log), e) == DebitTarget(s, e).(expenses := log)
    ensures RefundTarget(s.(expenses := log), e) == RefundTarget(s, e).(expenses := log)
  {
  }

  /** A debit is step 4 of `updateExpense`: read the row (a missing row
      reads as zero) and write max(0, balance - amount) to its id. */
  lemma DebitCategoryAsWrite(cats: seq<Category>, id: Id, amount: Money)
    ensures var k := CategoryIndex(cats, id);
      DebitCategory(cats, id, amount) ==
        SetCategoryAmount(cats, id, Max(0.0, (if 0 <= k then cats[k].amount else 0.0) - amount))
  {
    if CategoryIndex(cats, id) < 0 {
      SetMissingCategory(cats, id, Max(0.0, 0.0 - amount));
    }
  }

  lemma DebitGoalAsWrite(goals: seq<Goal>, id: Id, amount: Money)
    ensures var k := GoalIndex(goals, id);
      DebitGoal(goals, id, amount) ==
        SetGoalAmount(goals, id, Max(0.0, (if 0 <= k then goals[k].currentAmount else 0.0) - amount))
  {
    if GoalIndex(goals, id) < 0 {
      SetMissingGoal(goals, id, Max(0.0, 0.0 - amount));
    }
  }

  /** On balances, updating the stored record is deleting it and adding the
      updated expense, whenever the new target is not a periodic fund. */
  lemma UpdateIsDeleteThenAdd(s: Snapshot, id: Id, u: ExpenseUpdate, oldExpense: Expense, newId: Id)
    requires 0 <= ExpenseIndex(s.expenses, id) && s.expenses[ExpenseIndex(s.expenses, id)] == oldExpense
    requires u.categoryType.GetOr(oldExpense.categoryType) != PeriodicKind
    ensures var updated := UpdateExpense(s, id, u, oldExpense);
      var replaced := AddExpense(DeleteExpense(s, id), UpdatedExpense(oldExpense, u, newId));
      && updated.categories == replaced.categories
      && updated.goals == replaced.goals
      && updated.periodicExpenses == replaced.periodicExpenses
  {
    var reverted := RefundTarget(s, oldExpense);
    var kept := Filter(s.expenses, ExpenseWithoutId(id));
    TargetWriteIgnoresLog(s, kept, oldExpense);
    var ne := UpdatedExpense(oldExpense, u, newId);
    TargetWriteIgnoresLog(reverted, kept + [ne], ne);
    if !ne.isGas && ne.categoryType.IsBase() {
      DebitCategoryAsWrite(reverted.categories, ne.categoryId, ne.amount);
    } else if !ne.isGas && ne.categoryType == GoalKind {
      DebitGoalAsWrite(reverted.goals, ne.categoryId, ne.amount);
    }
  }

  /** The periodic quirk: when the new target is a periodic fund, the funds
      end exactly as the revert step left them, so editing a periodic
      expense without changing anything credits its fund by its amount. */
  lemma UpdateNeverDebitsPeriodic(s: Snapshot, id: Id, u: ExpenseUpdate, oldExpense: Expense)
    requires WellFormed(s)
    requires u.categoryType.GetOr(oldExpense.categoryType) == PeriodicKind
    ensures UpdateExpense(s, id, u, oldExpense).periodicExpenses == RefundTarget(s, oldExpense).periodicExpenses
    ensures u == ExpenseUpdate(None, None, None, None, None, None) && Debits(s, oldExpense) ==>
      TargetBalance(UpdateExpense(s, id, u, oldExpense), oldExpense) == TargetBalance(s, oldExpense) + oldExpense.amount
  {
    if u == ExpenseUpdate(None, None, None, None, None, None) && Debits(s, oldExpense) {
      TargetWrite(s, oldExpense, true);
    }
  }

  /** After a reset the total balance, the gas sub-ledger and the fixed
      surplus are all zero, every category is kept, and no loan is left. */
  lemma ResetClearsLedger(s: Snapshot, day: int)
    ensures var r := ResetData(s, true);
      && TotalBalance(r.categories) == 0.0
      && GasAvailable(r.incomes, r.expenses) == 0.0
      && FixedSurplus(r.categories, r.fixedBills, r.loans, day) == 0.0
      && |r.categories| == |s.categories|
      && (forall i :: 0 <= i < |s.categories| ==>
            r.categories[i].id == s.categories[i].id && r.categories[i].slug == s.categories[i].slug)
      && LoansWithProgress(r.loans, r.expenses) == []
  {
    var r := ResetData(s, true);
    SumOfZero(r.categories, CategoryAmount);
    assert TotalFixedBills([], day) == 0.0;
    assert TotalLoansPayment([]) == 0.0;
  }

  /** An income edit writes only the fields that are truthy: an empty
      concept or a zero amount leaves that field as it was, a given value is
      written otherwise, and the balances are not touched. */
  lemma UpdateIncomeWritesTruthyFields(s: Snapshot, id: Id, u: IncomeUpdate, k: int)
    requires 0 <= k < |s.incomes| && s.incomes[k].id == id
    ensures var row := UpdateIncome(s, id, u).incomes[k];
      && row.date == (if u.date.None? then s.incomes[k].date else u.date.value)
      && row.concept == (if u.concept == None || u.concept == Some("") then s.incomes[k].concept else u.concept.value)
      && row.amount == (if u.amount == None || u.amount == Some(0.0) then s.incomes[k].amount else u.amount.value)
      && row.id == id && row.includesGas == s.incomes[k].includesGas
    ensures TotalBalance(UpdateIncome(s, id, u).categories) == TotalBalance(s.categories)
  {
  }
}
