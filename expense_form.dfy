/** The expense form (src/components/ExpenseFormModal.tsx): what is being
    paid from, how much may be spent from it, and the expense handed to
    `addExpense`. */
module ExpenseForm {
  import opened Collections
  import opened Entities
  import opened Projections
  import Commands

  /** The type a picked id selects, in the order the handler tries the
      tables: any budget bucket selects `'variable'` whatever its slug, then
      goals, then sinking funds; the bare words `'fixed'` and `'savings'`
      select themselves; anything else keeps the current type. */
  function KindForSelection(value: Id, cats: seq<Category>, goals: seq<Goal>,
                            funds: seq<PeriodicExpense>, current: ExpenseKind): (k: ExpenseKind)
    ensures CategoryIndex(cats, value) >= 0 ==> k == VariableKind
    ensures CategoryIndex(cats, value) < 0 && GoalIndex(goals, value) >= 0 ==> k == GoalKind
    ensures CategoryIndex(cats, value) < 0 && GoalIndex(goals, value) < 0 && FundIndex(funds, value) >= 0 ==>
      k == PeriodicKind
    ensures CategoryIndex(cats, value) < 0 && GoalIndex(goals, value) < 0 && FundIndex(funds, value) < 0 ==>
      k == (if value == "fixed" then FixedKind else if value == "savings" then SavingsKind else current)
  {
    if CategoryIndex(cats, value) >= 0 then VariableKind
    else if GoalIndex(goals, value) >= 0 then GoalKind
    else if FundIndex(funds, value) >= 0 then PeriodicKind
    else if value == "fixed" then FixedKind
    else if value == "savings" then SavingsKind
    else current
  }

  /** `maxAmount`: the gas balance for gas; otherwise the balance of the
      selected bucket, goal or fund, looked up in that order; else 0. */
  function MaxAmount(isGas: bool, gasAvailable: real, categoryId: Id, cats: seq<Category>,
                     goals: seq<Goal>, funds: seq<PeriodicExpense>): (m: real)
    ensures isGas ==> m == gasAvailable
    ensures !isGas && CategoryIndex(cats, categoryId) >= 0 ==> m == cats[CategoryIndex(cats, categoryId)].amount
    ensures !isGas && CategoryIndex(cats, categoryId) < 0 && GoalIndex(goals, categoryId) >= 0 ==>
      m == goals[GoalIndex(goals, categoryId)].currentAmount
    ensures (!isGas && CategoryIndex(cats, categoryId) < 0 && GoalIndex(goals, categoryId) < 0
             && FundIndex(funds, categoryId) >= 0) ==>
      m == funds[FundIndex(funds, categoryId)].currentAmount
    ensures (!isGas && CategoryIndex(cats, categoryId) < 0 && GoalIndex(goals, categoryId) < 0
             && FundIndex(funds, categoryId) < 0) ==> m == 0.0
  {
    var kc, kg, kf := CategoryIndex(cats, categoryId), GoalIndex(goals, categoryId), FundIndex(funds, categoryId);
    if isGas then gasAvailable
    else if kc >= 0 then cats[kc].amount
    else if kg >= 0 then goals[kg].currentAmount
    else if kf >= 0 then funds[kf].currentAmount
    else 0.0
  }

  /** The confirm button's rule: an empty amount or description, or an
      amount above the ceiling. `parsed` is `parseFloat` of the amount
      (`None` is NaN, which compares false). */
  predicate SubmitDisabled(amountText: string, parsed: Option<real>, description: string, maxAmount: real) {
    || amountText == ""
    || description == ""
    || (parsed.Some? && parsed.value > maxAmount)
  }

  /** An enabled form never spends more than the ceiling; in particular a
      ceiling of 0 blocks every positive amount. */
  lemma EnabledWithinCeiling(amountText: string, v: real, description: string, maxAmount: real)
    requires !SubmitDisabled(amountText, Some(v), description, maxAmount)
    ensures v <= maxAmount
    ensures maxAmount == 0.0 ==> v <= 0.0
  {
  }

  /** The ceiling the form shows for an id picked through the handler is
      the balance the ledger then debits. */
  lemma CeilingIsLedgerBalance(s: Commands.Snapshot, value: Id, current: ExpenseKind, gasAvailable: real,
                               id: Id, date: int, v: real, description: string)
    requires CategoryIndex(s.categories, value) >= 0 || GoalIndex(s.goals, value) >= 0
             || FundIndex(s.periodicExpenses, value) >= 0
    ensures var e := Expense(id, date, v, value,
                             KindForSelection(value, s.categories, s.goals, s.periodicExpenses, current),
                             description, false);
      && Commands.Debits(s, e)
      && MaxAmount(false, gasAvailable, value, s.categories, s.goals, s.periodicExpenses) == Commands.TargetBalance(s, e)
  {
  }

  /** So an expense the form lets through is debited in full: the floor at
      zero of `addExpense` never applies to it. */
  lemma EnabledExpenseDebitedInFull(s: Commands.Snapshot, value: Id, current: ExpenseKind, gasAvailable: real,
                                    id: Id, date: int, amountText: string, v: real, description: string)
    requires Commands.WellFormed(s)
    requires CategoryIndex(s.categories, value) >= 0 || GoalIndex(s.goals, value) >= 0
             || FundIndex(s.periodicExpenses, value) >= 0
    requires !SubmitDisabled(amountText, Some(v), description,
                             MaxAmount(false, gasAvailable, value, s.categories, s.goals, s.periodicExpenses))
    ensures var e := Expense(id, date, v, value,
                             KindForSelection(value, s.categories, s.goals, s.periodicExpenses, current),
                             description, false);
      Commands.TargetBalance(Commands.AddExpense(s, e), e) == Commands.TargetBalance(s, e) - v
  {
    var e := Expense(id, date, v, value,
                     KindForSelection(value, s.categories, s.goals, s.periodicExpenses, current),
                     description, false);
    CeilingIsLedgerBalance(s, value, current, gasAvailable, id, date, v, description);
    Commands.AddExpenseEffect(s, e);
  }

  /** The expense handed to `addExpense`; the amount is `parseFloat` of the
      field (`None` is NaN). */
  datatype ExpenseDraft = ExpenseDraft(
    date: int, amount: Option<real>, categoryId: Id, categoryType: ExpenseKind,
    description: string, isGas: bool)

  class Form {
    var description: string
    var amountText: string
    var parsedAmount: Option<real>
    var categoryId: Id
    var categoryType: ExpenseKind
    var isGas: bool

    constructor()
      ensures description == "" && amountText == "" && parsedAmount.None?
      ensures categoryId == "" && categoryType == VariableKind && !isGas
    {
      description := "";
      amountText := "";
      parsedAmount := None;
      categoryId := "";
      categoryType := VariableKind;
      isGas := false;
    }

    /** The open effect. The default selection looks for a bucket whose id
        (not slug) is `'variable'`, so with generated ids it is empty. */
    method Reset(cats: seq<Category>)
      modifies this
      ensures description == "" && amountText == "" && parsedAmount.None?
      ensures categoryId == (if CategoryIndex(cats, "variable") >= 0 then "variable" else "")
      ensures categoryType == VariableKind && !isGas
    {
      description := "";
      amountText := "";
      parsedAmount := None;
      var k := CategoryIndex(cats, "variable");
      categoryId := if k >= 0 then cats[k].id else "";
      categoryType := VariableKind;
      isGas := false;
    }

    method SetDescription(text: string)
      modifies this
      ensures description == text
      ensures amountText == old(amountText) && parsedAmount == old(parsedAmount)
      ensures categoryId == old(categoryId) && categoryType == old(categoryType) && isGas == old(isGas)
    {
      description := text;
    }

    method SetAmount(text: string, parsed: Option<real>)
      modifies this
      ensures amountText == text && parsedAmount == parsed
      ensures description == old(description)
      ensures categoryId == old(categoryId) && categoryType == old(categoryType) && isGas == old(isGas)
    {
      amountText := text;
      parsedAmount := parsed;
    }

    /** `handleCategoryChange`. */
    method HandleCategoryChange(value: Id, cats: seq<Category>, goals: seq<Goal>, funds: seq<PeriodicExpense>)
      modifies this
      ensures categoryId == value
      ensures categoryType == KindForSelection(value, cats, goals, funds, old(categoryType))
      ensures description == old(description) && amountText == old(amountText)
      ensures parsedAmount == old(parsedAmount) && isGas == old(isGas)
    {
      categoryId := value;
      if CategoryIndex(cats, value) >= 0 {
        categoryType := VariableKind;
      } else if GoalIndex(goals, value) >= 0 {
        categoryType := GoalKind;
      } else if FundIndex(funds, value) >= 0 {
        categoryType := PeriodicKind;
      } else if value == "fixed" {
        categoryType := FixedKind;
      } else if value == "savings" {
        categoryType := SavingsKind;
      }
    }

    /** The gas card flips the gas flag. */
    method ToggleGas()
      modifies this
      ensures isGas == !old(isGas)
      ensures description == old(description) && amountText == old(amountText)
      ensures parsedAmount == old(parsedAmount) && categoryId == old(categoryId)
      ensures categoryType == old(categoryType)
    {
      isGas := !isGas;
    }

    /** `handleSubmit`: a gas expense goes out typed `'fixed'`; every other
        field passes through as entered. */
    method Submit(now: int) returns (d: ExpenseDraft)
      ensures d.categoryType == (if isGas then FixedKind else categoryType)
      ensures d.isGas == isGas && d.amount == parsedAmount && d.date == now
      ensures d.categoryId == categoryId && d.description == description
    {
      d := ExpenseDraft(now, parsedAmount, categoryId, if isGas then FixedKind else categoryType,
                        description, isGas);
    }
  }
}
