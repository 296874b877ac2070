/** The budget store as the hook drives it: seven tables updated in place
    by the mutation functions of src/hooks/useBudget.ts. Every method
    performs the source's reads and writes in the source's order and is
    proved to leave the store in the state the matching function of
    module Commands computes; the properties of those functions are the
    properties of the commands. */
module Ledger {
  import opened Collections
  import opened Entities
  import opened Commands

  class Budget {
    var categories: seq<Category>
    var goals: seq<Goal>
    var periodicExpenses: seq<PeriodicExpense>
    var incomes: seq<Income>
    var fixedBills: seq<FixedBill>
    var loans: seq<Loan>
    var expenses: seq<Expense>

    /** The tables as one value. */
    function State(): Snapshot
      reads this
    {
      Snapshot(categories, goals, periodicExpenses, incomes, fixedBills, loans, expenses)
    }

    /** Unique row ids and one category per slug. */
    predicate Valid()
      reads this
    {
      WellFormed(State())
    }

    /** The store as the queries first load it. */
    constructor(initial: Snapshot)
      ensures State() == initial
    {
      categories := initial.categories;
      goals := initial.goals;
      periodicExpenses := initial.periodicExpenses;
      incomes := initial.incomes;
      fixedBills := initial.fixedBills;
      loans := initial.loans;
      expenses := initial.expenses;
    }

    /** `update({ amount: snapshot balance + share }).eq('id', ...)` for
        the category that has `slug` in the cached list. */
    method CreditBucket(snapshot: seq<Category>, slug: string, share: Money)
      modifies this
      ensures State() == old(State()).(categories := CreditSlug(snapshot, old(categories), slug, share))
    {
      var k := SlugIndex(snapshot, slug);
      if 0 <= k {
        categories := SetCategoryAmount(categories, snapshot[k].id, snapshot[k].amount + share);
      }
    }

    /** `addIncome`. */
    method AddIncome(income: Income, distribution: Distribution)
      modifies this
      ensures State() == Commands.AddIncome(old(State()), income, distribution)
      ensures old(Valid()) ==> Valid()
    {
      ghost var before := State();
      var snapshot := categories;
      incomes := incomes + [income];
      if !income.includesGas {
        CreditBucket(snapshot, FixedSlug, distribution.fixed);
        CreditBucket(snapshot, SavingsSlug, distribution.savings);
        CreditBucket(snapshot, VariableSlug, distribution.variable);
      }
      AddIncomeKeepsWellFormed(before, income, distribution);
    }

    /** `addExternalIncome`; the store's new row id and the current time
        are parameters. */
    method AddExternalIncome(amount: Money, categoryId: Id, concept: string, incomeId: Id, date: int)
      modifies this
      ensures State() == Commands.AddExternalIncome(old(State()), amount, categoryId, concept, incomeId, date)
      ensures old(Valid()) ==> Valid()
    {
      ghost var before := State();
      var snapshot := categories;
      incomes := incomes + [Income(incomeId, date, ExternalConcept(concept), amount, false)];
      var k := CategoryIndex(snapshot, categoryId);
      if 0 <= k {
        categories := SetCategoryAmount(categories, categoryId, snapshot[k].amount + amount);
      }
      AddExternalIncomeKeepsWellFormed(before, amount, categoryId, concept, incomeId, date);
    }

    /** `transferBetweenCategories`: both balances are read from the cached
        list before either write. */
    method TransferBetweenCategories(fromId: Id, toId: Id, amount: Money)
      modifies this
      ensures State() == Commands.TransferBetweenCategories(old(State()), fromId, toId, amount)
      ensures old(Valid()) ==> Valid()
    {
      ghost var before := State();
      var snapshot := categories;
      var kf := CategoryIndex(snapshot, fromId);
      var kt := CategoryIndex(snapshot, toId);
      if 0 <= kf && 0 <= kt {
        categories := SetCategoryAmount(categories, fromId, snapshot[kf].amount - amount);
        categories := SetCategoryAmount(categories, toId, snapshot[kt].amount + amount);
      }
      TransferKeepsWellFormed(before, fromId, toId, amount);
    }

    /** `payLoan`: a missing source category aborts before any write with
        the error the hook throws. */
    method PayLoan(loanId: Id, amount: Money, sourceCategoryId: Id, expenseId: Id, date: int)
      returns (error: Option<string>)
      modifies this
      ensures var r := Commands.PayLoan(old(State()), loanId, amount, sourceCategoryId, expenseId, date);
        && (r.Err? ==> error == Some(r.message) && State() == old(State()))
        && (r.Ok? ==> error == None && State() == r.value)
      ensures old(Valid()) ==> Valid()
    {
      ghost var before := State();
      var k := CategoryIndex(categories, sourceCategoryId);
      if k < 0 {
        return Some("Categoría de origen no encontrada");
      }
      categories := SetCategoryAmount(categories, sourceCategoryId, Max(0.0, categories[k].amount - amount));
      expenses := expenses + [LoanPaymentRecord(expenseId, date, amount, loanId)];
      error := None;
      PayLoanKeepsWellFormed(before, loanId, amount, sourceCategoryId, expenseId, date);
    }

    /** `toggleLoanStatus`: write the status the caller chose. */
    method ToggleLoanStatus(loanId: Id, status: LoanStatus)
      modifies this
      ensures State() == SetLoanStatus(old(State()), loanId, status)
      ensures old(Valid()) ==> Valid()
    {
      var rows := loans;
      loans := seq(|rows|, i requires 0 <= i < |rows| =>
        if rows[i].id == loanId then rows[i].(status := status) else rows[i]);
    }

    /** Debit the expense's target from the cached tables, floored at zero
        (step 2 of `addExpense`). */
    method DebitTargetOf(e: Expense)
      modifies this
      ensures State() == DebitTarget(old(State()), e)
    {
      if !e.isGas {
        if e.categoryType.IsBase() {
          var k := CategoryIndex(categories, e.categoryId);
          if 0 <= k {
            categories := SetCategoryAmount(categories, e.categoryId, Max(0.0, categories[k].amount - e.amount));
          }
        } else if e.categoryType == GoalKind {
          var k := GoalIndex(goals, e.categoryId);
          if 0 <= k {
            goals := SetGoalAmount(goals, e.categoryId, Max(0.0, goals[k].currentAmount - e.amount));
          }
        } else if e.categoryType == PeriodicKind {
          var k := FundIndex(periodicExpenses, e.categoryId);
          if 0 <= k {
            periodicExpenses := SetFundAmount(periodicExpenses, e.categoryId, Max(0.0, periodicExpenses[k].currentAmount - e.amount));
          }
        }
      }
    }

    /** Credit the expense's target back from the cached tables (the refund
        of `deleteExpense` and step 1 of `updateExpense`). */
    method RefundTargetOf(e: Expense)
      modifies this
      ensures State() == RefundTarget(old(State()), e)
    {
      if !e.isGas {
        if e.categoryType.IsBase() {
          var k := CategoryIndex(categories, e.categoryId);
          if 0 <= k {
            categories := SetCategoryAmount(categories, e.categoryId, categories[k].amount + e.amount);
          }
        } else if e.categoryType == GoalKind {
          var k := GoalIndex(goals, e.categoryId);
          if 0 <= k {
            goals := SetGoalAmount(goals, e.categoryId, goals[k].currentAmount + e.amount);
          }
        } else if e.categoryType == PeriodicKind {
          var k := FundIndex(periodicExpenses, e.categoryId);
          if 0 <= k {
            periodicExpenses := SetFundAmount(periodicExpenses, e.categoryId, periodicExpenses[k].currentAmount + e.amount);
          }
        }
      }
    }

    /** `addExpense`: insert the record, then debit its target. */
    method AddExpense(e: Expense)
      modifies this
      ensures State() == Commands.AddExpense(old(State()), e)
      ensures old(Valid()) ==> Valid()
    {
      ghost var before := State();
      expenses := expenses + [e];
      DebitTargetOf(e);
      ExpenseCommandsKeepWellFormed(before, e, e.id);
    }

    /** `deleteExpense`: look the record up in the cached log, delete its
        rows, then refund its target. */
    method DeleteExpense(expenseId: Id)
      modifies this
      ensures State() == Commands.DeleteExpense(old(State()), expenseId)
      ensures old(Valid()) ==> Valid()
    {
      ghost var before := State();
      var k := ExpenseIndex(expenses, expenseId);
      if k < 0 {
        return;
      }
      var e := expenses[k];
      expenses := Filter(expenses, ExpenseWithoutId(expenseId));
      RefundTargetOf(e);
      ExpenseCommandsKeepWellFormed(before, e, expenseId);
    }

    /** `updateExpense`: revert the old impact, patch the record, then read
        the new target back from the store and write its balance minus the
        new amount. Only the category and goal tables are ever written. */
    method UpdateExpense(id: Id, u: ExpenseUpdate, oldExpense: Expense)
      modifies this
      ensures State() == Commands.UpdateExpense(old(State()), id, u, oldExpense)
      ensures old(Valid()) ==> Valid()
    {
      ghost var before := State();
      RefundTargetOf(oldExpense);
      var newAmount := u.amount.GetOr(oldExpense.amount);
      var newCategoryId := u.categoryId.GetOr(oldExpense.categoryId);
      var newCategoryType := u.categoryType.GetOr(oldExpense.categoryType);
      expenses := PatchExpenses(expenses, id, u);
      var newIsGas := u.isGas.GetOr(oldExpense.isGas);
      ApplyNewImpactOf(newCategoryId, newCategoryType, newAmount, newIsGas);
      UpdateExpenseKeepsWellFormed(before, id, u, oldExpense);
    }

    /** Step 4 of `updateExpense`: read the target's balance from the
        store as it now is (zero when no row has the id), then, unless the
        expense is gas, write the balance minus the amount to the category
        or goal table. A periodic fund is read but never written. */
    method ApplyNewImpactOf(categoryId: Id, kind: ExpenseKind, amount: Money, isGas: bool)
      modifies this
      ensures State() == ApplyNewImpact(old(State()), categoryId, kind, amount, isGas)
    {
      var targetAmount := 0.0;
      var writesCategories := false;
      var writesGoals := false;
      if kind.IsBase() {
        writesCategories := true;
        var k := CategoryIndex(categories, categoryId);
        if 0 <= k {
          targetAmount := categories[k].amount;
        }
      } else if kind == GoalKind {
        writesGoals := true;
        var k := GoalIndex(goals, categoryId);
        if 0 <= k {
          targetAmount := goals[k].currentAmount;
        }
      } else if kind == PeriodicKind {
        var k := FundIndex(periodicExpenses, categoryId);
        if 0 <= k {
          targetAmount := periodicExpenses[k].currentAmount;
        }
      }
      if !isGas && writesCategories {
        categories := SetCategoryAmount(categories, categoryId, Max(0.0, targetAmount - amount));
      } else if !isGas && writesGoals {
        goals := SetGoalAmount(goals, categoryId, Max(0.0, targetAmount - amount));
      }
    }

    /** `updateIncome`: patch the record only. */
    method UpdateIncome(id: Id, u: IncomeUpdate)
      modifies this
      ensures State() == Commands.UpdateIncome(old(State()), id, u)
      ensures old(Valid()) ==> Valid()
    {
      var rows := incomes;
      incomes := seq(|rows|, i requires 0 <= i < |rows| =>
        if rows[i].id == id then PatchIncome(rows[i], u) else rows[i]);
    }

    /** `deleteIncome`: delete the record only. */
    method DeleteIncome(id: Id)
      modifies this
      ensures State() == Commands.DeleteIncome(old(State()), id)
      ensures old(Valid()) ==> Valid()
    {
      incomes := Filter(incomes, IncomeWithoutId(id));
    }

    /** `resetData`: without a signed-in user, return at once; otherwise
        empty the logs, then the configuration tables, then zero every
        category balance. */
    method ResetData(signedIn: bool)
      modifies this
      ensures State() == Commands.ResetData(old(State()), signedIn)
      ensures old(Valid()) ==> Valid()
    {
      if !signedIn {
        return;
      }
      ghost var before := State();
      expenses := [];
      incomes := [];
      goals := [];
      periodicExpenses := [];
      fixedBills := [];
      loans := [];
      categories := ZeroBalances(categories);
      if WellFormed(before) {
        ResetKeepsWellFormed(before, signedIn);
      }
    }
  }
}
