# Budget ledger of "MiNómina" in Dafny

This project models the budget ledger engine of a personal-budget web app. The engine
is the `useBudget` hook and the small rules that the dashboard and its forms apply around it.

**State.** The store has seven tables:
- three category balances: fixed, savings and variable;
- savings goals and periodic sinking funds, each with a stored `currentAmount`;
- an income log and an expense log;
- fixed bills;
- loans.

**Commands.** Each command is a short, ordered sequence of reads and writes over those
tables:
- add a payroll income, split over the three categories, or a gas income, kept aside;
- add an external income;
- transfer between categories;
- pay a loan and toggle its status;
- add, update and delete an expense;
- edit and delete an income;
- reset all data.

**Derived values.** The app reads these back from the tables:
- loan progress, summed from loan-typed expenses;
- the total balance;
- the gas sub-ledger;
- the fortnight-aware fixed-bill total, where days 15–29 are fortnight 1;
- the active-loan payment total;
- the fixed surplus, floored at zero.

**Modules.**
- `Entities` and `Collections` hold the records and the generic sequence helpers: first index, filter and sum.
- `Commands` states every command as a function on a `Snapshot` of the seven tables and proves its effect.
- `Ledger.Budget` is a class whose fields are the seven tables. Its methods perform the hook's writes in the hook's order and are proved to reach the state the matching `Commands` function computes.
- `Projections` holds the derived values.
- Each form or screen has a module of its own: `IncomeWizard`, `LoanForm`, `LoanPayment`, `LoansSection`, `FixedBillForm`, `FixedBillsSection`, `TransferSheet`, `ExpenseForm`, `PeriodicForm`, `GoalForm`, `ExternalIncome`, `GoalCard`, `TransactionHistory` and `Dashboard`.
- A form whose handlers update its own state through setters is a class, for example `IncomeWizard.Wizard`, `TransferSheet.Sheet`, `ExpenseForm.Form`, `ExternalIncome.Modal` and `Dashboard.Screen`. Its pure rules are functions.

**Representation.**
- Money is an exact `real`.
- Ids are strings. Ids the store generates for new rows are parameters.
- Dates, the day of the month, `daysLeft` and `weeksLeft` are `int` inputs.
- A `parseFloat` or `parseInt` result is an `Option`, where `None` stands for `NaN`.
- JavaScript `Math.round` is `Floor(x + 0.5)`.
- `String.prototype.trim` is `FormInput.Trim`.

The app has several quirks, and each is modelled as written and proved:
- A self-transfer creates money, because both writes use the snapshot balance (`Commands.SelfTransferAddsMoney`).
- An expense update whose new target is a periodic fund never debits it (`Commands.UpdateNeverDebitsPeriodic`).
- The fixed-bills screen sums the payments of all loans, paid ones included (`FixedBillsSection.CommittedCountsPaidLoans`).
- A goal has a stored amount that expenses debit (`Dashboard.GoalExpenseLeavesShownAmount`). The dashboard instead shows an amount recomputed from the savings balance (`Dashboard.DynamicIgnoresStored`).

## Model

| member | source | states |
|---|---|---|
| Ledger.Budget.constructor | src/hooks/useBudget.ts:8-73 | the store starts as the loaded tables |
| Ledger.Budget.AddIncome | src/hooks/useBudget.ts:216-248 | the in-place writes of `addIncome` reach `Commands.AddIncome` of the old state and keep unique ids and slugs |
| Ledger.Budget.CreditBucket | src/hooks/useBudget.ts:231-239 | one share is written as the snapshot balance plus the share, to the row with that slug only |
| Ledger.Budget.AddExternalIncome | src/hooks/useBudget.ts:250-272 | the writes reach `Commands.AddExternalIncome` and keep the store well formed |
| Ledger.Budget.TransferBetweenCategories | src/hooks/useBudget.ts:274-291 | the two writes reach `Commands.TransferBetweenCategories` and keep the store well formed |
| Ledger.Budget.PayLoan | src/hooks/useBudget.ts:431-460 | a missing source category fails with nothing written; otherwise the state is `Commands.PayLoan`'s |
| Ledger.Budget.ToggleLoanStatus | src/hooks/useBudget.ts:424-429 | only the status of the loan rows with that id changes |
| Ledger.Budget.DebitTargetOf | src/hooks/useBudget.ts:476-488 | the target of a non-gas expense is written to its balance minus the amount, floored at zero |
| Ledger.Budget.RefundTargetOf | src/hooks/useBudget.ts:578-591 | the target of a non-gas expense is credited back by exactly the amount |
| Ledger.Budget.AddExpense | src/hooks/useBudget.ts:462-498 | the record is logged and then its target is debited, as `Commands.AddExpense` states |
| Ledger.Budget.DeleteExpense | src/hooks/useBudget.ts:570-602 | an unknown id changes nothing; otherwise the record goes and the target is refunded |
| Ledger.Budget.UpdateExpense | src/hooks/useBudget.ts:500-568 | the revert, patch and new-impact steps reach `Commands.UpdateExpense` |
| Ledger.Budget.ApplyNewImpactOf | src/hooks/useBudget.ts:533-558 | the new target is read from the current store and debited, floored at zero; a periodic fund is never written |
| Ledger.Budget.UpdateIncome | src/hooks/useBudget.ts:604-618 | only the income record is patched; no balance changes |
| Ledger.Budget.DeleteIncome | src/hooks/useBudget.ts:620-632 | only the income record is dropped; no balance changes |
| Ledger.Budget.ResetData | src/hooks/useBudget.ts:680-709 | without a user nothing changes; otherwise every log and configuration table is emptied and every balance is zeroed |
| Projections.LoansWithProgress | src/hooks/useBudget.ts:198-204 | each loan keeps its fields and gets as current amount the sum of the loan-typed expenses that reference it |
| Projections.LoanPaidAfterAppend | src/hooks/useBudget.ts:199-204 | logging an expense grows a loan's paid amount by that amount exactly when the expense is loan-typed and references it |
| Projections.GasAvailable | src/hooks/useBudget.ts:209-211 | the gas balance is never negative and is either zero or gas income minus gas spending |
| Projections.GasExpensesAfterAppend | src/hooks/useBudget.ts:210 | logging an expense grows gas spending by its amount if and only if it is a gas expense |
| Projections.GasIncomeAfterAppend | src/hooks/useBudget.ts:209 | logging an income grows gas income by its amount if and only if it includes gas |
| Projections.CurrentFortnight | src/hooks/useBudget.ts:639 | the fortnight is 1 exactly on days 15 to 29 and 2 otherwise |
| Projections.BillContribution | src/hooks/useBudget.ts:641-660 | a bill pinned to a fortnight counts in full in that fortnight and not at all in the other; otherwise a biweekly bill counts in full and a monthly one counts half |
| Projections.ProrationByDay | src/hooks/useBudget.ts:634-661 | a lone monthly bill counts half on every day; a bill pinned to fortnight 1 counts only on days 15 to 29 |
| Projections.ActiveLoans | src/hooks/useBudget.ts:663 | the active loans are an ordered subsequence holding every copy of each active loan and no other loan |
| Projections.ActiveLoansAtMostAll | src/hooks/useBudget.ts:665-667 | the active-loan payment total is non-negative and at most the total over all loans |
| Projections.FixedSurplus | src/hooks/useBudget.ts:669-678 | the surplus is never negative; it is zero without a fixed category and otherwise max(0, fixed − bills − active loans) |
| Projections.SurplusAtMostFixedBalance | src/hooks/useBudget.ts:669-678 | with non-negative bills and payments, the surplus never exceeds the fixed balance |
| Commands.SetLoanStatus | src/hooks/useBudget.ts:424-429 | only the rows with the loan's id change, and only in their status |
| Commands.UpdateIncome | src/hooks/useBudget.ts:604-618 | only the income log changes; the rows with the id get the patched fields and every other row is unchanged; every row keeps its id and its gas flag |
| Commands.UpdateIncomeWritesTruthyFields | src/hooks/useBudget.ts:606-612 | an edit writes only truthy fields: an empty concept or a zero amount keeps the old value, a given date, concept or amount is written, and no balance changes |
| Commands.DeleteIncome | src/hooks/useBudget.ts:620-632 | only the income log changes, and it keeps every copy of each row with another id and no row with that id |
| Commands.ExternalConcept | src/hooks/useBudget.ts:250-272 | a logged external income always has a concept, and a given one is kept |
| Commands.AddIncomeSplits | src/hooks/useBudget.ts:216-248 | the income is always logged; a gas income changes no balance; otherwise every category grows by exactly its slug's share and nothing else changes |
| Commands.AddIncomeTotal | src/hooks/useBudget.ts:231-239 | a non-gas income grows the total balance by the sum of the shares whose slug has a category |
| Commands.AddExternalIncomeCredits | src/hooks/useBudget.ts:250-272 | a non-gas income is logged; gas income is unchanged; the row with the category id gains the amount and every other row is unchanged, so the total grows by the amount exactly when the category exists |
| Commands.TransferMoves | src/hooks/useBudget.ts:274-291 | a missing id changes nothing; for two distinct ids the source loses and the destination gains the amount, with no sufficiency check, and no other row changes |
| Commands.TransferConserves | src/hooks/useBudget.ts:274-291 | a transfer between two distinct ids preserves the total balance |
| Commands.SelfTransferAddsMoney | src/hooks/useBudget.ts:280-281 | a transfer from a category to itself ends at the old balance plus the amount and creates that much money |
| Commands.PayLoanEffect | src/hooks/useBudget.ts:431-460 | it fails if and only if the source is missing; otherwise the source is debited with a floor at zero, one loan-typed record is logged, that loan's progress grows by exactly the amount, other loans and the gas balance are unchanged |
| Commands.TargetWrite | src/hooks/useBudget.ts:476-488 | a debit or refund touches only the expense's own target row; gas and loan expenses touch no balance; the target ends at max(0, balance − amount) or balance + amount |
| Commands.AddExpenseEffect | src/hooks/useBudget.ts:462-498 | the record is appended; only its target row changes, floored at zero; gas spending grows exactly for a gas expense |
| Commands.DeleteExpenseRefunds | src/hooks/useBudget.ts:570-602 | an unknown id is a no-op; otherwise the log keeps exactly the other ids and the target is credited by exactly the amount |
| Commands.AddThenDeleteRestores | src/hooks/useBudget.ts:479-591 | adding a fresh expense and deleting it restores the whole store if and only if the floor at zero did not apply |
| Commands.UpdateIsDeleteThenAdd | src/hooks/useBudget.ts:500-568 | for a new target that is not a periodic fund, an update leaves the balances as a refund of the old record followed by adding the updated one |
| Commands.UpdateNeverDebitsPeriodic | src/hooks/useBudget.ts:545-553 | with a periodic fund as new target, the funds end as after the refund alone, so the fund is never debited |
| Commands.ResetClearsLedger | src/hooks/useBudget.ts:680-709 | after a reset the balance, the gas balance and the surplus are zero, every category keeps its id and slug, and no loan remains |
| Commands.ResetKeepsWellFormed | src/hooks/useBudget.ts:694-700 | a reset keeps the categories with unique ids and slugs |
| Commands.PatchExpenses | src/hooks/useBudget.ts:523-529 | the rows with the id get the patched fields and all other rows are unchanged |
| Commands.UpdateExpenseKeepsWellFormed | src/hooks/useBudget.ts:500-568 | an update keeps the ids and slugs of every table, so a well-formed store stays well formed |
| IncomeWizard.DefaultSplit | src/components/IncomeWizard.tsx:21-25 | the initial 50/30/20 split is a split: each share lies in [0,100] and they sum to 100 |
| IncomeWizard.CalculateDistribution | src/components/IncomeWizard.tsx:31-41 | fixed is the chosen percent, the three sum to 100, and savings is 60% of the rest, rounded |
| IncomeWizard.CalculatedIsSplit | src/components/IncomeWizard.tsx:31-41 | for a percent in [0,100] every share lies in [0,100] and savings is at least variable |
| IncomeWizard.DefaultIsCalculated | src/components/IncomeWizard.tsx:21-41 | the default split is the one computed for 50% fixed |
| IncomeWizard.ClampPercent | src/components/IncomeWizard.tsx:49-53 | the fixed percent is clamped into [0,100], and unreadable input gives 0 |
| IncomeWizard.Share | src/components/IncomeWizard.tsx:43-47 | each amount is an integer within half a unit of amount × percent / 100 |
| IncomeWizard.AmountsDrift | src/components/IncomeWizard.tsx:43-47 | the three rounded amounts differ from the income by less than 1.5 |
| IncomeWizard.AmountsDriftReached | src/components/IncomeWizard.tsx:43-47 | the rounded amounts can add up to more than the income |
| IncomeWizard.AmountsNonnegative | src/components/IncomeWizard.tsx:43-47 | a non-negative amount gives non-negative shares |
| IncomeWizard.Wizard.constructor | src/components/IncomeWizard.tsx:18-27 | the wizard starts on step 1 with no amount, no gas and the default split |
| IncomeWizard.Wizard.SetAmount | src/components/IncomeWizard.tsx:89 | only the amount changes |
| IncomeWizard.Wizard.SetIncludesGas | src/components/IncomeWizard.tsx:101 | only the gas flag changes |
| IncomeWizard.Wizard.Next | src/components/IncomeWizard.tsx:177-178 | the wizard advances to step 2 if and only if the amount is positive |
| IncomeWizard.Wizard.ToggleEditingFixed | src/components/IncomeWizard.tsx:118 | only the editing flag flips |
| IncomeWizard.Wizard.BlurFixed | src/components/IncomeWizard.tsx:134 | leaving the field ends editing and changes nothing else |
| IncomeWizard.Wizard.HandleFixedChange | src/components/IncomeWizard.tsx:49-53 | the split becomes the one computed for the clamped percent and stays a split |
| IncomeWizard.Wizard.Submit | src/components/IncomeWizard.tsx:55-61 | the submitted amount is positive, the gas flag is passed through, and each share is the rounded share of its bucket |
| LoanForm.LoadFields | src/components/LoanFormModal.tsx:31-43 | a new form is blank; an edit form loads the loan's name, total, duration and unit |
| LoanForm.TotalFortnights | src/components/LoanFormModal.tsx:49-56 | months count double and fortnights count once; a duration of zero or less gives 0 |
| LoanForm.PaymentPerFortnight | src/components/LoanFormModal.tsx:58 | payment × fortnights = total when there are fortnights, else the payment is 0 |
| LoanForm.TwelveMonthsExample | src/components/LoanFormModal.tsx:46-58 | 60000 over 12 months is 2500 per fortnight |
| LoanForm.Preview | src/components/LoanFormModal.tsx:46-58 | the preview times the fortnights is the total, or 0 without a duration |
| LoanForm.Submit | src/components/LoanFormModal.tsx:60-79 | nothing is submitted when the total or the duration is not positive; an edit updates that id and keeps its start date; a new loan is saved with today's date; the payment times the fortnights is the total |
| LoanForm.DisabledIffNoSubmit | src/components/LoanFormModal.tsx:221 | the button is disabled exactly when a submit would do nothing |
| LoanForm.BlankFormDoesNotSubmit | src/components/LoanFormModal.tsx:60-79 | a blank new form submits nothing |
| LoanForm.UnchangedEditRoundTrip | src/components/LoanFormModal.tsx:31-79 | loading a loan and submitting it unchanged sends that loan back as an update |
| LoanPayment.EligibleSources | src/components/LoanPaymentModal.tsx:28 | the sources are an ordered subsequence holding every copy of each fixed, savings or variable category and no other category |
| LoanPayment.DefaultSource | src/components/LoanPaymentModal.tsx:30-40 | the default source is the variable category, else the first eligible one, else the current choice |
| LoanPayment.MaxPayment | src/components/LoanPaymentModal.tsx:56-62 | with a source, the ceiling is the smaller of its balance and what remains of the loan; without one it is 0 |
| LoanPayment.EnabledIsAffordable | src/components/LoanPaymentModal.tsx:170 | an enabled payment is positive and covered by both the source balance and the remaining debt |
| LoanPayment.UnreadableAmountNotBlocked | src/components/LoanPaymentModal.tsx:170 | no non-empty text that reads as `NaN` disables the button, since every comparison with `NaN` is false |
| LoanPayment.Submit | src/components/LoanPaymentModal.tsx:42-54 | a request is sent if and only if the source exists, carrying that source's slug |
| LoanPayment.EnabledPaymentIsExact | src/components/LoanPaymentModal.tsx:42-62 | a payment the form lets through succeeds, debits the source without reaching the floor, and grows the loan's progress by exactly the amount |
| LoansSection.TotalLoansPerFortnight | src/components/LoansSection.tsx:34-35 | the per-fortnight total plus the paid loans' payments is the total over all loans |
| LoansSection.TotalAfterNewLoan | src/components/LoansSection.tsx:34-35 | a new loan adds its payment to the total exactly when it is active |
| LoansSection.Progress | src/components/LoansSection.tsx:68 | progress never exceeds 100 and reaches 100 exactly when the loan is paid off |
| LoansSection.PercentOfPositive | src/components/LoansSection.tsx:68 | with a positive total the ratio reaches 100% exactly when current ≥ total |
| LoansSection.ToggleTarget | src/components/LoansSection.tsx:69 | the toggle always targets the other status |
| LoansSection.ToggleTwiceRestores | src/components/LoansSection.tsx:113 | toggling a loan twice restores the store |
| FixedBillForm.ChoiceFrequency | src/components/FixedBillFormModal.tsx:41-62 | the frequency is monthly exactly for the choice 'both' |
| FixedBillForm.ChoiceFortnight | src/components/FixedBillFormModal.tsx:41-62 | 'both' has no fortnight; choices 1 and 2 keep their fortnight |
| FixedBillForm.LoadChoice | src/components/FixedBillFormModal.tsx:29-39 | fortnight 1 loads as 1, fortnight 2 as 2, and anything else as 'both' |
| FixedBillForm.LoadAfterSubmit | src/components/FixedBillFormModal.tsx:29-62 | loading what a choice submits gives back that choice |
| FixedBillForm.SubmitAfterLoad | src/components/FixedBillFormModal.tsx:29-62 | submitting a loaded bill keeps fortnights 1 and 2 and drops any other |
| FixedBillForm.Submit | src/components/FixedBillFormModal.tsx:41-62 | the record carries the mapped frequency and fortnight; an existing bill is updated under its id, otherwise a new one is saved |
| FixedBillForm.Preview | src/components/FixedBillFormModal.tsx:178-180 | the preview is half the amount for 'both' and the full amount otherwise |
| FixedBillForm.PreviewMatchesProration | src/components/FixedBillFormModal.tsx:178-180 | the preview equals what the ledger's proration counts in the bill's fortnight, and 0 in the other |
| FixedBillForm.EditTurnsUnpinnedBiweeklyMonthly | src/components/FixedBillFormModal.tsx:29-62 | re-saving an unpinned biweekly bill unchanged makes it monthly and halves what it counts |
| FixedBillsSection.BillsFoldIsSum | src/components/FixedBillsSection.tsx:36-56 | the reduce with early returns is the sum of the bills' contributions |
| FixedBillsSection.SameBillTotalAsHook | src/components/FixedBillsSection.tsx:31-56 | the screen's bill total equals the hook's `getTotalFixedBills` |
| FixedBillsSection.CommittedCountsPaidLoans | src/components/FixedBillsSection.tsx:58-60 | the committed total is the bill total plus the payments of all loans, paid ones included, and so can exceed the hook's figure |
| FixedBillsSection.InactiveIffNoContribution | src/components/FixedBillsSection.tsx:104 | a bill with a non-zero amount is shown inactive exactly when it counts 0 this fortnight |
| TransferSheet.IdAtOr | src/components/TransferSheet.tsx:21-22 | the default is the id at that position, or empty when the list is shorter |
| TransferSheet.DestinationList | src/components/TransferSheet.tsx:118 | the destinations are an ordered subsequence holding every copy of each category other than the source, and not the source |
| TransferSheet.AllowedTransferIsCovered | src/components/TransferSheet.tsx:29-39 | a transfer the sheet allows leaves the source non-negative, credits the destination and preserves the total |
| TransferSheet.Sheet.constructor | src/components/TransferSheet.tsx:21-22 | the default source is the third category and the default destination is the second |
| TransferSheet.Sheet.SelectFrom | src/components/TransferSheet.tsx:21 | only the source changes |
| TransferSheet.Sheet.SelectTo | src/components/TransferSheet.tsx:22 | only the destination changes |
| TransferSheet.Sheet.SetAmount | src/components/TransferSheet.tsx:27 | only the amount changes |
| TransferSheet.Sheet.Swap | src/components/TransferSheet.tsx:41-44 | the source and destination are exchanged, and nothing else changes |
| TransferSheet.Sheet.HandleTransfer | src/components/TransferSheet.tsx:34-39 | a request is made if and only if the transfer is allowed, and it carries the selection and the amount |
| ExpenseForm.KindForSelection | src/components/ExpenseFormModal.tsx:75-82 | any category gives 'variable', a goal gives 'goal' and a fund gives 'periodic'; otherwise the bare words 'fixed' and 'savings' select themselves, and anything else keeps the kind |
| ExpenseForm.MaxAmount | src/components/ExpenseFormModal.tsx:59-73 | the ceiling is the gas balance for gas; otherwise the category, goal or fund balance, in that order; else 0 |
| ExpenseForm.EnabledWithinCeiling | src/components/ExpenseFormModal.tsx:225 | an enabled amount is within the ceiling, so a ceiling of 0 blocks every positive amount |
| ExpenseForm.CeilingIsLedgerBalance | src/components/ExpenseFormModal.tsx:59-82 | for a known target the ceiling is the balance `addExpense` debits |
| ExpenseForm.EnabledExpenseDebitedInFull | src/components/ExpenseFormModal.tsx:225 | an expense the form lets through is debited in full, so the floor at zero never applies |
| ExpenseForm.Form.constructor | src/components/ExpenseFormModal.tsx:35-44 | the form starts empty, of kind 'variable', not gas |
| ExpenseForm.Form.Reset | src/components/ExpenseFormModal.tsx:35-44 | opening clears the fields, selects 'variable' if that id exists, and sets kind 'variable', not gas |
| ExpenseForm.Form.SetDescription | src/components/ExpenseFormModal.tsx:188 | only the description changes |
| ExpenseForm.Form.SetAmount | src/components/ExpenseFormModal.tsx:206 | only the amount changes |
| ExpenseForm.Form.HandleCategoryChange | src/components/ExpenseFormModal.tsx:75-82 | the selection changes and its kind is derived from which table holds the id |
| ExpenseForm.Form.ToggleGas | src/components/ExpenseFormModal.tsx:117 | only the gas flag flips |
| ExpenseForm.Form.Submit | src/components/ExpenseFormModal.tsx:46-57 | a gas expense is sent as kind 'fixed'; every other field passes through |
| PeriodicForm.FortnightsLeft | src/components/PeriodicExpenseFormModal.tsx:48-62 | at least one fortnight; otherwise the fewest 15-day periods covering the days left |
| PeriodicForm.FortnightlySavings | src/components/PeriodicExpenseFormModal.tsx:48-62 | no hint without a due date or a target, when nothing remains, or when no days are left; otherwise the amount per fortnight times the fortnights is what remains |
| PeriodicForm.DivideAmongFortnights | src/components/PeriodicExpenseFormModal.tsx:60-61 | splitting what remains over the fortnights gives a positive amount no larger than it that adds back up to it |
| PeriodicForm.ThirtyDaysExample | src/components/PeriodicExpenseFormModal.tsx:48-62 | 3000 due in 30 days is 1500 per fortnight |
| PeriodicForm.Submit | src/components/PeriodicExpenseFormModal.tsx:66-88 | nothing is sent for an empty trimmed name, a non-positive target or no due date; an edit updates that id, otherwise a new fund is saved with the trimmed name |
| PeriodicForm.SubmittedNameIsVisible | src/components/PeriodicExpenseFormModal.tsx:66-88 | a blank name is refused, and a sent name has no surrounding whitespace |
| PeriodicForm.NewFundShowsHint | src/components/PeriodicExpenseFormModal.tsx:48-88 | a new fund that can be submitted with days left shows a per-fortnight hint |
| GoalForm.Submit | src/components/GoalFormModal.tsx:35-60 | nothing is sent for an empty trimmed name or a non-positive target; an unreadable allocation is 0; an edit updates that id, otherwise a new goal is saved |
| GoalForm.BlankNameRefused | src/components/GoalFormModal.tsx:35-60 | a name of only whitespace is refused |
| GoalForm.UnchangedEditRoundTrip | src/components/GoalFormModal.tsx:23-60 | loading a goal and submitting it unchanged sends that goal back as an update |
| ExternalIncome.DefaultCategory | src/components/ExternalIncomeModal.tsx:18 | the default is the savings category's id, or empty without one |
| ExternalIncome.Preselected | src/components/ExternalIncomeModal.tsx:19 | the given category wins; otherwise the default is used |
| ExternalIncome.ModalConcept | src/components/ExternalIncomeModal.tsx:28-35 | the concept is the trimmed text, or 'Ingreso Extra' when that is empty, and never has surrounding whitespace |
| ExternalIncome.BlankConceptGetsLabel | src/components/ExternalIncomeModal.tsx:33 | a concept of only whitespace becomes 'Ingreso Extra' |
| ExternalIncome.AcceptedRequestCredits | src/components/ExternalIncomeModal.tsx:28-35 | an accepted request logs the income and grows the total balance by the amount when its category exists |
| ExternalIncome.Modal.constructor | src/components/ExternalIncomeModal.tsx:15-19 | the modal starts empty with the preselected category |
| ExternalIncome.Modal.Open | src/components/ExternalIncomeModal.tsx:22-26 | opening reselects the preselected category and keeps the fields |
| ExternalIncome.Modal.SetAmount | src/components/ExternalIncomeModal.tsx:16 | only the amount changes |
| ExternalIncome.Modal.SetConcept | src/components/ExternalIncomeModal.tsx:17 | only the concept changes |
| ExternalIncome.Modal.Select | src/components/ExternalIncomeModal.tsx:19 | only the selected category changes |
| ExternalIncome.Modal.Close | src/components/ExternalIncomeModal.tsx:37-45 | closing clears the amount and the concept and reselects the preselected category |
| ExternalIncome.Modal.Submit | src/components/ExternalIncomeModal.tsx:28-35 | a request is sent if and only if the amount is positive, with the defaulted concept, and the modal closes; otherwise nothing changes |
| GoalCard.Progress | src/components/GoalCard.tsx:15-17 | progress × target = current × 100 for a positive target, else 0; it reaches 100 exactly when funded |
| GoalCard.PercentOf | src/components/GoalCard.tsx:15-20 | with a positive target the percent reaches 100 exactly when funded, and is below 50 exactly when less than half is saved |
| GoalCard.Classify | src/components/GoalCard.tsx:27-43 | goals get no label; overdue is urgent; within 14 days it is urgent unless complete; within 8 weeks it is urgent below half; later it shows fortnights and is not urgent |
| GoalCard.FundedNotUrgentUntilOverdue | src/components/GoalCard.tsx:27-43 | a fully funded fund is urgent exactly when overdue |
| GoalCard.FortnightLabelFromNineWeeks | src/components/GoalCard.tsx:36-41 | from 63 days out the label counts fortnights |
| GoalCard.RingColour | src/components/GoalCard.tsx:45 | goals use the savings colour, and urgent funds use the destructive colour |
| TransactionHistory.CategoryName | src/components/TransactionHistory.tsx:63-75 | a goal shows its name or 'Meta'; a fund shows its name or 'Gasto Periódico'; anything else shows its category's name or 'Otro' |
| TransactionHistory.CategoryNameNonEmpty | src/components/TransactionHistory.tsx:63-75 | with named categories the shown name is never empty |
| TransactionHistory.FilteredExpenses | src/components/TransactionHistory.tsx:77-99 | the list is an ordered subsequence holding every copy of each expense the filter accepts and none it rejects |
| TransactionHistory.AllKeepsEverything | src/components/TransactionHistory.tsx:95-96 | the 'all' filter keeps every expense and totals all of them |
| TransactionHistory.ShownPlusHidden | src/components/TransactionHistory.tsx:101-103 | the shown total plus the hidden total is the total of all expenses |
| TransactionHistory.BucketTabByKind | src/components/TransactionHistory.tsx:91-94 | for a row whose id is not a bucket name, a bucket tab keeps it exactly when its kind is that bucket |
| Dashboard.IncomeConcept | src/components/Dashboard.tsx:126 | the concept is 'Nómina + Gasolina' exactly when the income includes gas, else 'Nómina' |
| Dashboard.SurplusCardHasMoney | src/components/Dashboard.tsx:370 | the card shows only when a fixed category exists, and the surplus it offers is then exactly fixed − bills − active loans |
| Dashboard.MoveSurplus | src/components/Dashboard.tsx:164-168 | nothing happens without a surplus; with one it fails exactly when the target category is missing, and otherwise transfers the surplus |
| Dashboard.MoveSurplusEmptiesSurplus | src/components/Dashboard.tsx:164-168 | moving the surplus leaves a surplus of zero, preserves the total, credits the target by the surplus and changes no other table |
| Dashboard.InsertKeepsSorted | src/components/Dashboard.tsx:192-195 | inserting into a list sorted by due date keeps it sorted |
| Dashboard.SortByDue | src/components/Dashboard.tsx:192-195 | the result is sorted by due date and is a permutation of the input |
| Dashboard.UpcomingSelection | src/components/Dashboard.tsx:192-195 | at most two underfunded funds, sorted by due date, and exactly two when that many exist |
| Dashboard.UpcomingLeftOutDueLater | src/components/Dashboard.tsx:192-195 | an underfunded fund left out is due no earlier than every shown one |
| Dashboard.SavingsBalance | src/components/Dashboard.tsx:443-444 | the balance is the savings category's, or 0 without one |
| Dashboard.DynamicAmountWithinSavings | src/components/Dashboard.tsx:445 | for an allocation in [0,100] the shown goal amount lies between 0 and the savings balance |
| Dashboard.DynamicIgnoresStored | src/components/Dashboard.tsx:441-445 | the shown goal amount does not depend on the stored amount |
| Dashboard.DynamicAmountsShareSavings | src/components/Dashboard.tsx:441-445 | the shown amounts of all goals sum to savings × total allocation / 100 |
| Dashboard.GoalExpenseLeavesShownAmount | src/hooks/useBudget.ts:481-482 | a goal expense debits the goal's stored amount but leaves the amount the dashboard shows unchanged |
| Dashboard.PayrollCreditsItsAmount | src/components/Dashboard.tsx:117-131 | with all three categories present, a payroll income moves the total balance by the amount within the rounding drift |
| Dashboard.Screen.constructor | src/components/Dashboard.tsx:99-106 | no sheet and no modal is open at first |
| Dashboard.Screen.HandleAction | src/components/Dashboard.tsx:99-106 | goal, fund, expense and loan actions close the sheet and open their modal; other actions open their sheet |
| Dashboard.Screen.HandleIncomeSubmit | src/components/Dashboard.tsx:117-131 | the ledger receives the payroll income with its concept and split, and the sheet closes |
| Dashboard.Screen.HandleMoveSurplus | src/components/Dashboard.tsx:164-168 | the ledger ends as `MoveSurplus` says, and the error is reported when the target is missing |
| FormInput.JsRound | src/components/IncomeWizard.tsx:34 | the rounded value is within half a unit, rounding halves up |
| FormInput.Trim | src/components/GoalFormModal.tsx:38 | trimming never lengthens a string and leaves no whitespace at either end |
| FormInput.TrimCutsWhitespace | src/components/GoalFormModal.tsx:38 | every character trimmed away is whitespace |
| FormInput.TrimEmpty | src/components/GoalFormModal.tsx:38 | a string trims to empty exactly when it is all whitespace |
| FormInput.TrimIdempotent | src/components/GoalFormModal.tsx:38 | trimming twice is trimming once |

## Left out

- Supabase reads and writes, react-query caching and invalidation, and toasts are left out. The store is in memory, and each awaited write is one state update.
- Commands run atomically on one snapshot. The concurrent, unawaited mutations of the app and their stale-read races are not modelled. The one kept is the same-snapshot self-transfer.
- `Ledger.Budget.ResetData`: the try/catch partial-failure path is not modelled. A reset either happens entirely or, without a user, not at all.
- The signed-in user is the `signedIn` flag of `resetData`. Authentication and routing are not part of this model.
- The add, update and delete mutations for goals, periodic funds, fixed bills and loans only forward form fields to rows. Their field renaming and `Number()` coercions are persistence plumbing and are not modelled. The forms that feed them are modelled.
- The date libraries are replaced by inputs: the day of the month, `daysLeft`, `weeksLeft` and timestamps are `int` parameters. The relation `weeksLeft = daysLeft / 7` is assumed only in `GoalCard.FortnightLabelFromNineWeeks`.
- Money is an exact `real`. Floating-point rounding, `Infinity`, and `NaN` arithmetic beyond unreadable input (`None`) are not modelled.
- `parseFloat` and `parseInt` are not modelled. The text fields carry their parsed value beside the text.
- `ExpenseForm.EnabledWithinCeiling`: a `NaN` amount compares false in every test, so the ceiling is stated for a readable amount only. The amount fields are number inputs, which report unreadable text as empty, so the form does not reach the `NaN` case.
- Currency formatting (`Intl.NumberFormat`, `toFixed`) is not modelled.
- Presentation-only components are not modelled: ActionSheet, SettingsSheet, MobileNavSheet, EmptyState, FloatingActionButton, SurplusCard, BudgetCard, GasCard, BudgetComparisonBar, IncomeEditModal and ProgressRing.
- `Dashboard.SortByDue`: it proves the sort order and that the result is a permutation. It does not state that ties keep their original order, which JavaScript's stable `sort` also guarantees.
- `Dashboard.MoveSurplus`: a missing target slug is the `TypeError` from reading `id` of `undefined`, modelled as an error result with nothing written.
- Dashboard's loading and no-fixed-category screens are not modelled. `MoveSurplus` and `HandleMoveSurplus` require the fixed category that those screens guarantee.
- `IncomeWizard.Wizard.Submit`: `Math.round` of a negative half rounds up, as `Floor(x + 0.5)` does. Shares are computed on the exact product, not on its floating-point value.
