/** The loan payment form (src/components/LoanPaymentModal.tsx): which
    buckets may pay, the default one, the payment ceiling and the submit
    rule, and how an accepted payment lands in the ledger. */
module LoanPayment {
  import opened Collections
  import opened Entities
  import opened Projections
  import Commands

  /** Only the three budget buckets may pay a loan. */
  predicate IsEligible(c: Category) {
    c.slug == FixedSlug || c.slug == VariableSlug || c.slug == SavingsSlug
  }

  function EligibleSources(cats: seq<Category>): (r: seq<Category>)
    ensures IsSubsequence(r, cats)
    ensures forall c :: c in r <==> c in cats && IsEligible(c)
    ensures forall c :: multiset(r)[c] == if IsEligible(c) then multiset(cats)[c] else 0
  {
    FilterIsSubsequence(cats, IsEligible);
    FilterMembers(cats, IsEligible);
    FilterCount(cats, IsEligible);
    Filter(cats, IsEligible)
  }

  /** The open effect: the variable bucket if there is one, else the first
      eligible bucket, else the selection stays as it was. */
  function DefaultSource(cats: seq<Category>, current: Id): (id: Id)
    ensures SlugIndex(cats, VariableSlug) >= 0 ==> id == cats[SlugIndex(cats, VariableSlug)].id
    ensures SlugIndex(cats, VariableSlug) < 0 && |EligibleSources(cats)| > 0 ==>
      id == EligibleSources(cats)[0].id && IsEligible(EligibleSources(cats)[0])
    ensures SlugIndex(cats, VariableSlug) < 0 && |EligibleSources(cats)| == 0 ==> id == current
  {
    var k := SlugIndex(cats, VariableSlug);
    var sources := EligibleSources(cats);
    if k >= 0 then cats[k].id
    else if |sources| > 0 then
      assert sources[0] in sources;
      sources[0].id
    else current
  }

  /** What is still owed on the loan. */
  function RemainingLoan(loan: Loan): real {
    loan.totalAmount - loan.currentAmount
  }

  /** `maxPayment`: the smaller of the source balance and the debt left, or
      0 when no source is selected. */
  function MaxPayment(cats: seq<Category>, sourceId: Id, loan: Loan): (m: real)
    ensures CategoryIndex(cats, sourceId) < 0 ==> m == 0.0
    ensures var k := CategoryIndex(cats, sourceId);
      k >= 0 ==> m <= cats[k].amount && m <= RemainingLoan(loan)
                 && (m == cats[k].amount || m == RemainingLoan(loan))
  {
    var k := CategoryIndex(cats, sourceId);
    if k >= 0 then Min(cats[k].amount, RemainingLoan(loan)) else 0.0
  }

  /** The disabled rule of the confirm button. `amountText` is the raw
      field and `parsed` its `parseFloat` (`None` for NaN, for which every
      comparison is false). */
  predicate SubmitDisabled(amountText: string, parsed: Option<real>, sourceId: Id,
                           cats: seq<Category>, loan: Loan)
  {
    || amountText == ""
    || sourceId == ""
    || (parsed.Some? && parsed.value > MaxPayment(cats, sourceId, loan))
    || (parsed.Some? && parsed.value <= 0.0)
  }

  /** An enabled button with a number in the field means a known source, a
      positive amount, and no more than either the balance or the debt. */
  lemma EnabledIsAffordable(amountText: string, v: real, sourceId: Id, cats: seq<Category>, loan: Loan)
    requires !SubmitDisabled(amountText, Some(v), sourceId, cats, loan)
    ensures var k := CategoryIndex(cats, sourceId);
      && k >= 0 && 0.0 < v <= cats[k].amount && v <= RemainingLoan(loan)
  {
  }

  /** Any non-empty text `parseFloat` cannot read leaves the button enabled,
      since every comparison with `NaN` is false. The field is a
      `type="number"` input, whose value a browser reports as "" while it
      cannot be read, so the form itself does not reach this state. */
  lemma UnreadableAmountNotBlocked(cats: seq<Category>, loan: Loan, sourceId: Id)
    requires sourceId != ""
    ensures forall text :: text != "" ==> !SubmitDisabled(text, None, sourceId, cats, loan)
  {
  }

  datatype PaymentRequest = PaymentRequest(
    loanId: Id, amount: Option<real>, sourceCategoryId: Id, sourceCategorySlug: string)

  /** `handleSubmit`: nothing is sent when the source is not found; else the
      request names the source's slug. */
  function Submit(loanId: Id, parsed: Option<real>, sourceId: Id, cats: seq<Category>): (r: Option<PaymentRequest>)
    ensures r.None? <==> CategoryIndex(cats, sourceId) < 0
    ensures r.Some? ==> r.value == PaymentRequest(loanId, parsed, sourceId, cats[CategoryIndex(cats, sourceId)].slug)
  {
    var k := CategoryIndex(cats, sourceId);
    if k < 0 then None else Some(PaymentRequest(loanId, parsed, sourceId, cats[k].slug))
  }

  /** A payment the enabled button lets through reaches `payLoan`, which
      then debits the source by exactly that amount (its floor at 0 never
      applies) and adds exactly that amount to the loan's progress. */
  lemma EnabledPaymentIsExact(s: Commands.Snapshot, amountText: string, v: real, sourceId: Id,
                              loan: Loan, expenseId: Id, date: int)
    requires Commands.WellFormed(s)
    requires !SubmitDisabled(amountText, Some(v), sourceId, s.categories, loan)
    ensures Submit(loan.id, Some(v), sourceId, s.categories).Some?
    ensures var r := Commands.PayLoan(s, loan.id, v, sourceId, expenseId, date);
      var k := CategoryIndex(s.categories, sourceId);
      && r.Ok?
      && r.value.categories[k].amount == s.categories[k].amount - v
      && LoanPaid(r.value.expenses, loan.id) == LoanPaid(s.expenses, loan.id) + v
  {
    EnabledIsAffordable(amountText, v, sourceId, s.categories, loan);
    Commands.PayLoanEffect(s, loan.id, v, sourceId, expenseId, date);
  }
}
