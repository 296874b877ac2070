/** The loan form (src/components/LoanFormModal.tsx): the amortisation
    preview and the submit rule for a new or edited loan. */
module LoanForm {
  import opened Collections
  import opened Entities
  import opened FormInput

  /** The form's fields, amounts as `parseFloat` reads them (`None` is NaN). */
  datatype LoanFields = LoanFields(
    name: string, amount: Option<real>, duration: Option<real>, durationType: DurationType)

  /** The open effect: an edited loan fills the fields, a new one starts
      blank with months as the unit. */
  function LoadFields(loan: Option<Loan>): (f: LoanFields)
    ensures loan.None? ==> f.amount.None? && f.duration.None? && f.durationType == Months && f.name == ""
    ensures loan.Some? ==> f == LoanFields(loan.value.name, Some(loan.value.totalAmount),
                                          Some(loan.value.durationValue), loan.value.durationType)
  {
    match loan
    case Some(l) => LoanFields(l.name, Some(l.totalAmount), Some(l.durationValue), l.durationType)
    case None => LoanFields("", None, None, Months)
  }

  /** `totalFortnights`: two per month, none for a non-positive duration. */
  function TotalFortnights(duration: real, unit: DurationType): (n: real)
    ensures duration <= 0.0 ==> n == 0.0
    ensures duration > 0.0 && unit == Months ==> n == duration * 2.0
    ensures duration > 0.0 && unit == Fortnights ==> n == duration
    ensures n >= 0.0 && (n > 0.0 <==> duration > 0.0)
  {
    if duration > 0.0 then (if unit == Months then duration * 2.0 else duration) else 0.0
  }

  /** `paymentPerFortnight`: the instalments pay the loan off exactly. */
  function PaymentPerFortnight(total: real, fortnights: real): (p: real)
    ensures fortnights > 0.0 ==> p * fortnights == total
    ensures fortnights <= 0.0 ==> p == 0.0
    ensures fortnights > 0.0 ==> (p > 0.0 <==> total > 0.0)
  {
    if fortnights > 0.0 then total / fortnights else 0.0
  }

  /** 60000 over 12 months is 24 instalments of 2500. */
  lemma TwelveMonthsExample()
    ensures PaymentPerFortnight(60000.0, TotalFortnights(12.0, Months)) == 2500.0
  {
    assert TotalFortnights(12.0, Months) == 24.0;
  }

  /** The preview for the current fields. */
  function Preview(f: LoanFields): (p: real)
    ensures p * TotalFortnights(OrZero(f.duration), f.durationType) == OrZero(f.amount)
         || (OrZero(f.duration) <= 0.0 && p == 0.0)
  {
    PaymentPerFortnight(OrZero(f.amount), TotalFortnights(OrZero(f.duration), f.durationType))
  }

  /** The submit button is disabled while the preview is not positive. */
  predicate SubmitDisabled(f: LoanFields) {
    Preview(f) <= 0.0
  }

  datatype LoanDraft = LoanDraft(
    name: string, totalAmount: real, durationValue: real, durationType: DurationType,
    paymentPerFortnight: real, startDate: int)

  datatype LoanSubmit = NoSubmit | SaveLoan(draft: LoanDraft) | UpdateLoan(id: Id, draft: LoanDraft)

  /** `handleSubmit`: nothing without a positive amount and duration;
      otherwise the loan with its computed instalment, keeping an edited
      loan's start date and taking `now` for a new one. */
  function Submit(f: LoanFields, loan: Option<Loan>, now: int): (o: LoanSubmit)
    ensures o.NoSubmit? <==> OrZero(f.amount) <= 0.0 || OrZero(f.duration) <= 0.0
    ensures o.SaveLoan? <==> !o.NoSubmit? && loan.None?
    ensures o.UpdateLoan? ==> loan.Some? && o.id == loan.value.id
    ensures !o.NoSubmit? ==>
      && o.draft.name == f.name
      && o.draft.totalAmount == OrZero(f.amount) > 0.0
      && o.draft.durationValue == OrZero(f.duration) > 0.0
      && o.draft.durationType == f.durationType
      && o.draft.paymentPerFortnight > 0.0
      && o.draft.paymentPerFortnight * TotalFortnights(o.draft.durationValue, f.durationType) == o.draft.totalAmount
      && o.draft.startDate == (if loan.Some? then loan.value.startDate else now)
  {
    var totalAmount := OrZero(f.amount);
    var duration := OrZero(f.duration);
    if totalAmount <= 0.0 || duration <= 0.0 then NoSubmit
    else
      var draft := LoanDraft(f.name, totalAmount, duration, f.durationType,
                             PaymentPerFortnight(totalAmount, TotalFortnights(duration, f.durationType)),
                             if loan.Some? then loan.value.startDate else now);
      if loan.Some? then UpdateLoan(loan.value.id, draft) else SaveLoan(draft)
  }

  /** The disabled button and the submit guard agree: a form that can be
      submitted is never shown disabled, and the reverse. */
  lemma DisabledIffNoSubmit(f: LoanFields, loan: Option<Loan>, now: int)
    ensures SubmitDisabled(f) <==> Submit(f, loan, now).NoSubmit?
  {
    var total, duration := OrZero(f.amount), OrZero(f.duration);
    if total > 0.0 && duration > 0.0 {
      assert TotalFortnights(duration, f.durationType) > 0.0;
    }
  }

  /** A blank form submits nothing. */
  lemma BlankFormDoesNotSubmit(now: int)
    ensures Submit(LoadFields(None), None, now) == NoSubmit
  {
  }

  /** Saving an edited loan without touching the fields sends back its own
      values and start date, with the instalment recomputed. */
  lemma UnchangedEditRoundTrip(loan: Loan, now: int)
    requires loan.totalAmount > 0.0 && loan.durationValue > 0.0
    ensures var o := Submit(LoadFields(Some(loan)), Some(loan), now);
      && o.UpdateLoan? && o.id == loan.id
      && o.draft == LoanDraft(loan.name, loan.totalAmount, loan.durationValue, loan.durationType,
                              PaymentPerFortnight(loan.totalAmount, TotalFortnights(loan.durationValue, loan.durationType)),
                              loan.startDate)
  {
  }
}
