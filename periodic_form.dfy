/** The sinking-fund form (src/components/PeriodicExpenseFormModal.tsx):
    the per-fortnight saving hint and the submit rule. */
module PeriodicForm {
  import opened Collections
  import opened Entities
  import opened FormInput

  /** The hint as a JavaScript value: none (null), a number, or NaN when
      the target field does not parse. */
  datatype Hint = NoHint | PerFortnight(value: real) | NotANumber

  /** `Math.max(1, Math.ceil(daysLeft / 15))`. */
  function FortnightsLeft(daysLeft: int): (n: int)
    ensures n >= 1
    ensures daysLeft > 0 ==> (n - 1) * 15 < daysLeft <= n * 15
  {
    var c := Ceil(daysLeft as real / 15.0);
    if c < 1 then 1 else c
  }

  /** `calculateFortnightlySavings`. `targetText` and `dueText` are the raw
      fields, `parsed` is `parseFloat` of the target, `editing` the fund
      being edited and `daysLeft` the whole days until the due date. */
  function FortnightlySavings(targetText: string, parsed: Option<real>, dueText: string,
                              editing: Option<PeriodicExpense>, daysLeft: int): (h: Hint)
    ensures dueText == "" || targetText == "" ==> h == NoHint
    ensures dueText != "" && targetText != "" && parsed.None? && daysLeft > 0 ==> h == NotANumber
    ensures h.PerFortnight? ==> parsed.Some? && daysLeft > 0
    ensures h.PerFortnight? && parsed.Some? ==>
      var remaining := parsed.value - (if editing.Some? then editing.value.currentAmount else 0.0);
      && remaining > 0.0
      && h.value * FortnightsLeft(daysLeft) as real == remaining
      && 0.0 < h.value <= remaining
    ensures parsed.Some? && dueText != "" && targetText != "" ==>
      var remaining := parsed.value - (if editing.Some? then editing.value.currentAmount else 0.0);
      (h == NoHint <==> remaining <= 0.0 || daysLeft <= 0)
  {
    if dueText == "" || targetText == "" then NoHint
    else if parsed.None? then
      // NaN - current is NaN, and every comparison with NaN is false
      if daysLeft <= 0 then NoHint else NotANumber
    else
      var current := if editing.Some? then editing.value.currentAmount else 0.0;
      var remaining := parsed.value - current;
      if remaining <= 0.0 then NoHint
      else if daysLeft <= 0 then NoHint
      else
        var n := FortnightsLeft(daysLeft);
        DivideAmongFortnights(remaining, n);
        PerFortnight(remaining / n as real)
  }

  lemma DivideAmongFortnights(remaining: real, n: int)
    requires remaining > 0.0 && n >= 1
    ensures (remaining / n as real) * n as real == remaining
    ensures 0.0 < remaining / n as real <= remaining
  {
    var q := remaining / n as real;
    assert q * n as real == remaining;
    assert q > 0.0;
    assert q * 1.0 <= q * n as real;
  }

  /** Thirty days to save 3000 from nothing is two fortnights of 1500. */
  lemma ThirtyDaysExample()
    ensures FortnightlySavings("3000", Some(3000.0), "2025-07-01", None, 30) == PerFortnight(1500.0)
  {
    assert Ceil(2.0) == 2;
  }

  /** What `addPeriodicExpense` or `updatePeriodicExpense` receives; the due
      date is the day the date field names, as a timestamp. */
  datatype FundDraft = FundDraft(name: string, targetAmount: real, dueDate: int, frequency: FundFrequency)

  datatype FundSubmit = NoSubmit | SaveFund(draft: FundDraft) | UpdateFund(id: Id, draft: FundDraft)

  /** `handleSubmit`: nothing for a blank name, a target that is not a
      positive number, or no due date; otherwise the trimmed name, sent as
      an update only when editing and an update handler was given. */
  function Submit(name: string, parsed: Option<real>, dueText: string, dueDate: int, frequency: FundFrequency,
                  editing: Option<PeriodicExpense>, hasOnUpdate: bool): (o: FundSubmit)
    ensures o.NoSubmit? <==> Trim(name) == "" || OrZero(parsed) <= 0.0 || dueText == ""
    ensures o.UpdateFund? <==> !o.NoSubmit? && editing.Some? && hasOnUpdate
    ensures o.UpdateFund? ==> o.id == editing.value.id
    ensures !o.NoSubmit? ==> o.draft == FundDraft(Trim(name), OrZero(parsed), dueDate, frequency)
  {
    var trimmedName := Trim(name);
    var parsedTarget := OrZero(parsed);
    if trimmedName == "" || parsedTarget <= 0.0 || dueText == "" then NoSubmit
    else
      var d := FundDraft(trimmedName, parsedTarget, dueDate, frequency);
      if editing.Some? && hasOnUpdate then UpdateFund(editing.value.id, d) else SaveFund(d)
  }

  /** A name made only of white space is refused; a submitted one has
      visible text at both ends. */
  lemma SubmittedNameIsVisible(name: string, parsed: Option<real>, dueText: string, dueDate: int,
                               frequency: FundFrequency, editing: Option<PeriodicExpense>, hasOnUpdate: bool)
    ensures (forall k :: 0 <= k < |name| ==> IsWhitespace(name[k])) ==>
      Submit(name, parsed, dueText, dueDate, frequency, editing, hasOnUpdate).NoSubmit?
    ensures var o := Submit(name, parsed, dueText, dueDate, frequency, editing, hasOnUpdate);
      !o.NoSubmit? ==> |o.draft.name| > 0 && !IsWhitespace(o.draft.name[0])
                       && !IsWhitespace(o.draft.name[|o.draft.name| - 1])
  {
    TrimEmpty(name);
  }

  /** A new fund the form accepts with a future due date always shows a
      positive per-fortnight hint. */
  lemma NewFundShowsHint(name: string, targetText: string, v: real, dueText: string, dueDate: int,
                         frequency: FundFrequency, daysLeft: int)
    requires targetText != "" && daysLeft > 0
    requires !Submit(name, Some(v), dueText, dueDate, frequency, None, false).NoSubmit?
    ensures FortnightlySavings(targetText, Some(v), dueText, None, daysLeft).PerFortnight?
  {
  }
}
