/** The fixed-bill form (src/components/FixedBillFormModal.tsx): the pay
    period choice, the record it becomes, the reverse mapping used when a
    bill is edited, and the per-fortnight preview. */
module FixedBillForm {
  import opened Collections
  import opened Entities
  import opened FormInput
  import opened Projections

  /** The three buttons: first fortnight, second fortnight, or both. */
  datatype FortnightChoice = First | Second | Both

  /** `'both'` is a monthly bill, a single fortnight a biweekly one. */
  function ChoiceFrequency(c: FortnightChoice): (f: BillFrequency)
    ensures f == Monthly <==> c == Both
  {
    if c == Both then Monthly else Biweekly
  }

  /** The stored fortnight: null for `'both'`, else the chosen one. */
  function ChoiceFortnight(c: FortnightChoice): (n: Option<int>)
    ensures n.None? <==> c == Both
    ensures n.Some? ==> (n.value == 1 <==> c == First) && (n.value == 2 <==> c == Second)
  {
    match c
    case First => Some(1)
    case Second => Some(2)
    case Both => None
  }

  /** The edit load: 1 and 2 select their button, anything else `'both'`. */
  function LoadChoice(fortnight: Option<int>): (c: FortnightChoice)
    ensures c == First <==> fortnight == Some(1)
    ensures c == Second <==> fortnight == Some(2)
  {
    if fortnight == Some(1) then First else if fortnight == Some(2) then Second else Both
  }

  /** Loading what was saved gives back the choice. */
  lemma LoadAfterSubmit(c: FortnightChoice)
    ensures LoadChoice(ChoiceFortnight(c)) == c
  {
    match c
    case First =>
    case Second =>
    case Both =>
  }

  /** Saving what was loaded gives back the stored fortnight whenever that
      is null, 1 or 2; any other value is stored as null. */
  lemma SubmitAfterLoad(fortnight: Option<int>)
    ensures ChoiceFortnight(LoadChoice(fortnight)) ==
      (if fortnight == Some(1) || fortnight == Some(2) then fortnight else None)
  {
  }

  /** The record handed to `addFixedBill` or `updateFixedBill`; the amount
      is `parseFloat` of the field, unchecked (`None` is NaN). */
  datatype BillDraft = BillDraft(name: string, amount: Option<real>, frequency: BillFrequency, fortnight: Option<int>)

  datatype BillSubmit = SaveBill(draft: BillDraft) | UpdateBill(id: Id, draft: BillDraft)

  /** `handleSubmit`: an edited bill is updated under its id, a new one saved. */
  function Submit(name: string, parsed: Option<real>, c: FortnightChoice, bill: Option<FixedBill>): (o: BillSubmit)
    ensures o.draft == BillDraft(name, parsed, ChoiceFrequency(c), ChoiceFortnight(c))
    ensures o.UpdateBill? <==> bill.Some?
    ensures o.UpdateBill? ==> o.id == bill.value.id
  {
    var draft := BillDraft(name, parsed, ChoiceFrequency(c), ChoiceFortnight(c));
    if bill.Some? then UpdateBill(bill.value.id, draft) else SaveBill(draft)
  }

  /** The hint under the buttons: half the amount per fortnight for
      `'both'`, the whole amount in the chosen fortnight otherwise. */
  function Preview(c: FortnightChoice, parsed: Option<real>): (p: real)
    ensures c == Both ==> p * 2.0 == OrZero(parsed)
    ensures c != Both ==> p == OrZero(parsed)
  {
    if c == Both then OrZero(parsed) / 2.0 else OrZero(parsed)
  }

  /** The stored bill for a submitted amount. */
  function Record(id: Id, d: BillDraft, amount: real): FixedBill {
    FixedBill(id, d.name, amount, d.frequency, d.fortnight)
  }

  /** The preview is what the fixed-surplus computation charges the bill
      in a fortnight it applies to, and a single-fortnight bill costs
      nothing in the other fortnight. */
  lemma PreviewMatchesProration(id: Id, name: string, v: real, c: FortnightChoice, bill: Option<FixedBill>, fortnight: int)
    requires fortnight == 1 || fortnight == 2
    ensures var b := Record(id, Submit(name, Some(v), c, bill).draft, v);
      && (c == Both || ChoiceFortnight(c) == Some(fortnight) ==> BillContribution(b, fortnight) == Preview(c, Some(v)))
      && (c != Both && ChoiceFortnight(c) != Some(fortnight) ==> BillContribution(b, fortnight) == 0.0)
  {
    var b := Record(id, Submit(name, Some(v), c, bill).draft, v);
    if c == Both {
      assert !HasExplicitFortnight(b) && b.frequency == Monthly;
    } else {
      assert HasExplicitFortnight(b);
    }
  }

  /** Editing a biweekly bill that has no fortnight and saving it
      unchanged turns it into a monthly one, halving what it is charged per
      fortnight. */
  lemma EditTurnsUnpinnedBiweeklyMonthly(bill: FixedBill, fortnight: int)
    requires bill.frequency == Biweekly && bill.fortnight.None?
    ensures var o := Submit(bill.name, Some(bill.amount), LoadChoice(bill.fortnight), Some(bill));
      && o.UpdateBill? && o.draft.frequency == Monthly
      && BillContribution(Record(bill.id, o.draft, bill.amount), fortnight) * 2.0 == BillContribution(bill, fortnight)
  {
  }
}
