/** The extra-income sheet (src/components/ExternalIncomeModal.tsx): which
    bucket is preselected, when an amount is accepted, the concept
    default and what closing the sheet clears. */
module ExternalIncome {
  import opened Collections
  import opened Entities
  import opened FormInput
  import opened Projections
  import Commands

  /** The id of the savings bucket, or `''` without one. */
  function DefaultCategory(cats: seq<Category>): (id: Id)
    ensures SlugIndex(cats, SavingsSlug) >= 0 ==> id == cats[SlugIndex(cats, SavingsSlug)].id
    ensures SlugIndex(cats, SavingsSlug) < 0 ==> id == ""
  {
    var k := SlugIndex(cats, SavingsSlug);
    if k >= 0 then cats[k].id else ""
  }

  /** `initialCategory || defaultCategory`; an absent initial category is `''`. */
  function Preselected(cats: seq<Category>, initial: Id): (id: Id)
    ensures initial != "" ==> id == initial
    ensures initial == "" ==> id == DefaultCategory(cats)
  {
    if initial != "" then initial else DefaultCategory(cats)
  }

  /** `concept.trim() || 'Ingreso Extra'`. */
  function ModalConcept(concept: string): (c: string)
    ensures |c| > 0 && !IsWhitespace(c[0]) && !IsWhitespace(c[|c| - 1])
    ensures Trim(concept) != "" ==> c == Trim(concept)
    ensures Trim(concept) == "" ==> c == "Ingreso Extra"
  {
    var t := Trim(concept);
    if t == "" then "Ingreso Extra" else t
  }

  /** A concept of white space only is replaced by the default label. */
  lemma BlankConceptGetsLabel(concept: string)
    requires forall k :: 0 <= k < |concept| ==> IsWhitespace(concept[k])
    ensures ModalConcept(concept) == "Ingreso Extra"
  {
    TrimEmpty(concept);
  }

  /** `!parsedAmount || parsedAmount <= 0`: NaN, zero and negatives are refused. */
  predicate AcceptsAmount(parsed: Option<real>) {
    parsed.Some? && parsed.value > 0.0
  }

  datatype IncomeRequest = IncomeRequest(amount: real, categoryId: Id, concept: string)

  /** An accepted request, fed to `addExternalIncome`, logs a non-gas
      income under the modal's concept and raises the total balance by the
      amount when the bucket exists. */
  lemma AcceptedRequestCredits(s: Commands.Snapshot, r: IncomeRequest, incomeId: Id, date: int)
    requires Commands.WellFormed(s) && r.amount > 0.0 && r.concept == ModalConcept(r.concept)
    ensures var t := Commands.AddExternalIncome(s, r.amount, r.categoryId, r.concept, incomeId, date);
      && t.incomes == s.incomes + [Income(incomeId, date, r.concept, r.amount, false)]
      && TotalBalance(t.categories) ==
           TotalBalance(s.categories) + (if CategoryIndex(s.categories, r.categoryId) >= 0 then r.amount else 0.0)
  {
    Commands.AddExternalIncomeCredits(s, r.amount, r.categoryId, r.concept, incomeId, date);
  }

  class Modal {
    /** The amount field as `parseFloat` reads it; `None` is NaN. */
    var parsedAmount: Option<real>
    var concept: string
    var selectedCategory: Id

    constructor(cats: seq<Category>, initial: Id)
      ensures parsedAmount.None? && concept == "" && selectedCategory == Preselected(cats, initial)
    {
      parsedAmount := None;
      concept := "";
      selectedCategory := Preselected(cats, initial);
    }

    /** The open effect re-selects the preselected bucket. */
    method Open(cats: seq<Category>, initial: Id)
      modifies this
      ensures selectedCategory == Preselected(cats, initial)
      ensures parsedAmount == old(parsedAmount) && concept == old(concept)
    {
      selectedCategory := Preselected(cats, initial);
    }

    method SetAmount(parsed: Option<real>)
      modifies this
      ensures parsedAmount == parsed && concept == old(concept) && selectedCategory == old(selectedCategory)
    {
      parsedAmount := parsed;
    }

    method SetConcept(text: string)
      modifies this
      ensures concept == text && parsedAmount == old(parsedAmount) && selectedCategory == old(selectedCategory)
    {
      concept := text;
    }

    method Select(id: Id)
      modifies this
      ensures selectedCategory == id && parsedAmount == old(parsedAmount) && concept == old(concept)
    {
      selectedCategory := id;
    }

    /** `handleClose`: clears the amount and the concept and goes back to
        the preselected bucket. */
    method Close(cats: seq<Category>, initial: Id)
      modifies this
      ensures parsedAmount.None? && concept == "" && selectedCategory == Preselected(cats, initial)
    {
      parsedAmount := None;
      concept := "";
      selectedCategory := Preselected(cats, initial);
    }

    /** `handleSubmit`: a refused amount changes nothing; an accepted one
        sends the request and closes the sheet. */
    method Submit(cats: seq<Category>, initial: Id) returns (request: Option<IncomeRequest>)
      modifies this
      ensures request.Some? <==> AcceptsAmount(old(parsedAmount))
      ensures request.Some? ==>
        && request.value == IncomeRequest(old(parsedAmount).value, old(selectedCategory), ModalConcept(old(concept)))
        && parsedAmount.None? && concept == "" && selectedCategory == Preselected(cats, initial)
      ensures request.None? ==>
        parsedAmount == old(parsedAmount) && concept == old(concept) && selectedCategory == old(selectedCategory)
    {
      if !AcceptsAmount(parsedAmount) {
        return None;
      }
      request := Some(IncomeRequest(parsedAmount.value, selectedCategory, ModalConcept(concept)));
      Close(cats, initial);
    }
  }
}
