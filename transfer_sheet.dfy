/** The transfer sheet (src/components/TransferSheet.tsx): the selected
    source and destination buckets, the amount, and the rule deciding when
    `transferBetweenCategories` may be called. */
module TransferSheet {
  import opened Collections
  import opened Entities
  import opened FormInput
  import opened Projections
  import Commands

  /** `categories[k]?.id || ''`. */
  function IdAtOr(cats: seq<Category>, k: nat): (id: Id)
    ensures k < |cats| ==> id == cats[k].id
    ensures k >= |cats| ==> id == ""
  {
    if k < |cats| then cats[k].id else ""
  }

  /** `canTransfer`: a positive amount, two different buckets, a source
      that exists and holds at least the amount. */
  predicate CanTransfer(cats: seq<Category>, fromId: Id, toId: Id, amount: real) {
    var k := CategoryIndex(cats, fromId);
    && amount > 0.0
    && fromId != toId
    && k >= 0
    && amount <= cats[k].amount
  }

  /** The destination buttons: every bucket but the selected source. */
  function DestinationList(cats: seq<Category>, fromId: Id): (r: seq<Category>)
    ensures IsSubsequence(r, cats)
    ensures forall c :: c in r <==> c in cats && c.id != fromId
    ensures forall c :: multiset(r)[c] == if c.id != fromId then multiset(cats)[c] else 0
  {
    var other := (c: Category) => c.id != fromId;
    FilterIsSubsequence(cats, other);
    FilterMembers(cats, other);
    FilterCount(cats, other);
    Filter(cats, other)
  }

  datatype TransferRequest = TransferRequest(fromId: Id, toId: Id, amount: real)

  /** A transfer the sheet allows and whose destination exists moves
      exactly the amount: the source keeps a non-negative balance, the
      destination gains the amount and the total is unchanged. */
  lemma AllowedTransferIsCovered(s: Commands.Snapshot, fromId: Id, toId: Id, amount: real)
    requires Commands.WellFormed(s)
    requires CanTransfer(s.categories, fromId, toId, amount) && CategoryIndex(s.categories, toId) >= 0
    ensures var r := Commands.TransferBetweenCategories(s, fromId, toId, amount);
      var kf, kt := CategoryIndex(s.categories, fromId), CategoryIndex(s.categories, toId);
      && r.categories[kf].amount == s.categories[kf].amount - amount >= 0.0
      && r.categories[kt].amount == s.categories[kt].amount + amount
      && TotalBalance(r.categories) == TotalBalance(s.categories)
  {
    Commands.TransferMoves(s, fromId, toId, amount);
    Commands.TransferConserves(s, fromId, toId, amount);
  }

  class Sheet {
    var fromId: Id
    var toId: Id
    /** The amount field as `parseFloat` reads it; `None` is NaN. */
    var parsedAmount: Option<real>

    /** `parseFloat(amount) || 0`. */
    function NumericAmount(): real
      reads this
    {
      OrZero(parsedAmount)
    }

    /** Opens with the third bucket as source and the second as destination. */
    constructor(cats: seq<Category>)
      ensures fromId == IdAtOr(cats, 2) && toId == IdAtOr(cats, 1) && parsedAmount.None?
    {
      fromId := IdAtOr(cats, 2);
      toId := IdAtOr(cats, 1);
      parsedAmount := None;
    }

    method SelectFrom(id: Id)
      modifies this
      ensures fromId == id && toId == old(toId) && parsedAmount == old(parsedAmount)
    {
      fromId := id;
    }

    method SelectTo(id: Id)
      modifies this
      ensures toId == id && fromId == old(fromId) && parsedAmount == old(parsedAmount)
    {
      toId := id;
    }

    method SetAmount(parsed: Option<real>)
      modifies this
      ensures parsedAmount == parsed && fromId == old(fromId) && toId == old(toId)
    {
      parsedAmount := parsed;
    }

    /** `handleSwap`: source and destination trade places, so two swaps
        restore the selection. */
    method Swap()
      modifies this
      ensures fromId == old(toId) && toId == old(fromId) && parsedAmount == old(parsedAmount)
    {
      fromId, toId := toId, fromId;
    }

    /** `handleTransfer`: the request goes out only when `canTransfer` holds. */
    method HandleTransfer(cats: seq<Category>) returns (request: Option<TransferRequest>)
      ensures request.Some? <==> CanTransfer(cats, fromId, toId, NumericAmount())
      ensures request.Some? ==> request.value == TransferRequest(fromId, toId, NumericAmount())
    {
      var amount := NumericAmount();
      if CanTransfer(cats, fromId, toId, amount) {
        request := Some(TransferRequest(fromId, toId, amount));
      } else {
        request := None;
      }
    }
  }
}
