/**
 * UpdateSaleHandler: validate the command, find the sale, refuse a cancelled
 * sale or a sale number another sale holds, overwrite the header, and rebuild
 * the item list from the command.
 */
module UpdateSaleHandling {
  import opened Common
  import opened SaleItems
  import opened Sales
  import opened SaleItemValidation
  import opened SaleCommands
  import opened SaleStore

  /** The id a rebuilt item gets: the command's when present and not empty, else a fresh one. */
  function RebuiltId(item: UpdateSaleItemCommand, freshId: Guid): (r: Guid)
    ensures r == freshId || (item.id.Some? && r == item.id.value && r != EmptyGuid)
  {
    if item.id.Some? && item.id.value != EmptyGuid then item.id.value else freshId
  }

  /**
   * The items the rebuild produces, one per command entry and in command
   * order, each priced as a new item; freshIds[i] is the Guid.NewGuid value
   * entry i would get.
   */
  function RebuiltItems(items: seq<UpdateSaleItemCommand>, freshIds: seq<Guid>): (r: seq<ItemState>)
    requires |freshIds| == |items| && UpdateItemsWithinMaximum(items)
    ensures |r| == |items|
  {
    if items == [] then []
    else
      var n := |items| - 1;
      RebuiltItems(items[..n], freshIds[..n])
      + [Priced(RebuiltId(items[n], freshIds[n]), items[n].product, items[n].quantity, items[n].unitPrice)]
  }

  /** Rebuilt item i is entry i priced under the id RebuiltId picks for it. */
  lemma {:induction false} RebuiltItemsPointwise(items: seq<UpdateSaleItemCommand>, freshIds: seq<Guid>)
    requires |freshIds| == |items| && UpdateItemsWithinMaximum(items)
    ensures forall i :: 0 <= i < |items| ==>
              RebuiltItems(items, freshIds)[i]
              == Priced(RebuiltId(items[i], freshIds[i]), items[i].product, items[i].quantity, items[i].unitPrice)
  {
    if items != [] {
      var n := |items| - 1;
      assert UpdateItemsWithinMaximum(items[..n]) by {
        assert forall i :: 0 <= i < n ==> items[..n][i] == items[i];
      }
      RebuiltItemsPointwise(items[..n], freshIds[..n]);
    }
  }

  /** The first entry over the maximum quantity, where the rebuild throws. */
  function FirstOverMaximum(items: seq<UpdateSaleItemCommand>): (r: Option<nat>)
    ensures r.None? <==> UpdateItemsWithinMaximum(items)
    ensures r.Some? ==> r.value < |items| && items[r.value].quantity > 20
                        && UpdateItemsWithinMaximum(items[..r.value])
  {
    if items == [] then None
    else if items[0].quantity > 20 then Some(0)
    else match FirstOverMaximum(items[1..])
      case None => None
      case Some(j) => Some(j + 1)
  }

  lemma {:induction false} FirstOverMaximumAt(items: seq<UpdateSaleItemCommand>, k: nat)
    requires k < |items| && items[k].quantity > 20
    requires UpdateItemsWithinMaximum(items[..k])
    ensures FirstOverMaximum(items) == Some(k)
  {
    if k > 0 {
      assert items[1..][..k - 1] == items[..k][1..];
      FirstOverMaximumAt(items[1..], k - 1);
    }
  }

  lemma RebuiltItemsExtend(items: seq<UpdateSaleItemCommand>, freshIds: seq<Guid>, k: nat)
    requires |freshIds| == |items| && k < |items|
    requires UpdateItemsWithinMaximum(items[..k]) && items[k].quantity <= 20
    ensures UpdateItemsWithinMaximum(items[..k + 1])
    ensures RebuiltItems(items[..k + 1], freshIds[..k + 1])
            == RebuiltItems(items[..k], freshIds[..k])
               + [Priced(RebuiltId(items[k], freshIds[k]), items[k].product, items[k].quantity, items[k].unitPrice)]
  {
    assert items[..k + 1][..k] == items[..k];
    assert freshIds[..k + 1][..k] == freshIds[..k];
  }

  /** `sale.Items.Add(newItem)` for a new item priced at once; the total is left alone. */
  method AppendNewItem(sale: Sale, id: Guid, product: string, quantity: int, unitPrice: real)
    requires quantity <= 20 && Distinct(sale.items)
    modifies sale`items
    ensures |sale.items| == |old(sale.items)| + 1 && sale.items[..|old(sale.items)|] == old(sale.items)
    ensures fresh(sale.items[|old(sale.items)|])
    ensures Distinct(sale.items)
    ensures ItemStates(sale.items) == old(ItemStates(sale.items)) + [Priced(id, product, quantity, unitPrice)]
  {
    ghost var before := ItemStates(sale.items);
    ghost var previous := sale.items;
    var item := NewPricedItem(id, product, quantity, unitPrice);
    assert ItemStates(previous) == before;
    DistinctAppend(previous, item);
    sale.items := sale.items + [item];
    assert sale.items[..|previous|] == previous;
    assert ItemStates(sale.items) == before + [item.State()];
  }

  /**
   * UpdateSaleItems: clear the items and add one new, priced item per entry,
   * then recompute the total. An entry over 20 units throws out of the loop
   * with the earlier entries already added and the total not yet recomputed.
   */
  method UpdateSaleItems(sale: Sale, items: seq<UpdateSaleItemCommand>, freshIds: seq<Guid>) returns (r: Result<()>)
    requires |freshIds| == |items|
    modifies sale`items, sale`totalAmount
    ensures forall i :: 0 <= i < |sale.items| ==> fresh(sale.items[i])
    ensures FirstOverMaximum(items).None? ==>
              && r == Ok(())
              && sale.Valid()
              && ItemStates(sale.items) == RebuiltItems(items, freshIds)
    ensures FirstOverMaximum(items).Some? ==>
              var j := FirstOverMaximum(items).value;
              && r == Err(BusinessRule(ExceedsMaximumQuantity))
              && ItemStates(sale.items) == RebuiltItems(items[..j], freshIds[..j])
              && sale.totalAmount == old(sale.totalAmount)
  {
    r := RefillItems(sale, items, freshIds);
    if r.Ok? {
      sale.CalculateTotalAmount();
    }
  }

  /** The clear-and-refill loop of UpdateSaleItems, up to the first entry that throws. */
  method RefillItems(sale: Sale, items: seq<UpdateSaleItemCommand>, freshIds: seq<Guid>) returns (r: Result<()>)
    requires |freshIds| == |items|
    modifies sale`items
    ensures Distinct(sale.items)
    ensures forall i :: 0 <= i < |sale.items| ==> fresh(sale.items[i])
    ensures FirstOverMaximum(items).None? ==>
              r == Ok(()) && ItemStates(sale.items) == RebuiltItems(items, freshIds)
    ensures FirstOverMaximum(items).Some? ==>
              var j := FirstOverMaximum(items).value;
              && r == Err(BusinessRule(ExceedsMaximumQuantity))
              && ItemStates(sale.items) == RebuiltItems(items[..j], freshIds[..j])
  {
    sale.items := [];
    var k := 0;
    while k < |items|
      invariant 0 <= k <= |items|
      invariant UpdateItemsWithinMaximum(items[..k])
      invariant ItemStates(sale.items) == RebuiltItems(items[..k], freshIds[..k])
      invariant Distinct(sale.items)
      invariant forall i :: 0 <= i < |sale.items| ==> fresh(sale.items[i])
    {
      var entry := items[k];
      if entry.quantity > 20 {
        FirstOverMaximumAt(items, k);
        return Err(BusinessRule(ExceedsMaximumQuantity));
      }
      RebuiltItemsExtend(items, freshIds, k);
      AppendNewItem(sale, RebuiltId(entry, freshIds[k]), entry.product, entry.quantity, entry.unitPrice);
      k := k + 1;
    }
    assert items[..k] == items && freshIds[..k] == freshIds;
    return Ok(());
  }

  /**
   * Handle. Errors come in the source's order: validation, not found,
   * cancelled, duplicate number; none of them changes the stored sale.
   */
  method UpdateSale(store: Store, c: UpdateSaleCommand, now: Instant, freshIds: seq<Guid>) returns (r: Result<Sale>)
    requires store.Keyed()
    requires |freshIds| == |c.items|
    modifies if c.id in store.sales then {store.sales[c.id]} else {}
    ensures store.Keyed()
    ensures !UpdateCommandValid(c, now) ==> r == Err(Validation)
    ensures UpdateCommandValid(c, now) && c.id !in store.sales ==> r == Err(NotFound)
    ensures UpdateCommandValid(c, now) && c.id in store.sales && old(store.sales[c.id].isCancelled) ==>
              r == Err(Conflict(SaleCancelled))
    ensures UpdateCommandValid(c, now) && c.id in store.sales && !old(store.sales[c.id].isCancelled)
            && old(store.sales[c.id].saleNumber) != c.saleNumber
            && old(store.NumberTakenByOther(c.saleNumber, c.id)) ==>
              r == Err(Conflict(DuplicateSaleNumber))
    ensures r.Err? && c.id in store.sales ==> unchanged(store.sales[c.id])
    ensures r.Ok? <==>
              && UpdateCommandValid(c, now) && c.id in store.sales
              && !old(store.sales[c.id].isCancelled)
              && !(old(store.sales[c.id].saleNumber) != c.saleNumber && old(store.NumberTakenByOther(c.saleNumber, c.id)))
    ensures r.Ok? ==>
              var sale := r.value;
              && sale == store.sales[c.id]
              && sale.saleNumber == c.saleNumber && sale.saleDate == c.saleDate
              && sale.customer == c.customer && sale.branch == c.branch
              && sale.id == c.id && !sale.isCancelled
              && sale.createdAt == old(sale.createdAt) && sale.createdById == old(sale.createdById)
              && ItemStates(sale.items) == RebuiltItems(c.items, freshIds)
              && (forall i :: 0 <= i < |sale.items| ==> fresh(sale.items[i]))
              && sale.Valid()
  {
    if !UpdateCommandValid(c, now) {
      return Err(Validation);
    }
    if c.id !in store.sales {
      return Err(NotFound);
    }
    var sale := store.sales[c.id];
    if sale.isCancelled {
      return Err(Conflict(SaleCancelled));
    }
    if sale.saleNumber != c.saleNumber && store.NumberTakenByOther(c.saleNumber, c.id) {
      return Err(Conflict(DuplicateSaleNumber));
    }
    UpdateCommandWithinMaximum(c, now);
    OverwriteSale(sale, c, freshIds);
    return Ok(sale);
  }

  /** The accepted half of Handle: the header takes the command's values, then the items are rebuilt. */
  method OverwriteSale(sale: Sale, c: UpdateSaleCommand, freshIds: seq<Guid>)
    requires |freshIds| == |c.items| && UpdateItemsWithinMaximum(c.items)
    modifies sale`saleNumber, sale`saleDate, sale`customer, sale`branch, sale`items, sale`totalAmount
    ensures sale.saleNumber == c.saleNumber && sale.saleDate == c.saleDate
    ensures sale.customer == c.customer && sale.branch == c.branch
    ensures ItemStates(sale.items) == RebuiltItems(c.items, freshIds)
    ensures forall i :: 0 <= i < |sale.items| ==> fresh(sale.items[i])
    ensures sale.Valid()
  {
    sale.saleNumber := c.saleNumber;
    sale.saleDate := c.saleDate;
    sale.customer := c.customer;
    sale.branch := c.branch;
    var _ := UpdateSaleItems(sale, c.items, freshIds);
  }

  /** Every rebuilt item from a valid command passes SaleItemValidator. */
  lemma RebuiltItemsAreValid(c: UpdateSaleCommand, freshIds: seq<Guid>, now: Instant)
    requires UpdateCommandValid(c, now) && |freshIds| == |c.items|
    ensures forall i :: 0 <= i < |c.items| ==> SaleItemValid(RebuiltItems(c.items, freshIds)[i])
  {
    UpdateCommandWithinMaximum(c, now);
    RebuiltItemsPointwise(c.items, freshIds);
    forall i | 0 <= i < |c.items|
      ensures SaleItemValid(RebuiltItems(c.items, freshIds)[i])
    {
      var e := c.items[i];
      assert UpdateItemValid(e);
      ValidLineIsPricedValid(RebuiltId(e, freshIds[i]), e.product, e.quantity, e.unitPrice);
    }
  }

  /**
   * Old items the command does not list are gone: an id that is neither an
   * entry's id nor one of the fresh ids appears nowhere in the rebuilt list.
   */
  lemma UnlistedIdsDisappear(items: seq<UpdateSaleItemCommand>, freshIds: seq<Guid>, id: Guid)
    requires |freshIds| == |items| && UpdateItemsWithinMaximum(items)
    requires forall i :: 0 <= i < |items| ==> items[i].id != Some(id) && freshIds[i] != id
    ensures forall i :: 0 <= i < |items| ==> RebuiltItems(items, freshIds)[i].id != id
  {
    RebuiltItemsPointwise(items, freshIds);
  }

  /** A listed, non-empty id is kept; an absent or empty one is replaced by the fresh id. */
  lemma RebuiltIdsFollowCommand(items: seq<UpdateSaleItemCommand>, freshIds: seq<Guid>, i: nat)
    requires |freshIds| == |items| && UpdateItemsWithinMaximum(items) && i < |items|
    ensures items[i].id.Some? && items[i].id.value != EmptyGuid ==> RebuiltItems(items, freshIds)[i].id == items[i].id.value
    ensures (items[i].id.None? || items[i].id == Some(EmptyGuid)) ==> RebuiltItems(items, freshIds)[i].id == freshIds[i]
  {
    RebuiltItemsPointwise(items, freshIds);
  }

  /**
   * A sale holding items A and B updated with entries for A and for C (a new
   * id) ends up holding exactly A and C, re-priced from the command.
   */
  lemma ReplaceBWithC()
    ensures var a, b, cId := 1, 2, 3;
            var entries := [UpdateSaleItemCommand(Some(a), "A", 2, 10.0), UpdateSaleItemCommand(Some(cId), "C", 5, 10.0)];
            var rebuilt := RebuiltItems(entries, [10, 11]);
            && rebuilt == [Priced(a, "A", 2, 10.0), Priced(cId, "C", 5, 10.0)]
            && (forall i :: 0 <= i < |rebuilt| ==> rebuilt[i].id != b)
            && rebuilt[1].discount == 5.0 && Sum(rebuilt) == 65.0
  {
    var entries := [UpdateSaleItemCommand(Some(1), "A", 2, 10.0), UpdateSaleItemCommand(Some(3), "C", 5, 10.0)];
    var rebuilt := RebuiltItems(entries, [10, 11]);
    RebuiltItemsPointwise(entries, [10, 11]);
    assert rebuilt[0].totalAmount == 20.0;
    assert rebuilt[1].totalAmount == 45.0;
    assert rebuilt == [] + [rebuilt[0]] + [rebuilt[1]];
    SumAppendOne([], rebuilt[0]);
    SumAppendOne([rebuilt[0]], rebuilt[1]);
  }
}
