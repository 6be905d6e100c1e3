/**
 * CreateSaleHandler: validate the command, refuse a sale number already in
 * use or an unknown creator, then build the sale through Sale.AddItem and
 * store it.
 */
module CreateSaleHandling {
  import opened Common
  import opened SaleItems
  import opened Sales
  import opened SaleItemValidation
  import opened SaleCommands
  import opened SaleStore

  /**
   * The items of a created sale, one per command entry and in command order,
   * each priced as Sale.AddItem prices it; itemIds[i] is the Id entry i's
   * new item receives.
   */
  function CreatedItems(items: seq<CreateSaleItemCommand>, itemIds: seq<Guid>): (r: seq<ItemState>)
    requires |itemIds| == |items| && CreateItemsWithinMaximum(items)
    ensures |r| == |items|
  {
    if items == [] then []
    else
      var n := |items| - 1;
      CreatedItems(items[..n], itemIds[..n]) + [Priced(itemIds[n], items[n].product, items[n].quantity, items[n].unitPrice)]
  }

  /** Item i of the created sale is entry i priced under the i-th item id. */
  lemma {:induction false} CreatedItemsPointwise(items: seq<CreateSaleItemCommand>, itemIds: seq<Guid>)
    requires |itemIds| == |items| && CreateItemsWithinMaximum(items)
    ensures forall i :: 0 <= i < |items| ==>
              CreatedItems(items, itemIds)[i] == Priced(itemIds[i], items[i].product, items[i].quantity, items[i].unitPrice)
  {
    if items != [] {
      var n := |items| - 1;
      assert CreateItemsWithinMaximum(items[..n]) by {
        assert forall i :: 0 <= i < n ==> items[..n][i] == items[i];
      }
      CreatedItemsPointwise(items[..n], itemIds[..n]);
    }
  }

  lemma CreatedItemsExtend(items: seq<CreateSaleItemCommand>, itemIds: seq<Guid>, k: nat)
    requires |itemIds| == |items| && k < |items| && CreateItemsWithinMaximum(items)
    ensures CreatedItems(items[..k + 1], itemIds[..k + 1])
            == CreatedItems(items[..k], itemIds[..k]) + [Priced(itemIds[k], items[k].product, items[k].quantity, items[k].unitPrice)]
  {
    assert items[..k + 1][..k] == items[..k];
    assert itemIds[..k + 1][..k] == itemIds[..k];
  }

  /** The foreach loop: one AddItem per entry, in order. */
  method AddCommandItems(sale: Sale, items: seq<CreateSaleItemCommand>, itemIds: seq<Guid>)
    requires sale.Valid() && sale.items == []
    requires |itemIds| == |items| && CreateItemsWithinMaximum(items)
    modifies sale`items, sale`totalAmount
    ensures sale.Valid()
    ensures ItemStates(sale.items) == CreatedItems(items, itemIds)
    ensures fresh(sale.items)
  {
    var k := 0;
    while k < |items|
      invariant 0 <= k <= |items|
      invariant sale.Valid()
      invariant ItemStates(sale.items) == CreatedItems(items[..k], itemIds[..k])
      invariant fresh(sale.items)
    {
      var _ := sale.AddItem(items[k].product, items[k].quantity, items[k].unitPrice, itemIds[k]);
      CreatedItemsExtend(items, itemIds, k);
      k := k + 1;
    }
    assert items[..k] == items && itemIds[..k] == itemIds;
  }

  /**
   * Handle. Errors come in the source's order: validation, duplicate
   * number, unknown user; on any of them nothing is stored. The new sale's
   * Id (from the entity base class) and its items' Ids are parameters.
   */
  method CreateSale(store: Store, c: CreateSaleCommand, now: Instant, saleId: Guid, itemIds: seq<Guid>)
    returns (r: Result<Sale>)
    requires store.Keyed() && saleId !in store.sales
    requires |itemIds| == |c.items|
    modifies store`sales
    ensures store.Keyed()
    ensures !CreateCommandValid(c, now) ==> r == Err(Validation)
    ensures CreateCommandValid(c, now) && old(store.NumberTaken(c.saleNumber)) ==>
              r == Err(Conflict(DuplicateSaleNumber))
    ensures CreateCommandValid(c, now) && !old(store.NumberTaken(c.saleNumber)) && c.createdById !in store.users ==>
              r == Err(Conflict(UnknownUser))
    ensures r.Err? ==> store.sales == old(store.sales)
    ensures r.Ok? <==> CreateCommandValid(c, now) && !old(store.NumberTaken(c.saleNumber)) && c.createdById in store.users
    ensures r.Ok? ==>
              var sale := r.value;
              && fresh(sale)
              && store.sales == old(store.sales)[saleId := sale]
              && sale.id == saleId
              && sale.saleNumber == c.saleNumber && sale.saleDate == c.saleDate
              && sale.customer == c.customer && sale.branch == c.branch
              && sale.createdById == c.createdById && sale.createdAt == now
              && !sale.isCancelled
              && ItemStates(sale.items) == CreatedItems(c.items, itemIds)
              && (forall i :: 0 <= i < |sale.items| ==> fresh(sale.items[i]))
              && sale.Valid()
  {
    if !CreateCommandValid(c, now) {
      return Err(Validation);
    }
    if store.NumberTaken(c.saleNumber) {
      return Err(Conflict(DuplicateSaleNumber));
    }
    if c.createdById !in store.users {
      return Err(Conflict(UnknownUser));
    }
    CreateCommandWithinMaximum(c, now);
    var sale := NewSale(c, now, saleId, itemIds);
    store.Add(sale);
    return Ok(sale);
  }

  /** `new Sale { ... }` from the command's header, followed by the item loop. */
  method NewSale(c: CreateSaleCommand, now: Instant, saleId: Guid, itemIds: seq<Guid>) returns (sale: Sale)
    requires CreateItemsWithinMaximum(c.items) && |itemIds| == |c.items|
    ensures fresh(sale)
    ensures sale.id == saleId
    ensures sale.saleNumber == c.saleNumber && sale.saleDate == c.saleDate
    ensures sale.customer == c.customer && sale.branch == c.branch
    ensures sale.createdById == c.createdById && sale.createdAt == now
    ensures !sale.isCancelled
    ensures ItemStates(sale.items) == CreatedItems(c.items, itemIds)
    ensures forall i :: 0 <= i < |sale.items| ==> fresh(sale.items[i])
    ensures sale.Valid()
  {
    sale := new Sale.Initialized(saleId, now, c.saleNumber, c.saleDate, c.customer, c.branch, c.createdById);
    AddCommandItems(sale, c.items, itemIds);
  }

  /** Every item of a sale created from a valid command passes SaleItemValidator. */
  lemma CreatedItemsAreValid(c: CreateSaleCommand, itemIds: seq<Guid>, now: Instant)
    requires CreateCommandValid(c, now) && |itemIds| == |c.items|
    ensures forall i :: 0 <= i < |c.items| ==> SaleItemValid(CreatedItems(c.items, itemIds)[i])
  {
    CreateCommandWithinMaximum(c, now);
    CreatedItemsPointwise(c.items, itemIds);
    forall i | 0 <= i < |c.items|
      ensures SaleItemValid(CreatedItems(c.items, itemIds)[i])
    {
      var e := c.items[i];
      assert CreateItemValid(e);
      ValidLineIsPricedValid(itemIds[i], e.product, e.quantity, e.unitPrice);
    }
  }

  /**
   * The tiering on create: 3, 5 and 15 units at 10 give discounts of 0, 5
   * and 30, totals of 30, 45 and 120, and a sale total of 195.
   */
  lemma CreatedTiers()
    ensures var items := [CreateSaleItemCommand("P1", 3, 10.0), CreateSaleItemCommand("P2", 5, 10.0),
                          CreateSaleItemCommand("P3", 15, 10.0)];
            var created := CreatedItems(items, [1, 2, 3]);
            && created[0].discountPercentage == 0.0 && created[0].discount == 0.0 && created[0].totalAmount == 30.0
            && created[1].discountPercentage == 0.10 && created[1].discount == 5.0 && created[1].totalAmount == 45.0
            && created[2].discountPercentage == 0.20 && created[2].discount == 30.0 && created[2].totalAmount == 120.0
            && Sum(created) == 195.0
  {
    var items := [CreateSaleItemCommand("P1", 3, 10.0), CreateSaleItemCommand("P2", 5, 10.0),
                  CreateSaleItemCommand("P3", 15, 10.0)];
    var created := CreatedItems(items, [1, 2, 3]);
    CreatedItemsPointwise(items, [1, 2, 3]);
    WorkedExamples(1, "P1");
    WorkedExamples(2, "P2");
    WorkedExamples(3, "P3");
    var p0, p1, p2 := Priced(1, "P1", 3, 10.0), Priced(2, "P2", 5, 10.0), Priced(3, "P3", 15, 10.0);
    assert created == [p0] + [p1] + [p2];
    SumAppendOne([], p0);
    SumAppendOne([p0], p1);
    SumAppendOne([p0, p1], p2);
  }
}
