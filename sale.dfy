/**
 * The Sale aggregate: an ordered list of line items with a running total
 * and a cancelled flag.
 */
module Sales {
  import opened Common
  import opened SaleItems
  import opened SaleItemValidation

  /** The snapshots of a list of item objects, position by position. */
  function ItemStates(items: seq<SaleItem>): (r: seq<ItemState>)
    reads items
    ensures |r| == |items|
    ensures forall i :: 0 <= i < |items| ==> r[i] == items[i].State()
  {
    seq(|items|, i requires 0 <= i < |items| reads items => items[i].State())
  }

  /** Items.Sum(item => item.TotalAmount). */
  function Sum(items: seq<ItemState>): (r: real) {
    if items == [] then 0.0 else Sum(items[..|items| - 1]) + items[|items| - 1].totalAmount
  }

  lemma {:induction false} SumConcat(a: seq<ItemState>, b: seq<ItemState>)
    ensures Sum(a + b) == Sum(a) + Sum(b)
  {
    if b != [] {
      assert (a + b)[..|a + b| - 1] == a + b[..|b| - 1];
      SumConcat(a, b[..|b| - 1]);
    } else {
      assert a + b == a;
    }
  }

  lemma SumAppendOne(items: seq<ItemState>, s: ItemState)
    ensures Sum(items + [s]) == Sum(items) + s.totalAmount
  {
    assert (items + [s])[..|items|] == items;
  }

  lemma SplitAt<T>(s: seq<T>, k: nat)
    requires k < |s|
    ensures s == (s[..k] + [s[k]]) + s[k + 1..]
  {
  }

  /** Removing the item at k takes exactly its total off the sum. */
  lemma SumRemoveAt(items: seq<ItemState>, k: nat)
    requires k < |items|
    ensures Sum(items[..k] + items[k + 1..]) == Sum(items) - items[k].totalAmount
  {
    var front, back := items[..k], items[k + 1..];
    SplitAt(items, k);
    SumConcat(front + [items[k]], back);
    SumAppendOne(front, items[k]);
    SumConcat(front, back);
  }

  /** Replacing the item at k changes the sum by the difference of the two totals. */
  lemma SumReplaceAt(items: seq<ItemState>, k: nat, t: ItemState)
    requires k < |items|
    ensures Sum(items[k := t]) == Sum(items) - items[k].totalAmount + t.totalAmount
  {
    assert items[k := t] == items[..k] + [t] + items[k + 1..];
    SumConcat(items[..k] + [t], items[k + 1..]);
    SumConcat(items[..k], [t]);
    SumRemoveAt(items, k);
    SumConcat(items[..k], items[k + 1..]);
    assert Sum([t]) == t.totalAmount by {
      assert [t][..0] == [];
    }
  }

  /** Items.FirstOrDefault(i => i.Id == id), as the position of the first match. */
  function IndexOfId(items: seq<ItemState>, id: Guid): (r: Option<nat>)
    ensures r.Some? ==> r.value < |items| && items[r.value].id == id
    ensures r.Some? ==> forall j :: 0 <= j < r.value ==> items[j].id != id
    ensures r.None? <==> forall j :: 0 <= j < |items| ==> items[j].id != id
  {
    if items == [] then None
    else if items[0].id == id then Some(0)
    else match IndexOfId(items[1..], id)
      case None => None
      case Some(k) => Some(k + 1)
  }

  /**
   * UpdateItemQuantity on the item snapshots: the outcome and the list afterwards.
   * The lookup comes first, then the quantity cap, then the discount rule on the
   * item whose Quantity has already been overwritten.
   */
  function UpdateQuantity(items: seq<ItemState>, id: Guid, quantity: int): (r: (Result<bool>, seq<ItemState>))
    ensures |r.1| == |items|
    ensures forall j :: 0 <= j < |items| ==> r.1[j].id == items[j].id
  {
    match IndexOfId(items, id)
    case None => (Ok(false), items)
    case Some(k) =>
      if quantity > 20 then (Err(BusinessRule(ExceedsMaximumQuantity)), items)
      else
        var moved := items[k].(quantity := quantity);
        match ApplyDiscount(moved)
        case Ok(t) => (Ok(true), items[k := t])
        case Err(e) => (Err(e), items[k := moved])
  }

  /** RemoveItem on the item snapshots: whether an item was removed, and the list afterwards. */
  function RemoveFirst(items: seq<ItemState>, id: Guid): (r: (bool, seq<ItemState>)) {
    match IndexOfId(items, id)
    case None => (false, items)
    case Some(k) => (true, items[..k] + items[k + 1..])
  }

  /** An unknown id changes nothing and wins over the quantity cap. */
  lemma UpdateQuantityUnknownId(items: seq<ItemState>, id: Guid, quantity: int)
    requires forall j :: 0 <= j < |items| ==> items[j].id != id
    ensures UpdateQuantity(items, id, quantity) == (Ok(false), items)
  {
  }

  /** A known id and more than 20 units: the cap fires before the item is touched. */
  lemma UpdateQuantityOverMaximum(items: seq<ItemState>, id: Guid, quantity: int)
    requires exists j :: 0 <= j < |items| && items[j].id == id
    requires quantity > 20
    ensures UpdateQuantity(items, id, quantity) == (Err(BusinessRule(ExceedsMaximumQuantity)), items)
  {
  }

  /**
   * On a known id within the cap, only the first matching item changes; on
   * success it carries the new quantity and its tier.
   */
  lemma UpdateQuantityTouchesFirstMatchOnly(items: seq<ItemState>, id: Guid, quantity: int)
    requires IndexOfId(items, id).Some? && quantity <= 20
    ensures var k := IndexOfId(items, id).value;
            var (r, after) := UpdateQuantity(items, id, quantity);
            && |after| == |items|
            && (forall j :: 0 <= j < |items| && j != k ==> after[j] == items[j])
            && after[k].quantity == quantity
            && (r == Ok(true) <==> ApplyDiscount(items[k].(quantity := quantity)).Ok?)
            && (r.Ok? ==> ApplyDiscount(items[k].(quantity := quantity)) == Ok(after[k]))
  {
  }

  /**
   * The running total stays exact on every path, including the one that throws
   * after Quantity was overwritten: that path leaves the item's TotalAmount alone.
   */
  lemma UpdateQuantitySum(items: seq<ItemState>, id: Guid, quantity: int)
    ensures var (r, after) := UpdateQuantity(items, id, quantity);
            r != Ok(true) ==> Sum(after) == Sum(items)
    ensures var (r, after) := UpdateQuantity(items, id, quantity);
            r == Ok(true) ==> var k := IndexOfId(items, id).value;
                              Sum(after) == Sum(items) - items[k].totalAmount + after[k].totalAmount
  {
    match IndexOfId(items, id)
    case None =>
    case Some(k) =>
      if quantity <= 20 {
        var moved := items[k].(quantity := quantity);
        match ApplyDiscount(moved)
        case Ok(t) => SumReplaceAt(items, k, t);
        case Err(e) => SumReplaceAt(items, k, moved);
      }
  }

  /**
   * Lowering a discounted item below 4 units throws the below-4 rule, and the
   * item keeps its new Quantity next to its old Discount and TotalAmount.
   */
  lemma LoweringDiscountedItemFails(items: seq<ItemState>, id: Guid, quantity: int)
    requires IndexOfId(items, id).Some?
    requires items[IndexOfId(items, id).value].discount > 0.0
    requires quantity < 4
    ensures var k := IndexOfId(items, id).value;
            UpdateQuantity(items, id, quantity)
            == (Err(BusinessRule(DiscountBelowMinimum)), items[k := items[k].(quantity := quantity)])
  {
  }

  /**
   * The concrete case: five units at 10 (discount 5), lowered to 3. The item
   * left behind keeps a total of 45 where 3 × 10 − 5 would be 25, so it no
   * longer passes SaleItemValidator.
   */
  lemma LoweringFiveToThreeFails(id: Guid, product: string)
    ensures var s := Priced(id, product, 5, 10.0);
            && UpdateQuantity([s], id, 3) == (Err(BusinessRule(DiscountBelowMinimum)), [s.(quantity := 3)])
            && s.(quantity := 3).totalAmount == 45.0
            && !SaleItemValid(s.(quantity := 3))
  {
    var s := Priced(id, product, 5, 10.0);
    assert s.discount == 5.0;
    assert IndexOfId([s], id) == Some(0);
    LoweringDiscountedItemFails([s], id, 3);
    assert [s][0 := s.(quantity := 3)] == [s.(quantity := 3)];
  }

  /**
   * The evidently intended update: the quantity change re-derives the tier
   * from scratch, so the stale Discount of the old quantity plays no part.
   */
  function UpdateQuantityRetiered(items: seq<ItemState>, id: Guid, quantity: int): (r: (Result<bool>, seq<ItemState>)) {
    match IndexOfId(items, id)
    case None => (Ok(false), items)
    case Some(k) =>
      if quantity > 20 then (Err(BusinessRule(ExceedsMaximumQuantity)), items)
      else
        var moved := items[k].(quantity := quantity, discount := 0.0);
        match ApplyDiscount(moved)
        case Ok(t) => (Ok(true), items[k := t])
        case Err(e) => (Err(e), items[k := moved])
  }

  /**
   * With a known id and at most 20 units the re-tiering update always succeeds,
   * and the item is what Sale.AddItem would have built for the new quantity.
   */
  lemma RetieredUpdateSucceeds(items: seq<ItemState>, id: Guid, quantity: int)
    requires IndexOfId(items, id).Some? && quantity <= 20
    ensures var k := IndexOfId(items, id).value;
            var s := items[k];
            UpdateQuantityRetiered(items, id, quantity)
            == (Ok(true), items[k := Priced(s.id, s.product, quantity, s.unitPrice)])
  {
    var k := IndexOfId(items, id).value;
    ClearedItemIsPriced(items[k].(quantity := quantity, discount := 0.0));
  }

  /**
   * Under the re-tiering update a valid item stays valid for every quantity
   * from 1 to 20, lowering a discounted item below 4 included, and the sum
   * moves by the change of that one item's total.
   */
  lemma RetieredUpdateKeepsItemsValid(items: seq<ItemState>, id: Guid, quantity: int)
    requires IndexOfId(items, id).Some? && 0 < quantity <= 20
    requires forall j :: 0 <= j < |items| ==> SaleItemValid(items[j])
    ensures var (r, after) := UpdateQuantityRetiered(items, id, quantity);
            && r == Ok(true)
            && (forall j :: 0 <= j < |after| ==> SaleItemValid(after[j]))
            && Sum(after) == Sum(items) - items[IndexOfId(items, id).value].totalAmount
                             + after[IndexOfId(items, id).value].totalAmount
  {
    var k := IndexOfId(items, id).value;
    var s := items[k];
    RetieredUpdateSucceeds(items, id, quantity);
    assert SaleItemValid(s);
    PricedItemIsValid(s.id, s.product, quantity, s.unitPrice);
    SumReplaceAt(items, k, Priced(s.id, s.product, quantity, s.unitPrice));
  }

  /** The entity test: an item of 2 units at 10 raised to 3 units; the sale total becomes 30. */
  lemma UpdateTwoToThreeExample(id: Guid, product: string)
    ensures var (r, after) := UpdateQuantity([Priced(id, product, 2, 10.0)], id, 3);
            r == Ok(true) && after == [Priced(id, product, 3, 10.0)] && Sum(after) == 30.0
  {
    var s := Priced(id, product, 2, 10.0);
    assert IndexOfId([s], id) == Some(0);
    var p := Priced(id, product, 3, 10.0);
    ClearedItemIsPriced(s.(quantity := 3));
    assert [s][0 := p] == [p];
    SumAppendOne([], p);
    assert [] + [p] == [p];
  }

  /** An unknown id removes nothing. */
  lemma RemoveFirstUnknownId(items: seq<ItemState>, id: Guid)
    requires forall j :: 0 <= j < |items| ==> items[j].id != id
    ensures RemoveFirst(items, id) == (false, items)
  {
  }

  /**
   * A known id removes the first matching item only: the others keep their
   * order, and the sum drops by that item's total.
   */
  lemma RemoveFirstRemovesOne(items: seq<ItemState>, id: Guid)
    requires exists j :: 0 <= j < |items| && items[j].id == id
    ensures var k := IndexOfId(items, id).value;
            var (removed, after) := RemoveFirst(items, id);
            && removed
            && after == items[..k] + items[k + 1..]
            && |after| == |items| - 1
            && Sum(after) == Sum(items) - items[k].totalAmount
  {
    SumRemoveAt(items, IndexOfId(items, id).value);
  }

  /** No object occurs twice in the list. */
  predicate Distinct(items: seq<SaleItem>) {
    forall i, j :: 0 <= i < j < |items| ==> items[i] != items[j]
  }

  lemma DistinctRemoveAt(items: seq<SaleItem>, k: nat)
    requires Distinct(items) && k < |items|
    ensures Distinct(items[..k] + items[k + 1..])
  {
    var rest := items[..k] + items[k + 1..];
    forall i, j | 0 <= i < j < |rest|
      ensures rest[i] != rest[j]
    {
      var i' := if i < k then i else i + 1;
      var j' := if j < k then j else j + 1;
      assert rest[i] == items[i'] && rest[j] == items[j'];
    }
  }

  /** Snapshots of a list where only the object at k may differ from the earlier snapshots. */
  lemma ItemStatesAfterOneChanged(items: seq<SaleItem>, before: seq<ItemState>, k: nat)
    requires |before| == |items| && k < |items|
    requires forall j :: 0 <= j < |items| && j != k ==> items[j].State() == before[j]
    ensures ItemStates(items) == before[k := items[k].State()]
  {
  }

  /** The snapshots of a list with one object taken out are the snapshots with that one taken out. */
  lemma ItemStatesRemoveAt(items: seq<SaleItem>, k: nat)
    requires k < |items|
    ensures ItemStates(items[..k] + items[k + 1..]) == ItemStates(items)[..k] + ItemStates(items)[k + 1..]
  {
  }

  lemma DistinctAppend(items: seq<SaleItem>, x: SaleItem)
    requires Distinct(items) && x !in items
    ensures Distinct(items + [x])
  {
  }

  /**
   * The item-building half of Sale.AddItem: a new item whose discount is
   * applied at once. That cannot throw, since Quantity is at most 20 and
   * Discount starts at 0.
   */
  method NewPricedItem(id: Guid, product: string, quantity: int, unitPrice: real) returns (item: SaleItem)
    requires quantity <= 20
    ensures fresh(item)
    ensures item.State() == Priced(id, product, quantity, unitPrice)
  {
    item := new SaleItem(id, product, quantity, unitPrice);
    var _ := item.ApplyQuantityBasedDiscount();
  }

  class Sale {
    var id: Guid
    var saleNumber: string
    var saleDate: Instant
    var customer: string
    var totalAmount: real
    var branch: string
    var items: seq<SaleItem>
    var isCancelled: bool
    var createdAt: Instant
    var createdById: Guid

    /** No item appears twice, and TotalAmount is the sum of the item totals. */
    ghost predicate Valid()
      reads this`items, this`totalAmount, items
    {
      && Distinct(items)
      && totalAmount == Sum(ItemStates(items))
    }

    /** `new Sale()`: CreatedAt and SaleDate are the current instant. */
    constructor (id: Guid, now: Instant)
      ensures Valid()
      ensures this.id == id && items == [] && totalAmount == 0.0 && !isCancelled
      ensures saleNumber == "" && customer == "" && branch == "" && createdById == EmptyGuid
      ensures createdAt == now && saleDate == now
    {
      this.id := id;
      saleNumber := "";
      saleDate := now;
      customer := "";
      totalAmount := 0.0;
      branch := "";
      items := [];
      isCancelled := false;
      createdAt := now;
      createdById := EmptyGuid;
    }

    /**
     * `new Sale { SaleNumber = …, SaleDate = …, Customer = …, Branch = …, CreatedById = … }`:
     * the default constructor followed by the initializer's assignments.
     */
    constructor Initialized(id: Guid, now: Instant, saleNumber: string, saleDate: Instant,
                            customer: string, branch: string, createdById: Guid)
      ensures Valid()
      ensures this.id == id && items == [] && totalAmount == 0.0 && !isCancelled
      ensures this.saleNumber == saleNumber && this.saleDate == saleDate
      ensures this.customer == customer && this.branch == branch && this.createdById == createdById
      ensures createdAt == now
    {
      this.id := id;
      this.saleNumber := saleNumber;
      this.saleDate := saleDate;
      this.customer := customer;
      totalAmount := 0.0;
      this.branch := branch;
      items := [];
      isCancelled := false;
      createdAt := now;
      this.createdById := createdById;
    }

    method CalculateTotalAmount()
      modifies this`totalAmount
      ensures totalAmount == Sum(ItemStates(items))
    {
      totalAmount := Sum(ItemStates(items));
    }

    /**
     * Returns the new item, or Err where the source throws. The item's Id is
     * whatever the entity base class assigns; here it is passed in.
     */
    method AddItem(product: string, quantity: int, unitPrice: real, itemId: Guid) returns (r: Result<SaleItem>)
      requires Valid()
      modifies this`items, this`totalAmount
      ensures Valid()
      ensures quantity > 20 ==> r == Err(BusinessRule(ExceedsMaximumQuantity))
                                && items == old(items) && totalAmount == old(totalAmount)
      ensures quantity <= 20 ==> r.Ok? && fresh(r.value) && items == old(items) + [r.value]
      ensures quantity <= 20 ==> r.Ok? && r.value.State() == Priced(itemId, product, quantity, unitPrice)
      ensures quantity <= 20 ==> r.Ok? && ItemStates(items) == old(ItemStates(items)) + [r.value.State()]
    {
      if quantity > 20 {
        return Err(BusinessRule(ExceedsMaximumQuantity));
      }
      ghost var before := ItemStates(items);
      ghost var previous := items;
      var item := NewPricedItem(itemId, product, quantity, unitPrice);
      assert ItemStates(previous) == before;
      DistinctAppend(previous, item);
      items := items + [item];
      assert ItemStates(items) == before + [item.State()];
      CalculateTotalAmount();
      SumAppendOne(before, item.State());
      return Ok(item);
    }

    /** Overwrites the quantity of the item at k and re-tiers it; every other item keeps its state. */
    method SetQuantityAt(k: nat, quantity: int) returns (applied: Result<bool>)
      requires Distinct(items) && k < |items|
      modifies items[k]
      ensures var moved := old(items[k].State()).(quantity := quantity);
              match ApplyDiscount(moved)
              case Ok(t) => applied == Ok(true) && ItemStates(items) == old(ItemStates(items))[k := t]
              case Err(e) => applied == Err(e) && ItemStates(items) == old(ItemStates(items))[k := moved]
    {
      ghost var before := ItemStates(items);
      var item := items[k];
      item.quantity := quantity;
      applied := item.ApplyQuantityBasedDiscount();
      forall j | 0 <= j < |items| && j != k
        ensures items[j].State() == before[j]
      {
        assert items[j] != item;
      }
      ItemStatesAfterOneChanged(items, before, k);
    }

    /**
     * Ok(false) for an unknown id, Err where the source throws. On the
     * below-4 rejection the item keeps its overwritten Quantity.
     */
    method UpdateItemQuantity(itemId: Guid, quantity: int) returns (r: Result<bool>)
      requires Valid()
      modifies this`totalAmount, items
      ensures Valid() && items == old(items)
      ensures (r, ItemStates(items)) == UpdateQuantity(old(ItemStates(items)), itemId, quantity)
    {
      ghost var before := ItemStates(items);
      var found := IndexOfId(ItemStates(items), itemId);
      if found.None? {
        return Ok(false);
      }
      if quantity > 20 {
        return Err(BusinessRule(ExceedsMaximumQuantity));
      }
      var applied := SetQuantityAt(found.value, quantity);
      UpdateQuantitySum(before, itemId, quantity);
      if applied.Err? {
        // the exception escapes with Quantity already overwritten
        return Err(applied.error);
      }
      CalculateTotalAmount();
      return Ok(true);
    }

    /** Removes the first item with the id and recomputes the total. */
    method RemoveItem(itemId: Guid) returns (r: bool)
      requires Valid()
      modifies this`items, this`totalAmount
      ensures Valid()
      ensures (r, ItemStates(items)) == RemoveFirst(old(ItemStates(items)), itemId)
      ensures r ==> var k := IndexOfId(old(ItemStates(items)), itemId).value;
                    items == old(items[..k] + items[k + 1..])
                    && totalAmount == old(totalAmount) - old(items[k].totalAmount)
      ensures !r ==> items == old(items) && totalAmount == old(totalAmount)
    {
      ghost var before := ItemStates(items);
      var found := IndexOfId(ItemStates(items), itemId);
      if found.None? {
        return false;
      }
      var k := found.value;
      var rest := items[..k] + items[k + 1..];
      ItemStatesRemoveAt(items, k);
      SumRemoveAt(before, k);
      DistinctRemoveAt(items, k);
      items := rest;
      CalculateTotalAmount();
      return true;
    }

    /** Sets IsCancelled; items and total stay as they are. */
    method Cancel()
      modifies this`isCancelled
      ensures isCancelled
    {
      isCancelled := true;
    }
  }
}
