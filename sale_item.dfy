/**
 * A line item of a sale and its quantity-based discount rule.
 * Money is exact (real), as C# decimal is for these products; Quantity is int.
 */
module SaleItems {
  import opened Common
  import opened DiscountSpecifications

  /** A snapshot of every field of a SaleItem that the discount rule reads or writes. */
  datatype ItemState = ItemState(
    id: Guid,
    product: string,
    quantity: int,
    unitPrice: real,
    discount: real,
    discountPercentage: real,
    totalAmount: real)

  /** `new SaleItem { Id = id, Product = …, Quantity = …, UnitPrice = … }`: every amount at its default 0. */
  function Initial(id: Guid, product: string, quantity: int, unitPrice: real): (r: ItemState) {
    ItemState(id, product, quantity, unitPrice, 0.0, 0.0, 0.0)
  }

  /**
   * ApplyQuantityBasedDiscount on a snapshot: the two guards in source order,
   * then the twenty-percent tier, the ten-percent tier, and no discount.
   */
  function ApplyDiscount(s: ItemState): (r: Result<ItemState>)
    // the two rejections, and in this order
    ensures r.Err? <==> s.quantity > 20 || (s.quantity < 4 && s.discount > 0.0)
    ensures s.quantity > 20 ==> r == Err(BusinessRule(ExceedsMaximumQuantity))
    ensures s.quantity <= 20 && s.quantity < 4 && s.discount > 0.0 ==> r == Err(BusinessRule(DiscountBelowMinimum))
    // identity, product, quantity and price are never changed
    ensures r.Ok? ==> r.value.id == s.id && r.value.product == s.product
                      && r.value.quantity == s.quantity && r.value.unitPrice == s.unitPrice
    // the percentage depends on the quantity tier alone
    ensures r.Ok? && 10 <= s.quantity ==> r.value.discountPercentage == 0.20
    ensures r.Ok? && 4 <= s.quantity < 10 ==> r.value.discountPercentage == 0.10
    ensures r.Ok? && s.quantity < 4 ==> r.value.discountPercentage == 0.0 && r.value.discount == 0.0
    // the amounts follow from the percentage
    ensures r.Ok? ==> r.value.discount == s.unitPrice * s.quantity as real * r.value.discountPercentage
    ensures r.Ok? ==> r.value.totalAmount == s.quantity as real * s.unitPrice - r.value.discount
  {
    if !WithinMaximumQuantity(s.quantity) then
      Err(BusinessRule(ExceedsMaximumQuantity))
    else if !DiscountEligible(s.quantity) && s.discount > 0.0 then
      Err(BusinessRule(DiscountBelowMinimum))
    else if TwentyPercent(s.quantity) then
      var discount := s.unitPrice * s.quantity as real * 0.20;
      Ok(s.(discountPercentage := 0.20, discount := discount,
            totalAmount := s.quantity as real * s.unitPrice - discount))
    else if TenPercent(s.quantity) then
      var discount := s.unitPrice * s.quantity as real * 0.10;
      Ok(s.(discountPercentage := 0.10, discount := discount,
            totalAmount := s.quantity as real * s.unitPrice - discount))
    else
      Ok(s.(discountPercentage := 0.0, discount := 0.0,
            totalAmount := s.quantity as real * s.unitPrice - 0.0))
  }

  /** The item that Sale.AddItem and the update handler build: a fresh item passed through the rule. */
  function Priced(id: Guid, product: string, quantity: int, unitPrice: real): (s: ItemState)
    requires quantity <= 20
    ensures ApplyDiscount(Initial(id, product, quantity, unitPrice)) == Ok(s)
  {
    ApplyDiscount(Initial(id, product, quantity, unitPrice)).value
  }

  /**
   * An item whose Discount is 0 is priced as a new item would be: the
   * percentage and total it held before play no part.
   */
  lemma ClearedItemIsPriced(s: ItemState)
    requires s.quantity <= 20 && s.discount == 0.0
    ensures ApplyDiscount(s) == Ok(Priced(s.id, s.product, s.quantity, s.unitPrice))
  {
    var p := Priced(s.id, s.product, s.quantity, s.unitPrice);
    var t := ApplyDiscount(s).value;
    assert t.discountPercentage == p.discountPercentage;
    assert t.discount == p.discount;
    assert t.totalAmount == p.totalAmount;
    assert t == p;
  }

  /** A second application after a successful one changes nothing. */
  lemma ApplyDiscountIdempotent(s: ItemState)
    requires ApplyDiscount(s).Ok?
    ensures ApplyDiscount(ApplyDiscount(s).value) == ApplyDiscount(s)
  {
    var t := ApplyDiscount(s).value;
    // the below-4 guard cannot fire: the first call left Discount at 0 there
    assert t.quantity < 4 ==> t.discount == 0.0;
    var u := ApplyDiscount(t).value;
    assert u.discountPercentage == t.discountPercentage;
    assert u.discount == t.discount;
    assert u == t;
  }

  /** On success the three computed fields depend only on Quantity and UnitPrice. */
  lemma ApplyDiscountDependsOnQuantityAndPrice(s: ItemState, t: ItemState)
    requires s.quantity == t.quantity && s.unitPrice == t.unitPrice
    requires ApplyDiscount(s).Ok? && ApplyDiscount(t).Ok?
    ensures ApplyDiscount(s).value.discountPercentage == ApplyDiscount(t).value.discountPercentage
    ensures ApplyDiscount(s).value.discount == ApplyDiscount(t).value.discount
    ensures ApplyDiscount(s).value.totalAmount == ApplyDiscount(t).value.totalAmount
  {
  }

  /** Quantities of 0 or below are not rejected by the rule: they get no discount. */
  lemma NonPositiveQuantityGetsNoDiscount(s: ItemState)
    requires s.quantity <= 0 && s.discount <= 0.0
    ensures ApplyDiscount(s).Ok?
    ensures ApplyDiscount(s).value.discountPercentage == 0.0
  {
  }

  /** The worked examples at unit price 10: 3 → 0 / 30, 5 → 5 / 45, 15 → 30 / 120. */
  lemma WorkedExamples(id: Guid, product: string)
    ensures var s := Priced(id, product, 3, 10.0); s.discount == 0.0 && s.discountPercentage == 0.0 && s.totalAmount == 30.0
    ensures var s := Priced(id, product, 5, 10.0); s.discount == 5.0 && s.discountPercentage == 0.10 && s.totalAmount == 45.0
    ensures var s := Priced(id, product, 15, 10.0); s.discount == 30.0 && s.discountPercentage == 0.20 && s.totalAmount == 120.0
  {
  }

  /** The two rejections as the tests state them: 21 items, and 3 items carrying a discount of 5. */
  lemma RejectionExamples(id: Guid, product: string)
    ensures ApplyDiscount(Initial(id, product, 21, 10.0)) == Err(BusinessRule(ExceedsMaximumQuantity))
    ensures ApplyDiscount(Initial(id, product, 3, 10.0).(discount := 5.0)) == Err(BusinessRule(DiscountBelowMinimum))
  {
  }

  class SaleItem {
    var id: Guid
    var product: string
    var quantity: int
    var unitPrice: real
    var discount: real
    var totalAmount: real
    var discountPercentage: real

    function State(): ItemState
      reads this
    {
      ItemState(id, product, quantity, unitPrice, discount, discountPercentage, totalAmount)
    }

    constructor (id: Guid, product: string, quantity: int, unitPrice: real)
      ensures State() == Initial(id, product, quantity, unitPrice)
    {
      this.id := id;
      this.product := product;
      this.quantity := quantity;
      this.unitPrice := unitPrice;
      discount := 0.0;
      totalAmount := 0.0;
      discountPercentage := 0.0;
    }

    /** Returns Ok(true) where the source returns true, Err where it throws. */
    method ApplyQuantityBasedDiscount() returns (r: Result<bool>)
      modifies this`discountPercentage, this`discount, this`totalAmount
      ensures ApplyDiscount(old(State())).Ok? ==> r == Ok(true) && State() == ApplyDiscount(old(State())).value
      ensures ApplyDiscount(old(State())).Err? ==> r == Err(ApplyDiscount(old(State())).error) && State() == old(State())
    {
      if !WithinMaximumQuantity(quantity) {
        return Err(BusinessRule(ExceedsMaximumQuantity));
      }
      if !DiscountEligible(quantity) && discount > 0.0 {
        return Err(BusinessRule(DiscountBelowMinimum));
      }
      if TwentyPercent(quantity) {
        discountPercentage := 0.20;
        discount := unitPrice * quantity as real * discountPercentage;
        CalculateTotalAmount();
        return Ok(true);
      }
      if TenPercent(quantity) {
        discountPercentage := 0.10;
        discount := unitPrice * quantity as real * discountPercentage;
        CalculateTotalAmount();
        return Ok(true);
      }
      discountPercentage := 0.0;
      discount := 0.0;
      CalculateTotalAmount();
      return Ok(true);
    }

    /** Sets TotalAmount from whatever Discount is present. */
    method CalculateTotalAmount()
      modifies this`totalAmount
      ensures totalAmount == quantity as real * unitPrice - discount
    {
      totalAmount := quantity as real * unitPrice - discount;
    }
  }

  /** CalculateTotalAmount alone, as in the entity test: 5 × 10 − 10 = 40. */
  method CalculateTotalAmountExample() returns (total: real)
    ensures total == 40.0
  {
    var item := new SaleItem(EmptyGuid, "Test Product", 5, 10.0);
    item.discount := 10.0;
    item.CalculateTotalAmount();
    total := item.totalAmount;
  }
}
