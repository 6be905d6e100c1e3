/** SaleItemValidator: the rules an item registered with the validator must satisfy. */
module SaleItemValidation {
  import opened Common
  import opened ValidationRules
  import opened SaleItems

  function Abs(x: real): (r: real) {
    if x < 0.0 then -x else x
  }

  predicate ProductRule(s: ItemState) {
    NotBlank(s.product) && MaximumLength(s.product, 100)
  }

  predicate QuantityRule(s: ItemState) {
    s.quantity > 0 && s.quantity <= 20
  }

  predicate UnitPriceRule(s: ItemState) {
    s.unitPrice > 0.0
  }

  predicate DiscountRangeRule(s: ItemState) {
    s.discount >= 0.0 && s.discount <= s.quantity as real * s.unitPrice
  }

  predicate DiscountEligibilityRule(s: ItemState) {
    !(s.quantity < 4 && s.discount > 0.0)
  }

  /** The percentage must match the tier, within 0.001 for the two discounted tiers. */
  predicate DiscountPercentageRule(s: ItemState) {
    if s.quantity >= 10 && s.quantity <= 20 then Abs(s.discountPercentage - 0.20) < 0.001
    else if s.quantity >= 4 && s.quantity < 10 then Abs(s.discountPercentage - 0.10) < 0.001
    else s.discountPercentage == 0.0
  }

  predicate TotalAmountRule(s: ItemState) {
    s.totalAmount == s.quantity as real * s.unitPrice - s.discount
  }

  /** The item passes every rule of the validator. */
  predicate SaleItemValid(s: ItemState) {
    && ProductRule(s)
    && QuantityRule(s)
    && UnitPriceRule(s)
    && DiscountRangeRule(s)
    && DiscountEligibilityRule(s)
    && DiscountPercentageRule(s)
    && TotalAmountRule(s)
  }

  /**
   * Soundness of the discount rule: an item with a valid product, 1 to 20
   * units and a positive price passes every rule once the discount is applied.
   */
  lemma AppliedItemIsValid(s: ItemState)
    requires ProductRule(s) && QuantityRule(s) && UnitPriceRule(s)
    requires ApplyDiscount(s).Ok?
    ensures SaleItemValid(ApplyDiscount(s).value)
  {
    var t := ApplyDiscount(s).value;
    var gross := s.quantity as real * s.unitPrice;
    assert gross > 0.0 by {
      PositiveProduct(s.quantity as real, s.unitPrice);
    }
    assert t.discount == gross * t.discountPercentage;
    assert 0.0 <= t.discountPercentage <= 1.0;
    BoundedShare(gross, t.discountPercentage);
  }

  lemma PositiveProduct(a: real, b: real)
    requires a > 0.0 && b > 0.0
    ensures a * b > 0.0
  {
  }

  lemma BoundedShare(gross: real, rate: real)
    requires gross > 0.0 && 0.0 <= rate <= 1.0
    ensures 0.0 <= gross * rate <= gross
  {
  }

  /** What Sale.AddItem and the update handler build from valid input is itself valid. */
  lemma PricedItemIsValid(id: Guid, product: string, quantity: int, unitPrice: real)
    requires NotBlank(product) && MaximumLength(product, 100)
    requires 0 < quantity <= 20 && unitPrice > 0.0
    ensures SaleItemValid(Priced(id, product, quantity, unitPrice))
  {
    AppliedItemIsValid(Initial(id, product, quantity, unitPrice));
  }

  /** Conversely, the discount rule never rejects an item the validator accepts. */
  lemma ValidItemIsAccepted(s: ItemState)
    requires SaleItemValid(s)
    ensures ApplyDiscount(s).Ok?
  {
  }

  /**
   * The validator is weaker than the rule: it checks the percentage against the
   * tier but not the discount against the percentage, and tolerates a drift
   * of the percentage below 0.001.
   */
  lemma ValidatorIsWeakerThanRule()
    ensures var s := ItemState(1, "Test Product", 5, 10.0, 0.0, 0.10, 50.0);
            SaleItemValid(s) && ApplyDiscount(s) != Ok(s)
    ensures var s := ItemState(1, "Test Product", 15, 10.0, 30.0, 0.2005, 120.0);
            SaleItemValid(s) && ApplyDiscount(s) != Ok(s)
  {
    NotBlankExamples();
    Utf16LengthOfBmpText("Test Product");
  }

  /** The rejections the validator tests exercise. */
  lemma RejectionExamples(s: ItemState)
    ensures s.quantity in {0, -1, 21} ==> !SaleItemValid(s)
    ensures s.unitPrice in {0.0, -1.0} ==> !SaleItemValid(s)
    ensures s.discount < 0.0 ==> !SaleItemValid(s)
    ensures s.discount == s.quantity as real * s.unitPrice + 1.0 ==> !SaleItemValid(s)
    ensures s.quantity == 3 && s.discount == 5.0 ==> !SaleItemValid(s)
    ensures (s.quantity, s.discountPercentage) in {(3, 0.10), (5, 0.20), (15, 0.10)} ==> !SaleItemValid(s)
    ensures s.discount != 0.0 && s.totalAmount == s.quantity as real * s.unitPrice ==> !SaleItemValid(s)
  {
  }
}
