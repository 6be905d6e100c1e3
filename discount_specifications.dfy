/**
 * The four quantity specifications that the discount rule is built from.
 * Each is satisfied by a sale item according to its Quantity alone.
 */
module DiscountSpecifications {

  /** TenPercentDiscountSpecification: 4 or more identical items, but fewer than 10. */
  predicate TenPercent(quantity: int) {
    quantity >= 4 && quantity < 10
  }

  /** TwentyPercentDiscountSpecification: 10 to 20 identical items. */
  predicate TwentyPercent(quantity: int) {
    quantity >= 10 && quantity <= 20
  }

  /** DiscountEligibilitySpecification: 4 or more identical items. */
  predicate DiscountEligible(quantity: int) {
    quantity >= 4
  }

  /**
   * MaximumQuantitySpecification: satisfied when the quantity is WITHIN
   * the limit of 20, so a violation is the unsatisfied case.
   */
  predicate WithinMaximumQuantity(quantity: int) {
    quantity <= 20
  }

  lemma TenPercentBoundaries()
    ensures !TenPercent(3) && TenPercent(4) && TenPercent(9) && !TenPercent(10)
  {
  }

  lemma TwentyPercentBoundaries()
    ensures !TwentyPercent(9) && TwentyPercent(10) && TwentyPercent(20) && !TwentyPercent(21)
  {
  }

  lemma EligibilityBoundaries()
    ensures !DiscountEligible(3) && DiscountEligible(4) && DiscountEligible(10)
  {
  }

  lemma MaximumQuantityBoundaries()
    ensures WithinMaximumQuantity(19) && WithinMaximumQuantity(20) && !WithinMaximumQuantity(21)
    ensures WithinMaximumQuantity(0) && WithinMaximumQuantity(-1)
  {
  }

  /** The two discount tiers never overlap. */
  lemma TiersAreDisjoint(quantity: int)
    ensures !(TenPercent(quantity) && TwentyPercent(quantity))
  {
  }

  /** Either tier implies eligibility and the maximum-quantity check. */
  lemma TierImpliesEligibleAndWithinMaximum(quantity: int)
    ensures TenPercent(quantity) ==> DiscountEligible(quantity) && WithinMaximumQuantity(quantity)
    ensures TwentyPercent(quantity) ==> DiscountEligible(quantity) && WithinMaximumQuantity(quantity)
  {
  }

  /** The two tiers together cover exactly the eligible quantities within the limit. */
  lemma TiersCoverEligibleRange(quantity: int)
    ensures DiscountEligible(quantity) && WithinMaximumQuantity(quantity)
            <==> TenPercent(quantity) || TwentyPercent(quantity)
  {
  }

  /** An ineligible quantity falls in neither tier. */
  lemma IneligibleHasNoTier(quantity: int)
    ensures !DiscountEligible(quantity) ==> !TenPercent(quantity) && !TwentyPercent(quantity)
  {
  }

  /** The maximum-quantity check is downward closed. */
  lemma WithinMaximumIsDownwardClosed(quantity: int, smaller: int)
    requires WithinMaximumQuantity(quantity) && smaller <= quantity
    ensures WithinMaximumQuantity(smaller)
  {
  }
}
