# Sales domain of the developer-evaluation API, in Dafny

This project models the sales core of a sales-transaction API: the
quantity-tiered discount on a line item (`SaleItem` and the four quantity
specifications), the `Sale` aggregate with its running total, the decision
logic of the create, update and cancel handlers over an abstract store, and
the validators that guard them.

Modules, one per source component:

- `Common` (common.dfy): identifiers (a `Guid` is a `nat`, 0 being
  `Guid.Empty`), instants (a `DateTime` is a tick count, 0 being the default),
  and a `Result` whose error constructors are the exceptions the core
  raises: `Validation`, `NotFound`, `Conflict` and `BusinessRule`.
- `DiscountSpecifications`: the four one-line quantity specifications.
- `ValidationRules`: what `NotEmpty` and `MaximumLength` mean for strings,
  ids and dates.
- `SaleItems`: the `SaleItem` class, its discount rule
  `ApplyQuantityBasedDiscount` and `CalculateTotalAmount`. Each method is
  proved against the value-level function `ApplyDiscount`.
- `SaleItemValidation`: the `SaleItemValidator` rules as predicates.
- `Sales`: the `Sale` class. Its `items` field is a `seq<SaleItem>` that
  `AddItem`, `UpdateItemQuantity` and `RemoveItem` update in place, and
  `Valid()` keeps `TotalAmount` equal to the sum of the item totals.
- `SaleCommands`, `SaleRequests`: the command and request validators.
- `SaleStore`, `CreateSaleHandling`, `UpdateSaleHandling`,
  `CancelSaleHandling`: the handlers. The store is a `map<Guid, Sale>` of
  tracked sale objects plus the set of known user ids.

Money is an exact `real`, as C# `decimal` is for these amounts, and
quantities are unbounded `int`s. `DateTime.UtcNow`, the ids the entity base
class assigns and `Guid.NewGuid()` are parameters (`now`, `saleId`,
`itemIds`, `freshIds`). Each exception becomes an `Err` result; `AddItem`
and `UpdateItemQuantity` leave the state exactly as the source leaves it when
it throws. That includes the quantity `UpdateItemQuantity` has already
overwritten when the discount rule throws.

`UpdateSaleItems` does not update items in place. It clears the list and
builds one new item per command entry (UpdateSaleHandler.cs:70-88). A
supplied non-empty id is reused; otherwise a fresh id is used. Items that are
not listed disappear.

The create command validator lives in the file
`template/backend/src/Ambev.DeveloperEvaluation.Application/Sales/CreateSales/CreateSaleCommandValidator .cs` (the name has a space before
`.cs`). It is modelled from its text as `CreateCommandValid`.

## Model

| member | source | states |
|---|---|---|
| DiscountSpecifications.TenPercent | template/backend/src/Ambev.DeveloperEvaluation.Domain/Specifications/TenPercentDiscountSpecification.cs:11-14 | the ten-percent tier holds exactly for 4 ≤ q < 10 |
| DiscountSpecifications.TwentyPercent | template/backend/src/Ambev.DeveloperEvaluation.Domain/Specifications/TwentyPercentDiscountSpecification.cs:11-14 | the twenty-percent tier holds exactly for 10 ≤ q ≤ 20 |
| DiscountSpecifications.DiscountEligible | template/backend/src/Ambev.DeveloperEvaluation.Domain/Specifications/DiscountEligibilitySpecification.cs:11-14 | an item is eligible for a discount exactly when q ≥ 4 |
| DiscountSpecifications.WithinMaximumQuantity | template/backend/src/Ambev.DeveloperEvaluation.Domain/Specifications/MaximumQuantitySpecification.cs:11-14 | an item is within the maximum exactly when q ≤ 20 |
| ValidationRules.NotBlank | template/backend/src/Ambev.DeveloperEvaluation.Application/Sales/UpdateSale/UpdateSaleCommandValidator.cs:18-19 | NotEmpty on a string: it holds a character that is not white space |
| ValidationRules.MaximumLength | template/backend/src/Ambev.DeveloperEvaluation.Application/Sales/UpdateSale/UpdateSaleCommandValidator.cs:18-20 | MaximumLength(n): the UTF-16 length of the string is at most n |
| DiscountSpecifications.TenPercentBoundaries | template/backend/tests/Ambev.DeveloperEvaluation.Unit/Domain/Specifications/DiscountSpecificationsTests.cs:17-21 | ten-percent tier at 3, 4, 9, 10: false, true, true, false |
| DiscountSpecifications.TwentyPercentBoundaries | template/backend/tests/Ambev.DeveloperEvaluation.Unit/Domain/Specifications/DiscountSpecificationsTests.cs:39-43 | twenty-percent tier at 9, 10, 20, 21: false, true, true, false |
| DiscountSpecifications.EligibilityBoundaries | template/backend/tests/Ambev.DeveloperEvaluation.Unit/Domain/Specifications/DiscountSpecificationsTests.cs:81-83 | eligibility at 3, 4, 10: false, true, true |
| DiscountSpecifications.MaximumQuantityBoundaries | template/backend/src/Ambev.DeveloperEvaluation.Domain/Specifications/MaximumQuantitySpecification.cs:13 | within the maximum at 19 and 20, not at 21; 0 and -1 are within it (no lower bound) |
| DiscountSpecifications.TiersAreDisjoint | template/backend/src/Ambev.DeveloperEvaluation.Domain/Specifications/TenPercentDiscountSpecification.cs:13 | no quantity is in both discount tiers |
| DiscountSpecifications.TierImpliesEligibleAndWithinMaximum | template/backend/src/Ambev.DeveloperEvaluation.Domain/Specifications/TwentyPercentDiscountSpecification.cs:13 | either tier implies eligibility and the maximum-quantity check |
| DiscountSpecifications.TiersCoverEligibleRange | template/backend/src/Ambev.DeveloperEvaluation.Domain/Specifications/DiscountEligibilitySpecification.cs:13 | eligible and within the maximum if and only if in one of the two tiers |
| DiscountSpecifications.IneligibleHasNoTier | template/backend/src/Ambev.DeveloperEvaluation.Domain/Entities/SaleItem.cs:66-96 | an ineligible quantity is in neither tier, so the no-discount branch is taken |
| DiscountSpecifications.WithinMaximumIsDownwardClosed | template/backend/src/Ambev.DeveloperEvaluation.Domain/Specifications/MaximumQuantitySpecification.cs:13 | within the maximum at q implies within it at every smaller quantity |
| SaleItems.ApplyDiscount | template/backend/src/Ambev.DeveloperEvaluation.Domain/Entities/SaleItem.cs:56-97 | rejects exactly when q > 20 (maximum error) or q < 4 with a positive discount (below-4 error), in that order; on success id, product, quantity and price are unchanged, the percentage is 20% for 10..20, 10% for 4..9 and 0 otherwise, discount = price × q × percentage, total = q × price − discount |
| SaleItems.Priced | template/backend/src/Ambev.DeveloperEvaluation.Domain/Entities/Sale.cs:130-139 | a new item with zero discount passed through the rule is accepted whenever q ≤ 20 |
| SaleItems.ClearedItemIsPriced | template/backend/src/Ambev.DeveloperEvaluation.Domain/Entities/SaleItem.cs:73-96 | an item with no discount and at most 20 units is priced by the rule exactly as a new item with the same id, product, quantity and price |
| SaleItems.ApplyDiscountIdempotent | template/backend/src/Ambev.DeveloperEvaluation.Domain/Entities/SaleItem.cs:67-95 | a second application after a successful one succeeds with the same item |
| SaleItems.ApplyDiscountDependsOnQuantityAndPrice | template/backend/src/Ambev.DeveloperEvaluation.Domain/Entities/SaleItem.cs:73-96 | on success the percentage, discount and total depend on quantity and price only |
| SaleItems.NonPositiveQuantityGetsNoDiscount | template/backend/src/Ambev.DeveloperEvaluation.Domain/Entities/SaleItem.cs:59-96 | with no positive discount, a quantity of 0 or below is not rejected and gets 0% |
| SaleItems.WorkedExamples | template/backend/tests/Ambev.DeveloperEvaluation.Unit/Domain/Entities/SaleItemTests.cs:39-106 | at price 10: 3 units give 0 / 30, 5 give 5 / 45, 15 give 30 / 120 |
| SaleItems.RejectionExamples | template/backend/tests/Ambev.DeveloperEvaluation.Unit/Domain/Entities/SaleItemTests.cs:111-146 | 21 units give the maximum error; 3 units with a discount of 5 give the below-4 error |
| SaleItems.SaleItem.ApplyQuantityBasedDiscount | template/backend/src/Ambev.DeveloperEvaluation.Domain/Entities/SaleItem.cs:56-97 | the object's new fields are ApplyDiscount of its old fields and the result is true; when the rule rejects, the error is returned and no field changes |
| SaleItems.SaleItem.CalculateTotalAmount | template/backend/src/Ambev.DeveloperEvaluation.Domain/Entities/SaleItem.cs:102-105 | TotalAmount becomes q × price − Discount for whatever Discount is present |
| SaleItems.CalculateTotalAmountExample | template/backend/tests/Ambev.DeveloperEvaluation.Unit/Domain/Entities/SaleItemTests.cs:17-34 | 5 units at 10 with a discount of 10 total 40 |
| SaleItemValidation.SaleItemValid | template/backend/src/Ambev.DeveloperEvaluation.Domain/Validation/SaleItemValidator.cs:12-53 | all seven SaleItemValidator rules: product, quantity 1..20, positive price, discount range, no discount below 4, the tier percentage, and total = q × price − discount |
| SaleItemValidation.AppliedItemIsValid | template/backend/src/Ambev.DeveloperEvaluation.Domain/Validation/SaleItemValidator.cs:12-53 | an item with a valid product, 1..20 units and a positive price passes every validator rule after the discount rule |
| SaleItemValidation.PricedItemIsValid | template/backend/tests/Ambev.DeveloperEvaluation.Unit/Domain/Validation/SaleItemValidatorTests.cs:24-35 | the item AddItem builds from valid input passes the validator |
| SaleItemValidation.ValidItemIsAccepted | template/backend/src/Ambev.DeveloperEvaluation.Domain/Validation/SaleItemValidator.cs:18-36 | the discount rule never rejects an item the validator accepts |
| SaleItemValidation.ValidatorIsWeakerThanRule | template/backend/src/Ambev.DeveloperEvaluation.Domain/Validation/SaleItemValidator.cs:39-48 | the validator accepts items the rule would change: a zero discount at a 10% tier, and a percentage 0.0005 off the tier |
| SaleItemValidation.RejectionExamples | template/backend/tests/Ambev.DeveloperEvaluation.Unit/Domain/Validation/SaleItemValidatorTests.cs:57-198 | quantities 0, -1, 21; prices 0, -1; a negative or oversized discount; a discount at 3 units; a wrong tier percentage; and a total that ignores the discount are all rejected |
| Sales.Sum | template/backend/src/Ambev.DeveloperEvaluation.Domain/Entities/Sale.cs:108-112 | the sum of the item totals that CalculateTotalAmount stores |
| Sales.IndexOfId | template/backend/src/Ambev.DeveloperEvaluation.Domain/Entities/Sale.cs:157 | the position of the first item with the id, or None exactly when no item has it |
| Sales.UpdateQuantity | template/backend/src/Ambev.DeveloperEvaluation.Domain/Entities/Sale.cs:155-173 | UpdateItemQuantity on item values: the lookup, then the cap, then the rule on the item whose quantity is already overwritten; the length and every id are kept |
| Sales.UpdateQuantityUnknownId | template/backend/src/Ambev.DeveloperEvaluation.Domain/Entities/Sale.cs:157-159 | an unknown id returns false and changes nothing, whatever the quantity (21 included) |
| Sales.UpdateQuantityOverMaximum | template/backend/src/Ambev.DeveloperEvaluation.Domain/Entities/Sale.cs:162-165 | a known id with more than 20 units gives the maximum error and leaves the items alone |
| Sales.UpdateQuantityTouchesFirstMatchOnly | template/backend/src/Ambev.DeveloperEvaluation.Domain/Entities/Sale.cs:167-168 | only the first matching item changes; it carries the new quantity, and on success it is the rule applied to it |
| Sales.UpdateQuantitySum | template/backend/src/Ambev.DeveloperEvaluation.Domain/Entities/Sale.cs:167-169 | on failure the sum of item totals is unchanged; on success it moves by the change of that item's total |
| Sales.LoweringDiscountedItemFails | template/backend/src/Ambev.DeveloperEvaluation.Domain/Entities/SaleItem.cs:67-70 | lowering a discounted item below 4 gives the below-4 error with the new quantity already written |
| Sales.LoweringFiveToThreeFails | template/backend/src/Ambev.DeveloperEvaluation.Domain/Entities/Sale.cs:167-168 | 5 units at 10 lowered to 3: error, and the item left behind (total 45) fails the validator |
| Sales.UpdateQuantityRetiered | template/backend/src/Ambev.DeveloperEvaluation.Domain/Entities/Sale.cs:155-173 | the corrected update: as UpdateQuantity, but the discount is cleared before the rule runs |
| Sales.RetieredUpdateSucceeds | template/backend/src/Ambev.DeveloperEvaluation.Domain/Entities/Sale.cs:155-173 | corrected update: with a known id and at most 20 units it succeeds, and the item is the freshly priced one |
| Sales.RetieredUpdateKeepsItemsValid | template/backend/src/Ambev.DeveloperEvaluation.Domain/Entities/Sale.cs:155-173 | corrected update: valid items stay valid for 1..20 units and the sum moves by the change of one item |
| Sales.UpdateTwoToThreeExample | template/backend/tests/Ambev.DeveloperEvaluation.Unit/Domain/Entities/SaleTests.cs:99-117 | 2 units at 10 raised to 3 gives true and a total of 30 |
| Sales.RemoveFirst | template/backend/src/Ambev.DeveloperEvaluation.Domain/Entities/Sale.cs:180-190 | RemoveItem on item values: whether an item with the id exists, and the list without its first match |
| Sales.RemoveFirstUnknownId | template/backend/src/Ambev.DeveloperEvaluation.Domain/Entities/Sale.cs:182-184 | an unknown id removes nothing and returns false |
| Sales.RemoveFirstRemovesOne | template/backend/src/Ambev.DeveloperEvaluation.Domain/Entities/Sale.cs:180-190 | a known id removes the first matching item only, keeps the others in order, and takes its total off the sum |
| Sales.NewPricedItem | template/backend/src/Ambev.DeveloperEvaluation.Domain/Entities/Sale.cs:130-139 | a fresh item object whose fields are Priced of the inputs |
| Sales.Sale.constructor | template/backend/src/Ambev.DeveloperEvaluation.Domain/Entities/Sale.cs:71-75 | an empty, valid, active sale with CreatedAt and SaleDate at now |
| Sales.Sale.Initialized | template/backend/src/Ambev.DeveloperEvaluation.Application/Sales/CreateSales/CreateSaleHandler.cs:57-65 | the default constructor plus the initializer: an empty, valid, active sale carrying the given header fields and creator, with CreatedAt at now |
| Sales.Sale.CalculateTotalAmount | template/backend/src/Ambev.DeveloperEvaluation.Domain/Entities/Sale.cs:108-112 | TotalAmount becomes the sum of the item totals |
| Sales.Sale.SetQuantityAt | template/backend/src/Ambev.DeveloperEvaluation.Domain/Entities/Sale.cs:167-168 | the item at k gets the new quantity and is re-priced by the rule (or keeps the overwritten quantity when the rule throws); every other item keeps its state |
| Sales.Sale.AddItem | template/backend/src/Ambev.DeveloperEvaluation.Domain/Entities/Sale.cs:122-146 | more than 20 units: maximum error, items and total unchanged; otherwise one fresh priced item is appended and returned, and the total is the new sum |
| Sales.Sale.UpdateItemQuantity | template/backend/src/Ambev.DeveloperEvaluation.Domain/Entities/Sale.cs:155-173 | the outcome and the item states are UpdateQuantity of the old item states; the sale stays valid on every path |
| Sales.Sale.RemoveItem | template/backend/src/Ambev.DeveloperEvaluation.Domain/Entities/Sale.cs:180-190 | the outcome and item states are RemoveFirst of the old ones; on success the total drops by the removed item's total |
| Sales.Sale.Cancel | template/backend/src/Ambev.DeveloperEvaluation.Domain/Entities/Sale.cs:196-200 | IsCancelled becomes true and nothing else changes |
| SaleCommands.UpdateCommandValid | template/backend/src/Ambev.DeveloperEvaluation.Application/Sales/UpdateSale/UpdateSaleCommandValidator.cs:13-61 | the update command validator: non-empty id, the header rules, at least one item, and every item line valid |
| SaleCommands.CreateCommandValid | template/backend/src/Ambev.DeveloperEvaluation.Application/Sales/CreateSales/CreateSaleHandler.cs:43-47 | the create command validator the handler runs first: the header rules, a non-empty creator, at least one item, and every item line valid |
| SaleCommands.CreateCommandWithinMaximum | template/backend/src/Ambev.DeveloperEvaluation.Application/Sales/CreateSales/CreateSaleHandler.cs:43-47 | every item line of an accepted create command has at most 20 units |
| SaleCommands.ValidLineIsPricedValid | template/backend/src/Ambev.DeveloperEvaluation.Application/Sales/UpdateSale/UpdateSaleCommandValidator.cs:49-61 | an item line the command validators accept is priced without error and passes SaleItemValidator |
| SaleCommands.DefaultUpdateCommandRejected | template/backend/tests/Ambev.DeveloperEvaluation.Unit/Application/Sales/UpdateSaleHandlerTests.cs:68-79 | the default update command is invalid |
| SaleCommands.DefaultCreateCommandRejected | template/backend/tests/Ambev.DeveloperEvaluation.Unit/Application/Sales/CreateSaleHandlerTests.cs:117-128 | the default create command is invalid |
| SaleCommands.FutureDateRejected | template/backend/src/Ambev.DeveloperEvaluation.Application/Sales/UpdateSale/UpdateSaleCommandValidator.cs:22-24 | a command dated after now is invalid |
| SaleCommands.ItemIdIsNotValidated | template/backend/src/Ambev.DeveloperEvaluation.Application/Sales/UpdateSale/UpdateSaleCommandValidator.cs:44-61 | changing an item id never changes the update validator's verdict |
| SaleCommands.SampleUpdateCommandValid | template/backend/src/Ambev.DeveloperEvaluation.Application/Sales/UpdateSale/UpdateSaleCommandValidator.cs:13-38 | a well-formed one-item command dated now is valid |
| SaleRequests.RequestValid | template/backend/src/Ambev.DeveloperEvaluation.WebApi/Features/Sales/UpdateSale/UpdateSaleRequestValidator.cs:13-61 | the request validator: the same header and item rules as the update command validator |
| SaleRequests.ToCommand | template/backend/src/Ambev.DeveloperEvaluation.WebApi/Features/Sales/SalesController.cs:128 | field-by-field copy of the request into the update command |
| SaleRequests.RequestValidIffCommandValid | template/backend/src/Ambev.DeveloperEvaluation.WebApi/Features/Sales/UpdateSale/UpdateSaleRequestValidator.cs:13-61 | the request validator accepts a request if and only if the command validator accepts its command |
| SaleStore.Store.NumberTaken | template/backend/src/Ambev.DeveloperEvaluation.Application/Sales/CreateSales/CreateSaleHandler.cs:49-51 | GetBySaleNumberAsync finds a stored sale with that number |
| SaleStore.Store.NumberTakenByOther | template/backend/src/Ambev.DeveloperEvaluation.Application/Sales/UpdateSale/UpdateSaleHandler.cs:48-53 | GetBySaleNumberAsync finds a stored sale with that number and another id |
| SaleStore.Store.Add | template/backend/src/Ambev.DeveloperEvaluation.ORM/Repositories/SaleRepository.cs:29-34 | the sale is stored under its own id, nothing else in the store changes, and every stored sale stays filed under its id |
| CancelSaleHandling.CancelById | template/backend/src/Ambev.DeveloperEvaluation.ORM/Repositories/SaleRepository.cs:148-157 | cancels the stored sale with the id and returns whether there was one; items and total unchanged |
| CancelSaleHandling.CancelSale | template/backend/src/Ambev.DeveloperEvaluation.Application/Sales/CancelSale/CancelSaleHandler.cs:36-50 | unknown id: NotFound; already cancelled: Conflict with nothing changed; otherwise that sale becomes cancelled with items, total and validity kept |
| CancelSaleHandling.CancelTwice | template/backend/src/Ambev.DeveloperEvaluation.Application/Sales/CancelSale/CancelSaleHandler.cs:41-44 | a first cancel succeeds, a second is refused as already cancelled |
| CreateSaleHandling.CreatedItems | template/backend/src/Ambev.DeveloperEvaluation.Application/Sales/CreateSales/CreateSaleHandler.cs:67-70 | one item per command line, in order, each priced as AddItem prices it; as many items as lines |
| CreateSaleHandling.CreatedItemsPointwise | template/backend/src/Ambev.DeveloperEvaluation.Application/Sales/CreateSales/CreateSaleHandler.cs:67-70 | created item i is command entry i priced as AddItem prices it |
| CreateSaleHandling.AddCommandItems | template/backend/src/Ambev.DeveloperEvaluation.Application/Sales/CreateSales/CreateSaleHandler.cs:67-70 | the loop leaves the sale valid with item states equal to CreatedItems of the command, every item a new object |
| CreateSaleHandling.NewSale | template/backend/src/Ambev.DeveloperEvaluation.Application/Sales/CreateSales/CreateSaleHandler.cs:57-70 | a fresh, valid, active sale with the command's header, creator and items, each item a new object |
| CreateSaleHandling.CreateSale | template/backend/src/Ambev.DeveloperEvaluation.Application/Sales/CreateSales/CreateSaleHandler.cs:41-78 | validation, then duplicate number, then unknown user, with the store unchanged on error; on success the new sale is stored once under its id with the command's header and items (all new objects) and a total equal to their sum |
| CreateSaleHandling.CreatedItemsAreValid | template/backend/src/Ambev.DeveloperEvaluation.Application/Sales/CreateSales/CreateSaleHandler.cs:67-70 | every item of a sale created from a valid command passes SaleItemValidator |
| CreateSaleHandling.CreatedTiers | template/backend/tests/Ambev.DeveloperEvaluation.Unit/Application/Sales/CreateSaleHandlerTests.cs:228-350 | 3, 5 and 15 units at 10 give 0% / 0 / 30, 10% / 5 / 45, 20% / 30 / 120, and a sale total of 195 |
| SaleCommands.UpdateCommandWithinMaximum | template/backend/src/Ambev.DeveloperEvaluation.Application/Sales/UpdateSale/UpdateSaleCommandValidator.cs:55-57 | every item line of an accepted update command has at most 20 units |
| UpdateSaleHandling.FirstOverMaximum | template/backend/src/Ambev.DeveloperEvaluation.Application/Sales/UpdateSale/UpdateSaleHandler.cs:72-84 | the first entry over 20 units, or None exactly when every entry is within the maximum |
| UpdateSaleHandling.RebuiltId | template/backend/src/Ambev.DeveloperEvaluation.Application/Sales/UpdateSale/UpdateSaleHandler.cs:76-78 | the item id is the fresh one, or the command's id when that is present and not empty |
| UpdateSaleHandling.RebuiltItems | template/backend/src/Ambev.DeveloperEvaluation.Application/Sales/UpdateSale/UpdateSaleHandler.cs:70-86 | one new priced item per command line, in order, under the id RebuiltId picks; as many items as lines |
| UpdateSaleHandling.RebuiltItemsPointwise | template/backend/src/Ambev.DeveloperEvaluation.Application/Sales/UpdateSale/UpdateSaleHandler.cs:72-86 | rebuilt item i is entry i priced under the id RebuiltId picks |
| UpdateSaleHandling.AppendNewItem | template/backend/src/Ambev.DeveloperEvaluation.Application/Sales/UpdateSale/UpdateSaleHandler.cs:74-85 | one fresh priced item is appended; earlier items are kept |
| UpdateSaleHandling.RefillItems | template/backend/src/Ambev.DeveloperEvaluation.Application/Sales/UpdateSale/UpdateSaleHandler.cs:71-86 | the list is cleared and refilled with fresh items; the refill stops at the first entry over 20 units with the maximum error |
| UpdateSaleHandling.UpdateSaleItems | template/backend/src/Ambev.DeveloperEvaluation.Application/Sales/UpdateSale/UpdateSaleHandler.cs:69-89 | all entries within the maximum: the sale is valid and its items are RebuiltItems of the command; otherwise the maximum error, the items built so far, and the total not recomputed |
| UpdateSaleHandling.OverwriteSale | template/backend/src/Ambev.DeveloperEvaluation.Application/Sales/UpdateSale/UpdateSaleHandler.cs:55-61 | the header takes the command's values, and the items are rebuilt fresh with the total equal to their sum |
| UpdateSaleHandling.UpdateSale | template/backend/src/Ambev.DeveloperEvaluation.Application/Sales/UpdateSale/UpdateSaleHandler.cs:34-67 | validation, then not found, then cancelled, then a number held by another sale (checked only when the number changes), with nothing changed on error; on success the header changes, CreatedAt, CreatedById and IsCancelled are kept, and the items are rebuilt |
| UpdateSaleHandling.RebuiltItemsAreValid | template/backend/src/Ambev.DeveloperEvaluation.Application/Sales/UpdateSale/UpdateSaleHandler.cs:84 | every rebuilt item from a valid command passes SaleItemValidator |
| UpdateSaleHandling.UnlistedIdsDisappear | template/backend/src/Ambev.DeveloperEvaluation.Application/Sales/UpdateSale/UpdateSaleHandler.cs:71-86 | an id that neither an entry nor a fresh id supplies is absent from the rebuilt items |
| UpdateSaleHandling.RebuiltIdsFollowCommand | template/backend/src/Ambev.DeveloperEvaluation.Application/Sales/UpdateSale/UpdateSaleHandler.cs:76-78 | a present, non-empty entry id is kept; an absent or empty one becomes the fresh id |
| UpdateSaleHandling.ReplaceBWithC | template/backend/src/Ambev.DeveloperEvaluation.Application/Sales/UpdateSale/UpdateSaleHandler.cs:69-89 | a sale with items A and B updated with entries A and C ends with exactly A and C, re-priced, total 65 |

## Left out

- Sale.Validate and SaleValidator: the sale-level validator is not part of this model.
- UpdatedAt: every assignment of `DateTime.UtcNow` to it is left out; `now` is a parameter where other timestamps need it.
- Exception messages: each exception is one error constructor, not its text.
- FluentValidation collects every failing rule and its message. The validators here are predicates that only give the verdict.
- `decimal` range and rounding: amounts are exact reals. Overflow beyond the `decimal` range and the `decimal(18,2)` column rounding of the database are not modelled.
- Quantities are unbounded integers: 32-bit `int` wrap-around is not modelled. No rule here computes near that range.
- Persistence: `SaveChangesAsync`, the entity states set by `RemoveItemsAsync`, and the queries behind `GetByIdAsync` and `GetBySaleNumberAsync`. The store is a map from id to the tracked sale object. A number lookup is "some stored sale has this number".
- Null strings: a `string` here is never null, so FluentValidation's `NotEmpty` rejecting a null string has no counterpart; every verdict on a non-null string is modelled.
- The `CreatedBy` user object and the `SaleItem.Sale`/`SaleId` back-references: only ids are modelled.
- Event publishing, the mapping to result objects, `CancellationToken`s and async execution: calls are sequential and the handlers return the sale itself.
- The controller, including its route/body id check, and the `Cancel` reason parameter, which the source ignores.

## Findings

| source | as written | input that shows it | evidently intended | confidence | as-written member | corrected member |
|---|---|---|---|---|---|---|
| template/backend/src/Ambev.DeveloperEvaluation.Domain/Entities/Sale.cs:167-168 | UpdateItemQuantity overwrites Quantity, then the discount rule checks "below 4 with a discount" against the Discount left over from the old quantity | an item of 5 units at 10 (Discount 5) updated to 3 units throws the below-4 error; the item keeps Quantity 3, Discount 5 and TotalAmount 45, and it fails SaleItemValidator | the item is re-tiered to 0% with a total of 30, as it would be if it were added with 3 units | medium, not executed | Sales.LoweringFiveToThreeFails | Sales.RetieredUpdateKeepsItemsValid |

The `Sale` class keeps the as-written behaviour in `UpdateItemQuantity`,
because that partial update is what the source does. The corrected
`UpdateQuantityRetiered` differs in one place: it resets Discount before it
re-applies the rule.
