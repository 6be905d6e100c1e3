/**
 * The create and update commands the application handlers receive, and the
 * validators that run on them before anything else happens.
 */
module SaleCommands {
  import opened Common
  import opened ValidationRules
  import opened SaleItems
  import opened SaleItemValidation

  /** An item line of an update: the id is optional. */
  datatype UpdateSaleItemCommand = UpdateSaleItemCommand(
    id: Option<Guid>,
    product: string,
    quantity: int,
    unitPrice: real)

  datatype UpdateSaleCommand = UpdateSaleCommand(
    id: Guid,
    saleNumber: string,
    saleDate: Instant,
    customer: string,
    branch: string,
    items: seq<UpdateSaleItemCommand>)

  datatype CreateSaleItemCommand = CreateSaleItemCommand(
    product: string,
    quantity: int,
    unitPrice: real)

  datatype CreateSaleCommand = CreateSaleCommand(
    saleNumber: string,
    saleDate: Instant,
    customer: string,
    branch: string,
    createdById: Guid,
    items: seq<CreateSaleItemCommand>)

  /** The item rules both command validators share: product, quantity 1..20, positive price. */
  predicate ItemLineValid(product: string, quantity: int, unitPrice: real) {
    && NotBlank(product) && MaximumLength(product, 100)
    && quantity > 0 && quantity <= 20
    && unitPrice > 0.0
  }

  /** The header rules both command validators share; `now` stands for DateTime.UtcNow. */
  predicate HeaderValid(saleNumber: string, saleDate: Instant, customer: string, branch: string, now: Instant) {
    && NotBlank(saleNumber) && MaximumLength(saleNumber, 50)
    && NotDefaultInstant(saleDate) && saleDate <= now
    && NotBlank(customer) && MaximumLength(customer, 100)
    && NotBlank(branch) && MaximumLength(branch, 100)
  }

  /** UpdateSaleItemCommandValidator: the item id is not constrained. */
  predicate UpdateItemValid(item: UpdateSaleItemCommand) {
    ItemLineValid(item.product, item.quantity, item.unitPrice)
  }

  /** UpdateSaleCommandValidator: a non-empty id, the header rules, at least one item, every item valid. */
  predicate UpdateCommandValid(c: UpdateSaleCommand, now: Instant) {
    && NotEmptyGuid(c.id)
    && HeaderValid(c.saleNumber, c.saleDate, c.customer, c.branch, now)
    && |c.items| > 0
    && forall i :: 0 <= i < |c.items| ==> UpdateItemValid(c.items[i])
  }

  /** CreateSaleItemCommandValidator. */
  predicate CreateItemValid(item: CreateSaleItemCommand) {
    ItemLineValid(item.product, item.quantity, item.unitPrice)
  }

  /** CreateSaleCommandValidator: the header rules, a non-empty creator, at least one item, every item valid. */
  predicate CreateCommandValid(c: CreateSaleCommand, now: Instant) {
    && HeaderValid(c.saleNumber, c.saleDate, c.customer, c.branch, now)
    && NotEmptyGuid(c.createdById)
    && |c.items| > 0
    && forall i :: 0 <= i < |c.items| ==> CreateItemValid(c.items[i])
  }

  /** No line of a create command asks for more than 20 units. */
  predicate CreateItemsWithinMaximum(items: seq<CreateSaleItemCommand>) {
    forall i :: 0 <= i < |items| ==> items[i].quantity <= 20
  }

  /** No line of an update command asks for more than 20 units. */
  predicate UpdateItemsWithinMaximum(items: seq<UpdateSaleItemCommand>) {
    forall i :: 0 <= i < |items| ==> items[i].quantity <= 20
  }

  /** A create command the validator accepts has no line over the maximum quantity. */
  lemma CreateCommandWithinMaximum(c: CreateSaleCommand, now: Instant)
    requires CreateCommandValid(c, now)
    ensures CreateItemsWithinMaximum(c.items)
  {
    assert forall i :: 0 <= i < |c.items| ==> CreateItemValid(c.items[i]);
  }

  /** An update command the validator accepts has no line over the maximum quantity. */
  lemma UpdateCommandWithinMaximum(c: UpdateSaleCommand, now: Instant)
    requires UpdateCommandValid(c, now)
    ensures UpdateItemsWithinMaximum(c.items)
  {
    assert forall i :: 0 <= i < |c.items| ==> UpdateItemValid(c.items[i]);
  }

  /**
   * An item line the command validators accept is one the discount rule
   * prices without complaint, and the priced item passes SaleItemValidator.
   */
  lemma ValidLineIsPricedValid(id: Guid, product: string, quantity: int, unitPrice: real)
    requires ItemLineValid(product, quantity, unitPrice)
    ensures ApplyDiscount(Initial(id, product, quantity, unitPrice)).Ok?
    ensures SaleItemValid(Priced(id, product, quantity, unitPrice))
  {
    PricedItemIsValid(id, product, quantity, unitPrice);
  }

  /** The default command (every field at its default, no items) is rejected. */
  lemma DefaultUpdateCommandRejected(now: Instant)
    ensures !UpdateCommandValid(UpdateSaleCommand(EmptyGuid, "", DefaultInstant, "", "", []), now)
  {
  }

  lemma DefaultCreateCommandRejected(now: Instant)
    ensures !CreateCommandValid(CreateSaleCommand("", DefaultInstant, "", "", EmptyGuid, []), now)
  {
  }

  /** A command dated after `now` is rejected whatever else it holds. */
  lemma FutureDateRejected(c: UpdateSaleCommand, d: CreateSaleCommand, now: Instant)
    ensures c.saleDate > now ==> !UpdateCommandValid(c, now)
    ensures d.saleDate > now ==> !CreateCommandValid(d, now)
  {
  }

  /** The validator does not look at item ids: changing one never changes the verdict. */
  lemma {:induction false} ItemIdIsNotValidated(c: UpdateSaleCommand, k: nat, id: Option<Guid>, now: Instant)
    requires k < |c.items|
    ensures UpdateCommandValid(c.(items := c.items[k := c.items[k].(id := id)]), now) == UpdateCommandValid(c, now)
  {
    var d := c.(items := c.items[k := c.items[k].(id := id)]);
    assert forall i :: 0 <= i < |c.items| ==> UpdateItemValid(d.items[i]) == UpdateItemValid(c.items[i]);
  }

  /** A worked command the handler tests use: one item of 5 units at 10, dated at `now`. */
  lemma SampleUpdateCommandValid(now: Instant)
    requires now > DefaultInstant
    ensures UpdateCommandValid(UpdateSaleCommand(1, "S-1", now, "Customer", "Branch",
                                                 [UpdateSaleItemCommand(None, "Product", 5, 10.0)]), now)
  {
    Utf16LengthOfBmpText("S-1");
    Utf16LengthOfBmpText("Customer");
    Utf16LengthOfBmpText("Branch");
    Utf16LengthOfBmpText("Product");
    assert !IsWhiteSpace("S-1"[0]);
    assert !IsWhiteSpace("Customer"[0]);
    assert !IsWhiteSpace("Branch"[0]);
    assert !IsWhiteSpace("Product"[0]);
  }
}
