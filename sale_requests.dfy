/**
 * The web request for an update and its validator, which repeats the command
 * validator's rules on the request's own types.
 */
module SaleRequests {
  import opened Common
  import opened ValidationRules
  import opened SaleCommands

  datatype UpdateSaleItemRequest = UpdateSaleItemRequest(
    id: Option<Guid>,
    product: string,
    quantity: int,
    unitPrice: real)

  datatype UpdateSaleRequest = UpdateSaleRequest(
    id: Guid,
    saleNumber: string,
    saleDate: Instant,
    customer: string,
    branch: string,
    items: seq<UpdateSaleItemRequest>)

  /** UpdateSaleItemRequestValidator. */
  predicate ItemRequestValid(item: UpdateSaleItemRequest) {
    && NotBlank(item.product) && MaximumLength(item.product, 100)
    && item.quantity > 0 && item.quantity <= 20
    && item.unitPrice > 0.0
  }

  /** UpdateSaleRequestValidator. */
  predicate RequestValid(r: UpdateSaleRequest, now: Instant) {
    && NotEmptyGuid(r.id)
    && NotBlank(r.saleNumber) && MaximumLength(r.saleNumber, 50)
    && NotDefaultInstant(r.saleDate) && r.saleDate <= now
    && NotBlank(r.customer) && MaximumLength(r.customer, 100)
    && NotBlank(r.branch) && MaximumLength(r.branch, 100)
    && |r.items| > 0
    && forall i :: 0 <= i < |r.items| ==> ItemRequestValid(r.items[i])
  }

  /** The field-by-field mapping from a request to the command the controller sends. */
  function ToCommand(r: UpdateSaleRequest): (c: UpdateSaleCommand)
    ensures c.id == r.id && c.saleNumber == r.saleNumber && c.saleDate == r.saleDate
    ensures c.customer == r.customer && c.branch == r.branch
    ensures |c.items| == |r.items|
    ensures forall i :: 0 <= i < |r.items| ==>
              c.items[i] == UpdateSaleItemCommand(r.items[i].id, r.items[i].product,
                                                  r.items[i].quantity, r.items[i].unitPrice)
  {
    UpdateSaleCommand(r.id, r.saleNumber, r.saleDate, r.customer, r.branch, ItemCommands(r.items))
  }

  function ItemCommands(items: seq<UpdateSaleItemRequest>): (cs: seq<UpdateSaleItemCommand>)
    ensures |cs| == |items|
    ensures forall i :: 0 <= i < |items| ==>
              cs[i] == UpdateSaleItemCommand(items[i].id, items[i].product, items[i].quantity, items[i].unitPrice)
  {
    if items == [] then []
    else ItemCommands(items[..|items| - 1])
         + [UpdateSaleItemCommand(items[|items| - 1].id, items[|items| - 1].product,
                                  items[|items| - 1].quantity, items[|items| - 1].unitPrice)]
  }

  /** Rule for rule, the request validator accepts exactly what the command validator accepts. */
  lemma RequestValidIffCommandValid(r: UpdateSaleRequest, now: Instant)
    ensures RequestValid(r, now) <==> UpdateCommandValid(ToCommand(r), now)
  {
    var c := ToCommand(r);
    assert forall i :: 0 <= i < |r.items| ==> (ItemRequestValid(r.items[i]) <==> UpdateItemValid(c.items[i]));
  }
}
