/**
 * CancelSaleHandler: a stored sale goes from active to cancelled once; an
 * unknown id and a sale already cancelled are refused before any change.
 */
module CancelSaleHandling {
  import opened Common
  import opened Sales
  import opened SaleStore

  /**
   * The repository's CancelAsync: look the sale up again by id and cancel
   * it; false when there is no such sale.
   */
  method CancelById(store: Store, id: Guid) returns (found: bool)
    modifies (if id in store.sales then {store.sales[id]} else {})`isCancelled
    ensures found == (id in store.sales)
    ensures found ==> var sale := store.sales[id];
                      && sale.isCancelled && sale.id == old(sale.id)
                      && sale.items == old(sale.items) && sale.totalAmount == old(sale.totalAmount)
  {
    if id !in store.sales {
      return false;
    }
    store.sales[id].Cancel();
    return true;
  }

  /** Handle. The result is the cancelled sale. */
  method CancelSale(store: Store, id: Guid) returns (r: Result<Sale>)
    requires store.Keyed()
    modifies (if id in store.sales then {store.sales[id]} else {})`isCancelled
    ensures store.Keyed()
    ensures id !in store.sales ==> r == Err(NotFound)
    ensures id in store.sales && old(store.sales[id].isCancelled) ==>
              r == Err(Conflict(AlreadyCancelled)) && unchanged(store.sales[id])
    ensures id in store.sales && !old(store.sales[id].isCancelled) ==>
              var sale := store.sales[id];
              && r == Ok(sale)
              && sale.id == id && sale.isCancelled
              && sale.items == old(sale.items) && sale.totalAmount == old(sale.totalAmount)
              && ItemStates(sale.items) == old(ItemStates(sale.items))
              && (old(sale.Valid()) ==> sale.Valid())
  {
    if id !in store.sales {
      return Err(NotFound);
    }
    var sale := store.sales[id];
    if sale.isCancelled {
      return Err(Conflict(AlreadyCancelled));
    }
    var _ := CancelById(store, id);
    return Ok(sale);
  }

  /** Cancelled is terminal: a second cancel of the same sale is refused. */
  method CancelTwice(store: Store, id: Guid) returns (first: Result<Sale>, second: Result<Sale>)
    requires store.Keyed()
    requires id in store.sales && !store.sales[id].isCancelled
    modifies {store.sales[id]}`isCancelled
    ensures first.Ok? && first.value == store.sales[id]
    ensures second == Err(Conflict(AlreadyCancelled))
    ensures store.sales[id].isCancelled
  {
    first := CancelSale(store, id);
    second := CancelSale(store, id);
  }
}
