/**
 * The repositories the handlers talk to, reduced to what the handlers ask of
 * them: stored sales by id, the sale numbers in use, and the known users.
 */
module SaleStore {
  import opened Common
  import opened Sales

  class Store {
    /** Stored sales by id; the values are the tracked entity objects. */
    var sales: map<Guid, Sale>
    /** Ids of the users the user repository knows. */
    var users: set<Guid>

    /** Every stored sale is filed under its own Id. */
    ghost predicate Keyed()
      reads this, sales.Values
    {
      forall k :: k in sales ==> sales[k].id == k
    }

    /** GetBySaleNumberAsync finds a sale. */
    predicate NumberTaken(saleNumber: string)
      reads this, sales.Values
    {
      exists k :: k in sales && sales[k].saleNumber == saleNumber
    }

    /** GetBySaleNumberAsync finds a sale whose Id is not `id`. */
    predicate NumberTakenByOther(saleNumber: string, id: Guid)
      reads this, sales.Values
    {
      exists k :: k in sales && sales[k].saleNumber == saleNumber && sales[k].id != id
    }

    /** CreateAsync: the sale is filed under its own Id; nothing else is stored or changed. */
    method Add(sale: Sale)
      requires Keyed() && sale.id !in sales
      modifies this`sales
      ensures sales == old(sales)[sale.id := sale]
      ensures Keyed()
    {
      sales := sales[sale.id := sale];
    }

    constructor (users: set<Guid>)
      ensures sales == map[] && this.users == users
      ensures Keyed()
    {
      sales := map[];
      this.users := users;
    }
  }
}
