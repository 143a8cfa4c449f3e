/**
 * The in-memory stores of main.py: the customer list and the invoice list,
 * each append-only, each giving a new entry the id "last id + 1", or 1
 * when the list is empty.
 */
module Repository {
  import opened Wrappers
  import opened Models

  /** A customer as submitted, before the store gives it an id. */
  datatype CustomerData = CustomerData(
    name: string,
    description: Option<string>,
    email: string,
    age: int)
  {
    /** The customer built from this data with the given id. */
    function WithId(id: int): (c: Customer)
    {
      Customer(id, name, description, email, age)
    }
  }

  /** The reply to an invoice creation: the stored invoice and its computed total. */
  datatype InvoiceReply = InvoiceReply(
    id: int,
    customer: Customer,
    transactions: seq<Transaction>,
    total: int)

  /** The stored ids are exactly 1, 2, ..., n, in that order. */
  predicate IdsAreOneToN(ids: seq<int>)
  {
    forall i :: 0 <= i < |ids| ==> ids[i] == i + 1
  }

  /**
   * The id rule: one more than the last stored id, or 1 for an empty store.
   * On a store numbered 1..n it is n + 1: larger than every stored id, and
   * appending it keeps the numbering 1..n+1.
   */
  function NextId(ids: seq<int>): (r: int)
    ensures IdsAreOneToN(ids) ==> r == |ids| + 1 && IdsAreOneToN(ids + [r])
    ensures IdsAreOneToN(ids) ==> forall i :: 0 <= i < |ids| ==> ids[i] < r
  {
    if ids == [] then 1 else ids[|ids| - 1] + 1
  }

  /** The ids of stored entries, in store order. */
  function IdsOf<T>(entries: seq<T>, id: T -> int): (ids: seq<int>)
  {
    seq(|entries|, i requires 0 <= i < |entries| => id(entries[i]))
  }

  function CustomerId(c: Customer): (r: int) { c.id }

  function InvoiceId(v: Invoice): (r: int) { v.id }

  /** Ids numbered 1..n are strictly increasing, hence pairwise distinct. */
  lemma OneToNIsIncreasing(ids: seq<int>)
    requires IdsAreOneToN(ids)
    ensures forall i, j :: 0 <= i < j < |ids| ==> ids[i] < ids[j]
  {
  }

  /** The customer store, `db_customers`. */
  class CustomerStore {
    var customers: seq<Customer>

    /** The store's invariant: ids are 1..n in insertion order. */
    ghost predicate Valid()
      reads this
    {
      forall i :: 0 <= i < |customers| ==> customers[i].id == i + 1
    }

    constructor ()
      ensures customers == [] && Valid()
    {
      customers := [];
    }

    /**
     * `create_customer`: gives the data the next id, appends the customer
     * at the end and returns it. Earlier entries are unchanged.
     */
    method Create(data: CustomerData) returns (c: Customer)
      modifies this
      ensures c == data.WithId(NextId(IdsOf(old(customers), CustomerId)))
      ensures customers == old(customers) + [c]
      ensures old(Valid()) ==> Valid() && c.id == |customers|
    {
      ghost var ids := IdsOf(customers, CustomerId);
      var newId := if |customers| > 0 then customers[|customers| - 1].id + 1 else 1;
      assert newId == NextId(ids) by {
        assert ids != [] ==> ids[|ids| - 1] == CustomerId(customers[|customers| - 1]);
      }
      c := data.WithId(newId);
      customers := customers + [c];
      assert old(Valid()) ==> IdsAreOneToN(ids);
    }

    /** `list_customer`: the whole store, in insertion order, numbered 1..n when valid. */
    function List(): (r: seq<Customer>)
      reads this
      ensures r == customers
      ensures Valid() ==> forall i :: 0 <= i < |r| ==> r[i].id == i + 1
    {
      customers
    }
  }

  /** The invoice store, `db_invoices`. */
  class InvoiceStore {
    var invoices: seq<Invoice>

    /** The store's invariant: ids are 1..n in insertion order. */
    ghost predicate Valid()
      reads this
    {
      forall i :: 0 <= i < |invoices| ==> invoices[i].id == i + 1
    }

    constructor ()
      ensures invoices == [] && Valid()
    {
      invoices := [];
    }

    /**
     * `create_invoices`: stores a new invoice with the next id and the
     * submitted customer and transactions (the submitted id is ignored),
     * and replies with it and its computed total.
     */
    method Create(data: Invoice) returns (reply: InvoiceReply)
      modifies this
      ensures var stored := Invoice(NextId(IdsOf(old(invoices), InvoiceId)), data.customer, data.transactions);
              invoices == old(invoices) + [stored] &&
              reply == InvoiceReply(stored.id, stored.customer, stored.transactions, stored.AmmountTotal())
      ensures reply.total == Total(data.transactions)
      ensures old(Valid()) ==> Valid() && reply.id == |invoices|
    {
      ghost var ids := IdsOf(invoices, InvoiceId);
      var invoice := Invoice(
        if |invoices| > 0 then invoices[|invoices| - 1].id + 1 else 1,
        data.customer,
        data.transactions);
      assert invoice.id == NextId(ids) by {
        assert ids != [] ==> ids[|ids| - 1] == InvoiceId(invoices[|invoices| - 1]);
      }
      invoices := invoices + [invoice];
      assert old(Valid()) ==> IdsAreOneToN(ids);
      reply := InvoiceReply(invoice.id, invoice.customer, invoice.transactions, invoice.AmmountTotal());
    }
  }

  /** Two customers created on a fresh store get ids 1 and 2 and are listed in that order. */
  method TwoCustomersInOrder(a: CustomerData, b: CustomerData)
    returns (first: Customer, second: Customer, listed: seq<Customer>)
    ensures first == a.WithId(1) && second == b.WithId(2)
    ensures listed == [first, second]
  {
    var store := new CustomerStore();
    first := store.Create(a);
    second := store.Create(b);
    listed := store.List();
  }

  /** The third invoice created on a fresh store gets id 3 and the total of its own transactions. */
  method ThirdInvoice(x: Invoice, y: Invoice, z: Invoice) returns (reply: InvoiceReply)
    ensures reply.id == 3
    ensures reply.customer == z.customer && reply.transactions == z.transactions
    ensures reply.total == Total(z.transactions)
  {
    var store := new InvoiceStore();
    var r1 := store.Create(x);
    var r2 := store.Create(y);
    reply := store.Create(z);
  }
}
