/** The billing records of models.py and the invoice-total rule. */
module Models {
  import opened Wrappers

  /** A registered customer. The email is kept as an opaque string. */
  datatype Customer = Customer(
    id: int,
    name: string,
    description: Option<string>,
    email: string,
    age: int)

  /** One charge on an invoice. The amount's sign is not constrained. */
  datatype Transaction = Transaction(id: int, ammount: int, description: string)

  /**
   * An invoice. Its customer and transactions are held by value, and the
   * total is not stored: it is always computed from the transactions.
   */
  datatype Invoice = Invoice(id: int, customer: Customer, transactions: seq<Transaction>)
  {
    /** The invoice total: the sum of the amounts of its transactions. */
    function AmmountTotal(): (r: int)
      ensures transactions == [] ==> r == 0
      ensures r == SumFromFront(transactions)
    {
      Total(transactions)
    }
  }

  /** An independent reference: the sum taken from the front of the list. */
  function SumFromFront(ts: seq<Transaction>): (r: int)
  {
    if ts == [] then 0 else ts[0].ammount + SumFromFront(ts[1..])
  }

  /** Taken from the front, the sum still splits off the last amount. */
  lemma {:induction false} SumFromFrontLast(ts: seq<Transaction>)
    requires ts != []
    ensures SumFromFront(ts) == SumFromFront(ts[..|ts| - 1]) + ts[|ts| - 1].ammount
  {
    if |ts| > 1 {
      var rest := ts[1..];
      assert rest[..|rest| - 1] == ts[..|ts| - 1][1..];
      SumFromFrontLast(rest);
    } else {
      assert ts[1..] == [] && ts[..0] == [];
    }
  }

  /**
   * The sum of the amounts, accumulated from the first transaction to the
   * last, in the order Python's `sum` adds them. It agrees with the sum
   * taken from the front.
   */
  function Total(ts: seq<Transaction>): (r: int)
    ensures r == SumFromFront(ts)
  {
    if ts == [] then 0
    else
      SumFromFrontLast(ts);
      Total(ts[..|ts| - 1]) + ts[|ts| - 1].ammount
  }

  /** The total of a concatenation is the sum of the totals. */
  lemma {:induction false} TotalAppend(a: seq<Transaction>, b: seq<Transaction>)
    ensures Total(a + b) == Total(a) + Total(b)
  {
    if b != [] {
      var ab := a + b;
      assert ab[..|ab| - 1] == a + b[..|b| - 1];
      assert ab[|ab| - 1] == b[|b| - 1];
      TotalAppend(a, b[..|b| - 1]);
    } else {
      assert a + b == a;
    }
  }

  /**
   * Changing the amount of one transaction in place changes the total by
   * exactly the change in that amount.
   */
  lemma {:induction false} TotalUpdate(ts: seq<Transaction>, i: nat, t: Transaction)
    requires i < |ts|
    ensures Total(ts[i := t]) == Total(ts) - ts[i].ammount + t.ammount
  {
    var pre, post := ts[..i], ts[i + 1..];
    assert ts == pre + [ts[i]] + post;
    assert ts[i := t] == pre + [t] + post;
    TotalAppend(pre + [ts[i]], post);
    TotalAppend(pre + [t], post);
    TotalAppend(pre, [ts[i]]);
    TotalAppend(pre, [t]);
    assert [ts[i]][..0] == [] && [t][..0] == [];
  }

  /** With no negative amounts the total is never negative, and no smaller than any one amount. */
  lemma {:induction false} TotalNonNegative(ts: seq<Transaction>)
    requires forall k :: 0 <= k < |ts| ==> ts[k].ammount >= 0
    ensures Total(ts) >= 0
    ensures forall k :: 0 <= k < |ts| ==> ts[k].ammount <= Total(ts)
  {
    if ts != [] {
      var init := ts[..|ts| - 1];
      TotalNonNegative(init);
      assert forall k :: 0 <= k < |init| ==> init[k] == ts[k];
    }
  }

  /** The total depends on the transactions only, never on the invoice id or customer. */
  lemma TotalIgnoresIdAndCustomer(inv: Invoice, id: int, customer: Customer)
    ensures inv.(id := id, customer := customer).AmmountTotal() == inv.AmmountTotal()
  {
  }

  /** An invoice with transactions of amounts 100 and 250 totals 350. */
  lemma ExampleTotal(id: int, customer: Customer, t1: Transaction, t2: Transaction)
    requires t1.ammount == 100 && t2.ammount == 250
    ensures Invoice(id, customer, [t1, t2]).AmmountTotal() == 350
  {
    var ts := [t1, t2];
    assert ts[1..] == [t2] && [t2][1..] == [];
    assert SumFromFront([t2]) == 250;
    assert SumFromFront(ts) == 350;
  }

  /**
   * The caller's list, extended by one transaction after an invoice is
   * built from it, totals the invoice's total plus the extra amount. That
   * the invoice itself is unaffected comes from datatypes being values.
   */
  lemma InvoiceIsSnapshot(id: int, customer: Customer, ts: seq<Transaction>, extra: Transaction)
    ensures var inv := Invoice(id, customer, ts);
            Total(ts + [extra]) == inv.AmmountTotal() + extra.ammount
  {
    TotalAppend(ts, [extra]);
  }
}
