/** Reports over the live sales: credit outstanding, and the caches it agrees with. */
module Reporting {
  import opened Common
  import opened Tables
  import opened Payments
  import opened Customers
  import opened Machine

  // ---------- credit outstanding ----------

  predicate OpenAt(x: Option<Sale>, business: nat) {
    x.Some? && x.value.business == business && IsOpen(x.value.status)
  }

  function Outstanding(sales: seq<Option<Sale>>, business: nat): int {
    if |sales| == 0 then 0
    else
      var x := sales[|sales| - 1];
      Outstanding(sales[..|sales| - 1], business) + if OpenAt(x, business) then Remaining(x.value) else 0
  }

  function OpenSales(sales: seq<Option<Sale>>, business: nat): nat {
    if |sales| == 0 then 0
    else OpenSales(sales[..|sales| - 1], business) + if OpenAt(sales[|sales| - 1], business) then 1 else 0
  }

  /** The open sales of the business. */
  ghost function OpenAtSet(sales: seq<Option<Sale>>, business: nat, n: nat): set<nat> {
    set i: nat | i < n && i < |sales| && OpenAt(sales[i], business)
  }

  /** The count is the number of open sales of the business. */
  lemma {:induction false} OpenSalesCount(sales: seq<Option<Sale>>, business: nat)
    ensures OpenSales(sales, business) == |OpenAtSet(sales, business, |sales|)|
  {
    if |sales| != 0 {
      var n := |sales| - 1;
      OpenSalesCount(sales[..n], business);
      assert OpenAtSet(sales, business, n) == OpenAtSet(sales[..n], business, n);
      assert OpenAtSet(sales, business, n + 1)
          == OpenAtSet(sales, business, n) + if OpenAt(sales[n], business) then {n} else {};
      assert n !in OpenAtSet(sales, business, n);
    } else {
      assert OpenAtSet(sales, business, 0) == {};
    }
  }

  method CreditOutstanding(db: Database, business: nat) returns (outstanding: int, open: nat)
    ensures outstanding == Outstanding(db.sales, business)
    ensures open == OpenSales(db.sales, business)
  {
    outstanding, open := 0, 0;
    for i := 0 to |db.sales|
      invariant outstanding == Outstanding(db.sales[..i], business)
      invariant open == OpenSales(db.sales[..i], business)
    {
      assert db.sales[..i + 1][..i] == db.sales[..i];
      if OpenAt(db.sales[i], business) {
        var sale := db.sales[i].value;
        var paid := SumOfPayments(sale.payments);
        outstanding := outstanding + Max(0, sale.total - paid);
        open := open + 1;
      }
    }
    assert db.sales[..|db.sales|] == db.sales;
  }

  /** Open credit summed over the live customers of the business among the first `n`. */
  function LiveCustomersCredit(s: State, business: nat, n: nat): int
    requires n <= |s.customers|
  {
    if n == 0 then 0
    else LiveCustomersCredit(s, business, n - 1)
         + if IsLive(s, n - 1, business) then OpenCredit(s.sales, n - 1) else 0
  }

  /** Totals of the staged sales of the business. */
  function StagedTotals(sales: seq<Option<Sale>>, business: nat): int {
    if |sales| == 0 then 0
    else
      var x := sales[|sales| - 1];
      StagedTotals(sales[..|sales| - 1], business)
      + if x.Some? && x.value.business == business && x.value.document.None? then x.value.total else 0
  }

  /** Credit over all customers of the business among the first `n`, deleted ones included. */
  function AllCredit(sales: seq<Option<Sale>>, customers: seq<Customer>, business: nat, n: nat): int
    requires n <= |customers|
  {
    if n == 0 then 0
    else AllCredit(sales, customers, business, n - 1)
         + if customers[n - 1].business == business then OpenCredit(sales, n - 1) else 0
  }

  lemma {:induction false} OneMoreSale(
    sales: seq<Option<Sale>>, x: Option<Sale>, customers: seq<Customer>, business: nat, n: nat)
    requires n <= |customers|
    requires x.Some? && x.value.customer.Some? ==>
               x.value.customer.value < |customers| && customers[x.value.customer.value].business == x.value.business
    ensures AllCredit(sales + [x], customers, business, n) == AllCredit(sales, customers, business, n)
            + if OpenAt(x, business) && x.value.customer.Some? && x.value.customer.value < n
              then Remaining(x.value) else 0
  {
    if n != 0 {
      OneMoreSale(sales, x, customers, business, n - 1);
      assert (sales + [x])[..|sales|] == sales;
    } else {
      assert AllCredit(sales + [x], customers, business, 0) == 0;
    }
  }

  /** Sales that the invariant describes, without the rest of the database. */
  ghost predicate Attributed(sales: seq<Option<Sale>>, customers: seq<Customer>) {
    && CustomersExist(sales, customers)
    && forall i :: 0 <= i < |sales| && sales[i].Some? ==> SaleOk(sales[i].value)
  }

  lemma {:induction false} OutstandingSplits(sales: seq<Option<Sale>>, customers: seq<Customer>, business: nat)
    requires Attributed(sales, customers)
    ensures Outstanding(sales, business) ==
            AllCredit(sales, customers, business, |customers|) + StagedTotals(sales, business)
  {
    if |sales| != 0 {
      var n := |sales| - 1;
      var x := sales[n];
      assert sales == sales[..n] + [x];
      OutstandingSplits(sales[..n], customers, business);
      OneMoreSale(sales[..n], x, customers, business, |customers|);
      if x.Some? {
        assert SaleOk(x.value);
      }
    } else {
      NoSalesNoCredit(customers, business, |customers|);
    }
  }

  lemma {:induction false} NoSalesNoCredit(customers: seq<Customer>, business: nat, n: nat)
    requires n <= |customers|
    ensures AllCredit([], customers, business, n) == 0
  {
    if n != 0 {
      NoSalesNoCredit(customers, business, n - 1);
    }
  }

  lemma {:induction false} DeletedOweNothing(s: State, business: nat, n: nat)
    requires DeletedHaveNoOpenSale(s.sales, s.customers) && n <= |s.customers|
    ensures AllCredit(s.sales, s.customers, business, n) == LiveCustomersCredit(s, business, n)
  {
    if n != 0 {
      DeletedOweNothing(s, business, n - 1);
      if s.customers[n - 1].deleted {
        NothingOpenNothingOwed(s.sales, n - 1);
      }
    }
  }

  /**
   * In every reachable state the business's credit outstanding is the open credit of its live
   * customers plus the totals of its staged sales: the report counts carts not yet finalised.
   */
  lemma CreditPartition(initial: map<nat, real>, s: State, business: nat)
    requires Inv(initial, s)
    ensures Outstanding(s.sales, business) ==
            LiveCustomersCredit(s, business, |s.customers|) + StagedTotals(s.sales, business)
  {
    OutstandingSplits(s.sales, s.customers, business);
    DeletedOweNothing(s, business, |s.customers|);
  }

  /** The stored balance columns of a customer's open sales. */
  function StoredBalances(sales: seq<Option<Sale>>, customer: nat): int {
    if |sales| == 0 then 0
    else
      var x := sales[|sales| - 1];
      StoredBalances(sales[..|sales| - 1], customer) + if OpenFor(x, customer) then x.value.balanceDue else 0
  }

  lemma {:induction false} StoredBalancesSum(sales: seq<Option<Sale>>, customer: nat)
    requires forall i :: 0 <= i < |sales| && sales[i].Some? ==> SaleOk(sales[i].value)
    ensures StoredBalances(sales, customer) == OpenCredit(sales, customer)
  {
    if |sales| != 0 {
      StoredBalancesSum(sales[..|sales| - 1], customer);
      if sales[|sales| - 1].Some? {
        assert SaleOk(sales[|sales| - 1].value);
      }
    }
  }

  /**
   * On every finalised sale of a reachable state, refunded ones included, the read schema shows
   * exactly the stored columns, whether it finds payment rows, a document or neither; another
   * synchronisation would change nothing; the balance of an open sale is what collect asks for;
   * and summed per customer the stored balances are the open-credit aggregate.
   */
  lemma CachesAgree(initial: map<nat, real>, s: State, id: nat, customer: nat)
    requires Inv(initial, s) && HasDocument(s, id)
    ensures var sale := s.sales[id].value;
            && Shown(sale) == (sale.amountPaid, sale.balanceDue)
            && Synced(sale, sale.payments) == sale
            && (IsOpen(sale.status) ==> sale.balanceDue == Remaining(sale) == sale.total - Paid(sale.payments))
    ensures StoredBalances(s.sales, customer) == OpenCredit(s.sales, customer)
  {
    assert SaleOk(s.sales[id].value);
    StoredBalancesSum(s.sales, customer);
  }

  /**
   * Over all reachable sales the read schema agrees with the stored columns exactly on the
   * finalised ones and the free ones: a staged sale is stored with nothing due and shown with
   * its whole total due.
   */
  lemma ReadSchemaAgreesIff(initial: map<nat, real>, s: State, id: nat)
    requires Inv(initial, s) && HasSale(s, id)
    ensures var sale := s.sales[id].value;
            Shown(sale) == (sale.amountPaid, sale.balanceDue) <==> sale.document.Some? || sale.total == 0
  {
    assert SaleOk(s.sales[id].value);
  }
}
