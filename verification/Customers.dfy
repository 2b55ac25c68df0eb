/** Customer records: create, update, soft delete, and the open-credit aggregates. */
module Customers {
  import opened Common
  import opened Tables
  import opened Payments

  /** First live customer of the business with this phone, among the first rows of the table. */
  function FirstLive(customers: seq<Customer>, business: nat, phone: string): (k: nat)
    ensures k <= |customers|
    ensures k < |customers| ==> LiveWith(customers[k], business, phone)
    ensures forall i :: 0 <= i < k ==> !LiveWith(customers[i], business, phone)
  {
    if |customers| == 0 then 0
    else
      var k := FirstLive(customers[..|customers| - 1], business, phone);
      if k < |customers| - 1 then k
      else if LiveWith(customers[|customers| - 1], business, phone) then |customers| - 1
      else |customers|
  }

  predicate LiveWith(c: Customer, business: nat, phone: string) {
    c.business == business && c.phone == Some(phone) && !c.deleted
  }

  predicate IsLive(s: State, id: nat, business: nat) {
    id < |s.customers| && s.customers[id].business == business && !s.customers[id].deleted
  }

  predicate OpenFor(x: Option<Sale>, customer: nat) {
    x.Some? && x.value.customer == Some(customer) && IsOpen(x.value.status)
  }

  /** Open credit of one customer: the remaining balances of the open sales. */
  function OpenCredit(sales: seq<Option<Sale>>, customer: nat): int {
    if |sales| == 0 then 0
    else
      var x := sales[|sales| - 1];
      OpenCredit(sales[..|sales| - 1], customer) + if OpenFor(x, customer) then Remaining(x.value) else 0
  }

  function OpenCount(sales: seq<Option<Sale>>, customer: nat): nat {
    if |sales| == 0 then 0
    else OpenCount(sales[..|sales| - 1], customer) + if OpenFor(sales[|sales| - 1], customer) then 1 else 0
  }

  /** The count is zero exactly when no sale of the customer is open. */
  lemma {:induction false} CountIsZeroIff(sales: seq<Option<Sale>>, customer: nat)
    ensures OpenCount(sales, customer) == 0 <==> forall i :: 0 <= i < |sales| ==> !OpenFor(sales[i], customer)
  {
    if |sales| != 0 {
      CountIsZeroIff(sales[..|sales| - 1], customer);
    }
  }

  lemma {:induction false} NothingOpenNothingOwed(sales: seq<Option<Sale>>, customer: nat)
    requires forall i :: 0 <= i < |sales| ==> !OpenFor(sales[i], customer)
    ensures OpenCredit(sales, customer) == 0
  {
    if |sales| != 0 {
      NothingOpenNothingOwed(sales[..|sales| - 1], customer);
    }
  }

  /** The open sales of the customer among the first `n`. */
  ghost function OpenForSet(sales: seq<Option<Sale>>, customer: nat, n: nat): set<nat> {
    set i: nat | i < n && i < |sales| && OpenFor(sales[i], customer)
  }

  /** The count is the number of open sales of the customer. */
  lemma {:induction false} OpenCountIs(sales: seq<Option<Sale>>, customer: nat)
    ensures OpenCount(sales, customer) == |OpenForSet(sales, customer, |sales|)|
  {
    if |sales| != 0 {
      var n := |sales| - 1;
      OpenCountIs(sales[..n], customer);
      assert OpenForSet(sales, customer, n) == OpenForSet(sales[..n], customer, n);
      assert OpenForSet(sales, customer, n + 1)
          == OpenForSet(sales, customer, n) + if OpenFor(sales[n], customer) then {n} else {};
      assert n !in OpenForSet(sales, customer, n);
    } else {
      assert OpenForSet(sales, customer, 0) == {};
    }
  }

  /** One more sale adds its remaining balance, total less payments, exactly when it is the customer's and open. */
  lemma OneMoreOpenSale(sales: seq<Option<Sale>>, x: Option<Sale>, customer: nat)
    ensures OpenCredit(sales + [x], customer) == OpenCredit(sales, customer)
            + if x.Some? && x.value.customer == Some(customer)
                 && (x.value.status == PENDING_PAYMENT || x.value.status == PARTIALLY_PAID)
                 && x.value.total > Paid(x.value.payments)
              then x.value.total - Paid(x.value.payments) else 0
    ensures OpenCredit([], customer) == 0
  {
    assert (sales + [x])[..|sales|] == sales;
  }

  /** Sum of the applied payment amounts of one sale, payment by payment. */
  method SumOfPayments(payments: seq<Payment>) returns (paid: int)
    ensures paid == Paid(payments)
  {
    paid := 0;
    for i := 0 to |payments|
      invariant paid == Paid(payments[..i])
    {
      assert payments[..i + 1][..i] == payments[..i];
      paid := paid + payments[i].amount;
    }
    assert payments[..|payments|] == payments;
  }

  method Aggregates(db: Database, customer: nat) returns (openTotal: int, openCount: nat)
    ensures openTotal == OpenCredit(db.sales, customer)
    ensures openCount == OpenCount(db.sales, customer)
  {
    openTotal, openCount := 0, 0;
    for i := 0 to |db.sales|
      invariant openTotal == OpenCredit(db.sales[..i], customer)
      invariant openCount == OpenCount(db.sales[..i], customer)
    {
      assert db.sales[..i + 1][..i] == db.sales[..i];
      if OpenFor(db.sales[i], customer) {
        var sale := db.sales[i].value;
        var paid := SumOfPayments(sale.payments);
        openTotal := openTotal + Max(0, sale.total - paid);
        openCount := openCount + 1;
      }
    }
    assert db.sales[..|db.sales|] == db.sales;
  }

  // ---------- operations ----------

  /** A phone is usable when it is present and not empty. */
  predicate HasPhone(phone: Option<string>) {
    phone.Some? && phone.value != ""
  }

  /** `phone` is the normalised phone. */
  function Created(s: State, business: nat, phone: Option<string>): Reply {
    if HasPhone(phone) && FirstLive(s.customers, business, phone.value) < |s.customers|
    then Reply(s, Some(Conflict))
    else Reply(s.(customers := s.customers + [Customer(business, phone, false)]), None)
  }

  /** Another live customer of the business already uses the phone. */
  predicate Clash(customers: seq<Customer>, id: nat, business: nat, phone: string) {
    exists i :: 0 <= i < |customers| && i != id && LiveWith(customers[i], business, phone)
  }

  /** `phone` is None when the payload does not touch the phone, else Some(normalised phone). */
  function Updated(s: State, id: nat, business: nat, phone: Option<Option<string>>): Reply {
    if !IsLive(s, id, business) then Reply(s, Some(NotFound))
    else if phone.None? then Reply(s, None)
    else if HasPhone(phone.value) && Clash(s.customers, id, business, phone.value.value) then Reply(s, Some(Conflict))
    else Reply(s.(customers := s.customers[id := s.customers[id].(phone := phone.value)]), None)
  }

  function SoftDeleted(s: State, id: nat, business: nat): Reply {
    if !IsLive(s, id, business) then Reply(s, Some(NotFound))
    else if OpenCredit(s.sales, id) > 0 || OpenCount(s.sales, id) > 0 then Reply(s, Some(Conflict))
    else Reply(s.(customers := s.customers[id := s.customers[id].(deleted := true)]), None)
  }

  method Create(db: Database, business: nat, phone: Option<string>) returns (error: Option<Error>)
    modifies db`customers
    ensures Reply(db.Now(), error) == Created(old(db.Now()), business, phone)
  {
    if phone.Some? && phone.value != "" {
      var existing := FirstLive(db.customers, business, phone.value);
      if existing < |db.customers| {
        return Some(Conflict);
      }
    }
    db.customers := db.customers + [Customer(business, phone, false)];
    return None;
  }

  method Update(db: Database, id: nat, business: nat, phone: Option<Option<string>>) returns (error: Option<Error>)
    modifies db`customers
    ensures Reply(db.Now(), error) == Updated(old(db.Now()), id, business, phone)
  {
    if !(id < |db.customers|) || db.customers[id].business != business || db.customers[id].deleted {
      return Some(NotFound);
    }
    if phone.Some? {
      if phone.value.Some? && phone.value.value != "" && Clash(db.customers, id, business, phone.value.value) {
        return Some(Conflict);
      }
      db.customers := db.customers[id := db.customers[id].(phone := phone.value)];
    }
    return None;
  }

  method SoftDelete(db: Database, id: nat, business: nat) returns (error: Option<Error>)
    modifies db`customers
    ensures Reply(db.Now(), error) == SoftDeleted(old(db.Now()), id, business)
  {
    if !(id < |db.customers|) || db.customers[id].business != business || db.customers[id].deleted {
      return Some(NotFound);
    }
    var openTotal, openCount := Aggregates(db, id);
    if openTotal > 0 || openCount > 0 {
      return Some(Conflict);
    }
    db.customers := db.customers[id := db.customers[id].(deleted := true)];
    return None;
  }

  // ---------- what the operations answer ----------

  /** A live customer of the business other than `but` has the phone. */
  ghost predicate PhoneTaken(customers: seq<Customer>, business: nat, phone: Option<string>, but: nat) {
    && phone.Some? && phone.value != ""
    && exists i :: 0 <= i < |customers| && i != but
                   && customers[i].business == business && customers[i].phone == phone && !customers[i].deleted
  }

  /** Create refuses exactly a phone that a live customer of the business has, and else adds the customer. */
  lemma CreateAnswers(s: State, business: nat, phone: Option<string>)
    ensures Created(s, business, phone) ==
            if PhoneTaken(s.customers, business, phone, |s.customers|) then Reply(s, Some(Conflict))
            else Reply(s.(customers := s.customers + [Customer(business, phone, false)]), None)
  {
    if HasPhone(phone) {
      var k := FirstLive(s.customers, business, phone.value);
      assert k < |s.customers| ==> LiveWith(s.customers[k], business, phone.value);
      forall i | 0 <= i < |s.customers| && k == |s.customers| ensures !LiveWith(s.customers[i], business, phone.value) {
      }
    }
  }

  lemma ClashIsTaken(customers: seq<Customer>, id: nat, business: nat, phone: string)
    requires phone != ""
    ensures Clash(customers, id, business, phone) <==> PhoneTaken(customers, business, Some(phone), id)
  {
    if Clash(customers, id, business, phone) {
      var i :| 0 <= i < |customers| && i != id && LiveWith(customers[i], business, phone);
      assert customers[i].phone == Some(phone);
    }
    if PhoneTaken(customers, business, Some(phone), id) {
      var i :| 0 <= i < |customers| && i != id && customers[i].business == business
               && customers[i].phone == Some(phone) && !customers[i].deleted;
      assert LiveWith(customers[i], business, phone);
    }
  }

  /**
   * Update answers not-found for a customer that is missing, deleted or of another business,
   * refuses a phone that another live customer of the business has, and else stores the phone
   * if the payload has one; everything else stays.
   */
  lemma UpdateAnswers(s: State, id: nat, business: nat, phone: Option<Option<string>>)
    ensures var r := Updated(s, id, business, phone);
            var mine := id < |s.customers| && s.customers[id].business == business && !s.customers[id].deleted;
            && (!mine ==> r == Reply(s, Some(NotFound)))
            && (mine && phone == None ==> r == Reply(s, None))
            && (mine && phone.Some? ==>
                  r == if PhoneTaken(s.customers, business, phone.value, id) then Reply(s, Some(Conflict))
                       else Reply(s.(customers := s.customers[id := Customer(business, phone.value, false)]), None))
  {
    if phone.Some? && HasPhone(phone.value) {
      ClashIsTaken(s.customers, id, business, phone.value.value);
    }
  }

  /**
   * Soft delete answers not-found for a customer that is missing, deleted or of another
   * business, refuses one with an open sale, even a free one, and else marks it deleted.
   */
  lemma SoftDeleteAnswers(s: State, id: nat, business: nat)
    ensures var r := SoftDeleted(s, id, business);
            var mine := id < |s.customers| && s.customers[id].business == business && !s.customers[id].deleted;
            var open := exists i :: 0 <= i < |s.sales| && OpenFor(s.sales[i], id);
            && (!mine ==> r == Reply(s, Some(NotFound)))
            && (mine && open ==> r == Reply(s, Some(Conflict)))
            && (mine && !open ==>
                  r == Reply(s.(customers := s.customers[id := s.customers[id].(deleted := true)]), None))
  {
    CountIsZeroIff(s.sales, id);
    if OpenCount(s.sales, id) == 0 {
      NothingOpenNothingOwed(s.sales, id);
    }
  }

  // ---------- invariants ----------

  /** Live customers of one business never share a stored phone. */
  ghost predicate PhonesUnique(customers: seq<Customer>) {
    forall i, j :: 0 <= i < j < |customers| && !customers[i].deleted && !customers[j].deleted
                   && customers[i].business == customers[j].business && HasPhone(customers[i].phone) ==>
                     customers[i].phone != customers[j].phone
  }

  /** Every sale's customer exists and belongs to the sale's business. */
  ghost predicate CustomersExist(sales: seq<Option<Sale>>, customers: seq<Customer>) {
    forall i :: 0 <= i < |sales| && sales[i].Some? && sales[i].value.customer.Some? ==>
                  sales[i].value.customer.value < |customers|
                  && customers[sales[i].value.customer.value].business == sales[i].value.business
  }

  /** No soft-deleted customer has an open sale. */
  ghost predicate DeletedHaveNoOpenSale(sales: seq<Option<Sale>>, customers: seq<Customer>) {
    forall c, i :: 0 <= c < |customers| && customers[c].deleted && 0 <= i < |sales| ==> !OpenFor(sales[i], c)
  }

  ghost predicate CustomersOk(s: State) {
    && PhonesUnique(s.customers)
    && CustomersExist(s.sales, s.customers)
    && DeletedHaveNoOpenSale(s.sales, s.customers)
  }

  lemma CreateKeepsCustomers(s: State, business: nat, phone: Option<string>)
    requires CustomersOk(s)
    ensures CustomersOk(Created(s, business, phone).state)
  {
  }

  lemma UpdateKeepsCustomers(s: State, id: nat, business: nat, phone: Option<Option<string>>)
    requires CustomersOk(s)
    ensures CustomersOk(Updated(s, id, business, phone).state)
  {
    var t := Updated(s, id, business, phone).state;
    if t != s && HasPhone(phone.value) {
      forall i | 0 <= i < |s.customers| && i != id ensures !LiveWith(s.customers[i], business, phone.value.value) {
      }
    }
  }

  lemma SoftDeleteKeepsCustomers(s: State, id: nat, business: nat)
    requires CustomersOk(s)
    ensures CustomersOk(SoftDeleted(s, id, business).state)
  {
    CountIsZeroIff(s.sales, id);
  }
}
