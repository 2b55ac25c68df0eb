/** What staging charges and refuses, in terms of prices, quantities, discount and fees alone. */
module Staging {
  import opened Common
  import opened Tables
  import opened Money
  import opened Payments
  import opened Stock
  import opened Materials
  import opened Store
  import opened Machine
  import opened AnyRun

  function Sum(amounts: seq<real>): real {
    if |amounts| == 0 then 0.0 else Sum(amounts[..|amounts| - 1]) + amounts[|amounts| - 1]
  }

  /** One amount for each cart item: price times quantity. */
  ghost predicate Amounts(products: map<nat, Product>, cart: seq<CartItem>, amounts: seq<real>) {
    && |amounts| == |cart|
    && forall i :: 0 <= i < |cart| ==>
                     cart[i].product in products && amounts[i] == products[cart[i].product].price * cart[i].quantity
  }

  /** One amount for each fee: its own when it is positive and described, nothing otherwise. */
  ghost predicate Charges(fees: seq<Fee>, charges: seq<real>) {
    && |charges| == |fees|
    && forall i :: 0 <= i < |fees| ==>
                     charges[i] == if fees[i].amount > 0.0 && fees[i].description != "" then fees[i].amount else 0.0
  }

  lemma {:induction false} GrossIsSum(products: map<nat, Product>, cart: seq<CartItem>, amounts: seq<real>)
    requires Amounts(products, cart, amounts)
    ensures CartGross(products, cart) == Sum(amounts)
  {
    if |cart| != 0 {
      var n := |cart| - 1;
      GrossIsSum(products, cart[..n], amounts[..n]);
      assert cart[n].product in products;
    }
  }

  lemma {:induction false} FeesAreSum(fees: seq<Fee>, charges: seq<real>)
    requires Charges(fees, charges)
    ensures FeeTotal(fees) == Sum(charges)
  {
    if |fees| != 0 {
      FeesAreSum(fees[..|fees| - 1], charges[..|charges| - 1]);
    }
  }

  lemma ZeroCents()
    ensures ToCents(0.0) == 0 && Amount(0) == 0.0
  {
    assert RoundHalfEven(0.0) == 0;
  }

  lemma NoTax(subtotal: real)
    ensures Tax(subtotal, 0.0) == 0.0
  {
  }

  /**
   * A staged sale is charged the sum of price times quantity, less the discount but never below
   * zero, plus the usable fees rounded once, all rounded to cents. It lists the cart in order
   * with nothing refunded, and is pending, unpaid, without customer or document. Nothing else
   * in the database changes.
   */
  lemma StagedSaleIs(
    s: State, b: nat, cart: seq<CartItem>, discount: real, fees: seq<Fee>, amounts: seq<real>, charges: seq<real>)
    requires Initialized(s, b, cart, discount, fees).error == None
    requires Amounts(s.products, cart, amounts) && Charges(fees, charges)
    ensures var r := Initialized(s, b, cart, discount, fees).state;
            && |r.sales| == |s.sales| + 1 && r == s.(sales := r.sales) && r.sales[..|s.sales|] == s.sales
            && r.sales[|s.sales|].Some?
            && (var sale := r.sales[|s.sales|].value;
                && sale.business == b && sale.status == PENDING_PAYMENT && sale.payments == []
                && sale.customer == None && sale.document == None && sale.amountPaid == 0 && sale.balanceDue == 0
                && |sale.lines| == |cart|
                && (forall i :: 0 <= i < |cart| ==> sale.lines[i] == Line(cart[i].product, cart[i].quantity, 0.0))
                && sale.total == ToCents((if Sum(amounts) > discount then Sum(amounts) - discount else 0.0)
                                         + ToCents(Sum(charges)) as real / 100.0))
  {
    TotalIsSums(s.products, cart, discount, fees, amounts, charges);
    hide ToCents, CartGross, FeeTotal, Sum, CartError, SaleTotal, Amounts, Charges;
  }

  lemma TotalIsSums(
    products: map<nat, Product>, cart: seq<CartItem>, discount: real, fees: seq<Fee>,
    amounts: seq<real>, charges: seq<real>)
    requires Amounts(products, cart, amounts) && Charges(fees, charges)
    ensures SaleTotal(CartGross(products, cart), discount, 0.0, fees) ==
            ToCents((if Sum(amounts) > discount then Sum(amounts) - discount else 0.0)
                    + ToCents(Sum(charges)) as real / 100.0)
  {
    GrossIsSum(products, cart, amounts);
    FeesAreSum(fees, charges);
    ZeroCents();
    hide ToCents, CartGross, FeeTotal, Sum, Amounts, Charges;
    NoTax(MaxReal(0.0, CartGross(products, cart) - discount));
    hide Tax;
    assert Amount(ToCents(FeeTotal(fees))) == ToCents(Sum(charges)) as real / 100.0;
  }

  /** One item without fees: price times quantity less the discount, or nothing if that is larger. */
  lemma OneItemTotal(s: State, b: nat, p: nat, q: real, discount: real)
    requires p in s.products && Initialized(s, b, [CartItem(p, q)], discount, []).error == None
    ensures var r := Initialized(s, b, [CartItem(p, q)], discount, []).state;
            && |r.sales| == |s.sales| + 1 && r.sales[|s.sales|].Some?
            && r.sales[|s.sales|].value.total ==
               (if s.products[p].price * q > discount then ToCents(s.products[p].price * q - discount) else 0)
  {
    var gross := s.products[p].price * q;
    assert [gross][..0] == [] && Sum([gross]) == gross;
    assert Sum([]) == 0.0;
    hide ToCents, Initialized, Sum;
    ZeroCents();
    StagedSaleIs(s, b, [CartItem(p, q)], discount, [], [gross], []);
  }

  lemma SumAppend(amounts: seq<real>, x: real)
    ensures Sum(amounts + [x]) == Sum(amounts) + x
  {
    assert (amounts + [x])[..|amounts|] == amounts;
  }

  lemma {:induction false} SumConcat(a: seq<real>, b: seq<real>)
    ensures Sum(a + b) == Sum(a) + Sum(b)
  {
    if b == [] {
      assert a + b == a;
    } else {
      assert (a + b)[..|a + b| - 1] == a + b[..|b| - 1];
      SumConcat(a, b[..|b| - 1]);
    }
  }

  // ---------- the order of the cart ----------

  function AmountsOf(products: map<nat, Product>, cart: seq<CartItem>): (amounts: seq<real>)
    requires forall i :: 0 <= i < |cart| ==> cart[i].product in products
    ensures Amounts(products, cart, amounts)
  {
    seq(|cart|, i requires 0 <= i < |cart| => products[cart[i].product].price * cart[i].quantity)
  }

  function ChargesOf(fees: seq<Fee>): (charges: seq<real>)
    ensures Charges(fees, charges)
  {
    seq(|fees|, i requires 0 <= i < |fees| =>
      if fees[i].amount > 0.0 && fees[i].description != "" then fees[i].amount else 0.0)
  }

  lemma {:induction false} GrossConcat(products: map<nat, Product>, a: seq<CartItem>, b: seq<CartItem>)
    ensures CartGross(products, a + b) == CartGross(products, a) + CartGross(products, b)
  {
    hide ItemAmount;
    if b == [] {
      assert a + b == a;
    } else {
      assert (a + b)[..|a + b| - 1] == a + b[..|b| - 1];
      GrossConcat(products, a, b[..|b| - 1]);
    }
  }

  lemma {:induction false} GrossIgnoresOrder(products: map<nat, Product>, a: seq<CartItem>, b: seq<CartItem>)
    requires multiset(a) == multiset(b)
    ensures CartGross(products, a) == CartGross(products, b)
  {
    hide ItemAmount;
    if |a| == 0 {
      assert |multiset(b)| == 0;
    } else {
      var n := |a| - 1;
      var _, left, right := TakeOut(a, b);
      GrossIgnoresOrder(products, a[..n], left + right);
      assert a == a[..n] + [a[n]];
      GrossConcat(products, a[..n], [a[n]]);
      GrossConcat(products, left + [a[n]], right);
      GrossConcat(products, left, [a[n]]);
      GrossConcat(products, left, right);
    }
  }

  /** The same cart in another order is accepted just as well, and charged the same. */
  lemma CartOrderDoesNotMatter(
    s: State, b: nat, a: seq<CartItem>, c: seq<CartItem>, discount: real, fees: seq<Fee>)
    requires multiset(a) == multiset(c)
    ensures var r, r' := Initialized(s, b, a, discount, fees), Initialized(s, b, c, discount, fees);
            && (r.error == None <==> r'.error == None)
            && (r.error == None ==>
                  && |r.state.sales| == |r'.state.sales| == |s.sales| + 1
                  && r.state.sales[|s.sales|].Some? && r'.state.sales[|s.sales|].Some?
                  && r.state.sales[|s.sales|].value.total == r'.state.sales[|s.sales|].value.total)
  {
    StagingIff(s, b, a);
    StagingIff(s, b, c);
    hide ItemError, CartError, CartGross, SaleTotal;
    SameItems(a, c);
    SameItems(c, a);
    GrossIgnoresOrder(s.products, a, c);
  }

  lemma SameItems(a: seq<CartItem>, b: seq<CartItem>)
    requires multiset(a) == multiset(b)
    ensures forall i :: 0 <= i < |a| ==> a[i] in b
  {
    forall i | 0 <= i < |a| ensures a[i] in b {
      assert a[i] in multiset(a);
      assert a[i] in multiset(b);
    }
  }

  // ---------- fees ----------

  /** A further fee is charged, and stored as its own rounded line, exactly when it is positive and described. */
  lemma OneMoreFee(fees: seq<Fee>, f: Fee)
    ensures FeeTotal(fees + [f]) == FeeTotal(fees) + if f.amount > 0.0 && f.description != "" then f.amount else 0.0
    ensures StoredFees(fees + [f]) ==
            StoredFees(fees) + if f.amount > 0.0 && f.description != "" then [ToCents(f.amount)] else []
    ensures FeeTotal([]) == 0.0 && StoredFees([]) == []
  {
    hide ToCents;
    assert (fees + [f])[..|fees|] == fees;
  }

  /** The older single fee counts only when the list is empty. */
  lemma LegacyFeeIff(services: seq<Fee>, legacy: Fee)
    ensures FeePayload(services, None) == services
    ensures FeePayload([], Some(legacy)) == [legacy]
    ensures services != [] ==> FeePayload(services, Some(legacy)) == services
  {
  }

  // ---------- refusals ----------

  /** A cart is accepted exactly when each of its items is, on its own. */
  lemma {:induction false} StagingIff(s: State, business: nat, cart: seq<CartItem>)
    ensures CartError(s, business, cart) == None <==>
            forall i :: 0 <= i < |cart| ==> ItemError(s, business, cart[i]) == None
  {
    hide ItemError;
    if |cart| != 0 {
      var n := |cart| - 1;
      StagingIff(s, business, cart[..n]);
      assert forall i :: 0 <= i < n ==> cart[..n][i] == cart[i];
    }
  }

  /** The answer to a cart is that of its first refused item. */
  lemma FirstRefusalAnswers(
    s: State, b: nat, cart: seq<CartItem>, i: nat, discount: real, fees: seq<Fee>)
    requires i < |cart| && ItemError(s, b, cart[i]) != None
    requires forall j :: 0 <= j < i ==> ItemError(s, b, cart[j]) == None
    ensures Initialized(s, b, cart, discount, fees) == Reply(s, ItemError(s, b, cart[i]))
  {
    hide ItemError, SaleTotal;
    StagingIff(s, b, cart[..i]);
    CartPrefix(s, b, cart, i);
    CartErrorPersists(s, b, cart, i + 1);
  }

  /** Every tracked material of the live recipe is there for `q` units of the service. */
  ghost predicate MaterialsThere(s: State, service: nat, q: real) {
    forall k :: 0 <= k < |s.materials| && s.materials[k].service == service && !s.materials[k].deleted
                && s.materials[k].material in s.products && s.products[s.materials[k].material].trackStock ==>
                  s.materials[k].quantity * q <= LevelOf(s.ledger, s.materials[k].material)
  }

  /** The row is live, its material is tracked, and there is too little of it. */
  predicate RowShort(s: State, r: MaterialRow, service: nat, q: real) {
    && r.service == service && !r.deleted
    && r.material in s.products && s.products[r.material].trackStock
    && r.quantity * q > LevelOf(s.ledger, r.material)
  }

  ghost predicate AnyRowShort(s: State, rows: seq<MaterialRow>, service: nat, q: real) {
    exists k :: 0 <= k < |rows| && RowShort(s, rows[k], service, q)
  }

  lemma {:induction false} MaterialsShortIff(s: State, rows: seq<MaterialRow>, service: nat, q: real)
    ensures Short(s.ledger, MaterialDraws(s.products, ListMaterials(rows, service), q)) <==>
            AnyRowShort(s, rows, service, q)
  {
    hide LevelOf;
    if |rows| != 0 {
      var n := |rows| - 1;
      var r := rows[n];
      MaterialsShortIff(s, rows[..n], service, q);
      var earlier := ListMaterials(rows[..n], service);
      if r.service == service && !r.deleted {
        assert (earlier + [r])[..|earlier|] == earlier;
        ShortAppend(s.ledger, MaterialDraws(s.products, earlier, q), TrackedDraw(s.products, r.material, Need(r, q)));
        OneDrawShortIff(s, r, q);
      } else {
        assert earlier + [] == earlier;
      }
      ShorterTable(s, rows, service, q);
    }
  }

  lemma ShorterTable(s: State, rows: seq<MaterialRow>, service: nat, q: real)
    requires |rows| != 0
    ensures AnyRowShort(s, rows, service, q) <==>
            AnyRowShort(s, rows[..|rows| - 1], service, q) || RowShort(s, rows[|rows| - 1], service, q)
  {
    hide RowShort;
    var n := |rows| - 1;
    if k :| 0 <= k < |rows| && RowShort(s, rows[k], service, q) {
      if k < n {
        assert rows[..n][k] == rows[k];
      }
    }
    if AnyRowShort(s, rows[..n], service, q) {
      var k :| 0 <= k < n && RowShort(s, rows[..n][k], service, q);
      assert rows[k] == rows[..n][k];
    }
  }

  lemma OneDrawShortIff(s: State, r: MaterialRow, q: real)
    ensures Short(s.ledger, TrackedDraw(s.products, r.material, Need(r, q))) <==>
            r.material in s.products && s.products[r.material].trackStock
            && r.quantity * q > LevelOf(s.ledger, r.material)
  {
    hide LevelOf;
    var draws := TrackedDraw(s.products, r.material, Need(r, q));
    if draws != [] && Need(r, q) > LevelOf(s.ledger, r.material) {
      assert LevelOf(s.ledger, draws[0].product) < draws[0].qty;
    }
  }

  /**
   * One cart item is accepted exactly when its product is there, live, active and of the
   * business, the quantity is positive, and stock is there: of a tracked product itself, of
   * every tracked material of a service. Each missing condition has its own answer.
   */
  lemma ItemAnswers(s: State, b: nat, p: nat, q: real)
    ensures var e := ItemError(s, b, CartItem(p, q));
            && (p !in s.products <==> e == Some(NotFound))
            && (p in s.products ==>
                var x := s.products[p];
                var there := if x.itemType == SERVICE then MaterialsThere(s, p, q)
                             else x.trackStock ==> q <= LevelOf(s.ledger, p);
                && (e == None <==> !x.deleted && x.active && x.business == b && q > 0.0 && there)
                && (x.deleted || !x.active ==> e == Some(Conflict))
                && (!x.deleted && x.active && x.business != b ==> e == Some(Forbidden))
                && (!x.deleted && x.active && x.business == b && q <= 0.0 ==> e == Some(Unprocessable))
                && (!x.deleted && x.active && x.business == b && q > 0.0 && !there ==> e == Some(Conflict)))
  {
    hide LevelOf;
    MaterialsShortIff(s, s.materials, p, q);
    if p in s.products && s.products[p].itemType == PRODUCT && s.products[p].trackStock {
      if LevelOf(s.ledger, p) < q {
        assert LevelOf(s.ledger, [Draw(p, q)][0].product) < [Draw(p, q)][0].qty;
      }
    }
  }
}
