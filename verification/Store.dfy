/**
 * Checkout: staging a sale, finalising it, collecting credit, cancelling and voiding.
 * Each operation has a function that says what it does to the whole database, with the sale's
 * stock handled as one list of draws, and a method that does it line by line.
 */
module Store {
  import opened Common
  import opened Tables
  import opened Money
  import opened Payments
  import opened Stock
  import opened Materials
  import opened Customers
  import opened Outbox

  // ---------- staging ----------

  datatype CartItem = CartItem(product: nat, quantity: real)

  /** A fee line that is not stock; the description is stored trimmed. */
  datatype Fee = Fee(amount: real, description: string)

  predicate Kept(f: Fee) {
    f.amount > 0.0 && f.description != ""
  }

  function FeeTotal(fees: seq<Fee>): real {
    if |fees| == 0 then 0.0
    else FeeTotal(fees[..|fees| - 1]) + if Kept(fees[|fees| - 1]) then fees[|fees| - 1].amount else 0.0
  }

  /** The stored fee lines, each rounded on its own. */
  function StoredFees(fees: seq<Fee>): seq<int> {
    if |fees| == 0 then []
    else
      var earlier, f := StoredFees(fees[..|fees| - 1]), fees[|fees| - 1];
      if Kept(f) then earlier + [ToCents(f.amount)] else earlier
  }

  function SumInts(s: seq<int>): int {
    if |s| == 0 then 0 else SumInts(s[..|s| - 1]) + s[|s| - 1]
  }

  function MaxReal(a: real, b: real): real {
    if a < b then b else a
  }

  /** The sale total in cents; tax is rounded first, then the service total, then the sum. */
  function SaleTotal(gross: real, discount: real, taxRate: real, fees: seq<Fee>): int {
    var subtotal := MaxReal(0.0, gross - discount);
    RoundedTotal(subtotal, Tax(subtotal, taxRate), FeeTotal(fees))
  }

  function Tax(subtotal: real, rate: real): real {
    subtotal * rate
  }

  function RoundedTotal(subtotal: real, tax: real, fees: real): int {
    ToCents(subtotal + Amount(ToCents(tax)) + Amount(ToCents(fees)))
  }

  function ItemAmount(p: Product, quantity: real): real {
    p.price * quantity
  }

  function CartGross(products: map<nat, Product>, cart: seq<CartItem>): real {
    if |cart| == 0 then 0.0
    else
      var item := cart[|cart| - 1];
      CartGross(products, cart[..|cart| - 1])
      + if item.product in products then ItemAmount(products[item.product], item.quantity) else 0.0
  }

  /** Why one cart item is refused, if it is. The stock test looks at this item alone. */
  function ItemError(s: State, business: nat, item: CartItem): Option<Error> {
    if item.product !in s.products then Some(NotFound)
    else
      var p := s.products[item.product];
      if p.deleted then Some(Conflict)
      else if !p.active then Some(Conflict)
      else if p.business != business then Some(Forbidden)
      else if item.quantity <= 0.0 then Some(Unprocessable)
      else if Short(s.ledger, LineDraws(s.products, s.materials, item.product, item.quantity)) then Some(Conflict)
      else None
  }

  /** The first refusal, in cart order. */
  function CartError(s: State, business: nat, cart: seq<CartItem>): Option<Error> {
    if |cart| == 0 then None
    else match CartError(s, business, cart[..|cart| - 1])
      case Some(e) => Some(e)
      case None => ItemError(s, business, cart[|cart| - 1])
  }

  function CartLines(cart: seq<CartItem>): (lines: seq<Line>)
    ensures |lines| == |cart|
  {
    seq(|cart|, i requires 0 <= i < |cart| => Line(cart[i].product, cart[i].quantity, 0.0))
  }

  function Staged(business: nat, total: int, cart: seq<CartItem>): Sale {
    Sale(business, None, PENDING_PAYMENT, total, CartLines(cart), [], 0, 0, None)
  }

  /** Stage a sale. The tax rate is zero while the tax feature is off. */
  function Initialized(s: State, business: nat, cart: seq<CartItem>, discount: real, fees: seq<Fee>): Reply {
    match CartError(s, business, cart)
    case Some(e) => Reply(s, Some(e))
    case None =>
      var total := SaleTotal(CartGross(s.products, cart), discount, 0.0, fees);
      Reply(s.(sales := s.sales + [Some(Staged(business, total, cart))]), None)
  }

  /** The fee lines of a payload: the list, or the older single service when the list is empty. */
  function FeePayload(services: seq<Fee>, legacy: Option<Fee>): seq<Fee> {
    if legacy.Some? && services == [] then [legacy.value] else services
  }

  method InitializeCheckout(
    db: Database, business: nat, cart: seq<CartItem>, discount: real, services: seq<Fee>, legacy: Option<Fee>)
    returns (error: Option<Error>)
    modifies db`sales
    ensures Reply(db.Now(), error) ==
            Initialized(old(db.Now()), business, cart, discount, FeePayload(services, legacy))
  {
    hide ToCents, Amount;
    ghost var s := db.Now();
    var failure, lines, gross := ScanCart(db, business, cart);
    if failure.Some? {
      return failure;
    }
    var taxRate := 0.0;
    var subtotal := MaxReal(0.0, gross - discount);
    var taxAmount := ToCents(Tax(subtotal, taxRate));
    var payload := services;
    if legacy.Some? && |services| == 0 {
      payload := [legacy.value];
    }
    var serviceTotal := ScanFees(payload);
    var total := ToCents(subtotal + Amount(taxAmount) + Amount(serviceTotal));
    db.sales := db.sales + [Some(Sale(business, None, PENDING_PAYMENT, total, lines, [], 0, 0, None))];
    return None;
  }

  /** The item loop: refuse the first bad item, otherwise build the lines and the running subtotal. */
  method ScanCart(db: Database, business: nat, cart: seq<CartItem>)
    returns (failure: Option<Error>, lines: seq<Line>, gross: real)
    ensures failure == CartError(db.Now(), business, cart)
    ensures failure.None? ==> lines == CartLines(cart) && gross == CartGross(db.products, cart)
  {
    failure, lines, gross := None, [], 0.0;
    for i := 0 to |cart|
      invariant failure.None? && CartError(db.Now(), business, cart[..i]).None?
      invariant lines == CartLines(cart[..i])
      invariant gross == CartGross(db.products, cart[..i])
    {
      var item := cart[i];
      CartPrefix(db.Now(), business, cart, i);
      failure := CheckItem(db, business, item);
      if failure.Some? {
        CartErrorPersists(db.Now(), business, cart, i + 1);
        return;
      }
      gross := gross + ItemAmount(db.products[item.product], item.quantity);
      lines := lines + [Line(item.product, item.quantity, 0.0)];
    }
    assert cart[..|cart|] == cart;
  }

  /** The fee loop: blank and non-positive lines are skipped, the sum is rounded once. */
  method ScanFees(fees: seq<Fee>) returns (serviceTotal: int)
    ensures serviceTotal == ToCents(FeeTotal(fees))
  {
    var sum := 0.0;
    for i := 0 to |fees|
      invariant sum == FeeTotal(fees[..i])
    {
      assert fees[..i + 1][..i] == fees[..i];
      if Kept(fees[i]) {
        sum := sum + fees[i].amount;
      }
    }
    assert fees[..|fees|] == fees;
    return ToCents(sum);
  }

  method CheckItem(db: Database, business: nat, item: CartItem) returns (error: Option<Error>)
    ensures error == ItemError(db.Now(), business, item)
  {
    if item.product !in db.products {
      return Some(NotFound);
    }
    var p := db.products[item.product];
    if p.deleted || !p.active {
      return Some(Conflict);
    }
    if p.business != business {
      return Some(Forbidden);
    }
    if item.quantity <= 0.0 {
      return Some(Unprocessable);
    }
    if p.itemType == SERVICE {
      var ok := CheckMaterialStock(db, item.product, item.quantity);
      return if ok then None else Some(Conflict);
    }
    var stock := if item.product in db.level then db.level[item.product] else 0.0;
    if p.trackStock && stock < item.quantity {
      assert LineDraws(db.products, db.materials, item.product, item.quantity)[0] == Draw(item.product, item.quantity);
      return Some(Conflict);
    }
    return None;
  }

  lemma CartPrefix(s: State, business: nat, cart: seq<CartItem>, i: nat)
    requires i < |cart|
    ensures CartError(s, business, cart[..i + 1]) ==
            match CartError(s, business, cart[..i]) case Some(e) => Some(e) case None => ItemError(s, business, cart[i])
    ensures CartGross(s.products, cart[..i + 1]) == CartGross(s.products, cart[..i])
            + if cart[i].product in s.products then ItemAmount(s.products[cart[i].product], cart[i].quantity) else 0.0
    ensures CartLines(cart[..i + 1]) == CartLines(cart[..i]) + [Line(cart[i].product, cart[i].quantity, 0.0)]
  {
    var c := cart[..i + 1];
    assert c[..|c| - 1] == cart[..i] && c[|c| - 1] == cart[i];
  }

  lemma {:induction false} CartErrorPersists(s: State, business: nat, cart: seq<CartItem>, k: nat)
    requires k <= |cart| && CartError(s, business, cart[..k]).Some?
    ensures CartError(s, business, cart) == CartError(s, business, cart[..k])
    decreases |cart| - k
  {
    if k < |cart| {
      CartPrefix(s, business, cart, k);
      CartErrorPersists(s, business, cart, k + 1);
    } else {
      assert cart[..k] == cart;
    }
  }

  /** The total is a non-negative number of cents for every discount and every non-negative tax rate. */
  lemma TotalIsNatural(gross: real, discount: real, taxRate: real, fees: seq<Fee>)
    requires taxRate >= 0.0
    ensures SaleTotal(gross, discount, taxRate, fees) >= 0
  {
    hide ToCents, Amount;
    var subtotal := MaxReal(0.0, gross - discount);
    var rawTax := Tax(subtotal, taxRate);
    ProductNatural(subtotal, taxRate);
    NaturalCents(rawTax);
    FeeTotalNatural(fees);
    NaturalCents(FeeTotal(fees));
    SumNatural(subtotal, ToCents(rawTax), ToCents(FeeTotal(fees)));
  }

  /** `total` is within one and a half cents of subtotal, tax and fees added exactly. */
  predicate Near(subtotal: real, tax: real, fees: real, total: int) {
    -1.5 <= (subtotal + tax + fees) * 100.0 - total as real <= 1.5
  }

  /** Three roundings: the total stays near the exact amount, for every discount and tax rate. */
  lemma TotalNearExact(gross: real, discount: real, taxRate: real, fees: seq<Fee>, subtotal: real, tax: real)
    requires subtotal == if gross > discount then gross - discount else 0.0
    requires tax == subtotal * taxRate
    ensures Near(subtotal, tax, FeeTotal(fees), SaleTotal(gross, discount, taxRate, fees))
  {
    TaxedSubtotal(gross, discount, taxRate, subtotal, tax);
    hide Near, RoundedTotal, FeeTotal, Tax, MaxReal;
    ThreeRoundings(subtotal, tax, FeeTotal(fees));
  }

  lemma TaxedSubtotal(gross: real, discount: real, taxRate: real, subtotal: real, tax: real)
    requires subtotal == if gross > discount then gross - discount else 0.0
    requires tax == subtotal * taxRate
    ensures MaxReal(0.0, gross - discount) == subtotal && Tax(subtotal, taxRate) == tax
  {
  }

  lemma ThreeRoundings(base: real, tax: real, fees: real)
    ensures Near(base, tax, fees, RoundedTotal(base, tax, fees))
  {
    hide ToCents;
    var t, f := ToCents(tax), ToCents(fees);
    CentError(tax);
    CentError(fees);
    CentError(base + Amount(t) + Amount(f));
    assert (base + Amount(t) + Amount(f)) * 100.0 == base * 100.0 + t as real + f as real;
  }

  lemma ProductNatural(a: real, b: real)
    requires a >= 0.0 && b >= 0.0
    ensures a * b >= 0.0
  {
  }

  lemma SumNatural(a: real, b: int, c: int)
    requires a >= 0.0 && b >= 0 && c >= 0
    ensures ToCents(a + Amount(b) + Amount(c)) >= 0
  {
    NaturalCents(a + Amount(b) + Amount(c));
  }

  lemma {:induction false} FeeTotalNatural(fees: seq<Fee>)
    ensures FeeTotal(fees) >= 0.0
  {
    if |fees| != 0 {
      FeeTotalNatural(fees[..|fees| - 1]);
    }
  }

  lemma SumIntsAppend(s: seq<int>, x: int)
    ensures SumInts(s + [x]) == SumInts(s) + x
  {
    assert (s + [x])[..|s|] == s;
  }

  lemma {:induction false} FeeRoundingDrift(fees: seq<Fee>)
    ensures var d := FeeTotal(fees) * 100.0 - SumInts(StoredFees(fees)) as real;
            var half := |StoredFees(fees)| as real / 2.0;
            -half <= d <= half
  {
    hide ToCents;
    if |fees| != 0 {
      var f := fees[|fees| - 1];
      FeeRoundingDrift(fees[..|fees| - 1]);
      if Kept(f) {
        var earlier := StoredFees(fees[..|fees| - 1]);
        SumIntsAppend(earlier, ToCents(f.amount));
        CentError(f.amount);
      }
    }
  }

  /**
   * The charged service total is within half a cent times (n + 1) of the sum of the n stored
   * lines: it rounds the sum once, the lines are rounded one by one.
   */
  lemma ServiceTotalNearStoredLines(fees: seq<Fee>)
    ensures var gap := ToCents(FeeTotal(fees)) - SumInts(StoredFees(fees));
            -(|StoredFees(fees)| + 1) <= 2 * gap <= |StoredFees(fees)| + 1
  {
    FeeRoundingDrift(fees);
    var x := FeeTotal(fees) * 100.0;
    assert -0.5 <= x - RoundHalfEven(x) as real <= 0.5;
  }

  /** When every fee is a whole number of cents the stored lines add up exactly. */
  lemma {:induction false} WholeCentFeesAddUp(fees: seq<Fee>, cents: seq<int>)
    requires |cents| == |fees| && forall i :: 0 <= i < |fees| ==> fees[i].amount == Amount(cents[i])
    ensures FeeTotal(fees) == Amount(SumInts(StoredFees(fees)))
    ensures ToCents(FeeTotal(fees)) == SumInts(StoredFees(fees))
  {
    hide ToCents, Amount;
    assert Amount(0) == 0.0 by { AmountAdds(0, 0); }
    if |fees| != 0 {
      var n := |fees| - 1;
      WholeCentFeesAddUp(fees[..n], cents[..n]);
      if Kept(fees[n]) {
        WholeCents(cents[n]);
        SumIntsAppend(StoredFees(fees[..n]), cents[n]);
        AmountAdds(SumInts(StoredFees(fees[..n])), cents[n]);
      }
    }
    WholeCents(SumInts(StoredFees(fees)));
  }

  // ---------- finalise ----------

  /** What the customer tenders; `reference` is trimmed. */
  datatype Tender = Tender(means: Method, reference: string, given: Option<real>)

  /** Name and phone arrive trimmed. */
  datatype Buyer = Buyer(name: string, phone: string)

  /** A missing amount means paying the amount due in full. */
  function Given(t: Tender, due: real): real {
    if t.given.Some? then t.given.value else due
  }

  predicate TenderRefused(t: Tender, due: real) {
    (t.means == MPESA && t.reference == "") || Given(t, due) <= 0.0
  }

  /** The customer list and the customer of the sale: reused by phone, else created. */
  function WithCustomer(customers: seq<Customer>, business: nat, phone: string): (seq<Customer>, nat) {
    var k := FirstLive(customers, business, phone);
    (if k < |customers| then customers else customers + [Customer(business, Some(phone), false)], k)
  }

  /** The sale row as finalise leaves it, customer and document aside. */
  function Settled(sale: Sale, t: Tender): Sale {
    if t.means == INVOICE then Synced(sale.(status := PENDING_PAYMENT), sale.payments)
    else WithPayment(sale, ComputePaymentAmounts(Amount(sale.total), Given(t, Amount(sale.total))))
  }

  function FinalSale(s: State, id: nat, t: Tender, buyer: Buyer): Sale
    requires HasSale(s, id)
  {
    var sale := s.sales[id].value;
    Minted(Settled(sale, t)).(customer := Some(WithCustomer(s.customers, sale.business, buyer.phone).1))
  }

  function Finalized(s: State, id: nat, t: Tender, buyer: Buyer): Reply {
    if !HasSale(s, id) then Reply(s, Some(NotFound))
    else
      var sale := s.sales[id].value;
      if sale.status == COMPLETED || sale.document.Some? then Reply(s, Some(Conflict))
      else if buyer.name == "" || buyer.phone == "" then Reply(s, Some(BadRequest))
      else if t.means != INVOICE && TenderRefused(t, Amount(sale.total)) then Reply(s, Some(BadRequest))
      else match Deduct(s.ledger, Draws(s.products, s.materials, sale.lines), id)
        case None => Reply(s, Some(Conflict))
        case Some(l) =>
          var final := FinalSale(s, id, t, buyer);
          Reply(s.(ledger := l,
                   sales := s.sales[id := Some(final)],
                   customers := WithCustomer(s.customers, sale.business, buyer.phone).0,
                   queue := if final.status == COMPLETED then Enqueued(s.queue, id) else s.queue),
                None)
  }

  /** Facts about the stored rows that every step keeps and the sale steps rely on. */
  ghost predicate RowsOk(s: State) {
    && NonNegative(s.ledger)
    && PositiveQuantities(s.materials)
    && forall i :: 0 <= i < |s.sales| && s.sales[i].Some? ==> PositiveLines(s.sales[i].value.lines)
  }

  ghost predicate PositiveLines(lines: seq<Line>) {
    forall i :: 0 <= i < |lines| ==> lines[i].quantity > 0.0
  }

  /** The stock part of finalise: lines in order, services through their materials. */
  method DeductLines(db: Database, lines: seq<Line>, sale: nat) returns (ok: bool)
    requires PositiveQuantities(db.materials) && PositiveLines(lines)
    modifies db`level, db`log
    ensures var after := Deduct(old(db.Shelf()), Draws(db.products, db.materials, lines), sale);
            && ok == after.Some?
            && (ok ==> db.Shelf() == after.value)
  {
    ghost var l := db.Shelf();
    for i := 0 to |lines|
      invariant Deduct(l, Draws(db.products, db.materials, lines[..i]), sale) == Some(db.Shelf())
    {
      var x := lines[i];
      LineStep(db.products, db.materials, lines, i);
      DeductAppend(l, Draws(db.products, db.materials, lines[..i]),
                   LineDraws(db.products, db.materials, x.product, x.quantity), sale);
      if x.product in db.products {
        var taken;
        if db.products[x.product].itemType == SERVICE {
          taken := DeductMaterialsForSale(db, x.product, x.quantity, sale);
        } else {
          taken := ApplySaleItemDeduction(db, x.product, x.quantity, sale);
        }
        if !taken {
          LineFailurePersists(db.products, db.materials, lines, i + 1, l, sale);
          return false;
        }
      }
    }
    assert lines[..|lines|] == lines;
    return true;
  }

  lemma LineStep(products: map<nat, Product>, rows: seq<MaterialRow>, lines: seq<Line>, i: nat)
    requires i < |lines|
    ensures Draws(products, rows, lines[..i + 1]) ==
            Draws(products, rows, lines[..i]) + LineDraws(products, rows, lines[i].product, lines[i].quantity)
    ensures OutstandingDraws(products, rows, lines[..i + 1]) ==
            OutstandingDraws(products, rows, lines[..i]) + LineOutstanding(products, rows, lines[i])
  {
    var x := lines[..i + 1];
    assert x[..|x| - 1] == lines[..i] && x[|x| - 1] == lines[i];
  }

  lemma {:induction false} LineFailurePersists(
    products: map<nat, Product>, rows: seq<MaterialRow>, lines: seq<Line>, k: nat, l: Ledger, sale: nat)
    requires k <= |lines| && Deduct(l, Draws(products, rows, lines[..k]), sale).None?
    ensures Deduct(l, Draws(products, rows, lines), sale).None?
    decreases |lines| - k
  {
    if k < |lines| {
      LineStep(products, rows, lines, k);
      DeductAppend(l, Draws(products, rows, lines[..k]),
                   LineDraws(products, rows, lines[k].product, lines[k].quantity), sale);
      LineFailurePersists(products, rows, lines, k + 1, l, sale);
    } else {
      assert lines[..k] == lines;
    }
  }

  /** Payment row, status and first synchronisation of the money columns. */
  method SettlePayment(db: Database, id: nat, t: Tender) returns (ok: bool)
    requires HasSale(db.Now(), id)
    modifies db`sales
    ensures var sale := old(db.sales)[id].value;
            && ok == !(t.means != INVOICE && TenderRefused(t, Amount(sale.total)))
            && (ok ==> |db.sales| == |old(db.sales)| && db.sales[id].Some?
                       && db.sales == old(db.sales)[id := db.sales[id]]
                       && Synced(db.sales[id].value, db.sales[id].value.payments) == Settled(sale, t))
  {
    var sale := db.sales[id].value;
    if t.means == INVOICE {
      db.sales := db.sales[id := Some(sale.(status := PENDING_PAYMENT))];
      SyncSalePaymentColumns(db, id, []);
      return true;
    }
    var given := if t.given.Some? then t.given.value else Amount(sale.total);
    if t.means == MPESA && t.reference == "" {
      return false;
    }
    if given <= 0.0 {
      return false;
    }
    var p := ComputePaymentAmounts(Amount(sale.total), given);
    var status := ResolveStatus(p.dueBefore, p.amount);
    db.sales := db.sales[id := Some(sale.(payments := sale.payments + [p], status := status))];
    SyncSalePaymentColumns(db, id, [p]);
    return true;
  }

  /**
   * Create the sale's document if it has none, then set its paid amount from the payment rows;
   * a new document starts with nothing paid on an open sale and with the total otherwise.
   */
  method MintDocument(db: Database, id: nat)
    requires HasSale(db.Now(), id)
    modifies db`sales
    ensures db.sales == old(db.sales)[id := Some(Minted(old(db.sales)[id].value))]
  {
    var sale := db.sales[id].value;
    if sale.document.None? {
      sale := sale.(document := Some(if IsOpen(sale.status) then 0 else sale.total));
    }
    var totalPaid := SumOfPayments(sale.payments);
    sale := sale.(document := Some(totalPaid));
    db.sales := db.sales[id := Some(sale)];
  }

  /**
   * Finalise a staged sale: payment and status, customer, stock, outbox row, document, all or
   * nothing. On any failure the transaction is rolled back.
   */
  method FinalizeCheckout(db: Database, id: nat, t: Tender, buyer: Buyer) returns (error: Option<Error>)
    requires RowsOk(db.Now())
    modifies db
    ensures Reply(db.Now(), error) == Finalized(old(db.Now()), id, t, buyer)
  {
    hide Settled, TenderRefused, Synced, Deduct, Draws, Enqueued, FirstLive;
    var before := db.Now();
    if !HasSale(before, id) {
      return Some(NotFound);
    }
    var sale := db.sales[id].value;
    if sale.status == COMPLETED {
      return Some(Conflict);
    }
    if sale.document.Some? {
      return Some(Conflict);
    }
    if buyer.name == "" || buyer.phone == "" {
      return Some(BadRequest);
    }
    var ok := SettlePayment(db, id, t);
    if !ok {
      db.Rollback(before);
      return Some(BadRequest);
    }
    var settled := db.sales[id].value;
    var c := FirstLive(db.customers, sale.business, buyer.phone);
    if c == |db.customers| {
      db.customers := db.customers + [Customer(sale.business, Some(buyer.phone), false)];
    }
    ok := DeductLines(db, sale.lines, id);
    if !ok {
      db.Rollback(before);
      return Some(Conflict);
    }
    if settled.status == COMPLETED {
      EnqueueAnalyticsOutbox(db, id);
    }
    // after the commit the columns are recomputed from the stored payment rows
    SyncSalePaymentColumns(db, id, settled.payments);
    db.sales := db.sales[id := Some(db.sales[id].value.(customer := Some(c)))];
    MintDocument(db, id);
    SyncKeeps(settled);
    assert db.sales == before.sales[id := Some(FinalSale(before, id, t, buyer))];
    return None;
  }

  lemma SyncKeeps(sale: Sale)
    ensures Synced(sale, sale.payments).status == sale.status
    ensures Synced(sale, sale.payments).payments == sale.payments
  {
  }

  /** On a sale without payment rows the second synchronisation changes nothing. */
  lemma SecondSyncIsIdle(sale: Sale, p: Payment)
    requires sale.payments == []
    ensures var paid := sale.(payments := sale.payments + [p], status := ResolveStatus(p.dueBefore, p.amount));
            Synced(Synced(paid, [p]), paid.payments) == Synced(paid, [p])
    ensures Synced(Synced(sale, []), sale.payments) == Synced(sale, [])
  {
    assert sale.payments + [p] == [p];
  }

  // ---------- collect ----------

  function Collected(s: State, id: nat, t: Tender): Reply {
    if !HasSale(s, id) then Reply(s, Some(NotFound))
    else
      var sale := s.sales[id].value;
      if !IsOpen(sale.status) then Reply(s, Some(Conflict))
      else if t.means == INVOICE then Reply(s, Some(BadRequest))
      else if t.means == MPESA && t.reference == "" then Reply(s, Some(BadRequest))
      else
        var due := Remaining(sale);
        if Amount(due) <= 0.001 then
          Reply(s.(sales := s.sales[id := Some(sale.(status := COMPLETED))]), Some(Conflict))
        else if Given(t, Amount(due)) <= 0.0 then Reply(s, Some(BadRequest))
        else
          var after := WithPayment(sale, ComputePaymentAmounts(Amount(due), Given(t, Amount(due))));
          Reply(s.(sales := s.sales[id := Some(Minted(after))], queue := Enqueued(s.queue, id)), None)
  }

  /** Take a payment on an open sale. A sale found fully paid is marked COMPLETED before the refusal. */
  method CollectCreditSale(db: Database, id: nat, t: Tender) returns (error: Option<Error>)
    modifies db`sales, db`outbox
    ensures Reply(db.Now(), error) == Collected(old(db.Now()), id, t)
  {
    hide ComputePaymentAmounts, ResolveStatus, Synced, Amount, Enqueued, Paid;
    if !(id < |db.sales| && db.sales[id].Some?) {
      return Some(NotFound);
    }
    var sale := db.sales[id].value;
    if sale.status == COMPLETED {
      return Some(Conflict);
    }
    if sale.status != PENDING_PAYMENT && sale.status != PARTIALLY_PAID {
      return Some(Conflict);
    }
    if t.means == INVOICE {
      return Some(BadRequest);
    }
    if t.means == MPESA && t.reference == "" {
      return Some(BadRequest);
    }
    var alreadyPaid := SumOfPayments(sale.payments);
    var due := Max(0, sale.total - alreadyPaid);
    if Amount(due) <= 0.001 {
      db.sales := db.sales[id := Some(sale.(status := COMPLETED))];
      return Some(Conflict);
    }
    var given := if t.given.Some? then t.given.value else Amount(due);
    if given <= 0.0 {
      return Some(BadRequest);
    }
    var p := ComputePaymentAmounts(Amount(due), given);
    var status := ResolveStatus(p.dueBefore, p.amount);
    db.sales := db.sales[id := Some(sale.(payments := sale.payments + [p], status := status))];
    SyncSalePaymentColumns(db, id, sale.payments + [p]);
    EnqueueAnalyticsOutbox(db, id);
    MintDocument(db, id);
    assert db.sales == old(db.sales)[id := Some(Minted(WithPayment(sale, p)))];
    return None;
  }

  // ---------- cancel ----------

  function Cancelled(s: State, id: nat, business: nat): Reply {
    if !HasSale(s, id) || s.sales[id].value.business != business then Reply(s, Some(NotFound))
    else
      var sale := s.sales[id].value;
      if sale.status != PENDING_PAYMENT || sale.document.Some? || sale.payments != [] then Reply(s, Some(Conflict))
      else Reply(s.(sales := s.sales[id := None]), None)
  }

  method CancelStagedSale(db: Database, id: nat, business: nat) returns (error: Option<Error>)
    modifies db`sales
    ensures Reply(db.Now(), error) == Cancelled(old(db.Now()), id, business)
  {
    if !(id < |db.sales| && db.sales[id].Some?) || db.sales[id].value.business != business {
      return Some(NotFound);
    }
    var sale := db.sales[id].value;
    if sale.status != PENDING_PAYMENT {
      return Some(Conflict);
    }
    if sale.document.Some? {
      return Some(Conflict);
    }
    if |sale.payments| > 0 {
      return Some(Conflict);
    }
    db.sales := db.sales[id := None];
    return None;
  }

  // ---------- void ----------

  predicate Voidable(status: Status) {
    status == COMPLETED || status == PENDING_PAYMENT || status == PARTIALLY_PAID
  }

  /** The line after a void: refunded in full, unless its product is gone. */
  function RefundedLine(products: map<nat, Product>, x: Line): Line {
    if x.quantity - x.refunded > 0.0 && x.product in products then x.(refunded := x.quantity) else x
  }

  function RefundedLines(products: map<nat, Product>, lines: seq<Line>): (r: seq<Line>)
    ensures |r| == |lines|
  {
    seq(|lines|, i requires 0 <= i < |lines| => RefundedLine(products, lines[i]))
  }

  function RefundedSale(products: map<nat, Product>, sale: Sale): Sale {
    sale.(status := REFUNDED, lines := RefundedLines(products, sale.lines))
  }

  /** `rollupFails` says whether the rollup reversal raised; that failure is only logged. */
  function Voided(s: State, id: nat, business: nat, rollupFails: bool): Reply {
    if !HasSale(s, id) || s.sales[id].value.business != business then Reply(s, Some(NotFound))
    else
      var sale := s.sales[id].value;
      if sale.status == REFUNDED then Reply(s, None)
      else if !Voidable(sale.status) then Reply(s, Some(Conflict))
      else
        Reply(s.(ledger := Restore(s.ledger, OutstandingDraws(s.products, s.materials, sale.lines), id),
                 sales := s.sales[id := Some(RefundedSale(s.products, sale))],
                 queue := if sale.status == COMPLETED && !rollupFails then Counted(s.queue, id, -1) else s.queue),
              None)
  }

  lemma RestoreStaysNatural(l: Ledger, draws: seq<Draw>, sale: nat)
    requires Natural(draws) && NonNegative(l)
    ensures NonNegative(Restore(l, draws, sale))
  {
    RestoreFacts(map[], l, draws, sale);
  }

  /** Give back what one line still has out. */
  method RestoreLine(db: Database, x: Line, sale: nat) returns (refunded: Line)
    requires NonNegative(db.Shelf()) && PositiveQuantities(db.materials)
    modifies db`level, db`log
    ensures db.Shelf() == Restore(old(db.Shelf()), LineOutstanding(db.products, db.materials, x), sale)
    ensures NonNegative(db.Shelf())
    ensures refunded == RefundedLine(db.products, x)
  {
    hide NonNegative;
    var qty := x.quantity - x.refunded;
    if qty <= 0.0 {
      return x;
    }
    if x.product !in db.products {
      return x;
    }
    if db.products[x.product].itemType == SERVICE {
      RestoreMaterialsForSale(db, x.product, qty, sale);
    } else {
      RestoreStaysNatural(db.Shelf(), TrackedDraw(db.products, x.product, qty), sale);
      NonNegativeAt(db.Shelf(), x.product);
      var _ := ApplySaleItemRestore(db, x.product, qty, sale);
    }
    return x.(refunded := x.quantity);
  }

  /** Give back what the lines still have out, marking them refunded. */
  method RestoreLines(db: Database, lines: seq<Line>, sale: nat) returns (refunded: seq<Line>)
    requires NonNegative(db.Shelf()) && PositiveQuantities(db.materials)
    modifies db`level, db`log
    ensures db.Shelf() == Restore(old(db.Shelf()), OutstandingDraws(db.products, db.materials, lines), sale)
    ensures refunded == RefundedLines(db.products, lines)
  {
    ghost var l := db.Shelf();
    refunded := lines;
    for i := 0 to |lines|
      invariant db.Shelf() == Restore(l, OutstandingDraws(db.products, db.materials, lines[..i]), sale)
      invariant NonNegative(db.Shelf())
      invariant |refunded| == |lines|
      invariant forall j :: 0 <= j < i ==> refunded[j] == RefundedLine(db.products, lines[j])
      invariant forall j :: i <= j < |lines| ==> refunded[j] == lines[j]
    {
      LineStep(db.products, db.materials, lines, i);
      RestoreAppend(l, OutstandingDraws(db.products, db.materials, lines[..i]),
                    LineOutstanding(db.products, db.materials, lines[i]), sale);
      var line := RestoreLine(db, lines[i], sale);
      refunded := refunded[i := line];
    }
    assert lines[..|lines|] == lines;
  }

  method VoidFinalizedSale(db: Database, id: nat, business: nat, rollupFails: bool) returns (error: Option<Error>)
    requires RowsOk(db.Now())
    modifies db`level, db`log, db`sales, db`tally
    ensures Reply(db.Now(), error) == Voided(old(db.Now()), id, business, rollupFails)
  {
    if !(id < |db.sales| && db.sales[id].Some?) || db.sales[id].value.business != business {
      return Some(NotFound);
    }
    var sale := db.sales[id].value;
    if sale.status == REFUNDED {
      return None;
    }
    if sale.status != COMPLETED && sale.status != PENDING_PAYMENT && sale.status != PARTIALLY_PAID {
      return Some(Conflict);
    }
    var lines := RestoreLines(db, sale.lines, id);
    db.sales := db.sales[id := Some(sale.(status := REFUNDED, lines := lines))];
    if sale.status == COMPLETED && !rollupFails {
      db.tally := db.tally[id := (if id in db.tally then db.tally[id] else 0) - 1];
    }
    return None;
  }
}
