/** What holds across whole runs of the state machine, and exactly when the code falls short. */
module Theorems {
  import opened Common
  import opened Tables
  import opened Money
  import opened Payments
  import opened Stock
  import opened Materials
  import opened Customers
  import opened Outbox
  import opened Store
  import opened Machine
  import opened AnyRun
  import opened Voids
  import opened Staging
  import opened Answers
  import Rollups

  // ---------- every run from an empty till ----------

  lemma RunFromOpening(catalogue: map<nat, Product>, stock: map<nat, real>, ops: seq<Op>)
    requires forall q :: q in stock ==> stock[q] >= 0.0
    requires WellUsedRun(Opening(catalogue, stock), ops)
    ensures Inv(stock, Run(Opening(catalogue, stock), ops))
  {
    FreshStart(catalogue, stock);
    RunKeepsInvariant(stock, Opening(catalogue, stock), ops);
  }

  /**
   * After any well-used run, the payments of a sale never exceed its total and its status says
   * how much is paid; what was tendered is what was settled plus the change; a finalised sale
   * has a customer and up-to-date money columns; a COMPLETED sale with a positive total has
   * its one outbox row.
   */
  lemma RunKeepsMoney(catalogue: map<nat, Product>, stock: map<nat, real>, ops: seq<Op>, id: nat)
    requires forall q :: q in stock ==> stock[q] >= 0.0
    requires WellUsedRun(Opening(catalogue, stock), ops) && HasSale(Run(Opening(catalogue, stock), ops), id)
    ensures var t := Run(Opening(catalogue, stock), ops);
            var sale := t.sales[id].value;
            && MoneyOk(sale)
            && Tendered(sale.payments) == Paid(sale.payments) + Returned(sale.payments)
            && (sale.document.Some? ==>
                ColumnsOk(sale) && sale.document == Some(Paid(sale.payments)) && sale.customer.Some?)
            && OneRowPerSale(t.queue.rows)
            && (sale.status == COMPLETED && sale.total > 0 ==> HasRow(t.queue.rows, id))
  {
    hide Run, WellUsedRun, MoneyOk, ColumnsOk;
    var t := Run(Opening(catalogue, stock), ops);
    RunFromOpening(catalogue, stock, ops);
    TenderIsAccountedFor(stock, t, id);
    assert SaleOk(t.sales[id].value) && QueueOkFor(t, id);
  }

  // ---------- staging against finalising ----------

  function CartDraws(s: State, cart: seq<CartItem>): seq<Draw> {
    Draws(s.products, s.materials, CartLines(cart))
  }

  /** Every cart item taken alone finds its products in stock. */
  ghost predicate EachItemFits(s: State, cart: seq<CartItem>) {
    forall i :: 0 <= i < |cart| ==>
                  !Short(s.ledger, LineDraws(s.products, s.materials, cart[i].product, cart[i].quantity))
  }

  lemma CartDrawsStep(s: State, cart: seq<CartItem>)
    requires |cart| > 0
    ensures CartDraws(s, cart) == CartDraws(s, cart[..|cart| - 1])
            + LineDraws(s.products, s.materials, cart[|cart| - 1].product, cart[|cart| - 1].quantity)
  {
    assert CartLines(cart)[..|cart| - 1] == CartLines(cart[..|cart| - 1]);
  }

  lemma FittingIsNotShort(l: Ledger, draws: seq<Draw>)
    requires Natural(draws) && Fits(l, draws)
    ensures !Short(l, draws)
  {
    forall i | 0 <= i < |draws| ensures LevelOf(l, draws[i].product) >= draws[i].qty {
      DemandAtLeast(draws, i);
      assert Demand(draws, draws[i].product) <= LevelOf(l, draws[i].product);
    }
  }

  lemma {:induction false} DemandAtLeast(draws: seq<Draw>, i: nat)
    requires Natural(draws) && i < |draws|
    ensures Demand(draws, draws[i].product) >= draws[i].qty
  {
    if i < |draws| - 1 {
      DemandAtLeast(draws[..|draws| - 1], i);
    } else {
      DemandNatural(draws[..|draws| - 1], draws[i].product);
    }
  }

  lemma ShortAppended(l: Ledger, a: seq<Draw>, b: seq<Draw>)
    requires !Short(l, a + b)
    ensures !Short(l, a) && !Short(l, b)
  {
    ShortAppend(l, a, b);
  }

  /** A cart that can be finalised passes the staging check item by item. */
  lemma FinalisableCartStages(s: State, cart: seq<CartItem>)
    requires PositiveQuantities(s.materials) && forall i :: 0 <= i < |cart| ==> cart[i].quantity > 0.0
    requires Fits(s.ledger, CartDraws(s, cart))
    ensures EachItemFits(s, cart)
  {
    DrawsNatural(s.products, s.materials, CartLines(cart));
    FittingIsNotShort(s.ledger, CartDraws(s, cart));
    NoDrawShort(s, cart);
  }

  lemma {:induction false} NoDrawShort(s: State, cart: seq<CartItem>)
    requires !Short(s.ledger, CartDraws(s, cart))
    ensures EachItemFits(s, cart)
  {
    if |cart| != 0 {
      var n := |cart| - 1;
      CartDrawsStep(s, cart);
      var last := LineDraws(s.products, s.materials, cart[n].product, cart[n].quantity);
      ShortAppended(s.ledger, CartDraws(s, cart[..n]), last);
      NoDrawShort(s, cart[..n]);
      forall i | 0 <= i < |cart|
        ensures !Short(s.ledger, LineDraws(s.products, s.materials, cart[i].product, cart[i].quantity)) {
        if i < n {
          assert cart[..n][i] == cart[i];
        }
      }
    }
  }

  ghost predicate DistinctProducts(draws: seq<Draw>) {
    forall i, j :: 0 <= i < j < |draws| ==> draws[i].product != draws[j].product
  }

  lemma {:induction false} DistinctDemand(draws: seq<Draw>, p: nat)
    requires DistinctProducts(draws)
    ensures (exists i :: 0 <= i < |draws| && draws[i].product == p && Demand(draws, p) == draws[i].qty)
            || ((forall i :: 0 <= i < |draws| ==> draws[i].product != p) && Demand(draws, p) == 0.0)
  {
    if |draws| != 0 {
      var n := |draws| - 1;
      DistinctDemand(draws[..n], p);
      if draws[n].product == p {
        assert forall i :: 0 <= i < n ==> draws[..n][i].product != p;
      } else if exists i :: 0 <= i < n && draws[..n][i].product == p && Demand(draws[..n], p) == draws[..n][i].qty {
        var i :| 0 <= i < n && draws[..n][i].product == p && Demand(draws[..n], p) == draws[..n][i].qty;
        assert draws[i].product == p && Demand(draws, p) == draws[i].qty;
      }
    }
  }

  /** The item-by-item check is enough when no product is drawn on twice. */
  lemma DistinctDrawsFit(l: Ledger, draws: seq<Draw>)
    requires DistinctProducts(draws) && NonNegative(l)
    ensures !Short(l, draws) ==> Fits(l, draws)
  {
    if !Short(l, draws) {
      forall p ensures Demand(draws, p) <= LevelOf(l, p) {
        DistinctDemand(draws, p);
        assert LevelOf(l, p) >= 0.0;
      }
    }
  }

  /** A staged sale passed the item-by-item check when it was staged. */
  lemma {:induction false} StagingChecksItems(s: State, business: nat, cart: seq<CartItem>)
    requires CartError(s, business, cart) == None
    ensures EachItemFits(s, cart)
  {
    hide Short, LineDraws;
    if |cart| != 0 {
      StagingChecksItems(s, business, cart[..|cart| - 1]);
      forall i | 0 <= i < |cart|
        ensures !Short(s.ledger, LineDraws(s.products, s.materials, cart[i].product, cart[i].quantity)) {
        if i < |cart| - 1 {
          assert cart[..|cart| - 1][i] == cart[i];
        }
      }
    }
  }

  // ---------- what finalise and collect achieve ----------

  /**
   * Right after staging, finalise succeeds exactly when buyer and tender are acceptable and the
   * aggregated demand of the cart fits the stock; with an acceptable buyer and tender a cart
   * that does not fit is refused for its stock.
   */
  lemma StagedThenFinalizeIff(
    initial: map<nat, real>, s: State, b: nat, cart: seq<CartItem>, discount: real, fees: seq<Fee>,
    t: Tender, buyer: Buyer)
    requires LedgerOk(initial, s) && Initialized(s, b, cart, discount, fees).error == None
    ensures var r := Initialized(s, b, cart, discount, fees).state;
            HasSale(r, |s.sales|) && ComesTo(s, r, cart, t, buyer)
  {
    var r := Initialized(s, b, cart, discount, fees).state;
    InitializeKeepsLedger(initial, s, b, cart, discount, fees);
    LedgerRows(initial, r);
    StagedRow(s, b, cart, discount, fees);
    hide LedgerOk, RowsOk, Initialized, Finalized, TenderRefused, Draws, Fits, Demand;
    FinalizeSucceedsIff(r, |s.sales|, t, buyer);
  }

  /** What finalising the cart staged last comes to. */
  ghost predicate ComesTo(s: State, r: State, cart: seq<CartItem>, t: Tender, buyer: Buyer)
    requires HasSale(r, |s.sales|)
  {
    var id := |s.sales|;
    var accepted := Acceptable(r.sales[id].value, t, buyer);
    && (Finalized(r, id, t, buyer).error == None <==> accepted && Fits(s.ledger, CartDraws(s, cart)))
    && (accepted && !Fits(s.ledger, CartDraws(s, cart)) ==> Finalized(r, id, t, buyer).error == Some(Conflict))
  }

  lemma StagedRow(s: State, b: nat, cart: seq<CartItem>, discount: real, fees: seq<Fee>)
    requires Initialized(s, b, cart, discount, fees).error == None
    ensures var r := Initialized(s, b, cart, discount, fees).state;
            && HasSale(r, |s.sales|) && r.sales[|s.sales|].value.lines == CartLines(cart)
            && r.sales[|s.sales|].value.document == None && r.sales[|s.sales|].value.status == PENDING_PAYMENT
            && r.ledger == s.ledger && r.products == s.products && r.materials == s.materials
  {
  }

  /**
   * The item-by-item check is not enough. A sellable tracked product listed twice is staged
   * exactly when each quantity is in stock, and the staged sale can be finalised exactly when
   * their sum is, given an acceptable buyer and tender: in between it is staged and refused.
   */
  lemma RepeatedItemStagesButFails(
    initial: map<nat, real>, s: State, b: nat, p: nat, x: real, y: real, discount: real, fees: seq<Fee>,
    t: Tender, buyer: Buyer)
    requires LedgerOk(initial, s) && Sellable(s, b, p) && x > 0.0 && y > 0.0
    ensures var staged := Initialized(s, b, [CartItem(p, x), CartItem(p, y)], discount, fees);
            var level := LevelOf(s.ledger, p);
            && (staged.error == None <==> x <= level && y <= level)
            && (staged.error == None ==>
                && HasSale(staged.state, |s.sales|)
                && (Acceptable(staged.state.sales[|s.sales|].value, t, buyer) ==>
                    Finalized(staged.state, |s.sales|, t, buyer).error ==
                    if x + y <= level then None else Some(Conflict)))
  {
    var cart := [CartItem(p, x), CartItem(p, y)];
    SellableItem(s, b, p, x);
    SellableItem(s, b, p, y);
    TwoDraws(s, p, x, y);
    StagingIff(s, b, cart);
    assert cart[0] == CartItem(p, x) && cart[1] == CartItem(p, y);
    StagingError(s, b, cart, discount, fees);
    hide LedgerOk, Initialized, Finalized, CartDraws, ItemError, Acceptable;
    if Initialized(s, b, cart, discount, fees).error == None {
      StagedThenFinalizeIff(initial, s, b, cart, discount, fees, t, buyer);
    }
  }

  lemma StagingError(s: State, b: nat, cart: seq<CartItem>, discount: real, fees: seq<Fee>)
    ensures Initialized(s, b, cart, discount, fees).error == CartError(s, b, cart)
  {
  }

  /** A live tracked product of the business. */
  predicate Sellable(s: State, b: nat, p: nat) {
    && p in s.products && s.products[p].itemType == PRODUCT && s.products[p].trackStock
    && !s.products[p].deleted && s.products[p].active && s.products[p].business == b
  }

  lemma SellableItem(s: State, b: nat, p: nat, qty: real)
    requires Sellable(s, b, p) && qty > 0.0
    ensures ItemError(s, b, CartItem(p, qty)) == None <==> qty <= LevelOf(s.ledger, p)
  {
    assert LineDraws(s.products, s.materials, p, qty) == [Draw(p, qty)];
    if LevelOf(s.ledger, p) < qty {
      assert [Draw(p, qty)][0].qty == qty;
    }
  }

  lemma TwoDraws(s: State, p: nat, x: real, y: real)
    requires p in s.products && s.products[p].itemType == PRODUCT && s.products[p].trackStock
    requires NonNegative(s.ledger)
    ensures Fits(s.ledger, CartDraws(s, [CartItem(p, x), CartItem(p, y)])) <==> x + y <= LevelOf(s.ledger, p)
  {
    hide Fits, NonNegative, CartDraws;
    TwoItems(s, p, x, y);
    PairFits(s.ledger, p, x, y);
  }

  lemma TwoItems(s: State, p: nat, x: real, y: real)
    requires p in s.products && s.products[p].itemType == PRODUCT && s.products[p].trackStock
    ensures CartDraws(s, [CartItem(p, x), CartItem(p, y)]) == [Draw(p, x)] + [Draw(p, y)]
  {
    var cart := [CartItem(p, x), CartItem(p, y)];
    CartDrawsStep(s, cart);
    CartDrawsStep(s, cart[..1]);
    assert cart[..1][..0] == [] && CartLines([]) == [];
  }

  lemma PairFits(l: Ledger, p: nat, x: real, y: real)
    requires NonNegative(l)
    ensures Fits(l, [Draw(p, x)] + [Draw(p, y)]) <==> x + y <= LevelOf(l, p)
  {
    var draws := [Draw(p, x)] + [Draw(p, y)];
    hide Demand, LevelOf;
    forall q: nat ensures Demand(draws, q) == (if q == p then x + y else 0.0) && LevelOf(l, q) >= 0.0 {
      DemandAppend([Draw(p, x)], [Draw(p, y)], q);
      SingleDemand(Draw(p, x), q);
      SingleDemand(Draw(p, y), q);
      NonNegativeAt(l, q);
    }
  }

  lemma SingleDemand(d: Draw, p: nat)
    ensures Demand([d], p) == if d.product == p then d.qty else 0.0
  {
    assert [d][..0] == [];
  }

  /**
   * What finalise leaves on the sale: a credit sale is unpaid and pending; any other tender is
   * applied up to the total. The sale is linked to a live customer of its business with the
   * buyer's phone, and a customer is added only when there was none.
   */
  lemma FinalizeOutcome(initial: map<nat, real>, s: State, id: nat, t: Tender, buyer: Buyer)
    requires Inv(initial, s) && Finalized(s, id, t, buyer).error == None
    ensures var before := s.sales[id].value;
            var r := Finalized(s, id, t, buyer).state;
            && HasDocument(r, id)
            && (var after := r.sales[id].value;
                && Paid(after.payments) ==
                     (if t.means == INVOICE then 0 else Min(TenderCents(t, before.total), before.total))
                && (after.status == COMPLETED <==> t.means != INVOICE && Paid(after.payments) == before.total)
                && after.balanceDue == before.total - Paid(after.payments)
                && after.customer.Some? && IsLive(r, after.customer.value, before.business)
                && r.customers[after.customer.value].phone == Some(buyer.phone))
            && (|r.customers| == |s.customers| <==>
                  exists c :: 0 <= c < |s.customers| && LiveWith(s.customers[c], before.business, buyer.phone))
  {
    hide Deduct, Draws, Settled, TenderRefused;
    var before := s.sales[id].value;
    assert SaleOk(before);
    SettledOutcome(before, t);
    CentsGiven(t, before.total);
    var c := FirstLive(s.customers, before.business, buyer.phone);
    assert c < |s.customers| ==> LiveWith(s.customers[c], before.business, buyer.phone);
  }

  lemma SettledOutcome(sale: Sale, t: Tender)
    requires SaleOk(sale) && sale.document.None?
    requires t.means == INVOICE || !TenderRefused(t, Amount(sale.total))
    ensures var after := Settled(sale, t);
            && Paid(after.payments) ==
                 (if t.means == INVOICE then 0 else Min(ToCents(Given(t, Amount(sale.total))), sale.total))
            && (after.status == COMPLETED <==> t.means != INVOICE && Paid(after.payments) == sale.total)
            && after.balanceDue == sale.total - Paid(after.payments)
  {
    hide Amount, ToCents, ResolveStatus;
    if t.means != INVOICE {
      var given := Given(t, Amount(sale.total));
      ComputedPayment(sale.total, given);
      AppliedAmount(sale.total, given);
      PaymentInCents(sale, ComputePaymentAmounts(Amount(sale.total), given));
    }
  }

  /**
   * A successful collection applies the tender up to the balance, returns the rest as change,
   * leaves the status that says how much is paid, and touches neither stock nor customers.
   */
  lemma CollectOutcome(initial: map<nat, real>, s: State, id: nat, t: Tender)
    requires Inv(initial, s) && HasDocument(s, id) && Collected(s, id, t).error == None
    requires TenderOk(s.sales[id].value, t)
    ensures var before := s.sales[id].value;
            var r := Collected(s, id, t).state;
            var after := r.sales[id].value;
            var given := TenderCents(t, before.total - Paid(before.payments));
            && r.ledger == s.ledger && r.customers == s.customers
            && Paid(after.payments) == Paid(before.payments) + Min(given, Remaining(before))
            && |after.payments| == |before.payments| + 1
            && after.payments[|before.payments|].change == Max(0, given - Remaining(before))
            && after.status == StatusFor(after)
            && HasRow(r.queue.rows, id)
  {
    hide Amount, ToCents, WithPayment, ComputePaymentAmounts, Enqueued, HasRow, Paid, MoneyOk;
    var sale := s.sales[id].value;
    assert SaleOk(sale);
    var due := Remaining(sale);
    ToleranceIsExact(due);
    AtLeastACent(due);
    CentsGiven(t, due);
    CollectedOutcome(sale, Given(t, Amount(due)));
    EnqueueFacts(s.queue, id, id);
  }

  /** The cents of a tender: those of its amount, or all that is due when it has none. */
  function TenderCents(t: Tender, due: int): int {
    if t.given.Some? then ToCents(t.given.value) else due
  }

  lemma CentsGiven(t: Tender, due: int)
    ensures ToCents(Given(t, Amount(due))) == TenderCents(t, due)
  {
    hide ToCents, Amount, Given;
    MissingAmount(t, due);
    WholeCents(due);
  }

  /** The status that says how much of a sale is paid. */
  function StatusFor(sale: Sale): Status {
    if Remaining(sale) == 0 then COMPLETED else if Paid(sale.payments) > 0 then PARTIALLY_PAID else PENDING_PAYMENT
  }

  /** One tender against the balance of an open sale. */
  lemma CollectedOutcome(sale: Sale, given: real)
    requires MoneyOk(sale) && IsOpen(sale.status) && Remaining(sale) > 0 && given > 0.0
    requires given > 0.005 || Paid(sale.payments) == 0
    ensures var after := WithPayment(sale, ComputePaymentAmounts(Amount(Remaining(sale)), given));
            && Paid(after.payments) == Paid(sale.payments) + Min(ToCents(given), Remaining(sale))
            && |after.payments| == |sale.payments| + 1
            && after.payments[|sale.payments|].change == Max(0, ToCents(given) - Remaining(sale))
            && after.status == StatusFor(after)
  {
    hide ComputePaymentAmounts, Amount, ToCents, WithPayment;
    var p := ComputePaymentAmounts(Amount(Remaining(sale)), given);
    AppliedAmount(Remaining(sale), given);
    ComputedPayment(Remaining(sale), given);
    PaymentInCents(sale, p);
    PaymentAppended(sale, p);
  }

  lemma AppliedAmount(due: int, given: real)
    requires due >= 0 && given > 0.0
    ensures var p := ComputePaymentAmounts(Amount(due), given);
            p.amount == Min(ToCents(given), due) && p.change == Max(0, ToCents(given) - due)
  {
    hide Amount, ToCents;
    WholeCents(due);
    NaturalCents(given);
  }

  lemma PaymentAppended(sale: Sale, p: Payment)
    ensures WithPayment(sale, p).payments == sale.payments + [p] && WithPayment(sale, p).total == sale.total
  {
  }

  /** On a reachable sale all money tendered is accounted for: settled on the sale or given back. */
  lemma TenderIsAccountedFor(initial: map<nat, real>, s: State, id: nat)
    requires Inv(initial, s) && HasSale(s, id)
    ensures var sale := s.sales[id].value;
            && Tendered(sale.payments) == Paid(sale.payments) + Returned(sale.payments)
            && 0 <= Paid(sale.payments) <= sale.total
  {
    assert SaleOk(s.sales[id].value);
    TenderIsConserved(s.sales[id].value.payments);
  }

  // ---------- collecting on a staged sale ----------

  /** Once a sale has its document, no run of any operations lets it be finalised or adds to its entries. */
  lemma {:induction false} DocumentIsFinal(s: State, ops: seq<Op>, id: nat, u: Tender, buyer: Buyer, p: nat)
    requires HasDocument(s, id)
    ensures var t := Run(s, ops);
            && HasDocument(t, id)
            && Finalized(t, id, u, buyer) == Reply(t, Some(Conflict))
            && (NoVoidOf(ops, id) ==> SaleNet(t.ledger.log, id, p) == SaleNet(s.ledger.log, id, p))
    decreases |ops|
  {
    hide Step, SaleNet, Deduct, Draws, FinalSale, TenderRefused;
    if |ops| != 0 {
      DocumentStays(s, ops[0], id);
      if NoVoidOf(ops, id) {
        StepAddsNoEntry(s, ops[0], id, p);
      }
      DocumentIsFinal(Step(s, ops[0]), ops[1..], id, u, buyer, p);
    }
  }

  /**
   * Collecting on a staged sale takes the money, mints the document and leaves the stock alone.
   * From then on, whatever operations follow, the sale can never be finalised, and without a
   * void it never gets a history entry: its goods never leave the stock.
   */
  lemma CollectingStagedSaleSkipsStock(
    initial: map<nat, real>, s: State, id: nat, t: Tender, ops: seq<Op>, u: Tender, buyer: Buyer)
    requires LedgerOk(initial, s) && HasSale(s, id) && Quiet(s, id)
    requires Collected(s, id, t).error == None
    ensures var r := Collected(s, id, t).state;
            var later := Run(r, ops);
            && r.ledger == s.ledger && HasDocument(later, id)
            && Finalized(later, id, u, buyer) == Reply(later, Some(Conflict))
            && (NoVoidOf(ops, id) ==> Balanced(later.ledger.log, id))
  {
    var r := Collected(s, id, t).state;
    CollectMints(s, id, t);
    hide LedgerOk, Finalized, Collected, Run, SaleNet, NoVoidOf;
    DocumentIsFinal(r, ops, id, u, buyer, 0);
    if NoVoidOf(ops, id) {
      forall p: nat ensures SaleNet(Run(r, ops).ledger.log, id, p) == 0.0 {
        QuietIsFresh(initial, s, id);
        DocumentIsFinal(r, ops, id, u, buyer, p);
      }
    }
  }

  lemma CollectMints(s: State, id: nat, t: Tender)
    requires Collected(s, id, t).error == None
    ensures var r := Collected(s, id, t).state;
            HasSale(s, id) && IsOpen(s.sales[id].value.status) && HasDocument(r, id) && r.ledger == s.ledger
  {
    hide ComputePaymentAmounts, Given, Amount, WithPayment, Remaining;
  }

  lemma NoEntriesYet(initial: map<nat, real>, s: State, id: nat, p: nat)
    requires Inv(initial, s) && !HasDocument(s, id)
    ensures SaleNet(s.ledger.log, id, p) == 0.0
  {
  }

  /** The state in which a run finalised the sale, if it did. */
  ghost function FinalizedAt(s: State, ops: seq<Op>, id: nat): Option<State>
    decreases |ops|
  {
    if |ops| == 0 then None
    else match FinalizedAt(Step(s, ops[0]), ops[1..], id)
      case Some(m) => Some(m)
      case None => if Finalizes(s, ops[0], id) then Some(s) else None
  }

  predicate Finalizes(s: State, op: Op, id: nat) {
    op.Finalize? && op.sale == id && Perform(s, op).error == None
  }

  lemma FinalizingMints(s: State, op: Op, id: nat)
    requires Finalizes(s, op, id)
    ensures !HasDocument(s, id) && HasDocument(Step(s, op), id)
  {
    hide Deduct, Draws, Settled, TenderRefused, Enqueued;
  }

  /** Used as meant, only finalise gives a sale its document. */
  lemma OnlyFinalizeMints(s: State, op: Op, id: nat)
    requires WellUsed(s, op) && !HasDocument(s, id) && HasDocument(Step(s, op), id)
    ensures Finalizes(s, op, id)
  {
    hide Deduct, Draws, Restore, OutstandingDraws, Settled, TenderRefused, WithPayment, ComputePaymentAmounts, Given,
      Amount, Remaining, Drained, Refreshed, Backfilled, Enqueued, TenderOk;
  }

  lemma {:induction false} DocumentedRunFinalizesNothing(s: State, ops: seq<Op>, id: nat)
    requires HasDocument(s, id)
    ensures HasDocument(Run(s, ops), id) && FinalizedAt(s, ops, id) == None
    decreases |ops|
  {
    hide Step, Finalizes;
    if |ops| != 0 {
      DocumentStays(s, ops[0], id);
      DocumentedRunFinalizesNothing(Step(s, ops[0]), ops[1..], id);
      if Finalizes(s, ops[0], id) {
        FinalizingMints(s, ops[0], id);
      }
    }
  }

  lemma VoidRefundsOrFails(s: State, op: Op, id: nat)
    requires op.Void? && op.sale == id && HasDocument(s, id)
    requires HasDocument(Step(s, op), id) && Step(s, op).sales[id].value.status != REFUNDED
    ensures Step(s, op) == s
  {
    hide Restore, OutstandingDraws;
  }

  lemma DocumentedIsVoidable(initial: map<nat, real>, s: State, id: nat)
    requires Inv(initial, s) && HasDocument(s, id) && s.sales[id].value.status != REFUNDED
    ensures Voidable(s.sales[id].value.status)
  {
    assert SaleOk(s.sales[id].value);
  }

  /** A sale that ends a run unrefunded went through it untouched. */
  lemma {:induction false} UnrefundedIsUntouched(initial: map<nat, real>, s: State, ops: seq<Op>, id: nat)
    requires Inv(initial, s) && WellUsedRun(s, ops) && HasDocument(s, id)
    requires HasDocument(Run(s, ops), id) && Run(s, ops).sales[id].value.status != REFUNDED
    ensures s.sales[id].value.status != REFUNDED && Untouched(s, Run(s, ops), id)
    decreases |ops|
  {
    hide Inv, Step, WellUsed, SaleNet;
    if |ops| != 0 {
      var t := Step(s, ops[0]);
      StepKeepsInvariant(initial, s, ops[0]);
      DocumentStays(s, ops[0], id);
      UnrefundedIsUntouched(initial, t, ops[1..], id);
      if s.sales[id].value.status == REFUNDED {
        Rollups.RefundedStays(s, ops[0], id);
        assert false;
      } else if ops[0].Void? && ops[0].sale == id {
        VoidRefundsOrFails(s, ops[0], id);
      } else {
        DocumentedIsVoidable(initial, s, id);
        StepLeavesSale(s, ops[0], id);
      }
    } else {
      DocumentedIsVoidable(initial, s, id);
    }
  }

  /** The history holds exactly these draws under the sale. */
  ghost predicate StockTaken(log: seq<Entry>, id: nat, draws: seq<Draw>) {
    forall p: nat :: SaleNet(log, id, p) == -Demand(draws, p)
  }

  /**
   * In a well-used run a sale has its document exactly when the run finalised it, and until it
   * is refunded its history holds exactly what its lines drew at that finalise.
   */
  lemma {:induction false} DocumentMeansFinalized(initial: map<nat, real>, s: State, ops: seq<Op>, id: nat)
    requires Inv(initial, s) && WellUsedRun(s, ops) && !HasDocument(s, id)
    ensures var t := Run(s, ops);
            var at := FinalizedAt(s, ops, id);
            && (at.Some? <==> HasDocument(t, id))
            && (at.Some? && t.sales[id].value.status != REFUNDED ==>
                StockTaken(t.ledger.log, id,
                           Draws(at.value.products, at.value.materials, t.sales[id].value.lines)))
    decreases |ops|
  {
    hide Inv, Step, WellUsed, Draws, Demand, SaleNet, Finalizes;
    if |ops| != 0 {
      var t := Step(s, ops[0]);
      StepKeepsInvariant(initial, s, ops[0]);
      if HasDocument(t, id) {
        OnlyFinalizeMints(s, ops[0], id);
        DocumentedRunFinalizesNothing(t, ops[1..], id);
        if Run(t, ops[1..]).sales[id].value.status != REFUNDED {
          UnrefundedIsUntouched(initial, t, ops[1..], id);
          FinalizingTakes(initial, s, ops[0], id);
        }
      } else {
        if Finalizes(s, ops[0], id) {
          FinalizingMints(s, ops[0], id);
        }
        DocumentMeansFinalized(initial, t, ops[1..], id);
      }
    }
  }

  lemma UndocumentedIsQuiet(initial: map<nat, real>, s: State, id: nat)
    requires Inv(initial, s) && !HasDocument(s, id)
    ensures Quiet(s, id)
  {
    if HasSale(s, id) {
      assert SaleOk(s.sales[id].value);
    }
  }

  lemma FinalizingTakes(initial: map<nat, real>, s: State, op: Op, id: nat)
    requires Inv(initial, s) && Finalizes(s, op, id)
    ensures var t := Step(s, op);
            HasDocument(t, id)
            && StockTaken(t.ledger.log, id, Draws(s.products, s.materials, t.sales[id].value.lines))
  {
    InvIsLedger(initial, s);
    FinalizingMints(s, op, id);
    UndocumentedIsQuiet(initial, s, id);
    hide Inv, LedgerOk, Finalized, Draws, SaleNet, Demand;
    FinalizeTakes(initial, s, id, op.tender, op.buyer);
  }

  /**
   * After a well-used run, a collection succeeds on some open sale, whatever its state. The
   * sale's history holds what its lines drew when the run finalised it (or, if it never did,
   * what they draw now) exactly when the sale had its document before the collection or its
   * lines draw nothing.
   */
  lemma CollectedStockTakenIff(initial: map<nat, real>, s: State, ops: seq<Op>, id: nat, t: Tender)
    requires Inv(initial, s) && WellUsedRun(s, ops) && !HasDocument(s, id)
    requires Collected(Run(s, ops), id, t).error == None
    ensures var v := Run(s, ops);
            && HasSale(v, id)
            && (var source := FinalizedAt(s, ops, id).GetOr(v);
                var draws := Draws(source.products, source.materials, v.sales[id].value.lines);
                StockTaken(Collected(v, id, t).state.ledger.log, id, draws)
                <==> HasDocument(v, id) || DrawsNothing(draws))
  {
    hide Inv, Run, WellUsedRun, Draws, Demand, SaleNet, Collected;
    var v := Run(s, ops);
    CollectMints(v, id, t);
    DocumentMeansFinalized(initial, s, ops, id);
    RunKeepsInvariant(initial, s, ops);
    if !HasDocument(v, id) {
      forall p: nat ensures SaleNet(v.ledger.log, id, p) == 0.0 {
        NoEntriesYet(initial, v, id, p);
      }
    }
  }
}
