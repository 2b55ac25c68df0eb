/**
 * What every run of any operations keeps, however they are used: the stock history, the recipes,
 * the sale lines and the customers. Nothing here asks that a collect or a void comes after the
 * finalise of its sale, or how much is tendered.
 */
module AnyRun {
  import opened Common
  import opened Tables
  import opened Money
  import opened Payments
  import opened Stock
  import opened Materials
  import opened Customers
  import opened Outbox
  import opened Store
  import opened Machine

  // ---------- the ledger ----------

  /** No stock has moved for the sale: it is not there, or it has no document and is not refunded. */
  predicate Quiet(s: State, id: nat) {
    HasSale(s, id) ==> s.sales[id].value.document.None? && s.sales[id].value.status != REFUNDED
  }

  ghost predicate LinesOk(sale: Sale) {
    && PositiveLines(sale.lines)
    && (sale.status == REFUNDED || Voidable(sale.status))
    && (sale.document.None? && sale.status != REFUNDED ==> FreshLines(sale.lines))
  }

  ghost predicate AllLinesOk(s: State) {
    forall i :: 0 <= i < |s.sales| && s.sales[i].Some? ==> LinesOk(s.sales[i].value)
  }

  ghost predicate QuietOk(s: State) {
    forall i: nat, p :: Quiet(s, i) ==> SaleNet(s.ledger.log, i, p) == 0.0
  }

  /** Stock is what the history says, recipes are unique, and only moved sales have entries. */
  ghost predicate LedgerOk(initial: map<nat, real>, s: State) {
    Sound(initial, s.ledger) && RecipesOk(s.materials) && AllLinesOk(s) && QuietOk(s)
  }

  lemma OpeningLedger(catalogue: map<nat, Product>, stock: map<nat, real>)
    requires forall p :: p in stock ==> stock[p] >= 0.0
    ensures LedgerOk(stock, Opening(catalogue, stock))
  {
  }

  /** The invariant of well-used runs includes this one. */
  lemma InvIsLedger(initial: map<nat, real>, s: State)
    requires Inv(initial, s)
    ensures LedgerOk(initial, s)
  {
    forall i: nat, p | Quiet(s, i) ensures SaleNet(s.ledger.log, i, p) == 0.0 {
      assert !HasDocument(s, i);
    }
    forall i | 0 <= i < |s.sales| && s.sales[i].Some? ensures LinesOk(s.sales[i].value) {
      assert SaleOk(s.sales[i].value);
    }
  }

  /** Steps that leave stock, recipes and sales alone. */
  lemma SameLedger(initial: map<nat, real>, s: State, r: State)
    requires LedgerOk(initial, s) && r.ledger == s.ledger && r.sales == s.sales && RecipesOk(r.materials)
    ensures LedgerOk(initial, r)
  {
    forall i: nat, p | Quiet(r, i) ensures SaleNet(r.ledger.log, i, p) == 0.0 {
      assert Quiet(s, i);
    }
  }

  /** Steps that leave stock and recipes alone and quiet no sale that has moved. */
  lemma SalesStep(initial: map<nat, real>, s: State, r: State)
    requires LedgerOk(initial, s) && r.ledger == s.ledger && r.materials == s.materials && AllLinesOk(r)
    requires forall i: nat :: Quiet(r, i) ==> Quiet(s, i)
    ensures LedgerOk(initial, r)
  {
  }

  lemma InitializeKeepsLedger(
    initial: map<nat, real>, s: State, b: nat, cart: seq<CartItem>, discount: real, fees: seq<Fee>)
    requires LedgerOk(initial, s)
    ensures LedgerOk(initial, Initialized(s, b, cart, discount, fees).state)
  {
    if CartError(s, b, cart) == None {
      CartLinesFresh(s, b, cart);
      SalesStep(initial, s, Initialized(s, b, cart, discount, fees).state);
    }
  }

  /** Finalise leaves lines and business alone and a status that can be voided. */
  lemma SettledFacts(sale: Sale, t: Tender)
    ensures var r := Settled(sale, t);
            Voidable(r.status) && r.lines == sale.lines && r.business == sale.business
  {
    hide ComputePaymentAmounts, Given, Amount, Paid;
  }

  lemma SoundIsNatural(initial: map<nat, real>, s: State, id: nat)
    requires LedgerOk(initial, s) && HasSale(s, id)
    ensures NonNegative(s.ledger) && PositiveQuantities(s.materials) && PositiveLines(s.sales[id].value.lines)
  {
    assert LinesOk(s.sales[id].value);
  }

  lemma FinalizeKeepsLedger(initial: map<nat, real>, s: State, id: nat, t: Tender, buyer: Buyer)
    requires LedgerOk(initial, s)
    ensures LedgerOk(initial, Finalized(s, id, t, buyer).state)
  {
    hide Settled, TenderRefused, Deduct, Draws, RecipesOk, Enqueued, WithCustomer;
    var r := Finalized(s, id, t, buyer);
    if r.error == None {
      var sale := s.sales[id].value;
      SoundIsNatural(initial, s, id);
      SettledFacts(sale, t);
      DrawsNatural(s.products, s.materials, sale.lines);
      DeductIff(initial, s.ledger, Draws(s.products, s.materials, sale.lines), id);
      forall i: nat, p | Quiet(r.state, i) ensures SaleNet(r.state.ledger.log, i, p) == 0.0 {
        assert i != id && Quiet(s, i);
      }
    }
  }

  lemma CollectKeepsLedger(initial: map<nat, real>, s: State, id: nat, t: Tender)
    requires LedgerOk(initial, s)
    ensures LedgerOk(initial, Collected(s, id, t).state)
  {
    hide ComputePaymentAmounts, Given, Amount, Remaining, Enqueued;
    SalesStep(initial, s, Collected(s, id, t).state);
  }

  lemma VoidKeepsLedger(initial: map<nat, real>, s: State, id: nat, b: nat, rollupFails: bool)
    requires LedgerOk(initial, s)
    ensures LedgerOk(initial, Voided(s, id, b, rollupFails).state)
  {
    hide Restore, OutstandingDraws, RecipesOk, Counted;
    var r := Voided(s, id, b, rollupFails).state;
    if r != s {
      var sale := s.sales[id].value;
      SoundIsNatural(initial, s, id);
      DrawsNatural(s.products, s.materials, sale.lines);
      RestoreFacts(initial, s.ledger, OutstandingDraws(s.products, s.materials, sale.lines), id);
      forall i: nat, p | Quiet(r, i) ensures SaleNet(r.ledger.log, i, p) == 0.0 {
        assert i != id && Quiet(s, i);
      }
    }
  }

  lemma MoveKeepsLedger(initial: map<nat, real>, s: State, b: nat, p: nat, target: real, cause: Cause)
    requires LedgerOk(initial, s) && !cause.SaleOut? && !cause.SaleRefund?
    ensures LedgerOk(initial, MoveTo(s, b, p, target, cause).state)
  {
    var r := MoveTo(s, b, p, target, cause).state;
    if r != s {
      MoveFacts(initial, s.ledger, p, target, cause);
      forall i: nat, q | Quiet(r, i) ensures SaleNet(r.ledger.log, i, q) == 0.0 {
        assert Quiet(s, i);
      }
    }
  }

  /** Every operation keeps the ledger facts, whether it succeeds or fails and however it is used. */
  lemma StepKeepsLedger(initial: map<nat, real>, s: State, op: Op)
    requires LedgerOk(initial, s)
    ensures LedgerOk(initial, Step(s, op))
  {
    hide LedgerOk, Initialized, Finalized, Collected, Voided, MoveTo, Drained, Refreshed, Backfilled, Replaced,
      RecipesOk;
    RecipesOfLedger(initial, s);
    match op
    case Initialize(b, cart, discount, fees) => InitializeKeepsLedger(initial, s, b, cart, discount, fees);
    case Finalize(id, t, buyer) => FinalizeKeepsLedger(initial, s, id, t, buyer);
    case Collect(id, t) => CollectKeepsLedger(initial, s, id, t);
    case Cancel(id, b) => CancelKeepsLedger(initial, s, id, b);
    case Void(id, b, rollupFails) => VoidKeepsLedger(initial, s, id, b, rollupFails);
    case Restocking(b, p, qty) =>
      MoveKeepsLedger(initial, s, b, p, LevelOf(s.ledger, p) + qty, PurchaseOrder);
    case Counting(b, p, qty) => MoveKeepsLedger(initial, s, b, p, qty, ManualAudit);
    case Adjusting(b, p, qty, direction) =>
      if SignedDelta(qty, direction).Ok? {
        var target := LevelOf(s.ledger, p) + SignedDelta(qty, direction).value;
        MoveKeepsLedger(initial, s, b, p, target, ManualAdjustment);
      }
    case Recipe(service, payload) =>
      if service in s.products {
        ReplacementKeepsRecipes(s.products, s.materials, service, payload);
      }
      SameLedger(initial, s, Step(s, op));
    case _ => SameLedger(initial, s, Step(s, op));
  }

  lemma RecipesOfLedger(initial: map<nat, real>, s: State)
    requires LedgerOk(initial, s)
    ensures RecipesOk(s.materials)
  {
  }

  lemma CancelKeepsLedger(initial: map<nat, real>, s: State, id: nat, b: nat)
    requires LedgerOk(initial, s)
    ensures LedgerOk(initial, Cancelled(s, id, b).state)
  {
    SalesStep(initial, s, Cancelled(s, id, b).state);
  }

  lemma {:induction false} RunKeepsLedger(initial: map<nat, real>, s: State, ops: seq<Op>)
    requires LedgerOk(initial, s)
    ensures LedgerOk(initial, Run(s, ops))
    decreases |ops|
  {
    hide LedgerOk, Step;
    if |ops| != 0 {
      StepKeepsLedger(initial, s, ops[0]);
      RunKeepsLedger(initial, Step(s, ops[0]), ops[1..]);
    }
  }

  lemma LedgerRows(initial: map<nat, real>, s: State)
    requires LedgerOk(initial, s)
    ensures RowsOk(s)
  {
    forall i | 0 <= i < |s.sales| && s.sales[i].Some? ensures PositiveLines(s.sales[i].value.lines) {
      assert LinesOk(s.sales[i].value);
    }
  }

  /** After every run the database meets what the methods for finalise and void ask of it. */
  lemma RunMeetsPreconditions(catalogue: map<nat, Product>, stock: map<nat, real>, ops: seq<Op>)
    requires forall q :: q in stock ==> stock[q] >= 0.0
    ensures RowsOk(Run(Opening(catalogue, stock), ops))
  {
    OpeningLedger(catalogue, stock);
    RunKeepsLedger(stock, Opening(catalogue, stock), ops);
    LedgerRows(stock, Run(Opening(catalogue, stock), ops));
  }

  /**
   * After every run, the history is a linked chain, every product's stock is its initial stock
   * plus all recorded quantities, and is not negative.
   */
  lemma RunConservesStock(catalogue: map<nat, Product>, stock: map<nat, real>, ops: seq<Op>, p: nat)
    requires forall q :: q in stock ==> stock[q] >= 0.0
    ensures var t := Run(Opening(catalogue, stock), ops);
            && Linked(stock, t.ledger.log)
            && LevelOf(t.ledger, p) == Initial(stock, p) + NetQuantity(t.ledger.log, p)
            && LevelOf(t.ledger, p) >= 0.0
  {
    OpeningLedger(catalogue, stock);
    RunKeepsLedger(stock, Opening(catalogue, stock), ops);
    StockIsConserved(stock, Run(Opening(catalogue, stock), ops).ledger, p);
  }

  // ---------- the customers ----------

  lemma CollectKeepsCustomers(s: State, id: nat, t: Tender)
    requires CustomersOk(s)
    ensures CustomersOk(Collected(s, id, t).state)
  {
    hide ComputePaymentAmounts, Given, Amount, Remaining, Enqueued, ResolveStatus;
    var r := Collected(s, id, t).state;
    assert r.customers == s.customers && |r.sales| == |s.sales|;
    forall i | 0 <= i < |r.sales| && i != id ensures r.sales[i] == s.sales[i] {
    }
  }

  lemma FinalizeKeepsShop(s: State, id: nat, t: Tender, buyer: Buyer)
    requires CustomersOk(s)
    ensures CustomersOk(Finalized(s, id, t, buyer).state)
  {
    hide CustomersOk, Settled, TenderRefused, Deduct, Draws;
    if Finalized(s, id, t, buyer).error == None {
      SettledFacts(s.sales[id].value, t);
      FinalizeKeepsCustomers(s, id, t, buyer);
    }
  }

  /** Every operation keeps the customer facts. */
  lemma StepKeepsCustomers(s: State, op: Op)
    requires CustomersOk(s)
    ensures CustomersOk(Step(s, op))
  {
    hide CustomersOk, Initialized, Finalized, Collected, Cancelled, Voided, Move, LevelOf, Drained,
      Refreshed, Backfilled, Replaced;
    match op
    case Initialize(b, cart, discount, fees) => InitializeKeepsCustomers(s, b, cart, discount, fees);
    case Finalize(id, t, buyer) =>
      FinalizeKeepsShop(s, id, t, buyer);
    case Collect(id, t) => CollectKeepsCustomers(s, id, t);
    case Cancel(id, b) => CancelKeepsCustomers(s, id, b);
    case Void(id, b, rollupFails) => VoidKeepsCustomers(s, id, b, rollupFails);
    case CreateCustomer(b, phone) => CreateKeepsCustomers(s, b, phone);
    case UpdateCustomer(c, b, phone) => UpdateKeepsCustomers(s, c, b, phone);
    case DeleteCustomer(c, b) => SoftDeleteKeepsCustomers(s, c, b);
    case _ => SameCustomers(s, Step(s, op));
  }

  lemma SameCustomers(s: State, r: State)
    requires CustomersOk(s) && r.customers == s.customers && r.sales == s.sales
    ensures CustomersOk(r)
  {
  }

  lemma InitializeKeepsCustomers(s: State, b: nat, cart: seq<CartItem>, discount: real, fees: seq<Fee>)
    requires CustomersOk(s)
    ensures CustomersOk(Initialized(s, b, cart, discount, fees).state)
  {
  }

  lemma CancelKeepsCustomers(s: State, id: nat, b: nat)
    requires CustomersOk(s)
    ensures CustomersOk(Cancelled(s, id, b).state)
  {
  }

  lemma VoidKeepsCustomers(s: State, id: nat, b: nat, rollupFails: bool)
    requires CustomersOk(s)
    ensures CustomersOk(Voided(s, id, b, rollupFails).state)
  {
    hide Restore, OutstandingDraws, Counted;
  }

  lemma {:induction false} RunKeepsCustomers(s: State, ops: seq<Op>)
    requires CustomersOk(s)
    ensures CustomersOk(Run(s, ops))
    decreases |ops|
  {
    hide CustomersOk, Step;
    if |ops| != 0 {
      StepKeepsCustomers(s, ops[0]);
      RunKeepsCustomers(Step(s, ops[0]), ops[1..]);
    }
  }

  /** Both customers are live and of one business. */
  predicate SameShop(s: State, c: nat, d: nat) {
    c < |s.customers| && IsLive(s, c, s.customers[c].business) && IsLive(s, d, s.customers[c].business)
  }

  /**
   * After every run, live customers of one business have different phones, and a soft-deleted
   * customer has no open sale, so owes nothing.
   */
  lemma RunKeepsCustomersApart(catalogue: map<nat, Product>, stock: map<nat, real>, ops: seq<Op>, c: nat, d: nat)
    ensures var t := Run(Opening(catalogue, stock), ops);
            && (c < d < |t.customers| && SameShop(t, c, d) && HasPhone(t.customers[c].phone) ==>
                  t.customers[c].phone != t.customers[d].phone)
            && (c < |t.customers| && t.customers[c].deleted ==> OpenCount(t.sales, c) == 0)
  {
    hide Run;
    var t := Run(Opening(catalogue, stock), ops);
    RunKeepsCustomers(Opening(catalogue, stock), ops);
    CountIsZeroIff(t.sales, c);
  }

  // ---------- a sale once it has its document ----------

  lemma DocumentStays(s: State, op: Op, id: nat)
    requires HasDocument(s, id)
    ensures HasDocument(Step(s, op), id)
  {
    hide Deduct, Restore, OutstandingDraws, Settled, TenderRefused, WithPayment, ComputePaymentAmounts, Given,
      Amount, Remaining, Drained, Refreshed, Backfilled, Enqueued;
  }

  lemma {:induction false} DeductLeavesOthers(l: Ledger, draws: seq<Draw>, other: nat, id: nat, p: nat)
    requires other != id && Deduct(l, draws, other).Some?
    ensures SaleNet(Deduct(l, draws, other).value.log, id, p) == SaleNet(l.log, id, p)
  {
    hide Move, SaleNet, LevelOf;
    if |draws| != 0 {
      var n := |draws| - 1;
      DeductLeavesOthers(l, draws[..n], other, id, p);
      var m := Deduct(l, draws[..n], other).value;
      MoveFacts(map[], m, draws[n].product, LevelOf(m, draws[n].product) - draws[n].qty, SaleOut(other));
    }
  }

  lemma {:induction false} RestoreLeavesOthers(l: Ledger, draws: seq<Draw>, other: nat, id: nat, p: nat)
    requires other != id
    ensures SaleNet(Restore(l, draws, other).log, id, p) == SaleNet(l.log, id, p)
  {
    hide Move, SaleNet, LevelOf;
    if |draws| != 0 {
      var n := |draws| - 1;
      RestoreLeavesOthers(l, draws[..n], other, id, p);
      var m := Restore(l, draws[..n], other);
      MoveFacts(map[], m, draws[n].product, LevelOf(m, draws[n].product) + draws[n].qty, SaleRefund(other));
    }
  }

  lemma FinalizeAddsNoEntry(s: State, other: nat, t: Tender, buyer: Buyer, id: nat, p: nat)
    requires HasDocument(s, id)
    ensures SaleNet(Finalized(s, other, t, buyer).state.ledger.log, id, p) == SaleNet(s.ledger.log, id, p)
  {
    hide Deduct, Draws, FinalSale, TenderRefused, Enqueued, SaleNet;
    if Finalized(s, other, t, buyer).error == None {
      DeductLeavesOthers(s.ledger, Draws(s.products, s.materials, s.sales[other].value.lines), other, id, p);
    }
  }

  lemma VoidAddsNoEntry(s: State, other: nat, b: nat, rollupFails: bool, id: nat, p: nat)
    requires other != id
    ensures SaleNet(Voided(s, other, b, rollupFails).state.ledger.log, id, p) == SaleNet(s.ledger.log, id, p)
  {
    hide Restore, OutstandingDraws, SaleNet;
    if HasSale(s, other) {
      var draws := OutstandingDraws(s.products, s.materials, s.sales[other].value.lines);
      RestoreLeavesOthers(s.ledger, draws, other, id, p);
    }
  }

  lemma MoveAddsNoEntry(s: State, b: nat, q: nat, target: real, cause: Cause, id: nat, p: nat)
    requires !cause.SaleOut? && !cause.SaleRefund?
    ensures SaleNet(MoveTo(s, b, q, target, cause).state.ledger.log, id, p) == SaleNet(s.ledger.log, id, p)
  {
    MoveFacts(map[], s.ledger, q, target, cause);
  }

  /** No operation but its void adds a history entry to a sale that has its document. */
  lemma StepAddsNoEntry(s: State, op: Op, id: nat, p: nat)
    requires HasDocument(s, id) && !(op.Void? && op.sale == id)
    ensures SaleNet(Step(s, op).ledger.log, id, p) == SaleNet(s.ledger.log, id, p)
  {
    hide Finalized, Voided, MoveTo, SaleNet, WithPayment, ComputePaymentAmounts, Given, Amount, Remaining, Drained,
      Refreshed, Backfilled, Enqueued, LevelOf;
    match op
    case Finalize(other, t, buyer) => FinalizeAddsNoEntry(s, other, t, buyer, id, p);
    case Void(other, b, rollupFails) => VoidAddsNoEntry(s, other, b, rollupFails, id, p);
    case Restocking(b, q, qty) => MoveAddsNoEntry(s, b, q, LevelOf(s.ledger, q) + qty, PurchaseOrder, id, p);
    case Counting(b, q, qty) => MoveAddsNoEntry(s, b, q, qty, ManualAudit, id, p);
    case Adjusting(b, q, qty, direction) =>
      if SignedDelta(qty, direction).Ok? {
        var target := LevelOf(s.ledger, q) + SignedDelta(qty, direction).value;
        MoveAddsNoEntry(s, b, q, target, ManualAdjustment, id, p);
      }
    case _ =>
  }

  /** The sale is finalised, not refunded, and has kept its lines and its history entries since `s`. */
  ghost predicate Untouched(s: State, t: State, id: nat)
    requires HasDocument(s, id)
  {
    && HasDocument(t, id) && Voidable(t.sales[id].value.status)
    && t.sales[id].value.lines == s.sales[id].value.lines
    && t.sales[id].value.business == s.sales[id].value.business
    && forall p :: SaleNet(t.ledger.log, id, p) == SaleNet(s.ledger.log, id, p)
  }

  lemma StepLeavesRow(s: State, op: Op, id: nat)
    requires HasDocument(s, id) && Voidable(s.sales[id].value.status) && !(op.Void? && op.sale == id)
    ensures var t := Step(s, op);
            && HasDocument(t, id) && Voidable(t.sales[id].value.status)
            && t.sales[id].value.lines == s.sales[id].value.lines
            && t.sales[id].value.business == s.sales[id].value.business
  {
    hide Deduct, Restore, OutstandingDraws, Settled, TenderRefused, ComputePaymentAmounts, Given, Amount, Remaining,
      Paid, Drained, Refreshed, Backfilled, Enqueued, Move;
  }

  /** A finalised sale that is not voided keeps its lines, its document and its history entries. */
  lemma StepLeavesSale(s: State, op: Op, id: nat)
    requires HasDocument(s, id) && Voidable(s.sales[id].value.status) && !(op.Void? && op.sale == id)
    ensures Untouched(s, Step(s, op), id)
  {
    hide Step, SaleNet;
    StepLeavesRow(s, op, id);
    forall p: nat ensures SaleNet(Step(s, op).ledger.log, id, p) == SaleNet(s.ledger.log, id, p) {
      StepAddsNoEntry(s, op, id, p);
    }
  }

  /** So does every run without a void of it, whatever else the run does. */
  lemma {:induction false} RunLeavesSale(s: State, ops: seq<Op>, id: nat)
    requires HasDocument(s, id) && Voidable(s.sales[id].value.status) && NoVoidOf(ops, id)
    ensures Untouched(s, Run(s, ops), id)
    decreases |ops|
  {
    hide Step, SaleNet, Voidable;
    if |ops| != 0 {
      StepLeavesSale(s, ops[0], id);
      RunLeavesSale(Step(s, ops[0]), ops[1..], id);
    }
  }

  // ---------- when finalise succeeds ----------

  /** Buyer and tender pass the checks of finalise. */
  predicate Acceptable(sale: Sale, t: Tender, buyer: Buyer) {
    buyer.name != "" && buyer.phone != "" && (t.means == INVOICE || !TenderRefused(t, Amount(sale.total)))
  }

  /** The sale is neither COMPLETED nor documented, and buyer and tender are acceptable. */
  predicate Finalisable(sale: Sale, t: Tender, buyer: Buyer) {
    sale.status != COMPLETED && sale.document.None? && Acceptable(sale, t, buyer)
  }

  /**
   * Finalise succeeds exactly when the sale is neither COMPLETED nor documented, the buyer and
   * the tender are acceptable, and the aggregated demand of its lines fits the stock; it then
   * takes that demand and nothing else. With only the stock missing it is a conflict.
   */
  lemma FinalizeSucceedsIff(s: State, id: nat, t: Tender, buyer: Buyer)
    requires RowsOk(s) && HasSale(s, id)
    ensures var sale := s.sales[id].value;
            var r := Finalized(s, id, t, buyer);
            var draws := Draws(s.products, s.materials, sale.lines);
            && (r.error == None <==> Finalisable(sale, t, buyer) && Fits(s.ledger, draws))
            && (r.error == None ==> forall p :: LevelOf(r.state.ledger, p) == LevelOf(s.ledger, p) - Demand(draws, p))
            && (r.error != None ==> r.state == s)
            && (Finalisable(sale, t, buyer) && !Fits(s.ledger, draws) ==> r.error == Some(Conflict))
  {
    hide Settled, TenderRefused, Deduct, Draws, Fits;
    var lines := s.sales[id].value.lines;
    DrawsNatural(s.products, s.materials, lines);
    DeductIff(map[], s.ledger, Draws(s.products, s.materials, lines), id);
  }

  /** The state with the lines of one sale replaced. */
  function WithLines(s: State, id: nat, lines: seq<Line>): State
    requires HasSale(s, id)
  {
    s.(sales := s.sales[id := Some(s.sales[id].value.(lines := lines))])
  }

  /** The order of a sale's lines changes neither the answer of finalise nor the stock it leaves. */
  lemma LineOrderDoesNotMatter(s: State, id: nat, lines: seq<Line>, t: Tender, buyer: Buyer)
    requires RowsOk(s) && HasSale(s, id) && multiset(lines) == multiset(s.sales[id].value.lines)
    ensures var r, r' := Finalized(s, id, t, buyer), Finalized(WithLines(s, id, lines), id, t, buyer);
            r'.error == r.error && forall p :: LevelOf(r'.state.ledger, p) == LevelOf(r.state.ledger, p)
  {
    var old_ := s.sales[id].value.lines;
    var s' := WithLines(s, id, lines);
    SameMembers(lines, old_);
    assert RowsOk(s');
    forall p: nat
      ensures Demand(Draws(s.products, s.materials, lines), p) == Demand(Draws(s.products, s.materials, old_), p) {
      LineOrderIsIrrelevant(s.products, s.materials, lines, old_, p);
    }
    hide RowsOk, Draws, Demand, Deduct, TenderRefused, FinalSale;
    FinalizeSucceedsIff(s, id, t, buyer);
    FinalizeSucceedsIff(s', id, t, buyer);
  }

  lemma SameMembers(a: seq<Line>, b: seq<Line>)
    requires multiset(a) == multiset(b) && PositiveLines(b)
    ensures PositiveLines(a)
  {
    forall i | 0 <= i < |a| ensures a[i].quantity > 0.0 {
      assert a[i] in multiset(a);
      assert a[i] in b;
    }
  }
}
