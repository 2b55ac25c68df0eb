/**
 * The point of sale as one state machine: every operation of the checkout, stock, recipe,
 * customer and outbox modules as a step, runs of steps, and what every run keeps.
 */
module Machine {
  import opened Common
  import opened Tables
  import opened Money
  import opened Payments
  import opened Stock
  import opened Materials
  import opened Customers
  import opened Outbox
  import opened Store

  datatype Op =
    | Initialize(business: nat, cart: seq<CartItem>, discount: real, fees: seq<Fee>)
    | Finalize(sale: nat, tender: Tender, buyer: Buyer)
    | Collect(sale: nat, tender: Tender)
    | Cancel(sale: nat, business: nat)
    | Void(sale: nat, business: nat, rollupFails: bool)
    | Restocking(business: nat, product: nat, quantity: real)
    | Counting(business: nat, product: nat, quantity: real)
    | Adjusting(business: nat, product: nat, quantity: real, direction: Direction)
    | Recipe(service: nat, payload: seq<RawMaterial>)
    | EditCatalogue(products: map<nat, Product>)
    | CreateCustomer(business: nat, phone: Option<string>)
    | UpdateCustomer(customer: nat, business: nat, newPhone: Option<Option<string>>)
    | DeleteCustomer(customer: nat, business: nat)
    | Drain(limit: nat, failing: set<nat>)
    | Background(sale: nat, failing: set<nat>)
    | Backfill(business: nat)

  /** One operation. Restock and count payloads are validated before the operation runs. */
  function Perform(s: State, op: Op): Reply {
    match op
    case Initialize(b, cart, discount, fees) => Initialized(s, b, cart, discount, fees)
    case Finalize(id, t, buyer) => Finalized(s, id, t, buyer)
    case Collect(id, t) => Collected(s, id, t)
    case Cancel(id, b) => Cancelled(s, id, b)
    case Void(id, b, rollupFails) => Voided(s, id, b, rollupFails)
    case Restocking(b, p, qty) =>
      if qty <= 0.0 then Reply(s, Some(Unprocessable))
      else MoveTo(s, b, p, LevelOf(s.ledger, p) + qty, PurchaseOrder)
    case Counting(b, p, qty) =>
      if qty < 0.0 then Reply(s, Some(Unprocessable)) else MoveTo(s, b, p, qty, ManualAudit)
    case Adjusting(b, p, qty, direction) => Adjusted(s, b, p, qty, direction)
    case Recipe(service, payload) =>
      if service !in s.products then Reply(s, Some(NotFound))
      else (match Replaced(s.products, s.materials, service, payload)
            case Ok(rows) => Reply(s.(materials := rows), None)
            case Err(e) => Reply(s, Some(e)))
    case EditCatalogue(products) => Reply(s.(products := products), None)
    case CreateCustomer(b, phone) => Created(s, b, phone)
    case UpdateCustomer(c, b, phone) => Updated(s, c, b, phone)
    case DeleteCustomer(c, b) => SoftDeleted(s, c, b)
    case Drain(limit, failing) => Reply(s.(queue := Drained(s.queue, s.sales, limit, failing)), None)
    case Background(id, failing) => Reply(s.(queue := Refreshed(s.queue, s.sales, id, failing)), None)
    case Backfill(b) => Reply(s.(queue := Backfilled(s.queue, s.sales, b)), None)
  }

  /** Each operation is the one its method is proved against. */
  lemma PerformsMethods(
    s: State, id: nat, b: nat, cart: seq<CartItem>, discount: real, fees: seq<Fee>, t: Tender, buyer: Buyer,
    fails: bool)
    ensures Perform(s, Initialize(b, cart, discount, fees)) == Initialized(s, b, cart, discount, fees)
    ensures Perform(s, Finalize(id, t, buyer)) == Finalized(s, id, t, buyer)
    ensures Perform(s, Collect(id, t)) == Collected(s, id, t)
    ensures Perform(s, Cancel(id, b)) == Cancelled(s, id, b)
    ensures Perform(s, Void(id, b, fails)) == Voided(s, id, b, fails)
    ensures forall phone :: Perform(s, CreateCustomer(b, phone)) == Created(s, b, phone)
    ensures forall phone :: Perform(s, UpdateCustomer(id, b, phone)) == Updated(s, id, b, phone)
    ensures Perform(s, DeleteCustomer(id, b)) == SoftDeleted(s, id, b)
  {
    hide Initialized, Finalized, Collected, Cancelled, Voided, Created, Updated, SoftDeleted;
  }

  /** A recipe step stores what the replacement gives, or answers its error and changes nothing. */
  lemma PerformsReplacement(s: State, service: nat, payload: seq<RawMaterial>)
    ensures var r := Perform(s, Recipe(service, payload));
            && (service !in s.products ==> r == Reply(s, Some(NotFound)))
            && (service in s.products ==> match Replaced(s.products, s.materials, service, payload)
                                          case Ok(rows) => r == Reply(s.(materials := rows), None)
                                          case Err(e) => r == Reply(s, Some(e)))
  {
    hide Replaced;
  }

  /** The steps of the outbox change only the outbox and the counts, the catalogue step only the catalogue. */
  lemma PerformsBackground(
    s: State, id: nat, b: nat, limit: nat, failing: set<nat>, products: map<nat, Product>)
    ensures Perform(s, Drain(limit, failing)) == Reply(s.(queue := Drained(s.queue, s.sales, limit, failing)), None)
    ensures Perform(s, Background(id, failing)) == Reply(s.(queue := Refreshed(s.queue, s.sales, id, failing)), None)
    ensures Perform(s, Backfill(b)) == Reply(s.(queue := Backfilled(s.queue, s.sales, b)), None)
    ensures Perform(s, EditCatalogue(products)) == Reply(s.(products := products), None)
  {
    hide Drained, Refreshed, Backfilled;
  }

  function Step(s: State, op: Op): State {
    Perform(s, op).state
  }

  function Run(s: State, ops: seq<Op>): State
    decreases |ops|
  {
    if |ops| == 0 then s else Run(Step(s, ops[0]), ops[1..])
  }

  ghost predicate NoVoidOf(ops: seq<Op>, id: nat) {
    forall i :: 0 <= i < |ops| ==> !(ops[i].Void? && ops[i].sale == id)
  }

  /** A catalogue with stock, and nothing sold yet. */
  function Opening(catalogue: map<nat, Product>, stock: map<nat, real>): State {
    State(catalogue, [], Ledger(stock, []), [], [], Queue([], map[]))
  }

  // ---------- how callers use collect and void ----------

  /** A sale has its document exactly once it is finalised. */
  predicate HasDocument(s: State, id: nat) {
    HasSale(s, id) && s.sales[id].value.document.Some?
  }

  /** A tender that is refused or survives rounding to cents. */
  predicate WholeTender(t: Tender) {
    t.given.None? || t.given.value <= 0.0 || t.given.value > 0.005
  }

  /** A tender that keeps the money facts of the sale: not a tiny one on top of a part payment. */
  predicate TenderOk(sale: Sale, t: Tender) {
    WholeTender(t) || Paid(sale.payments) == 0
  }

  /** Collect and void are meant for finalised sales; nothing else is asked of a caller. */
  predicate WellUsed(s: State, op: Op) {
    match op
    case Collect(id, t) => HasSale(s, id) ==> HasDocument(s, id) && TenderOk(s.sales[id].value, t)
    case Void(id, _, _) => HasSale(s, id) ==> HasDocument(s, id)
    case _ => true
  }

  predicate WellUsedRun(s: State, ops: seq<Op>)
    decreases |ops|
  {
    |ops| == 0 || (WellUsed(s, ops[0]) && WellUsedRun(Step(s, ops[0]), ops[1..]))
  }

  // ---------- the invariant ----------

  ghost predicate SaleOk(sale: Sale) {
    && MoneyOk(sale)
    && PositiveLines(sale.lines)
    && (sale.status != REFUNDED ==> FreshLines(sale.lines))
    && (if sale.document.Some?
        then ColumnsOk(sale) && sale.document == Some(Paid(sale.payments)) && sale.customer.Some?
             && (IsOpen(sale.status) || sale.status in {COMPLETED, REFUNDED})
        else sale.payments == [] && sale.customer == None && sale.status == PENDING_PAYMENT
             && sale.amountPaid == 0 && sale.balanceDue == 0)
  }

  ghost predicate SalesOk(s: State) {
    forall i :: 0 <= i < |s.sales| && s.sales[i].Some? ==> SaleOk(s.sales[i].value)
  }

  /** Stock is what the history says, and only finalised sales have left entries in it. */
  ghost predicate StockOk(initial: map<nat, real>, s: State) {
    && Sound(initial, s.ledger)
    && forall i: nat, p :: !HasDocument(s, i) ==> SaleNet(s.ledger.log, i, p) == 0.0
  }

  /** What the outbox and the rollup count say about one sale. */
  ghost predicate QueueOkFor(s: State, i: nat) {
    var count := Tally(s.queue, i);
    if !HasDocument(s, i) then !HasRow(s.queue.rows, i) && count == 0
    else
      var sale := s.sales[i].value;
      && (sale.status == COMPLETED && sale.total > 0 ==> HasRow(s.queue.rows, i))
      && -1 <= count <= 2
      && (IsOpen(sale.status) ==> count == 0)
      && (sale.status == COMPLETED ==> count >= 0 && (count == 2 ==> IsDone(s.queue.rows, i)))
  }

  ghost predicate QueueOk(s: State) {
    OneRowPerSale(s.queue.rows) && forall i: nat :: QueueOkFor(s, i)
  }

  ghost predicate Inv(initial: map<nat, real>, s: State) {
    && StockOk(initial, s)
    && RecipesOk(s.materials)
    && SalesOk(s)
    && CustomersOk(s)
    && QueueOk(s)
  }

  lemma FreshStart(catalogue: map<nat, Product>, stock: map<nat, real>)
    requires forall p :: p in stock ==> stock[p] >= 0.0
    ensures Inv(stock, State(catalogue, [], Ledger(stock, []), [], [], Queue([], map[])))
  {
  }

  // ---------- steps on one sale ----------

  /** Payment and status at finalise leave the money facts and the columns in order. */
  lemma SettledIsOk(sale: Sale, t: Tender)
    requires SaleOk(sale) && sale.document.None?
    requires t.means == INVOICE || !TenderRefused(t, Amount(sale.total))
    ensures var r := Settled(sale, t);
            && MoneyOk(r) && ColumnsOk(r)
            && (IsOpen(r.status) || r.status == COMPLETED)
            && r.lines == sale.lines && r.business == sale.business && r.total == sale.total
  {
    hide ComputePaymentAmounts, Amount, ResolveStatus;
    if t.means != INVOICE {
      var given := Given(t, Amount(sale.total));
      ComputedPayment(sale.total, given);
      PaymentInCents(sale, ComputePaymentAmounts(Amount(sale.total), given));
    }
  }

  /** A collected payment leaves the money facts and the columns in order. */
  lemma CollectedIsOk(sale: Sale, t: Tender)
    requires SaleOk(sale) && sale.document.Some? && IsOpen(sale.status) && TenderOk(sale, t)
    requires Remaining(sale) > 0 && Given(t, Amount(Remaining(sale))) > 0.0
    ensures var given := Given(t, Amount(Remaining(sale)));
            var r := Minted(WithPayment(sale, ComputePaymentAmounts(Amount(Remaining(sale)), given)));
            && SaleOk(r) && r.document.Some?
            && (IsOpen(r.status) || r.status == COMPLETED)
            && r.lines == sale.lines && r.business == sale.business
            && r.total == sale.total && r.customer == sale.customer
            && Remaining(r) <= Remaining(sale) && (given > 0.005 ==> Remaining(r) < Remaining(sale))
  {
    hide ComputePaymentAmounts, MoneyOk;
    var due := Remaining(sale);
    if t.given.None? {
      assert Amount(due) >= 0.01;
    }
    var given := Given(t, Amount(due));
    PaymentKeepsMoneyIff(sale, given);
    MintedKeepsMoney(WithPayment(sale, ComputePaymentAmounts(Amount(due), given)));
  }

  lemma VoidedIsOk(products: map<nat, Product>, sale: Sale)
    requires SaleOk(sale) && sale.document.Some? && sale.status != REFUNDED
    ensures SaleOk(sale.(status := REFUNDED, lines := RefundedLines(products, sale.lines)))
  {
  }

  // ---------- every step keeps the invariant ----------

  lemma InitializeKeeps(initial: map<nat, real>, s: State, b: nat, cart: seq<CartItem>, discount: real, fees: seq<Fee>)
    requires Inv(initial, s)
    ensures Inv(initial, Initialized(s, b, cart, discount, fees).state)
  {
    var t := Initialized(s, b, cart, discount, fees).state;
    if CartError(s, b, cart) == None {
      TotalIsNatural(CartGross(s.products, cart), discount, 0.0, fees);
      CartLinesFresh(s, b, cart);
      forall i: nat ensures HasDocument(t, i) == HasDocument(s, i) && QueueOkFor(t, i) {
        assert QueueOkFor(s, i);
      }
    }
  }

  lemma {:induction false} CartLinesFresh(s: State, b: nat, cart: seq<CartItem>)
    requires CartError(s, b, cart) == None
    ensures forall i :: 0 <= i < |cart| ==> cart[i].quantity > 0.0 && cart[i].product in s.products
    ensures FreshLines(CartLines(cart))
  {
    hide ItemError;
    if |cart| != 0 {
      CartLinesFresh(s, b, cart[..|cart| - 1]);
      AcceptedItem(s, b, cart[|cart| - 1]);
    }
  }

  lemma AcceptedItem(s: State, b: nat, item: CartItem)
    requires ItemError(s, b, item) == None
    ensures item.quantity > 0.0 && item.product in s.products
  {
  }

  lemma FinalSaleIsOk(s: State, id: nat, t: Tender, buyer: Buyer)
    requires SalesOk(s) && Finalized(s, id, t, buyer).error == None
    ensures SaleOk(FinalSale(s, id, t, buyer)) && FinalSale(s, id, t, buyer).document.Some?
    ensures IsOpen(Settled(s.sales[id].value, t).status) || Settled(s.sales[id].value, t).status == COMPLETED
    ensures Settled(s.sales[id].value, t).business == s.sales[id].value.business
  {
    hide Settled, TenderRefused, Deduct, Draws;
    SettledIsOk(s.sales[id].value, t);
  }

  lemma FinalizeKeeps(initial: map<nat, real>, s: State, id: nat, t: Tender, buyer: Buyer)
    requires Inv(initial, s)
    ensures Inv(initial, Finalized(s, id, t, buyer).state)
  {
    hide Settled, TenderRefused, Deduct, Draws, SaleOk;
    var r := Finalized(s, id, t, buyer);
    if r.error == None {
      var lines := s.sales[id].value.lines;
      FinalSaleIsOk(s, id, t, buyer);
      assert PositiveLines(lines) by { LinesArePositive(s, id); }
      DrawsNatural(s.products, s.materials, lines);
      DeductIff(initial, s.ledger, Draws(s.products, s.materials, lines), id);
      FinalizeKeepsCustomers(s, id, t, buyer);
      FinalizeKeepsQueue(s, id, t, buyer);
      forall i: nat | i != id ensures HasDocument(r.state, i) == HasDocument(s, i) {
      }
    }
  }

  lemma LinesArePositive(s: State, id: nat)
    requires SalesOk(s) && HasSale(s, id)
    ensures PositiveLines(s.sales[id].value.lines)
  {
    assert SaleOk(s.sales[id].value);
  }

  lemma FinalizeKeepsCustomers(s: State, id: nat, t: Tender, buyer: Buyer)
    requires CustomersOk(s) && Finalized(s, id, t, buyer).error == None
    requires Settled(s.sales[id].value, t).business == s.sales[id].value.business
    ensures CustomersOk(Finalized(s, id, t, buyer).state)
  {
    hide Settled, TenderRefused, Deduct, Draws;
    var r := Finalized(s, id, t, buyer).state;
    var sale := s.sales[id].value;
    var c := FirstLive(s.customers, sale.business, buyer.phone);
    assert c < |r.customers| && LiveWith(r.customers[c], sale.business, buyer.phone);
    assert |s.customers| <= |r.customers| && forall k :: 0 <= k < |s.customers| ==> r.customers[k] == s.customers[k];
    assert |r.customers| <= |s.customers| + 1;
    assert PhonesUnique(r.customers) by {
      if c == |s.customers| {
        forall k | 0 <= k < |s.customers| ensures !LiveWith(s.customers[k], sale.business, buyer.phone) {
        }
      }
    }
  }

  lemma FinalizeKeepsQueue(s: State, id: nat, t: Tender, buyer: Buyer)
    requires QueueOk(s) && Finalized(s, id, t, buyer).error == None
    requires IsOpen(Settled(s.sales[id].value, t).status) || Settled(s.sales[id].value, t).status == COMPLETED
    ensures QueueOk(Finalized(s, id, t, buyer).state)
  {
    hide Settled, TenderRefused, Deduct, Draws, WithCustomer, Enqueued, HasRow, IsDone, Tally, OneRowPerSale;
    var r := Finalized(s, id, t, buyer).state;
    EnqueueFacts(s.queue, id, id);
    forall i: nat ensures QueueOkFor(r, i) {
      assert QueueOkFor(s, i);
      EnqueueFacts(s.queue, id, i);
    }
  }

  /** Replacing a finalised sale's row by a sound one, together with its outbox facts. */
  lemma SaleUpdateKeeps(initial: map<nat, real>, s: State, id: nat, after: Sale, q: Queue)
    requires Inv(initial, s) && HasDocument(s, id)
    requires SaleOk(after) && after.document.Some?
    requires after.business == s.sales[id].value.business && after.customer == s.sales[id].value.customer
    requires IsOpen(after.status) ==> IsOpen(s.sales[id].value.status)
    requires OneRowPerSale(q.rows)
    requires forall i: nat :: i != id ==> HasRow(q.rows, i) == HasRow(s.queue.rows, i)
    requires forall i: nat :: IsDone(q.rows, i) == IsDone(s.queue.rows, i) && Tally(q, i) == Tally(s.queue, i)
    requires QueueOkFor(s.(sales := s.sales[id := Some(after)], queue := q), id)
    ensures Inv(initial, s.(sales := s.sales[id := Some(after)], queue := q))
  {
    hide SaleOk;
    var r := s.(sales := s.sales[id := Some(after)], queue := q);
    forall i: nat ensures HasDocument(r, i) == HasDocument(s, i) && QueueOkFor(r, i) {
      assert QueueOkFor(s, i);
    }
  }

  lemma EnqueueKeepsQueue(q: Queue, id: nat)
    requires OneRowPerSale(q.rows)
    ensures OneRowPerSale(Enqueued(q, id).rows) && HasRow(Enqueued(q, id).rows, id)
    ensures forall i: nat :: i != id ==> HasRow(Enqueued(q, id).rows, i) == HasRow(q.rows, i)
    ensures forall i: nat :: IsDone(Enqueued(q, id).rows, i) == IsDone(q.rows, i)
                             && Tally(Enqueued(q, id), i) == Tally(q, i)
  {
    EnqueueFacts(q, id, id);
    forall i: nat ensures (i != id ==> HasRow(Enqueued(q, id).rows, i) == HasRow(q.rows, i))
      && IsDone(Enqueued(q, id).rows, i) == IsDone(q.rows, i) && Tally(Enqueued(q, id), i) == Tally(q, i) {
      EnqueueFacts(q, id, i);
    }
  }

  /** A collection that records a payment: an open sale gets `after`, and an outbox row. */
  lemma PaymentKeeps(initial: map<nat, real>, s: State, id: nat, after: Sale)
    requires Inv(initial, s) && HasDocument(s, id) && IsOpen(s.sales[id].value.status)
    requires SaleOk(after) && after.document.Some? && (IsOpen(after.status) || after.status == COMPLETED)
    requires after.business == s.sales[id].value.business && after.customer == s.sales[id].value.customer
    ensures Inv(initial, s.(sales := s.sales[id := Some(after)], queue := Enqueued(s.queue, id)))
  {
    assert QueueOkFor(s, id);
    EnqueueKeepsQueue(s.queue, id);
    SaleUpdateKeeps(initial, s, id, after, Enqueued(s.queue, id));
  }

  /** A collection that finds nothing due: only the status changes. */
  lemma NothingDueKeeps(initial: map<nat, real>, s: State, id: nat)
    requires Inv(initial, s) && HasDocument(s, id) && IsOpen(s.sales[id].value.status)
    requires Remaining(s.sales[id].value) == 0
    ensures Inv(initial, s.(sales := s.sales[id := Some(s.sales[id].value.(status := COMPLETED))]))
  {
    var sale := s.sales[id].value;
    assert SaleOk(sale) && QueueOkFor(s, id);
    assert sale.total == 0 && Paid(sale.payments) == 0;
    SaleUpdateKeeps(initial, s, id, sale.(status := COMPLETED), s.queue);
  }

  lemma CollectKeeps(initial: map<nat, real>, s: State, id: nat, t: Tender)
    requires Inv(initial, s) && WellUsed(s, Collect(id, t))
    ensures Inv(initial, Collected(s, id, t).state)
  {
    hide WithPayment, ComputePaymentAmounts, Given, Amount, SaleOk;
    if Collected(s, id, t).state != s {
      var sale := s.sales[id].value;
      assert SaleOk(sale);
      ToleranceIsExact(Remaining(sale));
      if Remaining(sale) > 0 {
        CollectedIsOk(sale, t);
        var due := Amount(Remaining(sale));
        PaymentKeeps(initial, s, id, Minted(WithPayment(sale, ComputePaymentAmounts(due, Given(t, due)))));
      } else {
        NothingDueKeeps(initial, s, id);
      }
    }
  }

  lemma CancelKeeps(initial: map<nat, real>, s: State, id: nat, b: nat)
    requires Inv(initial, s)
    ensures Inv(initial, Cancelled(s, id, b).state)
  {
    var r := Cancelled(s, id, b).state;
    forall i: nat ensures HasDocument(r, i) == HasDocument(s, i) && QueueOkFor(r, i) {
      assert QueueOkFor(s, i);
    }
  }

  lemma VoidKeeps(initial: map<nat, real>, s: State, id: nat, b: nat, rollupFails: bool)
    requires Inv(initial, s) && WellUsed(s, Void(id, b, rollupFails))
    ensures Inv(initial, Voided(s, id, b, rollupFails).state)
  {
    hide OutstandingDraws, Restore, HasRow, IsDone, OneRowPerSale;
    var r := Voided(s, id, b, rollupFails).state;
    if r != s {
      var sale := s.sales[id].value;
      VoidedIsOk(s.products, sale);
      DrawsNatural(s.products, s.materials, sale.lines);
      RestoreFacts(initial, s.ledger, OutstandingDraws(s.products, s.materials, sale.lines), id);
      forall i: nat ensures HasDocument(r, i) == HasDocument(s, i) && QueueOkFor(r, i) {
        assert QueueOkFor(s, i);
      }
    }
  }

  lemma MoveKeeps(initial: map<nat, real>, s: State, b: nat, p: nat, target: real, cause: Cause)
    requires Inv(initial, s) && !cause.SaleOut? && !cause.SaleRefund?
    ensures Inv(initial, MoveTo(s, b, p, target, cause).state)
  {
    var r := MoveTo(s, b, p, target, cause).state;
    if r != s {
      MoveFacts(initial, s.ledger, p, target, cause);
      forall i: nat ensures HasDocument(r, i) == HasDocument(s, i) && QueueOkFor(r, i) {
        assert QueueOkFor(s, i);
      }
    }
  }

  lemma SameQueueKeeps(initial: map<nat, real>, s: State, r: State)
    requires Inv(initial, s) && r.ledger == s.ledger && r.sales == s.sales && r.queue == s.queue
    requires RecipesOk(r.materials) && CustomersOk(r)
    ensures Inv(initial, r)
  {
    forall i: nat ensures HasDocument(r, i) == HasDocument(s, i) && QueueOkFor(r, i) {
      assert QueueOkFor(s, i);
    }
  }

  lemma QueueStepKeeps(initial: map<nat, real>, s: State, q: Queue)
    requires Inv(initial, s) && OneRowPerSale(q.rows)
    requires forall i: nat :: HasDocument(s, i) || !IsCompleted(s.sales, i)
    requires forall i: nat :: Progress(s.queue, q, s.sales, i)
    ensures Inv(initial, s.(queue := q))
  {
    var r := s.(queue := q);
    forall i: nat ensures HasDocument(r, i) == HasDocument(s, i) && QueueOkFor(r, i) {
      assert QueueOkFor(s, i) && Progress(s.queue, q, s.sales, i);
    }
  }

  /** In a reachable state only finalised sales are COMPLETED. */
  lemma CompletedHasDocument(s: State)
    requires SalesOk(s)
    ensures forall i: nat :: HasDocument(s, i) || !IsCompleted(s.sales, i)
  {
    forall i: nat | IsCompleted(s.sales, i) ensures HasDocument(s, i) {
      assert SaleOk(s.sales[i].value);
    }
  }

  lemma DrainKeeps(initial: map<nat, real>, s: State, limit: nat, failing: set<nat>)
    requires Inv(initial, s)
    ensures Inv(initial, Step(s, Drain(limit, failing)))
  {
    var q := Drained(s.queue, s.sales, limit, failing);
    forall i: nat ensures OneRowPerSale(q.rows) && Progress(s.queue, q, s.sales, i) {
      DrainProgress(s.queue, s.sales, limit, failing, i);
    }
    assert Progress(s.queue, q, s.sales, 0);
    CompletedHasDocument(s);
    QueueStepKeeps(initial, s, q);
  }

  lemma BackfillKeeps(initial: map<nat, real>, s: State, b: nat)
    requires Inv(initial, s)
    ensures Inv(initial, Step(s, Backfill(b)))
  {
    hide Backfilled, HasRow, IsDone, OneRowPerSale, Sound;
    var r := Step(s, Backfill(b));
    BackfillCounts(s.queue, s.sales, b, 0);
    forall i: nat ensures HasDocument(r, i) == HasDocument(s, i) && QueueOkFor(r, i) {
      assert QueueOkFor(s, i);
      BackfillCounts(s.queue, s.sales, b, i);
      if HasSale(s, i) {
        assert SaleOk(s.sales[i].value);
      }
    }
  }

  lemma BackgroundKeeps(initial: map<nat, real>, s: State, id: nat, failing: set<nat>)
    requires Inv(initial, s)
    ensures Inv(initial, Step(s, Background(id, failing)))
  {
    hide SaleOk, Sound, Attempt, Enqueued;
    CompletedHasDocument(s);
    if IsCompleted(s.sales, id) {
      var q := Enqueued(s.queue, id);
      EnqueueFacts(s.queue, id, id);
      var mid := s.(queue := q);
      forall i: nat ensures HasDocument(mid, i) == HasDocument(s, i) && QueueOkFor(mid, i) {
        assert QueueOkFor(s, i);
        EnqueueFacts(s.queue, id, i);
      }
      if !IsDone(q.rows, id) {
        var k := RowOf(q.rows, id);
        var r := Attempt(q, s.sales, k, failing);
        forall i: nat ensures OneRowPerSale(r.rows) && Progress(q, r, s.sales, i) {
          AttemptProgress(q, s.sales, k, failing, i);
        }
        assert Progress(q, r, s.sales, 0);
        QueueStepKeeps(initial, mid, r);
      }
    }
  }

  lemma InventoryKeeps(initial: map<nat, real>, s: State, op: Op)
    requires Inv(initial, s) && (op.Restocking? || op.Counting? || op.Adjusting?)
    ensures Inv(initial, Step(s, op))
  {
    hide Inv, MoveTo;
    match op
    case Restocking(b, p, qty) => MoveKeeps(initial, s, b, p, LevelOf(s.ledger, p) + qty, PurchaseOrder);
    case Counting(b, p, qty) => MoveKeeps(initial, s, b, p, qty, ManualAudit);
    case Adjusting(b, p, qty, direction) =>
      if SignedDelta(qty, direction).Ok? {
        MoveKeeps(initial, s, b, p, LevelOf(s.ledger, p) + SignedDelta(qty, direction).value, ManualAdjustment);
      }
  }

  lemma CatalogueKeeps(initial: map<nat, real>, s: State, op: Op)
    requires Inv(initial, s) && (op.Recipe? || op.EditCatalogue?)
    ensures Inv(initial, Step(s, op))
  {
    hide RecipesOk, Replaced;
    if op.Recipe? && op.service in s.products {
      ReplacementKeepsRecipes(s.products, s.materials, op.service, op.payload);
    }
    SameQueueKeeps(initial, s, Step(s, op));
  }

  lemma CustomerKeeps(initial: map<nat, real>, s: State, op: Op)
    requires Inv(initial, s) && (op.CreateCustomer? || op.UpdateCustomer? || op.DeleteCustomer?)
    ensures Inv(initial, Step(s, op))
  {
    hide CustomersOk;
    if op.CreateCustomer? {
      CreateKeepsCustomers(s, op.business, op.phone);
    } else if op.UpdateCustomer? {
      UpdateKeepsCustomers(s, op.customer, op.business, op.newPhone);
    } else {
      SoftDeleteKeepsCustomers(s, op.customer, op.business);
    }
    SameQueueKeeps(initial, s, Step(s, op));
  }

  /** Every well-used operation keeps the invariant, whether it succeeds or fails. */
  lemma StepKeepsInvariant(initial: map<nat, real>, s: State, op: Op)
    requires Inv(initial, s) && WellUsed(s, op)
    ensures Inv(initial, Step(s, op))
  {
    hide Inv, Initialized, Finalized, Collected, Cancelled, Voided, WellUsed;
    match op
    case Initialize(b, cart, discount, fees) => InitializeKeeps(initial, s, b, cart, discount, fees);
    case Finalize(id, t, buyer) => FinalizeKeeps(initial, s, id, t, buyer);
    case Collect(id, t) => CollectKeeps(initial, s, id, t);
    case Cancel(id, b) => CancelKeeps(initial, s, id, b);
    case Void(id, b, rollupFails) => VoidKeeps(initial, s, id, b, rollupFails);
    case Restocking(_, _, _) => InventoryKeeps(initial, s, op);
    case Counting(_, _, _) => InventoryKeeps(initial, s, op);
    case Adjusting(_, _, _, _) => InventoryKeeps(initial, s, op);
    case Recipe(_, _) => CatalogueKeeps(initial, s, op);
    case EditCatalogue(_) => CatalogueKeeps(initial, s, op);
    case CreateCustomer(_, _) => CustomerKeeps(initial, s, op);
    case UpdateCustomer(_, _, _) => CustomerKeeps(initial, s, op);
    case DeleteCustomer(_, _) => CustomerKeeps(initial, s, op);
    case Drain(limit, failing) => DrainKeeps(initial, s, limit, failing);
    case Background(id, failing) => BackgroundKeeps(initial, s, id, failing);
    case Backfill(b) => BackfillKeeps(initial, s, b);
  }

  /** Every run of well-used operations keeps the invariant. */
  lemma {:induction false} RunKeepsInvariant(initial: map<nat, real>, s: State, ops: seq<Op>)
    requires Inv(initial, s) && WellUsedRun(s, ops)
    ensures Inv(initial, Run(s, ops))
    decreases |ops|
  {
    if |ops| != 0 {
      StepKeepsInvariant(initial, s, ops[0]);
      RunKeepsInvariant(initial, Step(s, ops[0]), ops[1..]);
    }
  }
}
