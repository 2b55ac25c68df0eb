/**
 * What finalise, collect, cancel and void answer, and what they leave behind, said in terms of
 * the stored rows and the tender alone.
 */
module Answers {
  import opened Common
  import opened Tables
  import opened Money
  import opened Payments
  import opened Stock
  import opened Materials
  import opened Customers
  import opened Outbox
  import opened Store
  import opened Machine
  import opened AnyRun

  /** A code with M-Pesa, and a positive amount, given or implied by the amount due. */
  predicate TenderAccepted(t: Tender, due: int) {
    && (t.means == MPESA ==> t.reference != "")
    && match t.given case None => due > 0 case Some(x) => x > 0.0
  }

  lemma TenderAcceptedIff(t: Tender, due: int)
    ensures TenderAccepted(t, due) <==> !TenderRefused(t, Amount(due))
  {
  }

  // ---------- finalise ----------

  /**
   * Finalise succeeds exactly when the sale is there, neither COMPLETED nor documented, the
   * buyer has a name and a phone, the tender is credit or accepted for the total, and the
   * demand of the lines fits the stock. Each missing condition has its own answer, the earlier
   * one first, and a refusal changes nothing.
   */
  lemma FinalizeAnswers(s: State, id: nat, t: Tender, buyer: Buyer)
    requires RowsOk(s)
    ensures var r := Finalized(s, id, t, buyer);
            && (!HasSale(s, id) ==> r.error == Some(NotFound))
            && (HasSale(s, id) ==>
                var sale := s.sales[id].value;
                var open := sale.status != COMPLETED && sale.document.None?;
                var known := buyer.name != "" && buyer.phone != "";
                var payable := t.means == INVOICE || TenderAccepted(t, sale.total);
                var fits := Fits(s.ledger, Draws(s.products, s.materials, sale.lines));
                && (r.error == None <==> open && known && payable && fits)
                && (!open ==> r.error == Some(Conflict))
                && (open && !(known && payable) ==> r.error == Some(BadRequest))
                && (open && known && payable && !fits ==> r.error == Some(Conflict)))
            && (r.error != None ==> r.state == s)
  {
    hide Fits, Draws, TenderAccepted, TenderRefused, Deduct, FinalSale, WithCustomer, Enqueued;
    if HasSale(s, id) {
      TenderAcceptedIff(t, s.sales[id].value.total);
      FinalizeSucceedsIff(s, id, t, buyer);
    }
  }

  /**
   * A successful finalise changes the stock, this sale, the customers and the outbox, nothing
   * else: the sale keeps its business, lines and total and has a customer and a document; a
   * customer is at most added; the sale gets a waiting outbox row, unless it has one, exactly
   * when it is COMPLETED; and no rollup count changes.
   */
  lemma FinalizeTouches(s: State, id: nat, t: Tender, buyer: Buyer)
    requires Finalized(s, id, t, buyer).error == None
    ensures var r := Finalized(s, id, t, buyer).state;
            && HasSale(s, id) && HasDocument(r, id)
            && r.products == s.products && r.materials == s.materials
            && |r.sales| == |s.sales| && (forall i :: 0 <= i < |s.sales| && i != id ==> r.sales[i] == s.sales[i])
            && (var sale, after := s.sales[id].value, r.sales[id].value;
                && after.business == sale.business && after.lines == sale.lines && after.total == sale.total
                && after.customer.Some?
                && (r.customers == s.customers
                    || r.customers == s.customers + [Customer(sale.business, Some(buyer.phone), false)])
                && r.queue.tally == s.queue.tally
                && r.queue.rows == s.queue.rows
                   + if after.status == COMPLETED && !HasRow(s.queue.rows, id) then [OutboxRow(id, PENDING, 0)] else [])
  {
    hide Deduct, Draws, TenderRefused, ComputePaymentAmounts, ResolveStatus, Given, Amount, Paid, HasRow;
  }

  /** The payment row that `cents` tendered against `due` cents leave. */
  predicate IsPayment(p: Payment, cents: int, due: int) {
    && p.given == cents && p.dueBefore == due
    && p.amount == (if cents < due then cents else due)
    && p.change == (if cents < due then 0 else cents - due)
  }

  lemma ComputedIsPayment(due: int, given: real)
    requires due >= 0 && given > 0.0
    ensures IsPayment(ComputePaymentAmounts(Amount(due), given), ToCents(given), due)
  {
    hide Amount, ToCents;
    WholeCents(due);
    NaturalCents(given);
  }

  /** A tender without an amount is the amount due. */
  lemma MissingAmount(t: Tender, due: int)
    ensures t.given.None? ==> Given(t, Amount(due)) == Amount(due)
    ensures t.given.Some? ==> Given(t, Amount(due)) == t.given.value
  {
  }

  /** What one payment row makes of a sale, in the sale's own columns. */
  ghost predicate Pays(before: Sale, after: Sale, cents: int) {
    var due := before.total - Paid(before.payments);
    && |after.payments| == |before.payments| + 1 && after.payments[..|before.payments|] == before.payments
    && IsPayment(after.payments[|before.payments|], cents, due)
    && Paid(after.payments) == Paid(before.payments) + (if cents < due then cents else due)
    && after.amountPaid == Paid(after.payments) && after.balanceDue == after.total - Paid(after.payments)
    && after.document == Some(Paid(after.payments))
    && (after.status == COMPLETED <==> cents >= due)
    && (after.status == PARTIALLY_PAID <==> 0 < cents < due)
    && (after.status == PENDING_PAYMENT <==> cents == 0 && due > 0)
  }

  /** One payment row on an open sale whose money is in order. */
  lemma PaymentPays(sale: Sale, given: real)
    requires MoneyOk(sale) && IsOpen(sale.status) && Remaining(sale) >= 0 && given > 0.0
    ensures var p := ComputePaymentAmounts(Amount(Remaining(sale)), given);
            Pays(sale, Minted(WithPayment(sale, p)), ToCents(given))
  {
    hide ComputePaymentAmounts, Amount, ToCents, Paid;
    var p := ComputePaymentAmounts(Amount(Remaining(sale)), given);
    ComputedIsPayment(Remaining(sale), given);
    NaturalCents(given);
    PaidAppend(sale.payments, p);
    TolerancesAreExact(p.dueBefore, p.amount);
  }

  /**
   * What a paying finalise of a reachable sale records. Without an amount the total is given,
   * applied and nothing handed back: the sale is COMPLETED with nothing due. With an amount,
   * its cents are given, applied up to the total, and the rest handed back.
   */
  lemma FinalizePays(initial: map<nat, real>, s: State, id: nat, t: Tender, buyer: Buyer)
    requires Inv(initial, s) && Finalized(s, id, t, buyer).error == None && t.means != INVOICE
    ensures var sale := s.sales[id].value;
            var after := Finalized(s, id, t, buyer).state.sales[id].value;
            && sale.payments == [] && Paid(sale.payments) == 0
            && Pays(sale, after, if t.given.None? then sale.total else ToCents(t.given.value))
            && (t.given.None? ==>
                  && after.payments == [Payment(sale.total, sale.total, sale.total, 0)]
                  && after.status == COMPLETED && Paid(after.payments) == sale.total && Remaining(after) == 0)
  {
    var sale := s.sales[id].value;
    assert SaleOk(sale);
    var given := Given(t, Amount(sale.total));
    assert given > 0.0;
    assert Remaining(sale) == sale.total;
    MissingAmount(t, sale.total);
    WholeCents(sale.total);
    PaymentPays(sale, given);
    FinalOfPaying(s, id, t, buyer);
    hide Finalized, ComputePaymentAmounts, Amount, ToCents, Given, WithPayment, SaleOk;
  }

  lemma FinalOfPaying(s: State, id: nat, t: Tender, buyer: Buyer)
    requires Finalized(s, id, t, buyer).error == None && t.means != INVOICE
    ensures var sale := s.sales[id].value;
            var after := Finalized(s, id, t, buyer).state.sales[id].value;
            var p := ComputePaymentAmounts(Amount(sale.total), Given(t, Amount(sale.total)));
            after == Minted(WithPayment(sale, p)).(customer := after.customer)
  {
    hide Deduct, Draws, TenderRefused, ComputePaymentAmounts, ResolveStatus, Given, Amount, Paid, Enqueued;
  }

  /** Sold on credit, a reachable sale is pending with nothing paid and its whole total due. */
  lemma CreditOwesAll(initial: map<nat, real>, s: State, id: nat, t: Tender, buyer: Buyer)
    requires Inv(initial, s) && Finalized(s, id, t, buyer).error == None && t.means == INVOICE
    ensures var sale := s.sales[id].value;
            var after := Finalized(s, id, t, buyer).state.sales[id].value;
            && after.status == PENDING_PAYMENT && after.payments == [] && after.document == Some(0)
            && after.amountPaid == 0 && after.balanceDue == sale.total
  {
    hide Deduct, Draws, Enqueued;
    assert SaleOk(s.sales[id].value);
  }

  // ---------- collect ----------

  /**
   * Collect succeeds exactly when the sale is there and PENDING_PAYMENT or PARTIALLY_PAID, the
   * means is not credit, M-Pesa has a code, something is due, and an amount, if given, is
   * positive. Each missing condition has its own answer, the earlier one first, and only the
   * case of nothing due changes the state: the sale is marked COMPLETED.
   */
  lemma CollectAnswers(s: State, id: nat, t: Tender)
    ensures var r := Collected(s, id, t);
            && (!HasSale(s, id) ==> r == Reply(s, Some(NotFound)))
            && (HasSale(s, id) ==>
                var sale := s.sales[id].value;
                var open := sale.status == PENDING_PAYMENT || sale.status == PARTIALLY_PAID;
                var means := t.means != INVOICE && (t.means == MPESA ==> t.reference != "");
                var due := sale.total > Paid(sale.payments);
                var amount := t.given.Some? ==> t.given.value > 0.0;
                && (r.error == None <==> open && means && due && amount)
                && (!open ==> r == Reply(s, Some(Conflict)))
                && (open && !means ==> r == Reply(s, Some(BadRequest)))
                && (open && means && !due ==>
                      r == Reply(s.(sales := s.sales[id := Some(sale.(status := COMPLETED))]), Some(Conflict)))
                && (open && means && due && !amount ==> r == Reply(s, Some(BadRequest))))
  {
    hide ComputePaymentAmounts, WithPayment, Enqueued, Paid, Amount;
    if HasSale(s, id) {
      var due := Remaining(s.sales[id].value);
      ToleranceIsExact(due);
      AtLeastACent(due);
    }
  }

  /**
   * A successful collection changes this sale and the outbox, nothing else: the sale keeps its
   * business, customer, lines and total, and gets a waiting outbox row unless it has one.
   */
  lemma CollectTouches(s: State, id: nat, t: Tender)
    requires Collected(s, id, t).error == None
    ensures var r := Collected(s, id, t).state;
            && HasSale(s, id) && HasSale(r, id)
            && r == s.(sales := r.sales, queue := r.queue)
            && |r.sales| == |s.sales| && (forall i :: 0 <= i < |s.sales| && i != id ==> r.sales[i] == s.sales[i])
            && (var sale, after := s.sales[id].value, r.sales[id].value;
                && after.business == sale.business && after.lines == sale.lines && after.total == sale.total
                && after.customer == sale.customer)
            && r.queue.tally == s.queue.tally
            && r.queue.rows == s.queue.rows + if HasRow(s.queue.rows, id) then [] else [OutboxRow(id, PENDING, 0)]
  {
    hide ComputePaymentAmounts, ResolveStatus, Given, Amount, Paid, Remaining, HasRow;
  }

  /**
   * What a collection on a reachable sale records. Without an amount the whole balance is
   * given and applied: the sale is COMPLETED with nothing due. With an amount, its cents are
   * given, applied up to the balance, and the rest handed back.
   */
  lemma CollectPays(initial: map<nat, real>, s: State, id: nat, t: Tender)
    requires Inv(initial, s) && Collected(s, id, t).error == None
    ensures var sale := s.sales[id].value;
            var after := Collected(s, id, t).state.sales[id].value;
            var due := sale.total - Paid(sale.payments);
            && due > 0
            && Pays(sale, after, if t.given.None? then due else ToCents(t.given.value))
            && (t.given.None? ==>
                  && after.payments == sale.payments + [Payment(due, due, due, 0)]
                  && after.status == COMPLETED && Paid(after.payments) == sale.total && Remaining(after) == 0)
  {
    CollectAnswers(s, id, t);
    var sale := s.sales[id].value;
    assert SaleOk(sale);
    var due := Remaining(sale);
    AtLeastACent(due);
    MissingAmount(t, due);
    WholeCents(due);
    PaymentPays(sale, Given(t, Amount(due)));
    CollectedIs(s, id, t);
    hide Collected, ComputePaymentAmounts, Amount, ToCents, Given, WithPayment, SaleOk;
  }

  lemma CollectedIs(s: State, id: nat, t: Tender)
    requires Collected(s, id, t).error == None
    ensures var sale := s.sales[id].value;
            var due := Amount(Remaining(sale));
            var p := ComputePaymentAmounts(due, Given(t, due));
            Collected(s, id, t).state.sales[id] == Some(Minted(WithPayment(sale, p)))
  {
    hide ComputePaymentAmounts, WithPayment, Given, Amount, Enqueued;
  }

  // ---------- cancel and void ----------

  /** Cancel removes the sale, and nothing else, exactly when it is the business's, pending, undocumented and unpaid. */
  lemma CancelAnswers(s: State, id: nat, b: nat)
    ensures var r := Cancelled(s, id, b);
            && (!(HasSale(s, id) && s.sales[id].value.business == b) ==> r == Reply(s, Some(NotFound)))
            && (HasSale(s, id) && s.sales[id].value.business == b ==>
                var sale := s.sales[id].value;
                if sale.status == PENDING_PAYMENT && sale.document == None && |sale.payments| == 0
                then r == Reply(s.(sales := s.sales[id := None]), None)
                else r == Reply(s, Some(Conflict)))
  {
  }

  /**
   * Void refuses a sale that is not the business's and one in dispute or partly refunded, and
   * answers without change for a refunded one. Any other sale becomes REFUNDED and keeps its
   * money, customer and document; other sales, customers, catalogue, recipes and all outbox
   * rows stay as they were.
   */
  lemma VoidAnswers(s: State, id: nat, b: nat, rollupFails: bool)
    ensures var r := Voided(s, id, b, rollupFails);
            && (!(HasSale(s, id) && s.sales[id].value.business == b) ==> r == Reply(s, Some(NotFound)))
            && (HasSale(s, id) && s.sales[id].value.business == b ==>
                var sale := s.sales[id].value;
                && (sale.status == REFUNDED ==> r == Reply(s, None))
                && (sale.status == DISPUTED || sale.status == PARTIALLY_REFUNDED ==> r == Reply(s, Some(Conflict)))
                && (sale.status == COMPLETED || sale.status == PENDING_PAYMENT || sale.status == PARTIALLY_PAID ==>
                      && r.error == None && HasSale(r.state, id)
                      && r.state.sales[id].value == sale.(status := REFUNDED, lines := r.state.sales[id].value.lines)
                      && r.state == s.(ledger := r.state.ledger, queue := r.state.queue,
                                       sales := s.sales[id := r.state.sales[id]])
                      && r.state.queue.rows == s.queue.rows))
  {
    hide Restore, OutstandingDraws;
  }

  /**
   * A void changes no rollup count but that of its own sale, and that one by one, exactly when
   * the sale was COMPLETED and the reversal did not fail.
   */
  lemma VoidReversesIff(s: State, id: nat, b: nat, rollupFails: bool, i: nat)
    ensures var r := Voided(s, id, b, rollupFails).state;
            && r.queue.rows == s.queue.rows
            && Tally(r.queue, i) == Tally(s.queue, i)
               - if i == id && HasSale(s, id) && s.sales[id].value.business == b
                    && s.sales[id].value.status == COMPLETED && !rollupFails then 1 else 0
  {
    hide Restore, OutstandingDraws;
  }

  /** A void marks every line of a product still in the catalogue refunded in full, and leaves the others. */
  lemma VoidRefundsLines(s: State, id: nat, b: nat, rollupFails: bool, k: nat)
    requires HasSale(s, id) && s.sales[id].value.business == b && Voidable(s.sales[id].value.status)
    requires k < |s.sales[id].value.lines|
    ensures var r := Voided(s, id, b, rollupFails).state;
            var x := s.sales[id].value.lines[k];
            && HasSale(r, id) && |r.sales[id].value.lines| == |s.sales[id].value.lines|
            && r.sales[id].value.lines[k] == Line(x.product, x.quantity,
                 if x.product in s.products && x.refunded < x.quantity then x.quantity else x.refunded)
  {
    hide Restore, OutstandingDraws;
  }
}
