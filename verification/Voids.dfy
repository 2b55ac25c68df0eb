/**
 * Voiding as the inverse of finalising, over any run in between, and what a void or a second
 * finalise does where it was not meant to happen.
 */
module Voids {
  import opened Common
  import opened Tables
  import opened Money
  import opened Payments
  import opened Stock
  import opened Materials
  import opened Customers
  import opened Outbox
  import opened Store
  import opened Machine
  import opened AnyRun

  // ---------- voiding undoes finalising ----------

  /** What a void does to the stock and to the sale's history, for any sale with unrefunded lines. */
  lemma VoidReturnsDemand(initial: map<nat, real>, s: State, id: nat, rollupFails: bool)
    requires LedgerOk(initial, s) && HasSale(s, id)
    requires Voidable(s.sales[id].value.status) && FreshLines(s.sales[id].value.lines)
    ensures var sale := s.sales[id].value;
            var r := Voided(s, id, sale.business, rollupFails);
            var draws := Draws(s.products, s.materials, sale.lines);
            && r.error == None && r.state.sales[id].Some? && r.state.sales[id].value.status == REFUNDED
            && (forall p :: LevelOf(r.state.ledger, p) == LevelOf(s.ledger, p) + Demand(draws, p))
            && (forall p :: SaleNet(r.state.ledger.log, id, p) == SaleNet(s.ledger.log, id, p) + Demand(draws, p))
            && Voided(r.state, id, sale.business, rollupFails) == r
  {
    var sale := s.sales[id].value;
    SoundIsNatural(initial, s, id);
    hide LedgerOk;
    FreshIsOutstanding(s.products, s.materials, sale.lines);
    DrawsNatural(s.products, s.materials, sale.lines);
    RestoreFacts(initial, s.ledger, OutstandingDraws(s.products, s.materials, sale.lines), id);
  }

  lemma QuietIsFresh(initial: map<nat, real>, s: State, id: nat)
    requires LedgerOk(initial, s) && HasSale(s, id) && Quiet(s, id)
    ensures FreshLines(s.sales[id].value.lines) && Voidable(s.sales[id].value.status)
    ensures forall p :: SaleNet(s.ledger.log, id, p) == 0.0
  {
    assert LinesOk(s.sales[id].value);
  }

  /** A successful finalise takes its demand, all of it recorded under the sale. */
  lemma FinalizeTakes(initial: map<nat, real>, s: State, id: nat, t: Tender, buyer: Buyer)
    requires LedgerOk(initial, s) && Quiet(s, id) && Finalized(s, id, t, buyer).error == None
    ensures var s1 := Finalized(s, id, t, buyer).state;
            var sale := s.sales[id].value;
            var taken := Draws(s.products, s.materials, sale.lines);
            && LedgerOk(initial, s1) && HasDocument(s1, id) && Voidable(s1.sales[id].value.status)
            && s1.sales[id].value.lines == sale.lines && FreshLines(sale.lines)
            && s1.sales[id].value.business == sale.business
            && (forall p :: LevelOf(s1.ledger, p) == LevelOf(s.ledger, p) - Demand(taken, p))
            && (forall p :: SaleNet(s1.ledger.log, id, p) == -Demand(taken, p))
  {
    hide Settled, TenderRefused, Deduct, Draws, LinesOk;
    var lines := s.sales[id].value.lines;
    FinalizeKeepsLedger(initial, s, id, t, buyer);
    SettledFacts(s.sales[id].value, t);
    QuietIsFresh(initial, s, id);
    SoundIsNatural(initial, s, id);
    DrawsNatural(s.products, s.materials, lines);
    DeductIff(initial, s.ledger, Draws(s.products, s.materials, lines), id);
  }

  /**
   * Finalise, then any run without a void of this sale, then void. The void returns what the
   * lines draw at that moment; the sale's history nets to what is drawn now minus what was
   * drawn then, so it balances exactly when the two agree. A second void changes nothing.
   */
  lemma VoidAfterRun(
    initial: map<nat, real>, s: State, id: nat, t: Tender, buyer: Buyer, ops: seq<Op>, rollupFails: bool)
    requires LedgerOk(initial, s) && Quiet(s, id) && Finalized(s, id, t, buyer).error == None
    requires NoVoidOf(ops, id)
    ensures var s1 := Finalized(s, id, t, buyer).state;
            var s2 := Run(s1, ops);
            var sale := s.sales[id].value;
            var r := Voided(s2, id, sale.business, rollupFails);
            var taken := Draws(s.products, s.materials, sale.lines);
            var returned := Draws(s2.products, s2.materials, sale.lines);
            && r.error == None
            && (forall p :: LevelOf(s1.ledger, p) == LevelOf(s.ledger, p) - Demand(taken, p))
            && (forall p :: LevelOf(r.state.ledger, p) == LevelOf(s2.ledger, p) + Demand(returned, p))
            && (forall p :: SaleNet(r.state.ledger.log, id, p) == Demand(returned, p) - Demand(taken, p))
            && Voided(r.state, id, sale.business, rollupFails) == r
  {
    FinalizeTakes(initial, s, id, t, buyer);
    var s1 := Finalized(s, id, t, buyer).state;
    hide LedgerOk, Finalized, Draws, Voidable, NoVoidOf;
    RunLeavesSale(s1, ops, id);
    RunKeepsLedger(initial, s1, ops);
    VoidReturnsDemand(initial, Run(s1, ops), id, rollupFails);
  }

  /** The catalogue and recipe facts a product's draws depend on are the same in both states. */
  ghost predicate SameSource(s: State, t: State, p: nat) {
    && (p in s.products <==> p in t.products)
    && (p in s.products ==> s.products[p].itemType == t.products[p].itemType)
    && (p in s.products ==> s.products[p].trackStock == t.products[p].trackStock)
    && ListMaterials(s.materials, p) == ListMaterials(t.materials, p)
    && forall i :: 0 <= i < |ListMaterials(s.materials, p)| ==>
                     SameTracking(s.products, t.products, ListMaterials(s.materials, p)[i].material)
  }

  predicate SameTracking(a: map<nat, Product>, b: map<nat, Product>, p: nat) {
    (p in a && a[p].trackStock) == (p in b && b[p].trackStock)
  }

  lemma {:induction false} SameMaterialDraws(
    a: map<nat, Product>, b: map<nat, Product>, recipe: seq<MaterialRow>, qty: real)
    requires forall i :: 0 <= i < |recipe| ==> SameTracking(a, b, recipe[i].material)
    ensures MaterialDraws(a, recipe, qty) == MaterialDraws(b, recipe, qty)
  {
    if |recipe| != 0 {
      SameMaterialDraws(a, b, recipe[..|recipe| - 1], qty);
      assert SameTracking(a, b, recipe[|recipe| - 1].material);
    }
  }

  lemma {:induction false} SameDraws(s: State, t: State, lines: seq<Line>)
    requires forall i :: 0 <= i < |lines| ==> SameSource(s, t, lines[i].product)
    ensures Draws(s.products, s.materials, lines) == Draws(t.products, t.materials, lines)
  {
    if |lines| != 0 {
      var x := lines[|lines| - 1];
      SameDraws(s, t, lines[..|lines| - 1]);
      assert SameSource(s, t, x.product);
      SameMaterialDraws(s.products, t.products, ListMaterials(s.materials, x.product), x.quantity);
    }
  }

  /**
   * With the sale's recipes, item types and tracking as they were at finalise, the void raises
   * every product by exactly what the sale took, whatever happened in between, and the sale's
   * history entries sum to zero per product.
   */
  lemma VoidUndoesFinalize(
    initial: map<nat, real>, s: State, id: nat, t: Tender, buyer: Buyer, ops: seq<Op>, rollupFails: bool)
    requires LedgerOk(initial, s) && Quiet(s, id) && Finalized(s, id, t, buyer).error == None
    requires NoVoidOf(ops, id)
    requires forall i :: 0 <= i < |s.sales[id].value.lines| ==>
               SameSource(s, Run(Finalized(s, id, t, buyer).state, ops), s.sales[id].value.lines[i].product)
    ensures var s1 := Finalized(s, id, t, buyer).state;
            var s2 := Run(s1, ops);
            var r := Voided(s2, id, s.sales[id].value.business, rollupFails);
            && r.error == None
            && (forall p :: LevelOf(r.state.ledger, p) - LevelOf(s2.ledger, p)
                         == LevelOf(s.ledger, p) - LevelOf(s1.ledger, p))
            && Balanced(r.state.ledger.log, id)
            && Voided(r.state, id, s.sales[id].value.business, rollupFails) == r
  {
    hide LedgerOk, Voided, Run, NoVoidOf, SameSource, FinalSale, Deduct, Draws;
    VoidAfterRun(initial, s, id, t, buyer, ops, rollupFails);
    SameDraws(s, Run(Finalized(s, id, t, buyer).state, ops), s.sales[id].value.lines);
  }

  // ---------- voiding a staged sale ----------

  /**
   * The status check alone admits a staged sale to the void, which then returns stock that was
   * never taken: its history balances exactly when its lines draw nothing.
   */
  lemma VoidingStagedSaleInventsStock(initial: map<nat, real>, s: State, id: nat, rollupFails: bool)
    requires LedgerOk(initial, s) && HasSale(s, id) && Quiet(s, id)
    ensures var sale := s.sales[id].value;
            var r := Voided(s, id, sale.business, rollupFails);
            var draws := Draws(s.products, s.materials, sale.lines);
            && r.error == None
            && (forall p :: LevelOf(r.state.ledger, p) == LevelOf(s.ledger, p) + Demand(draws, p))
            && (Balanced(r.state.ledger.log, id) <==> DrawsNothing(draws))
  {
    hide LedgerOk, Voided;
    QuietIsFresh(initial, s, id);
    VoidReturnsDemand(initial, s, id, rollupFails);
  }

  /** The sale's history entries sum to zero for every product. */
  ghost predicate Balanced(log: seq<Entry>, sale: nat) {
    forall p: nat :: SaleNet(log, sale, p) == 0.0
  }

  ghost predicate DrawsNothing(draws: seq<Draw>) {
    forall p: nat :: Demand(draws, p) == 0.0
  }

  /**
   * A voided staged sale is REFUNDED without a document, and finalise does not look at that: it
   * succeeds exactly when buyer and tender are acceptable and the demand fits. The next void
   * then answers without an error, marks the sale refunded again, and returns nothing.
   */
  lemma VoidedStagedSaleFinalizesIff(
    initial: map<nat, real>, s: State, id: nat, fails: bool, t: Tender, buyer: Buyer, again: bool)
    requires LedgerOk(initial, s) && HasSale(s, id) && Quiet(s, id)
    ensures var b := s.sales[id].value.business;
            var v := Voided(s, id, b, fails).state;
            var draws := Draws(s.products, s.materials, s.sales[id].value.lines);
            && HasSale(v, id) && v.sales[id].value.status == REFUNDED
            && (Finalized(v, id, t, buyer).error == None <==>
                  Acceptable(s.sales[id].value, t, buyer) && Fits(v.ledger, draws))
            && (Finalized(v, id, t, buyer).error == None ==>
                  var r := Finalized(v, id, t, buyer).state;
                  var w := Voided(r, id, b, again);
                  && (forall p :: LevelOf(r.ledger, p) == LevelOf(v.ledger, p) - Demand(draws, p))
                  && w.error == None && w.state.ledger == r.ledger && w.state.sales[id].Some?
                  && w.state.sales[id].value.status == REFUNDED)
  {
    var b := s.sales[id].value.business;
    var v := Voided(s, id, b, fails).state;
    QuietIsFresh(initial, s, id);
    VoidKeepsLedger(initial, s, id, b, fails);
    LedgerRows(initial, v);
    VoidedRow(s, id, fails);
    RefundedDraws(s.products, s.materials, s.sales[id].value.lines);
    hide LedgerOk, RowsOk, Voided, Finalized, TenderRefused, Draws, Fits, RefundedLines;
    FinalizeSucceedsIff(v, id, t, buyer);
    if Finalized(v, id, t, buyer).error == None {
      FinalizedRow(v, id, t, buyer);
      VoidReturnsNothing(Finalized(v, id, t, buyer).state, id, again);
    }
  }

  lemma VoidedRow(s: State, id: nat, fails: bool)
    requires HasSale(s, id) && Voidable(s.sales[id].value.status)
    ensures var sale := s.sales[id].value;
            var v := Voided(s, id, sale.business, fails).state;
            && HasSale(v, id) && v.sales[id].value == RefundedSale(s.products, sale)
            && v.products == s.products && v.materials == s.materials
  {
    hide Restore, OutstandingDraws, Counted;
  }

  lemma FinalizedRow(s: State, id: nat, t: Tender, buyer: Buyer)
    requires Finalized(s, id, t, buyer).error == None
    ensures var r := Finalized(s, id, t, buyer).state;
            && HasSale(r, id) && Voidable(r.sales[id].value.status)
            && r.sales[id].value.lines == s.sales[id].value.lines
            && r.sales[id].value.business == s.sales[id].value.business
            && r.products == s.products && r.materials == s.materials
  {
    hide Deduct, Draws, Settled, TenderRefused, Enqueued;
    SettledFacts(s.sales[id].value, t);
  }

  lemma VoidReturnsNothing(s: State, id: nat, fails: bool)
    requires HasSale(s, id) && Voidable(s.sales[id].value.status)
    requires OutstandingDraws(s.products, s.materials, s.sales[id].value.lines) == []
    ensures var w := Voided(s, id, s.sales[id].value.business, fails);
            && w.error == None && w.state.ledger == s.ledger && w.state.sales[id].Some?
            && w.state.sales[id].value.status == REFUNDED
  {
  }

  lemma RefundedLineDraws(products: map<nat, Product>, rows: seq<MaterialRow>, x: Line)
    requires x.quantity > 0.0 && x.refunded == 0.0
    ensures var y := RefundedLine(products, x);
            LineOutstanding(products, rows, y) == [] && y.product == x.product && y.quantity == x.quantity
  {
  }

  /** Refunded lines still draw the same, and have nothing outstanding. */
  lemma {:induction false} RefundedDraws(products: map<nat, Product>, rows: seq<MaterialRow>, lines: seq<Line>)
    requires FreshLines(lines)
    ensures OutstandingDraws(products, rows, RefundedLines(products, lines)) == []
    ensures Draws(products, rows, RefundedLines(products, lines)) == Draws(products, rows, lines)
  {
    hide LineDraws, LineOutstanding, RefundedLine;
    if |lines| != 0 {
      var n := |lines| - 1;
      RefundedDraws(products, rows, lines[..n]);
      RefundedLineDraws(products, rows, lines[n]);
      assert RefundedLines(products, lines)[..n] == RefundedLines(products, lines[..n]);
    }
  }

  // ---------- between the commit and the mint ----------

  /** What a finalise has committed before the background task mints the document. */
  function Unminted(s: State, id: nat, t: Tender, buyer: Buyer): State
    requires Finalized(s, id, t, buyer).error == None
  {
    var r := Finalized(s, id, t, buyer).state;
    r.(sales := r.sales[id := Some(r.sales[id].value.(document := None))])
  }

  /**
   * Before the mint a second finalise of a sale that is not COMPLETED succeeds exactly when buyer
   * and tender are acceptable and its demand fits once more; it takes the demand a second time.
   */
  lemma UnmintedFinalizesTwiceIff(
    initial: map<nat, real>, s: State, id: nat, t: Tender, buyer: Buyer, t2: Tender, buyer2: Buyer)
    requires LedgerOk(initial, s) && Quiet(s, id) && Finalized(s, id, t, buyer).error == None
    ensures var c := Unminted(s, id, t, buyer);
            var draws := Draws(s.products, s.materials, s.sales[id].value.lines);
            && HasSale(c, id)
            && (var r := Finalized(c, id, t2, buyer2);
                && (r.error == None <==>
                      c.sales[id].value.status != COMPLETED && Acceptable(c.sales[id].value, t2, buyer2)
                      && Fits(c.ledger, draws))
                && (r.error == None ==> forall p ::
                      LevelOf(r.state.ledger, p) == LevelOf(s.ledger, p) - 2.0 * Demand(draws, p)))
  {
    FinalizeTakes(initial, s, id, t, buyer);
    FinalizedRow(s, id, t, buyer);
    var c := Unminted(s, id, t, buyer);
    LedgerRows(initial, Finalized(s, id, t, buyer).state);
    assert RowsOk(c);
    hide LedgerOk, RowsOk, Finalized, TenderRefused, Draws, Fits;
    FinalizeSucceedsIff(c, id, t2, buyer2);
  }

  /**
   * Before the mint a finalised sale can still be cancelled, exactly when it was sold on credit
   * and has no payment; then the sale is gone and its goods stay out of the stock.
   */
  lemma UnmintedCancelsIff(initial: map<nat, real>, s: State, id: nat, t: Tender, buyer: Buyer, b: nat)
    requires LedgerOk(initial, s) && Quiet(s, id) && Finalized(s, id, t, buyer).error == None
    ensures var sale := s.sales[id].value;
            var r := Cancelled(Unminted(s, id, t, buyer), id, b);
            && (r.error == None <==> b == sale.business && t.means == INVOICE && sale.payments == [])
            && (r.error == None ==>
                  && !HasSale(r.state, id)
                  && forall p :: LevelOf(r.state.ledger, p)
                              == LevelOf(s.ledger, p) - Demand(Draws(s.products, s.materials, sale.lines), p))
  {
    FinalizeTakes(initial, s, id, t, buyer);
    CreditOrPaid(s, id, t, buyer);
    hide LedgerOk, Finalized, Draws;
  }

  lemma CreditOrPaid(s: State, id: nat, t: Tender, buyer: Buyer)
    requires Finalized(s, id, t, buyer).error == None
    ensures var after := Finalized(s, id, t, buyer).state.sales[id];
            && after.Some? && after.value.business == s.sales[id].value.business
            && (t.means == INVOICE ==>
                  after.value.status == PENDING_PAYMENT && after.value.payments == s.sales[id].value.payments)
            && (t.means != INVOICE ==> after.value.payments != [])
  {
    hide Deduct, Draws, TenderRefused, Enqueued, ComputePaymentAmounts, ResolveStatus;
  }
}
