/**
 * Stock movements and their history. Every change of the stock column goes through
 * ApplyMovement, which appends one history entry.
 */
module Stock {
  import opened Common
  import opened Tables

  /** A missing or null stock column reads as zero. */
  function LevelOf(l: Ledger, p: nat): real {
    if p in l.level then l.level[p] else 0.0
  }

  function Move(l: Ledger, p: nat, target: real, cause: Cause): Ledger {
    Ledger(l.level[p := target],
           l.log + [Entry(p, cause, target - LevelOf(l, p), LevelOf(l, p), target)])
  }

  // ---------- the history is a linked chain ----------

  function Initial(initial: map<nat, real>, p: nat): real {
    if p in initial then initial[p] else 0.0
  }

  /** The level the history claims for `p`: that of its last entry, or the initial one. */
  ghost function Replay(initial: map<nat, real>, log: seq<Entry>, p: nat): real {
    if |log| == 0 then Initial(initial, p)
    else if log[|log| - 1].product == p then log[|log| - 1].newStock
    else Replay(initial, log[..|log| - 1], p)
  }

  ghost predicate Linked(initial: map<nat, real>, log: seq<Entry>) {
    |log| == 0 ||
    (var earlier, e := log[..|log| - 1], log[|log| - 1];
     && Linked(initial, earlier)
     && e.previous == Replay(initial, earlier, e.product)
     && e.newStock == e.previous + e.quantity
     && e.newStock >= 0.0)
  }

  /** The stock column is what the history says, and never negative. */
  ghost predicate Sound(initial: map<nat, real>, l: Ledger) {
    && Linked(initial, l.log)
    && (forall p :: LevelOf(l, p) == Replay(initial, l.log, p))
    && NonNegative(l)
  }

  ghost predicate NonNegative(l: Ledger) {
    forall p :: LevelOf(l, p) >= 0.0
  }

  function NetQuantity(log: seq<Entry>, p: nat): real {
    if |log| == 0 then 0.0
    else NetQuantity(log[..|log| - 1], p)
         + if log[|log| - 1].product == p then log[|log| - 1].quantity else 0.0
  }

  predicate OfSale(cause: Cause, sale: nat) {
    cause == SaleOut(sale) || cause == SaleRefund(sale)
  }

  /** The net quantity of `p` in the history entries that carry this sale as their reference. */
  function SaleNet(log: seq<Entry>, sale: nat, p: nat): real {
    if |log| == 0 then 0.0
    else var e := log[|log| - 1];
         SaleNet(log[..|log| - 1], sale, p)
         + if e.product == p && OfSale(e.cause, sale) then e.quantity else 0.0
  }

  /** Stock is the initial stock plus every recorded quantity. */
  lemma {:induction false} ReplayIsConserved(initial: map<nat, real>, log: seq<Entry>, p: nat)
    requires Linked(initial, log)
    ensures Replay(initial, log, p) == Initial(initial, p) + NetQuantity(log, p)
  {
    if |log| != 0 {
      ReplayIsConserved(initial, log[..|log| - 1], p);
    }
  }

  lemma StockIsConserved(initial: map<nat, real>, l: Ledger, p: nat)
    requires Sound(initial, l)
    ensures LevelOf(l, p) == Initial(initial, p) + NetQuantity(l.log, p)
  {
    ReplayIsConserved(initial, l.log, p);
  }

  /** Two successive entries of one product link up: the later one starts where the earlier ended. */
  lemma {:induction false} EntriesLink(initial: map<nat, real>, log: seq<Entry>, i: nat, j: nat)
    requires Linked(initial, log) && i < j < |log|
    requires log[i].product == log[j].product
    requires forall k :: i < k < j ==> log[k].product != log[j].product
    ensures log[j].previous == log[i].newStock
    ensures log[j].newStock == log[j].previous + log[j].quantity && log[j].newStock >= 0.0
  {
    var n := |log| - 1;
    if j < n {
      EntriesLink(initial, log[..n], i, j);
    } else {
      ReplayFindsLast(initial, log[..n], i, log[j].product);
    }
  }

  lemma {:induction false} ReplayFindsLast(initial: map<nat, real>, log: seq<Entry>, i: nat, p: nat)
    requires i < |log| && log[i].product == p
    requires forall k :: i < k < |log| ==> log[k].product != p
    ensures Replay(initial, log, p) == log[i].newStock
  {
    if i < |log| - 1 {
      ReplayFindsLast(initial, log[..|log| - 1], i, p);
    }
  }

  /** One movement: what it does to the levels, the chain and the per-sale sums. */
  lemma MoveFacts(initial: map<nat, real>, l: Ledger, p: nat, target: real, cause: Cause)
    ensures var m := Move(l, p, target, cause);
            && (forall q :: LevelOf(m, q) == if q == p then target else LevelOf(l, q))
            && (target >= 0.0 && Sound(initial, l) ==> Sound(initial, m))
            && (target >= 0.0 && NonNegative(l) ==> NonNegative(m))
            && (forall sale, q :: SaleNet(m.log, sale, q) ==
                  SaleNet(l.log, sale, q)
                  + if q == p && OfSale(cause, sale) then target - LevelOf(l, p) else 0.0)
  {
    var m := Move(l, p, target, cause);
    assert m.log[..|m.log| - 1] == l.log;
  }

  // ---------- draws of a sale ----------

  datatype Draw = Draw(product: nat, qty: real)

  /** What a request for `qty` of `p` draws: nothing from a product whose stock is not tracked. */
  function TrackedDraw(products: map<nat, Product>, p: nat, qty: real): seq<Draw> {
    if p in products && products[p].trackStock then [Draw(p, qty)] else []
  }

  ghost predicate Natural(draws: seq<Draw>) {
    forall i :: 0 <= i < |draws| ==> draws[i].qty >= 0.0
  }

  /** All that a list of draws takes from `p`. */
  function Demand(draws: seq<Draw>, p: nat): real {
    if |draws| == 0 then 0.0
    else Demand(draws[..|draws| - 1], p)
         + if draws[|draws| - 1].product == p then draws[|draws| - 1].qty else 0.0
  }

  /** The aggregated test: no product is asked for more than its stock. */
  ghost predicate Fits(l: Ledger, draws: seq<Draw>) {
    forall p :: Demand(draws, p) <= LevelOf(l, p)
  }

  /** Draw by draw deduction; None when some draw finds its product short. */
  function Deduct(l: Ledger, draws: seq<Draw>, sale: nat): Option<Ledger> {
    if |draws| == 0 then Some(l)
    else
      var d := draws[|draws| - 1];
      match Deduct(l, draws[..|draws| - 1], sale)
      case None => None
      case Some(m) =>
        if LevelOf(m, d.product) < d.qty then None
        else Some(Move(m, d.product, LevelOf(m, d.product) - d.qty, SaleOut(sale)))
  }

  /** Draw by draw restoring; a draw of nothing leaves no entry. */
  function Restore(l: Ledger, draws: seq<Draw>, sale: nat): Ledger {
    if |draws| == 0 then l
    else
      var d := draws[|draws| - 1];
      var m := Restore(l, draws[..|draws| - 1], sale);
      if d.qty <= 0.0 then m
      else Move(m, d.product, LevelOf(m, d.product) + d.qty, SaleRefund(sale))
  }

  lemma {:induction false} DemandNatural(draws: seq<Draw>, p: nat)
    requires Natural(draws)
    ensures Demand(draws, p) >= 0.0
  {
    if |draws| != 0 {
      DemandNatural(draws[..|draws| - 1], p);
    }
  }

  lemma {:induction false} DemandAppend(a: seq<Draw>, b: seq<Draw>, p: nat)
    ensures Demand(a + b, p) == Demand(a, p) + Demand(b, p)
  {
    if b == [] {
      assert a + b == a;
    } else {
      assert (a + b)[..|a + b| - 1] == a + b[..|b| - 1];
      DemandAppend(a, b[..|b| - 1], p);
    }
  }

  lemma {:induction false} DeductAppend(l: Ledger, a: seq<Draw>, b: seq<Draw>, sale: nat)
    ensures Deduct(l, a + b, sale) ==
            match Deduct(l, a, sale) case None => None case Some(m) => Deduct(m, b, sale)
  {
    if b == [] {
      assert a + b == a;
    } else {
      assert (a + b)[..|a + b| - 1] == a + b[..|b| - 1];
      DeductAppend(l, a, b[..|b| - 1], sale);
    }
  }

  lemma {:induction false} RestoreAppend(l: Ledger, a: seq<Draw>, b: seq<Draw>, sale: nat)
    ensures Restore(l, a + b, sale) == Restore(Restore(l, a, sale), b, sale)
  {
    if b == [] {
      assert a + b == a;
    } else {
      assert (a + b)[..|a + b| - 1] == a + b[..|b| - 1];
      RestoreAppend(l, a, b[..|b| - 1], sale);
    }
  }

  /** Dropping the last draw cannot make a list harder to fit. */
  lemma FitsEarlier(l: Ledger, draws: seq<Draw>)
    requires |draws| != 0 && Natural(draws) && Fits(l, draws)
    ensures Fits(l, draws[..|draws| - 1])
  {
    forall p ensures Demand(draws[..|draws| - 1], p) <= LevelOf(l, p) {
      assert Demand(draws, p) <= LevelOf(l, p);
    }
  }

  lemma NonNegativeAt(l: Ledger, p: nat)
    requires NonNegative(l)
    ensures LevelOf(l, p) >= 0.0
  {
  }

  lemma {:induction false} DeductTakesDemand(initial: map<nat, real>, l: Ledger, draws: seq<Draw>, sale: nat)
    requires Natural(draws) && NonNegative(l) && Deduct(l, draws, sale).Some?
    ensures Deducted(initial, l, draws, sale, Deduct(l, draws, sale).value)
  {
    hide Move, LevelOf, SaleNet, Sound, NonNegative;
    if |draws| != 0 {
      var d := draws[|draws| - 1];
      DeductTakesDemand(initial, l, draws[..|draws| - 1], sale);
      var m := Deduct(l, draws[..|draws| - 1], sale).value;
      MoveFacts(initial, m, d.product, LevelOf(m, d.product) - d.qty, SaleOut(sale));
    }
  }

  lemma {:induction false} FittingDrawsSucceed(l: Ledger, draws: seq<Draw>, sale: nat)
    requires Natural(draws) && NonNegative(l) && Fits(l, draws)
    ensures Deduct(l, draws, sale).Some?
  {
    if |draws| != 0 {
      var earlier, p := draws[..|draws| - 1], draws[|draws| - 1].product;
      FitsEarlier(l, draws);
      FittingDrawsSucceed(l, earlier, sale);
      DeductTakesDemand(map[], l, earlier, sale);
      assert LevelOf(Deduct(l, earlier, sale).value, p) == LevelOf(l, p) - Demand(earlier, p);
      assert Demand(draws, p) <= LevelOf(l, p);
    }
  }

  /**
   * The draw-by-draw loop succeeds exactly when the aggregated demand of every product fits
   * its stock, and then takes exactly that demand, recorded under the sale's reference.
   */
  lemma DeductIff(initial: map<nat, real>, l: Ledger, draws: seq<Draw>, sale: nat)
    requires Natural(draws) && NonNegative(l)
    ensures Deduct(l, draws, sale).Some? <==> Fits(l, draws)
    ensures Deduct(l, draws, sale).Some? ==> Deducted(initial, l, draws, sale, Deduct(l, draws, sale).value)
  {
    if Deduct(l, draws, sale).Some? {
      DeductTakesDemand(initial, l, draws, sale);
      var m := Deduct(l, draws, sale).value;
      forall p ensures Demand(draws, p) <= LevelOf(l, p) {
        assert LevelOf(m, p) >= 0.0;
      }
    }
    if Fits(l, draws) {
      FittingDrawsSucceed(l, draws, sale);
    }
  }

  /** What a successful deduction has done to the ledger. */
  ghost predicate Deducted(initial: map<nat, real>, l: Ledger, draws: seq<Draw>, sale: nat, m: Ledger) {
    && (forall p :: LevelOf(m, p) == LevelOf(l, p) - Demand(draws, p))
    && (forall p :: SaleNet(m.log, sale, p) == SaleNet(l.log, sale, p) - Demand(draws, p))
    && (forall other, p :: other != sale ==> SaleNet(m.log, other, p) == SaleNet(l.log, other, p))
    && (Sound(initial, l) ==> Sound(initial, m))
    && NonNegative(m)
  }

  /** Restoring never fails and gives back exactly the demand, under the sale's reference. */
  lemma {:induction false} RestoreFacts(initial: map<nat, real>, l: Ledger, draws: seq<Draw>, sale: nat)
    requires Natural(draws) && NonNegative(l)
    ensures Restored(initial, l, draws, sale, Restore(l, draws, sale))
  {
    hide Move, LevelOf, SaleNet, Sound, NonNegative;
    if |draws| != 0 {
      var n := |draws| - 1;
      var d := draws[n];
      NonNegativeAt(l, d.product);
      RestoreFacts(initial, l, draws[..n], sale);
      var m := Restore(l, draws[..n], sale);
      NonNegativeAt(m, d.product);
      MoveFacts(initial, m, d.product, LevelOf(m, d.product) + d.qty, SaleRefund(sale));
    }
  }

  ghost predicate Restored(initial: map<nat, real>, l: Ledger, draws: seq<Draw>, sale: nat, m: Ledger) {
    && (forall p :: LevelOf(m, p) == LevelOf(l, p) + Demand(draws, p))
    && (forall p :: SaleNet(m.log, sale, p) == SaleNet(l.log, sale, p) + Demand(draws, p))
    && (forall other, p :: other != sale ==> SaleNet(m.log, other, p) == SaleNet(l.log, other, p))
    && (Sound(initial, l) ==> Sound(initial, m))
    && NonNegative(m)
  }

  /** The entries a deduction leaves: one for each draw, in order, taken out under the sale. */
  lemma {:induction false} DeductEntries(l: Ledger, draws: seq<Draw>, sale: nat, k: nat)
    requires Deduct(l, draws, sale).Some? && k < |draws|
    ensures var log := Deduct(l, draws, sale).value.log;
            && |log| == |l.log| + |draws| && log[..|l.log|] == l.log
            && log[|l.log| + k].product == draws[k].product && log[|l.log| + k].cause == SaleOut(sale)
            && log[|l.log| + k].quantity == -draws[k].qty
            && log[|l.log| + k].newStock == log[|l.log| + k].previous - draws[k].qty
  {
    var n := |draws| - 1;
    if n > 0 {
      DeductEntries(l, draws[..n], sale, if k < n then k else 0);
    } else {
      assert draws[..n] == [];
    }
  }

  /** The entries a restore leaves: one for each draw of something, in order, given back under the sale. */
  lemma {:induction false} RestoreEntries(l: Ledger, draws: seq<Draw>, sale: nat, k: nat)
    requires k < |draws| && forall i :: 0 <= i < |draws| ==> draws[i].qty > 0.0
    ensures var log := Restore(l, draws, sale).log;
            && |log| == |l.log| + |draws| && log[..|l.log|] == l.log
            && log[|l.log| + k].product == draws[k].product && log[|l.log| + k].cause == SaleRefund(sale)
            && log[|l.log| + k].quantity == draws[k].qty
            && log[|l.log| + k].newStock == log[|l.log| + k].previous + draws[k].qty
  {
    var n := |draws| - 1;
    if n > 0 {
      RestoreEntries(l, draws[..n], sale, if k < n then k else 0);
    } else {
      assert draws[..n] == [];
    }
  }

  // ---------- inventory steps ----------

  datatype Direction = Increase | Decrease | Unknown

  /** Absolute quantity and direction to a signed change; anything else is refused. */
  function SignedDelta(quantity: real, direction: Direction): (r: Result<real>)
    ensures r.Ok? <==> direction != Unknown && quantity > 0.0
    ensures r.Ok? ==> r.value != 0.0 && (r.value > 0.0 <==> direction == Increase)
    ensures r.Ok? ==> r.value == quantity || r.value == -quantity
  {
    if direction == Unknown then Err(Unprocessable)
    else if quantity <= 0.0 then Err(Unprocessable)
    else if direction == Increase then Ok(quantity)
    else Ok(-quantity)
  }

  predicate InCatalogue(products: map<nat, Product>, business: nat, p: nat) {
    p in products && products[p].business == business
  }

  /** Move product `p` to `target`, or say why not. */
  function MoveTo(s: State, business: nat, p: nat, target: real, cause: Cause): Reply {
    if !InCatalogue(s.products, business, p) then Reply(s, Some(NotFound))
    else if target < 0.0 then Reply(s, Some(Conflict))
    else Reply(s.(ledger := Move(s.ledger, p, target, cause)), None)
  }

  /** Apply one movement to a locked product row; refuses to go below zero. */
  method ApplyMovement(db: Database, p: nat, delta: real, newStock: Option<real>, cause: Cause)
    returns (ok: bool)
    modifies db`level, db`log
    ensures var target := if newStock.Some? then newStock.value else LevelOf(old(db.Shelf()), p) + delta;
            && ok == (target >= 0.0)
            && db.Shelf() == if ok then Move(old(db.Shelf()), p, target, cause) else old(db.Shelf())
  {
    var previous := if p in db.level then db.level[p] else 0.0;
    var target, quantity;
    if newStock.Some? {
      target := newStock.value;
      quantity := target - previous;
    } else {
      target := previous + delta;
      quantity := delta;
    }
    if target < 0.0 {
      return false;
    }
    db.level := db.level[p := target];
    db.log := db.log + [Entry(p, cause, quantity, previous, target)];
    return true;
  }

  /** Receive a positive quantity from a supplier. */
  method Restock(db: Database, business: nat, p: nat, quantity: real) returns (error: Option<Error>)
    requires quantity > 0.0
    modifies db`level, db`log
    ensures Reply(db.Now(), error) ==
            MoveTo(old(db.Now()), business, p, LevelOf(old(db.Shelf()), p) + quantity, PurchaseOrder)
  {
    if p !in db.products || db.products[p].business != business {
      return Some(NotFound);
    }
    var ok := ApplyMovement(db, p, quantity, None, PurchaseOrder);
    return if ok then None else Some(Conflict);
  }

  /** Physical count: the quantity is the absolute shelf count. */
  method CountStock(db: Database, business: nat, p: nat, quantity: real) returns (error: Option<Error>)
    requires quantity >= 0.0
    modifies db`level, db`log
    ensures Reply(db.Now(), error) == MoveTo(old(db.Now()), business, p, quantity, ManualAudit)
  {
    if p !in db.products || db.products[p].business != business {
      return Some(NotFound);
    }
    var ok := ApplyMovement(db, p, 0.0, Some(quantity), ManualAudit);
    return if ok then None else Some(Conflict);
  }

  function Adjusted(s: State, business: nat, p: nat, quantity: real, direction: Direction): Reply {
    match SignedDelta(quantity, direction)
    case Err(e) => Reply(s, Some(e))
    case Ok(delta) => MoveTo(s, business, p, LevelOf(s.ledger, p) + delta, ManualAdjustment)
  }

  /** Manual correction by a signed quantity. */
  method AdjustStock(db: Database, business: nat, p: nat, quantity: real, direction: Direction)
    returns (error: Option<Error>)
    modifies db`level, db`log
    ensures Reply(db.Now(), error) == Adjusted(old(db.Now()), business, p, quantity, direction)
  {
    var delta := SignedDelta(quantity, direction);
    if delta.Err? {
      return Some(delta.error);
    }
    if p !in db.products || db.products[p].business != business {
      return Some(NotFound);
    }
    var ok := ApplyMovement(db, p, delta.value, None, ManualAdjustment);
    return if ok then None else Some(Conflict);
  }

  /** Deduct one sale line or material; untracked products are left alone. */
  method ApplySaleItemDeduction(db: Database, p: nat, quantity: real, sale: nat) returns (ok: bool)
    requires p in db.products && quantity >= 0.0
    modifies db`level, db`log
    ensures var l := old(db.Shelf());
            var after := Deduct(l, TrackedDraw(db.products, p, quantity), sale);
            && ok == after.Some?
            && db.Shelf() == if ok then after.value else l
  {
    assert [Draw(p, quantity)][..0] == [];
    if !db.products[p].trackStock {
      return true;
    }
    var stock := if p in db.level then db.level[p] else 0.0;
    if stock < quantity {
      return false;
    }
    ok := ApplyMovement(db, p, -quantity, None, SaleOut(sale));
  }

  /** Restore one voided line or material; untracked products and empty quantities are left alone. */
  method ApplySaleItemRestore(db: Database, p: nat, quantity: real, sale: nat) returns (ok: bool)
    requires p in db.products && LevelOf(db.Shelf(), p) >= 0.0
    modifies db`level, db`log
    ensures ok && db.Shelf() == Restore(old(db.Shelf()), TrackedDraw(db.products, p, quantity), sale)
  {
    assert [Draw(p, quantity)][..0] == [];
    if !db.products[p].trackStock {
      return true;
    }
    if quantity <= 0.0 {
      return true;
    }
    ok := ApplyMovement(db, p, quantity, None, SaleRefund(sale));
  }
}
