/** What restock, count and adjust do to the stock and its history, and when they are refused. */
module Inventory {
  import opened Common
  import opened Tables
  import opened Stock
  import opened Store
  import opened Machine
  import opened AnyRun

  /**
   * The stock of `p` has gone to `target`, with one history entry of this cause for the change;
   * the stock of every other product, and all the rest of the database, are as before.
   */
  ghost predicate MovedStock(s: State, t: State, p: nat, target: real, cause: Cause) {
    && t == s.(ledger := t.ledger)
    && LevelOf(t.ledger, p) == target && (forall q :: q != p ==> LevelOf(t.ledger, q) == LevelOf(s.ledger, q))
    && t.ledger.log == s.ledger.log + [Entry(p, cause, target - LevelOf(s.ledger, p), LevelOf(s.ledger, p), target)]
  }

  predicate Sold(s: State, b: nat, p: nat) {
    p in s.products && s.products[p].business == b
  }

  /** A delivery adds its quantity, exactly when that is positive and the product is the business's. */
  lemma RestockAnswers(initial: map<nat, real>, s: State, b: nat, p: nat, quantity: real)
    requires LedgerOk(initial, s)
    ensures var r := Perform(s, Restocking(b, p, quantity));
            && (quantity <= 0.0 ==> r == Reply(s, Some(Unprocessable)))
            && (quantity > 0.0 && !Sold(s, b, p) ==> r == Reply(s, Some(NotFound)))
            && (quantity > 0.0 && Sold(s, b, p) ==>
                  r.error == None && MovedStock(s, r.state, p, LevelOf(s.ledger, p) + quantity, PurchaseOrder))
  {
    NaturalLevel(initial, s, p);
  }

  lemma NaturalLevel(initial: map<nat, real>, s: State, p: nat)
    requires LedgerOk(initial, s)
    ensures LevelOf(s.ledger, p) >= 0.0
  {
  }

  /** A count sets the stock to the counted quantity, exactly when that is not negative. */
  lemma CountAnswers(s: State, b: nat, p: nat, quantity: real)
    ensures var r := Perform(s, Counting(b, p, quantity));
            && (quantity < 0.0 ==> r == Reply(s, Some(Unprocessable)))
            && (quantity >= 0.0 && !Sold(s, b, p) ==> r == Reply(s, Some(NotFound)))
            && (quantity >= 0.0 && Sold(s, b, p) ==>
                  r.error == None && MovedStock(s, r.state, p, quantity, ManualAudit))
  {
  }

  /**
   * An adjustment moves the stock up or down by its quantity; it is refused for an unknown
   * direction, a quantity that is not positive, a product of another business, and exactly when
   * the stock would go below zero.
   */
  lemma AdjustAnswers(s: State, b: nat, p: nat, quantity: real, direction: Direction)
    ensures var r := Perform(s, Adjusting(b, p, quantity, direction));
            var level := LevelOf(s.ledger, p);
            var target := if direction == Increase then level + quantity else level - quantity;
            var valid := direction != Unknown && quantity > 0.0;
            && (!valid ==> r == Reply(s, Some(Unprocessable)))
            && (valid && !Sold(s, b, p) ==> r == Reply(s, Some(NotFound)))
            && (valid && Sold(s, b, p) && target < 0.0 ==> r == Reply(s, Some(Conflict)))
            && (valid && Sold(s, b, p) && target >= 0.0 ==>
                  r.error == None && MovedStock(s, r.state, p, target, ManualAdjustment))
  {
  }
}
