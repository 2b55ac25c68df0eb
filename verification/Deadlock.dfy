/** When concurrent finalises wait for each other, and when they never do. */
module Deadlock {
  import opened Common
  import opened Tables
  import opened Stock
  import opened Materials
  import opened Interleaving
  import opened Schedules

  // ---------- ascending locks ----------

  /** The transaction locks its rows in ascending order. */
  ghost predicate Ascending(script: seq<Access>) {
    forall i, j :: 0 <= i < j < |script| && script[i].Take? && script[j].Take? ==>
                     script[i].product <= script[j].product
  }

  ghost predicate AllAscending(y: System) {
    forall t :: 0 <= t < |y.txns| ==> Ascending(y.txns[t].script)
  }

  /** From a blocked transaction, follow the lock owners upwards to one that can move. */
  lemma {:induction false} FindMover(initial: map<nat, real>, y: System, t: nat, bound: nat) returns (u: nat)
    requires SystemOk(initial, y) && AllAscending(y) && IsRunning(y, t)
    requires forall v, i :: 0 <= v < |y.txns| && 0 <= i < |y.txns[v].script| ==> y.txns[v].script[i].product <= bound
    ensures IsRunning(y, u) && !IsBlocked(y, u)
    decreases if IsBlocked(y, t) then bound + 1 - y.txns[t].script[y.txns[t].next].product else 0
  {
    if !IsBlocked(y, t) {
      u := t;
    } else {
      var p := y.txns[t].script[y.txns[t].next].product;
      var v := y.owner[p];
      OwnerRuns(initial, y, p);
      LockedIff(initial, y, v, p);
      assert Ascending(y.txns[v].script);
      if !IsBlocked(y, v) {
        u := v;
      } else {
        u := FindMover(initial, y, v, bound);
      }
    }
  }

  lemma {:induction false} ScriptBound(script: seq<Access>) returns (bound: nat)
    ensures forall i :: 0 <= i < |script| ==> script[i].product <= bound
  {
    bound := 0;
    if |script| != 0 {
      bound := ScriptBound(script[..|script| - 1]);
      bound := if script[|script| - 1].product > bound then script[|script| - 1].product else bound;
    }
  }

  lemma {:induction false} ProductBound(txns: seq<Txn>) returns (bound: nat)
    ensures forall v, i :: 0 <= v < |txns| && 0 <= i < |txns[v].script| ==> txns[v].script[i].product <= bound
  {
    bound := 0;
    if |txns| != 0 {
      bound := ProductBound(txns[..|txns| - 1]);
      var own := ScriptBound(txns[|txns| - 1].script);
      bound := if own > bound then own else bound;
      forall v, i | 0 <= v < |txns| && 0 <= i < |txns[v].script| ensures txns[v].script[i].product <= bound {
        if v < |txns| - 1 {
          assert txns[..|txns| - 1][v] == txns[v];
        }
      }
    }
  }

  /** If every transaction locked in ascending order, some running transaction could always move. */
  lemma AscendingNeverDeadlocks(initial: map<nat, real>, y: System, t: nat)
    requires SystemOk(initial, y) && AllAscending(y) && IsRunning(y, t)
    ensures exists u :: IsRunning(y, u) && !IsBlocked(y, u)
  {
    var bound := ProductBound(y.txns);
    var u := FindMover(initial, y, t, bound);
  }

  /** Steps a transaction still has to make. */
  function Left(x: Txn): nat {
    if x.phase == RUNNING && x.next <= |x.script| then |x.script| - x.next + 1 else 0
  }

  function Work(txns: seq<Txn>): nat {
    if |txns| == 0 then 0 else Work(txns[..|txns| - 1]) + Left(txns[|txns| - 1])
  }

  lemma {:induction false} WorkUpdate(txns: seq<Txn>, t: nat, x: Txn)
    requires t < |txns|
    ensures Work(txns[t := x]) == Work(txns) - Left(txns[t]) + Left(x)
  {
    var n := |txns| - 1;
    if t < n {
      WorkUpdate(txns[..n], t, x);
      assert txns[t := x][..n] == txns[..n][t := x];
    } else {
      assert txns[t := x][..n] == txns[..n];
    }
  }

  lemma AdvanceSpendsWork(initial: map<nat, real>, y: System, t: nat)
    requires SystemOk(initial, y) && AllAscending(y) && IsRunning(y, t) && !IsBlocked(y, t)
    ensures Work(Advanced(y, t).txns) < Work(y.txns) && AllAscending(Advanced(y, t))
  {
    hide Read, Released, Changed;
    var z := Advanced(y, t);
    TxnFacts(initial, y, t, 0);
    hide SystemOk;
    WorkUpdate(y.txns, t, z.txns[t]);
    assert z.txns == y.txns[t := z.txns[t]];
    forall u | 0 <= u < |z.txns| ensures Ascending(z.txns[u].script) {
      assert Ascending(y.txns[u].script);
    }
  }

  /** With ascending locks every finalise can be driven to its end without killing any. */
  lemma {:induction false} AscendingAlwaysFinishes(initial: map<nat, real>, y: System) returns (turns: seq<Turn>)
    requires SystemOk(initial, y) && AllAscending(y)
    ensures forall i :: 0 <= i < |turns| ==> turns[i].Advance?
    ensures forall t :: !IsRunning(Scheduled(y, turns), t)
    decreases Work(y.txns)
  {
    hide SystemOk, AllAscending, Advanced;
    if t :| IsRunning(y, t) {
      AscendingNeverDeadlocks(initial, y, t);
      var u :| IsRunning(y, u) && !IsBlocked(y, u);
      AdvanceSpendsWork(initial, y, u);
      TurnKeeps(initial, y, Advance(u));
      var rest := AscendingAlwaysFinishes(initial, Turned(y, Advance(u)));
      turns := [Advance(u)] + rest;
      assert turns[1..] == rest;
    } else {
      turns := [];
    }
  }

  // ---------- exactly when two finalises deadlock ----------

  /** Both transactions wait for a row the other holds. */
  predicate Deadlocked(y: System) {
    IsBlocked(y, 0) && IsBlocked(y, 1)
  }

  ghost predicate DeadlocksUnder(stock: map<nat, real>, a: seq<Access>, b: seq<Access>, turns: seq<Turn>) {
    Deadlocked(Scheduled(Started(stock, [a, b]), turns))
  }

  /**
   * The scripts cross at these positions: what they have locked so far has no row in common and
   * is in stock, and each wants to lock next a row the other has locked.
   */
  ghost predicate Crossing(stock: map<nat, real>, a: seq<Access>, b: seq<Access>, i: nat, j: nat) {
    && i < |a| && j < |b| && a[i].Take? && b[j].Take?
    && (forall p :: !(Took(a, i, p) && Took(b, j, p)))
    && Took(b, j, a[i].product) && Took(a, i, b[j].product)
    && (forall p :: Asks(a[..i], p) <= At(stock, p))
    && (forall p :: Asks(b[..j], p) <= At(stock, p))
  }

  /** Nothing has been committed while both transactions run. */
  lemma RunningCommitNothing(y: System)
    requires OrderOk(y) && |y.txns| == 2 && IsRunning(y, 0) && IsRunning(y, 1)
    ensures y.order == []
  {
    if y.order != [] {
      SomeCommitted(y);
      assert false;
    }
  }

  lemma SomeCommitted(y: System)
    requires OrderOk(y) && y.order != []
    ensures exists t :: 0 <= t < |y.txns| && y.txns[t].phase == COMMITTED
  {
    assert y.order[0] < |y.txns| && y.txns[y.order[0]].phase == COMMITTED;
  }

  /** What a transaction has taken before any commit was in stock. */
  lemma TakenWasThere(initial: map<nat, real>, y: System, t: nat, p: nat)
    requires SystemOk(initial, y) && IsRunning(y, t) && y.order == []
    ensures y.txns[t].next <= |y.txns[t].script|
    ensures Asks(y.txns[t].script[..y.txns[t].next], p) <= At(initial, p)
  {
    TxnFacts(initial, y, t, p);
    EarlyCap(initial, y, t, p);
    ReadIsCap(initial, y, t, p);
  }

  lemma DeadlockCrosses(stock: map<nat, real>, a: seq<Access>, b: seq<Access>, turns: seq<Turn>)
    requires forall q :: q in stock ==> stock[q] >= 0.0
    requires Proper(a) && Proper(b) && DeadlocksUnder(stock, a, b, turns)
    ensures var y := Scheduled(Started(stock, [a, b]), turns);
            |y.txns| == 2 && Crossing(stock, a, b, y.txns[0].next, y.txns[1].next)
  {
    hide SystemOk, OrderOk, Took, Asks, At, Scheduled;
    var y0 := Started(stock, [a, b]);
    StartIsOk(stock, [a, b]);
    StartedOrder(stock, [a, b]);
    ScheduleKeeps(stock, y0, turns);
    ScheduleKeepsOrder(y0, turns);
    var y := Scheduled(y0, turns);
    assert y.txns[0].script == y0.txns[0].script == a && y.txns[1].script == y0.txns[1].script == b;
    RunningCommitNothing(y);
    var i, j := y.txns[0].next, y.txns[1].next;
    forall p: nat ensures !(Took(a, i, p) && Took(b, j, p))
      && Asks(a[..i], p) <= At(stock, p) && Asks(b[..j], p) <= At(stock, p) {
      TakenWasThere(stock, y, 0, p);
      TakenWasThere(stock, y, 1, p);
      LockedIff(stock, y, 0, p);
      LockedIff(stock, y, 1, p);
    }
    OwnerRuns(stock, y, a[i].product);
    OwnerRuns(stock, y, b[j].product);
    LockedIff(stock, y, 1, a[i].product);
    LockedIff(stock, y, 0, b[j].product);
  }

  lemma CrossingDeadlocks(stock: map<nat, real>, a: seq<Access>, b: seq<Access>, i: nat, j: nat)
    requires forall q :: q in stock ==> stock[q] >= 0.0
    requires Proper(a) && Proper(b) && Crossing(stock, a, b, i, j)
    ensures DeadlocksUnder(stock, a, b, Times(0, i) + Times(1, j))
  {
    hide SystemOk, Scheduled, Asks, Took, Cap;
    var y0 := Started(stock, [a, b]);
    StartIsOk(stock, [a, b]);
    forall p: nat ensures Cap(y0, 0, p) == At(stock, p) {
      EarlyCap(stock, y0, 0, p);
    }
    AdvanceTo(stock, y0, 0, i);
    var y1 := Scheduled(y0, Times(0, i));
    forall p: nat ensures Cap(y1, 1, p) == At(stock, p) {
      EarlyCap(stock, y1, 1, p);
    }
    FreeOf(stock, y1, 1, 0, j);
    AdvanceTo(stock, y1, 1, j);
    var y2 := Scheduled(y1, Times(1, j));
    ScheduledAppend(y0, Times(0, i), Times(1, j));
    LockedIff(stock, y2, 1, a[i].product);
    LockedIff(stock, y2, 0, b[j].product);
  }

  /**
   * Some schedule makes two finalises wait for each other exactly when their scripts cross
   * somewhere: disjoint locked rows, all in stock, each wanting next a row of the other's.
   */
  lemma DeadlockIff(stock: map<nat, real>, a: seq<Access>, b: seq<Access>)
    requires forall q :: q in stock ==> stock[q] >= 0.0
    requires Proper(a) && Proper(b)
    ensures (exists turns :: DeadlocksUnder(stock, a, b, turns)) <==> (exists i, j :: Crossing(stock, a, b, i, j))
  {
    hide DeadlocksUnder, Crossing;
    if turns :| DeadlocksUnder(stock, a, b, turns) {
      DeadlockCrosses(stock, a, b, turns);
    }
    if i, j :| Crossing(stock, a, b, i, j) {
      CrossingDeadlocks(stock, a, b, i, j);
    }
  }

  predicate Tracked(products: map<nat, Product>, p: nat) {
    p in products && products[p].itemType == PRODUCT && products[p].trackStock
  }

  lemma OneLineScript(products: map<nat, Product>, rows: seq<MaterialRow>, x: Line)
    ensures Script(products, rows, [x]) == LineAccesses(products, rows, x)
  {
    assert [x][..0] == [];
    assert Script(products, rows, [x]) == Script(products, rows, [x][..0]) + LineAccesses(products, rows, x);
  }

  lemma TwoLineScript(products: map<nat, Product>, rows: seq<MaterialRow>, x: Line, y: Line)
    ensures Script(products, rows, [x, y]) == LineAccesses(products, rows, x) + LineAccesses(products, rows, y)
  {
    assert [x, y][..1] == [x];
    OneLineScript(products, rows, x);
    assert Script(products, rows, [x, y]) == Script(products, rows, [x, y][..1]) + LineAccesses(products, rows, y);
  }

  /**
   * Two sales of the same two tracked products, listed in opposite order, can deadlock exactly
   * when the first line of each is in stock.
   */
  lemma OppositeLinesDeadlockIff(
    products: map<nat, Product>, rows: seq<MaterialRow>, stock: map<nat, real>,
    p: nat, q: nat, x: real, y: real, x': real, y': real)
    requires forall r :: r in stock ==> stock[r] >= 0.0
    requires Tracked(products, p) && Tracked(products, q) && p != q
    requires x > 0.0 && y > 0.0 && x' > 0.0 && y' > 0.0
    ensures var a := Script(products, rows, [Line(p, x, 0.0), Line(q, y, 0.0)]);
            var b := Script(products, rows, [Line(q, y', 0.0), Line(p, x', 0.0)]);
            (exists turns :: DeadlocksUnder(stock, a, b, turns)) <==> x <= At(stock, p) && y' <= At(stock, q)
  {
    TwoLineScript(products, rows, Line(p, x, 0.0), Line(q, y, 0.0));
    TwoLineScript(products, rows, Line(q, y', 0.0), Line(p, x', 0.0));
    var a, b := [Take(p, x), Take(q, y)], [Take(q, y'), Take(p, x')];
    assert [Take(p, x)] + [Take(q, y)] == a && [Take(q, y')] + [Take(p, x')] == b;
    hide DeadlocksUnder, Script;
    DeadlockIff(stock, a, b);
    OppositeCross(stock, p, q, x, y, x', y');
  }

  lemma OppositeCross(stock: map<nat, real>, p: nat, q: nat, x: real, y: real, x': real, y': real)
    requires (forall r :: r in stock ==> stock[r] >= 0.0) && p != q
    ensures var a, b := [Take(p, x), Take(q, y)], [Take(q, y'), Take(p, x')];
            (exists i, j :: Crossing(stock, a, b, i, j)) <==> x <= At(stock, p) && y' <= At(stock, q)
  {
    var a, b := [Take(p, x), Take(q, y)], [Take(q, y'), Take(p, x')];
    FirstAsks(a);
    FirstAsks(b);
    if i, j :| Crossing(stock, a, b, i, j) {
      assert i == 1 && j == 1;
      assert Asks(a[..1], p) <= At(stock, p) && Asks(b[..1], q) <= At(stock, q);
    }
    if x <= At(stock, p) && y' <= At(stock, q) {
      TookAt(a, 1, 0);
      TookAt(b, 1, 0);
      assert Crossing(stock, a, b, 1, 1);
    }
  }

  lemma FirstAsks(script: seq<Access>)
    requires |script| > 0
    ensures forall p: nat :: Asks(script[..1], p) == TakenBy(script[0], p)
  {
    assert script[..1][..0] == [];
  }
}
