/** Building schedules step by step: how far one transaction can be driven on its own. */
module Schedules {
  import opened Common
  import opened Tables
  import opened Stock
  import opened Interleaving

  /** The same transaction advanced `n` times. */
  function Times(t: nat, n: nat): (turns: seq<Turn>)
    ensures |turns| == n
  {
    if n == 0 then [] else [Advance(t)] + Times(t, n - 1)
  }

  lemma {:induction false} ScheduledAppend(y: System, a: seq<Turn>, b: seq<Turn>)
    ensures Scheduled(y, a + b) == Scheduled(Scheduled(y, a), b)
    decreases |a|
  {
    hide Turned;
    if a == [] {
      assert a + b == b;
    } else {
      assert (a + b)[0] == a[0] && (a + b)[1..] == a[1..] + b;
      ScheduledAppend(Turned(y, a[0]), a[1..], b);
    }
  }

  lemma OneTurn(y: System, turn: Turn)
    ensures Scheduled(y, [turn]) == Turned(y, turn)
  {
    assert [turn][1..] == [];
  }

  /** The rows of the script up to `n` are free for the transaction and its session has enough of each. */
  ghost predicate FreeUpTo(y: System, t: nat, n: nat)
    requires t < |y.txns|
  {
    var x := y.txns[t];
    && x.next <= n <= |x.script|
    && (forall k :: x.next <= k < n && x.script[k].Take? ==>
          x.script[k].product !in y.owner || y.owner[x.script[k].product] == t)
    && (forall p :: Asks(x.script[..n], p) <= Cap(y, t, p))
  }

  /** Only the transaction itself has moved, to its row `n`, and nothing is committed. */
  ghost predicate MovedTo(y: System, z: System, t: nat, n: nat) {
    && |z.txns| == |y.txns| && t < |y.txns|
    && (forall u :: 0 <= u < |y.txns| && u != t ==> z.txns[u] == y.txns[u])
    && IsRunning(z, t) && z.txns[t].next == n && z.txns[t].script == y.txns[t].script
    && y.txns[t].next <= n <= |z.txns[t].script|
    && z.stock == y.stock && z.order == y.order
    && (forall p :: Cap(z, t, p) == Cap(y, t, p))
  }

  lemma TxnFacts(initial: map<nat, real>, y: System, t: nat, p: nat)
    requires SystemOk(initial, y) && IsRunning(y, t)
    ensures Proper(y.txns[t].script) && y.txns[t].next <= |y.txns[t].script| && RowOk(y, t, p)
    ensures At(y.stock, p) >= 0.0
  {
    assert TxnOk(y, t);
  }

  /** A select gives what the session can still take, less what it has taken. */
  lemma ReadIsCap(initial: map<nat, real>, y: System, t: nat, p: nat)
    requires SystemOk(initial, y) && IsRunning(y, t)
    ensures y.txns[t].next <= |y.txns[t].script|
    ensures Read(y, t, p) == Cap(y, t, p) - Asks(y.txns[t].script[..y.txns[t].next], p)
  {
    var x := y.txns[t];
    TxnFacts(initial, y, t, p);
    if p !in x.seen && Asks(x.script[..x.next], p) != 0.0 {
      AsksNeedsLock(x.script, x.next, p);
    }
  }

  lemma NextRowFits(initial: map<nat, real>, y: System, t: nat, n: nat)
    requires SystemOk(initial, y) && IsRunning(y, t) && FreeUpTo(y, t, n) && y.txns[t].next < n
    ensures WantsRow(y, t) && !IsBlocked(y, t)
    ensures var x := y.txns[t].script[y.txns[t].next];
            x.Take? ==> x.qty >= 0.0 && Read(y, t, x.product) >= x.qty
  {
    hide SystemOk, Read, Cap, RowOk;
    var x := y.txns[t];
    var a := x.script[x.next];
    TxnFacts(initial, y, t, a.product);
    ReadIsCap(initial, y, t, a.product);
    MetStep(x.script, x.next, a.product);
    assert x.script[..n][..x.next + 1] == x.script[..x.next + 1];
    AsksPrefix(x.script[..n], x.next + 1, a.product);
    assert Asks(x.script[..n], a.product) <= Cap(y, t, a.product);
  }

  lemma CapStays(initial: map<nat, real>, y: System, t: nat, p: nat)
    requires SystemOk(initial, y) && WantsRow(y, t) && !IsBlocked(y, t)
    requires Advanced(y, t).txns[t].phase == RUNNING
    ensures y.txns[t].next < |y.txns[t].script| && Cap(Advanced(y, t), t, p) == Cap(y, t, p)
  {
    hide SystemOk, Asks;
    var x := y.txns[t];
    MetStep(x.script, x.next, p);
    ReadIsCap(initial, y, t, p);
  }

  lemma AdvanceOnce(initial: map<nat, real>, y: System, t: nat, n: nat)
    requires SystemOk(initial, y) && IsRunning(y, t) && FreeUpTo(y, t, n) && y.txns[t].next < n
    ensures var z := Advanced(y, t);
            SystemOk(initial, z) && MovedTo(y, z, t, y.txns[t].next + 1) && FreeUpTo(z, t, n)
  {
    hide SystemOk, Asks, Read, IsBlocked, Cap;
    var z := Advanced(y, t);
    NextRowFits(initial, y, t, n);
    TurnKeeps(initial, y, Advance(t));
    forall p: nat ensures Cap(z, t, p) == Cap(y, t, p) {
      CapStays(initial, y, t, p);
    }
  }

  /** A transaction whose rows are free and sufficient up to `n` can be driven there. */
  lemma {:induction false} AdvanceTo(initial: map<nat, real>, y: System, t: nat, n: nat)
    requires SystemOk(initial, y) && IsRunning(y, t) && FreeUpTo(y, t, n)
    ensures y.txns[t].next <= n
    ensures var z := Scheduled(y, Times(t, n - y.txns[t].next));
            SystemOk(initial, z) && MovedTo(y, z, t, n)
    decreases n - y.txns[t].next
  {
    hide SystemOk, Advanced, Cap, Asks;
    if y.txns[t].next < n {
      AdvanceOnce(initial, y, t, n);
      var turns := Times(t, n - y.txns[t].next);
      assert turns[0] == Advance(t) && turns[1..] == Times(t, n - y.txns[t].next - 1);
      AdvanceTo(initial, Advanced(y, t), t, n);
    }
  }

  /** In a system where nothing is committed every session can take what there was at the start. */
  lemma EarlyCap(initial: map<nat, real>, y: System, t: nat, p: nat)
    requires SystemOk(initial, y) && IsRunning(y, t) && y.order == []
    ensures y.txns[t].next <= |y.txns[t].script| && Cap(y, t, p) == At(initial, p)
  {
    TxnFacts(initial, y, t, p);
  }

  lemma OwnerRuns(initial: map<nat, real>, y: System, p: nat)
    requires SystemOk(initial, y) && p in y.owner
    ensures IsRunning(y, y.owner[p])
  {
  }

  /** A row is locked by a running transaction exactly when the transaction has locked it on its way. */
  lemma LockedIff(initial: map<nat, real>, y: System, t: nat, p: nat)
    requires SystemOk(initial, y) && IsRunning(y, t)
    ensures p in y.owner && y.owner[p] == t <==> Took(y.txns[t].script, y.txns[t].next, p)
  {
    TxnFacts(initial, y, t, p);
  }

  lemma TookAt(script: seq<Access>, n: nat, k: nat)
    requires k < n && k < |script| && script[k].Take?
    ensures Took(script, n, script[k].product)
  {
  }

  /** The rows another running transaction has not locked are free, with two transactions. */
  lemma FreeOf(initial: map<nat, real>, y: System, t: nat, u: nat, n: nat)
    requires SystemOk(initial, y) && |y.txns| == 2 && t < 2 && u < 2 && t != u
    requires n <= |y.txns[t].script|
    requires IsRunning(y, u) ==>
               forall p :: !(Took(y.txns[t].script, n, p) && Took(y.txns[u].script, y.txns[u].next, p))
    ensures forall k :: 0 <= k < n && y.txns[t].script[k].Take? ==>
              y.txns[t].script[k].product !in y.owner || y.owner[y.txns[t].script[k].product] == t
  {
    hide SystemOk, Took;
    var script := y.txns[t].script;
    forall k | 0 <= k < n && script[k].Take?
      ensures script[k].product !in y.owner || y.owner[script[k].product] == t {
      var p := script[k].product;
      TookAt(script, n, k);
      if p in y.owner {
        OwnerRuns(initial, y, p);
        if IsRunning(y, u) {
          LockedIff(initial, y, u, p);
        }
      }
    }
  }
}
