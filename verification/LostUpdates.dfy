/**
 * A recipe row is loaded without a lock and not loaded again when it is locked, so a finalise
 * can deduct from a value that another one has overtaken, and undo what that one took. This
 * module says exactly when that happens to two finalises.
 */
module LostUpdates {
  import opened Common
  import opened Tables
  import opened Stock
  import opened Materials
  import opened Interleaving
  import opened Schedules
  import opened Deadlock

  /** The law of conservation fails for some product after the schedule. */
  ghost predicate BrokenUnder(stock: map<nat, real>, scripts: seq<seq<Access>>, turns: seq<Turn>) {
    Broken(stock, scripts, Scheduled(Started(stock, scripts), turns))
  }

  ghost predicate Broken(stock: map<nat, real>, scripts: seq<seq<Access>>, y: System) {
    exists p: nat :: !Kept(stock, scripts, y, p)
  }

  ghost predicate Kept(stock: map<nat, real>, scripts: seq<seq<Access>>, y: System, p: nat) {
    At(y.stock, p) == At(stock, p) - OrderDemand(scripts, y.order, p)
  }

  /** What the second session can take: the old level of the rows it has met, the new one of the others. */
  function Seen(stock: map<nat, real>, a: seq<Access>, b: seq<Access>, n: nat, p: nat): real
    requires n <= |b|
  {
    if exists k :: 0 <= k < n && b[k].product == p then At(stock, p) else At(stock, p) - Asks(a, p)
  }

  /**
   * `a` can commit while `b` has come to position `n`, and `b` can then commit too: `b` has
   * locked no row of `a` so far, `a` is in stock, and so is `b` with the rows it has met at
   * their old level; one of those rows both take from.
   */
  ghost predicate Stale(stock: map<nat, real>, a: seq<Access>, b: seq<Access>, n: nat) {
    && n <= |b|
    && (forall p :: !(Took(b, n, p) && Took(a, |a|, p)))
    && (forall p :: Asks(a, p) <= At(stock, p))
    && (forall p :: Asks(b, p) <= Seen(stock, a, b, n, p))
    && (exists m :: Lost(a, b, n, m))
  }

  /** `b` has met the row by position `n`, and both scripts take from it. */
  ghost predicate Lost(a: seq<Access>, b: seq<Access>, n: nat, m: nat) {
    Met(b, n, m) && Asks(a, m) > 0.0 && Asks(b, m) > 0.0
  }

  lemma SeenIs(stock: map<nat, real>, a: seq<Access>, b: seq<Access>, n: nat, p: nat)
    requires n <= |b|
    ensures Seen(stock, a, b, n, p) == if Met(b, n, p) then At(stock, p) else At(stock, p) - Asks(a, p)
  {
  }

  // ---------- a broken schedule is a stale one ----------

  /** The first transaction has committed when the second, still running, was at position `n`. */
  ghost predicate Overtaken(stock: map<nat, real>, a: seq<Access>, b: seq<Access>, n: nat, x: Txn) {
    && x.script == b && n <= x.next <= |b|
    && (forall p :: !(Took(b, n, p) && Took(a, |a|, p)))
    && (forall p :: Asks(a, p) <= At(stock, p))
    && (forall p :: p in x.seen ==> Loaded(x, p) == Seen(stock, a, b, n, p))
  }

  ghost predicate WasOvertaken(stock: map<nat, real>, a: seq<Access>, b: seq<Access>, x: Txn) {
    exists n :: Overtaken(stock, a, b, n, x)
  }

  /** What has happened so far to two transactions, by the number of commits. */
  ghost predicate PairOk(stock: map<nat, real>, scripts: seq<seq<Access>>, y: System) {
    && |scripts| == 2 && RunsScripts(y, scripts) && OrderOk(y)
    && (|y.order| == 1 ==>
          var u := y.order[0];
          var v := 1 - u;
          && u < 2 && (forall p :: At(y.stock, p) == At(stock, p) - Asks(scripts[u], p))
          && (IsRunning(y, v) ==> WasOvertaken(stock, scripts[u], scripts[v], y.txns[v])))
    && (|y.order| == 2 ==>
          var u, v := y.order[0], y.order[1];
          && u < 2 && v == 1 - u
          && (Broken(stock, scripts, y) ==> exists n :: Stale(stock, scripts[u], scripts[v], n)))
  }

  lemma NoneKept(stock: map<nat, real>, scripts: seq<seq<Access>>, p: nat)
    ensures OrderDemand(scripts, [], p) == 0.0
  {
  }

  lemma OrderOfOne(scripts: seq<seq<Access>>, u: nat, p: nat)
    requires u < |scripts|
    ensures OrderDemand(scripts, [u], p) == Asks(scripts[u], p)
  {
    assert [u][..0] == [];
  }

  lemma OrderOfTwo(scripts: seq<seq<Access>>, u: nat, v: nat, p: nat)
    requires u < |scripts| && v < |scripts|
    ensures OrderDemand(scripts, [u, v], p) == Asks(scripts[u], p) + Asks(scripts[v], p)
  {
    assert [u, v][..1] == [u];
    OrderOfOne(scripts, u, p);
  }

  lemma TwoAlike(order: seq<nat>)
    requires |order| > 2 && forall i :: 0 <= i < |order| ==> order[i] < 2
    ensures exists i, j :: 0 <= i < j < |order| && order[i] == order[j]
  {
    assert order[0] == order[1] || order[0] == order[2] || order[1] == order[2];
  }

  /** With two transactions at most two commit. */
  lemma OrderIsShort(y: System)
    requires OrderOk(y) && |y.txns| == 2
    ensures |y.order| <= 2
    ensures |y.order| == 1 ==> y.order[0] < 2 && y.txns[y.order[0]].phase == COMMITTED
    ensures |y.order| == 2 ==> y.order[0] < 2 && y.order[1] == 1 - y.order[0] && forall t :: !IsRunning(y, t)
  {
    if |y.order| >= 2 {
      assert y.order[0] < 2 && y.order[1] < 2 && y.order[0] != y.order[1];
      assert y.txns[y.order[0]].phase == COMMITTED && y.txns[y.order[1]].phase == COMMITTED;
    }
    if |y.order| > 2 {
      TwoAlike(y.order);
      assert false;
    }
  }

  /** The first commit takes the demand of its transaction; the other one has met only old levels. */
  lemma FirstCommit(stock: map<nat, real>, scripts: seq<seq<Access>>, y: System, t: nat)
    requires SystemOk(stock, y) && PairOk(stock, scripts, y) && y.order == []
    requires IsRunning(y, t) && !WantsRow(y, t)
    ensures PairOk(stock, scripts, Advanced(y, t))
  {
    hide SystemOk, OrderOk, Asks, Took, Met, Loaded, Seen, Changed, Released, At;
    var z, v := Advanced(y, t), 1 - t;
    TurnKeepsOrder(y, Advance(t));
    TurnKeepsScripts(y, Advance(t));
    assert |z.order| == 1 && z.order[0] == t;
    forall p: nat ensures At(z.stock, p) == At(stock, p) - Asks(scripts[t], p) && Asks(scripts[t], p) <= At(stock, p) {
      FirstCommitRow(stock, y, t, p);
    }
    if IsRunning(z, v) {
      TxnFacts(stock, y, v, 0);
      assert z.txns[v] == y.txns[v] && y.txns[t].script == scripts[t] && y.txns[v].script == scripts[v];
      var n := y.txns[v].next;
      forall p: nat ensures !(Took(scripts[v], n, p) && Took(scripts[t], |scripts[t]|, p))
        && (p in y.txns[v].seen ==> Loaded(y.txns[v], p) == Seen(stock, scripts[t], scripts[v], n, p)) {
        FirstCommitOther(stock, y, t, v, p);
      }
      assert Overtaken(stock, scripts[t], scripts[v], n, z.txns[v]);
    }
  }

  lemma FirstCommitRow(stock: map<nat, real>, y: System, t: nat, p: nat)
    requires SystemOk(stock, y) && y.order == [] && IsRunning(y, t) && !WantsRow(y, t)
    ensures At(Advanced(y, t).stock, p) == At(stock, p) - Asks(y.txns[t].script, p)
    ensures Asks(y.txns[t].script, p) <= At(stock, p)
  {
    TxnFacts(stock, y, t, p);
    assert TxnOk(y, t);
    CommitInstalls(y, t, p);
    assert At(y.stock, p) == At(stock, p);
  }

  lemma FirstCommitOther(stock: map<nat, real>, y: System, t: nat, v: nat, p: nat)
    requires SystemOk(stock, y) && y.order == [] && IsRunning(y, t) && !WantsRow(y, t) && IsRunning(y, v) && v != t
    ensures y.txns[v].next <= |y.txns[v].script|
    ensures !(Took(y.txns[v].script, y.txns[v].next, p) && Took(y.txns[t].script, |y.txns[t].script|, p))
    ensures p in y.txns[v].seen ==>
              Loaded(y.txns[v], p) == Seen(stock, y.txns[t].script, y.txns[v].script, y.txns[v].next, p)
  {
    TxnFacts(stock, y, t, p);
    TxnFacts(stock, y, v, p);
    assert At(y.stock, p) == At(stock, p);
    SeenIs(stock, y.txns[t].script, y.txns[v].script, y.txns[v].next, p);
  }

  /** A step of the second transaction after the first has committed. */
  lemma SecondStep(stock: map<nat, real>, a: seq<Access>, n: nat, y: System, v: nat)
    requires SystemOk(stock, y) && WantsRow(y, v) && !IsBlocked(y, v) && Advanced(y, v).txns[v].phase == RUNNING
    requires Overtaken(stock, a, y.txns[v].script, n, y.txns[v])
    requires forall p :: At(y.stock, p) == At(stock, p) - Asks(a, p)
    ensures Overtaken(stock, a, y.txns[v].script, n, Advanced(y, v).txns[v])
  {
    hide SystemOk, Asks, Took, Loaded, Seen, Met, Read, Cap;
    var z := Advanced(y, v);
    var b := y.txns[v].script;
    TurnKeeps(stock, y, Advance(v));
    forall p | p in z.txns[v].seen
      ensures z.txns[v].next <= |b| && Loaded(z.txns[v], p) == Seen(stock, a, b, n, p) {
      SecondStepRow(stock, a, n, y, v, p);
    }
  }

  lemma SecondStepRow(stock: map<nat, real>, a: seq<Access>, n: nat, y: System, v: nat, p: nat)
    requires SystemOk(stock, y) && WantsRow(y, v) && !IsBlocked(y, v) && Advanced(y, v).txns[v].phase == RUNNING
    requires n <= y.txns[v].next <= |y.txns[v].script| && At(y.stock, p) == At(stock, p) - Asks(a, p)
    requires p in y.txns[v].seen ==> Loaded(y.txns[v], p) == Seen(stock, a, y.txns[v].script, n, p)
    requires p in Advanced(y, v).txns[v].seen
    ensures y.txns[v].next < |y.txns[v].script|
    ensures Loaded(Advanced(y, v).txns[v], p) == Seen(stock, a, y.txns[v].script, n, p)
  {
    hide SystemOk, Asks, Read, Loaded;
    CapStays(stock, y, v, p);
    TxnFacts(stock, y, v, p);
    SeenIs(stock, a, y.txns[v].script, n, p);
    if p !in y.txns[v].seen && Met(y.txns[v].script, n, p) {
      MetLater(y.txns[v].script, n, y.txns[v].next, p);
    }
  }

  lemma MetLater(script: seq<Access>, n: nat, m: nat, p: nat)
    requires n <= m && Met(script, n, p)
    ensures Met(script, m, p)
  {
  }

  /** The second commit breaks the law only by installing a stale row. */
  lemma SecondCommit(stock: map<nat, real>, scripts: seq<seq<Access>>, y: System, u: nat, v: nat, n: nat)
    requires SystemOk(stock, y) && RunsScripts(y, scripts) && |scripts| == 2 && u < 2 && v == 1 - u
    requires y.order == [u] && IsRunning(y, v) && !WantsRow(y, v)
    requires Overtaken(stock, scripts[u], scripts[v], n, y.txns[v])
    requires forall p :: At(y.stock, p) == At(stock, p) - Asks(scripts[u], p)
    requires Broken(stock, scripts, Advanced(y, v))
    ensures Stale(stock, scripts[u], scripts[v], n)
  {
    hide SystemOk, Asks, Took, Seen, Met, Loaded;
    var z := Advanced(y, v);
    forall p: nat ensures Asks(scripts[v], p) <= Seen(stock, scripts[u], scripts[v], n, p)
      && (Kept(stock, scripts, z, p) || Lost(scripts[u], scripts[v], n, p)) {
      SecondCommitRow(stock, scripts, y, u, v, n, p);
    }
    var p: nat :| !Kept(stock, scripts, z, p);
    assert Lost(scripts[u], scripts[v], n, p);
  }

  lemma SecondCommitRow(stock: map<nat, real>, scripts: seq<seq<Access>>, y: System, u: nat, v: nat, n: nat, p: nat)
    requires SystemOk(stock, y) && RunsScripts(y, scripts) && |scripts| == 2 && u < 2 && v == 1 - u
    requires y.order == [u] && IsRunning(y, v) && !WantsRow(y, v)
    requires n <= y.txns[v].next <= |scripts[v]| && At(y.stock, p) == At(stock, p) - Asks(scripts[u], p)
    requires p in y.txns[v].seen ==> Loaded(y.txns[v], p) == Seen(stock, scripts[u], scripts[v], n, p)
    requires 0.0 <= At(y.stock, p)
    ensures Asks(scripts[v], p) <= Seen(stock, scripts[u], scripts[v], n, p)
    ensures Kept(stock, scripts, Advanced(y, v), p) || Lost(scripts[u], scripts[v], n, p)
  {
    TxnFacts(stock, y, v, p);
    assert TxnOk(y, v) && TxnOk(y, u);
    hide SystemOk, Asks, Loaded;
    CommitInstalls(y, v, p);
    SeenIs(stock, scripts[u], scripts[v], n, p);
    OrderOfTwo(scripts, u, v, p);
    assert Advanced(y, v).order == [u, v];
    AsksNatural(scripts[u], p);
    if p !in y.txns[v].seen && Met(scripts[v], n, p) {
      MetLater(scripts[v], n, y.txns[v].next, p);
    }
  }

  lemma AsksNatural(script: seq<Access>, p: nat)
    requires Proper(script)
    ensures Asks(script, p) >= 0.0
  {
    AsksPrefix(script, |script|, p);
    assert script[..|script|] == script;
  }

  lemma CommitKeepsPair(stock: map<nat, real>, scripts: seq<seq<Access>>, y: System, t: nat)
    requires SystemOk(stock, y) && PairOk(stock, scripts, y) && IsRunning(y, t) && !WantsRow(y, t)
    ensures PairOk(stock, scripts, Advanced(y, t))
  {
    OrderIsShort(y);
    if |y.order| == 0 {
      FirstCommit(stock, scripts, y, t);
    } else {
      SecondKeepsPair(stock, scripts, y, t);
    }
  }

  lemma SecondKeepsPair(stock: map<nat, real>, scripts: seq<seq<Access>>, y: System, t: nat)
    requires SystemOk(stock, y) && PairOk(stock, scripts, y) && IsRunning(y, t) && !WantsRow(y, t)
    requires |y.order| == 1
    ensures PairOk(stock, scripts, Advanced(y, t))
  {
    hide SystemOk, OrderOk, Broken, Stale, Overtaken, At, Changed, Released, Asks;
    OrderIsShort(y);
    var u, z := y.order[0], Advanced(y, t);
    assert t == 1 - u && y.order == [u];
    TurnKeepsOrder(y, Advance(t));
    TurnKeepsScripts(y, Advance(t));
    assert |z.order| == 2 && z.order[0] == u && z.order[1] == t;
    var n :| Overtaken(stock, scripts[u], scripts[t], n, y.txns[t]);
    if Broken(stock, scripts, z) {
      SecondCommit(stock, scripts, y, u, t, n);
    }
  }

  lemma OvertakenStays(stock: map<nat, real>, scripts: seq<seq<Access>>, y: System, turn: Turn, u: nat, v: nat)
    requires SystemOk(stock, y) && RunsScripts(y, scripts) && u < |scripts| && v < |scripts|
    requires forall p :: At(y.stock, p) == At(stock, p) - Asks(scripts[u], p)
    requires IsRunning(y, v) ==> WasOvertaken(stock, scripts[u], scripts[v], y.txns[v])
    requires Turned(y, turn).order == y.order && IsRunning(Turned(y, turn), v)
    ensures WasOvertaken(stock, scripts[u], scripts[v], Turned(y, turn).txns[v])
  {
    hide SystemOk, Overtaken, At, Changed, Released, Read, Asks;
    var z := Turned(y, turn);
    TurnKeepsScripts(y, turn);
    assert IsRunning(y, v);
    var n :| Overtaken(stock, scripts[u], scripts[v], n, y.txns[v]);
    if z.txns[v] != y.txns[v] {
      SecondStep(stock, scripts[u], n, y, v);
      assert z.txns[v] == Advanced(y, v).txns[v];
    }
    assert Overtaken(stock, scripts[u], scripts[v], n, z.txns[v]);
  }

  /** Turns that commit nothing. */
  lemma OtherKeepsPair(stock: map<nat, real>, scripts: seq<seq<Access>>, y: System, turn: Turn)
    requires SystemOk(stock, y) && PairOk(stock, scripts, y)
    requires Turned(y, turn).order == y.order && Turned(y, turn).stock == y.stock
    ensures PairOk(stock, scripts, Turned(y, turn))
  {
    var z := Turned(y, turn);
    OrderIsShort(y);
    TurnKeepsOrder(y, turn);
    TurnKeepsScripts(y, turn);
    if |y.order| == 1 && IsRunning(z, 1 - y.order[0]) {
      OvertakenOfPair(stock, scripts, y, turn);
    }
    hide Turned, SystemOk, OrderOk, At, Asks, Broken, Stale, Overtaken;
    PairStays(stock, scripts, y, z);
  }

  lemma OvertakenOfPair(stock: map<nat, real>, scripts: seq<seq<Access>>, y: System, turn: Turn)
    requires SystemOk(stock, y) && PairOk(stock, scripts, y) && |y.order| == 1
    requires Turned(y, turn).order == y.order && y.order[0] < 2 && IsRunning(Turned(y, turn), 1 - y.order[0])
    ensures WasOvertaken(stock, scripts[y.order[0]], scripts[1 - y.order[0]], Turned(y, turn).txns[1 - y.order[0]])
  {
    hide SystemOk, OrderOk, At, Asks, Broken, Stale, Overtaken, Turned;
    OvertakenStays(stock, scripts, y, turn, y.order[0], 1 - y.order[0]);
  }

  lemma PairStays(stock: map<nat, real>, scripts: seq<seq<Access>>, y: System, z: System)
    requires PairOk(stock, scripts, y) && RunsScripts(z, scripts) && OrderOk(z)
    requires z.order == y.order && z.stock == y.stock
    requires |y.order| == 1 && y.order[0] < 2 && IsRunning(z, 1 - y.order[0]) ==>
               WasOvertaken(stock, scripts[y.order[0]], scripts[1 - y.order[0]], z.txns[1 - y.order[0]])
    ensures PairOk(stock, scripts, z)
  {
    hide OrderOk, At, Asks, Broken, Stale, Overtaken;
    if |y.order| == 2 && Broken(stock, scripts, z) {
      SameBroken(stock, scripts, y, z);
    }
  }

  lemma SameBroken(stock: map<nat, real>, scripts: seq<seq<Access>>, y: System, z: System)
    requires z.order == y.order && z.stock == y.stock && Broken(stock, scripts, z)
    ensures Broken(stock, scripts, y)
  {
    var p: nat :| !Kept(stock, scripts, z, p);
    assert !Kept(stock, scripts, y, p);
  }

  lemma TurnKeepsPair(stock: map<nat, real>, scripts: seq<seq<Access>>, y: System, turn: Turn)
    requires SystemOk(stock, y) && PairOk(stock, scripts, y)
    ensures PairOk(stock, scripts, Turned(y, turn))
  {
    hide SystemOk, PairOk, Changed, Released, Read;
    if turn.Advance? && IsRunning(y, turn.txn) && !WantsRow(y, turn.txn) {
      CommitKeepsPair(stock, scripts, y, turn.txn);
    } else {
      OtherKeepsPair(stock, scripts, y, turn);
    }
  }

  lemma {:induction false} ScheduleKeepsPair(
    stock: map<nat, real>, scripts: seq<seq<Access>>, y: System, turns: seq<Turn>)
    requires SystemOk(stock, y) && PairOk(stock, scripts, y)
    ensures SystemOk(stock, Scheduled(y, turns)) && PairOk(stock, scripts, Scheduled(y, turns))
    decreases |turns|
  {
    hide SystemOk, PairOk, Turned;
    if |turns| != 0 {
      TurnKeeps(stock, y, turns[0]);
      TurnKeepsPair(stock, scripts, y, turns[0]);
      ScheduleKeepsPair(stock, scripts, Turned(y, turns[0]), turns[1..]);
    }
  }

  /** Up to one commit the law holds. */
  lemma OneCommitIsLawful(stock: map<nat, real>, scripts: seq<seq<Access>>, y: System)
    requires SystemOk(stock, y) && PairOk(stock, scripts, y) && |y.order| <= 1
    ensures !Broken(stock, scripts, y)
  {
    hide OrderOk, Asks, At;
    forall p: nat ensures Kept(stock, scripts, y, p) {
      if |y.order| == 1 {
        assert y.order == [y.order[0]];
        OrderOfOne(scripts, y.order[0], p);
      } else {
        assert y.order == [];
        NoneKept(stock, scripts, p);
      }
    }
  }

  lemma BrokenIsStale(stock: map<nat, real>, a: seq<Access>, b: seq<Access>, turns: seq<Turn>)
    requires forall q :: q in stock ==> stock[q] >= 0.0
    requires Proper(a) && Proper(b) && BrokenUnder(stock, [a, b], turns)
    ensures exists n :: Stale(stock, a, b, n) || Stale(stock, b, a, n)
  {
    var scripts := [a, b];
    StartIsOk(stock, scripts);
    StartedOrder(stock, scripts);
    ScheduleKeepsPair(stock, scripts, Started(stock, scripts), turns);
    var y := Scheduled(Started(stock, scripts), turns);
    OrderIsShort(y);
    hide SystemOk, Stale, Broken, Scheduled, OrderOk;
    if |y.order| <= 1 {
      OneCommitIsLawful(stock, scripts, y);
      assert false;
    } else {
      var u := y.order[0];
      var n :| Stale(stock, scripts[u], scripts[1 - u], n);
    }
  }

  // ---------- a stale pair has a broken schedule ----------

  /** Drive `v` to position `n`, then `u` to its commit, then `v` to its commit. */
  function StaleTurns(scripts: seq<seq<Access>>, u: nat, v: nat, n: nat): seq<Turn>
    requires u < |scripts| && v < |scripts| && n <= |scripts[v]|
  {
    Times(v, n) + (Times(u, |scripts[u]|) + ([Advance(u)] + (Times(v, |scripts[v]| - n) + [Advance(v)])))
  }

  /** The second transaction at position `n`, the first at its end, nothing committed. */
  lemma BothReady(stock: map<nat, real>, scripts: seq<seq<Access>>, u: nat, v: nat, n: nat) returns (y: System)
    requires forall q :: q in stock ==> stock[q] >= 0.0
    requires |scripts| == 2 && Proper(scripts[0]) && Proper(scripts[1]) && u < 2 && v == 1 - u
    requires Stale(stock, scripts[u], scripts[v], n)
    ensures y == Scheduled(Scheduled(Started(stock, scripts), Times(v, n)), Times(u, |scripts[u]|))
    ensures SystemOk(stock, y) && RunsScripts(y, scripts) && y.order == []
    ensures IsRunning(y, u) && IsRunning(y, v) && y.txns[u].next == |scripts[u]| && y.txns[v].next == n
  {
    hide SystemOk, Scheduled, Asks, Took, Cap, At;
    var y0 := Started(stock, scripts);
    StartIsOk(stock, scripts);
    forall p: nat ensures Cap(y0, v, p) == At(stock, p) && Asks(scripts[v][..n], p) <= At(stock, p)  {
      EarlyCap(stock, y0, v, p);
      PartInStock(stock, scripts[u], scripts[v], n, p);
    }
    AdvanceTo(stock, y0, v, n);
    var y1 := Scheduled(y0, Times(v, n));
    forall p: nat ensures Cap(y1, u, p) == At(stock, p) {
      EarlyCap(stock, y1, u, p);
    }
    FreeOf(stock, y1, u, v, |scripts[u]|);
    assert scripts[u][..|scripts[u]|] == scripts[u];
    AdvanceTo(stock, y1, u, |scripts[u]|);
    y := Scheduled(y1, Times(u, |scripts[u]|));
  }

  lemma PartInStock(stock: map<nat, real>, a: seq<Access>, b: seq<Access>, n: nat, p: nat)
    requires Proper(a) && Proper(b) && n <= |b| && Asks(b, p) <= Seen(stock, a, b, n, p)
    ensures Asks(b[..n], p) <= At(stock, p)
  {
    AsksPrefix(b, n, p);
    AsksNatural(a, p);
    SeenIs(stock, a, b, n, p);
  }

  /** After the first commit the second session can still take what it has met at its old level. */
  lemma CapAfterCommit(stock: map<nat, real>, scripts: seq<seq<Access>>, y: System, u: nat, v: nat, n: nat, p: nat)
    requires SystemOk(stock, y) && RunsScripts(y, scripts) && |scripts| == 2 && u < 2 && v == 1 - u
    requires y.order == [] && IsRunning(y, u) && IsRunning(y, v)
    requires y.txns[u].next == |scripts[u]| && y.txns[v].next == n
    ensures n <= |scripts[v]|
    ensures var z := Advanced(y, u);
            && z.txns[v] == y.txns[v]
            && Cap(z, v, p) == Seen(stock, scripts[u], scripts[v], n, p)
            && At(z.stock, p) == At(stock, p) - Asks(scripts[u], p)
  {
    hide Asks;
    TxnFacts(stock, y, v, p);
    FirstCommitRow(stock, y, u, p);
    SeenIs(stock, scripts[u], scripts[v], n, p);
    assert At(y.stock, p) == At(stock, p);
  }

  /** Both commit, and what the first took from a stale row is lost. */
  lemma StaleBreaks(stock: map<nat, real>, scripts: seq<seq<Access>>, u: nat, v: nat, n: nat, m: nat)
    requires forall q :: q in stock ==> stock[q] >= 0.0
    requires |scripts| == 2 && Proper(scripts[0]) && Proper(scripts[1]) && u < 2 && v == 1 - u
    requires Stale(stock, scripts[u], scripts[v], n) && Lost(scripts[u], scripts[v], n, m)
    ensures var y := Scheduled(Started(stock, scripts), StaleTurns(scripts, u, v, n));
            && y.order == [u, v]
            && At(y.stock, m) == At(stock, m) - Asks(scripts[v], m)
    ensures BrokenUnder(stock, scripts, StaleTurns(scripts, u, v, n))
  {
    hide SystemOk, Scheduled, Asks, At, Cap, Seen, Stale, Lost, RunsScripts, Changed, Released;
    var y0 := Started(stock, scripts);
    var y2 := BothReady(stock, scripts, u, v, n);
    var y4 := SecondReady(stock, scripts, y2, u, v, n, m);
    var y5 := Advanced(y4, v);
    OneTurn(y2, Advance(u));
    OneTurn(y4, Advance(v));
    Chained(y0, Times(v, n), Times(u, |scripts[u]|), [Advance(u)], Times(v, |scripts[v]| - n), [Advance(v)]);
    LastCommit(stock, scripts, y4, u, v, n, m);
    LostIsPositive(scripts[u], scripts[v], n, m);
    OrderOfTwo(scripts, u, v, m);
    assert y5.order == [u, v];
    assert !Kept(stock, scripts, y5, m);
  }

  lemma LostIsPositive(a: seq<Access>, b: seq<Access>, n: nat, m: nat)
    requires Lost(a, b, n, m)
    ensures Asks(a, m) > 0.0
  {
  }

  /** The first commits, and the second is driven to its end. */
  lemma SecondReady(
    stock: map<nat, real>, scripts: seq<seq<Access>>, y: System, u: nat, v: nat, n: nat, m: nat) returns (z: System)
    requires SystemOk(stock, y) && RunsScripts(y, scripts) && |scripts| == 2 && u < 2 && v == 1 - u
    requires y.order == [] && IsRunning(y, u) && IsRunning(y, v)
    requires y.txns[u].next == |scripts[u]| && y.txns[v].next == n
    requires Stale(stock, scripts[u], scripts[v], n)
    ensures z == Scheduled(Advanced(y, u), Times(v, |scripts[v]| - n))
    ensures SystemOk(stock, z) && IsRunning(z, v) && z.txns[v].script == scripts[v] && z.order == [u]
    ensures z.txns[v].next == |scripts[v]| && Cap(z, v, m) == Seen(stock, scripts[u], scripts[v], n, m)
  {
    hide SystemOk, Scheduled, Asks, Took, Cap, At, Seen, Changed, Released, Met, Lost;
    var y3 := Advanced(y, u);
    TurnKeeps(stock, y, Advance(u));
    TurnKeepsScripts(y, Advance(u));
    forall p: nat ensures y3.txns[v] == y.txns[v] && Cap(y3, v, p) == Seen(stock, scripts[u], scripts[v], n, p) {
      CapAfterCommit(stock, scripts, y, u, v, n, p);
    }
    FreeOf(stock, y3, v, u, |scripts[v]|);
    assert scripts[v][..|scripts[v]|] == scripts[v];
    AdvanceTo(stock, y3, v, |scripts[v]|);
    z := Scheduled(y3, Times(v, |scripts[v]| - n));
  }

  lemma LastCommit(stock: map<nat, real>, scripts: seq<seq<Access>>, y: System, u: nat, v: nat, n: nat, m: nat)
    requires SystemOk(stock, y) && |scripts| == 2 && u < 2 && v == 1 - u && n <= |scripts[v]|
    requires IsRunning(y, v) && y.txns[v].script == scripts[v] && y.txns[v].next == |scripts[v]|
    requires Cap(y, v, m) == Seen(stock, scripts[u], scripts[v], n, m) && Lost(scripts[u], scripts[v], n, m)
    ensures At(Advanced(y, v).stock, m) == At(stock, m) - Asks(scripts[v], m)
  {
    hide Asks;
    assert TxnOk(y, v);
    CommitInstalls(y, v, m);
    SeenIs(stock, scripts[u], scripts[v], n, m);
  }

  lemma Chained(y: System, a: seq<Turn>, b: seq<Turn>, c: seq<Turn>, d: seq<Turn>, e: seq<Turn>)
    ensures Scheduled(y, a + (b + (c + (d + e)))) ==
            Scheduled(Scheduled(Scheduled(Scheduled(Scheduled(y, a), b), c), d), e)
  {
    hide Scheduled;
    ScheduledAppend(y, a, b + (c + (d + e)));
    var y1 := Scheduled(y, a);
    ScheduledAppend(y1, b, c + (d + e));
    var y2 := Scheduled(y1, b);
    ScheduledAppend(y2, c, d + e);
    ScheduledAppend(Scheduled(y2, c), d, e);
  }

  /**
   * Some schedule breaks the law of conservation for two finalises exactly when one of them can
   * be stale: it has met a row that both take from, has locked no row of the other, and both
   * are in stock, the stale one with the rows it has met at their old level.
   */
  lemma LostUpdateIff(stock: map<nat, real>, a: seq<Access>, b: seq<Access>)
    requires forall q :: q in stock ==> stock[q] >= 0.0
    requires Proper(a) && Proper(b)
    ensures (exists turns :: BrokenUnder(stock, [a, b], turns))
            <==> (exists n :: Stale(stock, a, b, n) || Stale(stock, b, a, n))
  {
    var scripts := [a, b];
    hide BrokenUnder;
    if turns :| BrokenUnder(stock, scripts, turns) {
      BrokenIsStale(stock, a, b, turns);
    }
    if n :| Stale(stock, a, b, n) || Stale(stock, b, a, n) {
      if Stale(stock, a, b, n) {
        var m :| Lost(a, b, n, m);
        StaleBreaks(stock, scripts, 0, 1, n, m);
      } else {
        var m :| Lost(b, a, n, m);
        StaleBreaks(stock, scripts, 1, 0, n, m);
      }
    }
  }

  // ---------- sales ----------

  /** A service whose live recipe is one tracked material. */
  predicate UsesOnly(products: map<nat, Product>, rows: seq<MaterialRow>, s: nat, row: MaterialRow) {
    && s in products && products[s].itemType == SERVICE && ListMaterials(rows, s) == [row]
    && Tracked(products, row.material) && s != row.material
  }

  lemma ServiceScript(products: map<nat, Product>, rows: seq<MaterialRow>, s: nat, row: MaterialRow, qty: real)
    requires UsesOnly(products, rows, s, row)
    ensures Script(products, rows, [Line(s, qty, 0.0)]) ==
            [Take(s, 0.0), Load(row.material), Take(row.material, Need(row, qty))]
  {
    OneLineScript(products, rows, Line(s, qty, 0.0));
    assert [row][..0] == [];
    assert Loads(products, [row]) == [Load(row.material)];
    assert MaterialTakes(products, [row], qty) == [Take(row.material, Need(row, qty))];
  }

  /** The accesses of a service with one material, with their totals. */
  lemma RecipeScript(s: nat, m: nat, x: real)
    requires s != m && x > 0.0
    ensures var b := [Take(s, 0.0), Load(m), Take(m, x)];
            && Proper(b) && (forall p: nat :: Asks(b, p) == if p == m then x else 0.0)
            && (forall p: nat :: Took(b, 3, p) <==> p == s || p == m)
            && (forall n: nat, p: nat :: n <= 2 ==> (Took(b, n, p) <==> n > 0 && p == s))
            && (forall n: nat :: n <= 3 ==> (Met(b, n, m) <==> n > 1))
  {
    var b := [Take(s, 0.0), Load(m), Take(m, x)];
    forall p: nat ensures Asks(b, p) == if p == m then x else 0.0 {
      assert b == [Take(s, 0.0)] + [Load(m)] + [Take(m, x)];
      AsksAppend([Take(s, 0.0)], [Load(m)], p);
      AsksAppend([Take(s, 0.0)] + [Load(m)], [Take(m, x)], p);
      AsksOne(Take(s, 0.0), p);
      AsksOne(Load(m), p);
      AsksOne(Take(m, x), p);
    }
    TookAt(b, 3, 0);
    TookAt(b, 3, 2);
    forall n: nat, p: nat | n <= 2 ensures Took(b, n, p) <==> n > 0 && p == s {
      if n > 0 {
        TookAt(b, n, 0);
      }
    }
    forall n: nat | n <= 3 ensures Met(b, n, m) <==> n > 1 {
      if n > 1 {
        MetAt(b, 1, n, m);
      }
    }
  }

  lemma DirectScript(m: nat, x: real)
    requires x > 0.0
    ensures var a := [Take(m, x)];
            && Proper(a) && (forall p: nat :: Asks(a, p) == if p == m then x else 0.0)
            && (forall p: nat :: Took(a, 1, p) <==> p == m)
            && (forall n: nat, p: nat :: n <= 1 && Met(a, n, p) ==> n == 1 && p == m)
  {
    AsksOneAll(m, x);
    TookAt([Take(m, x)], 1, 0);
  }

  lemma AsksOneAll(m: nat, x: real)
    ensures forall p: nat :: Asks([Take(m, x)], p) == if p == m then x else 0.0
  {
    forall p: nat ensures Asks([Take(m, x)], p) == if p == m then x else 0.0 {
      AsksOne(Take(m, x), p);
    }
  }

  /**
   * One sale of a product and one of a service that uses it: some schedule loses an update
   * exactly when each of them alone is in stock.
   */
  lemma DirectAgainstRecipeIff(
    products: map<nat, Product>, rows: seq<MaterialRow>, stock: map<nat, real>,
    s: nat, row: MaterialRow, x: real, qty: real)
    requires forall q :: q in stock ==> stock[q] >= 0.0
    requires UsesOnly(products, rows, s, row) && x > 0.0 && Need(row, qty) > 0.0
    ensures var a := Script(products, rows, [Line(row.material, x, 0.0)]);
            var b := Script(products, rows, [Line(s, qty, 0.0)]);
            (exists turns :: BrokenUnder(stock, [a, b], turns))
            <==> x <= At(stock, row.material) && Need(row, qty) <= At(stock, row.material)
  {
    var m, need := row.material, Need(row, qty);
    OneLineScript(products, rows, Line(m, x, 0.0));
    ServiceScript(products, rows, s, row, qty);
    hide Script, BrokenUnder, Need;
    DirectScript(m, x);
    RecipeScript(s, m, need);
    var a, b := [Take(m, x)], [Take(s, 0.0), Load(m), Take(m, need)];
    LostUpdateIff(stock, a, b);
    DirectNeverStale(stock, a, b, m, s, need);
    RecipeStaleIff(stock, a, b, s, m, x, need);
  }

  /** A sale of a product cannot be stale against a service that uses it. */
  lemma DirectNeverStale(stock: map<nat, real>, a: seq<Access>, b: seq<Access>, m: nat, s: nat, need: real)
    requires |a| == 1 && |b| == 3 && a[0].Take? && a[0].product == m
    requires (forall p: nat :: Asks(b, p) == if p == m then need else 0.0)
    requires (forall p: nat :: Took(b, 3, p) <==> p == s || p == m)
    ensures forall n :: !Stale(stock, b, a, n)
  {
    hide Asks, Seen;
    forall n: nat ensures !Stale(stock, b, a, n) {
      if n > 0 {
        TookAt(a, n, 0);
      }
      assert Took(b, |b|, m);
    }
  }

  /** When a service with one material is stale against a script that takes only from that material. */
  lemma RecipeStaleIff(stock: map<nat, real>, a: seq<Access>, b: seq<Access>, s: nat, m: nat, x: real, need: real)
    requires b == [Take(s, 0.0), Load(m), Take(m, need)] && s != m && need > 0.0 && x > 0.0
    requires forall q :: q in stock ==> stock[q] >= 0.0
    requires forall p: nat :: Asks(a, p) == if p == m then x else 0.0
    requires Took(a, |a|, m)
    ensures (exists n :: Stale(stock, a, b, n)) <==> !Took(a, |a|, s) && x <= At(stock, m) && need <= At(stock, m)
  {
    RecipeScript(s, m, need);
    hide Asks;
    if n :| Stale(stock, a, b, n) {
      var q :| Lost(a, b, n, q);
      assert q == m && n > 1;
      assert n == 2;
      assert Asks(a, m) <= At(stock, m) && Asks(b, m) <= Seen(stock, a, b, 2, m);
      SeenIs(stock, a, b, 2, m);
      assert Took(b, 2, s);
    }
    if !Took(a, |a|, s) && x <= At(stock, m) && need <= At(stock, m) {
      forall p: nat ensures Asks(a, p) <= At(stock, p) && Asks(b, p) <= Seen(stock, a, b, 2, p) {
        SeenIs(stock, a, b, 2, p);
      }
      assert Lost(a, b, 2, m);
      assert Stale(stock, a, b, 2);
    }
  }

  /**
   * Two sales of services that use the same material: some schedule loses an update exactly
   * when the services differ and each sale alone is in stock. Two sales of one service are
   * safe, because the service's own row is locked before its recipe is loaded.
   */
  lemma SharedMaterialIff(
    products: map<nat, Product>, rows: seq<MaterialRow>, stock: map<nat, real>,
    s: nat, row: MaterialRow, qty: real, s': nat, row': MaterialRow, qty': real)
    requires forall q :: q in stock ==> stock[q] >= 0.0
    requires UsesOnly(products, rows, s, row) && UsesOnly(products, rows, s', row') && row.material == row'.material
    requires Need(row, qty) > 0.0 && Need(row', qty') > 0.0
    ensures var a := Script(products, rows, [Line(s, qty, 0.0)]);
            var b := Script(products, rows, [Line(s', qty', 0.0)]);
            (exists turns :: BrokenUnder(stock, [a, b], turns))
            <==> s != s' && Need(row, qty) <= At(stock, row.material) && Need(row', qty') <= At(stock, row.material)
  {
    var m, x, y := row.material, Need(row, qty), Need(row', qty');
    ServiceScript(products, rows, s, row, qty);
    ServiceScript(products, rows, s', row', qty');
    hide Script, BrokenUnder, Need;
    var a, b := [Take(s, 0.0), Load(m), Take(m, x)], [Take(s', 0.0), Load(m), Take(m, y)];
    RecipeScript(s, m, x);
    RecipeScript(s', m, y);
    LostUpdateIff(stock, a, b);
    RecipeStaleIff(stock, a, b, s', m, x, y);
    RecipeStaleIff(stock, b, a, s, m, y, x);
  }
}
