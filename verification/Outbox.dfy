/**
 * The durable analytics outbox: one row per sale, drained with retries. The rollup writer is
 * an oracle that may fail for some sales; when it runs it counts a sale only if the sale is
 * COMPLETED at that moment, and reports success either way.
 */
module Outbox {
  import opened Common
  import opened Tables

  function Tally(q: Queue, sale: nat): int {
    if sale in q.tally then q.tally[sale] else 0
  }

  predicate IsCompleted(sales: seq<Option<Sale>>, sale: nat) {
    sale < |sales| && sales[sale].Some? && sales[sale].value.status == COMPLETED
  }

  /** Position of the sale's row, or the table's length. */
  function RowOf(rows: seq<OutboxRow>, sale: nat): (k: nat)
    ensures k <= |rows|
    ensures k < |rows| ==> rows[k].sale == sale
    ensures forall i :: 0 <= i < k ==> rows[i].sale != sale
  {
    if |rows| == 0 then 0
    else
      var k := RowOf(rows[..|rows| - 1], sale);
      if k < |rows| - 1 then k
      else if rows[|rows| - 1].sale == sale then |rows| - 1
      else |rows|
  }

  predicate HasRow(rows: seq<OutboxRow>, sale: nat) {
    RowOf(rows, sale) < |rows|
  }

  predicate IsDone(rows: seq<OutboxRow>, sale: nat) {
    HasRow(rows, sale) && rows[RowOf(rows, sale)].status == DONE
  }

  /** Insert a pending row unless the sale already has one. */
  function Enqueued(q: Queue, sale: nat): Queue {
    if HasRow(q.rows, sale) then q else q.(rows := q.rows + [OutboxRow(sale, PENDING, 0)])
  }

  /** Count (or with sign -1, reverse) a sale in the rollups. */
  function Counted(q: Queue, sale: nat, sign: int): Queue {
    q.(tally := q.tally[sale := Tally(q, sale) + sign])
  }

  /** One attempt at row `i`. */
  function Attempt(q: Queue, sales: seq<Option<Sale>>, i: nat, failing: set<nat>): Queue
    requires i < |q.rows|
  {
    var row := q.rows[i].(attempts := q.rows[i].attempts + 1);
    if row.sale in failing then q.(rows := q.rows[i := row.(status := FAILED)])
    else
      var marked := q.(rows := q.rows[i := row.(status := DONE)]);
      if IsCompleted(sales, row.sale) then Counted(marked, row.sale, 1) else marked
  }

  predicate Eligible(row: OutboxRow) {
    row.status != DONE && row.attempts < 5
  }

  /** Positions a drain selects among the first `n` rows: the oldest eligible ones, at most `limit`. */
  function Selected(rows: seq<OutboxRow>, n: nat, limit: nat): (picked: seq<nat>)
    requires n <= |rows|
    ensures |picked| <= limit && |picked| <= n
    ensures forall k :: 0 <= k < |picked| ==> picked[k] < n && Eligible(rows[picked[k]])
    ensures forall k, m :: 0 <= k < m < |picked| ==> picked[k] < picked[m]
    // an eligible row is passed over only when the limit is used up by older ones
    ensures forall i :: 0 <= i < n && Eligible(rows[i]) && i !in picked ==>
              |picked| == limit && forall k :: 0 <= k < |picked| ==> picked[k] < i
  {
    if n == 0 then []
    else
      var earlier := Selected(rows, n - 1, limit);
      if Eligible(rows[n - 1]) && |earlier| < limit then earlier + [n - 1] else earlier
  }

  function AttemptAll(q: Queue, sales: seq<Option<Sale>>, picked: seq<nat>, failing: set<nat>): (r: Queue)
    requires forall k :: 0 <= k < |picked| ==> picked[k] < |q.rows|
    ensures |r.rows| == |q.rows|
  {
    if |picked| == 0 then q
    else Attempt(AttemptAll(q, sales, picked[..|picked| - 1], failing), sales, picked[|picked| - 1], failing)
  }

  function Drained(q: Queue, sales: seq<Option<Sale>>, limit: nat, failing: set<nat>): Queue {
    AttemptAll(q, sales, Selected(q.rows, |q.rows|, limit), failing)
  }

  // ---------- operations ----------

  method EnqueueAnalyticsOutbox(db: Database, sale: nat)
    modifies db`outbox
    ensures db.Outbox() == Enqueued(old(db.Outbox()), sale)
  {
    var k := RowOf(db.outbox, sale);
    if k == |db.outbox| {
      db.outbox := db.outbox + [OutboxRow(sale, PENDING, 0)];
    }
  }

  /** One attempt at one row; the result says whether the rollup call succeeded. */
  method ProcessOutboxEntry(db: Database, i: nat, failing: set<nat>) returns (ok: bool)
    requires i < |db.outbox|
    modifies db`outbox, db`tally
    ensures db.Outbox() == Attempt(old(db.Outbox()), db.sales, i, failing)
    ensures ok <==> old(db.outbox)[i].sale !in failing
  {
    var sale := db.outbox[i].sale;
    db.outbox := db.outbox[i := db.outbox[i].(attempts := db.outbox[i].attempts + 1)];
    if sale in failing {
      db.outbox := db.outbox[i := db.outbox[i].(status := FAILED)];
      return false;
    }
    if IsCompleted(db.sales, sale) {
      db.tally := db.tally[sale := (if sale in db.tally then db.tally[sale] else 0) + 1];
    }
    db.outbox := db.outbox[i := db.outbox[i].(status := DONE)];
    return true;
  }

  /** How many rows became DONE. */
  function Finished(before: seq<OutboxRow>, after: seq<OutboxRow>): nat
    requires |before| == |after|
  {
    if |before| == 0 then 0
    else
      var n := |before| - 1;
      Finished(before[..n], after[..n]) + if after[n].status == DONE && before[n].status != DONE then 1 else 0
  }

  lemma {:induction false} NoneFinished(rows: seq<OutboxRow>)
    ensures Finished(rows, rows) == 0
  {
    if |rows| != 0 {
      NoneFinished(rows[..|rows| - 1]);
    }
  }

  /** Updating a row that is still as it was before adds one exactly when it becomes DONE. */
  lemma {:induction false} FinishedUpdate(before: seq<OutboxRow>, after: seq<OutboxRow>, i: nat, row: OutboxRow)
    requires |before| == |after| && i < |after| && after[i] == before[i] && before[i].status != DONE
    ensures Finished(before, after[i := row]) == Finished(before, after) + if row.status == DONE then 1 else 0
  {
    var n := |before| - 1;
    if i < n {
      FinishedUpdate(before[..n], after[..n], i, row);
      assert after[i := row][..n] == after[..n][i := row];
    } else {
      assert after[i := row][..n] == after[..n];
    }
  }

  lemma NothingAttempted(q: Queue, sales: seq<Option<Sale>>, failing: set<nat>)
    ensures AttemptAll(q, sales, [], failing) == q
  {
  }

  /** One more attempt of a drain finishes a row exactly when its sale does not fail. */
  lemma DrainStep(q: Queue, sales: seq<Option<Sale>>, picked: seq<nat>, failing: set<nat>, k: nat)
    requires forall i :: 0 <= i < |picked| ==> picked[i] < |q.rows| && Eligible(q.rows[picked[i]])
    requires forall i, j :: 0 <= i < j < |picked| ==> picked[i] < picked[j]
    requires k < |picked|
    ensures var now := AttemptAll(q, sales, picked[..k], failing);
            var next := AttemptAll(q, sales, picked[..k + 1], failing);
            && next == Attempt(now, sales, picked[k], failing)
            && Finished(q.rows, next.rows) == Finished(q.rows, now.rows)
               + if now.rows[picked[k]].sale in failing then 0 else 1
  {
    hide Finished, Tally, IsCompleted;
    assert picked[..k + 1][..k] == picked[..k] && picked[..k + 1][k] == picked[k];
    UnpickedUntouched(q, sales, picked[..k], failing, picked[k]);
    var now := AttemptAll(q, sales, picked[..k], failing);
    FinishedUpdate(q.rows, now.rows, picked[k], Attempt(now, sales, picked[k], failing).rows[picked[k]]);
  }

  /** Attempt the oldest eligible rows, at most `limit` of them. */
  method DrainPendingOutbox(db: Database, limit: nat, failing: set<nat>)
    returns (processedOk: nat, processedFail: nat, scanned: nat)
    modifies db`outbox, db`tally
    ensures db.Outbox() == Drained(old(db.Outbox()), db.sales, limit, failing)
    ensures scanned == |Selected(old(db.outbox), |old(db.outbox)|, limit)|
    ensures processedOk == Finished(old(db.outbox), db.outbox) && processedOk + processedFail == scanned
  {
    hide Finished, Attempt, AttemptAll;
    var picked := Selected(db.outbox, |db.outbox|, limit);
    ghost var q := db.Outbox();
    assert q == AttemptAll(q, db.sales, picked[..0], failing) by { NothingAttempted(q, db.sales, failing); }
    processedOk, processedFail := 0, 0;
    NoneFinished(q.rows);
    for k := 0 to |picked|
      invariant db.Outbox() == AttemptAll(q, db.sales, picked[..k], failing)
      invariant processedOk + processedFail == k
      invariant processedOk == Finished(q.rows, db.outbox)
    {
      DrainStep(q, db.sales, picked, failing, k);
      var ok := ProcessOutboxEntry(db, picked[k], failing);
      if ok {
        processedOk := processedOk + 1;
      } else {
        processedFail := processedFail + 1;
      }
    }
    assert picked[..|picked|] == picked;
    scanned := |picked|;
  }

  /** The background task after a completion: make sure of the row, attempt it unless DONE. */
  function Refreshed(q: Queue, sales: seq<Option<Sale>>, sale: nat, failing: set<nat>): Queue {
    if !IsCompleted(sales, sale) then q
    else
      var r := Enqueued(q, sale);
      if RowOf(r.rows, sale) == |r.rows| || IsDone(r.rows, sale) then r
      else Attempt(r, sales, RowOf(r.rows, sale), failing)
  }

  method UpdateSalesAnalytics(db: Database, sale: nat, failing: set<nat>)
    modifies db`outbox, db`tally
    ensures db.Outbox() == Refreshed(old(db.Outbox()), db.sales, sale, failing)
  {
    if !IsCompleted(db.sales, sale) {
      return;
    }
    EnqueueAnalyticsOutbox(db, sale);
    var k := RowOf(db.outbox, sale);
    if k == |db.outbox| {
      return;
    }
    if db.outbox[k].status == DONE {
      return;
    }
    var _ := ProcessOutboxEntry(db, k, failing);
  }

  /**
   * One attempt at a row uses one of its attempts. If the rollup call fails the row is FAILED and
   * nothing is counted; otherwise it is DONE, and its sale is counted once more if it is
   * COMPLETED. No other row and no other count changes.
   */
  lemma AttemptAnswers(q: Queue, sales: seq<Option<Sale>>, i: nat, failing: set<nat>, other: nat)
    requires i < |q.rows|
    ensures var r := Attempt(q, sales, i, failing);
            var sale := q.rows[i].sale;
            && r.rows == q.rows[i := OutboxRow(sale, if sale in failing then FAILED else DONE, q.rows[i].attempts + 1)]
            && Tally(r, sale) == Tally(q, sale)
               + (if sale !in failing && sale < |sales| && sales[sale].Some? && sales[sale].value.status == COMPLETED
                  then 1 else 0)
            && (other != sale ==> Tally(r, other) == Tally(q, other))
  {
  }

  /** Enqueueing adds one waiting row, without attempts, for a sale that has none. */
  lemma EnqueueAnswers(q: Queue, sale: nat)
    ensures Enqueued(q, sale).tally == q.tally
    ensures Enqueued(q, sale).rows == q.rows
            + if exists i :: 0 <= i < |q.rows| && q.rows[i].sale == sale then [] else [OutboxRow(sale, PENDING, 0)]
  {
    if i :| 0 <= i < |q.rows| && q.rows[i].sale == sale {
      assert RowOf(q.rows, sale) <= i;
    }
  }

  lemma RowOfEnqueued(q: Queue, sale: nat)
    ensures var r := Enqueued(q, sale);
            var k := RowOf(r.rows, sale);
            && k < |r.rows|
            && (HasRow(q.rows, sale) ==> k == RowOf(q.rows, sale) && r.rows[k] == q.rows[k])
            && (!HasRow(q.rows, sale) ==> k == |q.rows| && r.rows[k] == OutboxRow(sale, PENDING, 0))
  {
    var r := Enqueued(q, sale);
    if !HasRow(q.rows, sale) {
      assert r.rows[..|r.rows| - 1] == q.rows;
    }
  }

  /** The attempts the sale's row has used, none if it has no row. */
  function AttemptsOf(rows: seq<OutboxRow>, sale: nat): nat {
    if RowOf(rows, sale) < |rows| then rows[RowOf(rows, sale)].attempts else 0
  }

  /**
   * The background task of a COMPLETED sale whose row is missing or not DONE attempts it at once:
   * if the rollup call works the row is DONE and the sale counted once more, otherwise the row is
   * FAILED and nothing is counted, and either way one attempt is used. With a DONE row, or a sale
   * that is not COMPLETED, nothing changes. Other sales are never touched.
   */
  lemma RefreshAnswers(q: Queue, sales: seq<Option<Sale>>, id: nat, failing: set<nat>, other: nat)
    requires OneRowPerSale(q.rows)
    ensures var r := Refreshed(q, sales, id, failing);
            var completed := id < |sales| && sales[id].Some? && sales[id].value.status == COMPLETED;
            && (!completed || IsDone(q.rows, id) ==> r == q)
            && (completed && !IsDone(q.rows, id) ==>
                  && RowOf(r.rows, id) < |r.rows|
                  && r.rows[RowOf(r.rows, id)] ==
                     OutboxRow(id, if id in failing then FAILED else DONE, AttemptsOf(q.rows, id) + 1)
                  && Tally(r, id) == Tally(q, id) + if id in failing then 0 else 1)
            && (other != id ==> Tally(r, other) == Tally(q, other) && IsDone(r.rows, other) == IsDone(q.rows, other)
                                && HasRow(r.rows, other) == HasRow(q.rows, other))
  {
    hide Attempt, Enqueued, Tally, OneRowPerSale, IsDone, HasRow;
    RowOfEnqueued(q, id);
    EnqueueTally(q, id);
    EnqueueFacts(q, id, other);
    EnqueueFacts(q, id, id);
    DoneRowStays(q, id);
    if IsCompleted(sales, id) && !IsDone(q.rows, id) {
      OwnRowAttempted(q, sales, id, failing);
      OthersUntouched(Enqueued(q, id), sales, id, failing, other);
    }
  }

  lemma EnqueueTally(q: Queue, id: nat)
    ensures Tally(Enqueued(q, id), id) == Tally(q, id)
  {
  }

  lemma DoneRowStays(q: Queue, id: nat)
    ensures IsDone(q.rows, id) ==> Enqueued(q, id) == q
  {
  }

  lemma OwnRowAttempted(q: Queue, sales: seq<Option<Sale>>, id: nat, failing: set<nat>)
    requires !IsDone(q.rows, id) && IsCompleted(sales, id)
    ensures var e := Enqueued(q, id);
            var k := RowOf(e.rows, id);
            && k < |e.rows|
            && (var r := Attempt(e, sales, k, failing);
                && RowOf(r.rows, id) == k && k < |r.rows|
                && r.rows[k] == OutboxRow(id, if id in failing then FAILED else DONE, AttemptsOf(q.rows, id) + 1)
                && Tally(r, id) == Tally(q, id) + if id in failing then 0 else 1)
  {
    hide Attempt, Enqueued, Tally;
    RowOfEnqueued(q, id);
    EnqueueTally(q, id);
    var e := Enqueued(q, id);
    var k := RowOf(e.rows, id);
    AttemptAnswers(e, sales, k, failing, id);
    SameRows(e.rows, Attempt(e, sales, k, failing).rows, id);
  }

  lemma OthersUntouched(e: Queue, sales: seq<Option<Sale>>, id: nat, failing: set<nat>, other: nat)
    requires RowOf(e.rows, id) < |e.rows|
    ensures var r := Attempt(e, sales, RowOf(e.rows, id), failing);
            other != id ==> Tally(r, other) == Tally(e, other) && IsDone(r.rows, other) == IsDone(e.rows, other)
                            && HasRow(r.rows, other) == HasRow(e.rows, other)
  {
    hide Attempt, Tally;
    var k := RowOf(e.rows, id);
    AttemptAnswers(e, sales, k, failing, other);
    SameRows(e.rows, Attempt(e, sales, k, failing).rows, other);
    assert other != id ==> RowOf(e.rows, other) != k;
  }

  // ---------- rebuilding the rollups ----------

  predicate OfBusiness(sales: seq<Option<Sale>>, id: nat, business: nat) {
    id < |sales| && sales[id].Some? && sales[id].value.business == business
  }

  /** The rollups without any contribution of the business. */
  function Cleared(q: Queue, sales: seq<Option<Sale>>, business: nat): Queue {
    q.(tally := map id | id in q.tally && !OfBusiness(sales, id, business) :: q.tally[id])
  }

  /** Count the COMPLETED sales of the business among the first `n`. */
  function Reapplied(q: Queue, sales: seq<Option<Sale>>, business: nat, n: nat): Queue
    requires n <= |sales|
  {
    if n == 0 then q
    else
      var earlier := Reapplied(q, sales, business, n - 1);
      if OfBusiness(sales, n - 1, business) && IsCompleted(sales, n - 1) then Counted(earlier, n - 1, 1) else earlier
  }

  function Backfilled(q: Queue, sales: seq<Option<Sale>>, business: nat): Queue {
    Reapplied(Cleared(q, sales, business), sales, business, |sales|)
  }

  method ClearRollups(db: Database, business: nat)
    modifies db`tally
    ensures db.Outbox() == Cleared(old(db.Outbox()), db.sales, business)
  {
    db.tally := map id | id in db.tally && !OfBusiness(db.sales, id, business) :: db.tally[id];
  }

  /** Clear the rollups of the business and apply each of its COMPLETED sales again. */
  method BackfillBusinessRollups(db: Database, business: nat) returns (applied: nat)
    modifies db`tally
    ensures db.Outbox() == Backfilled(old(db.Outbox()), db.sales, business)
    ensures applied == |CompletedBelow(db.sales, business, |db.sales|)|
  {
    hide Cleared, CompletedBelow, OfBusiness, IsCompleted;
    ghost var q := Cleared(db.Outbox(), db.sales, business);
    ClearRollups(db, business);
    applied := 0;
    assert CompletedBelow(db.sales, business, 0) == {} by { NoneBelowZero(db.sales, business); }
    for i := 0 to |db.sales|
      invariant db.Outbox() == Reapplied(q, db.sales, business, i)
      invariant applied == |CompletedBelow(db.sales, business, i)|
    {
      CompletedStep(db.sales, business, i);
      if OfBusiness(db.sales, i, business) && IsCompleted(db.sales, i) {
        db.tally := db.tally[i := (if i in db.tally then db.tally[i] else 0) + 1];
        applied := applied + 1;
      }
    }
  }

  /** The COMPLETED sales of the business among the first `n`. */
  ghost function CompletedBelow(sales: seq<Option<Sale>>, business: nat, n: nat): set<nat> {
    set id: nat | id < n && OfBusiness(sales, id, business) && IsCompleted(sales, id)
  }

  lemma CompletedStep(sales: seq<Option<Sale>>, business: nat, n: nat)
    ensures CompletedBelow(sales, business, n + 1) == CompletedBelow(sales, business, n)
            + if OfBusiness(sales, n, business) && IsCompleted(sales, n) then {n} else {}
    ensures n !in CompletedBelow(sales, business, n)
  {
  }

  lemma NoneBelowZero(sales: seq<Option<Sale>>, business: nat)
    ensures CompletedBelow(sales, business, 0) == {}
  {
  }

  lemma {:induction false} ReappliedCounts(q: Queue, sales: seq<Option<Sale>>, business: nat, n: nat, id: nat)
    requires n <= |sales|
    ensures var r := Reapplied(q, sales, business, n);
            && r.rows == q.rows
            && Tally(r, id) == Tally(q, id)
               + if id < n && OfBusiness(sales, id, business) && IsCompleted(sales, id) then 1 else 0
  {
    if n != 0 {
      ReappliedCounts(q, sales, business, n - 1, id);
    }
  }

  /** A rebuild counts each COMPLETED sale of the business once, its others not at all, and no row changes. */
  lemma BackfillCounts(q: Queue, sales: seq<Option<Sale>>, business: nat, id: nat)
    ensures var r := Backfilled(q, sales, business);
            && r.rows == q.rows
            && Tally(r, id) == (if !OfBusiness(sales, id, business) then Tally(q, id)
                                else if IsCompleted(sales, id) then 1 else 0)
  {
    ReappliedCounts(Cleared(q, sales, business), sales, business, |sales|, id);
  }

  // ---------- termination of repeated drains ----------

  /** Attempts left on a row: none once it is DONE. */
  function Left(row: OutboxRow): nat {
    if Eligible(row) then 5 - row.attempts else 0
  }

  function Budget(rows: seq<OutboxRow>): nat {
    if |rows| == 0 then 0 else Budget(rows[..|rows| - 1]) + Left(rows[|rows| - 1])
  }

  lemma {:induction false} BudgetUpdate(rows: seq<OutboxRow>, i: nat, row: OutboxRow)
    requires i < |rows|
    ensures Budget(rows[i := row]) == Budget(rows) - Left(rows[i]) + Left(row)
  {
    var n := |rows| - 1;
    if i < n {
      BudgetUpdate(rows[..n], i, row);
      assert rows[i := row][..n] == rows[..n][i := row];
    } else {
      assert rows[i := row][..n] == rows[..n];
    }
  }

  /** The rows a drain has not yet attempted are untouched. */
  lemma {:induction false} UnpickedUntouched(
    q: Queue, sales: seq<Option<Sale>>, picked: seq<nat>, failing: set<nat>, j: nat)
    requires forall k :: 0 <= k < |picked| ==> picked[k] < |q.rows| && picked[k] != j
    requires j < |q.rows|
    ensures AttemptAll(q, sales, picked, failing).rows[j] == q.rows[j]
  {
    if |picked| != 0 {
      UnpickedUntouched(q, sales, picked[..|picked| - 1], failing, j);
    }
  }

  /** Every scanned row uses up at least one attempt of the budget. */
  lemma {:induction false} AttemptsSpendBudget(q: Queue, sales: seq<Option<Sale>>, picked: seq<nat>, failing: set<nat>)
    requires forall k :: 0 <= k < |picked| ==> picked[k] < |q.rows| && Eligible(q.rows[picked[k]])
    requires forall k, m :: 0 <= k < m < |picked| ==> picked[k] < picked[m]
    ensures Budget(AttemptAll(q, sales, picked, failing).rows) + |picked| <= Budget(q.rows)
  {
    if |picked| != 0 {
      var n := |picked| - 1;
      AttemptsSpendBudget(q, sales, picked[..n], failing);
      UnpickedUntouched(q, sales, picked[..n], failing, picked[n]);
      var earlier := AttemptAll(q, sales, picked[..n], failing);
      BudgetUpdate(earlier.rows, picked[n], Attempt(earlier, sales, picked[n], failing).rows[picked[n]]);
    }
  }

  /** A run of drains: each has its own limit and its own failures. */
  datatype DrainCall = DrainCall(limit: nat, failing: set<nat>)

  function DrainRun(q: Queue, sales: seq<Option<Sale>>, calls: seq<DrainCall>): Queue
    decreases |calls|
  {
    if |calls| == 0 then q
    else DrainRun(Drained(q, sales, calls[0].limit, calls[0].failing), sales, calls[1..])
  }

  function Scanned(q: Queue, sales: seq<Option<Sale>>, calls: seq<DrainCall>): nat
    decreases |calls|
  {
    if |calls| == 0 then 0
    else |Selected(q.rows, |q.rows|, calls[0].limit)|
         + Scanned(Drained(q, sales, calls[0].limit, calls[0].failing), sales, calls[1..])
  }

  lemma {:induction false} SelectsSomething(rows: seq<OutboxRow>, n: nat, limit: nat)
    requires n <= |rows| && limit > 0
    ensures |Selected(rows, n, limit)| == 0 ==> Budget(rows[..n]) == 0
  {
    if n > 0 {
      SelectsSomething(rows, n - 1, limit);
      assert rows[..n][..n - 1] == rows[..n - 1];
    }
  }

  /**
   * Without new enqueues, repeated drains scan at most as many rows as there are attempts
   * left, and as many drains as that (each allowed at least one row) leave nothing to retry.
   */
  lemma {:induction false} DrainsTerminate(q: Queue, sales: seq<Option<Sale>>, calls: seq<DrainCall>)
    ensures Scanned(q, sales, calls) + Budget(DrainRun(q, sales, calls).rows) <= Budget(q.rows)
    ensures (forall i :: 0 <= i < |calls| ==> calls[i].limit > 0) && |calls| >= Budget(q.rows) ==>
              Budget(DrainRun(q, sales, calls).rows) == 0
    decreases |calls|
  {
    hide Selected, AttemptAll, Budget;
    if |calls| != 0 {
      var picked := Selected(q.rows, |q.rows|, calls[0].limit);
      AttemptsSpendBudget(q, sales, picked, calls[0].failing);
      DrainsTerminate(Drained(q, sales, calls[0].limit, calls[0].failing), sales, calls[1..]);
      if calls[0].limit > 0 {
        assert q.rows[..|q.rows|] == q.rows;
        SelectsSomething(q.rows, |q.rows|, calls[0].limit);
      }
    }
  }

  lemma {:induction false} BudgetBound(rows: seq<OutboxRow>)
    ensures Budget(rows) <= 5 * |rows|
    ensures Budget(rows) == 0 <==> forall i :: 0 <= i < |rows| ==> !Eligible(rows[i])
  {
    if |rows| != 0 {
      BudgetBound(rows[..|rows| - 1]);
    }
  }

  /** At most five scans per row in total; in the end every row is DONE or out of attempts. */
  lemma DrainsScanAtMostFivePerRow(q: Queue, sales: seq<Option<Sale>>, calls: seq<DrainCall>)
    ensures Scanned(q, sales, calls) <= 5 * |q.rows|
    ensures (forall i :: 0 <= i < |calls| ==> calls[i].limit > 0) && |calls| >= 5 * |q.rows| ==>
              forall i :: 0 <= i < |DrainRun(q, sales, calls).rows| ==>
                DrainRun(q, sales, calls).rows[i].status == DONE || DrainRun(q, sales, calls).rows[i].attempts >= 5
  {
    DrainsTerminate(q, sales, calls);
    BudgetBound(q.rows);
    BudgetBound(DrainRun(q, sales, calls).rows);
  }

  // ---------- one row per sale, one success per row ----------

  ghost predicate OneRowPerSale(rows: seq<OutboxRow>) {
    forall i, j :: 0 <= i < j < |rows| ==> rows[i].sale != rows[j].sale
  }

  lemma RowIsUnique(rows: seq<OutboxRow>, i: nat)
    requires OneRowPerSale(rows) && i < |rows|
    ensures RowOf(rows, rows[i].sale) == i
  {
  }

  /** What a run of attempts may do to the row and the count of a sale. */
  ghost predicate Progress(q: Queue, r: Queue, sales: seq<Option<Sale>>, sale: nat) {
    && HasRow(r.rows, sale) == HasRow(q.rows, sale)
    && (IsDone(q.rows, sale) ==> IsDone(r.rows, sale))
    && Tally(r, sale) == Tally(q, sale)
       + if IsDone(r.rows, sale) && !IsDone(q.rows, sale) && IsCompleted(sales, sale) then 1 else 0
  }

  /** An attempt at an unfinished row counts its sale at most once, and only when it is COMPLETED. */
  lemma AttemptProgress(q: Queue, sales: seq<Option<Sale>>, i: nat, failing: set<nat>, sale: nat)
    requires OneRowPerSale(q.rows) && i < |q.rows| && q.rows[i].status != DONE
    ensures var r := Attempt(q, sales, i, failing);
            OneRowPerSale(r.rows) && Progress(q, r, sales, sale)
  {
    var r := Attempt(q, sales, i, failing);
    RowIsUnique(q.rows, i);
    RowIsUnique(r.rows, i);
    SameRows(q.rows, r.rows, sale);
  }

  lemma {:induction false} SameRows(a: seq<OutboxRow>, b: seq<OutboxRow>, sale: nat)
    requires |a| == |b| && forall i :: 0 <= i < |a| ==> a[i].sale == b[i].sale
    ensures RowOf(a, sale) == RowOf(b, sale)
  {
    if |a| != 0 {
      SameRows(a[..|a| - 1], b[..|b| - 1], sale);
    }
  }

  lemma {:induction false} AttemptAllProgress(
    q: Queue, sales: seq<Option<Sale>>, picked: seq<nat>, failing: set<nat>, sale: nat)
    requires OneRowPerSale(q.rows)
    requires forall k :: 0 <= k < |picked| ==> picked[k] < |q.rows| && Eligible(q.rows[picked[k]])
    requires forall k, m :: 0 <= k < m < |picked| ==> picked[k] < picked[m]
    ensures var r := AttemptAll(q, sales, picked, failing);
            OneRowPerSale(r.rows) && Progress(q, r, sales, sale)
  {
    if |picked| != 0 {
      var n := |picked| - 1;
      AttemptAllProgress(q, sales, picked[..n], failing, sale);
      UnpickedUntouched(q, sales, picked[..n], failing, picked[n]);
      AttemptProgress(AttemptAll(q, sales, picked[..n], failing), sales, picked[n], failing, sale);
    }
  }

  /** A drain keeps one row per sale and counts no sale twice. */
  lemma DrainProgress(q: Queue, sales: seq<Option<Sale>>, limit: nat, failing: set<nat>, sale: nat)
    requires OneRowPerSale(q.rows)
    ensures var r := Drained(q, sales, limit, failing);
            OneRowPerSale(r.rows) && Progress(q, r, sales, sale)
  {
    AttemptAllProgress(q, sales, Selected(q.rows, |q.rows|, limit), failing, sale);
  }

  lemma {:induction false} EnqueueFacts(q: Queue, sale: nat, other: nat)
    requires OneRowPerSale(q.rows)
    ensures var r := Enqueued(q, sale);
            && OneRowPerSale(r.rows)
            && HasRow(r.rows, sale)
            && (HasRow(q.rows, other) ==> HasRow(r.rows, other))
            && (other != sale ==> HasRow(r.rows, other) == HasRow(q.rows, other))
            && IsDone(r.rows, other) == IsDone(q.rows, other)
            && Tally(r, other) == Tally(q, other)
  {
    var r := Enqueued(q, sale);
    if !HasRow(q.rows, sale) {
      assert r.rows[..|r.rows| - 1] == q.rows;
      forall i, j | 0 <= i < j < |r.rows| ensures r.rows[i].sale != r.rows[j].sale {
        assert RowOf(q.rows, sale) == |q.rows|;
      }
    }
  }
}
