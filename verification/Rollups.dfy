/**
 * Which sales end up in the rollups. The outbox counts a sale when its row is attempted while
 * the sale is COMPLETED; a void reverses a count; a rebuild starts the business afresh. These
 * theorems give the count of every sale over whole runs.
 */
module Rollups {
  import opened Common
  import opened Tables
  import opened Money
  import opened Payments
  import opened Stock
  import opened Materials
  import opened Customers
  import opened Outbox
  import opened Store
  import opened Machine

  /** What a step may do to the outbox row and the count of a sale, given whether it is COMPLETED. */
  ghost predicate Moved(s: State, t: State, id: nat, completed: bool) {
    && (HasRow(s.queue.rows, id) ==> HasRow(t.queue.rows, id))
    && (IsDone(s.queue.rows, id) ==> IsDone(t.queue.rows, id))
    && Tally(t.queue, id) == Tally(s.queue, id)
       + if completed && IsDone(t.queue.rows, id) && !IsDone(s.queue.rows, id) then 1 else 0
  }

  lemma BackgroundMoves(s: State, other: nat, failing: set<nat>, id: nat)
    requires OneRowPerSale(s.queue.rows)
    ensures Moved(s, Step(s, Background(other, failing)), id, IsCompleted(s.sales, id))
  {
    hide Attempt, Enqueued, Tally;
    if IsCompleted(s.sales, other) {
      EnqueueFacts(s.queue, other, id);
      EnqueueFacts(s.queue, other, other);
      var q := Enqueued(s.queue, other);
      if !IsDone(q.rows, other) {
        AttemptProgress(q, s.sales, RowOf(q.rows, other), failing, id);
      }
    }
  }

  lemma FinalizeMoves(s: State, other: nat, t: Tender, buyer: Buyer, id: nat)
    requires OneRowPerSale(s.queue.rows)
    ensures Moved(s, Finalized(s, other, t, buyer).state, id, false)
    ensures IsDone(Finalized(s, other, t, buyer).state.queue.rows, id) == IsDone(s.queue.rows, id)
  {
    hide Settled, TenderRefused, Deduct, Draws, WithCustomer, Enqueued, HasRow, IsDone, Tally, OneRowPerSale;
    EnqueueFacts(s.queue, other, id);
    EnqueueFacts(s.queue, other, other);
  }

  lemma CollectMoves(s: State, other: nat, t: Tender, id: nat)
    requires OneRowPerSale(s.queue.rows)
    ensures Moved(s, Collected(s, other, t).state, id, false)
    ensures IsDone(Collected(s, other, t).state.queue.rows, id) == IsDone(s.queue.rows, id)
  {
    hide ComputePaymentAmounts, Given, Amount, WithPayment, Remaining, Enqueued, HasRow, IsDone, Tally, OneRowPerSale;
    EnqueueFacts(s.queue, other, id);
    EnqueueFacts(s.queue, other, other);
  }

  /** Only drains and the background task count a sale, and only while it is COMPLETED. */
  lemma StepMoves(s: State, op: Op, id: nat)
    requires OneRowPerSale(s.queue.rows)
    requires !(op.Void? && op.sale == id) && !(op.Backfill? && OfBusiness(s.sales, id, op.business))
    ensures Moved(s, Step(s, op), id, IsCompleted(s.sales, id) && (op.Drain? || op.Background?))
  {
    hide Finalized, Collected, Voided, Drained, Refreshed, OneRowPerSale;
    match op
    case Finalize(other, t, buyer) => FinalizeMoves(s, other, t, buyer, id);
    case Collect(other, t) => CollectMoves(s, other, t, id);
    case Void(other, b, rollupFails) => VoidMoves(s, other, b, rollupFails, id);
    case Drain(limit, failing) => DrainProgress(s.queue, s.sales, limit, failing, id);
    case Background(other, failing) => BackgroundMoves(s, other, failing, id);
    case Backfill(b) => BackfillCounts(s.queue, s.sales, b, id);
    case _ =>
  }

  lemma VoidMoves(s: State, other: nat, b: nat, rollupFails: bool, id: nat)
    requires other != id
    ensures Moved(s, Voided(s, other, b, rollupFails).state, id, false)
  {
    hide Restore, OutstandingDraws, HasRow, IsDone;
  }

  /** A COMPLETED sale stays COMPLETED until it is voided. */
  lemma CompletedStays(s: State, op: Op, id: nat)
    requires IsCompleted(s.sales, id) && !(op.Void? && op.sale == id)
    ensures IsCompleted(Step(s, op).sales, id)
    ensures Step(s, op).sales[id].value.business == s.sales[id].value.business
  {
    hide Deduct, Restore, Settled, TenderRefused, WithPayment, ComputePaymentAmounts, Given, Amount, Backfilled,
      Drained, Refreshed;
  }

  /** 1 when the sale's row became DONE between the two states. */
  function FinishedBetween(s: State, t: State, id: nat): int {
    if IsDone(t.queue.rows, id) && !IsDone(s.queue.rows, id) then 1 else 0
  }

  /** What a step other than a rebuild may do to a sale that is COMPLETED. */
  ghost predicate MovedCompleted(s: State, t: State, id: nat)
    requires IsCompleted(s.sales, id)
  {
    && IsCompleted(t.sales, id) && t.sales[id].value.business == s.sales[id].value.business
    && (HasRow(s.queue.rows, id) ==> HasRow(t.queue.rows, id))
    && (IsDone(s.queue.rows, id) ==> IsDone(t.queue.rows, id))
    && Tally(t.queue, id) == Tally(s.queue, id) + FinishedBetween(s, t, id)
  }

  lemma CompletedStepMoves(initial: map<nat, real>, s: State, op: Op, id: nat)
    requires Inv(initial, s) && IsCompleted(s.sales, id) && !(op.Void? && op.sale == id)
    requires !(op.Backfill? && OfBusiness(s.sales, id, op.business))
    ensures MovedCompleted(s, Step(s, op), id)
  {
    hide Step, Attempt;
    StepMoves(s, op, id);
    CompletedStays(s, op, id);
    if !(op.Drain? || op.Background?) {
      OtherStepsFinishNothing(s, op, id);
    }
  }

  /** Steps other than drains and the background task never finish an outbox row. */
  lemma OtherStepsFinishNothing(s: State, op: Op, id: nat)
    requires OneRowPerSale(s.queue.rows) && !op.Drain? && !op.Background?
    ensures IsDone(Step(s, op).queue.rows, id) == IsDone(s.queue.rows, id)
  {
    hide Finalized, Collected, Voided;
    match op
    case Finalize(other, t, buyer) => FinalizeMoves(s, other, t, buyer, id);
    case Collect(other, t) => CollectMoves(s, other, t, id);
    case Void(other, b, rollupFails) => VoidKeepsRows(s, other, b, rollupFails);
    case Backfill(b) => BackfillCounts(s.queue, s.sales, b, id);
    case _ =>
  }

  lemma VoidKeepsRows(s: State, id: nat, b: nat, rollupFails: bool)
    ensures Voided(s, id, b, rollupFails).state.queue.rows == s.queue.rows
  {
  }

  /** The state at the last rebuild of the business in a run, if the run has one. */
  ghost function LastRebuild(s: State, ops: seq<Op>, b: nat): Option<State>
    decreases |ops|
  {
    if |ops| == 0 then None
    else match LastRebuild(Step(s, ops[0]), ops[1..], b)
      case Some(m) => Some(m)
      case None => if ops[0] == Backfill(b) then Some(s) else None
  }

  lemma {:induction false} RebuildIff(s: State, ops: seq<Op>, b: nat)
    ensures LastRebuild(s, ops, b).Some? <==> Backfill(b) in ops
    decreases |ops|
  {
    hide Step;
    if |ops| != 0 {
      RebuildIff(Step(s, ops[0]), ops[1..], b);
      assert ops == [ops[0]] + ops[1..];
    }
  }

  /**
   * The count of a sale COMPLETED throughout a run from `s` to `t`: without a rebuild it grows
   * by one when the row becomes DONE; after a rebuild at `m` it is one, and two once a row that
   * was not DONE at the rebuild becomes DONE.
   */
  ghost predicate Fate(s: State, t: State, id: nat, rebuild: Option<State>)
    requires IsCompleted(s.sales, id)
  {
    && IsCompleted(t.sales, id) && t.sales[id].value.business == s.sales[id].value.business
    && (HasRow(s.queue.rows, id) ==> HasRow(t.queue.rows, id))
    && (IsDone(s.queue.rows, id) ==> IsDone(t.queue.rows, id))
    && (match rebuild
        case None => Tally(t.queue, id) == Tally(s.queue, id) + FinishedBetween(s, t, id)
        case Some(m) =>
          && (IsDone(s.queue.rows, id) ==> IsDone(m.queue.rows, id))
          && (IsDone(m.queue.rows, id) ==> IsDone(t.queue.rows, id))
          && Tally(t.queue, id) == 1 + FinishedBetween(m, t, id))
  }

  lemma RebuildStep(s: State, b: nat, id: nat)
    requires IsCompleted(s.sales, id) && OfBusiness(s.sales, id, b)
    ensures var t := Step(s, Backfill(b));
            t.sales == s.sales && t.queue.rows == s.queue.rows && Tally(t.queue, id) == 1
  {
    BackfillCounts(s.queue, s.sales, b, id);
  }

  /**
   * Over every run without a void of it, rebuilds included, the count of a COMPLETED sale is
   * what its row's status at the start, at the last rebuild and at the end make it.
   */
  lemma {:induction false} RollupFate(initial: map<nat, real>, s: State, ops: seq<Op>, id: nat, b: nat)
    requires Inv(initial, s) && WellUsedRun(s, ops) && NoVoidOf(ops, id)
    requires IsCompleted(s.sales, id) && OfBusiness(s.sales, id, b)
    ensures Inv(initial, Run(s, ops)) && Fate(s, Run(s, ops), id, LastRebuild(s, ops, b))
    decreases |ops|
  {
    hide Inv, Step, WellUsed, HasRow, IsDone, Tally, IsCompleted;
    if |ops| != 0 {
      var t := Step(s, ops[0]);
      if ops[0] == Backfill(b) {
        RebuildStep(s, b, id);
      } else {
        CompletedStepMoves(initial, s, ops[0], id);
      }
      SameBusiness(s, t, id, b);
      StepKeepsInvariant(initial, s, ops[0]);
      RollupFate(initial, t, ops[1..], id, b);
    }
  }

  lemma SameBusiness(s: State, t: State, id: nat, b: nat)
    requires IsCompleted(s.sales, id) && OfBusiness(s.sales, id, b) && IsCompleted(t.sales, id)
    ensures t.sales[id].value.business == s.sales[id].value.business ==> OfBusiness(t.sales, id, b)
  {
  }

  /** The step is the finalise or the collection that completes the sale. */
  ghost predicate Completes(s: State, op: Op, id: nat, b: nat) {
    && (op.Finalize? || op.Collect?) && op.sale == id && WellUsed(s, op)
    && OfBusiness(s.sales, id, b) && !IsCompleted(s.sales, id) && IsCompleted(Step(s, op).sales, id)
  }

  lemma CompletionFacts(initial: map<nat, real>, s: State, op: Op, id: nat, b: nat)
    requires Inv(initial, s) && Completes(s, op, id, b)
    ensures var t := Step(s, op);
            && Inv(initial, t) && OfBusiness(t.sales, id, b)
            && Tally(s.queue, id) == 0 && Tally(t.queue, id) == 0
            && IsDone(t.queue.rows, id) == IsDone(s.queue.rows, id)
            && (Perform(s, op).error == None ==> HasRow(t.queue.rows, id))
            && (op.Finalize? ==> !IsDone(s.queue.rows, id))
  {
    hide Finalized, Collected, HasRow, IsDone, Tally, Inv;
    StepKeepsInvariant(initial, s, op);
    InvOneRow(initial, s);
    BeforeCompletion(initial, s, op, id);
    if op.Finalize? {
      FinalizeMoves(s, id, op.tender, op.buyer, id);
      FinalizedHasRow(s, id, op.tender, op.buyer);
    } else {
      CollectMoves(s, id, op.tender, id);
      CollectedHasRow(s, id, op.tender);
    }
  }

  lemma BeforeCompletion(initial: map<nat, real>, s: State, op: Op, id: nat)
    requires Inv(initial, s) && (op.Finalize? || op.Collect?) && op.sale == id && HasSale(s, id)
    requires !IsCompleted(s.sales, id) && IsCompleted(Step(s, op).sales, id)
    ensures Tally(s.queue, id) == 0
    ensures op.Finalize? ==> !IsDone(s.queue.rows, id)
  {
    hide Settled, TenderRefused, Deduct, Draws, WithPayment, ComputePaymentAmounts, Given, Amount, Remaining, Enqueued;
    assert SaleOk(s.sales[id].value) && QueueOkFor(s, id);
  }

  lemma FinalizedHasRow(s: State, id: nat, t: Tender, buyer: Buyer)
    requires HasSale(s, id) && !IsCompleted(s.sales, id) && OneRowPerSale(s.queue.rows)
    requires IsCompleted(Finalized(s, id, t, buyer).state.sales, id)
    ensures HasRow(Finalized(s, id, t, buyer).state.queue.rows, id)
    ensures Finalized(s, id, t, buyer).state.sales[id].value.business == s.sales[id].value.business
  {
    hide TenderRefused, Deduct, Draws, ComputePaymentAmounts, Given, Amount, ResolveStatus, Enqueued, HasRow;
    EnqueueFacts(s.queue, id, id);
  }

  lemma CollectedHasRow(s: State, id: nat, t: Tender)
    requires HasSale(s, id) && OneRowPerSale(s.queue.rows)
    ensures Collected(s, id, t).error == None ==> HasRow(Collected(s, id, t).state.queue.rows, id)
    ensures HasSale(Collected(s, id, t).state, id)
    ensures Collected(s, id, t).state.sales[id].value.business == s.sales[id].value.business
  {
    hide ComputePaymentAmounts, Given, Amount, ResolveStatus, Remaining, Enqueued, HasRow;
    EnqueueFacts(s.queue, id, id);
  }

  /**
   * The count of a completed sale over any later run without its void. While the business is
   * not rebuilt it is one once the row is DONE, unless the row was DONE before the completion.
   * After a rebuild it is one, unless the row was not DONE at the last rebuild and is now.
   */
  lemma CompletedSaleCount(initial: map<nat, real>, s: State, op: Op, id: nat, b: nat, ops: seq<Op>)
    requires Inv(initial, s) && Completes(s, op, id, b)
    requires WellUsedRun(Step(s, op), ops) && NoVoidOf(ops, id)
    ensures var u := Run(Step(s, op), ops);
            && Inv(initial, u) && IsCompleted(u.sales, id) && OfBusiness(u.sales, id, b)
            && Tally(u.queue, id) == CountOf(s, u, id, LastRebuild(Step(s, op), ops, b))
            && (IsDone(s.queue.rows, id) ==> IsDone(u.queue.rows, id))
  {
    hide Inv, Step, WellUsed, WellUsedRun, HasRow, IsDone, Tally, IsCompleted, LastRebuild;
    CompletionFacts(initial, s, op, id, b);
    RollupFate(initial, Step(s, op), ops, id, b);
    SameBusiness(Step(s, op), Run(Step(s, op), ops), id, b);
  }

  function CountOf(s: State, u: State, id: nat, rebuild: Option<State>): int {
    match rebuild
    case None => FinishedBetween(s, u, id)
    case Some(m) => 1 + FinishedBetween(m, u, id)
  }

  /**
   * A sale completed by a collection is counted exactly once in just two cases: never rebuilt,
   * with a row that became DONE only after that collection; or rebuilt, with a row that was
   * already DONE at the last rebuild or is not DONE yet. A row drained between two part
   * payments is spent, and only a rebuild brings the sale into the rollups.
   */
  lemma CollectedSaleCountedIff(initial: map<nat, real>, s: State, id: nat, t: Tender, b: nat, ops: seq<Op>)
    requires Inv(initial, s) && Completes(s, Collect(id, t), id, b)
    requires WellUsedRun(Collected(s, id, t).state, ops) && NoVoidOf(ops, id)
    ensures var u := Run(Collected(s, id, t).state, ops);
            var done := IsDone(u.queue.rows, id);
            && IsCompleted(u.sales, id)
            && (Tally(u.queue, id) == 1 <==>
                match LastRebuild(Collected(s, id, t).state, ops, b)
                case None => done && !IsDone(s.queue.rows, id)
                case Some(m) => IsDone(m.queue.rows, id) || !done)
            && (IsDone(s.queue.rows, id) ==> Tally(u.queue, id) == if Backfill(b) in ops then 1 else 0)
  {
    hide Inv, Collected, WellUsedRun, IsDone, Tally, IsCompleted, LastRebuild, Completes;
    CompletedSaleCount(initial, s, Collect(id, t), id, b, ops);
    var s1 := Step(s, Collect(id, t));
    assert s1 == Collected(s, id, t).state;
    RebuildIff(s1, ops, b);
    if IsDone(s.queue.rows, id) && LastRebuild(s1, ops, b).Some? {
      CompletesFacts(s, Collect(id, t), id, b);
      CompletionFacts(initial, s, Collect(id, t), id, b);
      RollupFate(initial, s1, ops, id, b);
    }
  }

  lemma CompletesFacts(s: State, op: Op, id: nat, b: nat)
    requires Completes(s, op, id, b)
    ensures IsCompleted(Step(s, op).sales, id) && !IsCompleted(s.sales, id) && OfBusiness(s.sales, id, b)
  {
  }

  /**
   * A sale completed by finalise has a row, is counted once that row is DONE and not before,
   * and from a rebuild on at once; a row that becomes DONE after the rebuild counts it again.
   */
  lemma FinalizedSaleCount(
    initial: map<nat, real>, s: State, id: nat, t: Tender, buyer: Buyer, b: nat, ops: seq<Op>)
    requires Inv(initial, s) && Completes(s, Finalize(id, t, buyer), id, b)
    requires WellUsedRun(Finalized(s, id, t, buyer).state, ops) && NoVoidOf(ops, id)
    ensures var u := Run(Finalized(s, id, t, buyer).state, ops);
            var done := IsDone(u.queue.rows, id);
            && HasRow(u.queue.rows, id)
            && Tally(u.queue, id) == match LastRebuild(Finalized(s, id, t, buyer).state, ops, b)
                                     case None => if done then 1 else 0
                                     case Some(m) => if done && !IsDone(m.queue.rows, id) then 2 else 1
  {
    hide Inv, Finalized, WellUsedRun, IsDone, HasRow, Tally, IsCompleted, LastRebuild, Completes;
    var op := Finalize(id, t, buyer);
    CompletedSaleCount(initial, s, op, id, b, ops);
    CompletesFacts(s, op, id, b);
    CompletionFacts(initial, s, op, id, b);
    assert Step(s, op) == Finalized(s, id, t, buyer).state;
    FinalizeSucceeded(s, op, id);
    RollupFate(initial, Step(s, op), ops, id, b);
  }

  lemma FinalizeSucceeded(s: State, op: Op, id: nat)
    requires op.Finalize? && !IsCompleted(s.sales, id) && IsCompleted(Step(s, op).sales, id)
    ensures Perform(s, op).error == None
  {
    hide TenderRefused, Deduct, Draws, Enqueued, FinalSale;
  }

  /**
   * A rebuild counts a COMPLETED sale once. Over every later run without a void of it the sale
   * is counted twice exactly when its row was not DONE at the last rebuild and is DONE now.
   */
  lemma RebuildCountsTwiceIff(initial: map<nat, real>, s: State, b: nat, ops: seq<Op>, id: nat)
    requires Inv(initial, s) && IsCompleted(s.sales, id) && OfBusiness(s.sales, id, b)
    requires WellUsedRun(s, ops) && NoVoidOf(ops, id) && Backfill(b) in ops
    ensures var u := Run(s, ops);
            var rebuild := LastRebuild(s, ops, b);
            && rebuild.Some?
            && (Tally(u.queue, id) == 1 || Tally(u.queue, id) == 2)
            && (Tally(u.queue, id) == 2 <==>
                IsDone(u.queue.rows, id) && !IsDone(rebuild.value.queue.rows, id))
  {
    hide Inv, WellUsedRun, IsDone, HasRow, Tally, IsCompleted, LastRebuild, Run;
    RebuildIff(s, ops, b);
    RollupFate(initial, s, ops, id, b);
  }

  /** One rebuild repairs a lost sale for good: it is counted exactly once in every later run. */
  lemma RebuildRepairsLostSale(initial: map<nat, real>, s: State, b: nat, ops: seq<Op>, id: nat)
    requires Inv(initial, s) && IsCompleted(s.sales, id) && OfBusiness(s.sales, id, b)
    requires IsDone(s.queue.rows, id)
    requires WellUsedRun(Step(s, Backfill(b)), ops) && NoVoidOf(ops, id)
    ensures Tally(Run(Step(s, Backfill(b)), ops).queue, id) == 1
  {
    hide Inv, WellUsedRun, HasRow, Tally, IsCompleted, LastRebuild, Run;
    RebuildStep(s, b, id);
    BackfillKeeps(initial, s, b);
    RollupFate(initial, Step(s, Backfill(b)), ops, id, b);
  }

  // ---------- the background task ----------

  /**
   * The background task in a reachable state: it makes the row of a COMPLETED sale DONE and
   * counts the sale, or marks the row FAILED if the rollup call fails; one attempt is used. A
   * sale that is not COMPLETED, or whose row is DONE, is left alone, and so is everything else.
   */
  lemma BackgroundAnswers(initial: map<nat, real>, s: State, id: nat, failing: set<nat>, other: nat)
    requires Inv(initial, s)
    ensures var t := Step(s, Background(id, failing));
            var q, r := s.queue, t.queue;
            && t == s.(queue := r)
            && (!IsCompleted(s.sales, id) || IsDone(q.rows, id) ==> t == s)
            && (IsCompleted(s.sales, id) && !IsDone(q.rows, id) ==>
                  && RowOf(r.rows, id) < |r.rows|
                  && r.rows[RowOf(r.rows, id)] ==
                     OutboxRow(id, if id in failing then FAILED else DONE, AttemptsOf(q.rows, id) + 1)
                  && Tally(r, id) == Tally(q, id) + if id in failing then 0 else 1)
            && (other != id ==> Tally(r, other) == Tally(q, other) && IsDone(r.rows, other) == IsDone(q.rows, other))
  {
    InvOneRow(initial, s);
    hide Inv, Refreshed;
    RefreshAnswers(s.queue, s.sales, id, failing, other);
  }

  /**
   * A sale just completed, by finalise or by a collection whose row was not spent before, is
   * counted by its background task, and from then on exactly once in every later run without
   * its void, rebuilds included.
   */
  lemma CompletionThenBackground(
    initial: map<nat, real>, s: State, op: Op, id: nat, b: nat, failing: set<nat>, ops: seq<Op>)
    requires Inv(initial, s) && Completes(s, op, id, b) && !IsDone(s.queue.rows, id) && id !in failing
    requires WellUsedRun(Step(Step(s, op), Background(id, failing)), ops) && NoVoidOf(ops, id)
    ensures var t := Step(Step(s, op), Background(id, failing));
            && IsDone(t.queue.rows, id) && Tally(t.queue, id) == 1
            && Tally(Run(t, ops).queue, id) == 1
  {
    CompletionFacts(initial, s, op, id, b);
    CompletesFacts(s, op, id, b);
    var s1 := Step(s, op);
    var t := Step(s1, Background(id, failing));
    BackgroundAnswers(initial, s1, id, failing, id);
    StepKeepsInvariant(initial, s1, Background(id, failing));
    hide Inv, Step, WellUsed, WellUsedRun, Tally, LastRebuild, Run;
    RollupFate(initial, t, ops, id, b);
  }

  /** A finalise that pays in full is counted by its background task, and only once. */
  lemma PaidSaleIsCountedOnce(
    initial: map<nat, real>, s: State, id: nat, t: Tender, buyer: Buyer, failing: set<nat>, ops: seq<Op>)
    requires Inv(initial, s) && HasSale(s, id) && id !in failing
    requires Finalized(s, id, t, buyer).error == None && IsCompleted(Finalized(s, id, t, buyer).state.sales, id)
    requires WellUsedRun(Step(Finalized(s, id, t, buyer).state, Background(id, failing)), ops) && NoVoidOf(ops, id)
    ensures Tally(Run(Step(Finalized(s, id, t, buyer).state, Background(id, failing)), ops).queue, id) == 1
  {
    var op, b := Finalize(id, t, buyer), s.sales[id].value.business;
    FinalizeStarts(s, op, id, b);
    CompletionFacts(initial, s, op, id, b);
    assert Step(s, op) == Finalized(s, id, t, buyer).state;
    hide Inv, Step, Finalized, WellUsedRun, IsDone, Tally, Run;
    CompletionThenBackground(initial, s, op, id, b, failing, ops);
  }

  lemma FinalizeStarts(s: State, op: Op, id: nat, b: nat)
    requires op.Finalize? && op.sale == id && HasSale(s, id) && b == s.sales[id].value.business
    requires Perform(s, op).error == None && IsCompleted(Step(s, op).sales, id)
    ensures Completes(s, op, id, b)
  {
    hide TenderRefused, Deduct, Draws, Enqueued, FinalSale;
  }

  // ---------- sales that never complete ----------

  /** The sale is COMPLETED at no moment of the run. */
  ghost predicate NeverCompleted(s: State, ops: seq<Op>, id: nat)
    decreases |ops|
  {
    !IsCompleted(s.sales, id) && (|ops| == 0 || NeverCompleted(Step(s, ops[0]), ops[1..], id))
  }

  lemma {:induction false} AttemptsSpare(
    q: Queue, sales: seq<Option<Sale>>, picked: seq<nat>, failing: set<nat>, id: nat)
    requires forall k :: 0 <= k < |picked| ==> picked[k] < |q.rows|
    requires !IsCompleted(sales, id)
    ensures Tally(AttemptAll(q, sales, picked, failing), id) == Tally(q, id)
  {
    if |picked| != 0 {
      AttemptsSpare(q, sales, picked[..|picked| - 1], failing, id);
    }
  }

  lemma RefreshSpares(q: Queue, sales: seq<Option<Sale>>, other: nat, failing: set<nat>, id: nat)
    requires !IsCompleted(sales, id)
    ensures Tally(Refreshed(q, sales, other, failing), id) == Tally(q, id)
  {
  }

  /** No step counts a sale that is not COMPLETED, nor takes it out of the rollups. */
  lemma StepCountsNothing(s: State, op: Op, id: nat)
    requires !IsCompleted(s.sales, id) && Tally(s.queue, id) == 0
    ensures Tally(Step(s, op).queue, id) == 0
  {
    hide Deduct, Restore, OutstandingDraws, Settled, TenderRefused, WithPayment, ComputePaymentAmounts, Given, Amount,
      Remaining, Drained, Refreshed, Backfilled, Move;
    match op
    case Drain(limit, failing) =>
      AttemptsSpare(s.queue, s.sales, Selected(s.queue.rows, |s.queue.rows|, limit), failing, id);
      DrainUnfolds(s.queue, s.sales, limit, failing);
    case Background(other, failing) => RefreshSpares(s.queue, s.sales, other, failing, id);
    case Backfill(b) => BackfillCounts(s.queue, s.sales, b, id);
    case _ =>
  }

  /**
   * Over every run of any operations, voids, drains and rebuilds included, a sale that is
   * COMPLETED at no moment is in the rollups at no moment.
   */
  lemma {:induction false} NeverCompletedIsNeverCounted(s: State, ops: seq<Op>, id: nat, k: nat)
    requires Tally(s.queue, id) == 0 && NeverCompleted(s, ops, id) && k <= |ops|
    ensures Tally(Run(s, ops[..k]).queue, id) == 0
    decreases |ops|
  {
    hide Step, Tally, IsCompleted;
    if k > 0 {
      StepCountsNothing(s, ops[0], id);
      NeverCompletedIsNeverCounted(Step(s, ops[0]), ops[1..], id, k - 1);
      assert ops[..k][1..] == ops[1..][..k - 1];
    }
  }

  // ---------- the sales the rollups miss ----------

  /** A drain with room for every row attempts all eligible ones. */
  lemma {:induction false} WideDrainSelects(rows: seq<OutboxRow>, n: nat, limit: nat, i: nat)
    requires i < n <= |rows| && n <= limit && Eligible(rows[i])
    ensures i in Selected(rows, n, limit)
  {
    if i < n - 1 {
      WideDrainSelects(rows, n - 1, limit, i);
    }
  }

  lemma {:induction false} AttemptedIsDone(
    q: Queue, sales: seq<Option<Sale>>, picked: seq<nat>, failing: set<nat>, i: nat)
    requires forall k :: 0 <= k < |picked| ==> picked[k] < |q.rows|
    requires forall k, m :: 0 <= k < m < |picked| ==> picked[k] < picked[m]
    requires i in picked && q.rows[i].sale !in failing
    ensures var r := AttemptAll(q, sales, picked, failing);
            i < |r.rows| && r.rows[i].status == DONE && r.rows[i].sale == q.rows[i].sale
  {
    var n := |picked| - 1;
    if picked[n] == i {
      UnpickedUntouched(q, sales, picked[..n], failing, i);
    } else {
      AttemptedIsDone(q, sales, picked[..n], failing, i);
    }
  }

  lemma DrainUnfolds(q: Queue, sales: seq<Option<Sale>>, limit: nat, failing: set<nat>)
    ensures Drained(q, sales, limit, failing) == AttemptAll(q, sales, Selected(q.rows, |q.rows|, limit), failing)
  {
  }

  /**
   * The whole family: an open sale whose row is waiting, a drain that reaches the row, then
   * the collection that completes the sale. The row is spent while the sale is open, and no
   * later run counts the COMPLETED sale unless it rebuilds the business.
   */
  lemma DrainedWhileOpenIsLost(
    initial: map<nat, real>, s: State, id: nat, limit: nat, failing: set<nat>, t: Tender, b: nat, ops: seq<Op>)
    requires Inv(initial, s) && HasDocument(s, id) && IsOpen(s.sales[id].value.status)
    requires HasRow(s.queue.rows, id) && Eligible(s.queue.rows[RowOf(s.queue.rows, id)])
    requires limit >= |s.queue.rows| && id !in failing
    requires var s1 := Step(s, Drain(limit, failing));
             && Completes(s1, Collect(id, t), id, b)
             && WellUsedRun(Collected(s1, id, t).state, ops)
    requires NoVoidOf(ops, id)
    ensures var u := Run(Collected(Step(s, Drain(limit, failing)), id, t).state, ops);
            IsCompleted(u.sales, id) && Tally(u.queue, id) == if Backfill(b) in ops then 1 else 0
  {
    hide Collected, Run, Inv, Drained, AttemptAll, Selected, WellUsedRun, Completes;
    var s1 := Step(s, Drain(limit, failing));
    var rows, k := s.queue.rows, RowOf(s.queue.rows, id);
    InvOneRow(initial, s);
    DrainKeeps(initial, s, limit, failing);
    DrainProgress(s.queue, s.sales, limit, failing, id);
    assert s1.queue == AttemptAll(s.queue, s.sales, Selected(rows, |rows|, limit), failing)
    by { DrainUnfolds(s.queue, s.sales, limit, failing); }
    WideDrainSelects(rows, |rows|, limit, k);
    AttemptedIsDone(s.queue, s.sales, Selected(rows, |rows|, limit), failing, k);
    RowIsUnique(s1.queue.rows, k);
    CollectedSaleCountedIff(initial, s1, id, t, b, ops);
  }

  /**
   * Any reachable COMPLETED sale whose row is still waiting is counted twice by a rebuild
   * followed by a drain that reaches the row.
   */
  lemma RebuildThenDrainCountsTwice(
    initial: map<nat, real>, s: State, id: nat, b: nat, limit: nat, failing: set<nat>)
    requires Inv(initial, s) && IsCompleted(s.sales, id) && OfBusiness(s.sales, id, b)
    requires HasRow(s.queue.rows, id) && Eligible(s.queue.rows[RowOf(s.queue.rows, id)])
    requires limit >= |s.queue.rows| && id !in failing
    ensures Tally(Step(Step(s, Backfill(b)), Drain(limit, failing)).queue, id) == 2
  {
    hide Inv, Drained, AttemptAll, Selected, Backfilled;
    var s1 := Step(s, Backfill(b));
    RebuildStep(s, b, id);
    var q, rows, k := s1.queue, s1.queue.rows, RowOf(s.queue.rows, id);
    InvOneRow(initial, s);
    DrainProgress(q, s1.sales, limit, failing, id);
    var r := Drained(q, s1.sales, limit, failing);
    assert r == AttemptAll(q, s1.sales, Selected(rows, |rows|, limit), failing)
    by { DrainUnfolds(q, s1.sales, limit, failing); }
    WideDrainSelects(rows, |rows|, limit, k);
    AttemptedIsDone(q, s1.sales, Selected(rows, |rows|, limit), failing, k);
    RowIsUnique(r.rows, k);
  }

  // The family is reachable: five operations on an empty till.

  const EMPTY: State := State(map[], [], Ledger(map[], []), [], [], Queue([], map[]))
  const DELIVERY: seq<Fee> := [Fee(2.0, "delivery")]
  const JUMA: Buyer := Buyer("Juma", "0700000000")

  function Paying(means: Method, given: Option<real>): Tender {
    Tender(means, "", given)
  }

  function CreditSale(payments: seq<Payment>): Sale {
    Sale(0, Some(0), PENDING_PAYMENT, 200, [], payments, 0, 200, Some(0))
  }

  lemma StageDelivery()
    ensures Initialized(EMPTY, 0, [], 0.0, DELIVERY) == Reply(EMPTY.(sales := [Some(Staged(0, 200, []))]), None)
  {
    assert DELIVERY[..0] == [];
    assert FeeTotal(DELIVERY) == 2.0 == Amount(200);
    WholeCents(200);
    WholeCents(0);
    assert Amount(0) == 0.0;
    assert SaleTotal(0.0, 0.0, 0.0, DELIVERY) == 200;
  }

  lemma FinalizeDelivery()
    ensures Finalized(EMPTY.(sales := [Some(Staged(0, 200, []))]), 0, Paying(INVOICE, None), JUMA) ==
            Reply(EMPTY.(sales := [Some(CreditSale([]))], customers := [Customer(0, Some("0700000000"), false)]), None)
  {
    assert CartLines([]) == [];
  }

  lemma CollectHalf(s: State, sale: Sale)
    requires s.sales == [Some(sale)] && IsOpen(sale.status) && Remaining(sale) >= 100
    requires OneRowPerSale(s.queue.rows)
    ensures var r := Collected(s, 0, Paying(CASH, Some(1.0)));
            && r.error == None && HasDocument(r.state, 0) && |r.state.sales| == 1
            && r.state.queue == Enqueued(s.queue, 0)
            && r.state.sales[0].value.status == (if Remaining(sale) == 100 then COMPLETED else PARTIALLY_PAID)
            && r.state.sales[0].value.total == sale.total && r.state.sales[0].value.business == sale.business
            && Paid(r.state.sales[0].value.payments) == Paid(sale.payments) + 100
  {
    var due := Remaining(sale);
    ToleranceIsExact(due);
    assert Amount(100) == 1.0;
    WholeCents(100);
    WholeCents(due);
    var p := ComputePaymentAmounts(Amount(due), 1.0);
    assert p == Payment(100, 100, due, 0);
    TolerancesAreExact(due, 100);
    PaidAppend(sale.payments, p);
  }

  const HALF: Op := Collect(0, Paying(CASH, Some(1.0)))

  /** The till after staging the delivery and finalising it on credit. */
  function OnCredit(): State {
    Step(Step(EMPTY, Initialize(0, [], 0.0, DELIVERY)), Finalize(0, Paying(INVOICE, None), JUMA))
  }

  lemma OnCreditFacts()
    ensures Inv(map[], OnCredit())
    ensures OnCredit().sales == [Some(CreditSale([]))] && OnCredit().queue == Queue([], map[])
  {
    hide Initialized, Finalized, Inv, CreditSale;
    FreshStart(map[], map[]);
    StageDelivery();
    FinalizeDelivery();
    StepKeepsInvariant(map[], EMPTY, Initialize(0, [], 0.0, DELIVERY));
    StepKeepsInvariant(map[], Step(EMPTY, Initialize(0, [], 0.0, DELIVERY)), Finalize(0, Paying(INVOICE, None), JUMA));
  }

  lemma HalfPaidFacts()
    ensures var s := Step(OnCredit(), HALF);
            && Inv(map[], s) && HasDocument(s, 0) && |s.sales| == 1
            && IsOpen(s.sales[0].value.status) && s.sales[0].value.business == 0
            && s.sales[0].value.total == 200 && Remaining(s.sales[0].value) == 100
            && s.queue == Queue([OutboxRow(0, OutboxStatus.PENDING, 0)], map[])
  {
    hide Collected, Inv, CreditSale, OnCredit;
    OnCreditFacts();
    CreditSaleFacts();
    CollectHalf(OnCredit(), CreditSale([]));
    StepKeepsInvariant(map[], OnCredit(), HALF);
  }

  /**
   * Stage a delivery of 200 cents, finalise it on credit, collect half, drain the outbox,
   * collect the other half: from an empty till this reaches a COMPLETED sale with a positive
   * total that no further run without its void counts before it rebuilds the business.
   */
  lemma FiveStepsLoseASale(ops: seq<Op>)
    requires NoVoidOf(ops, 0)
    ensures var s := Step(Step(Step(OnCredit(), HALF), Drain(10, {})), HALF);
            && Inv(map[], s) && IsCompleted(s.sales, 0) && s.sales[0].value.total == 200
            && (WellUsedRun(s, ops) ==>
                && IsCompleted(Run(s, ops).sales, 0)
                && Tally(Run(s, ops).queue, 0) == if Backfill(0) in ops then 1 else 0)
  {
    hide Collected, Inv, OnCredit, Drained;
    HalfPaidFacts();
    var s3 := Step(OnCredit(), HALF);
    var s4 := Step(s3, Drain(10, {}));
    OneRow(OutboxRow(0, OutboxStatus.PENDING, 0));
    StepKeepsInvariant(map[], s3, Drain(10, {}));
    InvOneRow(map[], s4);
    CollectHalf(s4, s4.sales[0].value);
    StepKeepsInvariant(map[], s4, HALF);
    if WellUsedRun(Step(s4, HALF), ops) {
      HalfCompletes(s4);
      DrainedWhileOpenIsLost(map[], s3, 0, 10, {}, Paying(CASH, Some(1.0)), 0, ops);
    }
  }

  lemma HalfCompletes(s: State)
    requires HasDocument(s, 0) && OfBusiness(s.sales, 0, 0) && IsOpen(s.sales[0].value.status)
    requires IsCompleted(Collected(s, 0, Paying(CASH, Some(1.0))).state.sales, 0)
    ensures Completes(s, HALF, 0, 0)
  {
    hide Collected;
  }

  lemma CreditSaleFacts()
    ensures var sale := CreditSale([]);
            && IsOpen(sale.status) && Remaining(sale) == 200 && sale.document.Some?
            && sale.total == 200 && Paid(sale.payments) == 0
            && sale.business == 0
  {
  }

  lemma OneRow(row: OutboxRow)
    ensures RowOf([row], row.sale) == 0 && HasRow([row], row.sale)
  {
    assert [row][..0] == [];
  }

  // ---------- voiding and the rollups ----------

  /** A refunded sale stays refunded. */
  lemma RefundedStays(s: State, op: Op, id: nat)
    requires WellUsed(s, op) && HasDocument(s, id) && s.sales[id].value.status == REFUNDED
    ensures var t := Step(s, op);
            && HasDocument(t, id) && t.sales[id].value.status == REFUNDED
            && t.sales[id].value.business == s.sales[id].value.business
    ensures op.Void? && op.sale == id ==> Step(s, op) == s
  {
    hide Deduct, Restore, OutstandingDraws, Settled, TenderRefused, WithPayment, ComputePaymentAmounts, Given,
      Amount, Remaining, Drained, Refreshed, Backfilled;
  }

  lemma RefundedStepMoves(initial: map<nat, real>, s: State, op: Op, id: nat, b: nat)
    requires Inv(initial, s) && WellUsed(s, op) && HasDocument(s, id) && s.sales[id].value.status == REFUNDED
    requires OfBusiness(s.sales, id, b)
    ensures var t := Step(s, op);
            && HasDocument(t, id) && t.sales[id].value.status == REFUNDED && OfBusiness(t.sales, id, b)
            && Tally(t.queue, id) == if op == Backfill(b) then 0 else Tally(s.queue, id)
  {
    hide Inv, Step, WellUsed, OneRowPerSale, Tally;
    InvOneRow(initial, s);
    RefundedStays(s, op, id);
    if op == Backfill(b) {
      RefundedRebuild(s, id, b);
    } else if !(op.Void? && op.sale == id) {
      StepMoves(s, op, id);
    }
  }

  lemma RefundedRebuild(s: State, id: nat, b: nat)
    requires HasDocument(s, id) && s.sales[id].value.status == REFUNDED && OfBusiness(s.sales, id, b)
    ensures Tally(Step(s, Backfill(b)).queue, id) == 0
  {
    BackfillCounts(s.queue, s.sales, b, id);
  }

  lemma InvOneRow(initial: map<nat, real>, s: State)
    requires Inv(initial, s)
    ensures OneRowPerSale(s.queue.rows)
  {
  }

  /** The count of a refunded sale changes only by a rebuild, which sets it to zero. */
  lemma {:induction false} RefundedCount(initial: map<nat, real>, s: State, ops: seq<Op>, id: nat, b: nat)
    requires Inv(initial, s) && WellUsedRun(s, ops) && HasDocument(s, id) && s.sales[id].value.status == REFUNDED
    requires OfBusiness(s.sales, id, b)
    ensures HasDocument(Run(s, ops), id)
    ensures Tally(Run(s, ops).queue, id) == if Backfill(b) in ops then 0 else Tally(s.queue, id)
    decreases |ops|
  {
    hide Inv, Step, WellUsed, OfBusiness, HasDocument, Tally;
    if |ops| != 0 {
      RefundedStepMoves(initial, s, ops[0], id, b);
      StepKeepsInvariant(initial, s, ops[0]);
      RefundedCount(initial, Step(s, ops[0]), ops[1..], id, b);
      assert ops == [ops[0]] + ops[1..];
    }
  }

  lemma VoidCount(initial: map<nat, real>, s: State, id: nat, b: nat, rollupFails: bool)
    requires Inv(initial, s) && IsCompleted(s.sales, id) && OfBusiness(s.sales, id, b)
    ensures var r := Voided(s, id, b, rollupFails).state;
            && Inv(initial, r) && HasDocument(r, id) && r.sales[id].value.status == REFUNDED
            && OfBusiness(r.sales, id, b)
            && Tally(r.queue, id) == Tally(s.queue, id) - if rollupFails then 0 else 1
  {
    hide Restore, OutstandingDraws;
    assert SaleOk(s.sales[id].value);
    VoidKeeps(initial, s, id, b, rollupFails);
  }

  /**
   * A sale is completed, lives through any run, is voided, and any run follows. The rollups end
   * without it exactly in these cases: the business is rebuilt after the void; or it was never
   * rebuilt before, and the reversal failed if the row was DONE before the completion, and
   * otherwise succeeded just when the row was DONE at the void; or it was rebuilt before, the
   * reversal succeeded, and the row did not become DONE between that rebuild and the void.
   */
  lemma VoidedCountEvensOutIff(
    initial: map<nat, real>, s: State, op: Op, id: nat, b: nat, ops: seq<Op>, rollupFails: bool, later: seq<Op>)
    requires Inv(initial, s) && Completes(s, op, id, b)
    requires WellUsedRun(Step(s, op), ops) && NoVoidOf(ops, id)
    requires WellUsedRun(Voided(Run(Step(s, op), ops), id, b, rollupFails).state, later)
    ensures var v := Run(Step(s, op), ops);
            var u := Run(Voided(v, id, b, rollupFails).state, later);
            var done := IsDone(v.queue.rows, id);
            Tally(u.queue, id) == 0 <==>
              Backfill(b) in later ||
              match LastRebuild(Step(s, op), ops, b)
              case None => if IsDone(s.queue.rows, id) then rollupFails else done != rollupFails
              case Some(m) => !rollupFails && (IsDone(m.queue.rows, id) || !done)
  {
    hide Inv, Step, WellUsed, WellUsedRun, Voided, HasRow, IsDone, Tally, IsCompleted, OfBusiness, LastRebuild, Run;
    var v := Run(Step(s, op), ops);
    CompletedSaleCount(initial, s, op, id, b, ops);
    VoidCount(initial, v, id, b, rollupFails);
    RefundedCount(initial, Voided(v, id, b, rollupFails).state, later, id, b);
  }

  // ---------- collections terminate ----------

  /** A successful collection on this sale whose tender survives rounding. */
  predicate Settles(s: State, op: Op, id: nat) {
    op.Collect? && op.sale == id && WholeTender(op.tender) && Perform(s, op).error == None
  }

  /** How many operations of the run are successful collections of at least a cent on this sale. */
  function Collections(s: State, ops: seq<Op>, id: nat): nat
    decreases |ops|
  {
    if |ops| == 0 then 0
    else (if Settles(s, ops[0], id) then 1 else 0)
         + Collections(Step(s, ops[0]), ops[1..], id)
  }

  lemma CollectSpendsBalance(initial: map<nat, real>, s: State, t: Tender, id: nat)
    requires Inv(initial, s) && HasDocument(s, id) && TenderOk(s.sales[id].value, t)
    ensures var r := Collected(s, id, t);
            && HasDocument(r.state, id)
            && Remaining(r.state.sales[id].value) <= Remaining(s.sales[id].value)
            && (r.error == None && WholeTender(t) ==>
                Remaining(r.state.sales[id].value) < Remaining(s.sales[id].value))
  {
    hide WithPayment, ComputePaymentAmounts, Amount, SaleOk;
    var sale := s.sales[id].value;
    assert SaleOk(sale);
    ToleranceIsExact(Remaining(sale));
    AtLeastACent(Remaining(sale));
    if IsOpen(sale.status) && Remaining(sale) > 0 && Given(t, Amount(Remaining(sale))) > 0.0 {
      CollectedIsOk(sale, t);
    }
  }

  lemma OthersKeepBalance(s: State, op: Op, id: nat)
    requires HasDocument(s, id) && !(op.Collect? && op.sale == id)
    ensures var t := Step(s, op);
            HasDocument(t, id) && Remaining(t.sales[id].value) == Remaining(s.sales[id].value)
  {
    hide Deduct, Restore, OutstandingDraws, Settled, TenderRefused, WithPayment, ComputePaymentAmounts, Given,
      Amount, Drained, Refreshed;
  }

  lemma StepSpendsBalance(initial: map<nat, real>, s: State, op: Op, id: nat)
    requires Inv(initial, s) && WellUsed(s, op) && HasDocument(s, id)
    ensures var t := Step(s, op);
            && HasDocument(t, id)
            && Remaining(t.sales[id].value) <= Remaining(s.sales[id].value)
            && (Settles(s, op, id) ==> Remaining(t.sales[id].value) < Remaining(s.sales[id].value))
  {
    hide Inv, Collected, Remaining;
    if op.Collect? && op.sale == id {
      CollectSpendsBalance(initial, s, op.tender, id);
    } else {
      OthersKeepBalance(s, op, id);
    }
  }

  /**
   * Each successful collection of a tender above half a cent lowers the balance by at least a
   * cent, so over any run there are at most as many of them as cents were outstanding.
   */
  lemma {:induction false} CollectionsAreBounded(initial: map<nat, real>, s: State, ops: seq<Op>, id: nat)
    requires Inv(initial, s) && WellUsedRun(s, ops) && HasDocument(s, id)
    ensures HasDocument(Run(s, ops), id)
    ensures Collections(s, ops, id) + Remaining(Run(s, ops).sales[id].value) <= Remaining(s.sales[id].value)
    decreases |ops|
  {
    hide Inv, Step, WellUsed, Settles, Remaining;
    if |ops| != 0 {
      StepSpendsBalance(initial, s, ops[0], id);
      StepKeepsInvariant(initial, s, ops[0]);
      CollectionsAreBounded(initial, Step(s, ops[0]), ops[1..], id);
    }
  }
}
