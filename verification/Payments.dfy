/** Payment arithmetic and the denormalised money columns of a sale. */
module Payments {
  import opened Common
  import opened Tables
  import opened Money

  /** Applied amount, change, and whether the payment settles the due amount. */
  function ComputePaymentAmounts(amountDue: real, amountGiven: real): (p: Payment)
    ensures p.dueBefore >= 0 && p.given >= 0
    ensures 0 <= p.amount <= p.dueBefore
    ensures 0 <= p.change
    // every cent tendered is either applied or handed back
    ensures p.given == p.amount + p.change
    // nothing is handed back before the due amount is covered
    ensures p.change > 0 ==> p.amount == p.dueBefore
  {
    var due := Max(0, ToCents(amountDue));
    var given := Max(0, ToCents(amountGiven));
    Payment(Min(given, due), given, due, Max(0, given - due))
  }

  function IsFull(p: Payment): bool {
    Amount(p.amount) >= Amount(p.dueBefore) - 0.001
  }

  /** The status after applying `applied` cents toward `dueBefore` cents, with the source's tolerances. */
  function ResolveStatus(dueBefore: int, applied: int): Status {
    var due := Max(0, dueBefore);
    var paid := Max(0, applied);
    var remaining := due - paid;
    if Amount(remaining) <= 0.001 then COMPLETED
    else if Amount(paid) > 0.001 then PARTIALLY_PAID
    else PENDING_PAYMENT
  }

  /** On whole cents the 0.001 tolerances are exact comparisons with zero. */
  lemma TolerancesAreExact(dueBefore: int, applied: int)
    requires 0 <= applied <= dueBefore
    ensures ResolveStatus(dueBefore, applied) ==
            if applied == dueBefore then COMPLETED
            else if applied > 0 then PARTIALLY_PAID
            else PENDING_PAYMENT
    ensures forall p: Payment :: p.amount == applied && p.dueBefore == dueBefore ==>
              (IsFull(p) <==> applied == dueBefore)
  {
    ToleranceIsExact(dueBefore - applied);
    ToleranceIsExact(applied);
  }

  lemma ToleranceIsExact(cents: int)
    ensures Amount(cents) <= 0.001 <==> cents <= 0
  {
    if cents >= 1 {
      assert Amount(cents) >= 0.01;
    }
  }

  lemma AtLeastACent(due: int)
    ensures due > 0 ==> Amount(due) > 0.005
  {
    assert due > 0 ==> Amount(due) >= 0.01;
  }

  /** Sum of the applied amounts of the payment rows. */
  function Paid(payments: seq<Payment>): int {
    if |payments| == 0 then 0
    else Paid(payments[..|payments| - 1]) + payments[|payments| - 1].amount
  }

  function Remaining(sale: Sale): int {
    Max(0, sale.total - Paid(sale.payments))
  }

  predicate IsOpen(status: Status) {
    status == PENDING_PAYMENT || status == PARTIALLY_PAID
  }

  /** The columns list and detail views read without joining the payment rows. */
  function Synced(sale: Sale, payments: seq<Payment>): Sale {
    sale.(amountPaid := Paid(payments),
          balanceDue := if sale.status == COMPLETED then 0 else Max(0, sale.total - Paid(payments)))
  }

  /** Recompute the two money columns of sale `id` from the given payment rows. */
  method SyncSalePaymentColumns(db: Database, id: nat, payments: seq<Payment>)
    requires id < |db.sales| && db.sales[id].Some?
    modifies db`sales
    ensures db.sales == old(db.sales)[id := Some(Synced(old(db.sales)[id].value, payments))]
  {
    var paid := 0;
    for i := 0 to |payments|
      invariant paid == Paid(payments[..i])
    {
      assert payments[..i + 1][..i] == payments[..i];
      paid := paid + payments[i].amount;
    }
    assert payments[..|payments|] == payments;
    var sale := db.sales[id].value;
    sale := sale.(amountPaid := paid);
    if sale.status == COMPLETED {
      sale := sale.(balanceDue := 0);
    } else {
      sale := sale.(balanceDue := Max(0, sale.total - paid));
    }
    db.sales := db.sales[id := Some(sale)];
  }

  /** The paid amount of the read schema: payment rows win, then the document, then the stored column. */
  function ShownPaid(sale: Sale): int {
    if sale.payments != [] then Paid(sale.payments)
    else if sale.document.Some? && sale.document.value > 0 then sale.document.value
    else sale.amountPaid
  }

  /** Whatever the columns hold, payment rows win, then a positive paid amount of the document. */
  lemma ShownOrder(sale: Sale)
    ensures sale.payments != [] ==> Shown(sale).0 == Paid(sale.payments)
    ensures forall d :: sale.payments == [] && sale.document == Some(d) && d > 0 ==> Shown(sale).0 == d
    ensures sale.payments == [] && (sale.document == None || sale.document.value <= 0) ==>
              Shown(sale).0 == sale.amountPaid
    ensures sale.status == COMPLETED ==> Shown(sale).1 == 0
    ensures sale.status != COMPLETED ==>
              Shown(sale).1 == if sale.total > Shown(sale).0 then sale.total - Shown(sale).0 else 0
  {
  }

  /** What the read schema shows of a sale: amount paid and balance due. */
  function Shown(sale: Sale): (int, int) {
    (ShownPaid(sale), if sale.status == COMPLETED then 0 else Max(0, sale.total - ShownPaid(sale)))
  }

  method PopulateListHelpers(sale: Sale) returns (amountPaid: int, balanceDue: int)
    ensures (amountPaid, balanceDue) == Shown(sale)
  {
    var paid := 0;
    for i := 0 to |sale.payments|
      invariant paid == Paid(sale.payments[..i])
    {
      assert sale.payments[..i + 1][..i] == sale.payments[..i];
      paid := paid + sale.payments[i].amount;
    }
    assert sale.payments[..|sale.payments|] == sale.payments;
    if |sale.payments| == 0 {
      paid := if sale.document.Some? then sale.document.value else 0;
      if paid <= 0 {
        paid := sale.amountPaid;
      }
    }
    amountPaid := paid;
    balanceDue := if sale.status == COMPLETED then 0 else Max(0, sale.total - paid);
  }

  // ---------- one sale's payments ----------

  /**
   * The money facts of a sale: payments never exceed the total, every payment splits into
   * applied and change, and the status says how much has been paid.
   */
  ghost predicate MoneyOk(sale: Sale) {
    && 0 <= sale.total
    && 0 <= Paid(sale.payments) <= sale.total
    && (forall i :: 0 <= i < |sale.payments| ==> PaymentOk(sale.payments[i]))
    && (sale.status == COMPLETED ==> Paid(sale.payments) == sale.total)
    && (sale.status == PARTIALLY_PAID ==> 0 < Paid(sale.payments) < sale.total)
    && (sale.status == PENDING_PAYMENT ==> Paid(sale.payments) == 0)
  }

  predicate PaymentOk(p: Payment) {
    0 <= p.amount <= p.dueBefore && 0 <= p.change && p.given == p.amount + p.change
  }

  /** The stored columns agree with the payment rows. */
  predicate ColumnsOk(sale: Sale) {
    && sale.amountPaid == Paid(sale.payments)
    && sale.balanceDue == if sale.status == COMPLETED then 0 else Remaining(sale)
  }

  /** The sale after one more payment row, with status and columns brought up to date. */
  function WithPayment(sale: Sale, p: Payment): Sale {
    var paid := sale.(payments := sale.payments + [p], status := ResolveStatus(p.dueBefore, p.amount));
    Synced(paid, paid.payments)
  }

  /** The sale with its document minted, or brought up to date, from the payment rows. */
  function Minted(sale: Sale): Sale {
    sale.(document := Some(Paid(sale.payments)))
  }

  lemma MintedKeepsMoney(sale: Sale)
    ensures MoneyOk(Minted(sale)) == MoneyOk(sale) && ColumnsOk(Minted(sale)) == ColumnsOk(sale)
    ensures Remaining(Minted(sale)) == Remaining(sale)
  {
  }

  lemma PaidAppend(payments: seq<Payment>, p: Payment)
    ensures Paid(payments + [p]) == Paid(payments) + p.amount
  {
    assert (payments + [p])[..|payments|] == payments;
  }

  /** A payment row computed for a balance of `due` cents. */
  lemma ComputedPayment(due: int, given: real)
    requires due >= 0 && given > 0.0
    ensures var p := ComputePaymentAmounts(Amount(due), given);
            PaymentOk(p) && p.dueBefore == due && (p.amount > 0 <==> due > 0 && given > 0.005)
  {
    hide ToCents, Amount;
    WholeCents(due);
    NaturalCents(given);
    TenderSurvivesRounding(given);
  }

  /** One more payment row on an open sale, in cents. */
  lemma PaymentInCents(sale: Sale, p: Payment)
    requires MoneyOk(sale) && IsOpen(sale.status)
    requires PaymentOk(p) && p.dueBefore == Remaining(sale)
    ensures var after := WithPayment(sale, p);
            && (MoneyOk(after) <==> p.amount > 0 || Paid(sale.payments) == 0)
            && ColumnsOk(after)
            && Paid(after.payments) == Paid(sale.payments) + p.amount
            && after.status == (if p.amount == p.dueBefore then COMPLETED
                                else if p.amount > 0 then PARTIALLY_PAID
                                else PENDING_PAYMENT)
  {
    hide ResolveStatus;
    TolerancesAreExact(p.dueBefore, p.amount);
    PaidAppend(sale.payments, p);
  }

  /**
   * Taking a payment against the remaining balance keeps the money facts exactly when the
   * tender survives rounding or the sale had nothing paid: a tender of half a cent or less
   * on a partly paid sale is accepted, rounds to zero and sends the sale back to
   * PENDING_PAYMENT with money already paid.
   */
  lemma PaymentKeepsMoneyIff(sale: Sale, given: real)
    requires MoneyOk(sale) && IsOpen(sale.status) && Remaining(sale) > 0 && given > 0.0
    ensures var after := WithPayment(sale, ComputePaymentAmounts(Amount(Remaining(sale)), given));
            && (MoneyOk(after) <==> given > 0.005 || Paid(sale.payments) == 0)
            && ColumnsOk(after)
            && Remaining(after) <= Remaining(sale)
            && (Remaining(after) < Remaining(sale) <==> given > 0.005)
  {
    hide ComputePaymentAmounts, Amount, MoneyOk, ColumnsOk;
    ComputedPayment(Remaining(sale), given);
    PaymentInCents(sale, ComputePaymentAmounts(Amount(Remaining(sale)), given));
  }

  /** The failing family is not empty: 100 cents paid of 200, then 0.004 tendered. */
  lemma TinyTenderReopensSale(sale: Sale)
    requires sale == Sale(0, Some(0), PARTIALLY_PAID, 200, [], [Payment(100, 100, 200, 0)], 100, 100, Some(100))
    ensures MoneyOk(sale) && Remaining(sale) == 100
    ensures var after := WithPayment(sale, ComputePaymentAmounts(Amount(100), 0.004));
            after.status == PENDING_PAYMENT && Paid(after.payments) == 100
  {
    HalfPaidIsOk(sale);
    TinyPayment(sale, 0.004);
  }

  lemma HalfPaidIsOk(sale: Sale)
    requires sale.status == PARTIALLY_PAID && sale.total == 200 && sale.payments == [Payment(100, 100, 200, 0)]
    ensures MoneyOk(sale) && Remaining(sale) == 100 && Paid(sale.payments) == 100
  {
    assert sale.payments[..0] == [];
  }

  lemma TinyPayment(sale: Sale, given: real)
    requires MoneyOk(sale) && IsOpen(sale.status) && Remaining(sale) > 0 && 0.0 < given <= 0.005
    ensures var after := WithPayment(sale, ComputePaymentAmounts(Amount(Remaining(sale)), given));
            after.status == PENDING_PAYMENT && Paid(after.payments) == Paid(sale.payments)
  {
    hide ComputePaymentAmounts, Amount, WithPayment, MoneyOk;
    ComputedPayment(Remaining(sale), given);
    PaymentInCents(sale, ComputePaymentAmounts(Amount(Remaining(sale)), given));
  }

  // ---------- money over a whole run ----------

  function Tendered(payments: seq<Payment>): int {
    if |payments| == 0 then 0
    else Tendered(payments[..|payments| - 1]) + payments[|payments| - 1].given
  }

  function Returned(payments: seq<Payment>): int {
    if |payments| == 0 then 0
    else Returned(payments[..|payments| - 1]) + payments[|payments| - 1].change
  }

  /** Over all payments of a sale, money tendered is money settled plus change returned. */
  lemma {:induction false} TenderIsConserved(payments: seq<Payment>)
    requires forall i :: 0 <= i < |payments| ==> PaymentOk(payments[i])
    ensures Tendered(payments) == Paid(payments) + Returned(payments)
  {
    if |payments| != 0 {
      TenderIsConserved(payments[..|payments| - 1]);
    }
  }
}
