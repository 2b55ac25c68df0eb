# Point of sale: stock, sales, payments, outbox, subscriptions

A Dafny model of the state-changing core of the point-of-sale backend and proofs about it. The
first part is one state machine: catalogue and stock history, service recipes, staged and
finalised sales, payments, customers and the analytics outbox. Beside it stand a machine of
concurrent finalises with row locks, a machine of subscriptions against a clock, and the hourly
report's fill loop.

## How it is built

| file | what it models |
|---|---|
| `Common.dfy`, `Money.dfy`, `Tables.dfy` | options and errors, cents and rounding, the table rows and the `Database` session |
| `Payments.dfy` | payment arithmetic, status resolution, the denormalised money columns, the read schema |
| `Stock.dfy` | movements and their history; draws of a sale; restock, count, adjust |
| `Materials.dfy` | service recipes, what a sale line draws, recipe replacement |
| `Outbox.dfy` | enqueue, attempt, drain, background task, rebuild of the rollups |
| `Customers.dfy` | create, update, soft delete, open-credit aggregates |
| `Store.dfy` | initialise, finalise, collect, cancel, void |
| `Machine.dfy` | all of these as steps of one machine, and the invariant of every run |
| `Staging.dfy`, `Answers.dfy`, `Inventory.dfy` | what each checkout and stock operation charges, records, changes and refuses, from the stored rows alone |
| `AnyRun.dfy` | what every run keeps however the operations are used: stock history, recipes, customers |
| `Voids.dfy` | void as the inverse of finalise; a void, a finalise or a cancel where it was not meant to happen |
| `Theorems.dfy`, `Rollups.dfy`, `Reporting.dfy` | further results over whole runs: staging, payments, who is counted in the rollups, reports |
| `Interleaving.dfy`, `Schedules.dfy` | concurrent finalises with sessions and row locks: what every schedule keeps, and when it is serial |
| `Deadlock.dfy`, `LostUpdates.dfy` | exactly when two finalises deadlock, and exactly when one undoes what the other took |
| `Subscription.dfy` | trial, grace, activation, cancellation, expiry |
| `Hourly.dfy` | the hourly series |

Each operation is a method that updates the `Database` step by step, as the source does, and is
proved equal to a function from the old state to the new one. The theorems are about those
functions and about runs of them. For each operation the `...Answers` lemmas say, in terms of the
stored rows and the request alone, when it succeeds, what each refusal is, what it leaves behind and
what it does not touch. In that function the stock of a sale is one list of draws
(`Draws`, `Deduct`, `Restore`), while the method works line by line and material by material.

Conventions the model fixes:

* Money is whole cents. Prices, tenders, fees and discounts arrive as exact rationals and are
  rounded to the nearest cent, ties to even, exactly where the source calls `round(x, 2)`.
  Quantities and stock are exact rationals.
* Tables are sequences in insertion order (a cancelled sale leaves an empty slot), so a row's id
  is its position. "First row" of a query without an ORDER BY is the first in insertion order.
* Staged and credit sales are both PENDING_PAYMENT; `document` holds the paid amount on the sale's
  financial document once it is minted. Minting it, or bringing it up to date, belongs to the
  finalise (or collect) step.
* An exception before the commit discards the step; the model's methods roll back explicitly
  where rows were already written.
* The rollup writer is an oracle: each drain and each background task names the sales for which
  it fails. When it does not fail it counts the sale only if it is COMPLETED at that moment, and
  the row becomes DONE either way, as in `backend/app/services/analytics_rollup.py:101-111`.
* A rebuild of the rollups (`Backfill`) clears the contributions of a business and applies each of
  its COMPLETED sales again. It can happen anywhere in a run.
* `WellUsed` is all that is asked of callers over a run: collect and void are used on finalised
  sales, as their docstrings say (`backend/app/crud/store.py:546`,
  `backend/app/crud/store.py:728-733`), and a tender of at most half a cent is not put on top of
  a part payment. Everything else, including every failing call, is part of every run. What
  happens outside these bounds is stated separately, below.
* A session keeps a row as it loaded it. The first select of a row in a transaction gives the
  committed value; later selects, `SELECT ... FOR UPDATE` included, give back the object already in
  the session without refreshing it (the code never asks for `populate_existing`). A product row
  first met as a sale line is loaded under its lock; a recipe material is first loaded without one,
  by `list_materials` (`backend/app/crud/product_materials.py:264`), and locked afterwards
  (`backend/app/crud/product_materials.py:269-273`).
* `WellUsed` matters only to what is said of money, documents and rollups. The stock history, the
  recipes, the customers and the void of a finalised sale are proved for every run (`AnyRun`,
  `Voids`).

## What the code does not keep

Each of these is a promise of the documentation, or a natural expectation, that the code does not
meet. The model keeps the code, and the named lemmas say exactly when it does meet it.
Two of them need a scheduler outside this repository: nothing in it calls `drain_pending_outbox`
(the background task after a sale skips open sales, `backend/app/tasks/worker.py:345`), and
nothing calls `mark_expired_subscriptions`.

* A tender of at most half a cent passes the `<= 0` test and rounds to zero; on a partly paid sale
  it moves the status back to PENDING_PAYMENT: `Payments.PaymentKeepsMoneyIff`,
  `Payments.TinyTenderReopensSale`.
* Void only looks at the status, so it accepts a staged sale and returns stock that never left:
  `Voids.VoidingStagedSaleInventsStock`. That sale, refunded, can still be finalised, and its next
  void returns nothing: `Voids.VoidedStagedSaleFinalizesIff`. Collect accepts a staged sale too,
  and then the goods never leave the stock and the sale can never be finalised:
  `Theorems.CollectedStockTakenIff`, `Theorems.CollectingStagedSaleSkipsStock`.
* The document that stops a second finalise is minted after the commit
  (`backend/app/crud/store.py:497-500`). Until then a credit or partly paid sale can be finalised
  again and a credit sale cancelled with its goods gone: `Voids.UnmintedFinalizesTwiceIff`,
  `Voids.UnmintedCancelsIff`.
* The staging check looks at one cart item at a time, so a cart that repeats a product can be
  staged and then be refused at finalise for the same stock: `Theorems.StagedThenFinalizeIff`,
  `Theorems.RepeatedItemStagesButFails`.
* A part payment enqueues the sale's only outbox row; drained before the last payment, the row is
  spent and the COMPLETED sale is not counted until the business is rebuilt:
  `Rollups.CollectedSaleCountedIff`, `Rollups.DrainedWhileOpenIsLost`, and, from an empty till,
  `Rollups.FiveStepsLoseASale`.
* A rebuild counts a COMPLETED sale whose row is still waiting, and the row counts it again when it
  is attempted: `Rollups.RebuildCountsTwiceIff`, `Rollups.RebuildThenDrainCountsTwice`.
* A void that overtakes the outbox leaves the rollups one sale short, and a reversal that fails
  (`backend/app/crud/store.py:802-807` only logs it) leaves the voided sale counted, until the
  business is rebuilt: `Rollups.VoidedCountEvensOutIff`.
* A recipe material is loaded before it is locked and not loaded again, so a finalise can deduct
  from a value another one has overtaken: both sales commit, and what the first took from the
  material is back in stock. For two finalises `LostUpdates.LostUpdateIff` says exactly when; a
  direct sale of the material against a service that uses it, or two services that share it, lose
  an update under some schedule as soon as each alone is in stock
  (`LostUpdates.DirectAgainstRecipeIff`, `LostUpdates.SharedMaterialIff`). Sales none of which
  draws on another's recipe material are safe in any number:
  `Interleaving.InterleavedSalesConserveStock`.
* Product rows are locked in line order, so two finalises can deadlock, exactly as
  `Deadlock.DeadlockIff` says; two sales of the same products in opposite order do:
  `Deadlock.OppositeLinesDeadlockIff`. With an ascending order they never would.
* A staged sale is stored with nothing due but shown with its total due:
  `Reporting.ReadSchemaAgreesIff`.
* An hourly window that does not start on the hour shows only zero points while shorter than the
  cap: `Hourly.UnalignedStartDropsRows`.
* Paid activation "or extend" starts from now and can shorten access already paid for:
  `Subscription.ActivationNeverShortensIff`, `Subscription.PayingAgainShortensAccess`. Expiry
  marking ignores the grace window: `Subscription.ExpiryKeepsAccessIff`,
  `Subscription.ExpiryEndsGrace`.
* Credit outstanding counts carts that were staged and never finalised: `Reporting.CreditPartition`.

## Model

| member | source | states |
|---|---|---|
| `Interleaving.InterleavedSalesConserveStock` | backend/app/crud/store.py:445-484 | In every schedule of concurrent finalises, sessions keeping rows as first loaded and locks held to commit or rollback: if no sale draws on a product another first meets as a recipe material, committed stock of each product is the initial stock less what the committed sales draw (directly and through recipes), each counted once, and is never negative |
| `Interleaving.PlainSalesShareNothing` | backend/app/crud/store.py:462-477 | Sales of plain products meet that condition, in any number |
| `Interleaving.InterleavingIsSerial` | backend/app/crud/store.py:445-484 | Under the same condition every interleaving ends with the stock that running the committed transactions one after another, in commit order, gives; the serial execution never fails |
| `Interleaving.ScriptDemand` | backend/app/crud/product_materials.py:264-290 | The rows a finalise loads and locks (the service row, untracked rows and unlocked loads too) ask of each product exactly what the sale lines draw |
| `Interleaving.ScriptLocksIff` | backend/app/crud/store.py:445-450 | A finalise locks exactly the rows of its lines' products, services and untracked ones included, and of the materials of its services |
| `Interleaving.AccessAnswers` | backend/app/crud/product_materials.py:264-290 | A load never waits; a lock waits while another has it; either gives the value the session already has, else the committed one; a shortage aborts |
| `Interleaving.KillAnswers` | backend/app/crud/store.py:525-533 | A killed transaction commits nothing and frees its locks |
| `Interleaving.ScheduleKeeps` | backend/app/crud/product_materials.py:264-290 | Under every schedule of any scripts and any kills: a running session holds each row it met, has locked each row it took, is never negative, and a row first met under its lock, or taken by no other, was loaded at the value still committed; committed stock is never negative |
| `Interleaving.ScheduleKeepsOrder` | backend/app/crud/store.py:486-497 | The commit order lists exactly the committed transactions, none twice |
| `Interleaving.ShortageIsReal` | backend/app/crud/stock.py:386-393 | A transaction that aborts for shortage asks for more than its session has loaded; where the session can be trusted for the row, it does not fit the stock committed at that moment and would have failed alone |
| `Deadlock.AscendingNeverDeadlocks` | backend/app/crud/store.py:445-446 | Were rows locked in ascending order, some running transaction could always move |
| `Deadlock.AscendingAlwaysFinishes` | backend/app/crud/store.py:445-446 | With ascending locks every state can be driven to the end of all transactions without killing one |
| `Deadlock.DeadlockIff` | backend/app/crud/store.py:445-446 | Some schedule makes two finalises wait for each other exactly when their scripts cross at some positions: what each has locked is disjoint from the other's and in stock, and each wants next a row the other has locked |
| `Deadlock.DeadlockCrosses` | backend/app/crud/store.py:445-446 | Whenever a schedule ends with both waiting, the scripts cross at the positions the transactions have reached |
| `Deadlock.CrossingDeadlocks` | backend/app/crud/store.py:445-446 | Where scripts cross, advancing one finalise to its position and then the other leaves both waiting |
| `Deadlock.OppositeLinesDeadlockIff` | backend/app/crud/store.py:445-477 | Two sales of the same two tracked products in opposite line order can deadlock exactly when the first line of each is in stock |
| `LostUpdates.LostUpdateIff` | backend/app/crud/product_materials.py:264-290 | Some schedule breaks conservation for two finalises exactly when one of them can be stale: at some position it has met a row both take from and locked no row of the other, the other is in stock, and it is too with the rows met so far at their old level |
| `LostUpdates.BrokenIsStale` | backend/app/crud/product_materials.py:264-290 | Every schedule of two finalises after which conservation fails comes from such a position |
| `LostUpdates.StaleBreaks` | backend/app/crud/product_materials.py:264-290 | At such a position: drive the stale finalise there, commit the other, then the stale one; both commit and what the first took from the row is lost |
| `LostUpdates.DirectAgainstRecipeIff` | backend/app/crud/product_materials.py:264-290 | A sale of a product and a sale of a service that uses it lose an update under some schedule exactly when each alone is in stock |
| `LostUpdates.SharedMaterialIff` | backend/app/crud/store.py:445-461 | Two sales of services with the same material lose an update under some schedule exactly when the services differ and each sale alone is in stock; one service is safe because its own row is locked first |
| `Machine.RunKeepsInvariant` | backend/app/crud/store.py:279-818 | Every run of initialise, finalise, collect, cancel, void, stock, recipe, catalogue, customer and outbox steps keeps the whole invariant: linked history and stock, recipe uniqueness, money and columns of each sale, phones and deletions of customers, one outbox row per sale |
| `Machine.StepKeepsInvariant` | backend/app/crud/store.py:279-818 | Each single well-used step keeps the invariant, whether it succeeds or fails |
| `Machine.InitializeKeeps` | backend/app/crud/store.py:81-277 | Staging keeps the invariant: the staged sale has a natural total, positive unrefunded lines, no history entries, no outbox row |
| `Machine.FinalizeKeeps` | backend/app/crud/store.py:279-533 | Finalising keeps the invariant, whatever the tender, the buyer and the recipes |
| `Machine.CollectKeeps` | backend/app/crud/store.py:537-653 | Collecting on a finalised sale keeps the invariant, including the branch that only marks a sale with nothing due COMPLETED |
| `Machine.CancelKeeps` | backend/app/crud/store.py:656-717 | Discarding a staged sale keeps the invariant |
| `Machine.VoidKeeps` | backend/app/crud/store.py:719-818 | Voiding a finalised sale keeps the invariant and keeps its columns in step with its payments |
| `Machine.BackfillKeeps` | backend/app/services/analytics_rollup.py:339-388 | Rebuilding the rollups of a business keeps the invariant |
| `Machine.SettledIsOk` | backend/app/crud/store.py:351-405 | After the payment part of finalise the status says what was paid, the columns match the payment rows, and payments do not exceed the total |
| `Machine.CollectedIsOk` | backend/app/crud/store.py:579-639 | A collected payment keeps these facts and the document's paid amount, and a tender above half a cent strictly lowers the balance |
| `AnyRun.RunConservesStock` | backend/app/crud/stock.py:143-221 | After every run of any operations from an empty till: linked history, stock = initial + all recorded quantities, stock not negative |
| `AnyRun.RunKeepsLedger` | backend/app/crud/stock.py:143-221 | Every run keeps: history and stock agree, recipes unique, line quantities positive, and no history entries for a sale without a document that is not refunded |
| `AnyRun.StepKeepsLedger` | backend/app/crud/store.py:279-818 | Each operation keeps these facts, whether it succeeds or fails and however it is used |
| `AnyRun.RunMeetsPreconditions` | backend/app/crud/store.py:445-477 | After every run stock is not negative and recipe and line quantities are positive: what the methods for finalise and void ask for |
| `Theorems.RunKeepsMoney` | backend/app/crud/store.py:561-637 | After any run: payments of a sale never exceed its total, the status tells how much is paid, tendered = settled + change, columns and document match the payment rows, and a COMPLETED sale with a positive total has its one outbox row |
| `AnyRun.RunKeepsCustomersApart` | backend/app/crud/customer.py:209-309 | After every run: live customers of one business never share a phone and a soft-deleted customer has no open sale |
| `AnyRun.RunKeepsCustomers` | backend/app/crud/customer.py:209-309 | Every run of any operations keeps the customer facts |
| `Voids.VoidUndoesFinalize` | backend/app/crud/store.py:747-799 | With recipes, item types and tracking as at finalise, a void after any operations raises every product by exactly what the sale took, the sale's history entries sum to zero per product, and a second void changes nothing |
| `Voids.VoidAfterRun` | backend/app/crud/store.py:747-799 | In general the void returns what the lines draw at the moment of the void, so the sale's history nets to drawn now minus drawn then, after any operations in between |
| `Voids.VoidReturnsDemand` | backend/app/crud/store.py:759-800 | A void of a sale with unrefunded lines succeeds, returns the demand of its lines, marks it REFUNDED and is idempotent |
| `AnyRun.RunLeavesSale` | backend/app/crud/store.py:729-732 | No run without a void of a finalised sale changes its lines, its document or its history entries, or makes it unvoidable, whatever else the run does |
| `AnyRun.FinalizeSucceedsIff` | backend/app/crud/store.py:311-484 | Finalise succeeds exactly when the sale is neither COMPLETED nor documented, buyer and tender are acceptable and the aggregated demand fits the stock; it takes exactly that demand; a failure changes nothing, and one for stock alone is a conflict |
| `AnyRun.LineOrderDoesNotMatter` | backend/app/crud/store.py:445-477 | Finalising the same lines in another order gets the same answer and leaves the same stock of every product |
| `Theorems.FinalizeOutcome` | backend/app/crud/store.py:348-439 | What finalise leaves: paid = the smaller of tender and total (nothing on credit), COMPLETED exactly when a paid sale is covered, and a live customer of the business with the buyer's phone, added only when there was none |
| `Answers.FinalizeAnswers` | backend/app/crud/store.py:311-484 | Finalise succeeds exactly when the sale is there, not COMPLETED, without document, name and phone given, the tender credit or with an M-Pesa code where needed and a positive or missing amount on a positive total, and the demand fits; each missing condition has its own answer and changes nothing |
| `Answers.FinalizePays` | backend/app/crud/store.py:355-399 | Without an amount a paying finalise records the whole total as given and applied and completes the sale; with one, its cents given, applied up to the total, the rest as change, and the status they make |
| `Answers.CreditOwesAll` | backend/app/crud/store.py:351-405 | A credit finalise leaves the sale pending, unpaid, with its whole total due |
| `Answers.FinalizeTouches` | backend/app/crud/store.py:407-497 | A finalise changes stock, this sale, at most one new customer and, exactly for a COMPLETED sale, its waiting outbox row; lines, total, other sales, catalogue and recipes stay |
| `Voids.FinalizeTakes` | backend/app/crud/store.py:445-477 | A successful finalise takes its demand, all of it recorded under the sale's reference |
| `Theorems.CollectOutcome` | backend/app/crud/store.py:579-637 | A successful collection applies the tender up to the balance, returns the rest, leaves the status that says how much is paid, leaves stock and customers alone, and has the sale in the outbox |
| `Answers.CollectAnswers` | backend/app/crud/store.py:554-599 | Collect succeeds exactly when the sale is there and PENDING_PAYMENT or PARTIALLY_PAID, the means is not credit, M-Pesa has a code, something is due, and an amount, if given, is positive; each missing condition has its own answer, and only nothing-due changes the state |
| `Answers.CollectPays` | backend/app/crud/store.py:581-627 | Without an amount a collection records the whole balance and completes the sale; with one, its cents given, applied up to the balance, the rest as change, and the status they make |
| `Answers.CollectTouches` | backend/app/crud/store.py:615-637 | A collection changes this sale's money and the outbox only; the sale gets a waiting row unless it has one |
| `Theorems.TenderIsAccountedFor` | backend/app/crud/store.py:603-614 | On every reachable sale, money tendered = money settled + change returned |
| `Theorems.StagingChecksItems` | backend/app/crud/store.py:149-165 | A staged cart passed the stock check item by item |
| `Theorems.FinalisableCartStages` | backend/app/crud/store.py:158-165 | A cart whose aggregated demand fits the stock passes the staging check of each item |
| `Theorems.DistinctDrawsFit` | backend/app/crud/store.py:158-165 | The item-by-item check implies the aggregated one when no product is drawn on twice |
| `Staging.StagingIff` | backend/app/crud/store.py:119-165 | A cart is accepted exactly when each of its items is accepted on its own |
| `Staging.ItemAnswers` | backend/app/crud/store.py:119-165 | An item is accepted exactly when its product is there, live, active and of the business, the quantity positive, and its stock there, of a service every tracked material of its live recipe; each missing condition has its own answer |
| `Staging.FirstRefusalAnswers` | backend/app/crud/store.py:119-165 | A refused cart gets the answer of its first refused item and changes nothing |
| `Staging.StagedSaleIs` | backend/app/crud/store.py:171-266 | The staged total is the sum of price times quantity, less the discount but not below zero, plus the positive described fees rounded once, all rounded to cents; the sale lists the cart, is pending, unpaid, without customer or document, and nothing else changes |
| `Staging.OneItemTotal` | backend/app/crud/store.py:171-241 | One item without fees is charged price times quantity less the discount, or nothing if that is larger |
| `Staging.CartOrderDoesNotMatter` | backend/app/crud/store.py:171-216 | The same cart in another order is accepted just as well and charged the same |
| `Staging.OneMoreFee` | backend/app/crud/store.py:228-239 | A further fee is charged, and stored as its own rounded line, exactly when it is positive and described |
| `Staging.LegacyFeeIff` | backend/app/crud/store.py:222-225 | The older single fee counts exactly when the list is empty |
| `Theorems.StagedThenFinalizeIff` | backend/app/crud/store.py:149-484 | Right after staging, finalise succeeds exactly when buyer and tender are acceptable and the aggregated demand of the cart fits; if only the stock is missing it is a conflict |
| `Theorems.RepeatedItemStagesButFails` | backend/app/crud/store.py:158-165 | A cart listing one tracked product twice is staged exactly when each quantity is in stock, and right after that can be finalised exactly when their sum is |
| `Voids.VoidingStagedSaleInventsStock` | backend/app/crud/store.py:749-798 | A staged sale passes the void's status check; the void then adds stock never taken, and its history balances exactly when its lines draw nothing |
| `Voids.VoidedStagedSaleFinalizesIff` | backend/app/crud/store.py:317-332 | A voided staged sale can be finalised exactly when buyer and tender are acceptable and its demand fits; the next void marks it refunded and returns nothing |
| `Voids.UnmintedFinalizesTwiceIff` | backend/app/crud/store.py:324-332 | Between the commit of a finalise and the mint a second one succeeds exactly when the sale is not COMPLETED, buyer and tender are acceptable and the demand fits once more; the demand is taken twice |
| `Voids.UnmintedCancelsIff` | backend/app/crud/store.py:680-709 | In the same gap the sale can be cancelled exactly when it was sold on credit and has no payment; its goods stay out of the stock |
| `Answers.CancelAnswers` | backend/app/crud/store.py:670-709 | Cancel removes the sale and nothing else exactly when it is the business's, pending, undocumented and unpaid; otherwise not-found or conflict without change |
| `Answers.VoidAnswers` | backend/app/crud/store.py:745-800 | Void answers not-found, conflict or, for a refunded sale, nothing; any other sale becomes REFUNDED keeping its money, customer and document, and other sales, customers, catalogue, recipes and outbox rows stay |
| `Answers.VoidReversesIff` | backend/app/crud/store.py:802-807 | A void lowers the rollup count of its own sale by one exactly when that was COMPLETED and the reversal did not fail, and no other count |
| `Answers.VoidRefundsLines` | backend/app/crud/store.py:760-797 | A void marks each line of a product still in the catalogue refunded in full and leaves the others |
| `Theorems.CollectedStockTakenIff` | backend/app/crud/store.py:556-639 | After any run, a successful collection leaves a sale whose history holds what its lines drew at finalise exactly when the sale had its document before, or its lines draw nothing |
| `Theorems.DocumentMeansFinalized` | backend/app/crud/store.py:324-332 | In a well-used run a sale has its document exactly when the run finalised it, and until it is refunded its history holds exactly what its lines drew at that finalise |
| `Theorems.DocumentIsFinal` | backend/app/crud/store.py:324-332 | Once a sale has its document, no run of any operations lets it be finalised, and only its void adds to its history entries |
| `Theorems.CollectingStagedSaleSkipsStock` | backend/app/crud/store.py:556-639 | A collection on a staged sale leaves the stock alone; in every later run, whatever it does, the sale cannot be finalised and, unless voided, its history stays empty of stock |
| `Rollups.RollupFate` | backend/app/services/analytics_outbox.py:40-66 | The count of a COMPLETED sale over any run without its void: it grows by one when its row becomes DONE; from the last rebuild on it is one, plus one if the row became DONE since |
| `Rollups.CompletedSaleCount` | backend/app/crud/store.py:486-504 | From the step that completes a sale, by finalise or by collection, its count over any later run without its void follows from the row's status before the completion, at the last rebuild and at the end |
| `Rollups.CollectedSaleCountedIff` | backend/app/crud/store.py:630-641 | A sale completed by a collection is counted exactly once just when, without a rebuild, its row became DONE after the collection, or, with one, its row was DONE at the last rebuild or is not DONE yet; a row spent before the collection leaves it uncounted until a rebuild |
| `Rollups.FinalizedSaleCount` | backend/app/crud/store.py:486-504 | A sale completed at finalise has a row; without a rebuild its count is 1 once that row is DONE and 0 before; after a rebuild it is 1, and 2 if the row became DONE since |
| `Rollups.BackgroundAnswers` | backend/app/tasks/worker.py:343-377 | In every reachable state the background task makes the row of a COMPLETED sale DONE and counts it once, or FAILED without counting; with a DONE row or another status it changes nothing, and it never touches another sale |
| `Rollups.CompletionThenBackground` | backend/app/crud/store.py:502-504 | A sale just completed with an unspent row is counted by its background task, and exactly once in every later run without its void, rebuilds included |
| `Rollups.PaidSaleIsCountedOnce` | backend/app/crud/store.py:486-504 | A finalise that pays in full is counted by its background task, and only once ever after without a void |
| `Rollups.NeverCompletedIsNeverCounted` | backend/app/services/analytics_rollup.py:101-111 | Over every run of any operations, voids, drains and rebuilds included, a sale that is COMPLETED at no moment is in the rollups at no moment |
| `Rollups.DrainedWhileOpenIsLost` | backend/app/services/analytics_outbox.py:69-93 | Every sale whose row is drained while it is open and that a later collection completes is counted in a later run exactly when that run rebuilds the business |
| `Rollups.RebuildRepairsLostSale` | backend/app/services/analytics_rollup.py:347-387 | A rebuild counts such a sale exactly once, in every later run without its void |
| `Rollups.RebuildCountsTwiceIff` | backend/app/services/analytics_rollup.py:347-387 | A rebuilt COMPLETED sale is counted once or twice, and twice exactly when its row was not DONE at the last rebuild and is DONE now |
| `Rollups.RebuildThenDrainCountsTwice` | backend/app/services/analytics_rollup.py:347-387 | Any reachable COMPLETED sale whose row waits is counted twice after a rebuild and a drain that reaches it |
| `Rollups.FiveStepsLoseASale` | backend/app/crud/store.py:630-636 | Five steps from an empty till reach a COMPLETED sale with a positive total that a further run counts exactly when it rebuilds the business |
| `Rollups.VoidedCountEvensOutIff` | backend/app/crud/store.py:802-807 | Completion, any run, void, any run: the rollups end without the sale exactly when rebuilt after the void; or, never rebuilt, the reversal succeeded just when the row was DONE at the void (failed, if the row was DONE before the completion); or, rebuilt before, the reversal succeeded and the row did not become DONE in between |
| `Rollups.RefundedCount` | backend/app/services/analytics_rollup.py:101-111 | After a void the sale's count changes only by a rebuild of its business, which sets it to zero |
| `Rollups.CollectionsAreBounded` | backend/app/crud/store.py:561-628 | Over any run there are at most as many successful collections of tenders above half a cent on a sale as cents were outstanding |
| `Reporting.CreditPartition` | backend/app/crud/reporting.py:622-648 | In every reachable state credit outstanding of a business = open credit of its live customers + totals of its staged sales |
| `Reporting.CachesAgree` | backend/app/schemas/sale.py:140-184 | On every reachable finalised sale, refunded ones included, the read schema, which looks at payment rows, then the document, then the columns, shows exactly the stored columns; another sync would change nothing; the balance of an open sale is what collect asks for; per customer the balances sum to the open-credit aggregate |
| `Reporting.ReadSchemaAgreesIff` | backend/app/schemas/sale.py:140-184 | Over all reachable sales the read schema agrees with the stored columns exactly on the finalised and the free ones |
| `Reporting.StoredBalancesSum` | backend/app/crud/customer.py:47-50 | The stored balances of a customer's open sales sum to the aggregate computed from payment rows |
| `Reporting.CreditOutstanding` | backend/app/crud/reporting.py:640-648 | The report loop returns the sum of remaining balances, and the number, of the open sales of the business |
| `Reporting.OpenSalesCount` | backend/app/crud/reporting.py:645-648 | The report counts each open sale of the business once |
| `Payments.ComputePaymentAmounts` | backend/app/core/payment_methods.py:187-203 | given = applied + change, applied never exceeds the due amount, and change is returned only when it is covered |
| `Payments.TolerancesAreExact` | backend/app/core/payment_methods.py:206-220 | On whole cents the 0.001 tolerances of status and is_full are exact comparisons |
| `Payments.ToleranceIsExact` | backend/app/core/payment_methods.py:216 | A cent amount is within the tolerance exactly when it is not positive |
| `Payments.PaymentInCents` | backend/app/core/payment_methods.py:206-252 | One payment row against the balance: the money facts survive exactly when it applies something or nothing was paid before; sum, status and columns move together |
| `Payments.PaymentKeepsMoneyIff` | backend/app/crud/store.py:592-627 | A positive tender on an open sale keeps the money facts, exactly when it is above half a cent or nothing was paid; only such a tender lowers the balance |
| `Payments.TinyPayment` | backend/app/core/payment_methods.py:213-220 | Every positive tender of at most half a cent leaves the payments as they were and the status PENDING_PAYMENT |
| `Payments.TinyTenderReopensSale` | backend/app/core/payment_methods.py:213-220 | A concrete partly paid sale that 0.004 sends back to PENDING_PAYMENT with 100 cents paid |
| `Payments.ComputedPayment` | backend/app/core/payment_methods.py:193-203 | Against a due amount in cents the payment applies something exactly when something is due and the tender is above half a cent |
| `Payments.TenderIsConserved` | backend/app/core/payment_methods.py:193-203 | Over all payments of a sale, tendered = settled + returned |
| `Payments.SyncSalePaymentColumns` | backend/app/core/payment_methods.py:228-252 | The loop writes the sum of the given payment rows and the balance it leaves onto that sale alone |
| `Payments.PopulateListHelpers` | backend/app/schemas/sale.py:157-184 | The read schema shows the payment rows when there are any, then the document's paid amount when positive, then the stored column, and derives the balance from what it shows |
| `Payments.ShownOrder` | backend/app/schemas/sale.py:157-184 | Whatever the columns hold, payment rows win, then a positive paid amount of the document, then the column |
| `Money.RoundHalfEven` | backend/app/core/payment_methods.py:193 | The rounded integer is within a half, and even when exactly half-way |
| `Money.RoundingIsMonotone` | backend/app/core/payment_methods.py:193-194 | Rounding keeps the order of amounts |
| `Money.TenderSurvivesRounding` | backend/app/core/payment_methods.py:194 | A tender is positive after rounding exactly when it is above half a cent |
| `Stock.ApplyMovement` | backend/app/crud/stock.py:143-221 | A movement sets the level and appends one entry with previous, quantity and new level, or refuses a negative target and changes nothing |
| `Stock.Restock` | backend/app/crud/stock.py:223-270 | A supplier delivery moves the stock of a catalogue product of the business up by the quantity, or is refused |
| `Stock.CountStock` | backend/app/crud/stock.py:272-316 | A physical count sets the stock to the counted quantity; the recorded quantity is the difference |
| `Stock.AdjustStock` | backend/app/crud/stock.py:318-363 | A manual adjustment moves the stock by its signed quantity, or is refused without a change |
| `Stock.SignedDelta` | backend/app/crud/stock.py:36-48 | Accepted exactly for a known direction and a positive quantity; then of that size and signed by the direction |
| `Stock.ApplySaleItemDeduction` | backend/app/crud/stock.py:365-416 | One draw: untracked products are left alone, a short one is refused, any other loses the quantity under the sale's reference |
| `Stock.ApplySaleItemRestore` | backend/app/crud/stock.py:418-451 | One return under the sale's reference; nothing for an untracked product or an empty quantity |
| `Stock.MoveFacts` | backend/app/crud/stock.py:169-206 | A movement changes one level, keeps the linked chain and non-negativity, and adds its quantity to the sums of its sale alone |
| `Stock.StockIsConserved` | backend/app/crud/stock.py:169-206 | Stock = initial stock + the sum of the history's quantities |
| `Stock.ReplayIsConserved` | backend/app/crud/stock.py:190-199 | The level claimed by the last entry of a linked history is the initial level plus all quantities |
| `Stock.EntriesLink` | backend/app/crud/stock.py:190-199 | Of two successive entries of a product, the later starts where the earlier ended and adds its quantity |
| `Stock.DeductIff` | backend/app/crud/stock.py:386-409 | The draw-by-draw loop succeeds exactly when each product's total demand fits its stock; then every product loses exactly its demand, recorded under this sale and no other |
| `Stock.FittingDrawsSucceed` | backend/app/crud/stock.py:386-409 | Draws whose aggregate fits never run short on the way |
| `Stock.DeductTakesDemand` | backend/app/crud/stock.py:395-409 | A successful deduction lowers every product by the aggregated demand, keeps the chain, and touches no other sale's entries |
| `Stock.RestoreFacts` | backend/app/crud/stock.py:433-450 | Restoring raises every product by the aggregated demand, recorded under the sale |
| `Stock.DeductEntries` | backend/app/crud/stock.py:395-409 | A deduction appends one entry per draw, in order, with the sale as reference, minus the quantity |
| `Stock.RestoreEntries` | backend/app/crud/stock.py:436-450 | A restore appends one entry per draw, in order, as a refund of the sale, plus the quantity |
| `Inventory.RestockAnswers` | backend/app/crud/stock.py:223-248 | A delivery adds its quantity with one purchase entry exactly when it is positive and the product is the business's; nothing else changes |
| `Inventory.CountAnswers` | backend/app/crud/stock.py:272-297 | A count sets the stock with one audit entry for the difference, exactly when not negative and of the business |
| `Inventory.AdjustAnswers` | backend/app/crud/stock.py:318-342 | An adjustment moves the stock up or down with one entry; it is refused for an unknown direction, a quantity that is not positive, another business, and exactly when the stock would go below zero |
| `Materials.LineOrderIsIrrelevant` | backend/app/crud/store.py:445-477 | Sale lines in any order ask each product for the same total |
| `Materials.ProductDemand` | backend/app/crud/store.py:462-477 | A product line draws its quantity from the product itself, if tracked, and nothing else |
| `Materials.ServiceDemand` | backend/app/crud/product_materials.py:264-280 | A service line draws the recipe quantity times its own from the material, if tracked, and nothing else |
| `Materials.LaborDemand` | backend/app/crud/product_materials.py:264-265 | A service without a live recipe draws nothing |
| `Materials.RestDemand` | backend/app/crud/store.py:761-764 | A partly refunded product line still has out the rest of its quantity |
| `Materials.ListedIff` | backend/app/crud/product_materials.py:51-61 | The recipe list has the live rows of the service and no others |
| `Materials.CheckMaterialStock` | backend/app/crud/product_materials.py:226-249 | Refuses exactly when some tracked material, taken alone, is short for the quantity |
| `Materials.DeductMaterialsForSale` | backend/app/crud/product_materials.py:252-290 | Deducts the service's draws in recipe order, or reports the first shortage |
| `Materials.RestoreMaterialsForSale` | backend/app/crud/product_materials.py:294-328 | Gives back the service's draws and keeps stock non-negative |
| `Materials.RestoreMaterial` | backend/app/crud/product_materials.py:308-328 | Gives back one material of the voided units |
| `Materials.ReplaceMaterials` | backend/app/crud/product_materials.py:94-210 | Replaces the recipe as the specification says; on any error the table is as before |
| `Materials.ReplacementKeepsRecipes` | backend/app/crud/product_materials.py:144-210 | A successful replacement keeps one row per (service, material) pair, at most one live row per service and positive quantities |
| `Materials.ReplacementListsPayload` | backend/app/crud/product_materials.py:142-210 | Afterwards the listed recipe is exactly the payload, other services' recipes are unchanged, and a row is added only when the pair was never bound: otherwise the old row is revived |
| `Materials.ReplacementAcceptedIff` | backend/app/crud/product_materials.py:106-191 | A payload naming no material is accepted for a service and empties its recipe; one naming a single material exactly when its quantity is positive and it is another live product of the business in a fitting category; several are refused |
| `Materials.BindableIff` | backend/app/crud/product_materials.py:159-191 | Which materials a service may use, and the answer for each that it may not |
| `Materials.ReplacementLeavesOthers` | backend/app/crud/product_materials.py:146-157 | Recipes of other services are unchanged |
| `Materials.FirstRow` | backend/app/crud/product_materials.py:193 | The first row of the pair, if there is one |
| `Outbox.EnqueueAnalyticsOutbox` | backend/app/services/analytics_outbox.py:17-37 | Inserts a pending row unless the sale already has one |
| `Outbox.ProcessOutboxEntry` | backend/app/services/analytics_outbox.py:40-66 | One attempt: attempts go up by one, the row becomes DONE or FAILED, and the sale is counted only on success while COMPLETED |
| `Outbox.DrainPendingOutbox` | backend/app/services/analytics_outbox.py:69-93 | Attempts the oldest eligible rows up to the limit; the successes are the rows that became DONE, the rest of those scanned are failures |
| `Outbox.UpdateSalesAnalytics` | backend/app/tasks/worker.py:332-377 | The background task makes sure of the row of a COMPLETED sale and attempts it unless it is DONE |
| `Outbox.Selected` | backend/app/services/analytics_outbox.py:76-85 | The rows picked are eligible, in table order and at most the limit; an eligible row is passed over only when older ones use up the limit |
| `Outbox.DrainsScanAtMostFivePerRow` | backend/app/services/analytics_outbox.py:76-93 | Without new enqueues, any sequence of drains scans at most five times the number of rows; after that many non-empty drains every row is DONE or has five attempts |
| `Outbox.DrainsTerminate` | backend/app/services/analytics_outbox.py:76-93 | Scans plus attempts left never exceed the attempts left at the start |
| `Outbox.AttemptsSpendBudget` | backend/app/services/analytics_outbox.py:46-65 | Each scanned row uses up at least one attempt of the budget |
| `Outbox.AttemptProgress` | backend/app/services/analytics_outbox.py:46-65 | An attempt on an unfinished row counts its sale at most once, exactly when the row becomes DONE while the sale is COMPLETED, and touches no other sale |
| `Outbox.DrainProgress` | backend/app/services/analytics_outbox.py:85-91 | A drain keeps one row per sale, never un-finishes a row and counts no sale twice |
| `Outbox.EnqueueFacts` | backend/app/services/analytics_outbox.py:25-37 | Enqueueing twice leaves one row; other sales are untouched |
| `Outbox.AttemptAnswers` | backend/app/services/analytics_outbox.py:46-65 | One attempt uses exactly one of the five, makes the row DONE or FAILED, and counts its sale only if the call worked and the sale is COMPLETED; no other row or count changes |
| `Outbox.EnqueueAnswers` | backend/app/services/analytics_outbox.py:25-37 | Enqueueing adds one waiting row without attempts for a sale that has none |
| `Outbox.RefreshAnswers` | backend/app/tasks/worker.py:343-377 | The background task in terms of row status, attempts and count, for any outbox with one row per sale |
| `Outbox.BackfillBusinessRollups` | backend/app/services/analytics_rollup.py:339-388 | Clears the rollups of the business and applies its COMPLETED sales again; the answer is how many there are |
| `Outbox.BackfillCounts` | backend/app/services/analytics_rollup.py:360-382 | A rebuild counts each COMPLETED sale of the business once and its other sales not at all; other businesses and the outbox rows are untouched |
| `Customers.Aggregates` | backend/app/crud/customer.py:32-50 | The loop returns the number of the customer's open sales and the sum of their remaining balances |
| `Customers.CountIsZeroIff` | backend/app/crud/customer.py:46 | The open count is zero exactly when no sale of the customer is open |
| `Customers.SumOfPayments` | backend/app/crud/customer.py:49 | The sum of the payment rows |
| `Customers.Create` | backend/app/crud/customer.py:209-249 | Adds the customer, or refuses a phone that a live customer of the business has |
| `Customers.Update` | backend/app/crud/customer.py:251-288 | Changes the phone, or refuses one that another live customer of the business has |
| `Customers.SoftDelete` | backend/app/crud/customer.py:290-309 | Deletes, or refuses while the customer has open sales |
| `Customers.CreateAnswers` | backend/app/crud/customer.py:216-239 | Create refuses exactly a phone that a live customer of the business has, and else adds the customer with the phone |
| `Customers.UpdateAnswers` | backend/app/crud/customer.py:259-280 | Update answers not-found for a missing, deleted or foreign customer, refuses a phone another live customer has, and else stores it |
| `Customers.SoftDeleteAnswers` | backend/app/crud/customer.py:293-303 | Soft delete answers not-found likewise, refuses a customer with an open sale, and else marks it deleted |
| `Customers.OpenCountIs` | backend/app/crud/customer.py:46 | The open count is the number of the customer's open sales |
| `Customers.OneMoreOpenSale` | backend/app/crud/customer.py:47-50 | A sale adds total less payments to the open credit exactly when it is the customer's and open |
| `Customers.FirstLive` | backend/app/crud/store.py:410-418 | The first live customer of the business with the phone, if there is one |
| `Customers.CreateKeepsCustomers` | backend/app/crud/customer.py:216-230 | Creation keeps phones apart and deleted customers free of open sales |
| `Customers.UpdateKeepsCustomers` | backend/app/crud/customer.py:261-279 | So does an update of the phone |
| `Customers.SoftDeleteKeepsCustomers` | backend/app/crud/customer.py:293-302 | So does a deletion: the guard leaves no open sale behind |
| `Store.InitializeCheckout` | backend/app/crud/store.py:81-277 | Stages a sale with the rounded total and the cart's lines, from the fee list or the older single fee when that list is empty, or answers the first refusal in cart order and changes nothing |
| `Store.ScanCart` | backend/app/crud/store.py:119-213 | The item loop finds the first refusal of the cart, or all its lines and the exact gross |
| `Store.ScanFees` | backend/app/crud/store.py:228-239 | The fee loop rounds the sum of the usable fees once |
| `Store.CheckItem` | backend/app/crud/store.py:119-165 | One item is refused for the first reason that applies; for stock, exactly when a draw of the item alone is short |
| `Store.TotalIsNatural` | backend/app/crud/store.py:216-241 | The total is a non-negative cent amount for every discount and every non-negative tax rate |
| `Store.TotalNearExact` | backend/app/crud/store.py:216-241 | The total is within one and a half cents of discounted subtotal + tax + fees added exactly, for every discount and tax rate |
| `Store.ServiceTotalNearStoredLines` | backend/app/crud/store.py:228-239 | The charged service total differs from the sum of the n stored lines by at most half a cent times (n + 1) |
| `Store.FeeRoundingDrift` | backend/app/crud/store.py:233-238 | The exact fee sum differs from the n stored lines by at most half a cent times n |
| `Store.WholeCentFeesAddUp` | backend/app/crud/store.py:228-239 | For fees in whole cents the stored lines add up to the charged total exactly |
| `Store.DeductLines` | backend/app/crud/store.py:445-477 | The line loop deducts the draws of all lines, services through their recipes, or reports the first shortage |
| `Store.SettlePayment` | backend/app/crud/store.py:348-405 | Payment row, status and columns of this sale, refusing an M-Pesa tender without a code and a non-positive amount |
| `Store.FinalizeCheckout` | backend/app/crud/store.py:279-533 | All or nothing: payment, status, customer, stock, outbox row, columns and document as the specification says, or an error and the database as before |
| `Store.SecondSyncIsIdle` | backend/app/crud/store.py:517-523 | On a sale without earlier payment rows the sync after the commit changes nothing |
| `Store.MintDocument` | backend/app/tasks/worker.py:71-309 | The document is created or updated, and its paid amount is the sum of the payment rows whatever it started with |
| `Store.CollectCreditSale` | backend/app/crud/store.py:537-653 | Takes one payment against the remaining balance and enqueues the sale; a sale with nothing due is marked COMPLETED although the call is refused |
| `Store.CancelStagedSale` | backend/app/crud/store.py:656-717 | Removes a sale that is pending, undocumented and unpaid, and nothing else |
| `Store.VoidFinalizedSale` | backend/app/crud/store.py:719-818 | Returns what the lines still have out, marks them and the sale refunded, and reverses the rollup count of a COMPLETED sale unless that fails |
| `Store.RestoreLine` | backend/app/crud/store.py:760-797 | Returns what one line still has out; a line of a missing product is left as it is |
| `Store.RestoreLines` | backend/app/crud/store.py:760-797 | The void loop returns what all lines still have out and marks each |
| `Subscription.OneRowGrantsAccess` | backend/app/crud/subscription.py:80-113 | At every moment of every run at most one row grants access, it is the newest active one, and there is at most one trial row |
| `Subscription.ScanEqualsLatest` | backend/app/crud/subscription.py:83-113 | In a reachable state the scan over the active rows grants access exactly when the latest row does, and then finds that one |
| `Subscription.RunKeeps` | backend/app/crud/subscription.py:236-494 | Every run with a clock that does not go back keeps: start times rise, every active row but the last is locked, one trial at most |
| `Subscription.PhaseOnlyAdvances` | backend/app/crud/subscription.py:61-77 | Without a write a row only moves from active to grace to locked |
| `Subscription.ExtensionExtends` | backend/app/crud/subscription.py:302-333 | An extension never shortens grace, adds at least the requested days, and grants access from now through all of them |
| `Subscription.NewestIsLatestRow` | backend/app/crud/subscription.py:101-113 | In a reachable account the first row of the query is the active row inserted last |
| `Subscription.ActivationNeverShortensIff` | backend/app/crud/subscription.py:434-473 | Activation takes no access away exactly when no active row reaches past the new end |
| `Subscription.ExpiryKeepsAccessIff` | backend/app/crud/subscription.py:476-494 | Access survives expiry marking exactly when a granting row is open-ended or not past its end date |
| `Subscription.TrialAnswers` | backend/app/crud/subscription.py:243-292 | A trial starts exactly when the plan allows it and exists, none was used and there is no access; it is active for the plan's positive days, else fourteen, then seven days in grace, then locked |
| `Subscription.ActivationAnswers` | backend/app/crud/subscription.py:447-467 | Paid activation leaves one active row, active for the days paid, at least one, and locked after; earlier rows are kept, switched off |
| `Subscription.CancelAnswers` | backend/app/crud/subscription.py:413-426 | A cancel ends access at once and for good; dates are kept, an open end becomes now |
| `Subscription.ExpiryAnswers` | backend/app/crud/subscription.py:478-491 | Expiry marking switches off exactly the active rows with a past end date |
| `Subscription.ExtensionAnswers` | backend/app/crud/subscription.py:312-327 | An extension of one to thirty days moves the grace end that far from the later of now and the present one, and nothing else |
| `Subscription.PhaseTable` | backend/app/crud/subscription.py:47-77 | A row is active to its end, in grace to its grace end (seven days for a trial without one), then locked |
| `Subscription.PayingAgainShortensAccess` | backend/app/crud/subscription.py:455-463 | From a new account: thirty paid days and then one more paid day leave the account without access after that day |
| `Subscription.ExpiryEndsGrace` | backend/app/crud/subscription.py:476-494 | From a new account: a trial marked expired anywhere in its grace loses its access |
| `Subscription.GetActiveSubscription` | backend/app/crud/subscription.py:80-98 | The scan finds a row exactly when some row grants access, and the first such row in the order of the query |
| `Subscription.GetLatestSubscription` | backend/app/crud/subscription.py:101-113 | The active row with the latest start, if there is an active row |
| `Subscription.LastActive` | backend/app/crud/subscription.py:101-113 | The active row inserted last |
| `Subscription.GrantsUntil` | backend/app/crud/subscription.py:68-77 | An active row grants access up to one moment: the later of its end and its grace end |
| `Subscription.Organization.StartPlanTrial` | backend/app/crud/subscription.py:236-299 | Adds the one trial row with its grace, unless the plan is not eligible, the trial was used, the plan is missing or access exists |
| `Subscription.Organization.ExtendGracePeriod` | backend/app/crud/subscription.py:302-333 | Moves the grace of the first row of the query from the later of now and its grace end, whatever the rows and however ties are ordered |
| `Subscription.Organization.ActivateOrExtend` | backend/app/crud/subscription.py:434-473 | Switches every row off and adds one from now for at least a day |
| `Subscription.Organization.Deactivate` | backend/app/crud/subscription.py:402-431 | Switches every active row off and closes the open-ended ones now |
| `Subscription.Organization.MarkExpired` | backend/app/crud/subscription.py:476-494 | Switches off exactly the active rows past their end date and answers how many |
| `Hourly.HourlySeries` | backend/app/crud/reporting.py:231-257 | The series rises strictly inside the window, has a point for every hour up to the cap, holds a stored row exactly when it is on the hourly grid of the start or past a full cap, and zero points otherwise |
| `Hourly.FillHours` | backend/app/crud/reporting.py:232-252 | The fill stops at the window's end or the 48th bucket, and each bucket is the stored point or a zero point |
| `Hourly.AppendFrom` | backend/app/crud/reporting.py:253-257 | Past the cap the remaining stored points are appended |
| `Hourly.SeriesKeepsTotals` | backend/app/crud/reporting.py:231-257 | Whenever every stored row is kept, and always for an hour-aligned start, the series holds every row and preserves revenue, profit, orders and discounts, also past the cap |
| `Hourly.ZeroPointsDoNotCount` | backend/app/crud/reporting.py:240-248 | Two rising series with the same points, zero points aside, have the same totals |
| `Hourly.UnalignedStartDropsRows` | backend/app/crud/reporting.py:233-252 | A start off the hour, in a window short of the cap, yields only zero points, whatever is stored |

## Left out

- Binary floating point: amounts are cents and exact rationals, so drift of Python floats is not modelled.
- Row identity: rows are values in tables; aliasing of ORM objects and the session's identity map are not modelled. Stock is the ledger's level, beside the catalogue row.
- Two concurrent finalises, collects or voids of the same sale: the source does not lock the sale row; nothing is claimed. In `Interleaving` catalogue and recipes stay fixed and only finalises run; restocks and voids running beside them are not modelled.
- Theorems.DocumentMeansFinalized: the finalise and collect steps mint the document at once, so this says nothing of the gap between commit and the background mint; of that gap only a second finalise and a cancel are examined, in `Voids`. The document's content beyond its paid amount is not modelled.
- Direct stock edits in product updates (`backend/app/crud/product.py:102-116`): they bypass the history. `Machine.EditCatalogue` replaces catalogue rows and leaves the stock level alone.
- Tax: `TAX_FEATURE_ENABLED` is the constant False (`backend/app/crud/store.py:114-117`), so staging uses rate zero; the lemmas about the total hold for every non-negative rate.
- Tenant, organisation and permission checks, and the existence of the business: a single organisation is modelled; product and sale lookups keep their business filter. A product always has a business, as its column demands (`backend/app/models/models.py:555-559`), so the guard for one without is not modelled.
- Text normalisation: names, phones, payment references, fee descriptions and categories arrive trimmed (categories in lower case), and phones of create and update arrive normalised. Finalise stores the phone as typed, as the source does; a phone typed in another notation is another phone.
- Order of rows without ORDER BY or with ties: insertion order, except the subscription query, whose order among equal starts is arbitrary.
- Units, cost prices, cost of goods, SKU and line names, popularity scores, notes, movement prices and types, audit events: not stored in the model; a movement keeps its cause and the sale it refers to.
- Outbox.BackfillBusinessRollups: does not model rebuilding a range of dates (`backend/app/services/analytics_rollup.py:354-374` selects sales by creation time and clears rows by their day): only the rebuild of a whole business is modelled.
- Rollup tables: per sale only the net number of times it is counted; the day, hour and product tables and the payment mix are not modelled. The transient PROCESSING status and the Redis event of an outbox row are left out.
- Customer aggregates: only open total and open count; the sums over completed sales are left out.
- Lost-update and integrity failures of the database itself (500 answers): not modelled.
- Subscription: one organisation, which exists; plan lookup is a parameter of the trial and always succeeds for paid activation; trial invoice, reminders, tiers and cache invalidation are left out.
- Period metrics of credit, product, staff and dashboard reports, `list_movements`, `recipe_unit_cogs`, `_normalize_service_lines` and payment-method enablement: plain selections or sums without a law across operations.
- The legacy `SaleService` and `BusinessCrud.stocking`: disabled or broken code.
