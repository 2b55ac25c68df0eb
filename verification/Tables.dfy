/**
 * The rows of the point-of-sale database and the session that holds them. Rows are values;
 * a table is a field of the session that the CRUD methods reassign. Ids are row positions
 * (sales, customers) or plain numbers (products, businesses).
 */
module Tables {
  import opened Common

  // ---------- catalogue ----------

  datatype ItemType = PRODUCT | SERVICE

  /** A catalogue row without its stock column. `category` is stored trimmed and lower-case. */
  datatype Product = Product(
    business: nat, itemType: ItemType, trackStock: bool, active: bool, deleted: bool,
    category: string, price: real)

  /** One recipe row: one unit of `service` uses `quantity` of `material`. */
  datatype MaterialRow = MaterialRow(service: nat, material: nat, quantity: real, deleted: bool)

  // ---------- stock ----------

  /** Why stock moved; the sale movements carry the sale as their reference. */
  datatype Cause =
    | PurchaseOrder
    | ManualAudit
    | ManualAdjustment
    | SaleOut(sale: nat)
    | SaleRefund(sale: nat)

  datatype Entry = Entry(product: nat, cause: Cause, quantity: real, previous: real, newStock: real)

  /** The stock column of the catalogue together with the movement history. */
  datatype Ledger = Ledger(level: map<nat, real>, log: seq<Entry>)

  // ---------- sales ----------

  datatype Status =
    | PENDING_PAYMENT
    | PARTIALLY_PAID
    | COMPLETED
    | REFUNDED
    | PARTIALLY_REFUNDED
    | DISPUTED

  datatype Method = CASH | MPESA | CARD | INVOICE

  /** All four amounts are whole cents. */
  datatype Payment = Payment(amount: int, given: int, dueBefore: int, change: int)

  datatype Line = Line(product: nat, quantity: real, refunded: real)

  /** `document` is the paid amount on the sale's financial document, once it is minted. */
  datatype Sale = Sale(
    business: nat, customer: Option<nat>, status: Status, total: int,
    lines: seq<Line>, payments: seq<Payment>, amountPaid: int, balanceDue: int,
    document: Option<int>)

  datatype Customer = Customer(business: nat, phone: Option<string>, deleted: bool)

  // ---------- analytics outbox ----------

  datatype OutboxStatus = PENDING | FAILED | DONE

  datatype OutboxRow = OutboxRow(sale: nat, status: OutboxStatus, attempts: nat)

  /** The outbox together with, per sale, the net number of times it is counted in the rollups. */
  datatype Queue = Queue(rows: seq<OutboxRow>, tally: map<nat, int>)

  // ---------- the whole database ----------

  datatype State = State(
    products: map<nat, Product>,
    materials: seq<MaterialRow>,
    ledger: Ledger,
    sales: seq<Option<Sale>>,
    customers: seq<Customer>,
    queue: Queue)

  predicate HasSale(s: State, id: nat) {
    id < |s.sales| && s.sales[id].Some?
  }

  /** The outcome of one step: the database after it, and the failure it raised, if any. */
  datatype Reply = Reply(state: State, error: Option<Error>)

  /** The database session that every CRUD operation receives. */
  class Database {
    var products: map<nat, Product>
    var materials: seq<MaterialRow>
    var level: map<nat, real>
    var log: seq<Entry>
    var sales: seq<Option<Sale>>
    var customers: seq<Customer>
    var outbox: seq<OutboxRow>
    var tally: map<nat, int>

    constructor (catalogue: map<nat, Product>, stock: map<nat, real>)
      ensures Now() == State(catalogue, [], Ledger(stock, []), [], [], Queue([], map[]))
    {
      products, materials, level, log := catalogue, [], stock, [];
      sales, customers, outbox, tally := [], [], [], map[];
    }

    function Shelf(): Ledger
      reads this`level, this`log
    {
      Ledger(level, log)
    }

    function Outbox(): Queue
      reads this`outbox, this`tally
    {
      Queue(outbox, tally)
    }

    function Now(): State
      reads this
    {
      State(products, materials, Shelf(), sales, customers, Outbox())
    }

    /** Give back the tables as they were when the transaction began. */
    method Rollback(before: State)
      modifies this
      ensures Now() == before
    {
      products, materials := before.products, before.materials;
      level, log := before.ledger.level, before.ledger.log;
      sales, customers := before.sales, before.customers;
      outbox, tally := before.queue.rows, before.queue.tally;
    }
  }
}
