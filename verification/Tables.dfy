/**
 The database the services share. A table is a sequence of rows and a row's id
 is its position; rows are appended and updated in place, and a deleted manual
 transaction leaves None behind. Columns that only decorate a row (notes,
 users, printed numbers) are left out.
 */
module Tables {
  import opened Seqs
  import opened Wrappers

  /** Quantities in requests are whole numbers of at least 1. */
  type Units = n: int | 1 <= n witness 1

  /** One line of a document: so many units of one item. */
  datatype Line = Line(item: nat, qty: Units)

  datatype ItemType = UNIQUE | BULK

  /**
   `entered` is the model's own bookkeeping: the units put into (or taken out
   of) the row by hand, when it was created or its quantity was edited.
   */
  datatype Item = Item(
    name: string, category: string, sku: Option<string>, warehouse: string,
    itemType: ItemType, quantity: int, deleted: bool, entered: int)

  datatype MoveType = IN | OUT | TRANSFER

  datatype Transaction = Transaction(
    kind: MoveType, date: int, source: Option<string>, destination: Option<string>, lines: seq<Line>)

  /** A line of a sale or purchase, its percentage and amounts as stored. */
  datatype PricedLine = PricedLine(item: nat, qty: Units, lineTotal: int, taxPercent: Option<int>, taxAmount: int)

  datatype SaleStatus = DRAFT | ACTIVE | CANCELLED

  datatype Sale = Sale(
    status: SaleStatus, quoted: bool, createdAt: int, confirmedAt: Option<int>, cancelledAt: Option<int>,
    warehouse: string, client: Option<nat>, credit: bool, currency: string,
    taxPercent: Option<int>, total: int, tax: int, lines: seq<PricedLine>)

  /** Purchases and outflows. */
  datatype DocStatus = ACTIVE | CANCELLED

  datatype Purchase = Purchase(
    status: DocStatus, createdAt: int, cancelledAt: Option<int>,
    warehouse: string, total: int, tax: int, lines: seq<PricedLine>)

  datatype Outflow = Outflow(
    status: DocStatus, createdAt: int, cancelledAt: Option<int>, warehouse: string, lines: seq<Line>)

  datatype RequestStatus = PENDING | APPROVED | SENT | COMPLETED | REJECTED | CANCELLED

  /**
   `landed` is the model's own bookkeeping: for each line, the destination row
   its units were added to when the transfer was executed.
   */
  datatype Transfer = Transfer(
    status: RequestStatus, source: string, destination: string,
    receivedAt: Option<int>, updatedAt: int, lines: seq<Line>, landed: seq<Line>)

  datatype StockTakeStatus = IN_PROGRESS | COMPLETED | CANCELLED

  datatype CountLine = CountLine(item: nat, expected: int, counted: Option<int>, variance: Option<int>)

  datatype StockTake = StockTake(
    status: StockTakeStatus, warehouse: string, applied: bool,
    completedAt: Option<int>, updatedAt: int, lines: seq<CountLine>)

  datatype DischargeStatus = PENDING | COMPLETED | REJECTED

  datatype Discharge = Discharge(status: DischargeStatus, warehouse: string, lines: seq<Line>)

  datatype Target = OfSale(id: nat) | OfPurchase(id: nat)

  datatype Payment = Payment(target: Target, amount: int, active: bool)

  datatype Client = Client(creditLimit: Option<int>, limitCurrency: string)

  datatype Db = Db(
    items: seq<Item>,
    transactions: seq<Option<Transaction>>,
    sales: seq<Sale>,
    purchases: seq<Purchase>,
    outflows: seq<Outflow>,
    transfers: seq<Transfer>,
    stockTakes: seq<StockTake>,
    discharges: seq<Discharge>,
    payments: seq<Payment>,
    clients: seq<Client>)

  /** The API error codes the services throw. */
  datatype Error =
    | NOT_FOUND
    | ITEMS_REQUIRED
    | DUPLICATE_INVENTORY_ITEM
    | ITEM_NOT_IN_WAREHOUSE
    | ITEM_NOT_IN_SOURCE_WAREHOUSE
    | ITEM_NO_LONGER_AVAILABLE
    | INSUFFICIENT_STOCK
    | SAME_SOURCE_AND_DESTINATION
    | WAREHOUSE_REQUIRED
    | UNIQUE_ITEM_NOT_BULK_PURCHASABLE
    | INVALID_STATUS
    | FORBIDDEN
    | HAS_ACTIVE_PAYMENTS
    | HAS_SERIALIZED_ITEMS
    | CREDIT_LIMIT_EXCEEDED
    | CREDIT_LIMIT_CURRENCY_MISMATCH
    | PAYMENT_EXCEEDS_BALANCE
    | STOCK_TAKE_ALREADY_IN_PROGRESS
    | STOCK_TAKE_ITEMS_NOT_COUNTED
    | SKU_ALREADY_EXISTS
    | ITEM_NOT_DELETED

  type Outcome = Result<Db, Error>

  /** The units each line moves, without its prices. */
  function Lines(priced: seq<PricedLine>): (lines: seq<Line>)
  {
    seq(|priced|, k requires 0 <= k < |priced| => Line(priced[k].item, priced[k].qty))
  }

  function ItemsOf(lines: seq<Line>): seq<nat>
  {
    seq(|lines|, k requires 0 <= k < |lines| => lines[k].item)
  }

  /** Every line names an existing row. */
  predicate InRange(lines: seq<Line>, n: nat)
  {
    forall k :: 0 <= k < |lines| ==> lines[k].item < n
  }

  function QtyAt(item: nat): Line -> int
  {
    (l: Line) => if l.item == item then l.qty else 0
  }

  function Qty(): Line -> int
  {
    (l: Line) => l.qty
  }

  /** How many units of one item the lines name altogether. */
  function UnitsOf(lines: seq<Line>, item: nat): int
  {
    SumOver(lines, QtyAt(item))
  }

  function TotalUnits(lines: seq<Line>): int
  {
    SumOver(lines, Qty())
  }

  lemma UnitsAreNonNegative(lines: seq<Line>, item: nat)
    ensures UnitsOf(lines, item) >= 0
  {
    SumNonNegative(lines, QtyAt(item));
  }

  lemma NoUnitsOutOfRange(lines: seq<Line>, item: nat, n: nat)
    requires InRange(lines, n) && n <= item
    ensures UnitsOf(lines, item) == 0
  {
    SumZero(lines, QtyAt(item));
  }

  function LineAt(l: Line): nat -> int
  {
    (i: nat) => if l.item == i then l.qty else 0
  }

  lemma {:induction false} OneLinePerItem(l: Line, n: nat)
    ensures SumUpTo(n, LineAt(l)) == if l.item < n then l.qty else 0
  {
    if n > 0 {
      OneLinePerItem(l, n - 1);
      assert LineAt(l)(n - 1) == if l.item == n - 1 then l.qty else 0;
    }
  }

  function QtyByItem(): nat -> Line -> int
  {
    (i: nat) => QtyAt(i)
  }

  function UnitsByItem(lines: seq<Line>): nat -> int
  {
    (i: nat) => UnitsOf(lines, i)
  }

  /** Added over all items, the units of the lines are all their units. */
  lemma UnitsOverAllItems(lines: seq<Line>, n: nat)
    requires InRange(lines, n)
    ensures SumUpTo(n, UnitsByItem(lines)) == TotalUnits(lines)
  {
    forall k | 0 <= k < |lines| ensures SumUpTo(n, RowAt(lines[k], QtyByItem())) == Qty()(lines[k]) {
      OneLinePerItem(lines[k], n);
      SumUpToSame(n, RowAt(lines[k], QtyByItem()), LineAt(lines[k]));
    }
    SumExchange(lines, n, QtyByItem(), Qty());
    SumUpToSame(n, UnitsByItem(lines), SumAt(lines, QtyByItem()));
  }
}
