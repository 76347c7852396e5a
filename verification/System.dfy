/** The whole system as one transition system: every service call is one step. */
module System {
  import opened Wrappers
  import opened Tables
  import Payments
  import Sales
  import Purchases
  import Outflows
  import Transactions
  import Discharges
  import Transfers
  import StockTakes
  import Inventory

  datatype Op =
    | EnterItem(name: string, category: string, sku: Option<string>, warehouse: string, itemType: ItemType, quantity: nat)
    | EditItem(id: nat, name: string, category: string, sku: Option<string>, warehouse: string, itemType: ItemType, quantity: nat)
    | RemoveItem(id: nat)
    | RestoreItem(id: nat)
    | CreateSale(dto: Sales.SaleDto, asDraft: bool, now: int)
    | UpdateSale(id: nat, edit: Sales.SaleEdit)
    | ConfirmSale(id: nat, now: int)
    | CancelSale(id: nat, allowed: bool, now: int)
    | CreatePurchase(purchase: Purchases.PurchaseDto, now: int)
    | CancelPurchase(id: nat, now: int)
    | CreateOutflow(warehouse: string, lines: seq<Line>, now: int)
    | CancelOutflow(id: nat, now: int)
    | CreateTransaction(t: Transaction)
    | UpdateTransaction(id: nat, date: int, source: Option<string>, destination: Option<string>)
    | RemoveTransaction(id: nat)
    | CreateDischarge(warehouse: string, lines: seq<Line>)
    | CompleteDischarge(id: nat, now: int)
    | RejectDischarge(id: nat)
    | CreateTransfer(from: string, to: string, lines: seq<Line>, now: int)
    | ApproveTransfer(id: nat, now: int)
    | RejectTransfer(id: nat, now: int)
    | SendTransfer(id: nat, now: int)
    | CancelTransfer(id: nat, now: int)
    | CompleteTransfer(id: nat, snapshot: seq<Item>, hints: seq<nat>, now: int)
    | CreateStockTake(warehouse: string, now: int)
    | CountItem(id: nat, item: nat, counted: nat)
    | CompleteStockTake(id: nat, apply: bool, now: int)
    | CancelStockTake(id: nat, now: int)
    | Pay(target: Target, amount: real)
    | VoidPayment(id: nat)

  function Step(db: Db, op: Op): Outcome
  {
    match op
    case EnterItem(name, category, sku, warehouse, itemType, quantity) =>
      Inventory.EnterItem(db, name, category, sku, warehouse, itemType, quantity)
    case EditItem(id, name, category, sku, warehouse, itemType, quantity) =>
      Inventory.EditItem(db, id, name, category, sku, warehouse, itemType, quantity)
    case RemoveItem(id) => Inventory.RemoveItem(db, id)
    case RestoreItem(id) => Inventory.RestoreItem(db, id)
    case CreateSale(dto, asDraft, now) => Sales.CreateSale(db, dto, asDraft, now)
    case UpdateSale(id, edit) => Sales.UpdateSale(db, id, edit)
    case ConfirmSale(id, now) => Sales.ConfirmSale(db, id, now)
    case CancelSale(id, allowed, now) => Sales.CancelSale(db, id, allowed, now)
    case CreatePurchase(purchase, now) => Purchases.CreatePurchase(db, purchase, now)
    case CancelPurchase(id, now) => Purchases.CancelPurchase(db, id, now)
    case CreateOutflow(warehouse, lines, now) => Outflows.CreateOutflow(db, warehouse, lines, now)
    case CancelOutflow(id, now) => Outflows.CancelOutflow(db, id, now)
    case CreateTransaction(t) => Transactions.CreateTransaction(db, t)
    case UpdateTransaction(id, date, source, destination) =>
      Transactions.UpdateTransaction(db, id, date, source, destination)
    case RemoveTransaction(id) => Transactions.RemoveTransaction(db, id)
    case CreateDischarge(warehouse, lines) => Discharges.CreateDischarge(db, warehouse, lines)
    case CompleteDischarge(id, now) => Discharges.CompleteDischarge(db, id, now)
    case RejectDischarge(id) => Discharges.RejectDischarge(db, id)
    case CreateTransfer(from, to, lines, now) => Transfers.CreateTransfer(db, from, to, lines, now)
    case ApproveTransfer(id, now) => Transfers.ApproveTransfer(db, id, now)
    case RejectTransfer(id, now) => Transfers.RejectTransfer(db, id, now)
    case SendTransfer(id, now) => Transfers.SendTransfer(db, id, now)
    case CancelTransfer(id, now) => Transfers.CancelTransfer(db, id, now)
    case CompleteTransfer(id, snapshot, hints, now) => Transfers.CompleteTransfer(db, id, snapshot, hints, now)
    case CreateStockTake(warehouse, now) => StockTakes.CreateStockTake(db, warehouse, now)
    case CountItem(id, item, counted) => StockTakes.CountItem(db, id, item, counted)
    case CompleteStockTake(id, apply, now) => StockTakes.CompleteStockTake(db, id, apply, now)
    case CancelStockTake(id, now) => StockTakes.CancelStockTake(db, id, now)
    case Pay(target, amount) => Payments.Pay(db, target, amount)
    case VoidPayment(id) => Payments.VoidPayment(db, id)
  }

  /** A refused call leaves the tables as they were. */
  function Next(db: Db, op: Op): Db
  {
    match Step(db, op)
    case Ok(after) => after
    case Err(_) => db
  }

  function Run(db: Db, ops: seq<Op>): Db
  {
    if ops == [] then db else Next(Run(db, ops[..|ops| - 1]), ops[|ops| - 1])
  }

  lemma RunSnoc(db: Db, ops: seq<Op>, op: Op)
    ensures Run(db, ops + [op]) == Next(Run(db, ops), op)
  {
    assert (ops + [op])[..|ops|] == ops;
  }

  function Empty(clients: seq<Client>): Db
  {
    Db([], [], [], [], [], [], [], [], [], clients)
  }
}
