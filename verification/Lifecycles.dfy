/** Documents only move forward, and what they did to the stock is done once. */
module Lifecycles {
  import opened Wrappers
  import opened Tables
  import opened Stock
  import opened System
  import opened Ledger
  import opened Report
  import Sales
  import Transfers
  import StockTakes

  function SaleRank(status: SaleStatus): nat
  {
    match status
    case DRAFT => 0
    case ACTIVE => 1
    case CANCELLED => 2
  }

  function TransferRank(status: RequestStatus): nat
  {
    match status
    case PENDING => 0
    case APPROVED => 1
    case SENT => 2
    case COMPLETED => 3
    case REJECTED => 3
    case CANCELLED => 3
  }

  /** A sale leaves DRAFT once, its lines then being fixed, and does not change at all once cancelled. */
  predicate SaleLater(a: Sale, b: Sale)
  {
    && SaleRank(a.status) <= SaleRank(b.status)
    && (!a.status.DRAFT? ==> Lines(b.lines) == Lines(a.lines) && b.warehouse == a.warehouse)
    && (a.status.CANCELLED? ==> b == a)
  }

  predicate PurchaseLater(a: Purchase, b: Purchase)
  {
    b.lines == a.lines && (a.status.CANCELLED? ==> b == a)
  }

  predicate OutflowLater(a: Outflow, b: Outflow)
  {
    b.lines == a.lines && (a.status.CANCELLED? ==> b == a)
  }

  /** A deleted transaction stays deleted; a kept one keeps its kind and its lines. */
  predicate TransactionLater(a: Option<Transaction>, b: Option<Transaction>)
  {
    b.Some? ==> a.Some? && b.value.kind == a.value.kind && b.value.lines == a.value.lines
  }

  predicate TransferLater(a: Transfer, b: Transfer)
  {
    && TransferRank(a.status) <= TransferRank(b.status)
    && b.lines == a.lines
    && (TransferRank(a.status) == 3 ==> b == a)
  }

  /** Cancelling a cancelled stock take again is accepted, and only touches its timestamp. */
  predicate StockTakeLater(a: StockTake, b: StockTake)
  {
    b.warehouse == a.warehouse && (!a.status.IN_PROGRESS? ==> b == a.(updatedAt := b.updatedAt))
  }

  predicate DischargeLater(a: Discharge, b: Discharge)
  {
    b.lines == a.lines && (!a.status.PENDING? ==> b == a)
  }

  /** `after` has every document of `before`, no earlier in its life, and perhaps more. */
  ghost predicate Later(before: Db, after: Db)
  {
    && TradeLater(before, after)
    && IssuesLater(before, after)
    && MovesLater(before, after)
  }

  ghost predicate TradeLater(before: Db, after: Db)
  {
    && |before.sales| <= |after.sales|
    && |before.purchases| <= |after.purchases|
    && (forall k :: 0 <= k < |before.sales| ==> SaleLater(before.sales[k], after.sales[k]))
    && (forall k :: 0 <= k < |before.purchases| ==> PurchaseLater(before.purchases[k], after.purchases[k]))
  }

  ghost predicate IssuesLater(before: Db, after: Db)
  {
    && |before.outflows| <= |after.outflows|
    && |before.transactions| <= |after.transactions|
    && |before.discharges| <= |after.discharges|
    && (forall k :: 0 <= k < |before.outflows| ==> OutflowLater(before.outflows[k], after.outflows[k]))
    && (forall k :: 0 <= k < |before.transactions| ==>
          TransactionLater(before.transactions[k], after.transactions[k]))
    && (forall k :: 0 <= k < |before.discharges| ==> DischargeLater(before.discharges[k], after.discharges[k]))
  }

  ghost predicate MovesLater(before: Db, after: Db)
  {
    && |before.transfers| <= |after.transfers|
    && |before.stockTakes| <= |after.stockTakes|
    && (forall k :: 0 <= k < |before.transfers| ==> TransferLater(before.transfers[k], after.transfers[k]))
    && (forall k :: 0 <= k < |before.stockTakes| ==> StockTakeLater(before.stockTakes[k], after.stockTakes[k]))
  }

  lemma LaterTransitive(a: Db, b: Db, c: Db)
    requires Later(a, b) && Later(b, c)
    ensures Later(a, c)
  {
  }

  lemma SaleReplacedLater(db: Db, id: nat, sale: Sale, items: seq<Item>)
    requires id < |db.sales| && SaleLater(db.sales[id], sale)
    ensures Later(db, db.(items := items, sales := db.sales[id := sale]))
  {
  }

  lemma CreateSaleLater(db: Db, dto: Sales.SaleDto, asDraft: bool, now: int)
    requires Sales.CreateSale(db, dto, asDraft, now).Ok?
    ensures Later(db, Sales.CreateSale(db, dto, asDraft, now).value)
  {
  }

  lemma UpdateSaleLater(db: Db, id: nat, edit: Sales.SaleEdit)
    requires Sales.UpdateSale(db, id, edit).Ok?
    ensures Later(db, Sales.UpdateSale(db, id, edit).value)
  {
    SaleReplacedLater(db, id, Sales.EditedSale(db.sales[id], edit), db.items);
  }

  lemma ConfirmSaleLater(db: Db, id: nat, now: int)
    requires Sales.ConfirmSale(db, id, now).Ok?
    ensures Later(db, Sales.ConfirmSale(db, id, now).value)
  {
    SaleReplacedLater(db, id, Sales.ConfirmedSale(db.sales[id], now), Sales.ConfirmSale(db, id, now).value.items);
  }

  lemma CancelSaleLater(db: Db, id: nat, allowed: bool, now: int)
    requires Sales.CancelSale(db, id, allowed, now).Ok?
    ensures Later(db, Sales.CancelSale(db, id, allowed, now).value)
  {
    var after := Sales.CancelSale(db, id, allowed, now).value;
    SaleReplacedLater(db, id, after.sales[id], after.items);
  }

  lemma SalesStepLater(db: Db, op: Op)
    requires Step(db, op).Ok?
    requires op.CreateSale? || op.UpdateSale? || op.ConfirmSale? || op.CancelSale?
    ensures Later(db, Step(db, op).value)
  {
    match op
    case CreateSale(dto, asDraft, now) => CreateSaleLater(db, dto, asDraft, now);
    case UpdateSale(id, edit) => UpdateSaleLater(db, id, edit);
    case ConfirmSale(id, now) => ConfirmSaleLater(db, id, now);
    case CancelSale(id, allowed, now) => CancelSaleLater(db, id, allowed, now);
  }

  lemma PurchaseRowsLater(db: Db, after: Db)
    requires after == db.(items := after.items, purchases := after.purchases)
    requires |db.purchases| <= |after.purchases|
    requires forall k :: 0 <= k < |db.purchases| ==> PurchaseLater(db.purchases[k], after.purchases[k])
    ensures Later(db, after)
  {
  }

  lemma IssueRowsLater(db: Db, after: Db)
    requires after == db.(items := after.items, outflows := after.outflows, discharges := after.discharges)
    requires |db.outflows| <= |after.outflows| && |db.discharges| <= |after.discharges|
    requires forall k :: 0 <= k < |db.outflows| ==> OutflowLater(db.outflows[k], after.outflows[k])
    requires forall k :: 0 <= k < |db.discharges| ==> DischargeLater(db.discharges[k], after.discharges[k])
    ensures Later(db, after)
  {
  }

  lemma PurchaseStepLater(db: Db, op: Op)
    requires Step(db, op).Ok? && (op.CreatePurchase? || op.CancelPurchase?)
    ensures Later(db, Step(db, op).value)
  {
    PurchaseRowsLater(db, Step(db, op).value);
  }

  lemma IssueStepLater(db: Db, op: Op)
    requires Step(db, op).Ok?
    requires op.CreateOutflow? || op.CancelOutflow? || op.CreateDischarge? || op.CompleteDischarge? || op.RejectDischarge?
    ensures Later(db, Step(db, op).value)
  {
    var after := Step(db, op).value;
    match op
    case CreateOutflow(_, _, _) => IssueRowsLater(db, after);
    case CancelOutflow(_, _) => IssueRowsLater(db, after);
    case CreateDischarge(_, _) => IssueRowsLater(db, after);
    case CompleteDischarge(_, _) => IssueRowsLater(db, after);
    case RejectDischarge(_) => IssueRowsLater(db, after);
  }

  lemma TransactionRowsLater(db: Db, after: Db)
    requires after == db.(items := after.items, transactions := after.transactions)
    requires |db.transactions| <= |after.transactions|
    requires forall k :: 0 <= k < |db.transactions| ==> TransactionLater(db.transactions[k], after.transactions[k])
    ensures Later(db, after)
  {
  }

  lemma TransactionStepLater(db: Db, op: Op)
    requires Step(db, op).Ok?
    requires op.CreateTransaction? || op.UpdateTransaction? || op.RemoveTransaction?
    ensures Later(db, Step(db, op).value)
  {
    var after := Step(db, op).value;
    match op
    case CreateTransaction(_) => TransactionRowsLater(db, after);
    case UpdateTransaction(_, _, _, _) => TransactionRowsLater(db, after);
    case RemoveTransaction(_) => TransactionRowsLater(db, after);
  }

  lemma TransferReplacedLater(db: Db, id: nat, t: Transfer, items: seq<Item>)
    requires id < |db.transfers| && TransferLater(db.transfers[id], t)
    ensures Later(db, db.(items := items, transfers := db.transfers[id := t]))
  {
  }

  lemma CompleteTransferLater(db: Db, id: nat, snapshot: seq<Item>, hints: seq<nat>, now: int)
    requires Transfers.CompleteTransfer(db, id, snapshot, hints, now).Ok?
    ensures Later(db, Transfers.CompleteTransfer(db, id, snapshot, hints, now).value)
  {
    var after := Transfers.CompleteTransfer(db, id, snapshot, hints, now).value;
    TransferReplacedLater(db, id, after.transfers[id], after.items);
  }

  lemma CreateTransferLater(db: Db, from: string, to: string, lines: seq<Line>, now: int)
    requires Transfers.CreateTransfer(db, from, to, lines, now).Ok?
    ensures Later(db, Transfers.CreateTransfer(db, from, to, lines, now).value)
  {
  }

  lemma SetTransferLater(db: Db, id: nat, status: RequestStatus, now: int)
    requires id < |db.transfers|
    requires TransferRank(db.transfers[id].status) < 3 && TransferRank(db.transfers[id].status) <= TransferRank(status)
    ensures Later(db, Transfers.SetTransfer(db, id, status, now))
  {
    TransferReplacedLater(db, id, db.transfers[id].(status := status, updatedAt := now), db.items);
  }

  lemma MoveStepLater(db: Db, op: Op)
    requires Step(db, op).Ok?
    requires op.CreateTransfer? || op.ApproveTransfer? || op.RejectTransfer? || op.SendTransfer?
             || op.CancelTransfer? || op.CompleteTransfer?
    ensures Later(db, Step(db, op).value)
  {
    match op
    case CreateTransfer(from, to, lines, now) => CreateTransferLater(db, from, to, lines, now);
    case ApproveTransfer(id, now) => SetTransferLater(db, id, RequestStatus.APPROVED, now);
    case RejectTransfer(id, now) => SetTransferLater(db, id, RequestStatus.REJECTED, now);
    case SendTransfer(id, now) => SetTransferLater(db, id, RequestStatus.SENT, now);
    case CancelTransfer(id, now) => SetTransferLater(db, id, RequestStatus.CANCELLED, now);
    case CompleteTransfer(id, snapshot, hints, now) => CompleteTransferLater(db, id, snapshot, hints, now);
  }

  lemma StockTakeReplacedLater(db: Db, id: nat, st: StockTake, items: seq<Item>)
    requires id < |db.stockTakes| && StockTakeLater(db.stockTakes[id], st)
    ensures Later(db, db.(items := items, stockTakes := db.stockTakes[id := st]))
  {
  }

  lemma CreateStockTakeLater(db: Db, warehouse: string, now: int)
    requires StockTakes.CreateStockTake(db, warehouse, now).Ok?
    ensures Later(db, StockTakes.CreateStockTake(db, warehouse, now).value)
  {
  }

  lemma CountItemLater(db: Db, id: nat, item: nat, counted: nat)
    requires StockTakes.CountItem(db, id, item, counted).Ok?
    ensures Later(db, StockTakes.CountItem(db, id, item, counted).value)
  {
    StockTakeReplacedLater(db, id, StockTakes.CountItem(db, id, item, counted).value.stockTakes[id], db.items);
  }

  lemma CompleteStockTakeLater(db: Db, id: nat, apply: bool, now: int)
    requires StockTakes.CompleteStockTake(db, id, apply, now).Ok?
    ensures Later(db, StockTakes.CompleteStockTake(db, id, apply, now).value)
  {
    var after := StockTakes.CompleteStockTake(db, id, apply, now).value;
    StockTakeReplacedLater(db, id, after.stockTakes[id], after.items);
  }

  lemma CancelStockTakeLater(db: Db, id: nat, now: int)
    requires StockTakes.CancelStockTake(db, id, now).Ok?
    ensures Later(db, StockTakes.CancelStockTake(db, id, now).value)
  {
    StockTakeReplacedLater(db, id, StockTakes.CancelStockTake(db, id, now).value.stockTakes[id], db.items);
  }

  lemma CountStepLater(db: Db, op: Op)
    requires Step(db, op).Ok?
    requires op.CreateStockTake? || op.CountItem? || op.CompleteStockTake? || op.CancelStockTake?
    ensures Later(db, Step(db, op).value)
  {
    match op
    case CreateStockTake(warehouse, now) => CreateStockTakeLater(db, warehouse, now);
    case CountItem(id, item, counted) => CountItemLater(db, id, item, counted);
    case CompleteStockTake(id, apply, now) => CompleteStockTakeLater(db, id, apply, now);
    case CancelStockTake(id, now) => CancelStockTakeLater(db, id, now);
  }

  lemma StepLater(db: Db, op: Op)
    ensures Later(db, Next(db, op))
  {
    if Step(db, op).Err? {
    } else if op.CreateSale? || op.UpdateSale? || op.ConfirmSale? || op.CancelSale? {
      SalesStepLater(db, op);
    } else if op.CreateTransaction? || op.UpdateTransaction? || op.RemoveTransaction? {
      TransactionStepLater(db, op);
    } else if op.CreateTransfer? || op.ApproveTransfer? || op.RejectTransfer? || op.SendTransfer?
              || op.CancelTransfer? || op.CompleteTransfer? {
      MoveStepLater(db, op);
    } else if op.CreateStockTake? || op.CountItem? || op.CompleteStockTake? || op.CancelStockTake? {
      CountStepLater(db, op);
    } else if op.CreatePurchase? || op.CancelPurchase? {
      PurchaseStepLater(db, op);
    } else if op.CreateOutflow? || op.CancelOutflow? || op.CreateDischarge? || op.CompleteDischarge? || op.RejectDischarge? {
      IssueStepLater(db, op);
    }
  }

  /** Over any run, no document goes back to an earlier status, and settled ones stay as they are. */
  lemma {:induction false} RunLater(db: Db, ops: seq<Op>)
    ensures Later(db, Run(db, ops))
  {
    if ops != [] {
      var before := Run(db, ops[..|ops| - 1]);
      RunLater(db, ops[..|ops| - 1]);
      StepLater(before, ops[|ops| - 1]);
      LaterTransitive(db, before, Run(db, ops));
    }
  }

  /** What a call does to the stock of a document that already exists. */
  datatype Movement =
    | SaleConfirmed(id: nat)
    | SaleCancelled(id: nat)
    | PurchaseCancelled(id: nat)
    | OutflowCancelled(id: nat)
    | TransactionRemoved(id: nat)
    | StockTakeCompleted(id: nat)
    | DischargeCompleted(id: nat)
    | TransferExecuted(id: nat)

  function MovementOf(op: Op): Option<Movement>
  {
    if op.ConfirmSale? then Some(SaleConfirmed(op.id))
    else if op.CancelSale? then Some(SaleCancelled(op.id))
    else if op.CancelPurchase? then Some(PurchaseCancelled(op.id))
    else if op.CancelOutflow? then Some(OutflowCancelled(op.id))
    else if op.RemoveTransaction? then Some(TransactionRemoved(op.id))
    else if op.CompleteStockTake? then Some(StockTakeCompleted(op.id))
    else if op.CompleteDischarge? then Some(DischargeCompleted(op.id))
    else if op.CompleteTransfer? then Some(TransferExecuted(op.id))
    else None
  }

  /** The document has moved past the status the movement starts from. */
  predicate Spent(db: Db, m: Movement)
  {
    match m
    case SaleConfirmed(id) => id < |db.sales| && !db.sales[id].status.DRAFT?
    case SaleCancelled(id) => id < |db.sales| && db.sales[id].status.CANCELLED?
    case PurchaseCancelled(id) => id < |db.purchases| && db.purchases[id].status.CANCELLED?
    case OutflowCancelled(id) => id < |db.outflows| && db.outflows[id].status.CANCELLED?
    case TransactionRemoved(id) => id < |db.transactions| && db.transactions[id].None?
    case StockTakeCompleted(id) => id < |db.stockTakes| && !db.stockTakes[id].status.IN_PROGRESS?
    case DischargeCompleted(id) => id < |db.discharges| && !db.discharges[id].status.PENDING?
    case TransferExecuted(id) => id < |db.transfers| && TransferRank(db.transfers[id].status) == 3
  }

  lemma TradeSpends(db: Db, op: Op)
    requires op.ConfirmSale? || op.CancelSale? || op.CancelPurchase? || op.CancelOutflow?
    requires Step(db, op).Ok?
    ensures Spent(Step(db, op).value, MovementOf(op).value)
  {
  }

  lemma MovementSpends(db: Db, op: Op)
    requires MovementOf(op).Some? && Step(db, op).Ok?
    ensures Spent(Step(db, op).value, MovementOf(op).value)
  {
    if op.ConfirmSale? || op.CancelSale? || op.CancelPurchase? || op.CancelOutflow? {
      TradeSpends(db, op);
    }
  }

  lemma SpentIsRefused(db: Db, op: Op)
    requires MovementOf(op).Some? && Spent(db, MovementOf(op).value)
    ensures Step(db, op).Err?
  {
  }

  lemma SpentStays(before: Db, after: Db, m: Movement)
    requires Later(before, after) && Spent(before, m)
    ensures Spent(after, m)
  {
    match m
    case SaleConfirmed(id) => assert SaleLater(before.sales[id], after.sales[id]);
    case SaleCancelled(id) => assert SaleLater(before.sales[id], after.sales[id]);
    case PurchaseCancelled(id) => assert PurchaseLater(before.purchases[id], after.purchases[id]);
    case OutflowCancelled(id) => assert OutflowLater(before.outflows[id], after.outflows[id]);
    case TransactionRemoved(id) => assert TransactionLater(before.transactions[id], after.transactions[id]);
    case StockTakeCompleted(id) => assert StockTakeLater(before.stockTakes[id], after.stockTakes[id]);
    case DischargeCompleted(id) => assert DischargeLater(before.discharges[id], after.discharges[id]);
    case TransferExecuted(id) => assert TransferLater(before.transfers[id], after.transfers[id]);
  }

  /**
   Each of these movements of a document goes through at most once: after one
   has, every later attempt is refused, whatever was called in between and
   whatever the attempt's other arguments.
   */
  lemma AppliedOnce(db: Db, op: Op, ops: seq<Op>, again: Op)
    requires MovementOf(op).Some? && Step(db, op).Ok?
    requires MovementOf(again) == MovementOf(op)
    ensures Step(Run(Step(db, op).value, ops), again).Err?
  {
    var done := Step(db, op).value;
    MovementSpends(db, op);
    RunLater(done, ops);
    SpentStays(done, Run(done, ops), MovementOf(op).value);
    SpentIsRefused(Run(done, ops), again);
  }

  /**
   What a cancelled sale leaves in the movement history, then and after any
   later run: nothing if it never left DRAFT, otherwise its movement and the
   opposite one, with the same lines, at the moment it was cancelled.
   */
  lemma CancelledSaleInHistory(db: Db, id: nat, allowed: bool, now: int, ops: seq<Op>)
    requires Coherent(db) && Step(db, Op.CancelSale(id, allowed, now)).Ok?
    ensures var before := db.sales[id];
            var after := Run(Step(db, Op.CancelSale(id, allowed, now)).value, ops);
            && id < |after.sales|
            && SaleMoves()(after.sales[id])
               == if before.status.DRAFT? then []
                  else DocumentMoves(
                    SALE, before.warehouse, Lines(before.lines), before.confirmedAt.GetOr(before.createdAt), OUT, Some(now))
  {
    var cancelled := Step(db, Op.CancelSale(id, allowed, now)).value;
    assert SaleOk(db.sales[id], |db.items|);
    RunLater(cancelled, ops);
    assert SaleLater(cancelled.sales[id], Run(cancelled, ops).sales[id]);
  }
}
