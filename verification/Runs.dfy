/** The ledger invariant over every run of the system. */
module Runs {
  import opened Seqs
  import opened Wrappers
  import opened Tables
  import opened System
  import opened Ledger
  import Payments
  import Discharges

  lemma PaymentStepSound(db: Db, payments: seq<Payment>)
    requires Sound(db)
    ensures Sound(db.(payments := payments))
  {
    var after := db.(payments := payments);
    forall i | 0 <= i < |db.items| ensures after.items[i].quantity == after.items[i].entered + Effect(after, i) {
      assert Effect(after, i) == Effect(db, i);
    }
  }

  lemma DischargeStepSound(db: Db, discharges: seq<Discharge>)
    requires Sound(db)
    ensures Sound(db.(discharges := discharges))
  {
    var after := db.(discharges := discharges);
    forall i | 0 <= i < |db.items| ensures after.items[i].quantity == after.items[i].entered + Effect(after, i) {
      assert Effect(after, i) == Effect(db, i);
    }
  }

  lemma CreateDischargeSound(db: Db, warehouse: string, lines: seq<Line>)
    requires Sound(db) && Discharges.CreateDischarge(db, warehouse, lines).Ok?
    ensures Sound(Discharges.CreateDischarge(db, warehouse, lines).value)
  {
    DischargeStepSound(db, Discharges.CreateDischarge(db, warehouse, lines).value.discharges);
  }

  lemma RejectDischargeSound(db: Db, id: nat)
    requires Sound(db) && Discharges.RejectDischarge(db, id).Ok?
    ensures Sound(Discharges.RejectDischarge(db, id).value)
  {
    DischargeStepSound(db, Discharges.RejectDischarge(db, id).value.discharges);
  }

  lemma InventoryStepSound(db: Db, op: Op)
    requires Sound(db) && Step(db, op).Ok?
    requires op.EnterItem? || op.EditItem? || op.RemoveItem? || op.RestoreItem?
    ensures Sound(Step(db, op).value)
  {
    match op
    case EnterItem(name, category, sku, warehouse, itemType, quantity) =>
      EnterItemSound(db, name, category, sku, warehouse, itemType, quantity);
    case EditItem(id, name, category, sku, warehouse, itemType, quantity) =>
      ItemReplaced(db, id, Step(db, op).value.items[id]);
    case RemoveItem(id) => ItemReplaced(db, id, Step(db, op).value.items[id]);
    case RestoreItem(id) => ItemReplaced(db, id, Step(db, op).value.items[id]);
  }

  lemma TradeStepSound(db: Db, op: Op)
    requires Sound(db) && Step(db, op).Ok?
    requires op.CreateSale? || op.UpdateSale? || op.ConfirmSale? || op.CancelSale? || op.CreatePurchase? || op.CancelPurchase?
    ensures Sound(Step(db, op).value)
  {
    match op
    case CreateSale(dto, asDraft, now) => CreateSaleSound(db, dto, asDraft, now);
    case UpdateSale(id, edit) => UpdateSaleSound(db, id, edit);
    case ConfirmSale(id, now) => ConfirmSaleSound(db, id, now);
    case CancelSale(id, allowed, now) => CancelSaleSound(db, id, allowed, now);
    case CreatePurchase(purchase, now) => CreatePurchaseSound(db, purchase, now);
    case CancelPurchase(id, now) => CancelPurchaseSound(db, id, now);
  }

  lemma OutflowStepSound(db: Db, op: Op)
    requires Sound(db) && Step(db, op).Ok? && (op.CreateOutflow? || op.CancelOutflow?)
    ensures Sound(Step(db, op).value)
  {
    match op
    case CreateOutflow(warehouse, lines, now) => CreateOutflowSound(db, warehouse, lines, now);
    case CancelOutflow(id, now) => CancelOutflowSound(db, id, now);
  }

  lemma TransactionStepSound(db: Db, op: Op)
    requires Sound(db) && Step(db, op).Ok?
    requires op.CreateTransaction? || op.UpdateTransaction? || op.RemoveTransaction?
    ensures Sound(Step(db, op).value)
  {
    match op
    case CreateTransaction(t) => CreateTransactionSound(db, t);
    case UpdateTransaction(id, date, source, destination) => UpdateTransactionSound(db, id, date, source, destination);
    case RemoveTransaction(id) => RemoveTransactionSound(db, id);
  }

  lemma RequestStepSound(db: Db, op: Op)
    requires Sound(db) && Step(db, op).Ok? && (op.CreateDischarge? || op.CompleteDischarge? || op.RejectDischarge?)
    ensures Sound(Step(db, op).value)
  {
    match op
    case CreateDischarge(warehouse, lines) => CreateDischargeSound(db, warehouse, lines);
    case CompleteDischarge(id, now) => CompleteDischargeSound(db, id, now);
    case RejectDischarge(id) => RejectDischargeSound(db, id);
  }

  lemma TransferStatusSound(db: Db, op: Op)
    requires Sound(db) && Step(db, op).Ok?
    requires op.ApproveTransfer? || op.RejectTransfer? || op.SendTransfer? || op.CancelTransfer?
    ensures Sound(Step(db, op).value)
  {
    match op
    case ApproveTransfer(id, now) => SetTransferSound(db, id, RequestStatus.APPROVED, now);
    case RejectTransfer(id, now) => SetTransferSound(db, id, RequestStatus.REJECTED, now);
    case SendTransfer(id, now) => SetTransferSound(db, id, RequestStatus.SENT, now);
    case CancelTransfer(id, now) => SetTransferSound(db, id, RequestStatus.CANCELLED, now);
  }

  lemma TransferStepSound(db: Db, op: Op)
    requires Sound(db) && Step(db, op).Ok? && (op.CreateTransfer? || op.CompleteTransfer?)
    ensures Sound(Step(db, op).value)
  {
    match op
    case CreateTransfer(from, to, lines, now) => CreateTransferSound(db, from, to, lines, now);
    case CompleteTransfer(id, snapshot, hints, now) => CompleteTransferSound(db, id, snapshot, hints, now);
  }

  lemma StockTakeStepSound(db: Db, op: Op)
    requires Sound(db) && Step(db, op).Ok?
    requires op.CreateStockTake? || op.CountItem? || op.CompleteStockTake? || op.CancelStockTake?
    ensures Sound(Step(db, op).value)
  {
    match op
    case CreateStockTake(warehouse, now) => CreateStockTakeSound(db, warehouse, now);
    case CountItem(id, item, counted) => CountItemSound(db, id, item, counted);
    case CompleteStockTake(id, apply, now) => CompleteStockTakeSound(db, id, apply, now);
    case CancelStockTake(id, now) => CancelStockTakeSound(db, id, now);
  }

  /** Every call of every service keeps the ledger sound. */
  lemma StepSound(db: Db, op: Op)
    requires Sound(db)
    ensures Sound(Next(db, op))
  {
    if Step(db, op).Ok? {
      if op.EnterItem? || op.EditItem? || op.RemoveItem? || op.RestoreItem? {
        InventoryStepSound(db, op);
      } else if op.CreateSale? || op.UpdateSale? || op.ConfirmSale? || op.CancelSale?
                || op.CreatePurchase? || op.CancelPurchase? {
        TradeStepSound(db, op);
      } else if op.CreateTransfer? || op.CompleteTransfer? {
        TransferStepSound(db, op);
      } else if op.ApproveTransfer? || op.RejectTransfer? || op.SendTransfer? || op.CancelTransfer? {
        TransferStatusSound(db, op);
      } else if op.CreateStockTake? || op.CountItem? || op.CompleteStockTake? || op.CancelStockTake? {
        StockTakeStepSound(db, op);
      } else if op.Pay? || op.VoidPayment? {
        PaymentStepSound(db, Step(db, op).value.payments);
      } else if op.CreateOutflow? || op.CancelOutflow? {
        OutflowStepSound(db, op);
      } else if op.CreateTransaction? || op.UpdateTransaction? || op.RemoveTransaction? {
        TransactionStepSound(db, op);
      } else {
        RequestStepSound(db, op);
      }
    }
  }

  /**
   In every run of every service from a sound state, each item holds what was
   entered by hand plus the effect of the documents as their status says, and
   no quantity is ever negative.
   */
  lemma {:induction false} RunSound(db: Db, ops: seq<Op>)
    requires Sound(db)
    ensures Sound(Run(db, ops))
  {
    if ops != [] {
      RunSound(db, ops[..|ops| - 1]);
      StepSound(Run(db, ops[..|ops| - 1]), ops[|ops| - 1]);
    }
  }

  /** In particular from empty tables. */
  lemma EveryRunIsSound(clients: seq<Client>, ops: seq<Op>)
    ensures Sound(Run(Empty(clients), ops))
  {
    EmptyIsSound(clients);
    RunSound(Empty(clients), ops);
  }

  lemma EmptyIsSound(clients: seq<Client>)
    ensures Sound(Empty(clients))
  {
  }
}
