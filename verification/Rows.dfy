/** Inventory rows are never dropped, and only an edit changes what a row is. */
module Rows {
  import opened Wrappers
  import opened Tables
  import opened Stock
  import opened Transfers
  import opened StockTakes
  import opened System
  import Sales

  predicate SameRow(a: Item, b: Item)
  {
    a.name == b.name && a.category == b.category && a.sku == b.sku && a.warehouse == b.warehouse
  }

  /** `after` has the rows of `before`, unchanged but for their quantities, and perhaps more. */
  ghost predicate Extends(before: seq<Item>, after: seq<Item>)
  {
    |before| <= |after| && forall i :: 0 <= i < |before| ==> SameRow(before[i], after[i])
  }

  lemma TakeExtends(items: seq<Item>, lines: seq<Line>)
    requires TakeAll(items, lines).Ok?
    ensures Extends(items, TakeAll(items, lines).value) && |TakeAll(items, lines).value| == |items|
  {
    TakeAllIff(items, lines);
  }

  lemma GiveExtends(items: seq<Item>, lines: seq<Line>)
    requires GiveAll(items, lines).Ok?
    ensures Extends(items, GiveAll(items, lines).value) && |GiveAll(items, lines).value| == |items|
  {
    GiveAllIff(items, lines);
  }

  lemma {:induction false} ApplyExtends(items: seq<Item>, lines: seq<CountLine>)
    requires ApplyVariances(items, lines).Ok?
    ensures Extends(items, ApplyVariances(items, lines).value) && |ApplyVariances(items, lines).value| == |items|
  {
    if lines != [] {
      ApplyExtends(items, lines[..|lines| - 1]);
    }
  }

  lemma {:induction false} LandExtends(
    items: seq<Item>, destination: string, lines: seq<Line>, snapshot: seq<Item>, hints: seq<nat>)
    requires LandAll(items, destination, lines, snapshot, hints).Ok?
    ensures Extends(items, LandAll(items, destination, lines, snapshot, hints).value.items)
  {
    if lines != [] {
      LandExtends(items, destination, lines[..|lines| - 1], snapshot, hints);
    }
  }

  predicate AddsRows(op: Op)
  {
    op.EnterItem? || op.CreatePurchase? || op.CompleteTransfer?
  }

  lemma SaleExtends(db: Db, op: Op)
    requires Step(db, op).Ok? && (op.CreateSale? || op.UpdateSale? || op.ConfirmSale? || op.CancelSale?)
    ensures Extends(db.items, Step(db, op).value.items) && |Step(db, op).value.items| == |db.items|
  {
    match op
    case CreateSale(dto, asDraft, now) => if !asDraft { TakeExtends(db.items, Sales.Requested(dto.lines)); }
    case UpdateSale(id, edit) =>
    case ConfirmSale(id, now) => TakeExtends(db.items, Lines(db.sales[id].lines));
    case CancelSale(id, allowed, now) =>
      if db.sales[id].status.ACTIVE? { GiveExtends(db.items, Lines(db.sales[id].lines)); }
  }

  lemma PurchaseExtends(db: Db, op: Op)
    requires Step(db, op).Ok? && (op.CreatePurchase? || op.CancelPurchase?)
    ensures Extends(db.items, Step(db, op).value.items)
    ensures !AddsRows(op) ==> |Step(db, op).value.items| == |db.items|
  {
    match op
    case CreatePurchase(purchase, now) => GiveExtends(db.items, Sales.Requested(purchase.bulk));
    case CancelPurchase(id, now) => TakeExtends(db.items, Lines(db.purchases[id].lines));
  }

  lemma IssueExtends(db: Db, op: Op)
    requires Step(db, op).Ok? && (op.CreateOutflow? || op.CancelOutflow? || op.CompleteDischarge?)
    ensures Extends(db.items, Step(db, op).value.items) && |Step(db, op).value.items| == |db.items|
  {
    match op
    case CreateOutflow(warehouse, lines, now) => TakeExtends(db.items, lines);
    case CancelOutflow(id, now) => GiveExtends(db.items, db.outflows[id].lines);
    case CompleteDischarge(id, now) => TakeExtends(db.items, db.discharges[id].lines);
  }

  lemma TransactionExtends(db: Db, op: Op)
    requires Step(db, op).Ok? && (op.CreateTransaction? || op.RemoveTransaction?)
    ensures Extends(db.items, Step(db, op).value.items) && |Step(db, op).value.items| == |db.items|
  {
    match op
    case CreateTransaction(t) =>
      if t.kind.OUT? { TakeExtends(db.items, t.lines); } else if t.kind.IN? { GiveExtends(db.items, t.lines); }
    case RemoveTransaction(id) =>
      var t := db.transactions[id].value;
      if t.kind.IN? { TakeExtends(db.items, t.lines); } else if t.kind.OUT? { GiveExtends(db.items, t.lines); }
  }

  lemma MoveExtends(db: Db, op: Op)
    requires Step(db, op).Ok?
    requires op.CompleteTransfer? || op.CompleteStockTake?
    ensures Extends(db.items, Step(db, op).value.items)
    ensures !AddsRows(op) ==> |Step(db, op).value.items| == |db.items|
  {
    match op
    case CompleteTransfer(id, snapshot, hints, now) =>
      var request := db.transfers[id];
      TakeExtends(db.items, request.lines);
      LandExtends(TakeAll(db.items, request.lines).value, request.destination, request.lines, snapshot, hints);
    case CompleteStockTake(id, apply, now) =>
      if apply { ApplyExtends(db.items, db.stockTakes[id].lines); }
  }

  predicate MovesStock(op: Op)
  {
    op.CreateSale? || op.UpdateSale? || op.ConfirmSale? || op.CancelSale? || op.CreatePurchase? || op.CancelPurchase?
    || op.CreateOutflow? || op.CancelOutflow? || op.CreateTransaction? || op.RemoveTransaction? || op.CompleteDischarge?
    || op.CompleteTransfer? || op.CompleteStockTake?
  }

  lemma OthersExtend(db: Db, op: Op)
    requires !MovesStock(op)
    ensures |db.items| <= |Next(db, op).items|
    ensures !AddsRows(op) ==> |Next(db, op).items| == |db.items|
    ensures !op.EditItem? ==> Extends(db.items, Next(db, op).items)
  {
  }

  lemma StepExtends(db: Db, op: Op)
    ensures |db.items| <= |Next(db, op).items|
    ensures !AddsRows(op) ==> |Next(db, op).items| == |db.items|
    ensures !op.EditItem? ==> Extends(db.items, Next(db, op).items)
  {
    if !MovesStock(op) {
      OthersExtend(db, op);
    } else if Step(db, op).Ok? {
      if op.CompleteTransfer? || op.CompleteStockTake? {
        MoveExtends(db, op);
      } else if op.CreateOutflow? || op.CancelOutflow? || op.CompleteDischarge? {
        IssueExtends(db, op);
      } else if op.CreateTransaction? || op.RemoveTransaction? {
        TransactionExtends(db, op);
      } else if op.CreatePurchase? || op.CancelPurchase? {
        PurchaseExtends(db, op);
      } else {
        SaleExtends(db, op);
      }
    }
  }

  lemma {:induction false} RunNeverDropsRows(db: Db, ops: seq<Op>)
    ensures |db.items| <= |Run(db, ops).items|
  {
    if ops != [] {
      RunNeverDropsRows(db, ops[..|ops| - 1]);
      StepExtends(Run(db, ops[..|ops| - 1]), ops[|ops| - 1]);
    }
  }

  /** Without direct edits, every row keeps its name, category, SKU and warehouse for good. */
  lemma {:induction false} RunExtends(db: Db, ops: seq<Op>)
    requires forall k :: 0 <= k < |ops| ==> !ops[k].EditItem?
    ensures Extends(db.items, Run(db, ops).items)
  {
    if ops != [] {
      RunExtends(db, ops[..|ops| - 1]);
      StepExtends(Run(db, ops[..|ops| - 1]), ops[|ops| - 1]);
    }
  }
}
