/** Which error a refused call gets: the first check that fails, and line by line the first line that does. */
module Refusals {
  import opened Seqs
  import opened Wrappers
  import opened Tables
  import opened Stock
  import opened TradeAnswers
  import opened MoneyAnswers
  import opened Ledger
  import opened StockTakeAnswers
  import Money
  import Sales
  import Purchases
  import Outflows
  import Transactions
  import Discharges
  import Transfers
  import StockTakes
  import Inventory

  // Stock

  predicate Gone(items: seq<Item>, item: nat)
  {
    item >= |items| || items[item].deleted
  }

  predicate Holds(items: seq<Item>, l: Line)
  {
    !Gone(items, l.item) && items[l.item].quantity >= l.qty
  }

  /** A line names a row that is gone, and every line before it is there, looked at on its own. */
  predicate GoneFirst(items: seq<Item>, lines: seq<Line>)
  {
    exists k :: 0 <= k < |lines| && Gone(items, lines[k].item) && forall j :: 0 <= j < k ==> Holds(items, lines[j])
  }

  /** A line names a row that is gone, and the rows hold everything the lines before it name. */
  ghost predicate GoneAfter(items: seq<Item>, lines: seq<Line>)
  {
    exists k :: 0 <= k < |lines| && Gone(items, lines[k].item) && Enough(items, lines[..k])
  }

  lemma {:induction false} LookRefuses(items: seq<Item>, lines: seq<Line>)
    ensures var r := CheckAvailable(items, lines);
            && (r.Ok? <==> forall k :: 0 <= k < |lines| ==> Holds(items, lines[k]))
            && (r.Err? ==> r.error == if GoneFirst(items, lines) then ITEM_NO_LONGER_AVAILABLE else INSUFFICIENT_STOCK)
  {
    if lines != [] {
      var n := |lines| - 1;
      LookRefuses(items, lines[..n]);
      assert forall k :: 0 <= k < n ==> lines[..n][k] == lines[k];
      if GoneFirst(items, lines[..n]) {
        var k :| 0 <= k < n && Gone(items, lines[..n][k].item) && forall j :: 0 <= j < k ==> Holds(items, lines[..n][j]);
        assert Gone(items, lines[k].item) && forall j :: 0 <= j < k ==> Holds(items, lines[j]);
      }
    }
  }

  lemma {:induction false} TakingRefuses(items: seq<Item>, lines: seq<Line>)
    ensures var r := TakeAll(items, lines);
            && (r.Ok? <==> Enough(items, lines))
            && (r.Err? ==> r.error == if GoneAfter(items, lines) then ITEM_NO_LONGER_AVAILABLE else INSUFFICIENT_STOCK)
  {
    TakeAllIff(items, lines);
    if lines != [] {
      var n := |lines| - 1;
      TakingRefuses(items, lines[..n]);
      TakeAllIff(items, lines[..n]);
      GoneAfterSnoc(items, lines);
      if Enough(items, lines[..n]) {
        EnoughNotGone(items, lines[..n]);
      }
    }
  }

  lemma EnoughNotGone(items: seq<Item>, lines: seq<Line>)
    requires Enough(items, lines)
    ensures !GoneAfter(items, lines)
  {
    forall k | 0 <= k < |lines| ensures !Gone(items, lines[k].item) {
      SumAtLeastTerm(lines, k, QtyAt(lines[k].item));
    }
  }

  lemma GoneAfterSnoc(items: seq<Item>, lines: seq<Line>)
    requires lines != []
    ensures var n := |lines| - 1;
            GoneAfter(items, lines)
            <==> GoneAfter(items, lines[..n]) || (Gone(items, lines[n].item) && Enough(items, lines[..n]))
  {
    var n := |lines| - 1;
    forall k | 0 <= k < n ensures lines[..n][k] == lines[k] && lines[..n][..k] == lines[..k] {
    }
    if GoneAfter(items, lines[..n]) {
      var k :| 0 <= k < n && Gone(items, lines[..n][k].item) && Enough(items, lines[..n][..k]);
      assert Gone(items, lines[k].item) && Enough(items, lines[..k]);
    }
    if GoneAfter(items, lines) {
      var k :| 0 <= k < |lines| && Gone(items, lines[k].item) && Enough(items, lines[..k]);
      if k < n {
        assert Gone(items, lines[..n][k].item) && Enough(items, lines[..n][..k]);
      }
    }
  }

  /** Looked at and then taken: the look refuses first, and what it let pass is short only because items repeat. */
  lemma LookThenTake(items: seq<Item>, lines: seq<Line>)
    ensures CheckAvailable(items, lines).Err? ==>
              CheckAvailable(items, lines).error
              == if GoneFirst(items, lines) then ITEM_NO_LONGER_AVAILABLE else INSUFFICIENT_STOCK
    ensures CheckAvailable(items, lines).Ok? && TakeAll(items, lines).Err? ==>
              !GoneFirst(items, lines) && TakeAll(items, lines).error == INSUFFICIENT_STOCK
  {
    LookRefuses(items, lines);
    TakingRefuses(items, lines);
  }

  // Lines

  predicate Repeats(lines: seq<Line>)
  {
    exists j, k :: 0 <= j < k < |lines| && lines[j].item == lines[k].item
  }

  predicate NamesGone(items: seq<Item>, lines: seq<Line>)
  {
    exists k :: 0 <= k < |lines| && Gone(items, lines[k].item)
  }

  lemma LinesRefused(items: seq<Item>, lines: seq<Line>, warehouse: string)
    ensures var r := Sales.ValidateLines(items, lines, warehouse);
            r.Err? ==>
              r.error == if Repeats(lines) then DUPLICATE_INVENTORY_ITEM
                         else if NamesGone(items, lines) then NOT_FOUND
                         else ITEM_NOT_IN_WAREHOUSE
  {
    assert forall k :: 0 <= k < |lines| ==> ItemsOf(lines)[k] == lines[k].item;
  }

  // Sales

  lemma SaleRefused(db: Db, dto: Sales.SaleDto, asDraft: bool, now: int)
    ensures var r, lines := Sales.CreateSale(db, dto, asDraft, now), Sales.Requested(dto.lines);
            var totals := Money.ComputeTotals(Sales.Taxables(dto.lines, dto.taxPercent));
            var credit :=
              Sales.EnforceCreditLimit(db, dto.client, dto.credit, totals.total + totals.tax, dto.currency, None);
            r.Err? ==>
              r.error == if lines == [] then ITEMS_REQUIRED
                         else if Repeats(lines) then DUPLICATE_INVENTORY_ITEM
                         else if NamesGone(db.items, lines) then NOT_FOUND
                         else if !Orderable(db.items, lines, dto.warehouse) then ITEM_NOT_IN_WAREHOUSE
                         else if !asDraft && credit.Err? then credit.error
                         else if !asDraft && !Enough(db.items, lines) then INSUFFICIENT_STOCK
                         else NOT_FOUND
  {
    var lines := Sales.Requested(dto.lines);
    LinesRefused(db.items, lines, dto.warehouse);
    ValidIffOrderable(db.items, lines, dto.warehouse);
    LookThenTake(db.items, lines);
    AvailableAndTaken(db.items, lines);
  }

  lemma EditRefused(db: Db, id: nat, edit: Sales.SaleEdit)
    ensures var r := Sales.UpdateSale(db, id, edit);
            r.Err? ==>
              if id >= |db.sales| then r.error == NOT_FOUND
              else if db.sales[id].status != SaleStatus.DRAFT then r.error == INVALID_STATUS
              else
                var current := db.sales[id];
                var warehouse := if edit.warehouse != None then edit.warehouse.value else current.warehouse;
                if edit.lines != None && !Orderable(db.items, Sales.Requested(edit.lines.value), warehouse) then
                  r.error == (if Repeats(Sales.Requested(edit.lines.value)) then DUPLICATE_INVENTORY_ITEM
                              else if NamesGone(db.items, Sales.Requested(edit.lines.value)) then NOT_FOUND
                              else ITEM_NOT_IN_WAREHOUSE)
                else if edit.lines == None && warehouse != current.warehouse
                     && (exists k :: 0 <= k < |current.lines| && current.lines[k].item < |db.items|
                                     && db.items[current.lines[k].item].warehouse != warehouse)
                then r.error == ITEM_NOT_IN_WAREHOUSE
                else r.error == NOT_FOUND
  {
    if id < |db.sales| {
      var warehouse := edit.warehouse.GetOr(db.sales[id].warehouse);
      if edit.lines.Some? {
        LinesRefused(db.items, Sales.Requested(edit.lines.value), warehouse);
        ValidIffOrderable(db.items, Sales.Requested(edit.lines.value), warehouse);
      } else {
        var lines := db.sales[id].lines;
        assert forall k :: 0 <= k < |lines| ==> Lines(lines)[k].item == lines[k].item;
      }
    }
  }

  lemma ConfirmRefused(db: Db, id: nat, now: int)
    ensures var r := Sales.ConfirmSale(db, id, now);
            r.Err? ==>
              if id >= |db.sales| then r.error == NOT_FOUND
              else if db.sales[id].status != SaleStatus.DRAFT then r.error == INVALID_STATUS
              else
                var s := db.sales[id];
                var totals := Money.ComputeTotals(Sales.StoredTaxables(s.lines, Sales.Percent(s.taxPercent)));
                var credit :=
                  Sales.EnforceCreditLimit(db, s.client, s.credit, totals.total + totals.tax, s.currency, Some(id));
                r.error == if credit.Err? then credit.error
                           else if GoneFirst(db.items, Lines(s.lines)) then ITEM_NO_LONGER_AVAILABLE
                           else INSUFFICIENT_STOCK
  {
    if id < |db.sales| {
      LookThenTake(db.items, Lines(db.sales[id].lines));
    }
  }

  // Purchases

  /** A line names a row of another warehouse, and every line before it a bulk row of this one. */
  predicate ElsewhereFirst(items: seq<Item>, lines: seq<Line>, warehouse: string)
    requires Sales.AllLive(items, lines)
  {
    exists k :: 0 <= k < |lines| && items[lines[k].item].warehouse != warehouse && BulkHere(items, lines[..k], warehouse)
  }

  predicate BulkHere(items: seq<Item>, lines: seq<Line>, warehouse: string)
    requires Sales.AllLive(items, lines)
  {
    forall k :: 0 <= k < |lines| ==>
      items[lines[k].item].warehouse == warehouse && items[lines[k].item].itemType == BULK
  }

  lemma ElsewhereSnoc(items: seq<Item>, lines: seq<Line>, warehouse: string)
    requires Sales.AllLive(items, lines) && lines != []
    ensures var n := |lines| - 1;
            ElsewhereFirst(items, lines, warehouse)
            <==> || ElsewhereFirst(items, lines[..n], warehouse)
                 || (items[lines[n].item].warehouse != warehouse && BulkHere(items, lines[..n], warehouse))
  {
    var n := |lines| - 1;
    forall k | 0 <= k < n ensures lines[..n][k] == lines[k] && lines[..n][..k] == lines[..k] {
    }
    if k :| 0 <= k < n && items[lines[..n][k].item].warehouse != warehouse && BulkHere(items, lines[..n][..k], warehouse) {
      assert items[lines[k].item].warehouse != warehouse && BulkHere(items, lines[..k], warehouse);
    }
    if k :| 0 <= k < |lines| && items[lines[k].item].warehouse != warehouse && BulkHere(items, lines[..k], warehouse) {
      if k < n {
        assert items[lines[..n][k].item].warehouse != warehouse && BulkHere(items, lines[..n][..k], warehouse);
      }
    }
  }

  lemma {:induction false} BulkRefused(items: seq<Item>, lines: seq<Line>, warehouse: string)
    requires Sales.AllLive(items, lines)
    ensures var r := Purchases.ValidateBulk(items, lines, warehouse);
            && (r.Ok? <==> BulkHere(items, lines, warehouse))
            && (r.Err? ==>
                  r.error == if ElsewhereFirst(items, lines, warehouse) then ITEM_NOT_IN_WAREHOUSE
                             else UNIQUE_ITEM_NOT_BULK_PURCHASABLE)
  {
    BulkIff(items, lines, warehouse);
    if lines != [] {
      var n := |lines| - 1;
      BulkRefused(items, lines[..n], warehouse);
      ElsewhereSnoc(items, lines, warehouse);
      if BulkHere(items, lines[..n], warehouse) {
        assert !ElsewhereFirst(items, lines[..n], warehouse);
      }
    }
  }

  lemma PurchaseRefused(db: Db, dto: Purchases.PurchaseDto, now: int)
    ensures var r, lines := Purchases.CreatePurchase(db, dto, now), Sales.Requested(dto.bulk);
            r.Err? ==>
              r.error == if dto.bulk == [] && dto.units == [] then ITEMS_REQUIRED
                         else if Repeats(lines) then DUPLICATE_INVENTORY_ITEM
                         else if NamesGone(db.items, lines) then NOT_FOUND
                         else if ElsewhereFirst(db.items, lines, dto.warehouse) then ITEM_NOT_IN_WAREHOUSE
                         else UNIQUE_ITEM_NOT_BULK_PURCHASABLE
  {
    var lines := Sales.Requested(dto.bulk);
    if !NamesGone(db.items, lines) {
      BulkRefused(db.items, lines, dto.warehouse);
    }
    assert forall k :: 0 <= k < |lines| ==> ItemsOf(lines)[k] == lines[k].item;
    GiveAllIff(db.items, lines);
  }

  lemma CancelPurchaseRefused(db: Db, id: nat, now: int)
    ensures var r := Purchases.CancelPurchase(db, id, now);
            r.Err? ==>
              if id >= |db.purchases| then r.error == NOT_FOUND
              else if db.purchases[id].status != DocStatus.ACTIVE then r.error == INVALID_STATUS
              else
                var lines := Lines(db.purchases[id].lines);
                r.error == if exists k :: 0 <= k < |lines| && lines[k].item < |db.items|
                                          && db.items[lines[k].item].itemType == UNIQUE
                           then HAS_SERIALIZED_ITEMS
                           else if Received(db.payments, OfPurchase(id)) > 0 then HAS_ACTIVE_PAYMENTS
                           else if GoneAfter(db.items, lines) then ITEM_NO_LONGER_AVAILABLE
                           else INSUFFICIENT_STOCK
  {
    ReceivedIsPaid(db.payments, OfPurchase(id));
    if id < |db.purchases| {
      TakingRefuses(db.items, Lines(db.purchases[id].lines));
    }
  }

  // Outflows, discharges and manual transactions

  lemma OutflowRefused(db: Db, warehouse: string, lines: seq<Line>, now: int)
    ensures var r := Outflows.CreateOutflow(db, warehouse, lines, now);
            r.Err? ==>
              r.error == if lines == [] then ITEMS_REQUIRED
                         else if Repeats(lines) then DUPLICATE_INVENTORY_ITEM
                         else if NamesGone(db.items, lines) then NOT_FOUND
                         else if !Orderable(db.items, lines, warehouse) then ITEM_NOT_IN_WAREHOUSE
                         else INSUFFICIENT_STOCK
  {
    LinesRefused(db.items, lines, warehouse);
    ValidIffOrderable(db.items, lines, warehouse);
    LookThenTake(db.items, lines);
  }

  lemma DischargeRefused(db: Db, warehouse: string, lines: seq<Line>, id: nat, now: int)
    ensures var r := Discharges.CreateDischarge(db, warehouse, lines);
            r.Err? ==>
              r.error == if exists k :: 0 <= k < |lines| && lines[k].item >= |db.items| then NOT_FOUND
                         else INSUFFICIENT_STOCK
    ensures var r := Discharges.CompleteDischarge(db, id, now);
            r.Err? ==>
              r.error == if id >= |db.discharges| then NOT_FOUND
                         else if db.discharges[id].status != DischargeStatus.PENDING then INVALID_STATUS
                         else if GoneFirst(db.items, db.discharges[id].lines) then ITEM_NO_LONGER_AVAILABLE
                         else INSUFFICIENT_STOCK
    ensures id >= |db.discharges| ==> Discharges.RejectDischarge(db, id) == Err(NOT_FOUND)
  {
    if id < |db.discharges| {
      LookThenTake(db.items, db.discharges[id].lines);
    }
  }

  lemma TransactionRefused(db: Db, t: Transaction, id: nat, date: int, source: Option<string>, destination: Option<string>)
    ensures var r := Transactions.CreateTransaction(db, t);
            r.Err? ==>
              r.error == if (t.kind != MoveType.OUT && t.destination == None) || (t.kind != MoveType.IN && t.source == None)
                         then WAREHOUSE_REQUIRED
                         else if Repeats(t.lines) || (exists k :: 0 <= k < |t.lines| && t.lines[k].item >= |db.items|)
                         then NOT_FOUND
                         else if GoneAfter(db.items, t.lines) then ITEM_NO_LONGER_AVAILABLE
                         else INSUFFICIENT_STOCK
    ensures id >= |db.transactions| || db.transactions[id] == None ==>
              Transactions.RemoveTransaction(db, id) == Err(NOT_FOUND)
              && Transactions.UpdateTransaction(db, id, date, source, destination) == Err(NOT_FOUND)
    ensures id < |db.transactions| && db.transactions[id] == Some(t) && t.kind == MoveType.IN ==>
              var r := Transactions.RemoveTransaction(db, id);
              r.Err? ==> r.error == if GoneAfter(db.items, t.lines) then ITEM_NO_LONGER_AVAILABLE else INSUFFICIENT_STOCK
  {
    assert forall k :: 0 <= k < |t.lines| ==> ItemsOf(t.lines)[k] == t.lines[k].item;
    TakingRefuses(db.items, t.lines);
    GiveAllIff(db.items, t.lines);
  }

  // Transfers and stock takes

  lemma {:induction false} RequestRefused(items: seq<Item>, lines: seq<Line>, source: string, k: nat)
    requires k < |lines|
    requires forall j :: 0 <= j < k ==>
               && lines[j].item < |items| && items[lines[j].item].warehouse == source
               && items[lines[j].item].quantity >= lines[j].qty
    requires lines[k].item < |items| && items[lines[k].item].warehouse == source ==>
               items[lines[k].item].quantity < lines[k].qty
    ensures Transfers.ValidateTransfer(items, lines, source)
            == Err(if lines[k].item >= |items| then NOT_FOUND
                   else if items[lines[k].item].warehouse != source then ITEM_NOT_IN_SOURCE_WAREHOUSE
                   else INSUFFICIENT_STOCK)
  {
    var n := |lines| - 1;
    if k < n {
      RequestRefused(items, lines[..n], source, k);
    } else {
      TransferPrefixOk(items, lines[..n], source);
    }
  }

  lemma {:induction false} TransferPrefixOk(items: seq<Item>, lines: seq<Line>, source: string)
    requires forall j :: 0 <= j < |lines| ==>
               && lines[j].item < |items| && items[lines[j].item].warehouse == source
               && items[lines[j].item].quantity >= lines[j].qty
    ensures Transfers.ValidateTransfer(items, lines, source).Ok?
  {
    if lines != [] {
      TransferPrefixOk(items, lines[..|lines| - 1], source);
    }
  }

  lemma TransferRefused(
    db: Db, source: string, destination: string, lines: seq<Line>, id: nat, snapshot: seq<Item>, hints: seq<nat>, now: int)
    ensures Transfers.CreateTransfer(db, source, destination, lines, now).Err? ==>
              Transfers.CreateTransfer(db, source, destination, lines, now).error
              == if source == destination then SAME_SOURCE_AND_DESTINATION
                 else Transfers.ValidateTransfer(db.items, lines, source).error
    ensures id >= |db.transfers| ==>
              && Transfers.ApproveTransfer(db, id, now) == Err(NOT_FOUND)
              && Transfers.RejectTransfer(db, id, now) == Err(NOT_FOUND)
              && Transfers.SendTransfer(db, id, now) == Err(NOT_FOUND)
              && Transfers.CancelTransfer(db, id, now) == Err(NOT_FOUND)
              && Transfers.CompleteTransfer(db, id, snapshot, hints, now) == Err(NOT_FOUND)
    ensures id < |db.transfers| && db.transfers[id].status != RequestStatus.SENT ==>
              Transfers.CompleteTransfer(db, id, snapshot, hints, now) == Err(INVALID_STATUS)
    ensures id < |db.transfers| && db.transfers[id].status == RequestStatus.SENT && !Enough(db.items, db.transfers[id].lines) ==>
              Transfers.CompleteTransfer(db, id, snapshot, hints, now)
              == Err(if GoneAfter(db.items, db.transfers[id].lines) then ITEM_NO_LONGER_AVAILABLE else INSUFFICIENT_STOCK)
  {
    if id < |db.transfers| {
      TakingRefuses(db.items, db.transfers[id].lines);
    }
  }

  /** The first row that cannot lose what was counted too little decides. */
  lemma {:induction false} CountsRefused(items: seq<Item>, lines: seq<CountLine>, k: nat)
    requires Countable(items, lines) && k < |lines| && AllCanLose(items, lines[..k])
    requires lines[k].item < |items| && !CanLose(items, lines[k])
    ensures StockTakes.ApplyVariances(items, lines)
            == Err(if items[lines[k].item].deleted then ITEM_NO_LONGER_AVAILABLE else INSUFFICIENT_STOCK)
  {
    var n := |lines| - 1;
    CountablePrefix(items, lines);
    if k < n {
      assert lines[..n][..k] == lines[..k];
      CountsRefused(items, lines[..n], k);
    } else {
      AppliesIff(items, lines[..n]);
    }
  }

  lemma StockTakeRefused(db: Db, id: nat, apply: bool, now: int)
    ensures var r := StockTakes.CompleteStockTake(db, id, apply, now);
            r.Err? ==>
              if id >= |db.stockTakes| then r.error == NOT_FOUND
              else if db.stockTakes[id].status != StockTakeStatus.IN_PROGRESS then r.error == INVALID_STATUS
              else if exists k :: 0 <= k < |db.stockTakes[id].lines| && db.stockTakes[id].lines[k].counted == None
              then r.error == STOCK_TAKE_ITEMS_NOT_COUNTED
              else apply && StockTakes.ApplyVariances(db.items, db.stockTakes[id].lines) == Err(r.error)
  {
  }

  /** A missing row is told from one that is there, a taken SKU and a row that is not deleted. */
  lemma RowRefused(
    db: Db, id: nat, name: string, category: string, sku: Option<string>, warehouse: string, itemType: ItemType,
    quantity: nat)
    ensures var r := Inventory.EnterItem(db, name, category, sku, warehouse, itemType, quantity);
            r.Err? ==> r.error == SKU_ALREADY_EXISTS
    ensures var r := Inventory.EditItem(db, id, name, category, sku, warehouse, itemType, quantity);
            r.Err? ==> r.error == if id >= |db.items| then NOT_FOUND else SKU_ALREADY_EXISTS
    ensures id >= |db.items| ==>
              Inventory.RemoveItem(db, id) == Err(NOT_FOUND) && Inventory.RestoreItem(db, id) == Err(NOT_FOUND)
    ensures id < |db.items| && !db.items[id].deleted ==> Inventory.RestoreItem(db, id) == Err(ITEM_NOT_DELETED)
  {
  }
}
