/** When sales, purchases, outflows, manual transactions and discharges are accepted, and what they leave behind. */
module TradeAnswers {
  import opened Seqs
  import opened Wrappers
  import opened Tables
  import opened Stock
  import opened Ledger
  import opened MoneyAnswers
  import Money
  import Payments
  import Sales
  import Purchases
  import Outflows
  import Transactions
  import Discharges

  /** No item is named twice, and each is a live row of the warehouse. */
  predicate Orderable(items: seq<Item>, lines: seq<Line>, warehouse: string)
  {
    && (forall j, k :: 0 <= j < k < |lines| ==> lines[j].item != lines[k].item)
    && (forall k :: 0 <= k < |lines| ==>
          lines[k].item < |items| && !items[lines[k].item].deleted && items[lines[k].item].warehouse == warehouse)
  }

  lemma ValidIffOrderable(items: seq<Item>, lines: seq<Line>, warehouse: string)
    ensures Sales.ValidateLines(items, lines, warehouse).Ok? <==> Orderable(items, lines, warehouse)
  {
    assert forall k :: 0 <= k < |lines| ==> ItemsOf(lines)[k] == lines[k].item;
  }

  /** Where the rows hold the sum of the lines, they hold each of them. */
  lemma {:induction false} EnoughIsAvailable(items: seq<Item>, lines: seq<Line>)
    requires Enough(items, lines)
    ensures CheckAvailable(items, lines).Ok?
  {
    if lines != [] {
      var n := |lines| - 1;
      TakeAllIff(items, lines);
      TakeAllIff(items, lines[..n]);
      EnoughIsAvailable(items, lines[..n]);
      SumAtLeastTerm(lines, n, QtyAt(lines[n].item));
    }
  }

  lemma AvailableAndTaken(items: seq<Item>, lines: seq<Line>)
    ensures CheckAvailable(items, lines).Ok? && TakeAll(items, lines).Ok? <==> Enough(items, lines)
    ensures Enough(items, lines) ==> TakeAll(items, lines) == Ok(Taken(items, lines))
  {
    TakeAllIff(items, lines);
    if Enough(items, lines) {
      EnoughIsAvailable(items, lines);
    }
  }

  // Sales

  predicate ClientKnown(db: Db, client: Option<nat>)
  {
    client == None || client.value < |db.clients|
  }

  /** A quotation needs orderable lines and a client that exists; a sale also stock, and room in the client's credit. */
  lemma SaleIff(db: Db, dto: Sales.SaleDto, asDraft: bool, now: int)
    ensures var r := Sales.CreateSale(db, dto, asDraft, now);
            var lines := Sales.Requested(dto.lines);
            var totals := Money.ComputeTotals(Sales.Taxables(dto.lines, dto.taxPercent));
            && (r.Ok? <==>
                  && lines != [] && Orderable(db.items, lines, dto.warehouse) && ClientKnown(db, dto.client)
                  && (!asDraft ==>
                        && Sales.EnforceCreditLimit(
                             db, dto.client, dto.credit, totals.total + totals.tax, dto.currency, None).Ok?
                        && Enough(db.items, lines)))
            && (r.Ok? ==>
                  && r.value.items == (if asDraft then db.items else Taken(db.items, lines))
                  && r.value == db.(items := r.value.items, sales := r.value.sales))
  {
    ValidIffOrderable(db.items, Sales.Requested(dto.lines), dto.warehouse);
    AvailableAndTaken(db.items, Sales.Requested(dto.lines));
  }

  /** Only quotations are edited; new lines must be orderable where the sale then is, old ones be stocked there. */
  lemma EditIff(db: Db, id: nat, edit: Sales.SaleEdit)
    ensures Sales.UpdateSale(db, id, edit).Ok?
            <==> && id < |db.sales| && db.sales[id].status == SaleStatus.DRAFT
                 && var current := db.sales[id];
                    var warehouse := if edit.warehouse != None then edit.warehouse.value else current.warehouse;
                    && ClientKnown(db, if edit.client != None then edit.client.value else current.client)
                    && (edit.lines != None ==> Orderable(db.items, Sales.Requested(edit.lines.value), warehouse))
                    && (edit.lines == None && warehouse != current.warehouse ==>
                          forall k :: 0 <= k < |current.lines| && current.lines[k].item < |db.items| ==>
                            db.items[current.lines[k].item].warehouse == warehouse)
  {
    if edit.lines.Some? && id < |db.sales| {
      ValidIffOrderable(
        db.items, Sales.Requested(edit.lines.value), edit.warehouse.GetOr(db.sales[id].warehouse));
    } else if id < |db.sales| {
      var lines := db.sales[id].lines;
      assert forall k :: 0 <= k < |lines| ==> Lines(lines)[k].item == lines[k].item;
    }
  }

  /** A quotation becomes a sale exactly when its stock is there and its amounts fit the client's credit. */
  lemma ConfirmIff(db: Db, id: nat, now: int)
    ensures var r := Sales.ConfirmSale(db, id, now);
            && (r.Ok? <==>
                  && id < |db.sales| && db.sales[id].status == SaleStatus.DRAFT
                  && var s := db.sales[id];
                     var totals := Money.ComputeTotals(Sales.StoredTaxables(s.lines, Sales.Percent(s.taxPercent)));
                     && Sales.EnforceCreditLimit(
                          db, s.client, s.credit, totals.total + totals.tax, s.currency, Some(id)).Ok?
                     && Enough(db.items, Lines(s.lines)))
            && (r.Ok? ==> r.value.items == Taken(db.items, Lines(db.sales[id].lines)))
  {
    if id < |db.sales| {
      AvailableAndTaken(db.items, Lines(db.sales[id].lines));
    }
  }

  /** A quotation is always cancelled; an ACTIVE sale only with permission and once its active payments are voided. */
  lemma CancelSaleIff(db: Db, id: nat, allowed: bool, now: int)
    requires Coherent(db)
    ensures Sales.CancelSale(db, id, allowed, now)
            == (if id >= |db.sales| then Err(NOT_FOUND)
                else
                  var s := db.sales[id];
                  var cancelled := db.(sales := db.sales[id := s.(status := SaleStatus.CANCELLED, cancelledAt := Some(now))]);
                  match s.status
                  case CANCELLED => Err(INVALID_STATUS)
                  case DRAFT => Ok(cancelled)
                  case ACTIVE =>
                    if !allowed then Err(FORBIDDEN)
                    else if Received(db.payments, OfSale(id)) > 0 then Err(HAS_ACTIVE_PAYMENTS)
                    else Ok(cancelled.(items := Given(db.items, Lines(s.lines)))))
  {
    ReceivedIsPaid(db.payments, OfSale(id));
    if id < |db.sales| {
      assert SaleOk(db.sales[id], |db.items|);
      GiveAllIff(db.items, Lines(db.sales[id].lines));
    }
  }

  // Purchases

  lemma {:induction false} BulkIff(items: seq<Item>, lines: seq<Line>, warehouse: string)
    requires Sales.AllLive(items, lines)
    ensures Purchases.ValidateBulk(items, lines, warehouse).Ok?
            <==> forall k :: 0 <= k < |lines| ==>
                   items[lines[k].item].warehouse == warehouse && items[lines[k].item].itemType == BULK
  {
    if lines != [] {
      var n := |lines| - 1;
      BulkIff(items, lines[..n], warehouse);
      assert forall k :: 0 <= k < n ==> lines[..n][k] == lines[k];
    }
  }

  /** A purchase needs something to buy; its bulk lines must be orderable and not name serialized items. */
  lemma PurchaseIff(db: Db, dto: Purchases.PurchaseDto, now: int)
    ensures var r := Purchases.CreatePurchase(db, dto, now);
            var lines := Sales.Requested(dto.bulk);
            && (r.Ok? <==>
                  && (dto.bulk != [] || dto.units != [])
                  && Orderable(db.items, lines, dto.warehouse)
                  && (forall k :: 0 <= k < |lines| ==> db.items[lines[k].item].itemType == BULK))
            && (r.Ok? ==>
                  && |db.items| <= |r.value.items| && r.value.items[..|db.items|] == Given(db.items, lines)
                  && r.value == db.(items := r.value.items, purchases := r.value.purchases))
  {
    var lines := Sales.Requested(dto.bulk);
    assert forall k :: 0 <= k < |lines| ==> ItemsOf(lines)[k] == lines[k].item;
    if Sales.AllLive(db.items, lines) {
      BulkIff(db.items, lines, dto.warehouse);
    }
    GiveAllIff(db.items, lines);
  }

  /** A purchase is cancelled while ACTIVE, without serialized units or active payments, if its stock is still there. */
  lemma CancelPurchaseIff(db: Db, id: nat, now: int)
    requires Coherent(db)
    ensures var r := Purchases.CancelPurchase(db, id, now);
            && (r.Ok? <==>
                  && id < |db.purchases| && db.purchases[id].status == DocStatus.ACTIVE
                  && (forall k :: 0 <= k < |db.purchases[id].lines| ==>
                        db.purchases[id].lines[k].item < |db.items|
                        && db.items[db.purchases[id].lines[k].item].itemType == BULK)
                  && Received(db.payments, OfPurchase(id)) <= 0
                  && Enough(db.items, Lines(db.purchases[id].lines)))
            && (r.Ok? ==>
                  r.value == db.(
                    items := Taken(db.items, Lines(db.purchases[id].lines)),
                    purchases := db.purchases[id :=
                      db.purchases[id].(status := DocStatus.CANCELLED, cancelledAt := Some(now))]))
  {
    ReceivedIsPaid(db.payments, OfPurchase(id));
    if id < |db.purchases| {
      var p := db.purchases[id];
      assert PurchaseOk(p, |db.items|);
      assert forall k :: 0 <= k < |p.lines| ==> Lines(p.lines)[k].item == p.lines[k].item;
      TakeAllIff(db.items, Lines(p.lines));
    }
  }

  // Outflows and discharges

  lemma OutflowIff(db: Db, warehouse: string, lines: seq<Line>, now: int)
    ensures var r := Outflows.CreateOutflow(db, warehouse, lines, now);
            && (r.Ok? <==> lines != [] && Orderable(db.items, lines, warehouse) && Enough(db.items, lines))
            && (r.Ok? ==>
                  r.value == db.(
                    items := Taken(db.items, lines),
                    outflows := db.outflows + [Outflow(DocStatus.ACTIVE, now, None, warehouse, lines)]))
  {
    ValidIffOrderable(db.items, lines, warehouse);
    AvailableAndTaken(db.items, lines);
  }

  lemma CancelOutflowIff(db: Db, id: nat, now: int)
    requires Coherent(db)
    ensures Outflows.CancelOutflow(db, id, now)
            == (if id >= |db.outflows| then Err(NOT_FOUND)
                else if db.outflows[id].status != DocStatus.ACTIVE then Err(INVALID_STATUS)
                else
                  var o := db.outflows[id];
                  Ok(db.(
                    items := Given(db.items, o.lines),
                    outflows := db.outflows[id := o.(status := DocStatus.CANCELLED, cancelledAt := Some(now))])))
  {
    if id < |db.outflows| {
      assert OutflowOk(db.outflows[id], |db.items|);
      GiveAllIff(db.items, db.outflows[id].lines);
    }
  }

  /** A discharge is requested for rows that hold each line on its own; deleted rows are not told apart here. */
  lemma DischargeIff(db: Db, warehouse: string, lines: seq<Line>)
    ensures var r := Discharges.CreateDischarge(db, warehouse, lines);
            && (r.Ok? <==>
                  forall k :: 0 <= k < |lines| ==>
                    lines[k].item < |db.items| && db.items[lines[k].item].quantity >= lines[k].qty)
            && (r.Ok? ==>
                  r.value == db.(discharges := db.discharges + [Discharge(DischargeStatus.PENDING, warehouse, lines)]))
  {
  }

  /** A pending one is completed exactly when its stock is there, leaving an outflow of its lines; or rejected. */
  lemma DischargeMovesIff(db: Db, id: nat, now: int)
    requires id < |db.discharges|
    ensures var d := db.discharges[id];
            var r := Discharges.CompleteDischarge(db, id, now);
            && (r.Ok? <==> d.status == DischargeStatus.PENDING && Enough(db.items, d.lines))
            && (r.Ok? ==>
                  r.value == db.(
                    items := Taken(db.items, d.lines),
                    outflows := db.outflows + [Outflow(DocStatus.ACTIVE, now, None, d.warehouse, d.lines)],
                    discharges := db.discharges[id := d.(status := DischargeStatus.COMPLETED)]))
            && Discharges.RejectDischarge(db, id)
               == (if d.status != DischargeStatus.PENDING then Err(INVALID_STATUS)
                   else Ok(db.(discharges := db.discharges[id := d.(status := DischargeStatus.REJECTED)])))
  {
    AvailableAndTaken(db.items, db.discharges[id].lines);
  }

  // Manual transactions

  /** IN needs a destination, OUT a source, TRANSFER both; no item twice; and OUT needs the stock. */
  lemma TransactionIff(db: Db, t: Transaction)
    ensures var r := Transactions.CreateTransaction(db, t);
            && (r.Ok? <==>
                  && (t.kind == MoveType.IN || t.kind == MoveType.TRANSFER ==> t.destination != None)
                  && (t.kind == MoveType.OUT || t.kind == MoveType.TRANSFER ==> t.source != None)
                  && (forall j, k :: 0 <= j < k < |t.lines| ==> t.lines[j].item != t.lines[k].item)
                  && (forall k :: 0 <= k < |t.lines| ==> t.lines[k].item < |db.items|)
                  && (t.kind == MoveType.OUT ==> Enough(db.items, t.lines)))
            && (r.Ok? ==>
                  r.value == db.(
                    items := (match t.kind
                              case IN => Given(db.items, t.lines)
                              case OUT => Taken(db.items, t.lines)
                              case TRANSFER => db.items),
                    transactions := db.transactions + [Some(t)]))
  {
    assert forall k :: 0 <= k < |t.lines| ==> ItemsOf(t.lines)[k] == t.lines[k].item;
    TakeAllIff(db.items, t.lines);
    GiveAllIff(db.items, t.lines);
  }

  /** Deleting one undoes it, an IN only if its stock is still there; editing reaches its date and warehouses. */
  lemma TransactionMovesIff(db: Db, id: nat, date: int, source: Option<string>, destination: Option<string>)
    requires Coherent(db) && id < |db.transactions| && db.transactions[id].Some?
    ensures var t := db.transactions[id].value;
            var r := Transactions.RemoveTransaction(db, id);
            && (r.Ok? <==> (t.kind == MoveType.IN ==> Enough(db.items, t.lines)))
            && (r.Ok? ==>
                  r.value == db.(
                    items := (match t.kind
                              case IN => Taken(db.items, t.lines)
                              case OUT => Given(db.items, t.lines)
                              case TRANSFER => db.items),
                    transactions := db.transactions[id := None]))
            && Transactions.UpdateTransaction(db, id, date, source, destination)
               == Ok(db.(transactions := db.transactions[id :=
                    Some(Transaction(t.kind, date, source, destination, t.lines))]))
  {
    var t := db.transactions[id].value;
    assert TransactionOk(db.transactions[id], |db.items|);
    TakeAllIff(db.items, t.lines);
    GiveAllIff(db.items, t.lines);
  }
}
