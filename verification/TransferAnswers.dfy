/** Which calls on transfer requests go through, and which rows an executed transfer adds to. */
module TransferAnswers {
  import opened Seqs
  import opened Wrappers
  import opened Tables
  import opened Stock
  import opened Transfers
  import opened Rows

  // Where the units land

  /** A row of the destination for the item: same name and category, and its SKU if it has one. */
  predicate Fits(row: Item, destination: string, item: Item)
  {
    && row.warehouse == destination
    && row.name == item.name
    && row.category == item.category
    && (item.sku == None || row.sku == item.sku)
  }

  /** The SKU of a created row: none, or the item's own with the first four characters of the destination. */
  predicate IsSuffixed(sku: Option<string>, own: Option<string>, destination: string)
  {
    if own == None || own == Some("") then sku == None
    else sku == Some(own.value + "-" + (if |destination| < 4 then destination else destination[..4]))
  }

  /**
   Where line k landed, `known` rows having existed before: on a row that fits
   and was there already, or had been created for an earlier line; or on one
   created for it, in the item's name, no row before that one fitting.
   */
  ghost predicate LandedWell(
    rows: seq<Item>, known: nat, destination: string, item: Item, qty: int, landed: seq<Line>, k: nat)
    requires k < |landed|
  {
    var j := landed[k].item;
    && j < |rows|
    && landed[k].qty == qty
    && rows[j].warehouse == destination && rows[j].name == item.name && rows[j].category == item.category
    && (if j < known || exists i :: 0 <= i < k && landed[i].item == j
        then item.sku == None || rows[j].sku == item.sku
        else
          && IsSuffixed(rows[j].sku, item.sku, destination)
          && rows[j].itemType == item.itemType && !rows[j].deleted
          && forall r :: 0 <= r < j ==> !Fits(rows[r], destination, item))
  }

  /** The rows of `before` with other quantities, and perhaps more. */
  ghost predicate KeepsRows(before: seq<Item>, after: seq<Item>)
  {
    |before| <= |after| && forall j :: 0 <= j < |before| ==> after[j] == before[j].(quantity := after[j].quantity)
  }

  lemma SuffixedIs(sku: Option<string>, destination: string)
    ensures IsSuffixed(SuffixedSku(sku, destination), sku, destination)
  {
    if |destination| == 4 {
      assert destination[..4] == destination;
    }
  }

  /** Every line landed well, and every row beyond the known ones was created for one of them. */
  ghost predicate AllWell(
    rows: seq<Item>, known: nat, destination: string, lines: seq<Line>, snapshot: seq<Item>, landed: seq<Line>)
  {
    && |landed| == |lines| && known <= |rows|
    && (forall k :: 0 <= k < |lines| ==>
          lines[k].item < |snapshot|
          && LandedWell(rows, known, destination, snapshot[lines[k].item], lines[k].qty, landed, k))
    && (forall j :: known <= j < |rows| ==> Landed(landed, j))
  }

  predicate Landed(landed: seq<Line>, j: nat)
  {
    exists i :: 0 <= i < |landed| && landed[i].item == j
  }

  lemma StaysLandedWell(
    rows: seq<Item>, after: seq<Item>, known: nat, destination: string, item: Item, qty: int, landed: seq<Line>,
    more: Line, k: nat)
    requires k < |landed| && LandedWell(rows, known, destination, item, qty, landed, k) && KeepsRows(rows, after)
    ensures LandedWell(after, known, destination, item, qty, landed + [more], k)
  {
    var j := landed[k].item;
    assert forall i :: 0 <= i <= k ==> (landed + [more])[i] == landed[i];
    forall r | 0 <= r <= j
      ensures Fits(after[r], destination, item) <==> Fits(rows[r], destination, item)
    {
    }
  }

  lemma LandOneKeeps(at: Landing, destination: string, item: Item, qty: Units, hint: nat)
    requires LandOne(at, destination, item, qty, hint).Ok?
    ensures var after := LandOne(at, destination, item, qty, hint).value;
            && KeepsRows(at.items, after.items) && |after.items| <= |at.items| + 1
            && (exists l :: after.landed == at.landed + [l])
            && after.landed[|at.landed|].qty == qty
            && (|after.items| > |at.items| ==> after.landed[|at.landed|].item == |at.items|)
  {
    var after := LandOne(at, destination, item, qty, hint).value;
    assert after.landed == at.landed + [after.landed[|at.landed|]];
  }

  lemma LandOneWell(at: Landing, known: nat, destination: string, item: Item, qty: Units, hint: nat)
    requires LandOne(at, destination, item, qty, hint).Ok? && known <= |at.items|
    requires forall j :: known <= j < |at.items| ==> Landed(at.landed, j)
    requires forall i :: 0 <= i < |at.landed| ==> at.landed[i].item < |at.items|
    ensures var after := LandOne(at, destination, item, qty, hint).value;
            |after.landed| == |at.landed| + 1
            && LandedWell(after.items, known, destination, item, qty, after.landed, |at.landed|)
  {
    var after := LandOne(at, destination, item, qty, hint).value;
    var n := |at.landed|;
    var row := FindFirst(at.items, destination, item, hint);
    assert forall i :: 0 <= i < n ==> after.landed[i] == at.landed[i];
    if row.Some? {
      if row.value >= known {
        assert Landed(at.landed, row.value);
        var i :| 0 <= i < n && at.landed[i].item == row.value;
        assert after.landed[i].item == row.value;
      }
    } else {
      SuffixedIs(item.sku, destination);
      forall r | 0 <= r < |at.items| ensures !Fits(after.items[r], destination, item) {
        assert !Matches(at.items[r], destination, item);
      }
    }
  }

  lemma {:induction false} LandAllWell(
    items: seq<Item>, destination: string, lines: seq<Line>, snapshot: seq<Item>, hints: seq<nat>)
    requires LandAll(items, destination, lines, snapshot, hints).Ok?
    ensures var at := LandAll(items, destination, lines, snapshot, hints).value;
            KeepsRows(items, at.items) && AllWell(at.items, |items|, destination, lines, snapshot, at.landed)
  {
    if lines != [] {
      var n := |lines| - 1;
      var before := LandAll(items, destination, lines[..n], snapshot, hints).value;
      LandAllWell(items, destination, lines[..n], snapshot, hints);
      OneMoreWell(items, before, destination, lines, snapshot, Hint(hints, n));
    }
  }

  lemma OneMoreWell(
    items: seq<Item>, before: Landing, destination: string, lines: seq<Line>, snapshot: seq<Item>, hint: nat)
    requires lines != [] && lines[|lines| - 1].item < |snapshot| && KeepsRows(items, before.items)
    requires AllWell(before.items, |items|, destination, lines[..|lines| - 1], snapshot, before.landed)
    requires var last := lines[|lines| - 1];
             LandOne(before, destination, snapshot[last.item], last.qty, hint).Ok?
    ensures var last := lines[|lines| - 1];
            var after := LandOne(before, destination, snapshot[last.item], last.qty, hint).value;
            KeepsRows(items, after.items) && AllWell(after.items, |items|, destination, lines, snapshot, after.landed)
  {
    var n := |lines| - 1;
    var last := lines[n];
    var after := LandOne(before, destination, snapshot[last.item], last.qty, hint).value;
    forall i | 0 <= i < n ensures before.landed[i].item < |before.items| {
      assert LandedWell(
          before.items, |items|, destination, snapshot[lines[..n][i].item], lines[..n][i].qty, before.landed, i);
    }
    LandOneKeeps(before, destination, snapshot[last.item], last.qty, hint);
    LandOneWell(before, |items|, destination, snapshot[last.item], last.qty, hint);
    var more :| after.landed == before.landed + [more];
    forall k | 0 <= k < n
      ensures LandedWell(after.items, |items|, destination, snapshot[lines[k].item], lines[k].qty, after.landed, k)
    {
      assert lines[..n][k] == lines[k];
      StaysLandedWell(
        before.items, after.items, |items|, destination, snapshot[lines[k].item], lines[k].qty, before.landed, more, k);
    }
    forall j | |items| <= j < |after.items| ensures Landed(after.landed, j) {
      if j < |before.items| {
        assert Landed(before.landed, j);
        var i :| 0 <= i < n && before.landed[i].item == j;
        assert after.landed[i].item == j;
      } else {
        assert after.landed[n].item == j;
      }
    }
  }

  /**
   An executed transfer adds each line's units to one row of the destination
   warehouse, in the name and category of the item as the request read it, and
   with its SKU if it has one. Only where no row fits is one created, under the
   suffixed SKU; and no row is created but for a line.
   */
  lemma TransferLandsWell(db: Db, id: nat, snapshot: seq<Item>, hints: seq<nat>, now: int)
    requires CompleteTransfer(db, id, snapshot, hints, now).Ok?
    ensures var after := CompleteTransfer(db, id, snapshot, hints, now).value;
            && KeepsRows(db.items, after.items)
            && AllWell(
                 after.items, |db.items|, db.transfers[id].destination, db.transfers[id].lines, snapshot,
                 after.transfers[id].landed)
  {
    var request := db.transfers[id];
    TakeAllIff(db.items, request.lines);
    LandAllWell(TakeAll(db.items, request.lines).value, request.destination, request.lines, snapshot, hints);
  }

  // The life of a request

  lemma {:induction false} ValidateIff(items: seq<Item>, lines: seq<Line>, source: string)
    ensures ValidateTransfer(items, lines, source).Ok?
            <==> forall k :: 0 <= k < |lines| ==>
                   && lines[k].item < |items|
                   && items[lines[k].item].warehouse == source
                   && items[lines[k].item].quantity >= lines[k].qty
  {
    if lines != [] {
      var n := |lines| - 1;
      ValidateIff(items, lines[..n], source);
      assert forall k :: 0 <= k < n ==> lines[..n][k] == lines[k];
    }
  }

  /** A request is accepted between two warehouses if each of its lines, on its own, is in stock in the first. */
  lemma RequestIff(db: Db, source: string, destination: string, lines: seq<Line>, now: int)
    ensures var r := CreateTransfer(db, source, destination, lines, now);
            && (r.Ok? <==>
                  && source != destination
                  && forall k :: 0 <= k < |lines| ==>
                       && lines[k].item < |db.items|
                       && db.items[lines[k].item].warehouse == source
                       && db.items[lines[k].item].quantity >= lines[k].qty)
            && (r.Ok? ==> r.value == db.(transfers := db.transfers
                            + [Transfer(RequestStatus.PENDING, source, destination, None, now, lines, [])]))
  {
    ValidateIff(db.items, lines, source);
  }

  /** Who may be approved, rejected, sent and cancelled; nothing but the status and its date changes. */
  lemma RequestMovesIff(db: Db, id: nat, now: int)
    requires id < |db.transfers|
    ensures var t := db.transfers[id];
            var stocked := forall k :: 0 <= k < |t.lines| ==>
                             t.lines[k].item < |db.items| && db.items[t.lines[k].item].quantity >= t.lines[k].qty;
            && ApproveTransfer(db, id, now)
               == (if t.status != RequestStatus.PENDING then Err(INVALID_STATUS)
                   else if !stocked then Err(INSUFFICIENT_STOCK)
                   else Ok(db.(transfers := db.transfers[id := t.(status := RequestStatus.APPROVED, updatedAt := now)])))
            && RejectTransfer(db, id, now)
               == (if t.status != RequestStatus.PENDING then Err(INVALID_STATUS)
                   else Ok(db.(transfers := db.transfers[id := t.(status := RequestStatus.REJECTED, updatedAt := now)])))
            && SendTransfer(db, id, now)
               == (if t.status != RequestStatus.APPROVED then Err(INVALID_STATUS)
                   else Ok(db.(transfers := db.transfers[id := t.(status := RequestStatus.SENT, updatedAt := now)])))
            && CancelTransfer(db, id, now)
               == (if t.status in {RequestStatus.COMPLETED, RequestStatus.REJECTED, RequestStatus.CANCELLED}
                   then Err(INVALID_STATUS)
                   else Ok(db.(transfers := db.transfers[id := t.(status := RequestStatus.CANCELLED, updatedAt := now)])))
  {
  }

  /** Only a SENT request is executed, and what is written on it then. */
  lemma ExecutedRow(db: Db, id: nat, snapshot: seq<Item>, hints: seq<nat>, now: int)
    requires CompleteTransfer(db, id, snapshot, hints, now).Ok?
    ensures id < |db.transfers| && db.transfers[id].status == RequestStatus.SENT
    ensures var after := CompleteTransfer(db, id, snapshot, hints, now).value;
            && after.transfers
               == db.transfers[id := db.transfers[id].(
                    status := RequestStatus.COMPLETED, receivedAt := Some(now), updatedAt := now,
                    landed := after.transfers[id].landed)]
            && after == db.(items := after.items, transfers := after.transfers)
  {
  }
}
