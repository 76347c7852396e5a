/** What opening, counting, completing and cancelling a stock take answer, and edits of inventory rows. */
module StockTakeAnswers {
  import opened Seqs
  import opened Wrappers
  import opened Tables
  import opened Stock
  import opened StockTakes
  import opened Ledger
  import Inventory

  // Opening one

  /** The item is on the list. */
  predicate Lists(lines: seq<CountLine>, x: nat)
  {
    exists k :: 0 <= k < |lines| && lines[k].item == x
  }

  lemma ListsSnoc(lines: seq<CountLine>, l: CountLine, x: nat)
    ensures Lists(lines + [l], x) <==> Lists(lines, x) || l.item == x
  {
    assert (lines + [l])[|lines|] == l;
    if Lists(lines, x) {
      var k :| 0 <= k < |lines| && lines[k].item == x;
      assert (lines + [l])[k].item == x;
    }
  }

  lemma {:induction false} OpenLinesList(items: seq<Item>, warehouse: string, x: nat)
    ensures Lists(OpenLines(items, warehouse), x)
            <==> x < |items| && !items[x].deleted && items[x].warehouse == warehouse
    ensures forall k :: 0 <= k < |OpenLines(items, warehouse)| ==>
              var l := OpenLines(items, warehouse)[k];
              l.item < |items| && l == CountLine(l.item, items[l.item].quantity, None, None)
  {
    if items != [] {
      var n := |items| - 1;
      OpenLinesList(items[..n], warehouse, x);
      ListsSnoc(OpenLines(items[..n], warehouse), CountLine(n, items[n].quantity, None, None), x);
      assert OpenLines(items[..n], warehouse) + [] == OpenLines(items[..n], warehouse);
    }
  }

  /**
   A stock take is opened exactly when none of the warehouse is in progress. It
   then has one line for each live row of the warehouse, uncounted, expecting
   what the row holds, and no other line.
   */
  lemma OpeningIff(db: Db, warehouse: string, now: int)
    ensures var r := CreateStockTake(db, warehouse, now);
            && (r.Ok? <==>
                  forall k :: 0 <= k < |db.stockTakes| ==>
                    !(db.stockTakes[k].warehouse == warehouse && db.stockTakes[k].status == StockTakeStatus.IN_PROGRESS))
            && (r.Err? ==> r == Err(STOCK_TAKE_ALREADY_IN_PROGRESS))
            && (r.Ok? ==>
                  && |r.value.stockTakes| == |db.stockTakes| + 1
                  && r.value == db.(stockTakes := db.stockTakes + [r.value.stockTakes[|db.stockTakes|]])
                  && var st := r.value.stockTakes[|db.stockTakes|];
                     && st == StockTake(StockTakeStatus.IN_PROGRESS, warehouse, false, None, now, st.lines)
                     && (forall x: nat ::
                           Lists(st.lines, x) <==> x < |db.items| && !db.items[x].deleted && db.items[x].warehouse == warehouse)
                     && (forall j, k :: 0 <= j < k < |st.lines| ==> st.lines[j].item != st.lines[k].item)
                     && (forall k :: 0 <= k < |st.lines| ==>
                           var l := st.lines[k];
                           l.item < |db.items| && l == CountLine(l.item, db.items[l.item].quantity, None, None)))
  {
    forall x: nat
      ensures Lists(OpenLines(db.items, warehouse), x) <==> x < |db.items| && !db.items[x].deleted && db.items[x].warehouse == warehouse
    {
      OpenLinesList(db.items, warehouse, x);
    }
    OpenLinesList(db.items, warehouse, 0);
    OpenLinesAreFresh(db.items, warehouse);
  }

  // Counting

  /** The one line of an item, or none. */
  lemma {:induction false} FoundLine(lines: seq<CountLine>, k: nat)
    requires k < |lines| && forall j :: 0 <= j < |lines| && j != k ==> lines[j].item != lines[k].item
    ensures FindLine(lines, lines[k].item) == Some(k)
  {
    var n := |lines| - 1;
    if k < n {
      FoundLine(lines[..n], k);
    }
  }

  /**
   Counting an item writes, on its one line, what was counted, what the row
   holds at that moment and the difference; everything else stays. It is
   refused once the stock take is closed, and for an item not on it.
   */
  lemma CountIff(db: Db, id: nat, item: nat, counted: nat)
    requires Coherent(db)
    ensures var r := CountItem(db, id, item, counted);
            var onIt := id < |db.stockTakes| && Lists(db.stockTakes[id].lines, item);
            && (r.Ok? <==> id < |db.stockTakes| && db.stockTakes[id].status == StockTakeStatus.IN_PROGRESS && onIt)
            && (r.Err? ==>
                  r.error == if id < |db.stockTakes| && db.stockTakes[id].status != StockTakeStatus.IN_PROGRESS
                             then INVALID_STATUS else NOT_FOUND)
            && (forall k :: id < |db.stockTakes| && 0 <= k < |db.stockTakes[id].lines| && r.Ok? && db.stockTakes[id].lines[k].item == item ==>
                  && item < |db.items|
                  && var st, held := db.stockTakes[id], db.items[item].quantity;
                     r.value == db.(stockTakes := db.stockTakes[id :=
                       st.(lines := st.lines[k := CountLine(item, held, Some(counted), Some(counted - held))])]))
  {
    if id < |db.stockTakes| {
      var lines := db.stockTakes[id].lines;
      assert StockTakeOk(db.stockTakes[id], |db.items|);
      forall k | 0 <= k < |lines| && lines[k].item == item ensures FindLine(lines, item) == Some(k) && item < |db.items| {
        FoundLine(lines, k);
        assert CountLineOk(lines[k], |db.items|);
      }
    }
  }

  // Completing

  /** What a line was counted above what was expected of it. */
  function Difference(l: CountLine): int
  {
    if l.counted != None then l.counted.value - l.expected else 0
  }

  /** The row is live and holds what the line lost, if it lost any. */
  predicate CanLose(items: seq<Item>, l: CountLine)
    requires l.item < |items|
  {
    Difference(l) < 0 ==> !items[l.item].deleted && items[l.item].quantity + Difference(l) >= 0
  }

  ghost predicate Countable(items: seq<Item>, lines: seq<CountLine>)
  {
    && (forall k :: 0 <= k < |lines| ==> CountLineOk(lines[k], |items|))
    && (forall j, k :: 0 <= j < k < |lines| ==> lines[j].item != lines[k].item)
  }

  lemma AppliesOne(items: seq<Item>, l: CountLine)
    requires CountLineOk(l, |items|)
    ensures ApplyOne(items, l).Ok? <==> CanLose(items, l)
    ensures ApplyOne(items, l).Ok? ==>
              ApplyOne(items, l).value
              == items[l.item := items[l.item].(quantity := items[l.item].quantity + Difference(l))]
  {
    if Difference(l) == 0 {
      assert items[l.item := items[l.item]] == items;
    }
  }

  /** Every listed row has moved by its difference, and no other row has moved. */
  ghost predicate Adjusted(items: seq<Item>, lines: seq<CountLine>, after: seq<Item>)
  {
    && |after| == |items|
    && (forall k :: 0 <= k < |lines| ==>
          lines[k].item < |items|
          && after[lines[k].item]
             == items[lines[k].item].(quantity := items[lines[k].item].quantity + Difference(lines[k])))
    && (forall i: nat :: i < |items| && !Lists(lines, i) ==> after[i] == items[i])
  }

  lemma AdjustedSnoc(items: seq<Item>, lines: seq<CountLine>, l: CountLine, after: seq<Item>)
    requires Adjusted(items, lines, after) && l.item < |items| && !Lists(lines, l.item)
    ensures Adjusted(
              items, lines + [l], after[l.item := after[l.item].(quantity := after[l.item].quantity + Difference(l))])
  {
    forall i: nat ensures Lists(lines + [l], i) <==> Lists(lines, i) || l.item == i {
      ListsSnoc(lines, l, i);
    }
    forall k | 0 <= k < |lines| ensures lines[k].item != l.item {
      assert Lists(lines, lines[k].item);
    }
  }

  ghost predicate AllCanLose(items: seq<Item>, lines: seq<CountLine>)
  {
    forall k :: 0 <= k < |lines| ==> lines[k].item < |items| && CanLose(items, lines[k])
  }

  lemma AllCanLoseSnoc(items: seq<Item>, lines: seq<CountLine>, l: CountLine)
    requires l.item < |items|
    ensures AllCanLose(items, lines + [l]) <==> AllCanLose(items, lines) && CanLose(items, l)
  {
    assert (lines + [l])[|lines|] == l;
    assert forall k :: 0 <= k < |lines| ==> (lines + [l])[k] == lines[k];
  }

  lemma AppliesStep(items: seq<Item>, lines: seq<CountLine>, l: CountLine, before: seq<Item>)
    requires CountLineOk(l, |items|) && Adjusted(items, lines, before) && !Lists(lines, l.item)
    ensures ApplyOne(before, l).Ok? <==> CanLose(items, l)
    ensures ApplyOne(before, l).Ok? ==> Adjusted(items, lines + [l], ApplyOne(before, l).value)
  {
    AppliesOne(before, l);
    AdjustedSnoc(items, lines, l, before);
  }

  /** Applying the counts goes through exactly when every row can lose what was lost, and moves each by its difference. */
  lemma {:induction false} AppliesIff(items: seq<Item>, lines: seq<CountLine>)
    requires Countable(items, lines)
    ensures ApplyVariances(items, lines).Ok? <==> AllCanLose(items, lines)
    ensures ApplyVariances(items, lines).Ok? ==> Adjusted(items, lines, ApplyVariances(items, lines).value)
  {
    if lines != [] {
      var n := |lines| - 1;
      var rest, last := lines[..n], lines[n];
      assert lines == rest + [last];
      CountablePrefix(items, lines);
      AppliesIff(items, rest);
      AllCanLoseSnoc(items, rest, last);
      if ApplyVariances(items, rest).Ok? {
        AppliesStep(items, rest, last, ApplyVariances(items, rest).value);
      }
    }
  }

  lemma CountablePrefix(items: seq<Item>, lines: seq<CountLine>)
    requires Countable(items, lines) && lines != []
    ensures Countable(items, lines[..|lines| - 1])
    ensures CountLineOk(lines[|lines| - 1], |items|) && !Lists(lines[..|lines| - 1], lines[|lines| - 1].item)
  {
    assert forall k :: 0 <= k < |lines| - 1 ==> lines[..|lines| - 1][k] == lines[k];
  }

  /** A stock take is completed exactly when it is in progress, fully counted and, if its changes are applied, they can be. */
  lemma CompletionIff(db: Db, id: nat, apply: bool, now: int)
    requires Coherent(db)
    ensures var r := CompleteStockTake(db, id, apply, now);
            && (r.Ok? <==>
                  && id < |db.stockTakes| && db.stockTakes[id].status == StockTakeStatus.IN_PROGRESS
                  && (forall k :: 0 <= k < |db.stockTakes[id].lines| ==> db.stockTakes[id].lines[k].counted != None)
                  && (apply ==> AllCanLose(db.items, db.stockTakes[id].lines)))
            && (r.Ok? ==>
                  && (if apply then Adjusted(db.items, db.stockTakes[id].lines, r.value.items) else r.value.items == db.items)
                  && r.value == db.(items := r.value.items, stockTakes := db.stockTakes[id := db.stockTakes[id].(
                       status := StockTakeStatus.COMPLETED, completedAt := Some(now), updatedAt := now, applied := apply)]))
  {
    if id < |db.stockTakes| {
      assert StockTakeOk(db.stockTakes[id], |db.items|);
      assert Countable(db.items, db.stockTakes[id].lines);
      AppliesIff(db.items, db.stockTakes[id].lines);
    }
  }

  /** Any stock take not completed can be cancelled, which moves nothing. */
  lemma CancelIff(db: Db, id: nat, now: int)
    ensures CancelStockTake(db, id, now)
            == (if id >= |db.stockTakes| then Err(NOT_FOUND)
                else if db.stockTakes[id].status == StockTakeStatus.COMPLETED then Err(INVALID_STATUS)
                else Ok(db.(stockTakes := db.stockTakes[id :=
                  db.stockTakes[id].(status := StockTakeStatus.CANCELLED, updatedAt := now)])))
  {
  }

  // Inventory rows

  /** Rows are entered and edited unless another row, even a deleted one, has the SKU; what is entered by hand is booked. */
  lemma RowsIff(
    db: Db, id: nat, name: string, category: string, sku: Option<string>, warehouse: string, itemType: ItemType,
    quantity: nat)
    ensures var entered := Inventory.EnterItem(db, name, category, sku, warehouse, itemType, quantity);
            && (entered.Ok? <==> sku == None || forall j :: 0 <= j < |db.items| ==> db.items[j].sku != sku)
            && (entered.Ok? ==>
                  entered.value == db.(items := db.items
                    + [Item(name, category, sku, warehouse, itemType, quantity, false, quantity)]))
    ensures var edited := Inventory.EditItem(db, id, name, category, sku, warehouse, itemType, quantity);
            && (edited.Ok? <==>
                  id < |db.items| && (sku == None || forall j :: 0 <= j < |db.items| && j != id ==> db.items[j].sku != sku))
            && (edited.Ok? ==>
                  var row := db.items[id];
                  edited.value == db.(items := db.items[id := Item(
                    name, category, sku, warehouse, itemType, quantity, row.deleted,
                    row.entered + quantity - row.quantity)]))
  {
  }

  /** Removing marks the row and restoring unmarks it; its quantity stays. */
  lemma RemovalIff(db: Db, id: nat)
    ensures Inventory.RemoveItem(db, id).Ok? <==> id < |db.items|
    ensures Inventory.RestoreItem(db, id).Ok? <==> id < |db.items| && db.items[id].deleted
    ensures id < |db.items| ==>
              Inventory.RemoveItem(db, id) == Ok(db.(items := db.items[id := db.items[id].(deleted := true)]))
    ensures id < |db.items| && db.items[id].deleted ==>
              Inventory.RestoreItem(db, id) == Ok(db.(items := db.items[id := db.items[id].(deleted := false)]))
  {
  }
}
