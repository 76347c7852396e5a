/** Stock takes: counts compared with what the system holds when each item is counted. */
module StockTakes {
  import opened Seqs
  import opened Wrappers
  import opened Tables
  import opened Stock

  /** One uncounted line per live item of the warehouse. */
  function OpenLines(items: seq<Item>, warehouse: string): seq<CountLine>
  {
    if items == [] then []
    else
      var n := |items| - 1;
      OpenLines(items[..n], warehouse)
        + (if !items[n].deleted && items[n].warehouse == warehouse
           then [CountLine(n, items[n].quantity, None, None)] else [])
  }

  predicate IsOpenIn(st: StockTake, warehouse: string)
  {
    st.status.IN_PROGRESS? && st.warehouse == warehouse
  }

  predicate AnyOpenIn(stockTakes: seq<StockTake>, warehouse: string)
  {
    exists k :: 0 <= k < |stockTakes| && IsOpenIn(stockTakes[k], warehouse)
  }

  function CreateStockTake(db: Db, warehouse: string, now: int): Outcome
  {
    if AnyOpenIn(db.stockTakes, warehouse) then Err(STOCK_TAKE_ALREADY_IN_PROGRESS)
    else
      var st := StockTake(
        StockTakeStatus.IN_PROGRESS, warehouse, false, None, now, OpenLines(db.items, warehouse));
      Ok(db.(stockTakes := db.stockTakes + [st]))
  }

  function FindLine(lines: seq<CountLine>, item: nat): (r: Option<nat>)
    ensures r.Some? ==> r.value < |lines| && lines[r.value].item == item
    ensures r.None? ==> forall k :: 0 <= k < |lines| ==> lines[k].item != item
  {
    if lines == [] then None
    else
      var n := |lines| - 1;
      var earlier := FindLine(lines[..n], item);
      if earlier.Some? then earlier
      else if lines[n].item == item then Some(n)
      else None
  }

  /** A count is compared with the stock held at that moment. */
  function CountedLine(line: CountLine, items: seq<Item>, counted: nat): CountLine
  {
    var expected := if line.item < |items| then items[line.item].quantity else line.expected;
    line.(expected := expected, counted := Some(counted), variance := Some(counted - expected))
  }

  function CountItem(db: Db, id: nat, item: nat, counted: nat): Outcome
  {
    if id >= |db.stockTakes| then Err(NOT_FOUND)
    else if !db.stockTakes[id].status.IN_PROGRESS? then Err(INVALID_STATUS)
    else
      var st := db.stockTakes[id];
      var k := FindLine(st.lines, item);
      if k.None? then Err(NOT_FOUND)
      else
        var lines := st.lines[k.value := CountedLine(st.lines[k.value], db.items, counted)];
        Ok(db.(stockTakes := db.stockTakes[id := st.(lines := lines)]))
  }

  predicate AllCounted(lines: seq<CountLine>)
  {
    forall k :: 0 <= k < |lines| ==> lines[k].counted.Some?
  }

  /** Only the difference a count found is applied, as a relative change. */
  function ApplyOne(items: seq<Item>, line: CountLine): Result<seq<Item>, Error>
  {
    var variance := line.variance.GetOr(0);
    if variance > 0 then GiveOne(items, line.item, variance)
    else if variance < 0 then TakeOne(items, line.item, -variance)
    else Ok(items)
  }

  function ApplyVariances(items: seq<Item>, lines: seq<CountLine>): Result<seq<Item>, Error>
  {
    if lines == [] then Ok(items)
    else
      var before :- ApplyVariances(items, lines[..|lines| - 1]);
      ApplyOne(before, lines[|lines| - 1])
  }

  lemma {:induction false} ApplyVariancesStops(items: seq<Item>, lines: seq<CountLine>, k: nat)
    requires k <= |lines|
    requires ApplyVariances(items, lines[..k]).Err?
    ensures ApplyVariances(items, lines) == ApplyVariances(items, lines[..k])
  {
    if k < |lines| {
      assert lines[..|lines| - 1][..k] == lines[..k];
      ApplyVariancesStops(items, lines[..|lines| - 1], k);
    } else {
      assert lines[..k] == lines;
    }
  }

  function CompleteStockTake(db: Db, id: nat, apply: bool, now: int): Outcome
  {
    if id >= |db.stockTakes| then Err(NOT_FOUND)
    else if !db.stockTakes[id].status.IN_PROGRESS? then Err(INVALID_STATUS)
    else if !AllCounted(db.stockTakes[id].lines) then Err(STOCK_TAKE_ITEMS_NOT_COUNTED)
    else
      var st := db.stockTakes[id];
      var items :- if apply then ApplyVariances(db.items, st.lines) else Ok(db.items);
      var done := st.(
        status := StockTakeStatus.COMPLETED, completedAt := Some(now), updatedAt := now, applied := apply);
      Ok(db.(items := items, stockTakes := db.stockTakes[id := done]))
  }

  function CancelStockTake(db: Db, id: nat, now: int): Outcome
  {
    if id >= |db.stockTakes| then Err(NOT_FOUND)
    else if db.stockTakes[id].status.COMPLETED? then Err(INVALID_STATUS)
    else
      var st := db.stockTakes[id].(status := StockTakeStatus.CANCELLED, updatedAt := now);
      Ok(db.(stockTakes := db.stockTakes[id := st]))
  }

  class StockTakeService {
    const db: Database

    constructor (db: Database)
      ensures this.db == db
    {
      this.db := db;
    }

    method Create(warehouse: string, now: int) returns (r: Result<(), Error>)
      modifies db
      ensures Settles(old(db.tables), CreateStockTake(old(db.tables), warehouse, now), db.tables, r)
    {
      var tx := new Tx(db.tables);
      if AnyOpenIn(tx.tables.stockTakes, warehouse) {
        return Err(STOCK_TAKE_ALREADY_IN_PROGRESS);
      }
      var lines: seq<CountLine> := [];
      var rows := tx.tables.items;
      for n := 0 to |rows|
        invariant lines == OpenLines(rows[..n], warehouse)
      {
        assert rows[..n + 1][..n] == rows[..n];
        if !rows[n].deleted && rows[n].warehouse == warehouse {
          lines := lines + [CountLine(n, rows[n].quantity, None, None)];
        }
      }
      assert rows[..|rows|] == rows;
      var st := StockTake(StockTakeStatus.IN_PROGRESS, warehouse, false, None, now, lines);
      tx.tables := tx.tables.(stockTakes := tx.tables.stockTakes + [st]);
      db.tables := tx.tables;
      return Ok(());
    }

    method UpdateItem(id: nat, item: nat, counted: nat) returns (r: Result<(), Error>)
      modifies db
      ensures Settles(old(db.tables), CountItem(old(db.tables), id, item, counted), db.tables, r)
    {
      var tx := new Tx(db.tables);
      if id >= |tx.tables.stockTakes| {
        return Err(NOT_FOUND);
      }
      var st := tx.tables.stockTakes[id];
      if !st.status.IN_PROGRESS? {
        return Err(INVALID_STATUS);
      }
      var k := FindLine(st.lines, item);
      if k.None? {
        return Err(NOT_FOUND);
      }
      var line := st.lines[k.value];
      var expected := if item < |tx.tables.items| then tx.tables.items[item].quantity else line.expected;
      line := line.(expected := expected, counted := Some(counted), variance := Some(counted - expected));
      tx.tables := tx.tables.(stockTakes := tx.tables.stockTakes[id := st.(lines := st.lines[k.value := line])]);
      db.tables := tx.tables;
      return Ok(());
    }

    method Complete(id: nat, apply: bool, now: int) returns (r: Result<(), Error>)
      modifies db
      ensures Settles(old(db.tables), CompleteStockTake(old(db.tables), id, apply, now), db.tables, r)
    {
      var tx := new Tx(db.tables);
      if id >= |tx.tables.stockTakes| {
        return Err(NOT_FOUND);
      }
      var current := tx.tables.stockTakes[id];
      if !current.status.IN_PROGRESS? {
        return Err(INVALID_STATUS);
      }
      if !AllCounted(current.lines) {
        return Err(STOCK_TAKE_ITEMS_NOT_COUNTED);
      }
      if apply {
        var applied := ApplyCounts(tx, current.lines);
        if applied.Err? {
          return applied;
        }
      }
      var done := current.(
        status := StockTakeStatus.COMPLETED, completedAt := Some(now), updatedAt := now, applied := apply);
      tx.tables := tx.tables.(stockTakes := tx.tables.stockTakes[id := done]);
      db.tables := tx.tables;
      return Ok(());
    }

    /** The loop of complete() over the counted items. */
    method ApplyCounts(tx: Tx, lines: seq<CountLine>) returns (r: Result<(), Error>)
      modifies tx
      ensures match ApplyVariances(old(tx.tables.items), lines)
              case Ok(items) => r.Ok? && tx.tables == old(tx.tables).(items := items)
              case Err(e) => r == Err(e)
    {
      for k := 0 to |lines|
        invariant ApplyVariances(old(tx.tables.items), lines[..k]) == Ok(tx.tables.items)
        invariant tx.tables == old(tx.tables).(items := tx.tables.items)
      {
        assert lines[..k + 1][..k] == lines[..k];
        var variance := lines[k].variance.GetOr(0);
        var rows := tx.tables.items;
        if variance > 0 {
          if lines[k].item >= |rows| {
            ApplyVariancesStops(old(tx.tables.items), lines, k + 1);
            return Err(NOT_FOUND);
          }
          var row := rows[lines[k].item];
          tx.tables := tx.tables.(items := rows[lines[k].item := row.(quantity := row.quantity + variance)]);
        } else if variance < 0 {
          var taken := TakeStock(tx, lines[k].item, -variance);
          if taken.Err? {
            ApplyVariancesStops(old(tx.tables.items), lines, k + 1);
            return taken;
          }
        }
      }
      assert lines[..|lines|] == lines;
      return Ok(());
    }

    method Cancel(id: nat, now: int) returns (r: Result<(), Error>)
      modifies db
      ensures Settles(old(db.tables), CancelStockTake(old(db.tables), id, now), db.tables, r)
    {
      var tx := new Tx(db.tables);
      if id >= |tx.tables.stockTakes| {
        return Err(NOT_FOUND);
      }
      var st := tx.tables.stockTakes[id];
      if st.status.COMPLETED? {
        return Err(INVALID_STATUS);
      }
      st := st.(status := StockTakeStatus.CANCELLED, updatedAt := now);
      tx.tables := tx.tables.(stockTakes := tx.tables.stockTakes[id := st]);
      db.tables := tx.tables;
      return Ok(());
    }
  }
}

/** Direct work on inventory rows. */
module Inventory {
  import opened Wrappers
  import opened Tables
  import opened Transfers

  /** `entered` starts at the quantity the row is created with. */
  function EnterItem(
    db: Db, name: string, category: string, sku: Option<string>, warehouse: string, itemType: ItemType, quantity: nat): Outcome
  {
    if SkuTaken(db.items, sku) then Err(SKU_ALREADY_EXISTS)
    else Ok(db.(items := db.items + [Item(name, category, sku, warehouse, itemType, quantity, false, quantity)]))
  }

  /** Any field can be overwritten, the quantity included. */
  function EditItem(
    db: Db, id: nat, name: string, category: string, sku: Option<string>, warehouse: string, itemType: ItemType,
    quantity: nat): Outcome
  {
    if id >= |db.items| then Err(NOT_FOUND)
    else if sku.Some? && exists j :: 0 <= j < |db.items| && j != id && db.items[j].sku == sku then Err(SKU_ALREADY_EXISTS)
    else
      var row := db.items[id];
      Ok(db.(items := db.items[id := row.(
        name := name, category := category, sku := sku, warehouse := warehouse, itemType := itemType,
        quantity := quantity, entered := row.entered + quantity - row.quantity)]))
  }

  function RemoveItem(db: Db, id: nat): Outcome
  {
    if id >= |db.items| then Err(NOT_FOUND)
    else Ok(db.(items := db.items[id := db.items[id].(deleted := true)]))
  }

  function RestoreItem(db: Db, id: nat): Outcome
  {
    if id >= |db.items| then Err(NOT_FOUND)
    else if !db.items[id].deleted then Err(ITEM_NOT_DELETED)
    else Ok(db.(items := db.items[id := db.items[id].(deleted := false)]))
  }
}
