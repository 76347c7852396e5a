/**
 Transfer requests. Executing one takes every line from its source row, then
 adds it to a matching row of the destination warehouse or creates one there.
 */
module Transfers {
  import opened Seqs
  import opened Wrappers
  import opened Tables
  import opened Stock

  /** The row findFirst looks for in the destination: no SKU on the item means any SKU will do. */
  predicate Matches(row: Item, destination: string, item: Item)
  {
    && row.warehouse == destination
    && row.name == item.name
    && row.category == item.category
    && (item.sku.Some? ==> row.sku == item.sku)
  }

  function FirstMatch(items: seq<Item>, destination: string, item: Item, n: nat): (r: Option<nat>)
    requires n <= |items|
    ensures r.Some? ==> r.value < n && Matches(items[r.value], destination, item)
    ensures r.None? ==> forall j :: 0 <= j < n ==> !Matches(items[j], destination, item)
  {
    if n == 0 then None
    else
      var earlier := FirstMatch(items, destination, item, n - 1);
      if earlier.Some? then earlier
      else if Matches(items[n - 1], destination, item) then Some(n - 1)
      else None
  }

  /** findFirst has no order, so the database may answer with any match: `hint` stands for its choice. */
  function FindFirst(items: seq<Item>, destination: string, item: Item, hint: nat): (r: Option<nat>)
    ensures r.Some? ==> r.value < |items| && Matches(items[r.value], destination, item)
    ensures r.None? ==> forall j :: 0 <= j < |items| ==> !Matches(items[j], destination, item)
  {
    if hint < |items| && Matches(items[hint], destination, item) then Some(hint)
    else FirstMatch(items, destination, item, |items|)
  }

  function SuffixedSku(sku: Option<string>, destination: string): Option<string>
  {
    if sku.None? || sku.value == "" then None
    else Some(sku.value + "-" + (if |destination| <= 4 then destination else destination[..4]))
  }

  predicate SkuTaken(items: seq<Item>, sku: Option<string>)
  {
    sku.Some? && exists j :: 0 <= j < |items| && items[j].sku == sku
  }

  function NewRow(item: Item, destination: string, qty: Units): Item
  {
    Item(item.name, item.category, SuffixedSku(item.sku, destination), destination, item.itemType, qty, false, 0)
  }

  datatype Landing = Landing(items: seq<Item>, landed: seq<Line>)

  /** Adds one line to the destination; a SKU that is already in use aborts the whole transaction. */
  function LandOne(at: Landing, destination: string, item: Item, qty: Units, hint: nat): Result<Landing, Error>
  {
    var row := FindFirst(at.items, destination, item, hint);
    if row.Some? then
      var j := row.value;
      Ok(Landing(at.items[j := at.items[j].(quantity := at.items[j].quantity + qty)], at.landed + [Line(j, qty)]))
    else if SkuTaken(at.items, SuffixedSku(item.sku, destination)) then
      Err(SKU_ALREADY_EXISTS)
    else
      Ok(Landing(at.items + [NewRow(item, destination, qty)], at.landed + [Line(|at.items|, qty)]))
  }

  function Hint(hints: seq<nat>, k: nat): nat
  {
    if k < |hints| then hints[k] else 0
  }

  /** `snapshot` is the item table as it was read with the request. */
  function LandAll(
    items: seq<Item>, destination: string, lines: seq<Line>, snapshot: seq<Item>, hints: seq<nat>): Result<Landing, Error>
  {
    if lines == [] then Ok(Landing(items, []))
    else
      var n := |lines| - 1;
      var at :- LandAll(items, destination, lines[..n], snapshot, hints);
      if lines[n].item >= |snapshot| then Err(NOT_FOUND)
      else LandOne(at, destination, snapshot[lines[n].item], lines[n].qty, Hint(hints, n))
  }

  lemma {:induction false} LandAllStops(
    items: seq<Item>, destination: string, lines: seq<Line>, snapshot: seq<Item>, hints: seq<nat>, k: nat)
    requires k <= |lines|
    requires LandAll(items, destination, lines[..k], snapshot, hints).Err?
    ensures LandAll(items, destination, lines, snapshot, hints)
            == LandAll(items, destination, lines[..k], snapshot, hints)
  {
    if k < |lines| {
      assert lines[..|lines| - 1][..k] == lines[..k];
      LandAllStops(items, destination, lines[..|lines| - 1], snapshot, hints, k);
    } else {
      assert lines[..k] == lines;
    }
  }

  function ValidateTransfer(items: seq<Item>, lines: seq<Line>, source: string): Result<(), Error>
  {
    if lines == [] then Ok(())
    else
      var last := lines[|lines| - 1];
      var _ :- ValidateTransfer(items, lines[..|lines| - 1], source);
      if last.item >= |items| then Err(NOT_FOUND)
      else if items[last.item].warehouse != source then Err(ITEM_NOT_IN_SOURCE_WAREHOUSE)
      else if items[last.item].quantity < last.qty then Err(INSUFFICIENT_STOCK)
      else Ok(())
  }

  lemma {:induction false} ValidTransferInRange(items: seq<Item>, lines: seq<Line>, source: string)
    requires ValidateTransfer(items, lines, source).Ok?
    ensures InRange(lines, |items|)
  {
    if lines != [] {
      ValidTransferInRange(items, lines[..|lines| - 1], source);
    }
  }

  function CreateTransfer(db: Db, source: string, destination: string, lines: seq<Line>, now: int): Outcome
  {
    if source == destination then Err(SAME_SOURCE_AND_DESTINATION)
    else
      var _ :- ValidateTransfer(db.items, lines, source);
      Ok(db.(transfers := db.transfers + [Transfer(RequestStatus.PENDING, source, destination, None, now, lines, [])]))
  }

  predicate AllStocked(items: seq<Item>, lines: seq<Line>)
  {
    forall k :: 0 <= k < |lines| ==> lines[k].item < |items| && items[lines[k].item].quantity >= lines[k].qty
  }

  function SetTransfer(db: Db, id: nat, status: RequestStatus, now: int): Db
    requires id < |db.transfers|
  {
    db.(transfers := db.transfers[id := db.transfers[id].(status := status, updatedAt := now)])
  }

  function ApproveTransfer(db: Db, id: nat, now: int): Outcome
  {
    if id >= |db.transfers| then Err(NOT_FOUND)
    else if !db.transfers[id].status.PENDING? then Err(INVALID_STATUS)
    else if !AllStocked(db.items, db.transfers[id].lines) then Err(INSUFFICIENT_STOCK)
    else Ok(SetTransfer(db, id, RequestStatus.APPROVED, now))
  }

  function RejectTransfer(db: Db, id: nat, now: int): Outcome
  {
    if id >= |db.transfers| then Err(NOT_FOUND)
    else if !db.transfers[id].status.PENDING? then Err(INVALID_STATUS)
    else Ok(SetTransfer(db, id, RequestStatus.REJECTED, now))
  }

  function SendTransfer(db: Db, id: nat, now: int): Outcome
  {
    if id >= |db.transfers| then Err(NOT_FOUND)
    else if !db.transfers[id].status.APPROVED? then Err(INVALID_STATUS)
    else Ok(SetTransfer(db, id, RequestStatus.SENT, now))
  }

  predicate IsFinal(status: RequestStatus)
  {
    status.COMPLETED? || status.REJECTED? || status.CANCELLED?
  }

  function CancelTransfer(db: Db, id: nat, now: int): Outcome
  {
    if id >= |db.transfers| then Err(NOT_FOUND)
    else if IsFinal(db.transfers[id].status) then Err(INVALID_STATUS)
    else Ok(SetTransfer(db, id, RequestStatus.CANCELLED, now))
  }

  /**
   confirmReceipt (by QR code) and complete (by hand) execute the transfer
   alike. `snapshot` is the item table as it was when the request was read,
   before the transaction: it may be out of date.
   */
  function CompleteTransfer(db: Db, id: nat, snapshot: seq<Item>, hints: seq<nat>, now: int): Outcome
  {
    if id >= |db.transfers| then Err(NOT_FOUND)
    else if !db.transfers[id].status.SENT? then Err(INVALID_STATUS)
    else
      var request := db.transfers[id];
      var items :- TakeAll(db.items, request.lines);
      var landing :- LandAll(items, request.destination, request.lines, snapshot, hints);
      var done := request.(
        status := RequestStatus.COMPLETED, receivedAt := Some(now), updatedAt := now, landed := landing.landed);
      Ok(db.(items := landing.items, transfers := db.transfers[id := done]))
  }

  class TransferRequestsService {
    const db: Database

    constructor (db: Database)
      ensures this.db == db
    {
      this.db := db;
    }

    method Create(source: string, destination: string, lines: seq<Line>, now: int) returns (r: Result<(), Error>)
      modifies db
      ensures Settles(old(db.tables), CreateTransfer(old(db.tables), source, destination, lines, now), db.tables, r)
    {
      if source == destination {
        return Err(SAME_SOURCE_AND_DESTINATION);
      }
      var valid := ValidateTransfer(db.tables.items, lines, source);
      if valid.Err? {
        return valid;
      }
      var tx := new Tx(db.tables);
      var request := Transfer(RequestStatus.PENDING, source, destination, None, now, lines, []);
      tx.tables := tx.tables.(transfers := tx.tables.transfers + [request]);
      db.tables := tx.tables;
      return Ok(());
    }

    method Approve(id: nat, now: int) returns (r: Result<(), Error>)
      modifies db
      ensures Settles(old(db.tables), ApproveTransfer(old(db.tables), id, now), db.tables, r)
    {
      var tx := new Tx(db.tables);
      if id >= |tx.tables.transfers| {
        return Err(NOT_FOUND);
      }
      var current := tx.tables.transfers[id];
      if !current.status.PENDING? {
        return Err(INVALID_STATUS);
      }
      for k := 0 to |current.lines|
        invariant AllStocked(tx.tables.items, current.lines[..k])
        invariant tx.tables == old(db.tables)
      {
        var line := current.lines[k];
        if line.item >= |tx.tables.items| || tx.tables.items[line.item].quantity < line.qty {
          return Err(INSUFFICIENT_STOCK);
        }
      }
      tx.tables := SetTransfer(tx.tables, id, RequestStatus.APPROVED, now);
      db.tables := tx.tables;
      return Ok(());
    }

    method Reject(id: nat, now: int) returns (r: Result<(), Error>)
      modifies db
      ensures Settles(old(db.tables), RejectTransfer(old(db.tables), id, now), db.tables, r)
    {
      if id >= |db.tables.transfers| {
        return Err(NOT_FOUND);
      }
      if !db.tables.transfers[id].status.PENDING? {
        return Err(INVALID_STATUS);
      }
      db.tables := SetTransfer(db.tables, id, RequestStatus.REJECTED, now);
      return Ok(());
    }

    method Send(id: nat, now: int) returns (r: Result<(), Error>)
      modifies db
      ensures Settles(old(db.tables), SendTransfer(old(db.tables), id, now), db.tables, r)
    {
      if id >= |db.tables.transfers| {
        return Err(NOT_FOUND);
      }
      if !db.tables.transfers[id].status.APPROVED? {
        return Err(INVALID_STATUS);
      }
      db.tables := SetTransfer(db.tables, id, RequestStatus.SENT, now);
      return Ok(());
    }

    method Cancel(id: nat, now: int) returns (r: Result<(), Error>)
      modifies db
      ensures Settles(old(db.tables), CancelTransfer(old(db.tables), id, now), db.tables, r)
    {
      if id >= |db.tables.transfers| {
        return Err(NOT_FOUND);
      }
      if IsFinal(db.tables.transfers[id].status) {
        return Err(INVALID_STATUS);
      }
      db.tables := SetTransfer(db.tables, id, RequestStatus.CANCELLED, now);
      return Ok(());
    }

    method Complete(id: nat, snapshot: seq<Item>, hints: seq<nat>, now: int) returns (r: Result<(), Error>)
      modifies db
      ensures Settles(old(db.tables), CompleteTransfer(old(db.tables), id, snapshot, hints, now), db.tables, r)
    {
      if id >= |db.tables.transfers| {
        return Err(NOT_FOUND);
      }
      var request := db.tables.transfers[id];
      var tx := new Tx(db.tables);
      if !tx.tables.transfers[id].status.SENT? {
        return Err(INVALID_STATUS);
      }
      r := ApplyInventoryTransfer(tx, id, request, snapshot, hints, now);
      if r.Err? {
        return;
      }
      db.tables := tx.tables;
    }

    method ApplyInventoryTransfer(
      tx: Tx, id: nat, request: Transfer, snapshot: seq<Item>, hints: seq<nat>, now: int) returns (r: Result<(), Error>)
      requires id < |tx.tables.transfers| && tx.tables.transfers[id] == request && request.status.SENT?
      modifies tx
      ensures match CompleteTransfer(old(tx.tables), id, snapshot, hints, now)
              case Ok(tables) => r.Ok? && tx.tables == tables
              case Err(e) => r == Err(e)
    {
      var taken := TakeLines(tx, request.lines);
      if taken.Err? {
        return taken;
      }
      var landed := LandLines(tx, request.destination, request.lines, snapshot, hints);
      if landed.Err? {
        return Err(landed.error);
      }
      var done := request.(
        status := RequestStatus.COMPLETED, receivedAt := Some(now), updatedAt := now, landed := landed.value);
      tx.tables := tx.tables.(transfers := tx.tables.transfers[id := done]);
      return Ok(());
    }

    /** The second loop. */
    method LandLines(tx: Tx, destination: string, lines: seq<Line>, snapshot: seq<Item>, hints: seq<nat>)
      returns (r: Result<seq<Line>, Error>)
      modifies tx
      ensures match LandAll(old(tx.tables.items), destination, lines, snapshot, hints)
              case Ok(at) => r == Ok(at.landed) && tx.tables == old(tx.tables).(items := at.items)
              case Err(e) => r == Err(e)
    {
      var landed: seq<Line> := [];
      ghost var source := tx.tables.items;
      for k := 0 to |lines|
        invariant tx.tables == old(tx.tables).(items := tx.tables.items)
        invariant LandAll(source, destination, lines[..k], snapshot, hints) == Ok(Landing(tx.tables.items, landed))
      {
        assert lines[..k + 1][..k] == lines[..k];
        var line := lines[k];
        if line.item >= |snapshot| {
          LandAllStops(source, destination, lines, snapshot, hints, k + 1);
          return Err(NOT_FOUND);
        }
        var row := LandLine(tx, destination, snapshot[line.item], line.qty, Hint(hints, k), landed);
        if row.Err? {
          LandAllStops(source, destination, lines, snapshot, hints, k + 1);
          return Err(row.error);
        }
        landed := landed + [Line(row.value, line.qty)];
      }
      assert lines[..|lines|] == lines;
      return Ok(landed);
    }

    /** One line into the destination: a matching row gains the units, or a row is created for them. */
    method LandLine(tx: Tx, destination: string, item: Item, qty: Units, hint: nat, ghost landed: seq<Line>)
      returns (r: Result<nat, Error>)
      modifies tx
      ensures match LandOne(Landing(old(tx.tables.items), landed), destination, item, qty, hint)
              case Ok(at) =>
                && r.Ok? && at.landed == landed + [Line(r.value, qty)]
                && tx.tables == old(tx.tables).(items := at.items)
              case Err(e) => r == Err(e) && tx.tables == old(tx.tables)
    {
      var rows := tx.tables.items;
      var existing := FindFirst(rows, destination, item, hint);
      if existing.Some? {
        var j := existing.value;
        tx.tables := tx.tables.(items := rows[j := rows[j].(quantity := rows[j].quantity + qty)]);
        return Ok(j);
      }
      if SkuTaken(rows, SuffixedSku(item.sku, destination)) {
        return Err(SKU_ALREADY_EXISTS);
      }
      tx.tables := tx.tables.(items := rows + [NewRow(item, destination, qty)]);
      return Ok(|rows|);
    }
  }
}
