/** Purchase invoices: the mirror of a sale, plus one new row per serialized unit. */
module Purchases {
  import opened Seqs
  import opened Wrappers
  import opened Tables
  import opened Stock
  import opened Payments
  import opened Sales
  import Money

  /** A UNIQUE line: the unit it buys becomes a row of its own. */
  datatype UnitDto = UnitDto(name: string, category: string, unitPrice: real, taxPercent: Option<real>)

  datatype PurchaseDto = PurchaseDto(
    warehouse: string, taxPercent: Option<real>, bulk: seq<LineDto>, units: seq<UnitDto>)

  /** Line by line, the first one in the wrong warehouse or naming a serialized item decides the error. */
  function ValidateBulk(items: seq<Item>, lines: seq<Line>, warehouse: string): Result<(), Error>
    requires AllLive(items, lines)
  {
    if lines == [] then Ok(())
    else
      var last := items[lines[|lines| - 1].item];
      var _ :- ValidateBulk(items, lines[..|lines| - 1], warehouse);
      if last.warehouse != warehouse then Err(ITEM_NOT_IN_WAREHOUSE)
      else if !last.itemType.BULK? then Err(UNIQUE_ITEM_NOT_BULK_PURCHASABLE)
      else Ok(())
  }

  function NewUnit(unit: UnitDto, warehouse: string): Item
  {
    Item(unit.name, unit.category, None, warehouse, UNIQUE, 1, false, 0)
  }

  function NewUnits(units: seq<UnitDto>, warehouse: string): seq<Item>
  {
    seq(|units|, k requires 0 <= k < |units| => NewUnit(units[k], warehouse))
  }

  /** The UNIQUE lines name the rows created for them, which follow the existing ones. */
  function AllLines(dto: PurchaseDto, firstNew: nat): seq<LineDto>
  {
    dto.bulk + seq(|dto.units|, k requires 0 <= k < |dto.units| =>
      LineDto(firstNew + k, 1, dto.units[k].unitPrice, dto.units[k].taxPercent))
  }

  function NewPurchase(dto: PurchaseDto, firstNew: nat, now: int): Purchase
  {
    var lines := AllLines(dto, firstNew);
    var totals := Money.ComputeTotals(Taxables(lines, dto.taxPercent));
    Purchase(DocStatus.ACTIVE, now, None, dto.warehouse, totals.total, totals.tax, Written(lines, totals.lineTaxes))
  }

  function CreatePurchase(db: Db, dto: PurchaseDto, now: int): Outcome
  {
    if dto.bulk == [] && dto.units == [] then Err(ITEMS_REQUIRED)
    else
      var lines := Requested(dto.bulk);
      if !Distinct(ItemsOf(lines)) then Err(DUPLICATE_INVENTORY_ITEM)
      else if !AllLive(db.items, lines) then Err(NOT_FOUND)
      else
        var _ :- ValidateBulk(db.items, lines, dto.warehouse);
        var items :- GiveAll(db.items, lines);
        Ok(db.(items := items + NewUnits(dto.units, dto.warehouse),
               purchases := db.purchases + [NewPurchase(dto, |db.items|, now)]))
  }

  predicate HasUnique(items: seq<Item>, lines: seq<Line>)
  {
    exists k :: 0 <= k < |lines| && lines[k].item < |items| && items[lines[k].item].itemType.UNIQUE?
  }

  function CancelPurchase(db: Db, id: nat, now: int): Outcome
  {
    if id >= |db.purchases| then Err(NOT_FOUND)
    else if !db.purchases[id].status.ACTIVE? then Err(INVALID_STATUS)
    else
      var current := db.purchases[id];
      if HasUnique(db.items, Lines(current.lines)) then Err(HAS_SERIALIZED_ITEMS)
      else if ActivePaid(db.payments, OfPurchase(id)) > 0 then Err(HAS_ACTIVE_PAYMENTS)
      else
        var items :- TakeAll(db.items, Lines(current.lines));
        var cancelled := current.(status := DocStatus.CANCELLED, cancelledAt := Some(now));
        Ok(db.(items := items, purchases := db.purchases[id := cancelled]))
  }

  class PurchaseInvoicesService {
    const db: Database
    const payments: PaymentsService

    constructor (db: Database, payments: PaymentsService)
      ensures this.db == db && this.payments == payments
    {
      this.db := db;
      this.payments := payments;
    }

    method Create(dto: PurchaseDto, now: int) returns (r: Result<(), Error>)
      modifies db
      ensures Settles(old(db.tables), CreatePurchase(old(db.tables), dto, now), db.tables, r)
    {
      if dto.bulk == [] && dto.units == [] {
        return Err(ITEMS_REQUIRED);
      }
      var lines := Requested(dto.bulk);
      if !Distinct(ItemsOf(lines)) {
        return Err(DUPLICATE_INVENTORY_ITEM);
      }
      if !AllLive(db.tables.items, lines) {
        return Err(NOT_FOUND);
      }
      var valid := ValidateBulk(db.tables.items, lines, dto.warehouse);
      if valid.Err? {
        return valid;
      }
      var tx := new Tx(db.tables);
      var given := GiveLines(tx, lines);
      if given.Err? {
        return given;
      }
      CreateUnits(tx, dto.units, dto.warehouse);
      tx.tables := tx.tables.(purchases := tx.tables.purchases + [NewPurchase(dto, |db.tables.items|, now)]);
      db.tables := tx.tables;
      return Ok(());
    }

    /** tx.inventoryItem.create for each serialized unit. */
    method CreateUnits(tx: Tx, units: seq<UnitDto>, warehouse: string)
      modifies tx
      ensures tx.tables == old(tx.tables).(items := old(tx.tables.items) + NewUnits(units, warehouse))
    {
      for k := 0 to |units|
        invariant tx.tables == old(tx.tables).(items := tx.tables.items)
        invariant tx.tables.items == old(tx.tables.items) + NewUnits(units, warehouse)[..k]
      {
        tx.tables := tx.tables.(items := tx.tables.items + [NewUnit(units[k], warehouse)]);
      }
      assert NewUnits(units, warehouse)[..|units|] == NewUnits(units, warehouse);
    }

    method Cancel(id: nat, now: int) returns (r: Result<(), Error>)
      modifies db
      ensures Settles(old(db.tables), CancelPurchase(old(db.tables), id, now), db.tables, r)
    {
      var tx := new Tx(db.tables);
      if id >= |tx.tables.purchases| {
        return Err(NOT_FOUND);
      }
      var current := tx.tables.purchases[id];
      if !current.status.ACTIVE? {
        return Err(INVALID_STATUS);
      }
      if HasUnique(tx.tables.items, Lines(current.lines)) {
        return Err(HAS_SERIALIZED_ITEMS);
      }
      var paid := payments.AggregatePaid(tx, OfPurchase(id));
      if paid > 0 {
        return Err(HAS_ACTIVE_PAYMENTS);
      }
      var taken := TakeLines(tx, Lines(current.lines));
      if taken.Err? {
        return taken;
      }
      var cancelled := current.(status := DocStatus.CANCELLED, cancelledAt := Some(now));
      tx.tables := tx.tables.(purchases := tx.tables.purchases[id := cancelled]);
      db.tables := tx.tables;
      return Ok(());
    }
  }
}

/** Outflows: stock written off or consumed. */
module Outflows {
  import opened Wrappers
  import opened Tables
  import opened Stock
  import opened Sales

  function CreateOutflow(db: Db, warehouse: string, lines: seq<Line>, now: int): Outcome
  {
    if lines == [] then Err(ITEMS_REQUIRED)
    else
      var _ :- ValidateLines(db.items, lines, warehouse);
      var _ :- CheckAvailable(db.items, lines);
      var items :- TakeAll(db.items, lines);
      Ok(db.(items := items, outflows := db.outflows + [Outflow(DocStatus.ACTIVE, now, None, warehouse, lines)]))
  }

  function CancelOutflow(db: Db, id: nat, now: int): Outcome
  {
    if id >= |db.outflows| then Err(NOT_FOUND)
    else if !db.outflows[id].status.ACTIVE? then Err(INVALID_STATUS)
    else
      var current := db.outflows[id];
      var items :- GiveAll(db.items, current.lines);
      var cancelled := current.(status := DocStatus.CANCELLED, cancelledAt := Some(now));
      Ok(db.(items := items, outflows := db.outflows[id := cancelled]))
  }

  class OutflowsService {
    const db: Database

    constructor (db: Database)
      ensures this.db == db
    {
      this.db := db;
    }

    method Create(warehouse: string, lines: seq<Line>, now: int) returns (r: Result<(), Error>)
      modifies db
      ensures Settles(old(db.tables), CreateOutflow(old(db.tables), warehouse, lines, now), db.tables, r)
    {
      if lines == [] {
        return Err(ITEMS_REQUIRED);
      }
      var valid := ValidateLines(db.tables.items, lines, warehouse);
      if valid.Err? {
        return valid;
      }
      var tx := new Tx(db.tables);
      var available := CheckLines(tx.tables.items, lines);
      if available.Err? {
        return available;
      }
      var taken := TakeLines(tx, lines);
      if taken.Err? {
        return taken;
      }
      var outflow := Outflow(DocStatus.ACTIVE, now, None, warehouse, lines);
      tx.tables := tx.tables.(outflows := tx.tables.outflows + [outflow]);
      db.tables := tx.tables;
      return Ok(());
    }

    method Cancel(id: nat, now: int) returns (r: Result<(), Error>)
      modifies db
      ensures Settles(old(db.tables), CancelOutflow(old(db.tables), id, now), db.tables, r)
    {
      var tx := new Tx(db.tables);
      if id >= |tx.tables.outflows| {
        return Err(NOT_FOUND);
      }
      var current := tx.tables.outflows[id];
      if !current.status.ACTIVE? {
        return Err(INVALID_STATUS);
      }
      var given := GiveLines(tx, current.lines);
      if given.Err? {
        return given;
      }
      var cancelled := current.(status := DocStatus.CANCELLED, cancelledAt := Some(now));
      tx.tables := tx.tables.(outflows := tx.tables.outflows[id := cancelled]);
      db.tables := tx.tables;
      return Ok(());
    }
  }
}

/** Manual stock entries. Deleting one undoes the movement it made. */
module Transactions {
  import opened Seqs
  import opened Wrappers
  import opened Tables
  import opened Stock

  function ValidateType(kind: MoveType, source: Option<string>, destination: Option<string>): Result<(), Error>
  {
    match kind
    case IN => if destination.None? then Err(WAREHOUSE_REQUIRED) else Ok(())
    case OUT => if source.None? then Err(WAREHOUSE_REQUIRED) else Ok(())
    case TRANSFER => if source.None? || destination.None? then Err(WAREHOUSE_REQUIRED) else Ok(())
  }

  /** What saving a manual entry does to the stock; TRANSFER leaves quantities alone. */
  function ApplyMove(items: seq<Item>, kind: MoveType, lines: seq<Line>): Result<seq<Item>, Error>
  {
    match kind
    case IN => GiveAll(items, lines)
    case OUT => TakeAll(items, lines)
    case TRANSFER => Ok(items)
  }

  function UndoMove(items: seq<Item>, kind: MoveType, lines: seq<Line>): Result<seq<Item>, Error>
  {
    match kind
    case IN => TakeAll(items, lines)
    case OUT => GiveAll(items, lines)
    case TRANSFER => Ok(items)
  }

  /** Items are looked up by id with one query, so a repeated id comes up short and is refused as well. */
  function CreateTransaction(db: Db, t: Transaction): Outcome
  {
    var _ :- ValidateType(t.kind, t.source, t.destination);
    if !Distinct(ItemsOf(t.lines)) || !InRange(t.lines, |db.items|) then Err(NOT_FOUND)
    else
      var items :- ApplyMove(db.items, t.kind, t.lines);
      Ok(db.(items := items, transactions := db.transactions + [Some(t)]))
  }

  function RemoveTransaction(db: Db, id: nat): Outcome
  {
    if id >= |db.transactions| || db.transactions[id].None? then Err(NOT_FOUND)
    else
      var t := db.transactions[id].value;
      var items :- UndoMove(db.items, t.kind, t.lines);
      Ok(db.(items := items, transactions := db.transactions[id := None]))
  }

  /** The generic update reaches the date and the warehouses, never the type or the lines. */
  function UpdateTransaction(
    db: Db, id: nat, date: int, source: Option<string>, destination: Option<string>): Outcome
  {
    if id >= |db.transactions| || db.transactions[id].None? then Err(NOT_FOUND)
    else
      var t := db.transactions[id].value.(date := date, source := source, destination := destination);
      Ok(db.(transactions := db.transactions[id := Some(t)]))
  }

  class TransactionsService {
    const db: Database

    constructor (db: Database)
      ensures this.db == db
    {
      this.db := db;
    }

    method Create(t: Transaction) returns (r: Result<(), Error>)
      modifies db
      ensures Settles(old(db.tables), CreateTransaction(old(db.tables), t), db.tables, r)
    {
      var valid := ValidateType(t.kind, t.source, t.destination);
      if valid.Err? {
        return valid;
      }
      if !Distinct(ItemsOf(t.lines)) || !InRange(t.lines, |db.tables.items|) {
        return Err(NOT_FOUND);
      }
      var tx := new Tx(db.tables);
      var moved := UpdateInventoryQuantities(tx, t.lines, t.kind);
      if moved.Err? {
        return moved;
      }
      tx.tables := tx.tables.(transactions := tx.tables.transactions + [Some(t)]);
      db.tables := tx.tables;
      return Ok(());
    }

    method UpdateInventoryQuantities(tx: Tx, lines: seq<Line>, kind: MoveType) returns (r: Result<(), Error>)
      modifies tx
      ensures match ApplyMove(old(tx.tables.items), kind, lines)
              case Ok(items) => r.Ok? && tx.tables == old(tx.tables).(items := items)
              case Err(e) => r == Err(e)
    {
      match kind
      case IN => r := GiveLines(tx, lines);
      case OUT => r := TakeLines(tx, lines);
      case TRANSFER => r := Ok(());
    }

    method Remove(id: nat) returns (r: Result<(), Error>)
      modifies db
      ensures Settles(old(db.tables), RemoveTransaction(old(db.tables), id), db.tables, r)
    {
      var tx := new Tx(db.tables);
      if id >= |tx.tables.transactions| || tx.tables.transactions[id].None? {
        return Err(NOT_FOUND);
      }
      var t := tx.tables.transactions[id].value;
      var undone: Result<(), Error> := Ok(());
      match t.kind {
        case IN => undone := TakeLines(tx, t.lines);
        case OUT => undone := GiveLines(tx, t.lines);
        case TRANSFER =>
      }
      if undone.Err? {
        return undone;
      }
      tx.tables := tx.tables.(transactions := tx.tables.transactions[id := None]);
      db.tables := tx.tables;
      return Ok(());
    }
  }
}

/** Discharge requests from the public form; completing one records an outflow. */
module Discharges {
  import opened Wrappers
  import opened Tables
  import opened Stock

  predicate AllHeld(items: seq<Item>, lines: seq<Line>)
  {
    forall k :: 0 <= k < |lines| ==> lines[k].item < |items| && items[lines[k].item].quantity >= lines[k].qty
  }

  /** One request, for the lines of one warehouse. */
  function CreateDischarge(db: Db, warehouse: string, lines: seq<Line>): Outcome
  {
    if !InRange(lines, |db.items|) then Err(NOT_FOUND)
    else if !AllHeld(db.items, lines) then Err(INSUFFICIENT_STOCK)
    else Ok(db.(discharges := db.discharges + [Discharge(DischargeStatus.PENDING, warehouse, lines)]))
  }

  function CompleteDischarge(db: Db, id: nat, now: int): Outcome
  {
    if id >= |db.discharges| then Err(NOT_FOUND)
    else if !db.discharges[id].status.PENDING? then Err(INVALID_STATUS)
    else
      var request := db.discharges[id];
      var _ :- CheckAvailable(db.items, request.lines);
      var items :- TakeAll(db.items, request.lines);
      Ok(db.(items := items,
             outflows := db.outflows + [Outflow(DocStatus.ACTIVE, now, None, request.warehouse, request.lines)],
             discharges := db.discharges[id := request.(status := DischargeStatus.COMPLETED)]))
  }

  function RejectDischarge(db: Db, id: nat): Outcome
  {
    if id >= |db.discharges| then Err(NOT_FOUND)
    else if !db.discharges[id].status.PENDING? then Err(INVALID_STATUS)
    else Ok(db.(discharges := db.discharges[id := db.discharges[id].(status := DischargeStatus.REJECTED)]))
  }

  class DischargeRequestsService {
    const db: Database

    constructor (db: Database)
      ensures this.db == db
    {
      this.db := db;
    }

    method Complete(id: nat, now: int) returns (r: Result<(), Error>)
      modifies db
      ensures Settles(old(db.tables), CompleteDischarge(old(db.tables), id, now), db.tables, r)
    {
      if id >= |db.tables.discharges| {
        return Err(NOT_FOUND);
      }
      var request := db.tables.discharges[id];
      var tx := new Tx(db.tables);
      if !tx.tables.discharges[id].status.PENDING? {
        return Err(INVALID_STATUS);
      }
      var available := CheckLines(tx.tables.items, request.lines);
      if available.Err? {
        return available;
      }
      var taken := TakeLines(tx, request.lines);
      if taken.Err? {
        return taken;
      }
      var outflow := Outflow(DocStatus.ACTIVE, now, None, request.warehouse, request.lines);
      tx.tables := tx.tables.(outflows := tx.tables.outflows + [outflow]);
      tx.tables := tx.tables.(discharges := tx.tables.discharges[id := request.(status := DischargeStatus.COMPLETED)]);
      db.tables := tx.tables;
      return Ok(());
    }

    method Reject(id: nat) returns (r: Result<(), Error>)
      modifies db
      ensures Settles(old(db.tables), RejectDischarge(old(db.tables), id), db.tables, r)
    {
      if id >= |db.tables.discharges| {
        return Err(NOT_FOUND);
      }
      var tx := new Tx(db.tables);
      var current := tx.tables.discharges[id];
      if !current.status.PENDING? {
        return Err(INVALID_STATUS);
      }
      tx.tables := tx.tables.(discharges := tx.tables.discharges[id := current.(status := DischargeStatus.REJECTED)]);
      db.tables := tx.tables;
      return Ok(());
    }
  }
}
