/**
 Sales and quotations. A quotation (DRAFT) reserves nothing; stock leaves when
 a sale is created ACTIVE or a quotation is confirmed, and comes back when an
 ACTIVE sale is cancelled.
 */
module Sales {
  import opened Seqs
  import opened Wrappers
  import opened Tables
  import opened Stock
  import opened Payments
  import Money

  datatype LineDto = LineDto(item: nat, qty: Units, unitPrice: real, taxPercent: Option<real>)

  datatype SaleDto = SaleDto(
    warehouse: string, client: Option<nat>, credit: bool, currency: string,
    taxPercent: Option<real>, lines: seq<LineDto>)

  /** A field left out of an edit keeps its value; taxPercent and client can also be set to none. */
  datatype SaleEdit = SaleEdit(
    warehouse: Option<string>, client: Option<Option<nat>>, credit: Option<bool>, currency: Option<string>,
    taxPercent: Option<Option<real>>, lines: Option<seq<LineDto>>)

  function Requested(lines: seq<LineDto>): seq<Line>
  {
    seq(|lines|, k requires 0 <= k < |lines| => Line(lines[k].item, lines[k].qty))
  }

  function Percent(stored: Option<int>): Option<real>
  {
    if stored.Some? then Some(Money.Value(stored.value)) else None
  }

  function Store(percent: Option<real>): Option<int>
  {
    if percent.Some? then Some(Money.Round2(percent.value)) else None
  }

  /** round2(unitPrice * quantity), with the price as requested. */
  function LineTotal(line: LineDto): int
  {
    Money.Round2(line.unitPrice * line.qty as real)
  }

  /** The request's lines as computeTotals sees them: the percentages are not rounded yet. */
  function Taxables(lines: seq<LineDto>, documentPercent: Option<real>): seq<Money.Taxable>
  {
    seq(|lines|, k requires 0 <= k < |lines| =>
      Money.Taxable(
        LineTotal(lines[k]),
        Money.EffectivePercent(lines[k].taxPercent, documentPercent)))
  }

  /** Stored lines as computeTotals sees them. */
  function StoredTaxables(lines: seq<PricedLine>, documentPercent: Option<real>): seq<Money.Taxable>
  {
    seq(|lines|, k requires 0 <= k < |lines| =>
      Money.Taxable(
        lines[k].lineTotal,
        Money.EffectivePercent(Percent(lines[k].taxPercent), documentPercent)))
  }

  /** The rows written for the request's lines. */
  function Written(lines: seq<LineDto>, taxes: seq<int>): seq<PricedLine>
    requires |lines| == |taxes|
  {
    seq(|lines|, k requires 0 <= k < |lines| =>
      PricedLine(lines[k].item, lines[k].qty, LineTotal(lines[k]), Store(lines[k].taxPercent), taxes[k]))
  }

  /** The same rows with their line taxes computed again. */
  function Retaxed(lines: seq<PricedLine>, taxes: seq<int>): seq<PricedLine>
    requires |lines| == |taxes|
  {
    seq(|lines|, k requires 0 <= k < |lines| => lines[k].(taxAmount := taxes[k]))
  }

  predicate AllLive(items: seq<Item>, lines: seq<Line>)
  {
    forall k :: 0 <= k < |lines| ==> lines[k].item < |items| && !items[lines[k].item].deleted
  }

  predicate AllIn(items: seq<Item>, lines: seq<Line>, warehouse: string)
    requires AllLive(items, lines)
  {
    forall k :: 0 <= k < |lines| ==> items[lines[k].item].warehouse == warehouse
  }

  /** The checks a sale, an outflow and an edited quotation make on their lines before anything is written. */
  function ValidateLines(items: seq<Item>, lines: seq<Line>, warehouse: string): Result<(), Error>
  {
    if !Distinct(ItemsOf(lines)) then Err(DUPLICATE_INVENTORY_ITEM)
    else if !AllLive(items, lines) then Err(NOT_FOUND)
    else if !AllIn(items, lines, warehouse) then Err(ITEM_NOT_IN_WAREHOUSE)
    else Ok(())
  }

  /** A sale that counts toward the client's limit. */
  predicate IsOpenCredit(s: Sale, client: nat, currency: string)
  {
    s.client == Some(client) && s.status.ACTIVE? && s.credit && s.currency == currency
  }

  predicate IsOpenCreditId(sales: seq<Sale>, id: nat, client: nat, currency: string, exclude: Option<nat>)
  {
    id < |sales| && IsOpenCredit(sales[id], client, currency) && exclude != Some(id)
  }

  function OpenTotal(sales: seq<Sale>, client: nat, currency: string, exclude: Option<nat>): nat -> int
  {
    (id: nat) =>
      if IsOpenCreditId(sales, id, client, currency, exclude) then sales[id].total + sales[id].tax else 0
  }

  function OpenPaid(sales: seq<Sale>, client: nat, currency: string, exclude: Option<nat>): Payment -> int
  {
    (p: Payment) =>
      if p.active && p.target.OfSale? && IsOpenCreditId(sales, p.target.id, client, currency, exclude)
      then p.amount else 0
  }

  /** What the client owes on its open credit sales: their totals less their active payments. */
  function Outstanding(db: Db, client: nat, currency: string, exclude: Option<nat>): int
  {
    SumUpTo(|db.sales|, OpenTotal(db.sales, client, currency, exclude))
      - SumOver(db.payments, OpenPaid(db.sales, client, currency, exclude))
  }

  function EnforceCreditLimit(
    db: Db, client: Option<nat>, credit: bool, amount: int, currency: string, exclude: Option<nat>): Result<(), Error>
  {
    if client.None? || !credit then Ok(())
    else if client.value >= |db.clients| || db.clients[client.value].creditLimit.None? then Ok(())
    else
      var row := db.clients[client.value];
      if currency != row.limitCurrency then Err(CREDIT_LIMIT_CURRENCY_MISMATCH)
      else if Outstanding(db, client.value, row.limitCurrency, exclude) + amount > row.creditLimit.value
      then Err(CREDIT_LIMIT_EXCEEDED)
      else Ok(())
  }

  function NewSale(dto: SaleDto, totals: Money.Totals, asDraft: bool, now: int): Sale
    requires |totals.lineTaxes| == |dto.lines|
  {
    Sale(
      if asDraft then SaleStatus.DRAFT else SaleStatus.ACTIVE, asDraft, now,
      if asDraft then None else Some(now), None, dto.warehouse, dto.client, dto.credit, dto.currency,
      Store(dto.taxPercent), totals.total, totals.tax, Written(dto.lines, totals.lineTaxes))
  }

  /** The foreign key on sales.clientId. */
  predicate ClientExists(db: Db, client: Option<nat>)
  {
    client.Some? ==> client.value < |db.clients|
  }

  function CreateSale(db: Db, dto: SaleDto, asDraft: bool, now: int): Outcome
  {
    if dto.lines == [] then Err(ITEMS_REQUIRED)
    else
      var lines := Requested(dto.lines);
      var _ :- ValidateLines(db.items, lines, dto.warehouse);
      var totals := Money.ComputeTotals(Taxables(dto.lines, dto.taxPercent));
      var sale := NewSale(dto, totals, asDraft, now);
      if asDraft then
        if ClientExists(db, dto.client) then Ok(db.(sales := db.sales + [sale])) else Err(NOT_FOUND)
      else
        var _ :- EnforceCreditLimit(db, dto.client, dto.credit, sale.total + sale.tax, dto.currency, None);
        var _ :- CheckAvailable(db.items, lines);
        var items :- TakeAll(db.items, lines);
        if ClientExists(db, dto.client) then Ok(db.(items := items, sales := db.sales + [sale])) else Err(NOT_FOUND)
  }

  function EditedSale(current: Sale, edit: SaleEdit): Sale
  {
    var documentPercent := edit.taxPercent.GetOr(Percent(current.taxPercent));
    var totals :=
      if edit.lines.Some? then Money.ComputeTotals(Taxables(edit.lines.value, documentPercent))
      else Money.ComputeTotals(StoredTaxables(current.lines, documentPercent));
    current.(
      warehouse := edit.warehouse.GetOr(current.warehouse),
      client := edit.client.GetOr(current.client),
      credit := edit.credit.GetOr(current.credit),
      currency := edit.currency.GetOr(current.currency),
      taxPercent := Store(documentPercent),
      total := totals.total,
      tax := totals.tax,
      lines := if edit.lines.Some? then Written(edit.lines.value, totals.lineTaxes)
               else Retaxed(current.lines, totals.lineTaxes))
  }

  /** The same lines moved to another warehouse have to be stocked there. */
  predicate StockedIn(items: seq<Item>, lines: seq<Line>, warehouse: string)
  {
    forall k :: 0 <= k < |lines| ==> lines[k].item < |items| ==> items[lines[k].item].warehouse == warehouse
  }

  function UpdateSale(db: Db, id: nat, edit: SaleEdit): Outcome
  {
    if id >= |db.sales| then Err(NOT_FOUND)
    else if !db.sales[id].status.DRAFT? then Err(INVALID_STATUS)
    else
      var current := db.sales[id];
      var warehouse := edit.warehouse.GetOr(current.warehouse);
      var _ :-
        if edit.lines.Some? then ValidateLines(db.items, Requested(edit.lines.value), warehouse)
        else if warehouse != current.warehouse && !StockedIn(db.items, Lines(current.lines), warehouse)
        then Err(ITEM_NOT_IN_WAREHOUSE)
        else Ok(());
      if !ClientExists(db, edit.client.GetOr(current.client)) then Err(NOT_FOUND)
      else Ok(db.(sales := db.sales[id := EditedSale(current, edit)]))
  }

  function ConfirmedSale(current: Sale, now: int): Sale
  {
    var totals := Money.ComputeTotals(StoredTaxables(current.lines, Percent(current.taxPercent)));
    current.(
      status := SaleStatus.ACTIVE, confirmedAt := Some(now), total := totals.total, tax := totals.tax,
      lines := Retaxed(current.lines, totals.lineTaxes))
  }

  function ConfirmSale(db: Db, id: nat, now: int): Outcome
  {
    if id >= |db.sales| then Err(NOT_FOUND)
    else if !db.sales[id].status.DRAFT? then Err(INVALID_STATUS)
    else
      var current := db.sales[id];
      var confirmed := ConfirmedSale(current, now);
      var _ :- EnforceCreditLimit(
        db, current.client, current.credit, confirmed.total + confirmed.tax, current.currency, Some(id));
      var _ :- CheckAvailable(db.items, Lines(current.lines));
      var items :- TakeAll(db.items, Lines(current.lines));
      Ok(db.(items := items, sales := db.sales[id := confirmed]))
  }

  /** `allowed`: the user holds sales:cancel, needed only to cancel an ACTIVE sale. */
  function CancelSale(db: Db, id: nat, allowed: bool, now: int): Outcome
  {
    if id >= |db.sales| then Err(NOT_FOUND)
    else if db.sales[id].status.CANCELLED? then Err(INVALID_STATUS)
    else
      var current := db.sales[id];
      var cancelled := current.(status := SaleStatus.CANCELLED, cancelledAt := Some(now));
      if current.status.DRAFT? then Ok(db.(sales := db.sales[id := cancelled]))
      else if !allowed then Err(FORBIDDEN)
      else if ActivePaid(db.payments, OfSale(id)) > 0 then Err(HAS_ACTIVE_PAYMENTS)
      else
        var items :- GiveAll(db.items, Lines(current.lines));
        Ok(db.(items := items, sales := db.sales[id := cancelled]))
  }

  class SalesService {
    const db: Database
    const payments: PaymentsService

    constructor (db: Database, payments: PaymentsService)
      ensures this.db == db && this.payments == payments
    {
      this.db := db;
      this.payments := payments;
    }

    /** Locks the client row, then adds up its other open credit sales. */
    method CheckCredit(tx: Tx, client: Option<nat>, credit: bool, amount: int, currency: string, exclude: Option<nat>)
      returns (r: Result<(), Error>)
      ensures r == EnforceCreditLimit(tx.tables, client, credit, amount, currency, exclude)
    {
      if client.None? || !credit {
        return Ok(());
      }
      var t := tx.tables;
      if client.value >= |t.clients| || t.clients[client.value].creditLimit.None? {
        return Ok(());
      }
      var row := t.clients[client.value];
      if currency != row.limitCurrency {
        return Err(CREDIT_LIMIT_CURRENCY_MISMATCH);
      }
      var totals := 0;
      for id := 0 to |t.sales|
        invariant totals == SumUpTo(id, OpenTotal(t.sales, client.value, currency, exclude))
      {
        if IsOpenCreditId(t.sales, id, client.value, currency, exclude) {
          totals := totals + t.sales[id].total + t.sales[id].tax;
        }
      }
      var paid := 0;
      for k := 0 to |t.payments|
        invariant paid == SumOver(t.payments[..k], OpenPaid(t.sales, client.value, currency, exclude))
      {
        assert t.payments[..k + 1][..k] == t.payments[..k];
        var p := t.payments[k];
        if p.active && p.target.OfSale? && IsOpenCreditId(t.sales, p.target.id, client.value, currency, exclude) {
          paid := paid + p.amount;
        }
      }
      assert t.payments[..|t.payments|] == t.payments;
      if totals - paid + amount > row.creditLimit.value {
        return Err(CREDIT_LIMIT_EXCEEDED);
      }
      return Ok(());
    }

    method Create(dto: SaleDto, asDraft: bool, now: int) returns (r: Result<(), Error>)
      modifies db
      ensures Settles(old(db.tables), CreateSale(old(db.tables), dto, asDraft, now), db.tables, r)
    {
      if dto.lines == [] {
        return Err(ITEMS_REQUIRED);
      }
      var lines := Requested(dto.lines);
      var valid := ValidateLines(db.tables.items, lines, dto.warehouse);
      if valid.Err? {
        return valid;
      }
      var totals := Money.ComputeTotals(Taxables(dto.lines, dto.taxPercent));
      r := CreateInternal(dto, totals, asDraft, now);
    }

    method CreateInternal(dto: SaleDto, totals: Money.Totals, asDraft: bool, now: int) returns (r: Result<(), Error>)
      requires dto.lines != [] && ValidateLines(db.tables.items, Requested(dto.lines), dto.warehouse).Ok?
      requires totals == Money.ComputeTotals(Taxables(dto.lines, dto.taxPercent))
      modifies db
      ensures Settles(old(db.tables), CreateSale(old(db.tables), dto, asDraft, now), db.tables, r)
    {
      var tx := new Tx(db.tables);
      var lines := Requested(dto.lines);
      var sale := NewSale(dto, totals, asDraft, now);
      if !asDraft {
        var credit := CheckCredit(tx, dto.client, dto.credit, sale.total + sale.tax, dto.currency, None);
        if credit.Err? {
          return credit;
        }
        var available := CheckLines(tx.tables.items, lines);
        if available.Err? {
          return available;
        }
        var taken := TakeLines(tx, lines);
        if taken.Err? {
          return taken;
        }
      }
      if !ClientExists(tx.tables, dto.client) {
        return Err(NOT_FOUND);
      }
      tx.tables := tx.tables.(sales := tx.tables.sales + [sale]);
      db.tables := tx.tables;
      return Ok(());
    }

    method Update(id: nat, edit: SaleEdit) returns (r: Result<(), Error>)
      modifies db
      ensures Settles(old(db.tables), UpdateSale(old(db.tables), id, edit), db.tables, r)
    {
      var tx := new Tx(db.tables);
      if id >= |tx.tables.sales| {
        return Err(NOT_FOUND);
      }
      var current := tx.tables.sales[id];
      if !current.status.DRAFT? {
        return Err(INVALID_STATUS);
      }
      var warehouse := edit.warehouse.GetOr(current.warehouse);
      if edit.lines.Some? {
        var valid := ValidateLines(tx.tables.items, Requested(edit.lines.value), warehouse);
        if valid.Err? {
          return valid;
        }
      } else if warehouse != current.warehouse {
        if !StockedIn(tx.tables.items, Lines(current.lines), warehouse) {
          return Err(ITEM_NOT_IN_WAREHOUSE);
        }
      }
      if !ClientExists(tx.tables, edit.client.GetOr(current.client)) {
        return Err(NOT_FOUND);
      }
      tx.tables := tx.tables.(sales := tx.tables.sales[id := EditedSale(current, edit)]);
      db.tables := tx.tables;
      return Ok(());
    }

    method Confirm(id: nat, now: int) returns (r: Result<(), Error>)
      modifies db
      ensures Settles(old(db.tables), ConfirmSale(old(db.tables), id, now), db.tables, r)
    {
      var tx := new Tx(db.tables);
      if id >= |tx.tables.sales| {
        return Err(NOT_FOUND);
      }
      var current := tx.tables.sales[id];
      if !current.status.DRAFT? {
        return Err(INVALID_STATUS);
      }
      var confirmed := ConfirmedSale(current, now);
      var credit := CheckCredit(
        tx, current.client, current.credit, confirmed.total + confirmed.tax, current.currency, Some(id));
      if credit.Err? {
        return credit;
      }
      var available := CheckLines(tx.tables.items, Lines(current.lines));
      if available.Err? {
        return available;
      }
      var taken := TakeLines(tx, Lines(current.lines));
      if taken.Err? {
        return taken;
      }
      tx.tables := tx.tables.(sales := tx.tables.sales[id := confirmed]);
      db.tables := tx.tables;
      return Ok(());
    }

    method Cancel(id: nat, allowed: bool, now: int) returns (r: Result<(), Error>)
      modifies db
      ensures Settles(old(db.tables), CancelSale(old(db.tables), id, allowed, now), db.tables, r)
    {
      var tx := new Tx(db.tables);
      if id >= |tx.tables.sales| {
        return Err(NOT_FOUND);
      }
      var current := tx.tables.sales[id];
      if current.status.CANCELLED? {
        return Err(INVALID_STATUS);
      }
      if current.status.ACTIVE? {
        if !allowed {
          return Err(FORBIDDEN);
        }
        var paid := payments.AggregatePaid(tx, OfSale(id));
        if paid > 0 {
          return Err(HAS_ACTIVE_PAYMENTS);
        }
        var given := GiveLines(tx, Lines(current.lines));
        if given.Err? {
          return given;
        }
      }
      var cancelled := current.(status := SaleStatus.CANCELLED, cancelledAt := Some(now));
      tx.tables := tx.tables.(sales := tx.tables.sales[id := cancelled]);
      db.tables := tx.tables;
      return Ok(());
    }
  }
}
