/** The money saved on sales and purchases, against the request in exact numbers. */
module Amounts {
  import opened Seqs
  import opened Wrappers
  import opened Tables
  import opened Sales
  import opened Purchases
  import opened Accounts
  import Money
  import Stock

  /** So many cents are the amount to the nearest cent. */
  predicate Nearest(cents: int, exact: real)
  {
    exact - 0.5 <= cents as real <= exact + 0.5
  }

  /** A percentage is kept with two decimals, and none stays none. */
  predicate PercentKept(stored: Option<int>, percent: Option<real>)
  {
    if percent == None then stored == None
    else stored != None && percent.value * 100.0 - 0.5 <= stored.value as real <= percent.value * 100.0 + 0.5
  }

  /** The line is the request's: its total is price times quantity, in cents, and its percentage is kept. */
  predicate LineKept(line: PricedLine, dto: LineDto)
  {
    && line.item == dto.item && line.qty == dto.qty
    && Nearest(line.lineTotal, dto.unitPrice * dto.qty as real * 100.0)
    && PercentKept(line.taxPercent, dto.taxPercent)
  }

  /** The tax on a line is its total times its own percentage, or else the document's, or else nothing. */
  predicate TaxedAt(line: PricedLine, own: Option<real>, document: Option<real>)
  {
    Nearest(
      line.taxAmount,
      line.lineTotal as real * (if own != None then own.value else if document != None then document.value else 0.0) / 100.0)
  }

  /** Price times quantity over all lines, in cents, before any rounding. */
  function Worth(lines: seq<LineDto>): real
  {
    if lines == [] then 0.0
    else
      var l := lines[|lines| - 1];
      Worth(lines[..|lines| - 1]) + l.unitPrice * l.qty as real * 100.0
  }

  function LineTotals(lines: seq<PricedLine>): int
  {
    if lines == [] then 0 else LineTotals(lines[..|lines| - 1]) + lines[|lines| - 1].lineTotal
  }

  function LineTaxes(lines: seq<PricedLine>): int
  {
    if lines == [] then 0 else LineTaxes(lines[..|lines| - 1]) + lines[|lines| - 1].taxAmount
  }

  /**
   What a request for these lines at this document percentage must come to:
   every line kept and taxed, and the document's amounts the sums of its lines'.
   */
  ghost predicate Comes(
    lines: seq<PricedLine>, total: int, tax: int, dtos: seq<LineDto>, document: Option<real>)
  {
    && |lines| == |dtos|
    && (forall k :: 0 <= k < |dtos| ==> LineKept(lines[k], dtos[k]) && TaxedAt(lines[k], dtos[k].taxPercent, document))
    && total == LineTotals(lines) && tax == LineTaxes(lines)
    && Worth(dtos) - 0.5 * |dtos| as real <= total as real <= Worth(dtos) + 0.5 * |dtos| as real
  }

  lemma RoundIsNearest(x: real)
    ensures Nearest(Money.Round2(x), x * 100.0)
  {
    Money.Round2IsNearest(x);
  }

  lemma TaxIsNearest(lineTotal: int, percent: real)
    ensures Nearest(Money.LineTax(lineTotal, percent), lineTotal as real * percent / 100.0)
  {
    Money.LineTaxWithinHalfCent(lineTotal, percent);
  }

  lemma PercentIsKept(percent: Option<real>)
    ensures PercentKept(Store(percent), percent)
  {
    if percent.Some? {
      RoundIsNearest(percent.value);
    }
  }

  lemma {:induction false} TotalsAreSums(lines: seq<PricedLine>)
    ensures SumOver(lines, LineTotalOf()) == LineTotals(lines) && SumOver(lines, LineTaxOf()) == LineTaxes(lines)
  {
    if lines != [] {
      TotalsAreSums(lines[..|lines| - 1]);
    }
  }

  lemma {:induction false} TotalsAreNear(lines: seq<PricedLine>, dtos: seq<LineDto>)
    requires |lines| == |dtos| && forall k :: 0 <= k < |dtos| ==> LineKept(lines[k], dtos[k])
    ensures Worth(dtos) - 0.5 * |dtos| as real <= LineTotals(lines) as real <= Worth(dtos) + 0.5 * |dtos| as real
  {
    if dtos != [] {
      var n := |dtos| - 1;
      assert LineKept(lines[n], dtos[n]);
      TotalsAreNear(lines[..n], dtos[..n]);
    }
  }

  lemma WrittenComes(dtos: seq<LineDto>, document: Option<real>)
    ensures var totals := Money.ComputeTotals(Taxables(dtos, document));
            Comes(Written(dtos, totals.lineTaxes), totals.total, totals.tax, dtos, document)
  {
    var taxables := Taxables(dtos, document);
    var totals := Money.ComputeTotals(taxables);
    var lines := Written(dtos, totals.lineTaxes);
    forall k | 0 <= k < |dtos| ensures LineKept(lines[k], dtos[k]) && TaxedAt(lines[k], dtos[k].taxPercent, document) {
      RoundIsNearest(dtos[k].unitPrice * dtos[k].qty as real);
      PercentIsKept(dtos[k].taxPercent);
      TaxIsNearest(lines[k].lineTotal, taxables[k].percent);
    }
    SumsOfLines(lines, taxables, totals.lineTaxes);
    TotalsAreSums(lines);
    TotalsAreNear(lines, dtos);
  }

  /** The saved sale: its amounts, and every other column as requested. */
  lemma SaleComes(db: Db, dto: SaleDto, asDraft: bool, now: int)
    requires CreateSale(db, dto, asDraft, now).Ok?
    ensures var after := CreateSale(db, dto, asDraft, now).value;
            && |after.sales| == |db.sales| + 1 && after.sales[..|db.sales|] == db.sales
            && var s := after.sales[|db.sales|];
               && Comes(s.lines, s.total, s.tax, dto.lines, dto.taxPercent)
               && PercentKept(s.taxPercent, dto.taxPercent)
               && s.status == (if asDraft then SaleStatus.DRAFT else SaleStatus.ACTIVE) && s.quoted == asDraft
               && s.createdAt == now && s.confirmedAt == (if asDraft then None else Some(now)) && s.cancelledAt == None
               && s.warehouse == dto.warehouse && s.client == dto.client && s.credit == dto.credit
               && s.currency == dto.currency
  {
    WrittenComes(dto.lines, dto.taxPercent);
    PercentIsKept(dto.taxPercent);
  }

  /** What a purchase buys: its bulk lines, and each serialized unit as one piece of a row of its own. */
  function Bought(dto: PurchaseDto, firstNew: nat): seq<LineDto>
  {
    dto.bulk + seq(|dto.units|, k requires 0 <= k < |dto.units| =>
      LineDto(firstNew + k, 1, dto.units[k].unitPrice, dto.units[k].taxPercent))
  }

  /** The saved purchase. */
  lemma PurchaseComes(db: Db, dto: PurchaseDto, now: int)
    requires CreatePurchase(db, dto, now).Ok?
    ensures var after := CreatePurchase(db, dto, now).value;
            && |after.purchases| == |db.purchases| + 1 && after.purchases[..|db.purchases|] == db.purchases
            && var p := after.purchases[|db.purchases|];
               && Comes(p.lines, p.total, p.tax, Bought(dto, |db.items|), dto.taxPercent)
               && p.status == DocStatus.ACTIVE && p.createdAt == now && p.cancelledAt == None && p.warehouse == dto.warehouse
  {
    assert AllLines(dto, |db.items|) == Bought(dto, |db.items|);
    WrittenComes(AllLines(dto, |db.items|), dto.taxPercent);
  }

  lemma UnitRows(units: seq<UnitDto>, warehouse: string)
    ensures |NewUnits(units, warehouse)| == |units|
    ensures forall k :: 0 <= k < |units| ==>
              NewUnits(units, warehouse)[k]
              == Item(units[k].name, units[k].category, None, warehouse, UNIQUE, 1, false, 0)
  {
  }

  lemma PurchasedItems(db: Db, dto: PurchaseDto, now: int)
    requires CreatePurchase(db, dto, now).Ok?
    ensures var given := Stock.GiveAll(db.items, Requested(dto.bulk));
            && given.Ok? && |given.value| == |db.items|
            && CreatePurchase(db, dto, now).value.items == given.value + NewUnits(dto.units, dto.warehouse)
  {
    Stock.GiveAllIff(db.items, Requested(dto.bulk));
  }

  /** The rows made for the serialized units of a purchase. */
  lemma UnitsCome(db: Db, dto: PurchaseDto, now: int)
    requires CreatePurchase(db, dto, now).Ok?
    ensures var items := CreatePurchase(db, dto, now).value.items;
            && |items| == |db.items| + |dto.units|
            && forall k :: 0 <= k < |dto.units| ==>
                 items[|db.items| + k]
                 == Item(dto.units[k].name, dto.units[k].category, None, dto.warehouse, UNIQUE, 1, false, 0)
  {
    PurchasedItems(db, dto, now);
    UnitRows(dto.units, dto.warehouse);
  }

  // Edits and confirmation

  /** The lines as they were, taxed anew: at their own stored percentages, or else the document's. */
  ghost predicate Retaxes(
    lines: seq<PricedLine>, total: int, tax: int, before: seq<PricedLine>, document: Option<real>)
  {
    && |lines| == |before|
    && (forall k :: 0 <= k < |before| ==>
          && lines[k] == before[k].(taxAmount := lines[k].taxAmount)
          && TaxedAt(
               lines[k],
               if before[k].taxPercent != None then Some(before[k].taxPercent.value as real / 100.0) else None, document))
    && total == LineTotals(lines) && tax == LineTaxes(lines)
  }

  lemma RetaxedComes(before: seq<PricedLine>, document: Option<real>)
    ensures var totals := Money.ComputeTotals(StoredTaxables(before, document));
            Retaxes(Retaxed(before, totals.lineTaxes), totals.total, totals.tax, before, document)
  {
    var taxables := StoredTaxables(before, document);
    var totals := Money.ComputeTotals(taxables);
    var lines := Retaxed(before, totals.lineTaxes);
    forall k | 0 <= k < |before|
      ensures TaxedAt(
                lines[k],
                if before[k].taxPercent != None then Some(before[k].taxPercent.value as real / 100.0) else None, document)
    {
      TaxIsNearest(lines[k].lineTotal, taxables[k].percent);
    }
    SumsOfLines(lines, taxables, totals.lineTaxes);
    TotalsAreSums(lines);
  }

  /** The document percentage after an edit: the one it gives, none included, or else the stored one. */
  function DocumentPercent(current: Sale, edit: SaleEdit): Option<real>
  {
    if edit.taxPercent != None then edit.taxPercent.value
    else if current.taxPercent != None then Some(current.taxPercent.value as real / 100.0) else None
  }

  /** An edited quotation: the fields given are the new ones, the others the old, and the amounts follow. */
  lemma EditComes(db: Db, id: nat, edit: SaleEdit)
    requires UpdateSale(db, id, edit).Ok?
    ensures var after := UpdateSale(db, id, edit).value;
            && |after.sales| == |db.sales| && after == db.(sales := db.sales[id := after.sales[id]])
            && var s, current, percent := after.sales[id], db.sales[id], DocumentPercent(db.sales[id], edit);
               && PercentKept(s.taxPercent, percent)
               && (if edit.lines != None then Comes(s.lines, s.total, s.tax, edit.lines.value, percent)
                   else Retaxes(s.lines, s.total, s.tax, current.lines, percent))
               && s.warehouse == (if edit.warehouse != None then edit.warehouse.value else current.warehouse)
               && s.client == (if edit.client != None then edit.client.value else current.client)
               && s.credit == (if edit.credit != None then edit.credit.value else current.credit)
               && s.currency == (if edit.currency != None then edit.currency.value else current.currency)
               && s.status == current.status && s.quoted == current.quoted && s.createdAt == current.createdAt
               && s.confirmedAt == current.confirmedAt && s.cancelledAt == current.cancelledAt
  {
    var percent := DocumentPercent(db.sales[id], edit);
    assert edit.taxPercent.GetOr(Percent(db.sales[id].taxPercent)) == percent;
    PercentIsKept(percent);
    if edit.lines.Some? {
      WrittenComes(edit.lines.value, percent);
    } else {
      RetaxedComes(db.sales[id].lines, percent);
    }
  }

  /** A confirmed sale is the quotation, ACTIVE and taxed at its stored percentages. */
  lemma ConfirmationComes(db: Db, id: nat, now: int)
    requires ConfirmSale(db, id, now).Ok?
    ensures var after := ConfirmSale(db, id, now).value;
            && |after.sales| == |db.sales| && after == db.(items := after.items, sales := db.sales[id := after.sales[id]])
            && var s, current := after.sales[id], db.sales[id];
               && s == current.(
                    status := SaleStatus.ACTIVE, confirmedAt := Some(now), total := s.total, tax := s.tax, lines := s.lines)
               && Retaxes(
                    s.lines, s.total, s.tax, current.lines,
                    if current.taxPercent != None then Some(current.taxPercent.value as real / 100.0) else None)
  {
    RetaxedComes(db.sales[id].lines, Percent(db.sales[id].taxPercent));
  }
}
