/** What happens to a quotation's amounts between creating, editing and confirming it. */
module Quotations {
  import opened Seqs
  import opened Wrappers
  import opened Tables
  import opened Sales
  import opened Accounts
  import opened System
  import Money

  /** A percentage with no more than the two decimals its column keeps. */
  predicate AtStoredPrecision(percent: Option<real>)
  {
    percent.Some? ==> percent.value == Money.StoredPercent(percent.value)
  }

  predicate LinesAtStoredPrecision(lines: seq<LineDto>)
  {
    forall k :: 0 <= k < |lines| ==> AtStoredPrecision(lines[k].taxPercent)
  }

  predicate OpAtStoredPrecision(op: Op)
  {
    match op
    case CreateSale(dto, _, _) => AtStoredPrecision(dto.taxPercent) && LinesAtStoredPrecision(dto.lines)
    case UpdateSale(_, edit) =>
      && (edit.taxPercent.Some? ==> AtStoredPrecision(edit.taxPercent.value))
      && (edit.lines.Some? ==> LinesAtStoredPrecision(edit.lines.value))
    case _ => true
  }

  /** The amounts stored are the ones its stored lines and percentages give. */
  predicate UpToDate(s: Sale)
  {
    var totals := Money.ComputeTotals(StoredTaxables(s.lines, Percent(s.taxPercent)));
    && s.total == totals.total
    && s.tax == totals.tax
    && forall k :: 0 <= k < |s.lines| ==> s.lines[k].taxAmount == totals.lineTaxes[k]
  }

  ghost predicate QuotationsUpToDate(db: Db)
  {
    forall id :: 0 <= id < |db.sales| && db.sales[id].status.DRAFT? ==> UpToDate(db.sales[id])
  }

  lemma StorePercent(percent: Option<real>)
    requires AtStoredPrecision(percent)
    ensures Percent(Store(percent)) == percent
  {
  }

  lemma StoreStored(percent: Option<int>)
    ensures Store(Percent(percent)) == percent
  {
    if percent.Some? {
      Money.Round2OfStored(percent.value);
    }
  }

  lemma WrittenUpToDate(lines: seq<LineDto>, documentPercent: Option<real>, taxes: seq<int>)
    requires |lines| == |taxes| && LinesAtStoredPrecision(lines) && AtStoredPrecision(documentPercent)
    ensures StoredTaxables(Written(lines, taxes), Percent(Store(documentPercent))) == Taxables(lines, documentPercent)
  {
    StorePercent(documentPercent);
    forall k | 0 <= k < |lines| ensures Percent(Store(lines[k].taxPercent)) == lines[k].taxPercent {
      StorePercent(lines[k].taxPercent);
    }
  }

  lemma RetaxedUpToDate(lines: seq<PricedLine>, documentPercent: Option<real>, taxes: seq<int>)
    requires |lines| == |taxes|
    ensures StoredTaxables(Retaxed(lines, taxes), documentPercent) == StoredTaxables(lines, documentPercent)
  {
  }

  lemma CreateQuotations(db: Db, dto: SaleDto, asDraft: bool, now: int)
    requires QuotationsUpToDate(db) && Sales.CreateSale(db, dto, asDraft, now).Ok?
    requires LinesAtStoredPrecision(dto.lines) && AtStoredPrecision(dto.taxPercent)
    ensures QuotationsUpToDate(Sales.CreateSale(db, dto, asDraft, now).value)
  {
    var totals := Money.ComputeTotals(Taxables(dto.lines, dto.taxPercent));
    WrittenUpToDate(dto.lines, dto.taxPercent, totals.lineTaxes);
    assert UpToDate(NewSale(dto, totals, asDraft, now));
  }

  lemma SaleReplacedQuotations(db: Db, id: nat, sale: Sale, after: Db)
    requires QuotationsUpToDate(db) && id < |db.sales|
    requires after.sales == db.sales[id := sale] && (sale.status.DRAFT? ==> UpToDate(sale))
    ensures QuotationsUpToDate(after)
  {
  }

  predicate IsSaleOp(op: Op)
  {
    op.CreateSale? || op.UpdateSale? || op.ConfirmSale? || op.CancelSale?
  }

  lemma OtherOpsKeepSales(db: Db, op: Op)
    requires !IsSaleOp(op)
    ensures Next(db, op).sales == db.sales
  {
    if !IsMoneyOp(op) {
      OtherOpsKeepMoney(db, op);
    }
  }

  lemma StepQuotations(db: Db, op: Op)
    requires QuotationsUpToDate(db) && OpAtStoredPrecision(op)
    ensures QuotationsUpToDate(Next(db, op))
  {
    if !IsSaleOp(op) {
      OtherOpsKeepSales(db, op);
    } else if Step(db, op).Ok? {
      var after := Step(db, op).value;
      match op
      case CreateSale(dto, asDraft, now) => CreateQuotations(db, dto, asDraft, now);
      case UpdateSale(id, edit) =>
        EditedUpToDate(db.sales[id], edit);
        SaleReplacedQuotations(db, id, EditedSale(db.sales[id], edit), after);
      case ConfirmSale(id, now) => SaleReplacedQuotations(db, id, after.sales[id], after);
      case CancelSale(id, allowed, now) => SaleReplacedQuotations(db, id, after.sales[id], after);
    }
  }

  lemma EditedUpToDate(current: Sale, edit: SaleEdit)
    requires edit.taxPercent.Some? ==> AtStoredPrecision(edit.taxPercent.value)
    requires edit.lines.Some? ==> LinesAtStoredPrecision(edit.lines.value)
    ensures UpToDate(EditedSale(current, edit))
  {
    StoreStored(current.taxPercent);
    var documentPercent := edit.taxPercent.GetOr(Percent(current.taxPercent));
    assert AtStoredPrecision(documentPercent);
    if edit.lines.Some? {
      WrittenUpToDate(
        edit.lines.value, documentPercent, Money.ComputeTotals(Taxables(edit.lines.value, documentPercent)).lineTaxes);
    } else {
      StorePercent(documentPercent);
      RetaxedUpToDate(
        current.lines, documentPercent, Money.ComputeTotals(StoredTaxables(current.lines, documentPercent)).lineTaxes);
    }
  }

  lemma {:induction false} RunQuotations(db: Db, ops: seq<Op>)
    requires QuotationsUpToDate(db) && forall k :: 0 <= k < |ops| ==> OpAtStoredPrecision(ops[k])
    ensures QuotationsUpToDate(Run(db, ops))
  {
    if ops != [] {
      RunQuotations(db, ops[..|ops| - 1]);
      StepQuotations(Run(db, ops[..|ops| - 1]), ops[|ops| - 1]);
    }
  }

  /**
   Through any sequence of creates, edits and other calls whose percentages
   have at most two decimals, confirming a quotation changes none of its
   amounts: neither its total, nor its tax, nor the tax of any line.
   */
  lemma ConfirmKeepsAmounts(start: Db, ops: seq<Op>, id: nat, now: int)
    requires QuotationsUpToDate(start) && forall k :: 0 <= k < |ops| ==> OpAtStoredPrecision(ops[k])
    requires Sales.ConfirmSale(Run(start, ops), id, now).Ok?
    ensures var before := Run(start, ops).sales[id];
            var after := Sales.ConfirmSale(Run(start, ops), id, now).value.sales[id];
            after.status.ACTIVE? && after.total == before.total && after.tax == before.tax && after.lines == before.lines
  {
    RunQuotations(start, ops);
    var before := Run(start, ops).sales[id];
    assert UpToDate(before);
    assert ConfirmedSale(before, now).lines == before.lines;
  }

  /** A third decimal is enough to break it: 12.345% of 10 000.00 is quoted as 1 234.50 and confirmed as 1 235.00. */
  lemma ThirdDecimalChangesTax()
    ensures Money.LineTax(1000000, 12.345) == 123450
    ensures Money.LineTax(1000000, Money.StoredPercent(12.345)) == 123500
  {
    Money.LineTaxWithinHalfCent(1000000, 12.345);
    assert Money.Round2(12.345) == 1235;
    Money.LineTaxWithinHalfCent(1000000, Money.StoredPercent(12.345));
  }
}
