/**
 Money over whole runs: document totals, payments against balances, and
 client credit limits.
 */
module Accounts {
  import opened Seqs
  import opened Wrappers
  import opened Tables
  import opened Stock
  import opened Payments
  import opened Sales
  import opened Purchases
  import opened System
  import Money

  // What the request validation guarantees

  predicate PercentOk(percent: Option<real>)
  {
    percent.Some? ==> 0.0 <= percent.value <= 100.0
  }

  predicate LinesOk(lines: seq<LineDto>)
  {
    forall k :: 0 <= k < |lines| ==> lines[k].unitPrice >= 0.0 && PercentOk(lines[k].taxPercent)
  }

  predicate UnitsOk(units: seq<UnitDto>)
  {
    forall k :: 0 <= k < |units| ==> units[k].unitPrice >= 0.0 && PercentOk(units[k].taxPercent)
  }

  /** Prices are not negative, percentages lie in 0..100 and payments are positive. */
  predicate Validated(op: Op)
  {
    match op
    case CreateSale(dto, _, _) => LinesOk(dto.lines) && PercentOk(dto.taxPercent)
    case UpdateSale(_, edit) =>
      (edit.lines.Some? ==> LinesOk(edit.lines.value)) && (edit.taxPercent.Some? ==> PercentOk(edit.taxPercent.value))
    case CreatePurchase(dto, _) => LinesOk(dto.bulk) && UnitsOk(dto.units) && PercentOk(dto.taxPercent)
    case Pay(_, amount) => amount > 0.0
    case _ => true
  }

  // Totals

  function LineTotalOf(): PricedLine -> int
  {
    (l: PricedLine) => l.lineTotal
  }

  function LineTaxOf(): PricedLine -> int
  {
    (l: PricedLine) => l.taxAmount
  }

  predicate StoredPercentOk(percent: Option<int>)
  {
    percent.Some? ==> 0 <= percent.value <= 10000
  }

  predicate StoredLinesOk(lines: seq<PricedLine>)
  {
    forall k :: 0 <= k < |lines| ==> lines[k].lineTotal >= 0 && StoredPercentOk(lines[k].taxPercent)
  }

  /** The amounts on the document are the sums of the amounts on its lines, and the tax is at most the total. */
  predicate AmountsAgree(lines: seq<PricedLine>, total: int, tax: int)
  {
    && total == SumOver(lines, LineTotalOf())
    && tax == SumOver(lines, LineTaxOf())
    && 0 <= tax <= total
  }

  predicate SaleAmountsOk(s: Sale)
  {
    StoredLinesOk(s.lines) && StoredPercentOk(s.taxPercent) && AmountsAgree(s.lines, s.total, s.tax)
  }

  predicate PurchaseAmountsOk(p: Purchase)
  {
    AmountsAgree(p.lines, p.total, p.tax)
  }

  lemma {:induction false} SumsOfLines(lines: seq<PricedLine>, taxables: seq<Money.Taxable>, taxes: seq<int>)
    requires |lines| == |taxables| == |taxes|
    requires forall k :: 0 <= k < |lines| ==> lines[k].lineTotal == taxables[k].lineTotal && lines[k].taxAmount == taxes[k]
    ensures SumOver(lines, LineTotalOf()) == SumOver(taxables, Money.TotalOf())
    ensures SumOver(lines, LineTaxOf()) == SumOver(taxes, Money.Identity())
  {
    if lines != [] {
      var n := |lines| - 1;
      SumsOfLines(lines[..n], taxables[..n], taxes[..n]);
    }
  }

  /** Rows written from computeTotals agree with its totals. */
  lemma ComputedAmountsAgree(lines: seq<PricedLine>, taxables: seq<Money.Taxable>)
    requires |lines| == |taxables|
    requires forall k :: 0 <= k < |lines| ==> lines[k].lineTotal == taxables[k].lineTotal
    requires forall k :: 0 <= k < |lines| ==> lines[k].taxAmount == Money.ComputeTotals(taxables).lineTaxes[k]
    requires forall k :: 0 <= k < |taxables| ==> 0 <= taxables[k].lineTotal && 0.0 <= taxables[k].percent <= 100.0
    ensures AmountsAgree(lines, Money.ComputeTotals(taxables).total, Money.ComputeTotals(taxables).tax)
  {
    SumsOfLines(lines, taxables, Money.ComputeTotals(taxables).lineTaxes);
    Money.TaxAtMostTotal(taxables);
  }

  lemma RoundedBounds(x: real, bound: int)
    requires 0.0 <= x
    ensures Money.Round2(x) >= 0
    ensures x <= Money.Value(bound) ==> Money.Round2(x) <= bound
  {
    Money.Round2IsNearest(x);
    assert Money.Round2(x) as real > -1.0;
    if x <= Money.Value(bound) {
      Money.StoringKeepsUpperBound(x, bound);
    }
  }

  lemma RequestedPercentInBounds(percent: Option<real>)
    requires PercentOk(percent)
    ensures StoredPercentOk(Store(percent))
  {
    if percent.Some? {
      assert Money.Value(10000) == 100.0;
      RoundedBounds(percent.value, 10000);
    }
  }

  lemma WrittenAmounts(lines: seq<LineDto>, documentPercent: Option<real>)
    requires LinesOk(lines) && PercentOk(documentPercent)
    ensures var totals := Money.ComputeTotals(Taxables(lines, documentPercent));
            var rows := Written(lines, totals.lineTaxes);
            StoredLinesOk(rows) && AmountsAgree(rows, totals.total, totals.tax)
  {
    var taxables := Taxables(lines, documentPercent);
    forall k | 0 <= k < |lines|
      ensures 0 <= taxables[k].lineTotal && 0.0 <= taxables[k].percent <= 100.0
      ensures StoredPercentOk(Store(lines[k].taxPercent))
    {
      var exact := lines[k].unitPrice * lines[k].qty as real;
      assert exact >= 0.0;
      RoundedBounds(exact, 0);
      assert taxables[k].lineTotal == LineTotal(lines[k]);
      RequestedPercentInBounds(lines[k].taxPercent);
    }
    ComputedAmountsAgree(Written(lines, Money.ComputeTotals(taxables).lineTaxes), taxables);
  }

  lemma RetaxedAmounts(lines: seq<PricedLine>, documentPercent: Option<real>)
    requires StoredLinesOk(lines) && PercentOk(documentPercent)
    ensures var totals := Money.ComputeTotals(StoredTaxables(lines, documentPercent));
            var rows := Retaxed(lines, totals.lineTaxes);
            StoredLinesOk(rows) && AmountsAgree(rows, totals.total, totals.tax)
  {
    var taxables := StoredTaxables(lines, documentPercent);
    forall k | 0 <= k < |lines| ensures 0.0 <= taxables[k].percent <= 100.0 {
      if lines[k].taxPercent.Some? {
        assert 0.0 <= Money.Value(lines[k].taxPercent.value) <= 100.0;
      }
    }
    ComputedAmountsAgree(Retaxed(lines, Money.ComputeTotals(taxables).lineTaxes), taxables);
  }

  lemma StoredPercentReads(percent: Option<int>)
    requires StoredPercentOk(percent)
    ensures PercentOk(Percent(percent))
  {
  }

  lemma EditedAmounts(current: Sale, edit: SaleEdit)
    requires SaleAmountsOk(current)
    requires edit.lines.Some? ==> LinesOk(edit.lines.value)
    requires edit.taxPercent.Some? ==> PercentOk(edit.taxPercent.value)
    ensures SaleAmountsOk(EditedSale(current, edit))
  {
    StoredPercentReads(current.taxPercent);
    var documentPercent := edit.taxPercent.GetOr(Percent(current.taxPercent));
    RequestedPercentInBounds(documentPercent);
    if edit.lines.Some? {
      WrittenAmounts(edit.lines.value, documentPercent);
    } else {
      RetaxedAmounts(current.lines, documentPercent);
    }
  }

  // Payments

  /** Active payments never exceed what an ACTIVE document is worth, and add up to nothing on any other. */
  predicate PaidOk(db: Db, target: Target)
    requires TargetExists(db, target)
  {
    var paid := ActivePaid(db.payments, target);
    if TargetActive(db, target) then 0 <= paid <= TargetTotal(db, target) else paid == 0
  }

  predicate IsQuotation(db: Db, target: Target)
  {
    target.OfSale? && target.id < |db.sales| && db.sales[target.id].status.DRAFT?
  }

  predicate PaymentOk(db: Db, p: Payment)
  {
    TargetExists(db, p.target) && !IsQuotation(db, p.target) && p.amount >= 0
  }

  ghost predicate AmountsOk(db: Db)
  {
    && (forall k :: 0 <= k < |db.sales| ==> SaleAmountsOk(db.sales[k]))
    && (forall k :: 0 <= k < |db.purchases| ==> PurchaseAmountsOk(db.purchases[k]))
  }

  ghost predicate PaymentsOk(db: Db)
  {
    && (forall k :: 0 <= k < |db.payments| ==> PaymentOk(db, db.payments[k]))
    && (forall target: Target :: TargetExists(db, target) ==> PaidOk(db, target))
  }

  lemma NothingPaidOn(payments: seq<Payment>, target: Target)
    requires forall k :: 0 <= k < |payments| ==> payments[k].target != target
    ensures ActivePaid(payments, target) == 0
  {
    SumZero(payments, PaidTo(target));
  }

  // Credit limits

  /** A credit sale of the client in this currency, open or cancelled. */
  predicate IsCreditSale(s: Sale, client: nat, currency: string)
  {
    s.client == Some(client) && s.credit && s.currency == currency
  }

  predicate SameTerms(a: Sale, b: Sale)
  {
    a.client == b.client && a.credit == b.credit && a.currency == b.currency
  }

  /** Payments voided on credit sales of the client in this currency. */
  function VoidedOf(sales: seq<Sale>, client: nat, currency: string): Payment -> int
  {
    (p: Payment) =>
      if !p.active && p.target.OfSale? && p.target.id < |sales| && IsCreditSale(sales[p.target.id], client, currency)
      then p.amount else 0
  }

  function Voided(db: Db, client: nat, currency: string): int
  {
    SumOver(db.payments, VoidedOf(db.sales, client, currency))
  }

  predicate CreditOk(db: Db, client: nat)
    requires client < |db.clients|
  {
    var row := db.clients[client];
    row.creditLimit.Some? ==>
      Outstanding(db, client, row.limitCurrency, None) <= row.creditLimit.value + Voided(db, client, row.limitCurrency)
  }

  ghost predicate CreditsOk(db: Db)
  {
    forall client :: 0 <= client < |db.clients| ==> CreditOk(db, client)
  }

  ghost predicate BooksOk(db: Db)
  {
    AmountsOk(db) && PaymentsOk(db) && CreditsOk(db)
  }

  lemma VoidedIsNonNegative(db: Db, client: nat, currency: string)
    requires PaymentsOk(db)
    ensures Voided(db, client, currency) >= 0
  {
    forall k | 0 <= k < |db.payments| ensures VoidedOf(db.sales, client, currency)(db.payments[k]) >= 0 {
      assert PaymentOk(db, db.payments[k]);
    }
    SumNonNegative(db.payments, VoidedOf(db.sales, client, currency));
  }

  // A sale row added at the end

  lemma SaleRowAddedPayments(db: Db, sale: Sale)
    requires PaymentsOk(db) && SaleAmountsOk(sale)
    ensures PaymentsOk(db.(sales := db.sales + [sale]))
  {
    var after := db.(sales := db.sales + [sale]);
    forall k | 0 <= k < |after.payments| ensures PaymentOk(after, after.payments[k]) {
      assert PaymentOk(db, db.payments[k]);
    }
    forall target: Target | TargetExists(after, target) ensures PaidOk(after, target) {
      if TargetExists(db, target) {
        assert PaidOk(db, target);
      } else {
        forall k | 0 <= k < |db.payments| ensures db.payments[k].target != target {
          assert PaymentOk(db, db.payments[k]);
        }
        NothingPaidOn(db.payments, target);
      }
    }
  }

  lemma SaleRowAddedCredit(db: Db, sale: Sale, client: nat, currency: string)
    requires PaymentsOk(db)
    ensures var after := db.(sales := db.sales + [sale]);
            && Outstanding(after, client, currency, None)
               == Outstanding(db, client, currency, None)
                  + (if IsOpenCredit(sale, client, currency) then sale.total + sale.tax else 0)
            && Voided(after, client, currency) == Voided(db, client, currency)
  {
    var after := db.(sales := db.sales + [sale]);
    var n := |db.sales|;
    SumUpToSame(n, OpenTotal(after.sales, client, currency, None), OpenTotal(db.sales, client, currency, None));
    forall k | 0 <= k < |db.payments|
      ensures OpenPaid(after.sales, client, currency, None)(db.payments[k])
              == OpenPaid(db.sales, client, currency, None)(db.payments[k])
      ensures VoidedOf(after.sales, client, currency)(db.payments[k]) == VoidedOf(db.sales, client, currency)(db.payments[k])
    {
      assert PaymentOk(db, db.payments[k]);
    }
    SumSame(db.payments, OpenPaid(after.sales, client, currency, None), OpenPaid(db.sales, client, currency, None));
    SumSame(db.payments, VoidedOf(after.sales, client, currency), VoidedOf(db.sales, client, currency));
  }

  // A sale row replaced

  lemma SumUpToPoint(n: nat, f: nat -> int, g: nat -> int, id: nat)
    requires id < n && forall i: nat :: i < n && i != id ==> f(i) == g(i)
    ensures SumUpTo(n, f) == SumUpTo(n, g) - g(id) + f(id)
  {
    SumUpToSame(id, f, g);
    var k := id + 1;
    while k < n
      invariant id < k <= n
      invariant SumUpTo(k, f) == SumUpTo(k, g) - g(id) + f(id)
    {
      k := k + 1;
    }
  }

  /** Payments that count toward the client's open sales move only with the status of their own sale. */
  lemma SaleRowReplacedCredit(db: Db, id: nat, sale: Sale, client: nat, currency: string)
    requires PaymentsOk(db) && id < |db.sales|
    requires db.sales[id].status.DRAFT? || SameTerms(sale, db.sales[id])
    requires ActivePaid(db.payments, OfSale(id)) == 0
    ensures var after := db.(sales := db.sales[id := sale]);
            && Outstanding(after, client, currency, None)
               == Outstanding(db, client, currency, None)
                  - (if IsOpenCredit(db.sales[id], client, currency) then db.sales[id].total + db.sales[id].tax else 0)
                  + (if IsOpenCredit(sale, client, currency) then sale.total + sale.tax else 0)
            && Voided(after, client, currency) == Voided(db, client, currency)
  {
    var sales := db.sales[id := sale];
    var before, after := OpenPaid(db.sales, client, currency, None), OpenPaid(sales, client, currency, None);
    SumUpToPoint(
      |sales|, OpenTotal(sales, client, currency, None), OpenTotal(db.sales, client, currency, None), id);
    forall k | 0 <= k < |db.payments|
      ensures db.payments[k].amount >= 0
      ensures VoidedOf(sales, client, currency)(db.payments[k]) == VoidedOf(db.sales, client, currency)(db.payments[k])
      ensures PaidTo(OfSale(id))(db.payments[k]) >= 0
    {
      assert PaymentOk(db, db.payments[k]);
    }
    forall k | 0 <= k < |db.payments| ensures before(db.payments[k]) == after(db.payments[k]) {
      SumAtLeastTerm(db.payments, k, PaidTo(OfSale(id)));
      assert PaidTo(OfSale(id))(db.payments[k]) == 0;
    }
    SumSame(db.payments, before, after);
    SumSame(db.payments, VoidedOf(sales, client, currency), VoidedOf(db.sales, client, currency));
  }

  lemma SaleRowReplacedPayments(db: Db, id: nat, sale: Sale)
    requires PaymentsOk(db) && id < |db.sales| && SaleAmountsOk(sale)
    requires sale.status.DRAFT? ==> db.sales[id].status.DRAFT?
    requires ActivePaid(db.payments, OfSale(id)) == 0
    ensures PaymentsOk(db.(sales := db.sales[id := sale]))
  {
    var after := db.(sales := db.sales[id := sale]);
    forall k | 0 <= k < |after.payments| ensures PaymentOk(after, after.payments[k]) {
      assert PaymentOk(db, db.payments[k]);
    }
    forall target: Target | TargetExists(after, target) ensures PaidOk(after, target) {
      assert PaidOk(db, target);
    }
  }

  // The operations

  lemma CreateSaleBooks(db: Db, dto: SaleDto, asDraft: bool, now: int)
    requires BooksOk(db) && Validated(Op.CreateSale(dto, asDraft, now)) && Sales.CreateSale(db, dto, asDraft, now).Ok?
    ensures BooksOk(Sales.CreateSale(db, dto, asDraft, now).value)
  {
    var totals := Money.ComputeTotals(Taxables(dto.lines, dto.taxPercent));
    var sale := NewSale(dto, totals, asDraft, now);
    var after := Sales.CreateSale(db, dto, asDraft, now).value;
    WrittenAmounts(dto.lines, dto.taxPercent);
    RequestedPercentInBounds(dto.taxPercent);
    assert SaleAmountsOk(sale);
    BooksReadNoItems(db, after.items);
    var here := db.(items := after.items);
    SaleRowAddedPayments(here, sale);
    assert after == here.(sales := here.sales + [sale]);
    forall client | 0 <= client < |after.clients| ensures CreditOk(after, client) {
      assert CreditOk(here, client);
      SaleRowAddedCredit(here, sale, client, after.clients[client].limitCurrency);
      VoidedIsNonNegative(db, client, db.clients[client].limitCurrency);
      OutstandingReadsNoItems(db, after.items, client);
    }
  }

  lemma OutstandingReadsNoItems(db: Db, items: seq<Item>, client: nat)
    requires client < |db.clients|
    ensures Outstanding(db.(items := items), client, db.clients[client].limitCurrency, None)
            == Outstanding(db, client, db.clients[client].limitCurrency, None)
    ensures forall currency :: Voided(db.(items := items), client, currency) == Voided(db, client, currency)
  {
  }

  /** Stock rows play no part in the books. */
  lemma BooksReadNoItems(db: Db, items: seq<Item>)
    requires BooksOk(db)
    ensures BooksOk(db.(items := items))
  {
    BooksReadMoneyOnly(db, db.(items := items));
  }

  lemma BooksReadMoneyOnly(db: Db, after: Db)
    requires BooksOk(db)
    requires after.sales == db.sales && after.purchases == db.purchases
    requires after.payments == db.payments && after.clients == db.clients
    ensures BooksOk(after)
  {
    forall k | 0 <= k < |after.payments| ensures PaymentOk(after, after.payments[k]) {
      assert PaymentOk(db, db.payments[k]);
    }
    forall target: Target | TargetExists(after, target) ensures PaidOk(after, target) {
      assert TargetExists(db, target);
      assert PaidOk(db, target);
    }
    forall client | 0 <= client < |after.clients| ensures CreditOk(after, client) {
      assert CreditOk(db, client);
    }
  }

  lemma UpdateSaleBooks(db: Db, id: nat, edit: SaleEdit)
    requires BooksOk(db) && Validated(Op.UpdateSale(id, edit)) && Sales.UpdateSale(db, id, edit).Ok?
    ensures BooksOk(Sales.UpdateSale(db, id, edit).value)
  {
    var sale := EditedSale(db.sales[id], edit);
    assert SaleAmountsOk(db.sales[id]);
    EditedAmounts(db.sales[id], edit);
    QuotationUnpaid(db, id);
    ReplacedSaleBooks(db, id, sale);
  }

  /** No payment was ever recorded on a quotation. */
  lemma QuotationUnpaid(db: Db, id: nat)
    requires PaymentsOk(db) && id < |db.sales| && db.sales[id].status.DRAFT?
    ensures ActivePaid(db.payments, OfSale(id)) == 0
  {
    assert PaidOk(db, OfSale(id));
  }

  /** Replacing a sale row keeps the books when the sale is new to the client's open credit only within the limit. */
  lemma ReplacedSaleBooks(db: Db, id: nat, sale: Sale)
    requires BooksOk(db) && id < |db.sales| && SaleAmountsOk(sale)
    requires db.sales[id].status.DRAFT? || SameTerms(sale, db.sales[id])
    requires sale.status.DRAFT? ==> db.sales[id].status.DRAFT?
    requires ActivePaid(db.payments, OfSale(id)) == 0
    requires sale.status.ACTIVE? ==>
               db.sales[id].status.DRAFT?
               && EnforceCreditLimit(db, sale.client, sale.credit, sale.total + sale.tax, sale.currency, Some(id)).Ok?
    ensures BooksOk(db.(sales := db.sales[id := sale]))
  {
    var after := db.(sales := db.sales[id := sale]);
    SaleRowReplacedPayments(db, id, sale);
    forall client | 0 <= client < |after.clients| ensures CreditOk(after, client) {
      var currency := after.clients[client].limitCurrency;
      assert CreditOk(db, client);
      assert SaleAmountsOk(db.sales[id]);
      SaleRowReplacedCredit(db, id, sale, client, currency);
      VoidedIsNonNegative(db, client, db.clients[client].limitCurrency);
      if IsOpenCredit(sale, client, currency) {
        OwnRowNotOpen(db, id, client, currency);
      }
    }
  }

  /** Excluding a quotation from the open sales excludes nothing. */
  lemma OwnRowNotOpen(db: Db, id: nat, client: nat, currency: string)
    requires id < |db.sales| && db.sales[id].status.DRAFT?
    ensures Outstanding(db, client, currency, Some(id)) == Outstanding(db, client, currency, None)
  {
    SumUpToSame(|db.sales|, OpenTotal(db.sales, client, currency, Some(id)), OpenTotal(db.sales, client, currency, None));
    SumSame(db.payments, OpenPaid(db.sales, client, currency, Some(id)), OpenPaid(db.sales, client, currency, None));
  }

  lemma ConfirmedAmounts(current: Sale, now: int)
    requires SaleAmountsOk(current)
    ensures SaleAmountsOk(ConfirmedSale(current, now))
  {
    StoredPercentReads(current.taxPercent);
    RetaxedAmounts(current.lines, Percent(current.taxPercent));
  }

  lemma ConfirmSaleBooks(db: Db, id: nat, now: int)
    requires BooksOk(db) && Sales.ConfirmSale(db, id, now).Ok?
    ensures BooksOk(Sales.ConfirmSale(db, id, now).value)
  {
    var sale := ConfirmedSale(db.sales[id], now);
    assert SaleAmountsOk(db.sales[id]);
    ConfirmedAmounts(db.sales[id], now);
    QuotationUnpaid(db, id);
    ReplacedSaleBooks(db, id, sale);
    var after := Sales.ConfirmSale(db, id, now).value;
    BooksReadMoneyOnly(db.(sales := db.sales[id := sale]), after);
  }

  lemma CancelSaleBooks(db: Db, id: nat, allowed: bool, now: int)
    requires BooksOk(db) && Sales.CancelSale(db, id, allowed, now).Ok?
    ensures BooksOk(Sales.CancelSale(db, id, allowed, now).value)
  {
    var after := Sales.CancelSale(db, id, allowed, now).value;
    var sale := after.sales[id];
    assert SaleAmountsOk(db.sales[id]);
    assert PaidOk(db, OfSale(id));
    ReplacedSaleBooks(db, id, sale);
    assert after.sales == db.sales[id := sale];
    BooksReadMoneyOnly(db.(sales := db.sales[id := sale]), after);
  }

  lemma PurchaseRowBooks(db: Db, purchases: seq<Purchase>)
    requires BooksOk(db)
    requires forall k :: 0 <= k < |purchases| ==> PurchaseAmountsOk(purchases[k])
    requires |db.purchases| <= |purchases|
    requires forall k :: 0 <= k < |db.purchases| ==>
               db.purchases[k] == purchases[k]
               || (purchases[k].status.CANCELLED? && ActivePaid(db.payments, OfPurchase(k)) == 0)
    ensures BooksOk(db.(purchases := purchases))
  {
    var after := db.(purchases := purchases);
    forall k | 0 <= k < |after.payments| ensures PaymentOk(after, after.payments[k]) {
      assert PaymentOk(db, db.payments[k]);
    }
    forall target: Target | TargetExists(after, target) ensures PaidOk(after, target) {
      if TargetExists(db, target) {
        assert PaidOk(db, target);
      } else {
        forall k | 0 <= k < |db.payments| ensures db.payments[k].target != target {
          assert PaymentOk(db, db.payments[k]);
        }
        NothingPaidOn(db.payments, target);
      }
    }
    forall client | 0 <= client < |after.clients| ensures CreditOk(after, client) {
      assert CreditOk(db, client);
    }
  }

  lemma CreatePurchaseBooks(db: Db, dto: PurchaseDto, now: int)
    requires BooksOk(db) && Validated(Op.CreatePurchase(dto, now)) && Purchases.CreatePurchase(db, dto, now).Ok?
    ensures BooksOk(Purchases.CreatePurchase(db, dto, now).value)
  {
    var after := Purchases.CreatePurchase(db, dto, now).value;
    var all := AllLines(dto, |db.items|);
    forall k | 0 <= k < |all| ensures all[k].unitPrice >= 0.0 && PercentOk(all[k].taxPercent) {
      if k >= |dto.bulk| {
        assert all[k].unitPrice == dto.units[k - |dto.bulk|].unitPrice;
      }
    }
    WrittenAmounts(all, dto.taxPercent);
    assert PurchaseAmountsOk(NewPurchase(dto, |db.items|, now));
    PurchaseRowBooks(db, after.purchases);
    BooksReadMoneyOnly(db.(purchases := after.purchases), after);
  }

  lemma CancelPurchaseBooks(db: Db, id: nat, now: int)
    requires BooksOk(db) && Purchases.CancelPurchase(db, id, now).Ok?
    ensures BooksOk(Purchases.CancelPurchase(db, id, now).value)
  {
    var after := Purchases.CancelPurchase(db, id, now).value;
    assert PaidOk(db, OfPurchase(id));
    assert PurchaseAmountsOk(db.purchases[id]);
    PurchaseRowBooks(db, after.purchases);
    BooksReadMoneyOnly(db.(purchases := after.purchases), after);
  }

  lemma PayBooks(db: Db, target: Target, amount: real)
    requires BooksOk(db) && amount > 0.0 && Payments.Pay(db, target, amount).Ok?
    ensures BooksOk(Payments.Pay(db, target, amount).value)
  {
    var after := Payments.Pay(db, target, amount).value;
    var p := Payment(target, Money.Round2(amount), true);
    RoundedBounds(amount, 0);
    Money.StoringKeepsUpperBound(amount, Balance(db, target));
    forall k | 0 <= k < |after.payments| ensures PaymentOk(after, after.payments[k]) {
      if k < |db.payments| {
        assert PaymentOk(db, db.payments[k]);
      }
    }
    forall other: Target | TargetExists(after, other) ensures PaidOk(after, other) {
      assert TargetExists(db, other);
      assert PaidOk(db, other);
      SumSnoc(db.payments, p, PaidTo(other));
    }
    forall client | 0 <= client < |after.clients| ensures CreditOk(after, client) {
      assert CreditOk(db, client);
      SumSnoc(db.payments, p, OpenPaid(db.sales, client, db.clients[client].limitCurrency, None));
      SumSnoc(db.payments, p, VoidedOf(db.sales, client, db.clients[client].limitCurrency));
    }
  }

  lemma VoidPaymentBooks(db: Db, id: nat)
    requires BooksOk(db) && Payments.VoidPayment(db, id).Ok?
    ensures BooksOk(Payments.VoidPayment(db, id).value)
  {
    var after := Payments.VoidPayment(db, id).value;
    var p := after.payments[id];
    assert PaymentOk(db, db.payments[id]);
    forall k | 0 <= k < |after.payments| ensures PaymentOk(after, after.payments[k]) {
      assert PaymentOk(db, db.payments[k]);
    }
    forall other: Target | TargetExists(after, other) ensures PaidOk(after, other) {
      assert TargetExists(db, other);
      assert PaidOk(db, other);
      SumUpdate(db.payments, id, p, PaidTo(other));
      forall k | 0 <= k < |after.payments| ensures PaidTo(other)(after.payments[k]) >= 0 {
        assert PaymentOk(after, after.payments[k]);
      }
      SumNonNegative(after.payments, PaidTo(other));
    }
    forall client | 0 <= client < |after.clients| ensures CreditOk(after, client) {
      assert CreditOk(db, client);
      SumUpdate(db.payments, id, p, OpenPaid(db.sales, client, db.clients[client].limitCurrency, None));
      SumUpdate(db.payments, id, p, VoidedOf(db.sales, client, db.clients[client].limitCurrency));
    }
  }

  predicate IsMoneyOp(op: Op)
  {
    op.CreateSale? || op.UpdateSale? || op.ConfirmSale? || op.CancelSale? || op.CreatePurchase? || op.CancelPurchase?
    || op.Pay? || op.VoidPayment?
  }

  lemma OtherOpsKeepMoney(db: Db, op: Op)
    requires !IsMoneyOp(op)
    ensures var after := Next(db, op);
            && after.sales == db.sales && after.purchases == db.purchases
            && after.payments == db.payments && after.clients == db.clients
  {
  }

  lemma StepBooks(db: Db, op: Op)
    requires BooksOk(db) && Validated(op)
    ensures BooksOk(Next(db, op))
  {
    if !IsMoneyOp(op) {
      OtherOpsKeepMoney(db, op);
      BooksReadMoneyOnly(db, Next(db, op));
    } else if Step(db, op).Ok? {
      match op
      case CreateSale(dto, asDraft, now) => CreateSaleBooks(db, dto, asDraft, now);
      case UpdateSale(id, edit) => UpdateSaleBooks(db, id, edit);
      case ConfirmSale(id, now) => ConfirmSaleBooks(db, id, now);
      case CancelSale(id, allowed, now) => CancelSaleBooks(db, id, allowed, now);
      case CreatePurchase(purchase, now) => CreatePurchaseBooks(db, purchase, now);
      case CancelPurchase(id, now) => CancelPurchaseBooks(db, id, now);
      case Pay(target, amount) => PayBooks(db, target, amount);
      case VoidPayment(id) => VoidPaymentBooks(db, id);
    }
  }

  /**
   Over every run of validated calls: document amounts are the sums of their
   lines, active payments stay within an ACTIVE document's total and are
   nothing on any other, and each limited client's open credit stays within
   its limit plus the payments voided.
   */
  lemma {:induction false} RunBooks(db: Db, ops: seq<Op>)
    requires BooksOk(db) && forall k :: 0 <= k < |ops| ==> Validated(ops[k])
    ensures BooksOk(Run(db, ops))
  {
    if ops != [] {
      RunBooks(db, ops[..|ops| - 1]);
      StepBooks(Run(db, ops[..|ops| - 1]), ops[|ops| - 1]);
    }
  }

  lemma EmptyBooks(clients: seq<Client>)
    requires forall k :: 0 <= k < |clients| ==> clients[k].creditLimit.Some? ==> clients[k].creditLimit.value >= 0
    ensures BooksOk(Empty(clients))
  {
  }
}
