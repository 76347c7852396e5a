/** Runs from empty tables in which what one would expect to work does not. */
module Witnesses {
  import opened Seqs
  import opened Wrappers
  import opened Tables
  import opened Stock
  import opened System
  import opened TransferFacts
  import opened Quotations
  import Money
  import Sales
  import Purchases
  import Transactions
  import Transfers

  /** The run is a continuation of the one before by one call that goes through. */
  ghost predicate Reaches(ops: seq<Op>, db: Db)
  {
    Run(Empty([]), ops) == db
  }

  lemma Continues(ops: seq<Op>, db: Db, op: Op) returns (more: seq<Op>)
    requires Reaches(ops, db) && Step(db, op).Ok?
    ensures more == ops + [op] && Reaches(more, Step(db, op).value)
  {
    RunSnoc(Empty([]), ops, op);
    more := ops + [op];
  }

  function Cable(quantity: nat, warehouse: string, deleted: bool): Item
  {
    Item("Cable", "Parts", None, warehouse, BULK, quantity, deleted, 0)
  }

  lemma TakeOneLine(items: seq<Item>, line: Line)
    ensures TakeAll(items, [line]) == TakeOne(items, line.item, line.qty)
    ensures GiveAll(items, [line]) == GiveOne(items, line.item, line.qty)
  {
    assert [line][..0] == [];
    assert TakeAll(items, [line][..0]) == Ok(items) && GiveAll(items, [line][..0]) == Ok(items);
  }

  function Entry(): Transaction
  {
    Transaction(IN, 5, None, Some("main"), [Line(0, 2)])
  }

  function Gone(quantity: nat, transactions: seq<Option<Transaction>>): Db
  {
    Empty([]).(items := [Cable(quantity, "main", true)], transactions := transactions)
  }

  lemma EntryAccepted()
    ensures Transactions.CreateTransaction(Gone(0, []), Entry()) == Ok(Gone(2, [Some(Entry())]))
  {
    var db, after := Gone(0, []), Gone(2, [Some(Entry())]);
    assert ItemsOf(Entry().lines) == [0] && InRange(Entry().lines, |db.items|);
    TakeOneLine(db.items, Line(0, 2));
    assert db.items[0 := Cable(2, "main", true)] == after.items;
    assert [] + [Some(Entry())] == after.transactions;
  }

  lemma EntryStuck()
    ensures Transactions.RemoveTransaction(Gone(2, [Some(Entry())]), 0) == Err(ITEM_NO_LONGER_AVAILABLE)
  {
    TakeOneLine(Gone(2, []).items, Line(0, 2));
  }

  lemma RowGone() returns (ops: seq<Op>)
    ensures Reaches(ops, Gone(0, []))
  {
    var a := Continues([], Empty([]), Op.EnterItem("Cable", "Parts", None, "main", BULK, 0));
    var one := Empty([]).(items := [Cable(0, "main", false)]);
    assert Reaches(a, one);
    ops := Continues(a, one, Op.RemoveItem(0));
    assert one.items[0 := Cable(0, "main", true)] == Gone(0, []).items;
  }

  /** An IN transaction for a soft-deleted row is accepted, and can then not be deleted. */
  lemma EntryOnDeletedRowStays() returns (ops: seq<Op>)
    ensures Run(Empty([]), ops) == Gone(2, [Some(Entry())])
    ensures Step(Gone(2, [Some(Entry())]), Op.RemoveTransaction(0)) == Err(ITEM_NO_LONGER_AVAILABLE)
  {
    EntryAccepted();
    EntryStuck();
    var a := RowGone();
    ops := Continues(a, Gone(0, []), Op.CreateTransaction(Entry()));
  }

  function OneUnit(): Purchases.PurchaseDto
  {
    Purchases.PurchaseDto("main", None, [], [Purchases.UnitDto("Laptop", "Computers", 1.0, None)])
  }

  lemma UnitStuck()
    ensures var bought := Purchases.CreatePurchase(Empty([]), OneUnit(), 5);
            && bought.Ok? && |bought.value.purchases| == 1 && bought.value.purchases[0].status.ACTIVE?
            && Purchases.CancelPurchase(bought.value, 0, 9) == Err(HAS_SERIALIZED_ITEMS)
  {
    var db := Empty([]);
    assert GiveAll(db.items, []) == Ok(db.items);
    var after := Purchases.CreatePurchase(db, OneUnit(), 5).value;
    var lines := Lines(after.purchases[0].lines);
    assert after.items[0].itemType.UNIQUE? && lines[0].item == 0;
    assert Purchases.HasUnique(after.items, lines);
  }

  /** A purchase of one serialized unit cannot be cancelled. */
  lemma SerializedPurchaseStays() returns (ops: seq<Op>)
    ensures var db := Run(Empty([]), ops);
            |db.purchases| == 1 && db.purchases[0].status.ACTIVE?
            && Step(db, Op.CancelPurchase(0, 9)) == Err(HAS_SERIALIZED_ITEMS)
  {
    UnitStuck();
    ops := Continues([], Empty([]), Op.CreatePurchase(OneUnit(), 5));
  }

  // Two transfers of one item with a SKU

  function Marked(sku: string, warehouse: string, quantity: nat, entered: nat): Item
  {
    Item("Cable", "Parts", Some(sku), warehouse, BULK, quantity, false, entered)
  }

  const Once := [Line(0, 1)]
  const Twice := [Line(0, 1), Line(0, 1)]

  function Request(lines: seq<Line>, status: RequestStatus, at: int): Transfer
  {
    Transfer(status, "main", "shop", None, at, lines, [])
  }

  function Requests(items: seq<Item>, transfers: seq<Transfer>): Db
  {
    Empty([]).(items := items, transfers := transfers)
  }

  lemma RequestMoves(items: seq<Item>, transfers: seq<Transfer>, lines: seq<Line>)
    requires Transfers.ValidateTransfer(items, lines, "main").Ok? && Transfers.AllStocked(items, lines)
    ensures Transfers.CreateTransfer(Requests(items, transfers), "main", "shop", lines, 1)
            == Ok(Requests(items, transfers + [Request(lines, RequestStatus.PENDING, 1)]))
    ensures Transfers.ApproveTransfer(
              Requests(items, transfers + [Request(lines, RequestStatus.PENDING, 1)]), |transfers|, 2)
            == Ok(Requests(items, transfers + [Request(lines, RequestStatus.APPROVED, 2)]))
    ensures Transfers.SendTransfer(
              Requests(items, transfers + [Request(lines, RequestStatus.APPROVED, 2)]), |transfers|, 3)
            == Ok(Requests(items, transfers + [Request(lines, RequestStatus.SENT, 3)]))
  {
    var n := |transfers|;
    assert (transfers + [Request(lines, RequestStatus.PENDING, 1)])[n := Request(lines, RequestStatus.APPROVED, 2)]
           == transfers + [Request(lines, RequestStatus.APPROVED, 2)];
    assert (transfers + [Request(lines, RequestStatus.APPROVED, 2)])[n := Request(lines, RequestStatus.SENT, 3)]
           == transfers + [Request(lines, RequestStatus.SENT, 3)];
  }

  /** One more request, created, approved and sent. */
  lemma RequestSent(ops: seq<Op>, items: seq<Item>, transfers: seq<Transfer>, lines: seq<Line>) returns (more: seq<Op>)
    requires Reaches(ops, Requests(items, transfers))
    requires Transfers.ValidateTransfer(items, lines, "main").Ok? && Transfers.AllStocked(items, lines)
    ensures Reaches(more, Requests(items, transfers + [Request(lines, RequestStatus.SENT, 3)]))
  {
    RequestMoves(items, transfers, lines);
    var a := Continues(ops, Requests(items, transfers), Op.CreateTransfer("main", "shop", lines, 1));
    var b := Continues(
      a, Requests(items, transfers + [Request(lines, RequestStatus.PENDING, 1)]), Op.ApproveTransfer(|transfers|, 2));
    more := Continues(
      b, Requests(items, transfers + [Request(lines, RequestStatus.APPROVED, 2)]), Op.SendTransfer(|transfers|, 3));
  }

  lemma ValidRequests(items: seq<Item>)
    requires items == [Marked("CAB", "main", 10, 10)]
    ensures Transfers.ValidateTransfer(items, Once, "main").Ok? && Transfers.AllStocked(items, Once)
    ensures Transfers.ValidateTransfer(items, Twice, "main").Ok? && Transfers.AllStocked(items, Twice)
  {
    assert Once[..0] == [] && Twice[..1] == Once;
    assert Transfers.ValidateTransfer(items, Once[..0], "main") == Ok(());
    assert Transfers.ValidateTransfer(items, Once, "main") == Ok(());
  }

  lemma RowEntered() returns (ops: seq<Op>)
    ensures Reaches(ops, Requests([Marked("CAB", "main", 10, 10)], []))
  {
    ops := Continues([], Empty([]), Op.EnterItem("Cable", "Parts", Some("CAB"), "main", BULK, 10));
  }

  lemma SuffixOfShop()
    ensures Transfers.SuffixedSku(Some("CAB"), "shop") == Some("CAB-shop")
  {
    assert "CAB" + "-" + "shop" == "CAB-shop";
  }

  function BothSent(): Db
  {
    Requests(
      [Marked("CAB", "main", 10, 10)], [Request(Once, RequestStatus.SENT, 3), Request(Once, RequestStatus.SENT, 3)])
  }

  lemma BothGetSent() returns (ops: seq<Op>)
    ensures Reaches(ops, BothSent())
  {
    var row, sent := Marked("CAB", "main", 10, 10), Request(Once, RequestStatus.SENT, 3);
    ValidRequests([row]);
    var a := RowEntered();
    var b := RequestSent(a, [row], [], Once);
    assert [] + [sent] == [sent] && [sent] + [sent] == [sent, sent];
    ops := RequestSent(b, [row], [sent], Once);
  }

  lemma FirstTransferRuns()
    ensures var db := BothSent();
            var done := Transfers.CompleteTransfer(db, 0, db.items, [], 7);
            && done.Ok?
            && done.value.items == [Marked("CAB", "main", 9, 10), Marked("CAB-shop", "shop", 1, 0)]
            && |done.value.transfers| == 2 && done.value.transfers[1] == Request(Once, RequestStatus.SENT, 3)
  {
    var lines, items := [Line(0, 1)], BothSent().items;
    TakeOneLine(items, lines[0]);
    SuffixOfShop();
    var taken := TakeAll(items, lines).value;
    assert taken == [Marked("CAB", "main", 9, 10)];
    assert lines[..0] == [];
    assert Transfers.LandAll(taken, "shop", lines[..0], items, []) == Ok(Transfers.Landing(taken, []));
  }

  lemma ThenItIsStuck(db: Db)
    requires db.items == [Marked("CAB", "main", 9, 10), Marked("CAB-shop", "shop", 1, 0)]
    requires |db.transfers| == 2 && db.transfers[1] == Request(Once, RequestStatus.SENT, 3)
    ensures Transfers.CompleteTransfer(db, 1, db.items, [], 8).Err?
  {
    SuffixOfShop();
    assert db.items[1].sku == Some("CAB-shop");
    CurrentTransferIff(db, 1, db.items, [], 8, 0, 1);
  }

  /** Two requests for the same item, both sent: once one is executed, the other cannot be. */
  lemma SecondTransferStuck() returns (ops: seq<Op>)
    ensures var db := Run(Empty([]), ops);
            && db.items == [Marked("CAB", "main", 9, 10), Marked("CAB-shop", "shop", 1, 0)]
            && |db.transfers| == 2 && db.transfers[1] == Request(Once, RequestStatus.SENT, 3)
            && Step(db, Op.CompleteTransfer(1, db.items, [], 8)).Err?
  {
    var both := BothSent();
    var a := BothGetSent();
    FirstTransferRuns();
    ops := Continues(a, both, Op.CompleteTransfer(0, both.items, [], 7));
    ThenItIsStuck(Transfers.CompleteTransfer(both, 0, both.items, [], 7).value);
  }

  // One transfer that names an item twice

  lemma RepeatedTakes(items: seq<Item>)
    requires items == [Marked("CAB", "main", 10, 10)]
    ensures TakeAll(items, Twice).Ok?
  {
    assert Twice[..1] == Once;
    TakeOneLine(items, Line(0, 1));
  }

  lemma RepeatedIsRefused(db: Db)
    requires db == Requests([Marked("CAB", "main", 10, 10)], [Request(Twice, RequestStatus.SENT, 3)])
    ensures Transfers.CompleteTransfer(db, 0, db.items, [], 7).Err?
  {
    SuffixOfShop();
    RepeatedItemIsRefused(db, 0, db.items, [], 7, 0, 1);
  }

  /**
   One request naming an item twice is created, approved and sent like any
   other, and there is stock for it; but it can never be executed.
   */
  lemma RepeatedItemStuck() returns (ops: seq<Op>)
    ensures var db := Run(Empty([]), ops);
            && db.items == [Marked("CAB", "main", 10, 10)]
            && db.transfers == [Request(Twice, RequestStatus.SENT, 3)]
            && TakeAll(db.items, Twice).Ok? && !Transfers.SkuTaken(db.items, Some("CAB-shop"))
            && Step(db, Op.CompleteTransfer(0, db.items, [], 7)).Err?
  {
    var row, sent := Marked("CAB", "main", 10, 10), Request(Twice, RequestStatus.SENT, 3);
    ValidRequests([row]);
    var a := RowEntered();
    ops := RequestSent(a, [row], [], Twice);
    assert [] + [sent] == [sent];
    RepeatedTakes([row]);
    RepeatedIsRefused(Requests([row], [sent]));
  }

  // A quotation at a percentage with three decimals

  function Quoted(): Sales.SaleDto
  {
    Sales.SaleDto("main", None, false, "HNL", Some(12.345), [Sales.LineDto(0, 1, 10000.0, None)])
  }

  /** The sale row, with 12.35 per cent stored on it. */
  function Quotation(status: SaleStatus, confirmedAt: Option<int>, tax: int): Sale
  {
    Sale(status, true, 5, confirmedAt, None, "main", None, false, "HNL", Some(1235), 1000000, tax,
         [PricedLine(0, 1, 1000000, None, tax)])
  }

  function Stocked(quantity: nat, sales: seq<Sale>): Db
  {
    Empty([]).(
      items := [Item("Cable", "Parts", None, "main", BULK, quantity, false, 1)], sales := sales)
  }

  lemma OneLineTotals(lineTotal: int, percent: real)
    ensures var tax := Money.LineTax(lineTotal, percent);
            Money.ComputeTotals([Money.Taxable(lineTotal, percent)]) == Money.Totals([tax], lineTotal, tax)
  {
    var line, tax := Money.Taxable(lineTotal, percent), Money.LineTax(lineTotal, percent);
    assert [] + [line] == [line] && [] + [tax] == [tax];
    SumSnoc([], line, Money.TotalOf());
    SumSnoc([], tax, Money.Identity());
    assert Money.ComputeTotals([line]).lineTaxes == [tax];
  }

  lemma QuotationSaved()
    ensures Sales.CreateSale(Stocked(1, []), Quoted(), true, 5)
            == Ok(Stocked(1, [Quotation(DRAFT, None, 123450)]))
  {
    ThirdDecimalChangesTax();
    OneLineTotals(1000000, 12.345);
    var dto := Quoted();
    assert Sales.LineTotal(dto.lines[0]) == 1000000;
    assert Sales.Taxables(dto.lines, dto.taxPercent) == [Money.Taxable(1000000, 12.345)];
    assert Sales.Store(dto.taxPercent) == Some(1235);
    assert Sales.Written(dto.lines, [123450]) == [PricedLine(0, 1, 1000000, None, 123450)];
    assert Sales.Requested(dto.lines) == [Line(0, 1)] && ItemsOf([Line(0, 1)]) == [0];
    var sale := Sales.NewSale(dto, Money.Totals([123450], 1000000, 123450), true, 5);
    assert sale == Quotation(DRAFT, None, 123450);
    assert [] + [sale] == [sale];
    assert Sales.ValidateLines(Stocked(1, []).items, [Line(0, 1)], "main").Ok?;
  }

  lemma QuotationConfirmed()
    ensures Sales.ConfirmSale(Stocked(1, [Quotation(DRAFT, None, 123450)]), 0, 7)
            == Ok(Stocked(0, [Quotation(SaleStatus.ACTIVE, Some(7), 123500)]))
  {
    ThirdDecimalChangesTax();
    OneLineTotals(1000000, 12.35);
    var db, current := Stocked(1, []), Quotation(DRAFT, None, 123450);
    assert Sales.StoredTaxables(current.lines, Sales.Percent(current.taxPercent)) == [Money.Taxable(1000000, 12.35)];
    assert Sales.Retaxed(current.lines, [123500]) == [PricedLine(0, 1, 1000000, None, 123500)];
    assert Sales.ConfirmedSale(current, 7) == Quotation(SaleStatus.ACTIVE, Some(7), 123500);
    assert Lines(current.lines) == [Line(0, 1)];
    TakeOneLine(db.items, Line(0, 1));
    assert [Line(0, 1)][..0] == [] && CheckAvailable(db.items, [Line(0, 1)][..0]) == Ok(());
    assert CheckAvailable(db.items, [Line(0, 1)]) == Ok(());
    assert db.items[0 := db.items[0].(quantity := 0)] == Stocked(0, []).items;
    assert [current][0 := Quotation(SaleStatus.ACTIVE, Some(7), 123500)]
           == [Quotation(SaleStatus.ACTIVE, Some(7), 123500)];
  }

  lemma CableStocked() returns (ops: seq<Op>)
    ensures Reaches(ops, Stocked(1, []))
  {
    ops := Continues([], Empty([]), Op.EnterItem("Cable", "Parts", None, "main", BULK, 1));
  }

  lemma QuotationReached() returns (ops: seq<Op>)
    ensures Reaches(ops, Stocked(1, [Quotation(DRAFT, None, 123450)]))
  {
    var a := CableStocked();
    QuotationSaved();
    ops := Continues(a, Stocked(1, []), Op.CreateSale(Quoted(), true, 5));
  }

  /** 10 000.00 quoted at 12.345 per cent: the quotation says 1 234.50 of tax, the sale it becomes 1 235.00. */
  lemma ConfirmingChangesTax() returns (ops: seq<Op>)
    ensures Run(Empty([]), ops) == Stocked(1, [Quotation(DRAFT, None, 123450)])
    ensures Step(Run(Empty([]), ops), Op.ConfirmSale(0, 7))
            == Ok(Stocked(0, [Quotation(SaleStatus.ACTIVE, Some(7), 123500)]))
  {
    ops := QuotationReached();
    QuotationConfirmed();
  }
}
