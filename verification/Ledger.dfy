/**
 The stock ledger: an item's quantity is what was entered by hand plus the
 effect of every document as its status says. No journal is stored; the
 invariant is that the mutable quantities always agree with the documents.
 */
module Ledger {
  import opened Seqs
  import opened Wrappers
  import opened Tables
  import opened Stock
  import opened Sales
  import opened Purchases
  import opened Outflows
  import opened Transactions
  import opened Discharges
  import opened Transfers
  import opened StockTakes
  import opened Inventory
  import Money

  // What one document does to item i, as its status says.

  function SaleEffect(i: nat): Sale -> int
  {
    (s: Sale) => if s.status.ACTIVE? then -UnitsOf(Lines(s.lines), i) else 0
  }

  function PurchaseEffect(i: nat): Purchase -> int
  {
    (p: Purchase) => if p.status.ACTIVE? then UnitsOf(Lines(p.lines), i) else 0
  }

  function OutflowEffect(i: nat): Outflow -> int
  {
    (o: Outflow) => if o.status.ACTIVE? then -UnitsOf(o.lines, i) else 0
  }

  function MoveSign(kind: MoveType): int
  {
    match kind
    case IN => 1
    case OUT => -1
    case TRANSFER => 0
  }

  function TransactionEffect(i: nat): Option<Transaction> -> int
  {
    (t: Option<Transaction>) => if t.Some? then MoveSign(t.value.kind) * UnitsOf(t.value.lines, i) else 0
  }

  function SentEffect(i: nat): Transfer -> int
  {
    (t: Transfer) => if t.status.COMPLETED? then UnitsOf(t.lines, i) else 0
  }

  function LandedEffect(i: nat): Transfer -> int
  {
    (t: Transfer) => if t.status.COMPLETED? then UnitsOf(t.landed, i) else 0
  }

  function VarianceAt(i: nat): CountLine -> int
  {
    (l: CountLine) => if l.item == i then l.variance.GetOr(0) else 0
  }

  function StockTakeEffect(i: nat): StockTake -> int
  {
    (st: StockTake) => if st.status.COMPLETED? && st.applied then SumOver(st.lines, VarianceAt(i)) else 0
  }

  function Effect(db: Db, i: nat): int
  {
    SumOver(db.sales, SaleEffect(i))
      + SumOver(db.purchases, PurchaseEffect(i))
      + SumOver(db.outflows, OutflowEffect(i))
      + SumOver(db.transactions, TransactionEffect(i))
      - SumOver(db.transfers, SentEffect(i))
      + SumOver(db.transfers, LandedEffect(i))
      + SumOver(db.stockTakes, StockTakeEffect(i))
  }

  ghost predicate Balanced(db: Db)
  {
    forall i :: 0 <= i < |db.items| ==> db.items[i].quantity == db.items[i].entered + Effect(db, i)
  }

  ghost predicate NeverNegative(db: Db)
  {
    forall i :: 0 <= i < |db.items| ==> db.items[i].quantity >= 0
  }

  // What every stored document satisfies.

  predicate SaleOk(s: Sale, n: nat)
  {
    && InRange(Lines(s.lines), n)
    && (s.cancelledAt.Some? <==> s.status.CANCELLED?)
    && (s.status.DRAFT? ==> s.quoted && s.confirmedAt.None?)
    && (s.status.ACTIVE? ==> s.confirmedAt.Some? || !s.quoted)
  }

  predicate PurchaseOk(p: Purchase, n: nat)
  {
    InRange(Lines(p.lines), n) && (p.cancelledAt.Some? <==> p.status.CANCELLED?)
  }

  predicate OutflowOk(o: Outflow, n: nat)
  {
    InRange(o.lines, n) && (o.cancelledAt.Some? <==> o.status.CANCELLED?)
  }

  predicate TransactionOk(t: Option<Transaction>, n: nat)
  {
    t.Some? ==> InRange(t.value.lines, n)
  }

  predicate TransferOk(t: Transfer, n: nat)
  {
    && InRange(t.lines, n)
    && InRange(t.landed, n)
    && (t.status.COMPLETED? ==> TotalUnits(t.landed) == TotalUnits(t.lines))
  }

  predicate CountLineOk(l: CountLine, n: nat)
  {
    && l.item < n
    && l.variance == (if l.counted.Some? then Some(l.counted.value - l.expected) else None)
  }

  predicate StockTakeOk(st: StockTake, n: nat)
  {
    && (forall k :: 0 <= k < |st.lines| ==> CountLineOk(st.lines[k], n))
    && (forall j, k :: 0 <= j < k < |st.lines| ==> st.lines[j].item != st.lines[k].item)
    && (st.status.COMPLETED? ==> AllCounted(st.lines))
  }

  ghost predicate Coherent(db: Db)
  {
    var n := |db.items|;
    && (forall k :: 0 <= k < |db.sales| ==> SaleOk(db.sales[k], n))
    && (forall k :: 0 <= k < |db.purchases| ==> PurchaseOk(db.purchases[k], n))
    && (forall k :: 0 <= k < |db.outflows| ==> OutflowOk(db.outflows[k], n))
    && (forall k :: 0 <= k < |db.transactions| ==> TransactionOk(db.transactions[k], n))
    && (forall k :: 0 <= k < |db.transfers| ==> TransferOk(db.transfers[k], n))
    && (forall k :: 0 <= k < |db.stockTakes| ==> StockTakeOk(db.stockTakes[k], n))
  }

  ghost predicate Sound(db: Db)
  {
    Coherent(db) && Balanced(db) && NeverNegative(db)
  }

  // Rows no document names yet.

  lemma NoEffectOutOfRange(db: Db, i: nat)
    requires Coherent(db) && |db.items| <= i
    ensures Effect(db, i) == 0
  {
    var n := |db.items|;
    forall k | 0 <= k < |db.sales| ensures SaleEffect(i)(db.sales[k]) == 0 {
      assert SaleOk(db.sales[k], n);
      NoUnitsOutOfRange(Lines(db.sales[k].lines), i, n);
    }
    SumZero(db.sales, SaleEffect(i));
    forall k | 0 <= k < |db.purchases| ensures PurchaseEffect(i)(db.purchases[k]) == 0 {
      assert PurchaseOk(db.purchases[k], n);
      NoUnitsOutOfRange(Lines(db.purchases[k].lines), i, n);
    }
    SumZero(db.purchases, PurchaseEffect(i));
    forall k | 0 <= k < |db.outflows| ensures OutflowEffect(i)(db.outflows[k]) == 0 {
      assert OutflowOk(db.outflows[k], n);
      NoUnitsOutOfRange(db.outflows[k].lines, i, n);
    }
    SumZero(db.outflows, OutflowEffect(i));
    forall k | 0 <= k < |db.transactions| ensures TransactionEffect(i)(db.transactions[k]) == 0 {
      assert TransactionOk(db.transactions[k], n);
      if db.transactions[k].Some? {
        NoUnitsOutOfRange(db.transactions[k].value.lines, i, n);
      }
    }
    SumZero(db.transactions, TransactionEffect(i));
    forall k | 0 <= k < |db.transfers|
      ensures SentEffect(i)(db.transfers[k]) == 0 && LandedEffect(i)(db.transfers[k]) == 0
    {
      assert TransferOk(db.transfers[k], n);
      NoUnitsOutOfRange(db.transfers[k].lines, i, n);
      NoUnitsOutOfRange(db.transfers[k].landed, i, n);
    }
    SumZero(db.transfers, SentEffect(i));
    SumZero(db.transfers, LandedEffect(i));
    forall k | 0 <= k < |db.stockTakes| ensures StockTakeEffect(i)(db.stockTakes[k]) == 0 {
      assert StockTakeOk(db.stockTakes[k], n);
      SumZero(db.stockTakes[k].lines, VarianceAt(i));
    }
    SumZero(db.stockTakes, StockTakeEffect(i));
  }

  // Sales

  lemma SaleAdded(db: Db, items: seq<Item>, sale: Sale)
    requires Sound(db) && SaleOk(sale, |db.items|)
    requires if sale.status.ACTIVE? then Enough(db.items, Lines(sale.lines)) && items == Taken(db.items, Lines(sale.lines))
             else items == db.items
    ensures Sound(db.(items := items, sales := db.sales + [sale]))
  {
    forall i | 0 <= i < |items|
      ensures items[i].quantity == items[i].entered + Effect(db.(items := items, sales := db.sales + [sale]), i)
      ensures items[i].quantity >= 0
    {
      SumSnoc(db.sales, sale, SaleEffect(i));
      UnitsAreNonNegative(Lines(sale.lines), i);
    }
  }

  lemma SaleReplaced(db: Db, items: seq<Item>, id: nat, sale: Sale)
    requires Sound(db) && id < |db.sales| && SaleOk(sale, |db.items|)
    requires |items| == |db.items|
    requires forall i :: 0 <= i < |items| ==>
               && items[i].entered == db.items[i].entered
               && items[i].quantity >= 0
               && items[i].quantity == db.items[i].quantity - SaleEffect(i)(db.sales[id]) + SaleEffect(i)(sale)
    ensures Sound(db.(items := items, sales := db.sales[id := sale]))
  {
    forall i | 0 <= i < |items|
      ensures items[i].quantity == items[i].entered + Effect(db.(items := items, sales := db.sales[id := sale]), i)
    {
      SumUpdate(db.sales, id, sale, SaleEffect(i));
    }
  }

  lemma WrittenLines(lines: seq<LineDto>, taxes: seq<int>)
    requires |lines| == |taxes|
    ensures Lines(Written(lines, taxes)) == Requested(lines)
  {
  }

  lemma CreateSaleSound(db: Db, dto: SaleDto, asDraft: bool, now: int)
    requires Sound(db) && CreateSale(db, dto, asDraft, now).Ok?
    ensures Sound(CreateSale(db, dto, asDraft, now).value)
  {
    var lines := Requested(dto.lines);
    var totals := Money.ComputeTotals(Taxables(dto.lines, dto.taxPercent));
    WrittenLines(dto.lines, totals.lineTaxes);
    TakeAllIff(db.items, lines);
    var sale := NewSale(dto, totals, asDraft, now);
    SaleAdded(db, if asDraft then db.items else Taken(db.items, lines), sale);
  }

  lemma UpdateSaleSound(db: Db, id: nat, edit: SaleEdit)
    requires Sound(db) && UpdateSale(db, id, edit).Ok?
    ensures Sound(UpdateSale(db, id, edit).value)
  {
    var current := db.sales[id];
    var edited := EditedSale(current, edit);
    var documentPercent := edit.taxPercent.GetOr(Percent(current.taxPercent));
    if edit.lines.Some? {
      WrittenLines(edit.lines.value, Money.ComputeTotals(Taxables(edit.lines.value, documentPercent)).lineTaxes);
    } else {
      assert Lines(edited.lines) == Lines(current.lines);
    }
    SaleReplaced(db, db.items, id, edited);
    assert db.(items := db.items, sales := db.sales[id := edited]) == db.(sales := db.sales[id := edited]);
  }

  lemma ConfirmSaleSound(db: Db, id: nat, now: int)
    requires Sound(db) && ConfirmSale(db, id, now).Ok?
    ensures Sound(ConfirmSale(db, id, now).value)
  {
    var current := db.sales[id];
    assert SaleOk(current, |db.items|);
    var confirmed := ConfirmedSale(current, now);
    assert Lines(confirmed.lines) == Lines(current.lines);
    TakeAllIff(db.items, Lines(current.lines));
    forall i: nat ensures UnitsOf(Lines(current.lines), i) >= 0 {
      UnitsAreNonNegative(Lines(current.lines), i);
    }
    SaleReplaced(db, Taken(db.items, Lines(current.lines)), id, confirmed);
  }

  lemma CancelSaleSound(db: Db, id: nat, allowed: bool, now: int)
    requires Sound(db) && CancelSale(db, id, allowed, now).Ok?
    ensures Sound(CancelSale(db, id, allowed, now).value)
  {
    var current := db.sales[id];
    assert SaleOk(current, |db.items|);
    var after := CancelSale(db, id, allowed, now).value;
    GiveAllIff(db.items, Lines(current.lines));
    forall i: nat ensures UnitsOf(Lines(current.lines), i) >= 0 {
      UnitsAreNonNegative(Lines(current.lines), i);
    }
    SaleReplaced(db, after.items, id, after.sales[id]);
    assert after == db.(items := after.items, sales := db.sales[id := after.sales[id]]);
  }

  // Purchases

  lemma EnlargedCoherent(db: Db, items: seq<Item>)
    requires Coherent(db) && |db.items| <= |items|
    ensures Coherent(db.(items := items))
  {
    var n, m := |db.items|, |items|;
    forall k | 0 <= k < |db.sales| ensures SaleOk(db.sales[k], m) { assert SaleOk(db.sales[k], n); }
    forall k | 0 <= k < |db.purchases| ensures PurchaseOk(db.purchases[k], m) { assert PurchaseOk(db.purchases[k], n); }
    forall k | 0 <= k < |db.outflows| ensures OutflowOk(db.outflows[k], m) { assert OutflowOk(db.outflows[k], n); }
    forall k | 0 <= k < |db.transactions| ensures TransactionOk(db.transactions[k], m) {
      assert TransactionOk(db.transactions[k], n);
    }
    forall k | 0 <= k < |db.transfers| ensures TransferOk(db.transfers[k], m) { assert TransferOk(db.transfers[k], n); }
    forall k | 0 <= k < |db.stockTakes| ensures StockTakeOk(db.stockTakes[k], m) {
      assert StockTakeOk(db.stockTakes[k], n);
      forall j | 0 <= j < |db.stockTakes[k].lines| ensures CountLineOk(db.stockTakes[k].lines[j], m) {
        assert CountLineOk(db.stockTakes[k].lines[j], n);
      }
    }
  }

  /** One unit of each new row. */
  function NewLines(extra: nat, firstNew: nat): seq<Line>
  {
    seq(extra, k requires 0 <= k < extra => Line(firstNew + k, 1))
  }

  /** The lines for new serialized units name one unit of each new row. */
  lemma {:induction false} UnitsOfAllLines(lines: seq<Line>, extra: nat, firstNew: nat, all: seq<Line>, i: nat)
    requires InRange(lines, firstNew)
    requires all == lines + NewLines(extra, firstNew)
    ensures UnitsOf(all, i) == UnitsOf(lines, i) + (if firstNew <= i < firstNew + extra then 1 else 0)
  {
    if extra == 0 {
      assert all == lines;
      if firstNew <= i { NoUnitsOutOfRange(lines, i, firstNew); }
    } else {
      var shorter := lines + NewLines(extra - 1, firstNew);
      assert all == shorter + [Line(firstNew + extra - 1, 1)];
      UnitsOfAllLines(lines, extra - 1, firstNew, shorter, i);
      SumSnoc(shorter, Line(firstNew + extra - 1, 1), QtyAt(i));
    }
  }

  lemma PurchaseAdded(db: Db, bulk: seq<Line>, rows: seq<Item>, purchase: Purchase)
    requires Sound(db) && InRange(bulk, |db.items|)
    requires forall k :: 0 <= k < |rows| ==> rows[k].quantity == 1 && rows[k].entered == 0
    requires purchase.status.ACTIVE? && purchase.cancelledAt.None?
    requires Lines(purchase.lines) == bulk + NewLines(|rows|, |db.items|)
    ensures Sound(db.(items := Given(db.items, bulk) + rows, purchases := db.purchases + [purchase]))
  {
    var n := |db.items|;
    var items := Given(db.items, bulk) + rows;
    var after := db.(items := items, purchases := db.purchases + [purchase]);
    EnlargedCoherent(db, items);
    assert PurchaseOk(purchase, |items|);
    forall i | 0 <= i < |items|
      ensures items[i].quantity == items[i].entered + Effect(after, i)
      ensures items[i].quantity >= 0
    {
      SumSnoc(db.purchases, purchase, PurchaseEffect(i));
      UnitsOfAllLines(bulk, |rows|, n, Lines(purchase.lines), i);
      if i < n {
        UnitsAreNonNegative(bulk, i);
      } else {
        NoEffectOutOfRange(db, i);
        NoUnitsOutOfRange(bulk, i, n);
      }
    }
  }

  lemma CreatePurchaseSound(db: Db, dto: PurchaseDto, now: int)
    requires Sound(db) && CreatePurchase(db, dto, now).Ok?
    ensures Sound(CreatePurchase(db, dto, now).value)
  {
    var n, bulk, rows := |db.items|, Requested(dto.bulk), NewUnits(dto.units, dto.warehouse);
    GiveAllIff(db.items, bulk);
    var all := AllLines(dto, n);
    WrittenLines(all, Money.ComputeTotals(Taxables(all, dto.taxPercent)).lineTaxes);
    var purchase := NewPurchase(dto, n, now);
    assert Lines(purchase.lines) == bulk + NewLines(|rows|, n);
    PurchaseAdded(db, bulk, rows, purchase);
  }

  lemma CancelPurchaseSound(db: Db, id: nat, now: int)
    requires Sound(db) && CancelPurchase(db, id, now).Ok?
    ensures Sound(CancelPurchase(db, id, now).value)
  {
    var current := db.purchases[id];
    assert PurchaseOk(current, |db.items|);
    TakeAllIff(db.items, Lines(current.lines));
    var after := CancelPurchase(db, id, now).value;
    forall i | 0 <= i < |db.items|
      ensures after.items[i].quantity == after.items[i].entered + Effect(after, i)
      ensures after.items[i].quantity >= 0
    {
      SumUpdate(db.purchases, id, after.purchases[id], PurchaseEffect(i));
      UnitsAreNonNegative(Lines(current.lines), i);
    }
  }

  // Outflows and discharges

  lemma OutflowAdded(db: Db, outflow: Outflow)
    requires Sound(db) && outflow.status.ACTIVE? && outflow.cancelledAt.None? && Enough(db.items, outflow.lines)
    ensures Sound(db.(items := Taken(db.items, outflow.lines), outflows := db.outflows + [outflow]))
  {
    var after := db.(items := Taken(db.items, outflow.lines), outflows := db.outflows + [outflow]);
    forall i | 0 <= i < |db.items|
      ensures after.items[i].quantity == after.items[i].entered + Effect(after, i)
      ensures after.items[i].quantity >= 0
    {
      SumSnoc(db.outflows, outflow, OutflowEffect(i));
      UnitsAreNonNegative(outflow.lines, i);
    }
  }

  lemma CreateOutflowSound(db: Db, warehouse: string, lines: seq<Line>, now: int)
    requires Sound(db) && CreateOutflow(db, warehouse, lines, now).Ok?
    ensures Sound(CreateOutflow(db, warehouse, lines, now).value)
  {
    TakeAllIff(db.items, lines);
    OutflowAdded(db, Outflow(DocStatus.ACTIVE, now, None, warehouse, lines));
  }

  lemma CancelOutflowSound(db: Db, id: nat, now: int)
    requires Sound(db) && CancelOutflow(db, id, now).Ok?
    ensures Sound(CancelOutflow(db, id, now).value)
  {
    var current := db.outflows[id];
    assert OutflowOk(current, |db.items|);
    GiveAllIff(db.items, current.lines);
    var after := CancelOutflow(db, id, now).value;
    forall i | 0 <= i < |db.items|
      ensures after.items[i].quantity == after.items[i].entered + Effect(after, i)
      ensures after.items[i].quantity >= 0
    {
      SumUpdate(db.outflows, id, after.outflows[id], OutflowEffect(i));
      UnitsAreNonNegative(current.lines, i);
    }
  }

  lemma CompleteDischargeSound(db: Db, id: nat, now: int)
    requires Sound(db) && CompleteDischarge(db, id, now).Ok?
    ensures Sound(CompleteDischarge(db, id, now).value)
  {
    var request := db.discharges[id];
    TakeAllIff(db.items, request.lines);
    OutflowAdded(db, Outflow(DocStatus.ACTIVE, now, None, request.warehouse, request.lines));
  }

  // Manual transactions

  lemma AppliedMove(items: seq<Item>, kind: MoveType, lines: seq<Line>)
    requires ApplyMove(items, kind, lines).Ok?
    ensures var after := ApplyMove(items, kind, lines).value;
            && |after| == |items|
            && forall i :: 0 <= i < |items| ==>
                 && after[i].entered == items[i].entered
                 && after[i].quantity == items[i].quantity + MoveSign(kind) * UnitsOf(lines, i)
                 && (items[i].quantity >= 0 ==> after[i].quantity >= 0)
  {
    TakeAllIff(items, lines);
    GiveAllIff(items, lines);
    forall i: nat ensures UnitsOf(lines, i) >= 0 {
      UnitsAreNonNegative(lines, i);
    }
  }

  lemma CreateTransactionSound(db: Db, t: Transaction)
    requires Sound(db) && CreateTransaction(db, t).Ok?
    ensures Sound(CreateTransaction(db, t).value)
  {
    AppliedMove(db.items, t.kind, t.lines);
    var after := CreateTransaction(db, t).value;
    forall i | 0 <= i < |db.items|
      ensures after.items[i].quantity == after.items[i].entered + Effect(after, i)
    {
      SumSnoc(db.transactions, Some(t), TransactionEffect(i));
    }
  }

  lemma UpdateTransactionSound(db: Db, id: nat, date: int, source: Option<string>, destination: Option<string>)
    requires Sound(db) && UpdateTransaction(db, id, date, source, destination).Ok?
    ensures Sound(UpdateTransaction(db, id, date, source, destination).value)
  {
    var after := UpdateTransaction(db, id, date, source, destination).value;
    assert TransactionOk(db.transactions[id], |db.items|);
    forall i | 0 <= i < |db.items|
      ensures after.items[i].quantity == after.items[i].entered + Effect(after, i)
    {
      SumUpdate(db.transactions, id, after.transactions[id], TransactionEffect(i));
    }
  }

  lemma RemoveTransactionSound(db: Db, id: nat)
    requires Sound(db) && RemoveTransaction(db, id).Ok?
    ensures Sound(RemoveTransaction(db, id).value)
  {
    var t := db.transactions[id].value;
    assert TransactionOk(db.transactions[id], |db.items|);
    TakeAllIff(db.items, t.lines);
    GiveAllIff(db.items, t.lines);
    var after := RemoveTransaction(db, id).value;
    forall i | 0 <= i < |db.items|
      ensures after.items[i].quantity == after.items[i].entered + Effect(after, i)
      ensures after.items[i].quantity >= 0
    {
      SumUpdate(db.transactions, id, None, TransactionEffect(i));
      UnitsAreNonNegative(t.lines, i);
    }
  }

  // Transfers

  /** `at` is `items` plus what landed, rows created for it included. */
  ghost predicate LandedOn(items: seq<Item>, at: Landing)
  {
    && |items| <= |at.items|
    && InRange(at.landed, |at.items|)
    && (forall i :: 0 <= i < |items| ==>
          at.items[i].entered == items[i].entered
          && at.items[i].quantity == items[i].quantity + UnitsOf(at.landed, i))
    && (forall i :: |items| <= i < |at.items| ==>
          at.items[i].entered == 0 && at.items[i].quantity == UnitsOf(at.landed, i))
  }

  lemma LandOneClosedForm(items: seq<Item>, at: Landing, destination: string, item: Item, qty: Units, hint: nat)
    requires LandedOn(items, at) && LandOne(at, destination, item, qty, hint).Ok?
    ensures var next := LandOne(at, destination, item, qty, hint).value;
            LandedOn(items, next) && TotalUnits(next.landed) == TotalUnits(at.landed) + qty
  {
    var next := LandOne(at, destination, item, qty, hint).value;
    var landing := next.landed[|at.landed|];
    assert next.landed == at.landed + [landing];
    SumSnoc(at.landed, landing, Qty());
    forall i: nat ensures UnitsOf(next.landed, i) == UnitsOf(at.landed, i) + QtyAt(i)(landing) {
      SumSnoc(at.landed, landing, QtyAt(i));
    }
    NoUnitsOutOfRange(at.landed, |at.items|, |at.items|);
  }

  /** Landing the lines adds exactly their units, to rows there already or to new ones. */
  lemma {:induction false} LandAllClosedForm(
    items: seq<Item>, destination: string, lines: seq<Line>, snapshot: seq<Item>, hints: seq<nat>)
    requires LandAll(items, destination, lines, snapshot, hints).Ok?
    ensures var at := LandAll(items, destination, lines, snapshot, hints).value;
            LandedOn(items, at) && TotalUnits(at.landed) == TotalUnits(lines)
  {
    if lines != [] {
      var n := |lines| - 1;
      var at := LandAll(items, destination, lines[..n], snapshot, hints).value;
      LandAllClosedForm(items, destination, lines[..n], snapshot, hints);
      LandOneClosedForm(items, at, destination, snapshot[lines[n].item], lines[n].qty, Hint(hints, n));
    }
  }

  lemma CompleteTransferSound(db: Db, id: nat, snapshot: seq<Item>, hints: seq<nat>, now: int)
    requires Sound(db) && CompleteTransfer(db, id, snapshot, hints, now).Ok?
    ensures Sound(CompleteTransfer(db, id, snapshot, hints, now).value)
  {
    var request := db.transfers[id];
    assert TransferOk(request, |db.items|);
    TakeAllIff(db.items, request.lines);
    var taken := Taken(db.items, request.lines);
    LandAllClosedForm(taken, request.destination, request.lines, snapshot, hints);
    var after := CompleteTransfer(db, id, snapshot, hints, now).value;
    EnlargedCoherent(db, after.items);
    var done := after.transfers[id];
    assert TransferOk(done, |after.items|);
    forall i | 0 <= i < |after.items|
      ensures after.items[i].quantity == after.items[i].entered + Effect(after, i)
      ensures after.items[i].quantity >= 0
    {
      SumUpdate(db.transfers, id, done, SentEffect(i));
      SumUpdate(db.transfers, id, done, LandedEffect(i));
      UnitsAreNonNegative(request.lines, i);
      UnitsAreNonNegative(done.landed, i);
      if i >= |db.items| {
        NoEffectOutOfRange(db, i);
        NoUnitsOutOfRange(request.lines, i, |db.items|);
      }
    }
  }

  lemma SetTransferSound(db: Db, id: nat, status: RequestStatus, now: int)
    requires Sound(db) && id < |db.transfers|
    requires !status.COMPLETED? && !db.transfers[id].status.COMPLETED?
    ensures Sound(SetTransfer(db, id, status, now))
  {
    var after := SetTransfer(db, id, status, now);
    assert TransferOk(db.transfers[id], |db.items|);
    forall i | 0 <= i < |db.items|
      ensures after.items[i].quantity == after.items[i].entered + Effect(after, i)
    {
      SumUpdate(db.transfers, id, after.transfers[id], SentEffect(i));
      SumUpdate(db.transfers, id, after.transfers[id], LandedEffect(i));
    }
  }

  lemma CreateTransferSound(db: Db, source: string, destination: string, lines: seq<Line>, now: int)
    requires Sound(db) && CreateTransfer(db, source, destination, lines, now).Ok?
    ensures Sound(CreateTransfer(db, source, destination, lines, now).value)
  {
    ValidTransferInRange(db.items, lines, source);
    var after := CreateTransfer(db, source, destination, lines, now).value;
    var request := after.transfers[|db.transfers|];
    forall i | 0 <= i < |db.items|
      ensures after.items[i].quantity == after.items[i].entered + Effect(after, i)
    {
      SumSnoc(db.transfers, request, SentEffect(i));
      SumSnoc(db.transfers, request, LandedEffect(i));
    }
  }

  // Stock takes

  predicate FreshLines(lines: seq<CountLine>, n: nat)
  {
    && (forall k :: 0 <= k < |lines| ==> lines[k].item < n && lines[k].counted.None? && lines[k].variance.None?)
    && (forall j, k :: 0 <= j < k < |lines| ==> lines[j].item != lines[k].item)
  }

  lemma {:induction false} OpenLinesAreFresh(items: seq<Item>, warehouse: string)
    ensures FreshLines(OpenLines(items, warehouse), |items|)
  {
    if items != [] {
      var n := |items| - 1;
      OpenLinesAreFresh(items[..n], warehouse);
      assert FreshLines(OpenLines(items[..n], warehouse), n);
    }
  }

  /** Applying the variances moves every row by the variances found on it. */
  lemma {:induction false} ApplyVariancesClosedForm(items: seq<Item>, lines: seq<CountLine>)
    requires ApplyVariances(items, lines).Ok?
    requires forall i :: 0 <= i < |items| ==> items[i].quantity >= 0
    ensures var applied := ApplyVariances(items, lines).value;
            && |applied| == |items|
            && forall i :: 0 <= i < |items| ==>
                 applied[i].entered == items[i].entered
                 && applied[i].quantity == items[i].quantity + SumOver(lines, VarianceAt(i))
                 && applied[i].quantity >= 0
  {
    if lines != [] {
      ApplyVariancesClosedForm(items, lines[..|lines| - 1]);
    }
  }

  lemma StockTakeReplaced(db: Db, items: seq<Item>, id: nat, st: StockTake)
    requires Sound(db) && id < |db.stockTakes| && StockTakeOk(st, |db.items|)
    requires |items| == |db.items| && !db.stockTakes[id].status.COMPLETED?
    requires forall i :: 0 <= i < |items| ==>
               && items[i].entered == db.items[i].entered
               && items[i].quantity >= 0
               && items[i].quantity == db.items[i].quantity + StockTakeEffect(i)(st)
    ensures Sound(db.(items := items, stockTakes := db.stockTakes[id := st]))
  {
    var after := db.(items := items, stockTakes := db.stockTakes[id := st]);
    forall i | 0 <= i < |items| ensures items[i].quantity == items[i].entered + Effect(after, i) {
      SumUpdate(db.stockTakes, id, st, StockTakeEffect(i));
    }
  }

  lemma CreateStockTakeSound(db: Db, warehouse: string, now: int)
    requires Sound(db) && CreateStockTake(db, warehouse, now).Ok?
    ensures Sound(CreateStockTake(db, warehouse, now).value)
  {
    OpenLinesAreFresh(db.items, warehouse);
    var after := CreateStockTake(db, warehouse, now).value;
    var st := after.stockTakes[|db.stockTakes|];
    forall k | 0 <= k < |st.lines| ensures CountLineOk(st.lines[k], |db.items|) {}
    forall i | 0 <= i < |db.items| ensures after.items[i].quantity == after.items[i].entered + Effect(after, i) {
      SumSnoc(db.stockTakes, st, StockTakeEffect(i));
    }
  }

  lemma CountItemSound(db: Db, id: nat, item: nat, counted: nat)
    requires Sound(db) && CountItem(db, id, item, counted).Ok?
    ensures Sound(CountItem(db, id, item, counted).value)
  {
    var st := db.stockTakes[id];
    assert StockTakeOk(st, |db.items|);
    var after := CountItem(db, id, item, counted).value;
    var counting := after.stockTakes[id];
    var k := FindLine(st.lines, item).value;
    assert CountLineOk(st.lines[k], |db.items|);
    forall j | 0 <= j < |counting.lines| ensures CountLineOk(counting.lines[j], |db.items|) {
      assert CountLineOk(st.lines[j], |db.items|);
    }
    StockTakeReplaced(db, db.items, id, counting);
    assert after == db.(items := db.items, stockTakes := db.stockTakes[id := counting]);
  }

  lemma CompleteStockTakeSound(db: Db, id: nat, apply: bool, now: int)
    requires Sound(db) && CompleteStockTake(db, id, apply, now).Ok?
    ensures Sound(CompleteStockTake(db, id, apply, now).value)
  {
    var st := db.stockTakes[id];
    assert StockTakeOk(st, |db.items|);
    var after := CompleteStockTake(db, id, apply, now).value;
    if apply {
      ApplyVariancesClosedForm(db.items, st.lines);
    }
    StockTakeReplaced(db, after.items, id, after.stockTakes[id]);
    assert after == db.(items := after.items, stockTakes := db.stockTakes[id := after.stockTakes[id]]);
  }

  lemma CancelStockTakeSound(db: Db, id: nat, now: int)
    requires Sound(db) && CancelStockTake(db, id, now).Ok?
    ensures Sound(CancelStockTake(db, id, now).value)
  {
    assert StockTakeOk(db.stockTakes[id], |db.items|);
    var after := CancelStockTake(db, id, now).value;
    StockTakeReplaced(db, db.items, id, after.stockTakes[id]);
    assert after == db.(items := db.items, stockTakes := db.stockTakes[id := after.stockTakes[id]]);
  }

  // Inventory rows

  lemma EffectReadsDocuments(db: Db, items: seq<Item>, i: nat)
    ensures Effect(db.(items := items), i) == Effect(db, i)
  {
  }

  lemma EnterItemSound(
    db: Db, name: string, category: string, sku: Option<string>, warehouse: string, itemType: ItemType, quantity: nat)
    requires Sound(db) && EnterItem(db, name, category, sku, warehouse, itemType, quantity).Ok?
    ensures Sound(EnterItem(db, name, category, sku, warehouse, itemType, quantity).value)
  {
    var after := EnterItem(db, name, category, sku, warehouse, itemType, quantity).value;
    EnlargedCoherent(db, after.items);
    NoEffectOutOfRange(db, |db.items|);
    forall i | 0 <= i < |after.items| ensures after.items[i].quantity == after.items[i].entered + Effect(after, i) {
      EffectReadsDocuments(db, after.items, i);
    }
  }

  lemma ItemReplaced(db: Db, id: nat, row: Item)
    requires Sound(db) && id < |db.items| && row.quantity >= 0
    requires row.quantity - row.entered == db.items[id].quantity - db.items[id].entered
    ensures Sound(db.(items := db.items[id := row]))
  {
    var after := db.(items := db.items[id := row]);
    EnlargedCoherent(db, after.items);
    forall i | 0 <= i < |after.items| ensures after.items[i].quantity == after.items[i].entered + Effect(after, i) {
      EffectReadsDocuments(db, after.items, i);
    }
  }
}
