/**
 The movements report always reconciles with the mutable quantities: it is
 rebuilt from the documents alone, yet adds up to what the rows hold.
 */
module Reconciliation {
  import opened Seqs
  import opened Wrappers
  import opened Tables
  import opened Stock
  import opened Report
  import opened Ledger
  import opened System
  import opened Runs

  /** What one movement puts into item i (IN) or takes out of it (OUT). */
  function NetAt(i: nat): Movement -> int
  {
    (m: Movement) => MoveSign(m.kind) * UnitsOf(m.lines, i)
  }

  /** What one executed transfer request moved away from row i. */
  function SentAt(i: nat): Movement -> int
  {
    (m: Movement) => if m.origin.TRANSFER_REQUEST? then UnitsOf(m.lines, i) else 0
  }

  // Each document's movements add up to its effect

  lemma TwoMoves(a: Movement, b: Movement, f: Movement -> int)
    ensures SumOver([a], f) == f(a)
    ensures SumOver([a] + [b], f) == f(a) + f(b)
  {
    assert [a][..0] == [];
    SumSnoc([a], b, f);
  }

  lemma DocumentNet(
    origin: Origin, warehouse: string, lines: seq<Line>, savedAt: int, savedType: MoveType, cancelledAt: Option<int>, i: nat)
    requires !savedType.TRANSFER? && !origin.TRANSFER_REQUEST?
    ensures var moves := DocumentMoves(origin, warehouse, lines, savedAt, savedType, cancelledAt);
            && SumOver(moves, NetAt(i)) == (if cancelledAt.Some? then 0 else MoveSign(savedType) * UnitsOf(lines, i))
            && SumOver(moves, SentAt(i)) == 0
  {
    var saved := At(origin, savedType, savedAt, false, warehouse, lines);
    var moves := DocumentMoves(origin, warehouse, lines, savedAt, savedType, cancelledAt);
    if cancelledAt.Some? {
      var undone := At(origin, Opposite(savedType), cancelledAt.value, true, warehouse, lines);
      TwoMoves(saved, undone, NetAt(i));
      TwoMoves(saved, undone, SentAt(i));
    } else {
      assert moves == [saved];
      TwoMoves(saved, saved, NetAt(i));
      TwoMoves(saved, saved, SentAt(i));
    }
  }

  lemma SaleNet(s: Sale, n: nat, i: nat)
    requires SaleOk(s, n)
    ensures SumOver(SaleMoves()(s), NetAt(i)) == SaleEffect(i)(s)
    ensures SumOver(SaleMoves()(s), SentAt(i)) == 0
  {
    DocumentNet(SALE, s.warehouse, Lines(s.lines), s.confirmedAt.GetOr(s.createdAt), OUT, s.cancelledAt, i);
  }

  lemma PickedOneNet(line: CountLine, i: nat)
    requires line.variance == if line.counted.Some? then Some(line.counted.value - line.expected) else None
    ensures UnitsOf(PickedOne(line, IN), i) - UnitsOf(PickedOne(line, OUT), i) == VarianceAt(i)(line)
  {
  }

  lemma {:induction false} PickedNet(lines: seq<CountLine>, i: nat)
    requires forall k :: 0 <= k < |lines| ==>
               lines[k].variance == if lines[k].counted.Some? then Some(lines[k].counted.value - lines[k].expected) else None
    ensures UnitsOf(Picked(lines, IN), i) - UnitsOf(Picked(lines, OUT), i) == SumOver(lines, VarianceAt(i))
  {
    if lines != [] {
      var n := |lines| - 1;
      PickedNet(lines[..n], i);
      SumAppend(Picked(lines[..n], IN), PickedOne(lines[n], IN), QtyAt(i));
      SumAppend(Picked(lines[..n], OUT), PickedOne(lines[n], OUT), QtyAt(i));
      PickedOneNet(lines[n], i);
    }
  }

  lemma SideNet(st: StockTake, kind: MoveType, i: nat)
    requires !kind.TRANSFER?
    ensures SumOver(Side(st, kind), NetAt(i)) == MoveSign(kind) * UnitsOf(Picked(st.lines, kind), i)
    ensures SumOver(Side(st, kind), SentAt(i)) == 0
  {
    if Picked(st.lines, kind) != [] {
      var m := Side(st, kind)[0];
      assert Side(st, kind) == [m];
      TwoMoves(m, m, NetAt(i));
      TwoMoves(m, m, SentAt(i));
    }
  }

  lemma StockTakeNet(st: StockTake, n: nat, i: nat)
    requires StockTakeOk(st, n)
    ensures SumOver(StockTakeMoves()(st), NetAt(i)) == StockTakeEffect(i)(st)
    ensures SumOver(StockTakeMoves()(st), SentAt(i)) == 0
  {
    if st.status.COMPLETED? && st.applied {
      forall k | 0 <= k < |st.lines|
        ensures st.lines[k].variance
                == if st.lines[k].counted.Some? then Some(st.lines[k].counted.value - st.lines[k].expected) else None
      {
        assert CountLineOk(st.lines[k], n);
      }
      PickedNet(st.lines, i);
      SideNet(st, IN, i);
      SideNet(st, OUT, i);
      SumAppend(Side(st, IN), Side(st, OUT), NetAt(i));
      SumAppend(Side(st, IN), Side(st, OUT), SentAt(i));
    }
  }

  lemma TransferNet(t: Transfer, i: nat)
    ensures SumOver(TransferMoves()(t), NetAt(i)) == 0
    ensures SumOver(TransferMoves()(t), SentAt(i)) == SentEffect(i)(t)
  {
    TwoMoves(TransferMove(t), TransferMove(t), NetAt(i));
    TwoMoves(TransferMove(t), TransferMove(t), SentAt(i));
  }

  lemma TransactionNet(t: Option<Transaction>, i: nat)
    ensures SumOver(TransactionMoves()(t), NetAt(i)) == TransactionEffect(i)(t)
    ensures SumOver(TransactionMoves()(t), SentAt(i)) == 0
  {
    if t.Some? {
      var m := TransactionMoves()(t)[0];
      assert TransactionMoves()(t) == [m];
      TwoMoves(m, m, NetAt(i));
      TwoMoves(m, m, SentAt(i));
    }
  }

  /** A weight whose sum over a source's movements is the sum over its rows of another weight. */
  lemma SourceSum<T>(s: seq<T>, moves: T -> seq<Movement>, f: Movement -> int, g: T -> int)
    requires forall k :: 0 <= k < |s| ==> SumOver(moves(s[k]), f) == g(s[k])
    ensures SumOver(FlatMap(s, moves), f) == SumOver(s, g)
  {
    SumFlatMap(s, moves, f, g);
  }

  function Nothing<T>(): T -> int
  {
    (x: T) => 0
  }

  lemma NothingIsZero<T>(s: seq<T>)
    ensures SumOver(s, Nothing<T>()) == 0
  {
    SumZero(s, Nothing<T>());
  }

  lemma SumSixParts(
    a: seq<Movement>, b: seq<Movement>, c: seq<Movement>, d: seq<Movement>, e: seq<Movement>, f: seq<Movement>,
    g: Movement -> int)
    ensures SumOver(a + b + c + d + e + f, g)
            == SumOver(a, g) + SumOver(b, g) + SumOver(c, g) + SumOver(d, g) + SumOver(e, g) + SumOver(f, g)
  {
    SumAppend(a + b + c + d + e, f, g);
    SumAppend(a + b + c + d, e, g);
    SumAppend(a + b + c, d, g);
    SumAppend(a + b, c, g);
    SumAppend(a, b, g);
  }

  lemma HistorySum(db: Db, g: Movement -> int)
    ensures SumOver(History(db), g)
            == SumOver(FlatMap(db.transactions, TransactionMoves()), g)
               + SumOver(FlatMap(db.sales, SaleMoves()), g)
               + SumOver(FlatMap(db.purchases, PurchaseMoves()), g)
               + SumOver(FlatMap(db.outflows, OutflowMoves()), g)
               + SumOver(FlatMap(db.transfers, TransferMoves()), g)
               + SumOver(FlatMap(db.stockTakes, StockTakeMoves()), g)
  {
    SumSixParts(
      FlatMap(db.transactions, TransactionMoves()), FlatMap(db.sales, SaleMoves()),
      FlatMap(db.purchases, PurchaseMoves()), FlatMap(db.outflows, OutflowMoves()),
      FlatMap(db.transfers, TransferMoves()), FlatMap(db.stockTakes, StockTakeMoves()), g);
  }

  lemma TradeSources(db: Db, i: nat)
    requires Coherent(db)
    ensures SumOver(FlatMap(db.sales, SaleMoves()), NetAt(i)) == SumOver(db.sales, SaleEffect(i))
    ensures SumOver(FlatMap(db.purchases, PurchaseMoves()), NetAt(i)) == SumOver(db.purchases, PurchaseEffect(i))
    ensures SumOver(FlatMap(db.outflows, OutflowMoves()), NetAt(i)) == SumOver(db.outflows, OutflowEffect(i))
    ensures SumOver(FlatMap(db.sales, SaleMoves()), SentAt(i)) == 0
    ensures SumOver(FlatMap(db.purchases, PurchaseMoves()), SentAt(i)) == 0
    ensures SumOver(FlatMap(db.outflows, OutflowMoves()), SentAt(i)) == 0
  {
    var n := |db.items|;
    forall k | 0 <= k < |db.sales|
      ensures SumOver(SaleMoves()(db.sales[k]), NetAt(i)) == SaleEffect(i)(db.sales[k])
      ensures SumOver(SaleMoves()(db.sales[k]), SentAt(i)) == Nothing<Sale>()(db.sales[k])
    {
      SaleNet(db.sales[k], n, i);
    }
    SourceSum(db.sales, SaleMoves(), NetAt(i), SaleEffect(i));
    SourceSum(db.sales, SaleMoves(), SentAt(i), Nothing<Sale>());
    NothingIsZero(db.sales);
    forall k | 0 <= k < |db.purchases|
      ensures SumOver(PurchaseMoves()(db.purchases[k]), NetAt(i)) == PurchaseEffect(i)(db.purchases[k])
      ensures SumOver(PurchaseMoves()(db.purchases[k]), SentAt(i)) == Nothing<Purchase>()(db.purchases[k])
    {
      var p := db.purchases[k];
      assert PurchaseOk(p, n);
      DocumentNet(PURCHASE, p.warehouse, Lines(p.lines), p.createdAt, IN, p.cancelledAt, i);
    }
    SourceSum(db.purchases, PurchaseMoves(), NetAt(i), PurchaseEffect(i));
    SourceSum(db.purchases, PurchaseMoves(), SentAt(i), Nothing<Purchase>());
    NothingIsZero(db.purchases);
    forall k | 0 <= k < |db.outflows|
      ensures SumOver(OutflowMoves()(db.outflows[k]), NetAt(i)) == OutflowEffect(i)(db.outflows[k])
      ensures SumOver(OutflowMoves()(db.outflows[k]), SentAt(i)) == Nothing<Outflow>()(db.outflows[k])
    {
      var o := db.outflows[k];
      assert OutflowOk(o, n);
      DocumentNet(OUTFLOW, o.warehouse, o.lines, o.createdAt, OUT, o.cancelledAt, i);
    }
    SourceSum(db.outflows, OutflowMoves(), NetAt(i), OutflowEffect(i));
    SourceSum(db.outflows, OutflowMoves(), SentAt(i), Nothing<Outflow>());
    NothingIsZero(db.outflows);
  }

  lemma OtherSources(db: Db, i: nat)
    requires Coherent(db)
    ensures SumOver(FlatMap(db.transactions, TransactionMoves()), NetAt(i)) == SumOver(db.transactions, TransactionEffect(i))
    ensures SumOver(FlatMap(db.transfers, TransferMoves()), NetAt(i)) == 0
    ensures SumOver(FlatMap(db.stockTakes, StockTakeMoves()), NetAt(i)) == SumOver(db.stockTakes, StockTakeEffect(i))
    ensures SumOver(FlatMap(db.transactions, TransactionMoves()), SentAt(i)) == 0
    ensures SumOver(FlatMap(db.transfers, TransferMoves()), SentAt(i)) == SumOver(db.transfers, SentEffect(i))
    ensures SumOver(FlatMap(db.stockTakes, StockTakeMoves()), SentAt(i)) == 0
  {
    forall k | 0 <= k < |db.transactions|
      ensures SumOver(TransactionMoves()(db.transactions[k]), NetAt(i)) == TransactionEffect(i)(db.transactions[k])
      ensures SumOver(TransactionMoves()(db.transactions[k]), SentAt(i)) == Nothing<Option<Transaction>>()(db.transactions[k])
    {
      TransactionNet(db.transactions[k], i);
    }
    SourceSum(db.transactions, TransactionMoves(), NetAt(i), TransactionEffect(i));
    SourceSum(db.transactions, TransactionMoves(), SentAt(i), Nothing<Option<Transaction>>());
    NothingIsZero(db.transactions);
    forall k | 0 <= k < |db.transfers|
      ensures SumOver(TransferMoves()(db.transfers[k]), NetAt(i)) == Nothing<Transfer>()(db.transfers[k])
      ensures SumOver(TransferMoves()(db.transfers[k]), SentAt(i)) == SentEffect(i)(db.transfers[k])
    {
      TransferNet(db.transfers[k], i);
    }
    SourceSum(db.transfers, TransferMoves(), NetAt(i), Nothing<Transfer>());
    SourceSum(db.transfers, TransferMoves(), SentAt(i), SentEffect(i));
    NothingIsZero(db.transfers);
    forall k | 0 <= k < |db.stockTakes|
      ensures SumOver(StockTakeMoves()(db.stockTakes[k]), NetAt(i)) == StockTakeEffect(i)(db.stockTakes[k])
      ensures SumOver(StockTakeMoves()(db.stockTakes[k]), SentAt(i)) == Nothing<StockTake>()(db.stockTakes[k])
    {
      StockTakeNet(db.stockTakes[k], |db.items|, i);
    }
    SourceSum(db.stockTakes, StockTakeMoves(), NetAt(i), StockTakeEffect(i));
    SourceSum(db.stockTakes, StockTakeMoves(), SentAt(i), Nothing<StockTake>());
    NothingIsZero(db.stockTakes);
  }

  /**
   Row by row: what is on hand is what was entered by hand, plus the IN lines
   and less the OUT lines the history shows for it, less what executed
   transfers sent away and plus what they landed on it.
   */
  lemma HistoryReconcilesPerItem(db: Db, i: nat)
    requires Sound(db) && i < |db.items|
    ensures db.items[i].quantity
            == db.items[i].entered + SumOver(History(db), NetAt(i)) - SumOver(History(db), SentAt(i))
               + SumOver(db.transfers, LandedEffect(i))
  {
    TradeSources(db, i);
    OtherSources(db, i);
    HistorySum(db, NetAt(i));
    HistorySum(db, SentAt(i));
  }

  // All items together

  function NetByItem(): nat -> Movement -> int
  {
    (i: nat) => NetAt(i)
  }

  /** The units of a movement's lines, added when it is an IN and subtracted when it is an OUT. */
  function NetTotal(): Movement -> int
  {
    (m: Movement) => MoveSign(m.kind) * TotalUnits(m.lines)
  }

  lemma MovementOverItems(m: Movement, n: nat)
    requires InRange(m.lines, n)
    ensures SumUpTo(n, RowAt(m, NetByItem())) == NetTotal()(m)
  {
    UnitsOverAllItems(m.lines, n);
    forall i: nat | i < n ensures RowAt(m, NetByItem())(i) == MoveSign(m.kind) * UnitsByItem(m.lines)(i) {
      assert NetByItem()(i) == NetAt(i);
    }
    SumUpToScaled(n, UnitsByItem(m.lines), MoveSign(m.kind), RowAt(m, NetByItem()));
  }

  lemma {:induction false} PickedInRange(lines: seq<CountLine>, kind: MoveType, n: nat)
    requires forall k :: 0 <= k < |lines| ==> lines[k].item < n
    ensures InRange(Picked(lines, kind), n)
  {
    if lines != [] {
      PickedInRange(lines[..|lines| - 1], kind, n);
    }
  }

  function LinesInRange(n: nat): Movement -> bool
  {
    (m: Movement) => InRange(m.lines, n)
  }

  ghost predicate AllMoves(movements: seq<Movement>, n: nat)
  {
    forall j :: 0 <= j < |movements| ==> InRange(movements[j].lines, n)
  }

  lemma SourceInRange<T>(s: seq<T>, moves: T -> seq<Movement>, n: nat)
    requires forall k :: 0 <= k < |s| ==> AllMoves(moves(s[k]), n)
    ensures AllMoves(FlatMap(s, moves), n)
  {
    forall k, j | 0 <= k < |s| && 0 <= j < |moves(s[k])| ensures LinesInRange(n)(moves(s[k])[j]) {
      assert AllMoves(moves(s[k]), n);
    }
    FlatMapAll(s, moves, LinesInRange(n));
    forall j | 0 <= j < |FlatMap(s, moves)| ensures InRange(FlatMap(s, moves)[j].lines, n) {
      assert LinesInRange(n)(FlatMap(s, moves)[j]);
    }
  }

  lemma TradeInRange(db: Db)
    requires Coherent(db)
    ensures AllMoves(FlatMap(db.sales, SaleMoves()), |db.items|)
    ensures AllMoves(FlatMap(db.purchases, PurchaseMoves()), |db.items|)
    ensures AllMoves(FlatMap(db.outflows, OutflowMoves()), |db.items|)
  {
    var n := |db.items|;
    forall k | 0 <= k < |db.sales| ensures AllMoves(SaleMoves()(db.sales[k]), n) {
      assert SaleOk(db.sales[k], n);
    }
    SourceInRange(db.sales, SaleMoves(), n);
    forall k | 0 <= k < |db.purchases| ensures AllMoves(PurchaseMoves()(db.purchases[k]), n) {
      assert PurchaseOk(db.purchases[k], n);
    }
    SourceInRange(db.purchases, PurchaseMoves(), n);
    forall k | 0 <= k < |db.outflows| ensures AllMoves(OutflowMoves()(db.outflows[k]), n) {
      assert OutflowOk(db.outflows[k], n);
    }
    SourceInRange(db.outflows, OutflowMoves(), n);
  }

  lemma MovesInRange(db: Db)
    requires Coherent(db)
    ensures AllMoves(FlatMap(db.transactions, TransactionMoves()), |db.items|)
    ensures AllMoves(FlatMap(db.transfers, TransferMoves()), |db.items|)
  {
    var n := |db.items|;
    forall k | 0 <= k < |db.transactions| ensures AllMoves(TransactionMoves()(db.transactions[k]), n) {
      assert TransactionOk(db.transactions[k], n);
    }
    SourceInRange(db.transactions, TransactionMoves(), n);
    forall k | 0 <= k < |db.transfers| ensures AllMoves(TransferMoves()(db.transfers[k]), n) {
      assert TransferOk(db.transfers[k], n);
    }
    SourceInRange(db.transfers, TransferMoves(), n);
  }

  lemma CountsInRange(db: Db)
    requires Coherent(db)
    ensures AllMoves(FlatMap(db.stockTakes, StockTakeMoves()), |db.items|)
  {
    var n := |db.items|;
    forall k | 0 <= k < |db.stockTakes| ensures AllMoves(StockTakeMoves()(db.stockTakes[k]), n) {
      var st := db.stockTakes[k];
      assert StockTakeOk(st, n);
      forall j | 0 <= j < |st.lines| ensures st.lines[j].item < n {
        assert CountLineOk(st.lines[j], n);
      }
      PickedInRange(st.lines, IN, n);
      PickedInRange(st.lines, OUT, n);
    }
    SourceInRange(db.stockTakes, StockTakeMoves(), n);
  }

  lemma AllMovesAppend(a: seq<Movement>, b: seq<Movement>, n: nat)
    requires AllMoves(a, n) && AllMoves(b, n)
    ensures AllMoves(a + b, n)
  {
  }

  lemma HistoryInRange(db: Db)
    requires Coherent(db)
    ensures AllMoves(History(db), |db.items|)
  {
    var n := |db.items|;
    TradeInRange(db);
    MovesInRange(db);
    CountsInRange(db);
    var history := FlatMap(db.transactions, TransactionMoves());
    AllMovesAppend(history, FlatMap(db.sales, SaleMoves()), n);
    history := history + FlatMap(db.sales, SaleMoves());
    AllMovesAppend(history, FlatMap(db.purchases, PurchaseMoves()), n);
    history := history + FlatMap(db.purchases, PurchaseMoves());
    AllMovesAppend(history, FlatMap(db.outflows, OutflowMoves()), n);
    history := history + FlatMap(db.outflows, OutflowMoves());
    AllMovesAppend(history, FlatMap(db.transfers, TransferMoves()), n);
    history := history + FlatMap(db.transfers, TransferMoves());
    AllMovesAppend(history, FlatMap(db.stockTakes, StockTakeMoves()), n);
  }

  function SentByItem(): nat -> Transfer -> int
  {
    (i: nat) => SentEffect(i)
  }

  function LandedByItem(): nat -> Transfer -> int
  {
    (i: nat) => LandedEffect(i)
  }

  function SentTotal(): Transfer -> int
  {
    (t: Transfer) => if t.status.COMPLETED? then TotalUnits(t.lines) else 0
  }

  lemma TransferOverItems(t: Transfer, n: nat)
    requires TransferOk(t, n)
    ensures SumUpTo(n, RowAt(t, SentByItem())) == SentTotal()(t)
    ensures SumUpTo(n, RowAt(t, LandedByItem())) == SentTotal()(t)
  {
    var c := if t.status.COMPLETED? then 1 else 0;
    UnitsOverAllItems(t.lines, n);
    UnitsOverAllItems(t.landed, n);
    forall i: nat | i < n
      ensures RowAt(t, SentByItem())(i) == c * UnitsByItem(t.lines)(i)
      ensures RowAt(t, LandedByItem())(i) == c * UnitsByItem(t.landed)(i)
    {
      assert SentByItem()(i) == SentEffect(i) && LandedByItem()(i) == LandedEffect(i);
    }
    SumUpToScaled(n, UnitsByItem(t.lines), c, RowAt(t, SentByItem()));
    SumUpToScaled(n, UnitsByItem(t.landed), c, RowAt(t, LandedByItem()));
  }

  /** Over all rows, what executed transfers sent away is what they landed. */
  lemma TransfersCancelOut(db: Db)
    requires Coherent(db)
    ensures SumUpTo(|db.items|, SumAt(db.transfers, SentByItem()))
            == SumUpTo(|db.items|, SumAt(db.transfers, LandedByItem()))
  {
    var n := |db.items|;
    forall k | 0 <= k < |db.transfers|
      ensures SumUpTo(n, RowAt(db.transfers[k], SentByItem())) == SentTotal()(db.transfers[k])
      ensures SumUpTo(n, RowAt(db.transfers[k], LandedByItem())) == SentTotal()(db.transfers[k])
    {
      TransferOverItems(db.transfers[k], n);
    }
    SumExchange(db.transfers, n, SentByItem(), SentTotal());
    SumExchange(db.transfers, n, LandedByItem(), SentTotal());
  }

  function QuantityOf(): Item -> int
  {
    (item: Item) => item.quantity
  }

  function EnteredOf(): Item -> int
  {
    (item: Item) => item.entered
  }

  /** The stock on hand over all rows, soft-deleted ones included, is what was entered plus IN less OUT. */
  lemma HistoryReconciles(db: Db)
    requires Sound(db)
    ensures SumOver(db.items, QuantityOf()) == SumOver(db.items, EnteredOf()) + SumOver(History(db), NetTotal())
  {
    var n := |db.items|;
    var quantity, entered := ByPosition(db.items, QuantityOf()), ByPosition(db.items, EnteredOf());
    var net := SumAt(History(db), NetByItem());
    var sent, landed := SumAt(db.transfers, SentByItem()), SumAt(db.transfers, LandedByItem());
    var left := (i: nat) => quantity(i) + sent(i);
    var middle := (i: nat) => entered(i) + net(i);
    var right := (i: nat) => middle(i) + landed(i);
    forall i: nat | i < n ensures left(i) == right(i) {
      HistoryReconcilesPerItem(db, i);
      OtherSources(db, i);
      TradeSources(db, i);
      HistorySum(db, SentAt(i));
      assert NetByItem()(i) == NetAt(i) && SentByItem()(i) == SentEffect(i) && LandedByItem()(i) == LandedEffect(i);
    }
    SumUpToSame(n, left, right);
    SumUpToPlus(n, quantity, sent, left);
    SumUpToPlus(n, entered, net, middle);
    SumUpToPlus(n, middle, landed, right);
    TransfersCancelOut(db);
    SumByPosition(db.items, QuantityOf());
    SumByPosition(db.items, EnteredOf());
    HistoryInRange(db);
    forall k | 0 <= k < |History(db)| ensures SumUpTo(n, RowAt(History(db)[k], NetByItem())) == NetTotal()(History(db)[k]) {
      MovementOverItems(History(db)[k], n);
    }
    SumExchange(History(db), n, NetByItem(), NetTotal());
  }

  /** A query that leaves nothing out: every date, every type. */
  ghost predicate Unbounded(db: Db, q: Query)
  {
    q.kind.None? && forall j :: 0 <= j < |History(db)| ==> Within(History(db)[j].date, q)
  }

  lemma UnboundedReport(db: Db, q: Query)
    requires Unbounded(db, q)
    ensures MovementsReport(db, None, q) == NewestFirst(History(db))
  {
    ReportIsCutOfHistory(db, None, q);
    FilterAll(History(db), Wanted(None, q));
  }

  /**
   In every run of every service, the unbounded, unrestricted movements report
   reconciles with the stock: the quantities of all rows add up to what was
   entered by hand plus the report's IN lines less its OUT lines.
   */
  lemma ReportReconcilesInEveryRun(start: Db, ops: seq<Op>, q: Query)
    requires Sound(start) && Unbounded(Run(start, ops), q)
    ensures var db := Run(start, ops);
            SumOver(db.items, QuantityOf())
            == SumOver(db.items, EnteredOf()) + SumOver(MovementsReport(db, None, q), NetTotal())
  {
    var db := Run(start, ops);
    RunSound(start, ops);
    HistoryReconciles(db);
    UnboundedReport(db, q);
    NewestFirstSum(History(db), NetTotal());
  }

  /** The same row by row, for every item of every reachable state. */
  lemma ReportReconcilesPerItemInEveryRun(start: Db, ops: seq<Op>, q: Query, i: nat)
    requires Sound(start) && Unbounded(Run(start, ops), q) && i < |Run(start, ops).items|
    ensures var db := Run(start, ops);
            var report := MovementsReport(db, None, q);
            db.items[i].quantity
            == db.items[i].entered + SumOver(report, NetAt(i)) - SumOver(report, SentAt(i))
               + SumOver(db.transfers, LandedEffect(i))
  {
    var db := Run(start, ops);
    RunSound(start, ops);
    HistoryReconcilesPerItem(db, i);
    UnboundedReport(db, q);
    NewestFirstSum(History(db), NetAt(i));
    NewestFirstSum(History(db), SentAt(i));
  }
}
