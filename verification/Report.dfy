/**
 The movements report: every stock movement, rebuilt from the documents that
 caused it. Each source is read with a date filter of its own; the exact cut
 is made once the movements are built.
 */
module Report {
  import opened Seqs
  import opened Wrappers
  import opened Tables
  import opened Stock

  datatype Origin = TRANSACTION | SALE | PURCHASE | OUTFLOW | TRANSFER_REQUEST | STOCK_TAKE

  datatype Movement = Movement(
    origin: Origin, kind: MoveType, date: int, cancellation: bool,
    source: Option<string>, destination: Option<string>, lines: seq<Line>)

  datatype Query = Query(from: int, to: int, kind: Option<MoveType>)

  // The movements of one document

  function TransactionMoves(): Option<Transaction> -> seq<Movement>
  {
    (t: Option<Transaction>) =>
      if t.None? then []
      else [Movement(TRANSACTION, t.value.kind, t.value.date, false, t.value.source, t.value.destination, t.value.lines)]
  }

  function At(
    origin: Origin, kind: MoveType, date: int, cancellation: bool, warehouse: string, lines: seq<Line>): Movement
  {
    if kind.IN? then Movement(origin, kind, date, cancellation, None, Some(warehouse), lines)
    else Movement(origin, kind, date, cancellation, Some(warehouse), None, lines)
  }

  function Opposite(kind: MoveType): MoveType
  {
    if kind.IN? then OUT else IN
  }

  /** One movement when the document was saved, and the opposite one if it was cancelled. */
  function DocumentMoves(
    origin: Origin, warehouse: string, lines: seq<Line>, savedAt: int, savedType: MoveType, cancelledAt: Option<int>): seq<Movement>
  {
    [At(origin, savedType, savedAt, false, warehouse, lines)]
      + (if cancelledAt.Some? then [At(origin, Opposite(savedType), cancelledAt.value, true, warehouse, lines)] else [])
  }

  /** Neither a quotation nor one cancelled before it was confirmed ever moved stock. */
  predicate SaleMoved(s: Sale)
  {
    !s.status.DRAFT? && !(s.confirmedAt.None? && s.quoted)
  }

  function SaleDocumentMoves(s: Sale): seq<Movement>
  {
    DocumentMoves(SALE, s.warehouse, Lines(s.lines), s.confirmedAt.GetOr(s.createdAt), OUT, s.cancelledAt)
  }

  function SaleMoves(): Sale -> seq<Movement>
  {
    (s: Sale) => if SaleMoved(s) then SaleDocumentMoves(s) else []
  }

  function PurchaseMoves(): Purchase -> seq<Movement>
  {
    (p: Purchase) => DocumentMoves(PURCHASE, p.warehouse, Lines(p.lines), p.createdAt, IN, p.cancelledAt)
  }

  function OutflowMoves(): Outflow -> seq<Movement>
  {
    (o: Outflow) => DocumentMoves(OUTFLOW, o.warehouse, o.lines, o.createdAt, OUT, o.cancelledAt)
  }

  function TransferMove(t: Transfer): Movement
  {
    Movement(TRANSFER_REQUEST, MoveType.TRANSFER, t.receivedAt.GetOr(t.updatedAt), false,
             Some(t.source), Some(t.destination), t.lines)
  }

  function TransferMoves(): Transfer -> seq<Movement>
  {
    (t: Transfer) => if t.status.COMPLETED? then [TransferMove(t)] else []
  }

  /** A counted line that went up (IN) or down (OUT), with how much. */
  function PickedOne(line: CountLine, kind: MoveType): seq<Line>
  {
    var diff := if line.counted.Some? then line.counted.value - line.expected else 0;
    if kind.IN? && diff > 0 then [Line(line.item, diff)]
    else if kind.OUT? && diff < 0 then [Line(line.item, -diff)]
    else []
  }

  function Picked(lines: seq<CountLine>, kind: MoveType): seq<Line>
  {
    if lines == [] then [] else Picked(lines[..|lines| - 1], kind) + PickedOne(lines[|lines| - 1], kind)
  }

  function Side(st: StockTake, kind: MoveType): seq<Movement>
  {
    var picked := Picked(st.lines, kind);
    if picked == [] then []
    else [At(STOCK_TAKE, kind, st.completedAt.GetOr(st.updatedAt), false, st.warehouse, picked)]
  }

  function StockTakeMoves(): StockTake -> seq<Movement>
  {
    (st: StockTake) => if st.status.COMPLETED? && st.applied then Side(st, IN) + Side(st, OUT) else []
  }

  /** Every movement there ever was. */
  function History(db: Db): seq<Movement>
  {
    FlatMap(db.transactions, TransactionMoves())
      + FlatMap(db.sales, SaleMoves())
      + FlatMap(db.purchases, PurchaseMoves())
      + FlatMap(db.outflows, OutflowMoves())
      + FlatMap(db.transfers, TransferMoves())
      + FlatMap(db.stockTakes, StockTakeMoves())
  }

  // The queries, one per source

  predicate Within(date: int, q: Query)
  {
    q.from <= date <= q.to
  }

  predicate WithinIfAny(date: Option<int>, q: Query)
  {
    date.Some? && Within(date.value, q)
  }

  /** No warehouse restriction, or one of a document's warehouses is among them. */
  predicate Visible(warehouses: Option<set<string>>, source: Option<string>, destination: Option<string>)
  {
    warehouses.None? || (source.Some? && source.value in warehouses.value)
    || (destination.Some? && destination.value in warehouses.value)
  }

  function TransactionWhere(warehouses: Option<set<string>>, q: Query): Option<Transaction> -> bool
  {
    (t: Option<Transaction>) =>
      t.Some? && Visible(warehouses, t.value.source, t.value.destination) && Within(t.value.date, q)
  }

  function SaleWhere(warehouses: Option<set<string>>, q: Query): Sale -> bool
  {
    (s: Sale) =>
      && Visible(warehouses, Some(s.warehouse), None)
      && SaleMoved(s)
      && (WithinIfAny(s.confirmedAt, q)
          || (s.confirmedAt.None? && Within(s.createdAt, q))
          || WithinIfAny(s.cancelledAt, q))
  }

  function PurchaseWhere(warehouses: Option<set<string>>, q: Query): Purchase -> bool
  {
    (p: Purchase) =>
      Visible(warehouses, Some(p.warehouse), None) && (Within(p.createdAt, q) || WithinIfAny(p.cancelledAt, q))
  }

  function OutflowWhere(warehouses: Option<set<string>>, q: Query): Outflow -> bool
  {
    (o: Outflow) =>
      Visible(warehouses, Some(o.warehouse), None) && (Within(o.createdAt, q) || WithinIfAny(o.cancelledAt, q))
  }

  function TransferWhere(warehouses: Option<set<string>>, q: Query): Transfer -> bool
  {
    (t: Transfer) =>
      && Visible(warehouses, Some(t.source), Some(t.destination))
      && t.status.COMPLETED?
      && (WithinIfAny(t.receivedAt, q) || (t.receivedAt.None? && Within(t.updatedAt, q)))
  }

  function StockTakeWhere(warehouses: Option<set<string>>, q: Query): StockTake -> bool
  {
    (st: StockTake) =>
      && Visible(warehouses, Some(st.warehouse), None)
      && st.status.COMPLETED? && st.applied
      && (WithinIfAny(st.completedAt, q) || (st.completedAt.None? && Within(st.updatedAt, q)))
  }

  predicate InCut(q: Query, m: Movement)
  {
    Within(m.date, q) && (q.kind.None? || m.kind == q.kind.value)
  }

  /** The exact cut made at the end. */
  function Cut(q: Query): Movement -> bool
  {
    (m: Movement) => InCut(q, m)
  }

  /** The movements a reader of these warehouses may see, inside the period and of the type asked for. */
  function Wanted(warehouses: Option<set<string>>, q: Query): Movement -> bool
  {
    (m: Movement) => Visible(warehouses, m.source, m.destination) && InCut(q, m)
  }

  // Newest first

  /** Inserts m after every movement that is not older than it. */
  function Insert(sorted: seq<Movement>, m: Movement): seq<Movement>
  {
    if sorted == [] || sorted[|sorted| - 1].date >= m.date then sorted + [m]
    else Insert(sorted[..|sorted| - 1], m) + [sorted[|sorted| - 1]]
  }

  /** Latest date first; movements of one date keep their order. */
  function NewestFirst(s: seq<Movement>): seq<Movement>
  {
    if s == [] then [] else Insert(NewestFirst(s[..|s| - 1]), s[|s| - 1])
  }

  predicate IsNewestFirst(s: seq<Movement>)
  {
    forall j, k :: 0 <= j < k < |s| ==> s[j].date >= s[k].date
  }

  lemma {:induction false} InsertSorts(sorted: seq<Movement>, m: Movement)
    requires IsNewestFirst(sorted)
    ensures IsNewestFirst(Insert(sorted, m))
    ensures forall k :: 0 <= k < |Insert(sorted, m)| ==> Insert(sorted, m)[k] == m || Insert(sorted, m)[k] in sorted
  {
    if !(sorted == [] || sorted[|sorted| - 1].date >= m.date) {
      InsertSorts(sorted[..|sorted| - 1], m);
    }
  }

  lemma {:induction false} InsertSum(sorted: seq<Movement>, m: Movement, f: Movement -> int)
    ensures SumOver(Insert(sorted, m), f) == SumOver(sorted, f) + f(m)
  {
    if sorted == [] || sorted[|sorted| - 1].date >= m.date {
      SumSnoc(sorted, m, f);
    } else {
      InsertSum(sorted[..|sorted| - 1], m, f);
      SumSnoc(Insert(sorted[..|sorted| - 1], m), sorted[|sorted| - 1], f);
    }
  }

  function OnDate(date: int): Movement -> bool
  {
    (m: Movement) => m.date == date
  }

  lemma {:induction false} InsertIsStable(sorted: seq<Movement>, m: Movement, date: int)
    ensures Filter(Insert(sorted, m), OnDate(date))
            == Filter(sorted, OnDate(date)) + (if m.date == date then [m] else [])
  {
    if sorted == [] || sorted[|sorted| - 1].date >= m.date {
      FilterSnoc(sorted, m, OnDate(date));
    } else {
      var prefix, last := sorted[..|sorted| - 1], sorted[|sorted| - 1];
      InsertIsStable(prefix, m, date);
      assert Insert(sorted, m) == Insert(prefix, m) + [last];
      FilterSnoc(Insert(prefix, m), last, OnDate(date));
      FilterTail(sorted, OnDate(date));
      if m.date == date {
        assert !OnDate(date)(last);
      }
    }
  }

  lemma {:induction false} NewestFirstIsSorted(s: seq<Movement>)
    ensures IsNewestFirst(NewestFirst(s))
  {
    if s != [] {
      NewestFirstIsSorted(s[..|s| - 1]);
      InsertSorts(NewestFirst(s[..|s| - 1]), s[|s| - 1]);
    }
  }

  lemma {:induction false} NewestFirstIsStable(s: seq<Movement>, date: int)
    ensures Filter(NewestFirst(s), OnDate(date)) == Filter(s, OnDate(date))
  {
    if s != [] {
      var n := |s| - 1;
      NewestFirstIsStable(s[..n], date);
      NewestFirstIsSorted(s[..n]);
      InsertIsStable(NewestFirst(s[..n]), s[n], date);
      FilterTail(s, OnDate(date));
    }
  }

  /** Sorted by date, nothing lost or added, and movements of the same date in their original order. */
  lemma NewestFirstSorts(s: seq<Movement>)
    ensures IsNewestFirst(NewestFirst(s))
    ensures forall date :: Filter(NewestFirst(s), OnDate(date)) == Filter(s, OnDate(date))
  {
    NewestFirstIsSorted(s);
    forall date ensures Filter(NewestFirst(s), OnDate(date)) == Filter(s, OnDate(date)) {
      NewestFirstIsStable(s, date);
    }
  }

  lemma {:induction false} NewestFirstSum(s: seq<Movement>, f: Movement -> int)
    ensures SumOver(NewestFirst(s), f) == SumOver(s, f)
  {
    if s != [] {
      NewestFirstSum(s[..|s| - 1], f);
      InsertSum(NewestFirst(s[..|s| - 1]), s[|s| - 1], f);
    }
  }

  // The report

  /** The movements of the rows the six queries return. */
  function Selected(db: Db, warehouses: Option<set<string>>, q: Query): seq<Movement>
  {
    FlatMap(Filter(db.transactions, TransactionWhere(warehouses, q)), TransactionMoves())
      + FlatMap(Filter(db.sales, SaleWhere(warehouses, q)), SaleMoves())
      + FlatMap(Filter(db.purchases, PurchaseWhere(warehouses, q)), PurchaseMoves())
      + FlatMap(Filter(db.outflows, OutflowWhere(warehouses, q)), OutflowMoves())
      + FlatMap(Filter(db.transfers, TransferWhere(warehouses, q)), TransferMoves())
      + FlatMap(Filter(db.stockTakes, StockTakeWhere(warehouses, q)), StockTakeMoves())
  }

  function MovementsReport(db: Db, warehouses: Option<set<string>>, q: Query): seq<Movement>
  {
    NewestFirst(Filter(Selected(db, warehouses, q), Cut(q)))
  }

  class StockMovementsService {
    const db: Database

    constructor (db: Database)
      ensures this.db == db
    {
      this.db := db;
    }

    method FindAll(warehouses: Option<set<string>>, q: Query) returns (movements: seq<Movement>)
      ensures movements == MovementsReport(db.tables, warehouses, q)
    {
      var t := db.tables;
      var transactions := Filter(t.transactions, TransactionWhere(warehouses, q));
      var sales := Filter(t.sales, SaleWhere(warehouses, q));
      var purchases := Filter(t.purchases, PurchaseWhere(warehouses, q));
      var outflows := Filter(t.outflows, OutflowWhere(warehouses, q));
      var transfers := Filter(t.transfers, TransferWhere(warehouses, q));
      var stockTakes := Filter(t.stockTakes, StockTakeWhere(warehouses, q));
      movements := PushAll(transactions, sales, purchases, outflows, transfers, stockTakes);
      movements := NewestFirst(Filter(movements, Cut(q)));
    }

    method PushAll(
      transactions: seq<Option<Transaction>>, sales: seq<Sale>, purchases: seq<Purchase>, outflows: seq<Outflow>,
      transfers: seq<Transfer>, stockTakes: seq<StockTake>) returns (r: seq<Movement>)
      requires forall t :: t in transactions ==> t.Some?
      requires forall s :: s in sales ==> SaleMoved(s)
      requires forall t :: t in transfers ==> t.status.COMPLETED?
      requires forall st :: st in stockTakes ==> st.status.COMPLETED? && st.applied
      ensures r == FlatMap(transactions, TransactionMoves()) + FlatMap(sales, SaleMoves())
                   + FlatMap(purchases, PurchaseMoves()) + FlatMap(outflows, OutflowMoves())
                   + FlatMap(transfers, TransferMoves()) + FlatMap(stockTakes, StockTakeMoves())
    {
      var a := PushTransactions([], transactions);
      assert a == FlatMap(transactions, TransactionMoves());
      var b := PushSales(a, sales);
      assert b == FlatMap(transactions, TransactionMoves()) + FlatMap(sales, SaleMoves());
      var c := PushPurchases(b, purchases);
      var d := PushOutflows(c, outflows);
      var e := PushTransfers(d, transfers);
      r := PushStockTakes(e, stockTakes);
    }

    method PushTransactions(movements: seq<Movement>, rows: seq<Option<Transaction>>) returns (r: seq<Movement>)
      requires forall t :: t in rows ==> t.Some?
      ensures r == movements + FlatMap(rows, TransactionMoves())
    {
      r := movements;
      for k := 0 to |rows|
        invariant r == movements + FlatMap(rows[..k], TransactionMoves())
      {
        assert rows[k] in rows;
        PushedNext(movements, rows, k, TransactionMoves());
        var t := rows[k].value;
        r := r + [Movement(TRANSACTION, t.kind, t.date, false, t.source, t.destination, t.lines)];
      }
      assert rows[..|rows|] == rows;
    }

    /** One movement for the saved document, and one for what its cancellation undid. */
    method PushDocument(
      movements: seq<Movement>, origin: Origin, warehouse: string, lines: seq<Line>, savedAt: int, savedType: MoveType,
      cancelledAt: Option<int>) returns (r: seq<Movement>)
      ensures r == movements + DocumentMoves(origin, warehouse, lines, savedAt, savedType, cancelledAt)
    {
      r := movements + [At(origin, savedType, savedAt, false, warehouse, lines)];
      if cancelledAt.Some? {
        r := r + [At(origin, Opposite(savedType), cancelledAt.value, true, warehouse, lines)];
      }
    }

    method PushSales(movements: seq<Movement>, rows: seq<Sale>) returns (r: seq<Movement>)
      requires forall s :: s in rows ==> SaleMoved(s)
      ensures r == movements + FlatMap(rows, SaleMoves())
    {
      r := movements;
      for k := 0 to |rows|
        invariant r == movements + FlatMap(rows[..k], SaleMoves())
      {
        assert rows[k] in rows;
        PushedNext(movements, rows, k, SaleMoves());
        var s := rows[k];
        r := PushDocument(r, SALE, s.warehouse, Lines(s.lines), s.confirmedAt.GetOr(s.createdAt), OUT, s.cancelledAt);
      }
      assert rows[..|rows|] == rows;
    }

    method PushPurchases(movements: seq<Movement>, rows: seq<Purchase>) returns (r: seq<Movement>)
      ensures r == movements + FlatMap(rows, PurchaseMoves())
    {
      r := movements;
      for k := 0 to |rows|
        invariant r == movements + FlatMap(rows[..k], PurchaseMoves())
      {
        PushedNext(movements, rows, k, PurchaseMoves());
        var p := rows[k];
        r := PushDocument(r, PURCHASE, p.warehouse, Lines(p.lines), p.createdAt, IN, p.cancelledAt);
      }
      assert rows[..|rows|] == rows;
    }

    method PushOutflows(movements: seq<Movement>, rows: seq<Outflow>) returns (r: seq<Movement>)
      ensures r == movements + FlatMap(rows, OutflowMoves())
    {
      r := movements;
      for k := 0 to |rows|
        invariant r == movements + FlatMap(rows[..k], OutflowMoves())
      {
        PushedNext(movements, rows, k, OutflowMoves());
        var o := rows[k];
        r := PushDocument(r, OUTFLOW, o.warehouse, o.lines, o.createdAt, OUT, o.cancelledAt);
      }
      assert rows[..|rows|] == rows;
    }

    method PushTransfers(movements: seq<Movement>, rows: seq<Transfer>) returns (r: seq<Movement>)
      requires forall t :: t in rows ==> t.status.COMPLETED?
      ensures r == movements + FlatMap(rows, TransferMoves())
    {
      r := movements;
      for k := 0 to |rows|
        invariant r == movements + FlatMap(rows[..k], TransferMoves())
      {
        assert rows[k] in rows;
        PushedNext(movements, rows, k, TransferMoves());
        r := r + [TransferMove(rows[k])];
      }
      assert rows[..|rows|] == rows;
    }

    method PushStockTakes(movements: seq<Movement>, rows: seq<StockTake>) returns (r: seq<Movement>)
      requires forall st :: st in rows ==> st.status.COMPLETED? && st.applied
      ensures r == movements + FlatMap(rows, StockTakeMoves())
    {
      r := movements;
      for k := 0 to |rows|
        invariant r == movements + FlatMap(rows[..k], StockTakeMoves())
      {
        assert rows[k] in rows;
        PushedNext(movements, rows, k, StockTakeMoves());
        r := PushStockTake(r, rows[k]);
      }
      assert rows[..|rows|] == rows;
    }

    method PushStockTake(movements: seq<Movement>, st: StockTake) returns (r: seq<Movement>)
      requires st.status.COMPLETED? && st.applied
      ensures r == movements + StockTakeMoves()(st)
    {
      r := PushSide(movements, st, IN);
      r := PushSide(r, st, OUT);
      assert r == movements + (Side(st, IN) + Side(st, OUT));
    }

    /** Nothing is pushed for a side no line is on. */
    method PushSide(movements: seq<Movement>, st: StockTake, kind: MoveType) returns (r: seq<Movement>)
      requires !kind.TRANSFER?
      ensures r == movements + Side(st, kind)
    {
      var picked: seq<Line> := [];
      for k := 0 to |st.lines|
        invariant picked == Picked(st.lines[..k], kind)
      {
        assert st.lines[..k + 1][..k] == st.lines[..k];
        var line := st.lines[k];
        if line.counted.Some? {
          var diff := line.counted.value - line.expected;
          if kind.IN? && diff > 0 {
            picked := picked + [Line(line.item, diff)];
          } else if kind.OUT? && diff < 0 {
            picked := picked + [Line(line.item, -diff)];
          }
        }
      }
      assert st.lines[..|st.lines|] == st.lines;
      r := movements;
      if picked != [] {
        r := r + [At(STOCK_TAKE, kind, st.completedAt.GetOr(st.updatedAt), false, st.warehouse, picked)];
      }
    }
  }

  // The date prefilters lose nothing

  /** For a row the query returns, every movement is visible; for any other, none is wanted. */
  ghost predicate PrefilterFits<T>(s: seq<T>, where: T -> bool, moves: T -> seq<Movement>, warehouses: Option<set<string>>, q: Query)
  {
    forall k :: 0 <= k < |s| ==>
      if where(s[k]) then forall j :: 0 <= j < |moves(s[k])| ==> Visible(warehouses, moves(s[k])[j].source, moves(s[k])[j].destination)
      else Filter(moves(s[k]), Wanted(warehouses, q)) == []
  }

  lemma SourceIsComplete<T(!new)>(s: seq<T>, where: T -> bool, moves: T -> seq<Movement>, warehouses: Option<set<string>>, q: Query)
    requires PrefilterFits(s, where, moves, warehouses, q)
    ensures Filter(FlatMap(Filter(s, where), moves), Cut(q)) == Filter(FlatMap(s, moves), Wanted(warehouses, q))
  {
    PrefilterIsSafe(s, where, moves, Wanted(warehouses, q));
    var rows := Filter(s, where);
    var visible := (m: Movement) => Visible(warehouses, m.source, m.destination);
    forall k, j | 0 <= k < |rows| && 0 <= j < |moves(rows[k])| ensures visible(moves(rows[k])[j]) {
      assert rows[k] in rows;
      assert rows[k] in s;
    }
    FlatMapAll(rows, moves, visible);
    FilterSame(FlatMap(rows, moves), Cut(q), Wanted(warehouses, q));
  }

  lemma QueriesAreComplete(db: Db, warehouses: Option<set<string>>, q: Query)
    ensures PrefilterFits(db.transactions, TransactionWhere(warehouses, q), TransactionMoves(), warehouses, q)
    ensures PrefilterFits(db.sales, SaleWhere(warehouses, q), SaleMoves(), warehouses, q)
    ensures PrefilterFits(db.purchases, PurchaseWhere(warehouses, q), PurchaseMoves(), warehouses, q)
    ensures PrefilterFits(db.outflows, OutflowWhere(warehouses, q), OutflowMoves(), warehouses, q)
  {
    var wanted := Wanted(warehouses, q);
    forall k | 0 <= k < |db.transactions| && !TransactionWhere(warehouses, q)(db.transactions[k])
      ensures Filter(TransactionMoves()(db.transactions[k]), wanted) == []
    {
      FilterNone(TransactionMoves()(db.transactions[k]), wanted);
    }
    forall k | 0 <= k < |db.sales| && !SaleWhere(warehouses, q)(db.sales[k])
      ensures Filter(SaleMoves()(db.sales[k]), wanted) == []
    {
      FilterNone(SaleMoves()(db.sales[k]), wanted);
    }
    forall k | 0 <= k < |db.purchases| && !PurchaseWhere(warehouses, q)(db.purchases[k])
      ensures Filter(PurchaseMoves()(db.purchases[k]), wanted) == []
    {
      FilterNone(PurchaseMoves()(db.purchases[k]), wanted);
    }
    forall k | 0 <= k < |db.outflows| && !OutflowWhere(warehouses, q)(db.outflows[k])
      ensures Filter(OutflowMoves()(db.outflows[k]), wanted) == []
    {
      FilterNone(OutflowMoves()(db.outflows[k]), wanted);
    }
  }

  lemma MoreQueriesAreComplete(db: Db, warehouses: Option<set<string>>, q: Query)
    ensures PrefilterFits(db.transfers, TransferWhere(warehouses, q), TransferMoves(), warehouses, q)
    ensures PrefilterFits(db.stockTakes, StockTakeWhere(warehouses, q), StockTakeMoves(), warehouses, q)
  {
    var wanted := Wanted(warehouses, q);
    forall k | 0 <= k < |db.transfers| && !TransferWhere(warehouses, q)(db.transfers[k])
      ensures Filter(TransferMoves()(db.transfers[k]), wanted) == []
    {
      FilterNone(TransferMoves()(db.transfers[k]), wanted);
    }
    forall k | 0 <= k < |db.stockTakes| && !StockTakeWhere(warehouses, q)(db.stockTakes[k])
      ensures Filter(StockTakeMoves()(db.stockTakes[k]), wanted) == []
    {
      FilterNone(StockTakeMoves()(db.stockTakes[k]), wanted);
    }
  }

  /**
   The report of a period is exactly the part of the full history that lies in
   it, is of the type asked for and touches a warehouse the reader may see,
   newest first: no document with a movement in the period is missed, saved
   in it or not.
   */
  lemma ReportIsCutOfHistory(db: Db, warehouses: Option<set<string>>, q: Query)
    ensures MovementsReport(db, warehouses, q) == NewestFirst(Filter(History(db), Wanted(warehouses, q)))
  {
    QueriesAreComplete(db, warehouses, q);
    MoreQueriesAreComplete(db, warehouses, q);
    SourceIsComplete(db.transactions, TransactionWhere(warehouses, q), TransactionMoves(), warehouses, q);
    SourceIsComplete(db.sales, SaleWhere(warehouses, q), SaleMoves(), warehouses, q);
    SourceIsComplete(db.purchases, PurchaseWhere(warehouses, q), PurchaseMoves(), warehouses, q);
    SourceIsComplete(db.outflows, OutflowWhere(warehouses, q), OutflowMoves(), warehouses, q);
    SourceIsComplete(db.transfers, TransferWhere(warehouses, q), TransferMoves(), warehouses, q);
    SourceIsComplete(db.stockTakes, StockTakeWhere(warehouses, q), StockTakeMoves(), warehouses, q);
    SixParts(
      FlatMap(Filter(db.transactions, TransactionWhere(warehouses, q)), TransactionMoves()),
      FlatMap(Filter(db.sales, SaleWhere(warehouses, q)), SaleMoves()),
      FlatMap(Filter(db.purchases, PurchaseWhere(warehouses, q)), PurchaseMoves()),
      FlatMap(Filter(db.outflows, OutflowWhere(warehouses, q)), OutflowMoves()),
      FlatMap(Filter(db.transfers, TransferWhere(warehouses, q)), TransferMoves()),
      FlatMap(Filter(db.stockTakes, StockTakeWhere(warehouses, q)), StockTakeMoves()),
      Cut(q));
    SixParts(
      FlatMap(db.transactions, TransactionMoves()), FlatMap(db.sales, SaleMoves()),
      FlatMap(db.purchases, PurchaseMoves()), FlatMap(db.outflows, OutflowMoves()),
      FlatMap(db.transfers, TransferMoves()), FlatMap(db.stockTakes, StockTakeMoves()),
      Wanted(warehouses, q));
  }

  lemma SixParts(
    a: seq<Movement>, b: seq<Movement>, c: seq<Movement>, d: seq<Movement>, e: seq<Movement>, f: seq<Movement>,
    p: Movement -> bool)
    ensures Filter(a + b + c + d + e + f, p)
            == Filter(a, p) + Filter(b, p) + Filter(c, p) + Filter(d, p) + Filter(e, p) + Filter(f, p)
  {
    FilterAppend(a + b + c + d + e, f, p);
    FilterAppend(a + b + c + d, e, p);
    FilterAppend(a + b + c, d, p);
    FilterAppend(a + b, c, p);
    FilterAppend(a, b, p);
  }

  // The order the queries answer in

  /** The same rows, in any order. */
  ghost predicate SameRows(db: Db, other: Db)
  {
    && multiset(db.transactions) == multiset(other.transactions)
    && multiset(db.sales) == multiset(other.sales)
    && multiset(db.purchases) == multiset(other.purchases)
    && multiset(db.outflows) == multiset(other.outflows)
    && multiset(db.transfers) == multiset(other.transfers)
    && multiset(db.stockTakes) == multiset(other.stockTakes)
  }

  lemma HistoryPermuted(db: Db, other: Db)
    requires SameRows(db, other)
    ensures multiset(History(db)) == multiset(History(other))
  {
    FlatMapPermuted(db.transactions, other.transactions, TransactionMoves());
    FlatMapPermuted(db.sales, other.sales, SaleMoves());
    FlatMapPermuted(db.purchases, other.purchases, PurchaseMoves());
    FlatMapPermuted(db.outflows, other.outflows, OutflowMoves());
    FlatMapPermuted(db.transfers, other.transfers, TransferMoves());
    FlatMapPermuted(db.stockTakes, other.stockTakes, StockTakeMoves());
  }

  /**
   None of the queries asks for an order. Whatever order their rows come in,
   the report is newest first and has the same movements on every date; only
   movements of the very same date can change places.
   */
  lemma RowOrderOnlyMovesTies(db: Db, other: Db, warehouses: Option<set<string>>, q: Query, date: int)
    requires SameRows(db, other)
    ensures var a, b := MovementsReport(db, warehouses, q), MovementsReport(other, warehouses, q);
            && IsNewestFirst(a) && IsNewestFirst(b)
            && multiset(Filter(a, OnDate(date))) == multiset(Filter(b, OnDate(date)))
  {
    var wanted := Wanted(warehouses, q);
    var here, there := Filter(History(db), wanted), Filter(History(other), wanted);
    ReportIsCutOfHistory(db, warehouses, q);
    ReportIsCutOfHistory(other, warehouses, q);
    NewestFirstSorts(here);
    NewestFirstSorts(there);
    HistoryPermuted(db, other);
    FilterPermuted(History(db), History(other), wanted);
    FilterPermuted(here, there, OnDate(date));
  }
}
