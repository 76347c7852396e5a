/** What the movements report holds, document by document and column by column. */
module ReportAnswers {
  import opened Seqs
  import opened Wrappers
  import opened Tables
  import opened Report

  // How often a movement occurs

  lemma {:induction false} FilterCounts<T(!new)>(s: seq<T>, p: T -> bool, x: T)
    ensures multiset(Filter(s, p))[x] == if p(x) then multiset(s)[x] else 0
  {
    if s != [] {
      var n := |s| - 1;
      FilterCounts(s[..n], p, x);
      FilterTail(s, p);
      assert s == s[..n] + [s[n]];
    }
  }

  lemma LastCounts<T>(s: seq<T>)
    requires s != []
    ensures multiset(s) == multiset(s[..|s| - 1]) + multiset{s[|s| - 1]}
  {
    assert s == s[..|s| - 1] + [s[|s| - 1]];
  }

  lemma {:induction false} InsertAdds(sorted: seq<Movement>, m: Movement)
    ensures multiset(Insert(sorted, m)) == multiset(sorted) + multiset{m}
  {
    if !(sorted == [] || sorted[|sorted| - 1].date >= m.date) {
      InsertAdds(sorted[..|sorted| - 1], m);
      LastCounts(sorted);
    }
  }

  lemma {:induction false} NewestFirstKeeps(s: seq<Movement>)
    ensures multiset(NewestFirst(s)) == multiset(s)
  {
    if s != [] {
      NewestFirstKeeps(s[..|s| - 1]);
      InsertAdds(NewestFirst(s[..|s| - 1]), s[|s| - 1]);
      LastCounts(s);
    }
  }

  lemma InSeqCounts<T>(s: seq<T>, x: T)
    ensures x in s <==> multiset(s)[x] > 0
  {
  }

  lemma ReportCounts(db: Db, warehouses: Option<set<string>>, q: Query, m: Movement)
    ensures multiset(MovementsReport(db, warehouses, q))[m]
            == if Wanted(warehouses, q)(m) then multiset(History(db))[m] else 0
  {
    ReportIsCutOfHistory(db, warehouses, q);
    NewestFirstKeeps(Filter(History(db), Wanted(warehouses, q)));
    FilterCounts(History(db), Wanted(warehouses, q), m);
  }

  /** Dated in the period, of the type asked for if one is, and touching a warehouse the reader may see. */
  predicate Listed(warehouses: Option<set<string>>, q: Query, m: Movement)
  {
    && q.from <= m.date <= q.to
    && (q.kind == None || q.kind == Some(m.kind))
    && (|| warehouses == None
        || (m.source != None && m.source.value in warehouses.value)
        || (m.destination != None && m.destination.value in warehouses.value))
  }

  lemma WantedIsListed(warehouses: Option<set<string>>, q: Query, m: Movement)
    ensures Wanted(warehouses, q)(m) <==> Listed(warehouses, q, m)
  {
  }

  /** The listed movements of the history are in the report, each as often as there, and nothing else is. */
  lemma ReportHolds(db: Db, warehouses: Option<set<string>>, q: Query, m: Movement)
    ensures m in MovementsReport(db, warehouses, q) <==> m in History(db) && Listed(warehouses, q, m)
    ensures multiset(MovementsReport(db, warehouses, q))[m]
            == if Listed(warehouses, q, m) then multiset(History(db))[m] else 0
  {
    ReportCounts(db, warehouses, q, m);
    WantedIsListed(warehouses, q, m);
    InSeqCounts(MovementsReport(db, warehouses, q), m);
    InSeqCounts(History(db), m);
  }

  // What is in the history

  lemma {:induction false} InFlatMap<T, U>(s: seq<T>, f: T -> seq<U>, y: U)
    ensures y in FlatMap(s, f) <==> exists k :: 0 <= k < |s| && y in f(s[k])
  {
    if s != [] {
      var n := |s| - 1;
      InFlatMap(s[..n], f, y);
      if k :| 0 <= k < n && y in f(s[..n][k]) {
        assert s[..n][k] == s[k];
      }
      if k :| 0 <= k < |s| && y in f(s[k]) {
        assert k < n ==> s[..n][k] == s[k];
      }
    }
  }

  /** A manual transaction moves stock on its date, of its type, between its warehouses. */
  predicate MovedBy(t: Option<Transaction>, m: Movement)
  {
    && t.Some?
    && m == Movement(
         TRANSACTION, t.value.kind, t.value.date, false, t.value.source, t.value.destination, t.value.lines)
  }

  /** Out of the warehouse on the day, or into it. */
  predicate OutOf(m: Movement, origin: Origin, warehouse: string, date: int, cancellation: bool, lines: seq<Line>)
  {
    m == Movement(origin, MoveType.OUT, date, cancellation, Some(warehouse), None, lines)
  }

  predicate Into(m: Movement, origin: Origin, warehouse: string, date: int, cancellation: bool, lines: seq<Line>)
  {
    m == Movement(origin, MoveType.IN, date, cancellation, None, Some(warehouse), lines)
  }

  /**
   A sale goes out when confirmed, or created if it never was a quotation, and
   comes back when cancelled. Quotations, cancelled ones too, do neither.
   */
  predicate SoldBy(s: Sale, m: Movement)
  {
    && (s.status == SaleStatus.ACTIVE || s.status == SaleStatus.CANCELLED)
    && (s.confirmedAt != None || !s.quoted)
    && (|| OutOf(m, SALE, s.warehouse, if s.confirmedAt != None then s.confirmedAt.value else s.createdAt, false, Lines(s.lines))
        || (s.cancelledAt != None && Into(m, SALE, s.warehouse, s.cancelledAt.value, true, Lines(s.lines))))
  }

  predicate BoughtBy(p: Purchase, m: Movement)
  {
    || Into(m, PURCHASE, p.warehouse, p.createdAt, false, Lines(p.lines))
    || (p.cancelledAt != None && OutOf(m, PURCHASE, p.warehouse, p.cancelledAt.value, true, Lines(p.lines)))
  }

  predicate IssuedBy(o: Outflow, m: Movement)
  {
    || OutOf(m, OUTFLOW, o.warehouse, o.createdAt, false, o.lines)
    || (o.cancelledAt != None && Into(m, OUTFLOW, o.warehouse, o.cancelledAt.value, true, o.lines))
  }

  predicate TransferredBy(t: Transfer, m: Movement)
  {
    && t.status == RequestStatus.COMPLETED
    && m == Movement(
         TRANSFER_REQUEST, MoveType.TRANSFER, if t.receivedAt != None then t.receivedAt.value else t.updatedAt, false,
         Some(t.source), Some(t.destination), t.lines)
  }

  /** How much was counted above what was expected of each counted line, where it was. */
  function Gains(lines: seq<CountLine>): seq<Line>
  {
    if lines == [] then []
    else
      var l := lines[|lines| - 1];
      Gains(lines[..|lines| - 1])
        + (if l.counted != None && l.counted.value > l.expected then [Line(l.item, l.counted.value - l.expected)] else [])
  }

  function Losses(lines: seq<CountLine>): seq<Line>
  {
    if lines == [] then []
    else
      var l := lines[|lines| - 1];
      Losses(lines[..|lines| - 1])
        + (if l.counted != None && l.counted.value < l.expected then [Line(l.item, l.expected - l.counted.value)] else [])
  }

  /** A stock take completed with its changes brings in what it gained and takes out what it lost. */
  predicate AdjustedBy(st: StockTake, m: Movement)
  {
    var date := if st.completedAt != None then st.completedAt.value else st.updatedAt;
    && st.status == StockTakeStatus.COMPLETED && st.applied
    && (|| (Gains(st.lines) != [] && Into(m, STOCK_TAKE, st.warehouse, date, false, Gains(st.lines)))
        || (Losses(st.lines) != [] && OutOf(m, STOCK_TAKE, st.warehouse, date, false, Losses(st.lines))))
  }

  lemma {:induction false} PickedAre(lines: seq<CountLine>)
    ensures Picked(lines, MoveType.IN) == Gains(lines) && Picked(lines, MoveType.OUT) == Losses(lines)
  {
    if lines != [] {
      PickedAre(lines[..|lines| - 1]);
    }
  }

  lemma StockTakeMovesAre(st: StockTake, m: Movement)
    ensures m in StockTakeMoves()(st) <==> AdjustedBy(st, m)
  {
    PickedAre(st.lines);
  }

  /** Where each row's images are what `made` says, so are the images of all rows. */
  lemma SourceHolds<T>(s: seq<T>, f: T -> seq<Movement>, made: (T, Movement) -> bool, m: Movement)
    requires forall k :: 0 <= k < |s| ==> (m in f(s[k]) <==> made(s[k], m))
    ensures m in FlatMap(s, f) <==> exists k :: 0 <= k < |s| && made(s[k], m)
  {
    InFlatMap(s, f, m);
  }

  lemma TradeHolds(db: Db, m: Movement)
    ensures m in FlatMap(db.sales, SaleMoves()) <==> exists k :: 0 <= k < |db.sales| && SoldBy(db.sales[k], m)
    ensures m in FlatMap(db.purchases, PurchaseMoves())
            <==> exists k :: 0 <= k < |db.purchases| && BoughtBy(db.purchases[k], m)
    ensures m in FlatMap(db.outflows, OutflowMoves()) <==> exists k :: 0 <= k < |db.outflows| && IssuedBy(db.outflows[k], m)
  {
    SourceHolds(db.sales, SaleMoves(), SoldBy, m);
    SourceHolds(db.purchases, PurchaseMoves(), BoughtBy, m);
    SourceHolds(db.outflows, OutflowMoves(), IssuedBy, m);
  }

  lemma MovesHold(db: Db, m: Movement)
    ensures m in FlatMap(db.transactions, TransactionMoves())
            <==> exists k :: 0 <= k < |db.transactions| && MovedBy(db.transactions[k], m)
    ensures m in FlatMap(db.transfers, TransferMoves())
            <==> exists k :: 0 <= k < |db.transfers| && TransferredBy(db.transfers[k], m)
    ensures m in FlatMap(db.stockTakes, StockTakeMoves())
            <==> exists k :: 0 <= k < |db.stockTakes| && AdjustedBy(db.stockTakes[k], m)
  {
    SourceHolds(db.transactions, TransactionMoves(), MovedBy, m);
    SourceHolds(db.transfers, TransferMoves(), TransferredBy, m);
    forall k | 0 <= k < |db.stockTakes|
      ensures m in StockTakeMoves()(db.stockTakes[k]) <==> AdjustedBy(db.stockTakes[k], m)
    {
      StockTakeMovesAre(db.stockTakes[k], m);
    }
    SourceHolds(db.stockTakes, StockTakeMoves(), AdjustedBy, m);
  }

  /** Each movement of the history is one that some document made, and every movement a document made is there. */
  lemma HistoryHolds(db: Db, m: Movement)
    ensures m in History(db) <==>
              || (exists k :: 0 <= k < |db.transactions| && MovedBy(db.transactions[k], m))
              || (exists k :: 0 <= k < |db.sales| && SoldBy(db.sales[k], m))
              || (exists k :: 0 <= k < |db.purchases| && BoughtBy(db.purchases[k], m))
              || (exists k :: 0 <= k < |db.outflows| && IssuedBy(db.outflows[k], m))
              || (exists k :: 0 <= k < |db.transfers| && TransferredBy(db.transfers[k], m))
              || (exists k :: 0 <= k < |db.stockTakes| && AdjustedBy(db.stockTakes[k], m))
  {
    TradeHolds(db, m);
    MovesHold(db, m);
  }
}
