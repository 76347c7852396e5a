/** The jobs interleaved statement by statement do what the service calls do: same statuses, same refusals, same stock. */
module JobAnswers {
  import opened Seqs
  import opened Wrappers
  import opened Stock
  import opened Jobs
  import T = Tables
  import Ledger
  import Sales
  import Purchases
  import Outflows
  import Transactions
  import Discharges
  import Transfers
  import StockTakes
  import Refusals
  import Interleaving

  // Statuses

  function OfSale(s: T.SaleStatus): Status
  {
    match s
    case DRAFT => DRAFT
    case ACTIVE => ACTIVE
    case CANCELLED => CANCELLED
  }

  function OfDoc(s: T.DocStatus): Status
  {
    match s
    case ACTIVE => ACTIVE
    case CANCELLED => CANCELLED
  }

  function OfTransfer(s: T.RequestStatus): Status
  {
    match s
    case PENDING => PENDING
    case APPROVED => APPROVED
    case SENT => SENT
    case COMPLETED => COMPLETED
    case REJECTED => REJECTED
    case CANCELLED => CANCELLED
  }

  function OfDischarge(s: T.DischargeStatus): Status
  {
    match s
    case PENDING => PENDING
    case COMPLETED => COMPLETED
    case REJECTED => REJECTED
  }

  function OfStockTake(st: T.StockTake): Status
  {
    match st.status
    case IN_PROGRESS => IN_PROGRESS
    case COMPLETED => if st.applied then ADJUSTED else COMPLETED
    case CANCELLED => CANCELLED
  }

  /** A sale's actions are refused for its status exactly where the service refuses them, and lead where it leads. */
  lemma SaleJobs(db: T.Db, id: nat, allowed: bool, now: int)
    requires id < |db.sales|
    ensures var from := OfSale(db.sales[id].status);
            var confirmed, cancelled := Sales.ConfirmSale(db, id, now), Sales.CancelSale(db, id, allowed, now);
            && (confirmed == Err(T.INVALID_STATUS) <==> Transition(SALE, from, CONFIRM) == None)
            && (confirmed.Ok? ==> Transition(SALE, from, CONFIRM) == Some(OfSale(confirmed.value.sales[id].status)))
            && (cancelled == Err(T.INVALID_STATUS) <==> Transition(SALE, from, CANCEL) == None)
            && (cancelled.Ok? ==> Transition(SALE, from, CANCEL) == Some(OfSale(cancelled.value.sales[id].status)))
  {
    TakeErrors(db.items, T.Lines(db.sales[id].lines));
    GiveErrors(db.items, T.Lines(db.sales[id].lines));
  }

  lemma {:induction false} TakeErrors(items: seq<T.Item>, lines: seq<T.Line>)
    ensures TakeAll(items, lines).Err? ==> TakeAll(items, lines).error != T.INVALID_STATUS
    ensures CheckAvailable(items, lines).Err? ==> CheckAvailable(items, lines).error != T.INVALID_STATUS
  {
    if lines != [] {
      TakeErrors(items, lines[..|lines| - 1]);
    }
  }

  lemma {:induction false} GiveErrors(items: seq<T.Item>, lines: seq<T.Line>)
    ensures GiveAll(items, lines).Err? ==> GiveAll(items, lines).error != T.INVALID_STATUS
  {
    if lines != [] {
      GiveErrors(items, lines[..|lines| - 1]);
    }
  }

  lemma PurchaseJobs(db: T.Db, id: nat, now: int)
    requires id < |db.purchases|
    ensures var from, r := OfDoc(db.purchases[id].status), Purchases.CancelPurchase(db, id, now);
            && (r == Err(T.INVALID_STATUS) <==> Transition(PURCHASE, from, CANCEL) == None)
            && (r.Ok? ==> Transition(PURCHASE, from, CANCEL) == Some(OfDoc(r.value.purchases[id].status)))
  {
    TakeErrors(db.items, T.Lines(db.purchases[id].lines));
  }

  lemma OutflowJobs(db: T.Db, id: nat, now: int)
    requires id < |db.outflows|
    ensures var from, r := OfDoc(db.outflows[id].status), Outflows.CancelOutflow(db, id, now);
            && (r == Err(T.INVALID_STATUS) <==> Transition(OUTFLOW, from, CANCEL) == None)
            && (r.Ok? ==> Transition(OUTFLOW, from, CANCEL) == Some(OfDoc(r.value.outflows[id].status)))
  {
    GiveErrors(db.items, db.outflows[id].lines);
  }

  /** A transaction's row is deleted once. */
  lemma TransactionJobs(db: T.Db, id: nat)
    requires id < |db.transactions|
    ensures var from := if db.transactions[id].Some? then ACTIVE else DELETED;
            var r := Transactions.RemoveTransaction(db, id);
            && (db.transactions[id] == None <==> Transition(TRANSACTION, from, REMOVE) == None)
            && (db.transactions[id] == None ==> r == Err(T.NOT_FOUND))
            && (r.Ok? ==> Transition(TRANSACTION, from, REMOVE) == Some(DELETED) && r.value.transactions[id] == None)
  {
  }

  lemma StockTakeJobs(db: T.Db, id: nat, now: int)
    requires id < |db.stockTakes|
    ensures var from := OfStockTake(db.stockTakes[id]);
            var applied, kept, cancelled :=
              StockTakes.CompleteStockTake(db, id, true, now), StockTakes.CompleteStockTake(db, id, false, now),
              StockTakes.CancelStockTake(db, id, now);
            && (applied == Err(T.INVALID_STATUS) <==> Transition(STOCK_TAKE, from, COMPLETE) == None)
            && (applied.Ok? ==> Transition(STOCK_TAKE, from, COMPLETE) == Some(OfStockTake(applied.value.stockTakes[id])))
            && (kept == Err(T.INVALID_STATUS) <==> Transition(STOCK_TAKE, from, COMPLETE_UNCHANGED) == None)
            && (kept.Ok? ==>
                  Transition(STOCK_TAKE, from, COMPLETE_UNCHANGED) == Some(OfStockTake(kept.value.stockTakes[id])))
            && (cancelled == Err(T.INVALID_STATUS) <==> Transition(STOCK_TAKE, from, CANCEL) == None)
            && (cancelled.Ok? ==> Transition(STOCK_TAKE, from, CANCEL) == Some(OfStockTake(cancelled.value.stockTakes[id])))
  {
    ApplyErrors(db.items, db.stockTakes[id].lines);
  }

  lemma {:induction false} ApplyErrors(items: seq<T.Item>, lines: seq<T.CountLine>)
    ensures StockTakes.ApplyVariances(items, lines).Err? ==>
              StockTakes.ApplyVariances(items, lines).error != T.INVALID_STATUS
  {
    if lines != [] {
      ApplyErrors(items, lines[..|lines| - 1]);
    }
  }

  /** Completing locks; rejecting starts from PENDING, as read, and ends in REJECTED. */
  lemma DischargeJobs(db: T.Db, id: nat, now: int)
    requires id < |db.discharges|
    ensures var from := OfDischarge(db.discharges[id].status);
            var completed, rejected := Discharges.CompleteDischarge(db, id, now), Discharges.RejectDischarge(db, id);
            && (completed == Err(T.INVALID_STATUS) <==> Transition(DISCHARGE, from, COMPLETE) == None)
            && (completed.Ok? ==>
                  Transition(DISCHARGE, from, COMPLETE) == Some(OfDischarge(completed.value.discharges[id].status)))
            && (rejected.Ok? <==> UnlockedFrom(DISCHARGE) == Some(from))
            && (rejected.Ok? ==> UnlockedTo(DISCHARGE) == OfDischarge(rejected.value.discharges[id].status))
  {
    TakeErrors(db.items, db.discharges[id].lines);
  }

  lemma TransferJobs(db: T.Db, id: nat, snapshot: seq<T.Item>, hints: seq<nat>, now: int)
    requires id < |db.transfers|
    ensures var from := OfTransfer(db.transfers[id].status);
            var approved, rejected := Transfers.ApproveTransfer(db, id, now), Transfers.RejectTransfer(db, id, now);
            var cancelled, sent := Transfers.CancelTransfer(db, id, now), Transfers.SendTransfer(db, id, now);
            && (approved == Err(T.INVALID_STATUS) <==> Transition(TRANSFER, from, APPROVE) == None)
            && (approved.Ok? ==> Transition(TRANSFER, from, APPROVE) == Some(OfTransfer(approved.value.transfers[id].status)))
            && (rejected.Err? <==> Transition(TRANSFER, from, REJECT) == None)
            && (rejected.Ok? ==> Transition(TRANSFER, from, REJECT) == Some(OfTransfer(rejected.value.transfers[id].status)))
            && (cancelled.Err? <==> Transition(TRANSFER, from, CANCEL) == None)
            && (cancelled.Ok? ==> Transition(TRANSFER, from, CANCEL) == Some(OfTransfer(cancelled.value.transfers[id].status)))
            && (sent.Ok? <==> UnlockedFrom(TRANSFER) == Some(from))
            && (sent.Ok? ==> UnlockedTo(TRANSFER) == OfTransfer(sent.value.transfers[id].status))
            && (db.transfers[id].status != T.RequestStatus.SENT <==> Transition(TRANSFER, from, COMPLETE) == None)
    ensures var executed := Transfers.CompleteTransfer(db, id, snapshot, hints, now);
            executed.Ok? ==>
              Transition(TRANSFER, OfTransfer(db.transfers[id].status), COMPLETE)
              == Some(OfTransfer(executed.value.transfers[id].status))
  {
  }

  // Stock

  function Quantities(items: seq<T.Item>): seq<int>
  {
    seq(|items|, i requires 0 <= i < |items| => items[i].quantity)
  }

  /** Lines as moves: out of the stock, or into it. */
  function Outgoing(lines: seq<T.Line>): seq<Move>
  {
    seq(|lines|, k requires 0 <= k < |lines| => Move(lines[k].item, 0 - lines[k].qty))
  }

  function Incoming(lines: seq<T.Line>): seq<Move>
  {
    seq(|lines|, k requires 0 <= k < |lines| => Move(lines[k].item, lines[k].qty))
  }

  lemma {:induction false} DeltasAreUnits(lines: seq<T.Line>, item: nat)
    ensures Delta(Outgoing(lines), item) == -T.UnitsOf(lines, item)
    ensures Delta(Incoming(lines), item) == T.UnitsOf(lines, item)
  {
    if lines != [] {
      var n := |lines| - 1;
      DeltasAreUnits(lines[..n], item);
      assert Outgoing(lines)[..n] == Outgoing(lines[..n]) && Incoming(lines)[..n] == Incoming(lines[..n]);
    }
  }

  /** Every update of the job finds what it needs, and together they leave these quantities. */
  ghost predicate Runs(qty: seq<int>, moves: seq<Move>, after: seq<int>)
  {
    (forall k: nat :: k < |moves| ==> Allowed(qty, moves, k)) && Updated(qty, moves) == after
  }

  lemma TakenRuns(items: seq<T.Item>, lines: seq<T.Line>)
    requires TakeAll(items, lines).Ok?
    ensures Runs(Quantities(items), Outgoing(lines), Quantities(TakeAll(items, lines).value))
  {
    TakeAllIff(items, lines);
    forall k: nat | k < |lines| ensures Allowed(Quantities(items), Outgoing(lines), k) {
      var x := lines[k].item;
      DeltasAreUnits(lines[..k + 1], x);
      assert Outgoing(lines)[..k + 1] == Outgoing(lines[..k + 1]);
      UnitsGrow(lines, k + 1, x);
      SumAtLeastTerm(lines, k, T.QtyAt(x));
    }
    forall i: nat | i < |items| ensures Updated(Quantities(items), Outgoing(lines))[i] == TakeAll(items, lines).value[i].quantity {
      DeltasAreUnits(lines, i);
    }
  }

  lemma {:induction false} UnitsGrow(lines: seq<T.Line>, k: nat, x: nat)
    requires k <= |lines|
    ensures T.UnitsOf(lines[..k], x) <= T.UnitsOf(lines, x)
  {
    if k < |lines| {
      UnitsGrow(lines[..|lines| - 1], k, x);
      assert lines[..|lines| - 1][..k] == lines[..k];
    } else {
      assert lines[..k] == lines;
    }
  }

  lemma GivenRuns(items: seq<T.Item>, lines: seq<T.Line>)
    requires GiveAll(items, lines).Ok?
    ensures Runs(Quantities(items), Incoming(lines), Quantities(GiveAll(items, lines).value))
  {
    GiveAllIff(items, lines);
    forall i: nat | i < |items| ensures Updated(Quantities(items), Incoming(lines))[i] == GiveAll(items, lines).value[i].quantity {
      DeltasAreUnits(lines, i);
    }
  }

  lemma Negated(lines: seq<T.Line>)
    ensures Signed(Outgoing(lines), -1) == Incoming(lines) && Signed(Incoming(lines), -1) == Outgoing(lines)
    ensures Signed(Outgoing(lines), 1) == Outgoing(lines) && Signed(Incoming(lines), 1) == Incoming(lines)
  {
  }

  /** Where the sale service confirms or cancels, the job's updates all run and leave the same stock. */
  lemma ConfirmJobMovesAlike(db: T.Db, id: nat, now: int)
    requires id < |db.sales|
    ensures var lines, r := T.Lines(db.sales[id].lines), Sales.ConfirmSale(db, id, now);
            r.Ok? ==>
              Runs(Quantities(db.items), Signed(Outgoing(lines), Sign(SALE, DRAFT, ACTIVE)), Quantities(r.value.items))
  {
    var lines := T.Lines(db.sales[id].lines);
    Negated(lines);
    if TakeAll(db.items, lines).Ok? {
      TakenRuns(db.items, lines);
    }
  }

  lemma CancelJobMovesAlike(db: T.Db, id: nat, allowed: bool, now: int)
    requires id < |db.sales|
    ensures var from, lines := OfSale(db.sales[id].status), T.Lines(db.sales[id].lines);
            var r := Sales.CancelSale(db, id, allowed, now);
            r.Ok? ==>
              Runs(Quantities(db.items), Signed(Outgoing(lines), Sign(SALE, from, CANCELLED)), Quantities(r.value.items))
  {
    var lines := T.Lines(db.sales[id].lines);
    Negated(lines);
    if GiveAll(db.items, lines).Ok? {
      GivenRuns(db.items, lines);
    }
    assert Updated(Quantities(db.items), []) == Quantities(db.items);
  }

  /** The same for cancelled purchases and outflows and completed discharges. */
  lemma OtherJobsMoveAlike(db: T.Db, id: nat, now: int)
    ensures id < |db.purchases| && Purchases.CancelPurchase(db, id, now).Ok? ==>
              Runs(Quantities(db.items),
                   Signed(Incoming(T.Lines(db.purchases[id].lines)), Sign(PURCHASE, ACTIVE, CANCELLED)),
                   Quantities(Purchases.CancelPurchase(db, id, now).value.items))
    ensures id < |db.outflows| && Outflows.CancelOutflow(db, id, now).Ok? ==>
              Runs(Quantities(db.items),
                   Signed(Outgoing(db.outflows[id].lines), Sign(OUTFLOW, ACTIVE, CANCELLED)),
                   Quantities(Outflows.CancelOutflow(db, id, now).value.items))
    ensures id < |db.discharges| && Discharges.CompleteDischarge(db, id, now).Ok? ==>
              Runs(Quantities(db.items),
                   Signed(Outgoing(db.discharges[id].lines), Sign(DISCHARGE, PENDING, COMPLETED)),
                   Quantities(Discharges.CompleteDischarge(db, id, now).value.items))
  {
    if id < |db.purchases| && Purchases.CancelPurchase(db, id, now).Ok? {
      Negated(T.Lines(db.purchases[id].lines));
      TakenRuns(db.items, T.Lines(db.purchases[id].lines));
    }
    if id < |db.outflows| && Outflows.CancelOutflow(db, id, now).Ok? {
      Negated(db.outflows[id].lines);
      GivenRuns(db.items, db.outflows[id].lines);
    }
    if id < |db.discharges| && Discharges.CompleteDischarge(db, id, now).Ok? {
      Negated(db.discharges[id].lines);
      TakenRuns(db.items, db.discharges[id].lines);
    }
  }

  /** And for manual transactions, saved and deleted. */
  lemma TransactionJobsMoveAlike(db: T.Db, t: T.Transaction, id: nat)
    requires !t.kind.TRANSFER?
    ensures var lines := if t.kind.IN? then Incoming(t.lines) else Outgoing(t.lines);
            var saved, removed := Transactions.CreateTransaction(db, t), Transactions.RemoveTransaction(db, id);
            && (saved.Ok? ==>
                  Runs(Quantities(db.items), Signed(lines, Weight(TRANSACTION, ACTIVE)), Quantities(saved.value.items)))
            && (id < |db.transactions| && db.transactions[id] == Some(t) && removed.Ok? ==>
                  Runs(Quantities(db.items), Signed(lines, Sign(TRANSACTION, ACTIVE, DELETED)), Quantities(removed.value.items)))
  {
    Negated(t.lines);
    if TakeAll(db.items, t.lines).Ok? {
      TakenRuns(db.items, t.lines);
    }
    if GiveAll(db.items, t.lines).Ok? {
      GivenRuns(db.items, t.lines);
    }
  }

  // What creating a document moves

  lemma MovesWeight(lines: seq<Move>)
    ensures Signed(lines, 1) == lines && Signed(lines, 0) == []
  {
  }

  /** A sale, a quotation, an outflow and a purchase start in a status their kind may start in, and move what it weighs. */
  lemma CreationJobsMoveAlike(db: T.Db, dto: Sales.SaleDto, asDraft: bool, warehouse: string, lines: seq<T.Line>, now: int)
    ensures var r := Sales.CreateSale(db, dto, asDraft, now);
            r.Ok? ==>
              var status := OfSale(r.value.sales[|db.sales|].status);
              && CanStartAs(SALE, status)
              && Runs(Quantities(db.items), Signed(Outgoing(Sales.Requested(dto.lines)), Weight(SALE, status)),
                      Quantities(r.value.items))
    ensures var r := Outflows.CreateOutflow(db, warehouse, lines, now);
            r.Ok? ==>
              var status := OfDoc(r.value.outflows[|db.outflows|].status);
              && CanStartAs(OUTFLOW, status)
              && Runs(Quantities(db.items), Signed(Outgoing(lines), Weight(OUTFLOW, status)), Quantities(r.value.items))
  {
    MovesWeight(Outgoing(lines));
    MovesWeight(Outgoing(Sales.Requested(dto.lines)));
    if TakeAll(db.items, lines).Ok? {
      TakenRuns(db.items, lines);
    }
    if TakeAll(db.items, Sales.Requested(dto.lines)).Ok? {
      TakenRuns(db.items, Sales.Requested(dto.lines));
    }
    assert Updated(Quantities(db.items), []) == Quantities(db.items);
  }

  lemma PurchaseJobsMoveAlike(db: T.Db, dto: Purchases.PurchaseDto, now: int)
    ensures var r, lines := Purchases.CreatePurchase(db, dto, now), Sales.Requested(dto.bulk);
            r.Ok? ==>
              var status := OfDoc(r.value.purchases[|db.purchases|].status);
              && CanStartAs(PURCHASE, status)
              && |db.items| <= |r.value.items|
              && Runs(Quantities(db.items), Signed(Incoming(lines), Weight(PURCHASE, status)),
                      Quantities(r.value.items)[..|db.items|])
  {
    var lines := Sales.Requested(dto.bulk);
    MovesWeight(Incoming(lines));
    if Purchases.CreatePurchase(db, dto, now).Ok? {
      GivenRuns(db.items, lines);
      GiveAllIff(db.items, lines);
      var after := Purchases.CreatePurchase(db, dto, now).value.items;
      assert after[..|db.items|] == GiveAll(db.items, lines).value;
      assert Quantities(after)[..|db.items|] == Quantities(after[..|db.items|]);
    }
  }

  /** Stock takes, discharges and transfers start without moving anything. */
  lemma RequestJobs(
    db: T.Db, warehouse: string, destination: string, lines: seq<T.Line>, now: int)
    ensures var r := StockTakes.CreateStockTake(db, warehouse, now);
            r.Ok? ==>
              var status := OfStockTake(r.value.stockTakes[|db.stockTakes|]);
              CanStartAs(STOCK_TAKE, status) && Weight(STOCK_TAKE, status) == 0 && r.value.items == db.items
    ensures var r := Discharges.CreateDischarge(db, warehouse, lines);
            r.Ok? ==>
              var status := OfDischarge(r.value.discharges[|db.discharges|].status);
              CanStartAs(DISCHARGE, status) && Weight(DISCHARGE, status) == 0 && r.value.items == db.items
    ensures var r := Transfers.CreateTransfer(db, warehouse, destination, lines, now);
            r.Ok? ==>
              var status := OfTransfer(r.value.transfers[|db.transfers|].status);
              CanStartAs(TRANSFER, status) && Weight(TRANSFER, status) == 0 && r.value.items == db.items
  {
  }

  /** The moves of a counted line: its variance. */
  function Variances(lines: seq<T.CountLine>): seq<Move>
  {
    seq(|lines|, k requires 0 <= k < |lines| => Move(lines[k].item, lines[k].variance.GetOr(0)))
  }

  lemma AppliedQuantity(items: seq<T.Item>, line: T.CountLine)
    requires StockTakes.ApplyOne(items, line).Ok? && line.item < |items|
    ensures var after := StockTakes.ApplyOne(items, line).value;
            && Quantities(after)
               == Quantities(items)[line.item := items[line.item].quantity + line.variance.GetOr(0)]
            && (line.variance.GetOr(0) < 0 ==> after[line.item].quantity >= 0)
  {
  }

  /** One more move at the end. */
  lemma RunsOneMore(qty: seq<int>, moves: seq<Move>, before: seq<int>, m: Move)
    requires Runs(qty, moves, before) && m.item < |qty| && (m.delta < 0 ==> before[m.item] + m.delta >= 0)
    ensures Runs(qty, moves + [m], before[m.item := before[m.item] + m.delta])
  {
    var all := moves + [m];
    forall i: nat | i < |qty| ensures Updated(qty, all)[i] == before[m.item := before[m.item] + m.delta][i] {
      assert Updated(qty, moves)[i] == before[i];
      SumSnoc(moves, m, DeltaAt(i));
    }
    forall k: nat | k < |all| ensures Allowed(qty, all, k) {
      if k < |moves| {
        assert Allowed(qty, moves, k) && all[..k + 1] == moves[..k + 1];
      } else {
        assert all[..k + 1] == all && Updated(qty, moves)[m.item] == before[m.item];
        SumSnoc(moves, m, DeltaAt(m.item));
      }
    }
  }

  lemma {:induction false} VariancesRun(items: seq<T.Item>, lines: seq<T.CountLine>)
    requires StockTakes.ApplyVariances(items, lines).Ok? && forall k :: 0 <= k < |lines| ==> lines[k].item < |items|
    ensures |StockTakes.ApplyVariances(items, lines).value| == |items|
    ensures Runs(Quantities(items), Variances(lines), Quantities(StockTakes.ApplyVariances(items, lines).value))
  {
    if lines == [] {
      assert Updated(Quantities(items), []) == Quantities(items);
    } else {
      var n := |lines| - 1;
      var before := StockTakes.ApplyVariances(items, lines[..n]).value;
      VariancesRun(items, lines[..n]);
      AppliedQuantity(before, lines[n]);
      assert Variances(lines) == Variances(lines[..n]) + [Move(lines[n].item, lines[n].variance.GetOr(0))];
      RunsOneMore(
        Quantities(items), Variances(lines[..n]), Quantities(before), Move(lines[n].item, lines[n].variance.GetOr(0)));
    }
  }

  /** A stock take completed with its changes: every update runs, and they leave what the service call leaves. */
  lemma StockTakeJobsMoveAlike(db: T.Db, id: nat, now: int)
    requires Ledger.Coherent(db) && id < |db.stockTakes|
    ensures var r := StockTakes.CompleteStockTake(db, id, true, now);
            r.Ok? ==>
              Runs(Quantities(db.items), Signed(Variances(db.stockTakes[id].lines), Sign(STOCK_TAKE, IN_PROGRESS, ADJUSTED)),
                   Quantities(r.value.items))
    ensures Sign(STOCK_TAKE, IN_PROGRESS, COMPLETED) == 0
  {
    MovesWeight(Variances(db.stockTakes[id].lines));
    if StockTakes.CompleteStockTake(db, id, true, now).Ok? {
      assert Ledger.StockTakeOk(db.stockTakes[id], |db.items|);
      VariancesRun(db.items, db.stockTakes[id].lines);
    }
  }

  /** Moves that run one after the other run as one sequence, where the second ones only add. */
  lemma RunsThen(qty: seq<int>, a: seq<Move>, mid: seq<int>, b: seq<Move>, after: seq<int>)
    requires Runs(qty, a, mid) && Runs(mid, b, after)
    requires forall k :: 0 <= k < |b| ==> b[k].delta >= 0
    ensures Runs(qty, a + b, after)
  {
    forall i: nat | i < |qty| ensures Updated(qty, a + b)[i] == after[i] {
      SumAppend(a, b, DeltaAt(i));
    }
    forall k: nat | k < |a + b| ensures Allowed(qty, a + b, k) {
      if k < |a| {
        assert Allowed(qty, a, k) && (a + b)[..k + 1] == a[..k + 1];
      } else {
        assert Allowed(mid, b, k - |a|);
      }
    }
  }

  /** An executed transfer that creates no row runs as the job with a line on either side. */
  lemma TransferJobsMoveAlike(db: T.Db, id: nat, snapshot: seq<T.Item>, hints: seq<nat>, now: int)
    requires Transfers.CompleteTransfer(db, id, snapshot, hints, now).Ok?
    requires |Transfers.CompleteTransfer(db, id, snapshot, hints, now).value.items| == |db.items|
    ensures var after := Transfers.CompleteTransfer(db, id, snapshot, hints, now).value;
            && Runs(
                 Quantities(db.items),
                 Signed(
                   Outgoing(db.transfers[id].lines) + Incoming(after.transfers[id].landed), Sign(TRANSFER, SENT, COMPLETED)),
                 Quantities(after.items))
  {
    var request := db.transfers[id];
    var after := Transfers.CompleteTransfer(db, id, snapshot, hints, now).value;
    var taken, landed := TakeAll(db.items, request.lines).value, after.transfers[id].landed;
    TakenRuns(db.items, request.lines);
    TakeAllIff(db.items, request.lines);
    Ledger.LandAllClosedForm(taken, request.destination, request.lines, snapshot, hints);
    forall i: nat | i < |taken| ensures Updated(Quantities(taken), Incoming(landed))[i] == after.items[i].quantity {
      DeltasAreUnits(landed, i);
    }
    RunsThen(
      Quantities(db.items), Outgoing(request.lines), Quantities(taken), Incoming(landed), Quantities(after.items));
    MovesWeight(Outgoing(request.lines) + Incoming(landed));
  }

  // Edits and looks

  /** Lines are edited in exactly the statuses in which the services edit them. */
  lemma EditJobs(db: T.Db, id: nat, edit: Sales.SaleEdit, item: nat, counted: nat, lines: seq<Move>)
    ensures id < |db.sales| ==>
              (Sales.UpdateSale(db, id, edit) == Err(T.INVALID_STATUS)
               <==> !Editable(Doc(SALE, OfSale(db.sales[id].status), lines, None, 0, 0)))
    ensures id < |db.stockTakes| ==>
              (StockTakes.CountItem(db, id, item, counted) == Err(T.INVALID_STATUS)
               <==> !Editable(Doc(STOCK_TAKE, OfStockTake(db.stockTakes[id]), lines, None, 0, 0)))
  {
  }

  /** Among live rows, the look before the updates finds short exactly what the services' look does. */
  lemma LookAlike(items: seq<T.Item>, lines: seq<T.Line>)
    requires forall k :: 0 <= k < |lines| ==> lines[k].item < |items| && !items[lines[k].item].deleted
    ensures CheckAvailable(items, lines).Err? <==> Interleaving.LooksShort(Quantities(items), Outgoing(lines))
  {
    Refusals.LookRefuses(items, lines);
    var moves := Outgoing(lines);
    if k :| 0 <= k < |lines| && !Refusals.Holds(items, lines[k]) {
      assert moves[k].delta < 0 && Quantities(items)[moves[k].item] + moves[k].delta < 0;
    }
    if Interleaving.LooksShort(Quantities(items), moves) {
      var k :| 0 <= k < |moves| && moves[k].delta < 0 && Quantities(items)[moves[k].item] + moves[k].delta < 0;
      assert !Refusals.Holds(items, lines[k]);
    }
  }
}
