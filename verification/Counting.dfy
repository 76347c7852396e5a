/** Stock takes over whole runs. */
module Counting {
  import opened Seqs
  import opened Wrappers
  import opened Tables
  import opened Stock
  import opened StockTakes
  import opened Ledger
  import opened Rows
  import opened System
  import opened Runs
  import opened Report
  import opened Reconciliation

  predicate IsCountOp(op: Op)
  {
    op.CreateStockTake? || op.CountItem? || op.CompleteStockTake? || op.CancelStockTake?
  }

  lemma OtherOpsKeepStockTakes(db: Db, op: Op)
    requires !IsCountOp(op)
    ensures Next(db, op).stockTakes == db.stockTakes
  {
  }

  /** No two counts are in progress in the same warehouse. */
  ghost predicate OneOpenPerWarehouse(db: Db)
  {
    forall j, k :: 0 <= j < k < |db.stockTakes|
                   && db.stockTakes[j].status.IN_PROGRESS? && db.stockTakes[k].status.IN_PROGRESS? ==>
                   db.stockTakes[j].warehouse != db.stockTakes[k].warehouse
  }

  lemma StepOneOpen(db: Db, op: Op)
    requires OneOpenPerWarehouse(db)
    ensures OneOpenPerWarehouse(Next(db, op))
  {
    if IsCountOp(op) {
      if op.CreateStockTake? && Step(db, op).Ok? {
        forall j | 0 <= j < |db.stockTakes| && db.stockTakes[j].status.IN_PROGRESS?
          ensures db.stockTakes[j].warehouse != op.warehouse
        {
          assert !IsOpenIn(db.stockTakes[j], op.warehouse);
        }
      }
    } else {
      OtherOpsKeepStockTakes(db, op);
    }
  }

  /** In every run, at most one stock take per warehouse is in progress. */
  lemma {:induction false} RunOneOpen(db: Db, ops: seq<Op>)
    requires OneOpenPerWarehouse(db)
    ensures OneOpenPerWarehouse(Run(db, ops))
  {
    if ops != [] {
      RunOneOpen(db, ops[..|ops| - 1]);
      StepOneOpen(Run(db, ops[..|ops| - 1]), ops[|ops| - 1]);
    }
  }

  /** The op is a count of this very item in this very stock take. */
  predicate Recounts(op: Op, id: nat, item: nat)
  {
    op.CountItem? && op.id == id && op.item == item
  }

  /** Line k of stock take id is still the given one. */
  predicate StillHas(db: Db, id: nat, k: nat, line: CountLine)
  {
    id < |db.stockTakes| && k < |db.stockTakes[id].lines| && db.stockTakes[id].lines[k] == line
  }

  lemma StepKeepsLine(db: Db, op: Op, id: nat, k: nat, line: CountLine)
    requires StillHas(db, id, k, line) && !Recounts(op, id, line.item)
    ensures StillHas(Next(db, op), id, k, line)
  {
    if !IsCountOp(op) {
      OtherOpsKeepStockTakes(db, op);
    }
  }

  lemma {:induction false} RunKeepsLine(db: Db, ops: seq<Op>, id: nat, k: nat, line: CountLine)
    requires StillHas(db, id, k, line) && forall j :: 0 <= j < |ops| ==> !Recounts(ops[j], id, line.item)
    ensures StillHas(Run(db, ops), id, k, line)
  {
    if ops != [] {
      RunKeepsLine(db, ops[..|ops| - 1], id, k, line);
      StepKeepsLine(Run(db, ops[..|ops| - 1]), ops[|ops| - 1], id, k, line);
    }
  }

  /** Each item is counted on one line, so the variance applied to it is that line's. */
  lemma {:induction false} VarianceOfOneLine(lines: seq<CountLine>, k: nat)
    requires k < |lines|
    requires forall i, j :: 0 <= i < j < |lines| ==> lines[i].item != lines[j].item
    ensures SumOver(lines, VarianceAt(lines[k].item)) == lines[k].variance.GetOr(0)
  {
    var n := |lines| - 1;
    if k == n {
      SumZero(lines[..n], VarianceAt(lines[k].item));
    } else {
      VarianceOfOneLine(lines[..n], k);
    }
  }

  /**
   Counting an item, letting any calls happen other than another count of it,
   and completing the stock take with its changes leaves the item at its
   counted quantity plus the net of every movement since it was counted.
   */
  lemma CompletionIsCountPlusNet(db: Db, id: nat, item: nat, counted: nat, ops: seq<Op>, now: int)
    requires Sound(db) && StockTakes.CountItem(db, id, item, counted).Ok?
    requires forall j :: 0 <= j < |ops| ==> !Recounts(ops[j], id, item)
    requires var before := Run(StockTakes.CountItem(db, id, item, counted).value, ops);
             StockTakes.CompleteStockTake(before, id, true, now).Ok?
    ensures var atCount := StockTakes.CountItem(db, id, item, counted).value;
            var before := Run(atCount, ops);
            var after := StockTakes.CompleteStockTake(before, id, true, now).value;
            && item < |atCount.items| && item < |before.items| && item < |after.items|
            && after.items[item].quantity == counted + before.items[item].quantity - atCount.items[item].quantity
            && after.items[item].quantity
               == counted
                  + (before.items[item].entered - atCount.items[item].entered)
                  + (SumOver(History(before), NetAt(item)) - SumOver(History(atCount), NetAt(item)))
                  - (SumOver(History(before), SentAt(item)) - SumOver(History(atCount), SentAt(item)))
                  + (SumOver(before.transfers, LandedEffect(item)) - SumOver(atCount.transfers, LandedEffect(item)))
  {
    var atCount := StockTakes.CountItem(db, id, item, counted).value;
    var k := FindLine(db.stockTakes[id].lines, item).value;
    var line := atCount.stockTakes[id].lines[k];
    assert StockTakeOk(db.stockTakes[id], |db.items|);
    assert CountLineOk(db.stockTakes[id].lines[k], |db.items|);
    CountItemSound(db, id, item, counted);
    RunKeepsLine(atCount, ops, id, k, line);
    RunNeverDropsRows(atCount, ops);
    RunSound(atCount, ops);
    var before := Run(atCount, ops);
    var st := before.stockTakes[id];
    assert StockTakeOk(st, |before.items|);
    ApplyVariancesClosedForm(before.items, st.lines);
    VarianceOfOneLine(st.lines, k);
    HistoryReconcilesPerItem(atCount, item);
    HistoryReconcilesPerItem(before, item);
  }
}
