/** What executing a transfer conserves, and when it cannot be executed. */
module TransferFacts {
  import opened Seqs
  import opened Wrappers
  import opened Tables
  import opened Stock
  import opened Transfers
  import opened System
  import opened Rows
  import opened Reconciliation
  import Purchases
  import Sales

  // Conservation

  lemma {:induction false} TakeAllTotal(items: seq<Item>, lines: seq<Line>)
    requires TakeAll(items, lines).Ok?
    ensures SumOver(TakeAll(items, lines).value, QuantityOf()) == SumOver(items, QuantityOf()) - TotalUnits(lines)
  {
    if lines != [] {
      var n := |lines| - 1;
      var before := TakeAll(items, lines[..n]).value;
      TakeAllTotal(items, lines[..n]);
      var row := before[lines[n].item];
      SumUpdate(before, lines[n].item, row.(quantity := row.quantity - lines[n].qty), QuantityOf());
    }
  }

  lemma LandOneTotal(at: Landing, destination: string, item: Item, qty: Units, hint: nat)
    requires LandOne(at, destination, item, qty, hint).Ok?
    ensures SumOver(LandOne(at, destination, item, qty, hint).value.items, QuantityOf())
            == SumOver(at.items, QuantityOf()) + qty
  {
    var existing := FindFirst(at.items, destination, item, hint);
    if existing.Some? {
      var row := at.items[existing.value];
      SumUpdate(at.items, existing.value, row.(quantity := row.quantity + qty), QuantityOf());
    } else {
      SumSnoc(at.items, NewRow(item, destination, qty), QuantityOf());
    }
  }

  lemma {:induction false} LandAllTotal(
    items: seq<Item>, destination: string, lines: seq<Line>, snapshot: seq<Item>, hints: seq<nat>)
    requires LandAll(items, destination, lines, snapshot, hints).Ok?
    ensures SumOver(LandAll(items, destination, lines, snapshot, hints).value.items, QuantityOf())
            == SumOver(items, QuantityOf()) + TotalUnits(lines)
  {
    if lines != [] {
      var n := |lines| - 1;
      LandAllTotal(items, destination, lines[..n], snapshot, hints);
      LandOneTotal(
        LandAll(items, destination, lines[..n], snapshot, hints).value, destination, snapshot[lines[n].item],
        lines[n].qty, Hint(hints, n));
    }
  }

  /**
   Executing a transfer conserves the total stock, whatever its lines: items
   repeated, destination rows found or created, a source row that has itself
   moved to the destination, and a request read long before, all included.
   */
  lemma TransferConserves(db: Db, id: nat, snapshot: seq<Item>, hints: seq<nat>, now: int)
    requires Transfers.CompleteTransfer(db, id, snapshot, hints, now).Ok?
    ensures SumOver(Transfers.CompleteTransfer(db, id, snapshot, hints, now).value.items, QuantityOf())
            == SumOver(db.items, QuantityOf())
  {
    var request := db.transfers[id];
    TakeAllTotal(db.items, request.lines);
    LandAllTotal(TakeAll(db.items, request.lines).value, request.destination, request.lines, snapshot, hints);
  }

  // SKUs

  ghost predicate SkusUnique(items: seq<Item>)
  {
    forall i, j :: 0 <= i < j < |items| && items[i].sku.Some? ==> items[i].sku != items[j].sku
  }

  lemma SameSkusUnique(before: seq<Item>, after: seq<Item>)
    requires SkusUnique(before) && Extends(before, after) && |before| == |after|
    ensures SkusUnique(after)
  {
    forall i, j | 0 <= i < j < |after| && after[i].sku.Some? ensures after[i].sku != after[j].sku {
      assert SameRow(before[i], after[i]) && SameRow(before[j], after[j]);
    }
  }

  lemma LandOneSkus(at: Landing, destination: string, item: Item, qty: Units, hint: nat)
    requires SkusUnique(at.items) && LandOne(at, destination, item, qty, hint).Ok?
    ensures SkusUnique(LandOne(at, destination, item, qty, hint).value.items)
    ensures Extends(at.items, LandOne(at, destination, item, qty, hint).value.items)
  {
  }

  lemma {:induction false} LandAllSkus(
    items: seq<Item>, destination: string, lines: seq<Line>, snapshot: seq<Item>, hints: seq<nat>)
    requires SkusUnique(items) && LandAll(items, destination, lines, snapshot, hints).Ok?
    ensures var at := LandAll(items, destination, lines, snapshot, hints).value;
            SkusUnique(at.items) && Extends(items, at.items)
  {
    if lines != [] {
      var n := |lines| - 1;
      LandAllSkus(items, destination, lines[..n], snapshot, hints);
      LandOneSkus(
        LandAll(items, destination, lines[..n], snapshot, hints).value, destination, snapshot[lines[n].item],
        lines[n].qty, Hint(hints, n));
    }
  }

  lemma StepSkus(db: Db, op: Op)
    requires SkusUnique(db.items)
    ensures SkusUnique(Next(db, op).items)
  {
    StepExtends(db, op);
    if Step(db, op).Ok? {
      if op.EditItem? || op.EnterItem? {
      } else if op.CompleteTransfer? {
        var request := db.transfers[op.id];
        TakeExtends(db.items, request.lines);
        SameSkusUnique(db.items, TakeAll(db.items, request.lines).value);
        LandAllSkus(
          TakeAll(db.items, request.lines).value, request.destination, request.lines, op.snapshot, op.hints);
      } else if op.CreatePurchase? {
        var bulk := Sales.Requested(op.purchase.bulk);
        GiveExtends(db.items, bulk);
        SameSkusUnique(db.items, GiveAll(db.items, bulk).value);
      } else {
        SameSkusUnique(db.items, Next(db, op).items);
      }
    }
  }

  /** No two rows ever share a SKU. */
  lemma {:induction false} RunSkus(db: Db, ops: seq<Op>)
    requires SkusUnique(db.items)
    ensures SkusUnique(Run(db, ops).items)
  {
    if ops != [] {
      RunSkus(db, ops[..|ops| - 1]);
      StepSkus(Run(db, ops[..|ops| - 1]), ops[|ops| - 1]);
    }
  }

  /** With its own SKU, an item can only be matched by its own row. */
  lemma MatchIsOwnRow(items: seq<Item>, x: nat, item: Item, destination: string, hint: nat)
    requires SkusUnique(items) && x < |items| && SameRow(item, items[x]) && item.sku.Some?
    ensures FindFirst(items, destination, item, hint).Some? <==> items[x].warehouse == destination
  {
    if items[x].warehouse == destination {
      assert Matches(items[x], destination, item);
    }
  }

  /** The destination has a row the item would be added to. */
  predicate HasMatch(items: seq<Item>, destination: string, item: Item)
  {
    exists j :: 0 <= j < |items| && Matches(items[j], destination, item)
  }

  lemma SameMatches(before: seq<Item>, after: seq<Item>, destination: string, item: Item, sku: Option<string>)
    requires Extends(before, after) && |before| == |after|
    ensures HasMatch(after, destination, item) <==> HasMatch(before, destination, item)
    ensures SkuTaken(after, sku) <==> SkuTaken(before, sku)
  {
    forall j | 0 <= j < |after|
      ensures Matches(after[j], destination, item) <==> Matches(before[j], destination, item)
      ensures after[j].sku == before[j].sku
    {
      assert SameRow(before[j], after[j]);
    }
  }

  /**
   A transfer of one line goes through exactly when the source row is live and
   holds the units, and the destination has a row for the item as the request
   was read, or no SKU has to be made up for one, or the one made up is free.
   */
  lemma OneLineTransferIff(db: Db, id: nat, snapshot: seq<Item>, hints: seq<nat>, now: int, x: nat, qty: Units)
    requires x < |db.items| && x < |snapshot|
    requires id < |db.transfers| && db.transfers[id].status.SENT? && db.transfers[id].lines == [Line(x, qty)]
    ensures var destination := db.transfers[id].destination;
            var sku := SuffixedSku(snapshot[x].sku, destination);
            Transfers.CompleteTransfer(db, id, snapshot, hints, now).Ok?
            <==> !db.items[x].deleted && db.items[x].quantity >= qty
                 && (sku.None? || HasMatch(db.items, destination, snapshot[x]) || !SkuTaken(db.items, sku))
  {
    var lines, destination := [Line(x, qty)], db.transfers[id].destination;
    assert lines[..0] == [];
    assert TakeAll(db.items, lines[..0]) == Ok(db.items);
    if TakeAll(db.items, lines).Ok? {
      var items := TakeAll(db.items, lines).value;
      TakeExtends(db.items, lines);
      assert LandAll(items, destination, lines[..0], snapshot, hints) == Ok(Landing(items, []));
      SameMatches(db.items, items, destination, snapshot[x], SuffixedSku(snapshot[x].sku, destination));
    }
  }

  /** The request was read after the row was last edited. */
  predicate IsCurrent(snapshot: seq<Item>, items: seq<Item>, x: nat)
  {
    x < |snapshot| && x < |items| && SameRow(snapshot[x], items[x])
  }

  /** Landing the item elsewhere than where its row is takes a SKU of its own. */
  predicate NeedsSku(items: seq<Item>, destination: string, x: nat)
    requires x < |items|
  {
    items[x].warehouse != destination && SuffixedSku(items[x].sku, destination).Some?
  }

  /** The SKU the line would need is free, and no earlier line names the same item. */
  ghost predicate ClaimsOne(items: seq<Item>, destination: string, lines: seq<Line>, k: nat)
    requires k < |lines| && lines[k].item < |items|
  {
    NeedsSku(items, destination, lines[k].item) ==>
      && !SkuTaken(items, SuffixedSku(items[lines[k].item].sku, destination))
      && forall j :: 0 <= j < k ==> lines[j].item != lines[k].item
  }

  ghost predicate Claims(items: seq<Item>, destination: string, lines: seq<Line>)
    requires InRange(lines, |items|)
  {
    forall k :: 0 <= k < |lines| ==> ClaimsOne(items, destination, lines, k)
  }

  /** Every item named was read after its row was last edited. */
  ghost predicate AllCurrent(snapshot: seq<Item>, items: seq<Item>, lines: seq<Line>)
  {
    forall k :: 0 <= k < |lines| ==> IsCurrent(snapshot, items, lines[k].item)
  }

  /** One of the lines makes this SKU up. */
  ghost predicate MadeUp(items: seq<Item>, destination: string, lines: seq<Line>, sku: Option<string>)
    requires InRange(lines, |items|)
  {
    exists k :: 0 <= k < |lines| && NeedsSku(items, destination, lines[k].item)
                && SuffixedSku(items[lines[k].item].sku, destination) == sku
  }

  lemma SuffixIsInjective(a: Option<string>, b: Option<string>, destination: string)
    requires SuffixedSku(a, destination).Some? && SuffixedSku(a, destination) == SuffixedSku(b, destination)
    ensures a == b
  {
    var made := SuffixedSku(a, destination).value;
    assert made[..|a.value|] == a.value && made[..|b.value|] == b.value;
  }

  lemma MadeUpSnoc(items: seq<Item>, destination: string, lines: seq<Line>, sku: Option<string>)
    requires InRange(lines, |items|) && lines != []
    ensures var n := |lines| - 1;
            MadeUp(items, destination, lines, sku)
            <==> MadeUp(items, destination, lines[..n], sku)
                 || (NeedsSku(items, destination, lines[n].item)
                     && SuffixedSku(items[lines[n].item].sku, destination) == sku)
  {
    var n := |lines| - 1;
    if MadeUp(items, destination, lines[..n], sku) {
      var k :| 0 <= k < n && NeedsSku(items, destination, lines[..n][k].item)
               && SuffixedSku(items[lines[..n][k].item].sku, destination) == sku;
      assert lines[k] == lines[..n][k];
    }
    if MadeUp(items, destination, lines, sku) {
      var k :| 0 <= k < |lines| && NeedsSku(items, destination, lines[k].item)
               && SuffixedSku(items[lines[k].item].sku, destination) == sku;
      assert k < n ==> lines[..n][k] == lines[k];
    }
  }

  /** Where a line whose item is as it was read lands: on a row there already exactly when it needs no SKU, or has none. */
  lemma LandsOnRow(items: seq<Item>, at: seq<Item>, destination: string, item: Item, x: nat, hint: nat)
    requires SkusUnique(at) && Extends(items, at) && x < |items| && SameRow(item, items[x])
    ensures FindFirst(at, destination, item, hint).Some? ==> !NeedsSku(items, destination, x)
    ensures FindFirst(at, destination, item, hint).None? ==>
              NeedsSku(items, destination, x) || SuffixedSku(item.sku, destination).None?
  {
    assert SameRow(items[x], at[x]);
    if item.sku.Some? {
      MatchIsOwnRow(at, x, item, destination, hint);
    }
  }

  /** The SKUs in use after landing some lines: those from before, and the ones made up. */
  lemma {:induction false} LandedSkus(
    items: seq<Item>, destination: string, lines: seq<Line>, snapshot: seq<Item>, hints: seq<nat>, sku: Option<string>)
    requires SkusUnique(items) && InRange(lines, |items|) && AllCurrent(snapshot, items, lines) && sku.Some?
    requires LandAll(items, destination, lines, snapshot, hints).Ok?
    ensures SkuTaken(LandAll(items, destination, lines, snapshot, hints).value.items, sku)
            <==> SkuTaken(items, sku) || MadeUp(items, destination, lines, sku)
  {
    if lines != [] {
      var n := |lines| - 1;
      var x, qty := lines[n].item, lines[n].qty;
      var at := LandAll(items, destination, lines[..n], snapshot, hints).value;
      LandedSkus(items, destination, lines[..n], snapshot, hints, sku);
      LandAllSkus(items, destination, lines[..n], snapshot, hints);
      MadeUpSnoc(items, destination, lines, sku);
      assert IsCurrent(snapshot, items, x);
      LandsOnRow(items, at.items, destination, snapshot[x], x, Hint(hints, n));
      LandOneTakes(at, destination, snapshot[x], qty, Hint(hints, n), sku);
    }
  }

  lemma LandOneTakes(at: Landing, destination: string, item: Item, qty: Units, hint: nat, sku: Option<string>)
    requires LandOne(at, destination, item, qty, hint).Ok? && sku.Some?
    ensures SkuTaken(LandOne(at, destination, item, qty, hint).value.items, sku)
            <==> SkuTaken(at.items, sku)
                 || (FindFirst(at.items, destination, item, hint).None? && SuffixedSku(item.sku, destination) == sku)
  {
    var after := LandOne(at, destination, item, qty, hint).value.items;
    var row := FindFirst(at.items, destination, item, hint);
    assert forall j :: 0 <= j < |at.items| ==> after[j].sku == at.items[j].sku;
    if SkuTaken(at.items, sku) {
      var j :| 0 <= j < |at.items| && at.items[j].sku == sku;
      assert after[j].sku == sku;
    }
    if row.None? {
      assert after[|at.items|] == NewRow(item, destination, qty);
    }
  }

  /** The SKU of one more line has been made up by an earlier one exactly when that names the same item. */
  lemma MadeUpBefore(items: seq<Item>, destination: string, lines: seq<Line>, n: nat)
    requires SkusUnique(items) && InRange(lines, |items|) && n < |lines|
    requires NeedsSku(items, destination, lines[n].item)
    ensures MadeUp(items, destination, lines[..n], SuffixedSku(items[lines[n].item].sku, destination))
            <==> exists j :: 0 <= j < n && lines[j].item == lines[n].item
  {
    var sku := SuffixedSku(items[lines[n].item].sku, destination);
    if MadeUp(items, destination, lines[..n], sku) {
      var k :| 0 <= k < n && NeedsSku(items, destination, lines[..n][k].item)
               && SuffixedSku(items[lines[..n][k].item].sku, destination) == sku;
      SuffixIsInjective(items[lines[k].item].sku, items[lines[n].item].sku, destination);
      assert lines[k].item == lines[n].item;
    }
    if j: nat :| j < n && lines[j].item == lines[n].item {
      assert lines[..n][j] == lines[j];
    }
  }

  /** Landing succeeds exactly when every line that needs a SKU finds it free and names its item for the first time. */
  lemma {:induction false} LandAllIff(
    items: seq<Item>, destination: string, lines: seq<Line>, snapshot: seq<Item>, hints: seq<nat>)
    requires SkusUnique(items) && InRange(lines, |items|) && AllCurrent(snapshot, items, lines)
    ensures LandAll(items, destination, lines, snapshot, hints).Ok? <==> Claims(items, destination, lines)
  {
    if lines != [] {
      var n := |lines| - 1;
      var x := lines[n].item;
      LandAllIff(items, destination, lines[..n], snapshot, hints);
      ClaimsSnoc(items, destination, lines);
      assert IsCurrent(snapshot, items, x);
      if LandAll(items, destination, lines[..n], snapshot, hints).Ok? {
        var at := LandAll(items, destination, lines[..n], snapshot, hints).value;
        LandAllSkus(items, destination, lines[..n], snapshot, hints);
        LandsOnRow(items, at.items, destination, snapshot[x], x, Hint(hints, n));
        if NeedsSku(items, destination, x) {
          LandedSkus(items, destination, lines[..n], snapshot, hints, SuffixedSku(items[x].sku, destination));
          MadeUpBefore(items, destination, lines, n);
        }
      }
    }
  }

  lemma ClaimsSnoc(items: seq<Item>, destination: string, lines: seq<Line>)
    requires InRange(lines, |items|) && lines != []
    ensures var n := |lines| - 1;
            Claims(items, destination, lines)
            <==> Claims(items, destination, lines[..n]) && ClaimsOne(items, destination, lines, n)
  {
    var n := |lines| - 1;
    forall k | 0 <= k < n
      ensures ClaimsOne(items, destination, lines[..n], k) <==> ClaimsOne(items, destination, lines, k)
    {
      assert forall j :: 0 <= j <= k ==> lines[..n][j] == lines[j];
    }
  }

  lemma ClaimsReadNoQuantities(before: seq<Item>, after: seq<Item>, destination: string, lines: seq<Line>)
    requires Extends(before, after) && |before| == |after| && InRange(lines, |before|)
    ensures Claims(after, destination, lines) <==> Claims(before, destination, lines)
  {
    forall k | 0 <= k < |lines|
      ensures ClaimsOne(after, destination, lines, k) <==> ClaimsOne(before, destination, lines, k)
    {
      var x := lines[k].item;
      assert SameRow(before[x], after[x]);
      SameMatches(before, after, destination, before[x], SuffixedSku(before[x].sku, destination));
    }
  }

  /**
   A sent transfer whose items are as the request read them goes through
   exactly when every item is live and holds all the units its lines name,
   every SKU to be made up is free, and no item that needs one is named twice.
   */
  lemma TransferIff(db: Db, id: nat, snapshot: seq<Item>, hints: seq<nat>, now: int)
    requires SkusUnique(db.items) && id < |db.transfers| && db.transfers[id].status.SENT?
    requires AllCurrent(snapshot, db.items, db.transfers[id].lines) && InRange(db.transfers[id].lines, |db.items|)
    ensures Transfers.CompleteTransfer(db, id, snapshot, hints, now).Ok?
            <==> Enough(db.items, db.transfers[id].lines)
                 && Claims(db.items, db.transfers[id].destination, db.transfers[id].lines)
  {
    var lines, destination := db.transfers[id].lines, db.transfers[id].destination;
    TakeAllIff(db.items, lines);
    if TakeAll(db.items, lines).Ok? {
      var items := TakeAll(db.items, lines).value;
      TakeExtends(db.items, lines);
      SameSkusUnique(db.items, items);
      forall k | 0 <= k < |lines| ensures IsCurrent(snapshot, items, lines[k].item) {
        assert IsCurrent(snapshot, db.items, lines[k].item) && SameRow(db.items[lines[k].item], items[lines[k].item]);
      }
      LandAllIff(items, destination, lines, snapshot, hints);
      ClaimsReadNoQuantities(db.items, items, destination, lines);
    }
  }

  /** For one line: the row is live and holds the units, and the SKU it would need is free. */
  lemma CurrentTransferIff(db: Db, id: nat, snapshot: seq<Item>, hints: seq<nat>, now: int, x: nat, qty: Units)
    requires SkusUnique(db.items) && IsCurrent(snapshot, db.items, x)
    requires id < |db.transfers| && db.transfers[id].status.SENT? && db.transfers[id].lines == [Line(x, qty)]
    ensures var destination := db.transfers[id].destination;
            Transfers.CompleteTransfer(db, id, snapshot, hints, now).Ok?
            <==> !db.items[x].deleted && db.items[x].quantity >= qty
                 && (NeedsSku(db.items, destination, x) ==>
                       !SkuTaken(db.items, SuffixedSku(db.items[x].sku, destination)))
  {
    var lines, destination := [Line(x, qty)], db.transfers[id].destination;
    assert lines[..0] == [] && TakeAll(db.items, lines[..0]) == Ok(db.items);
    TransferIff(db, id, snapshot, hints, now);
    TakeAllIff(db.items, lines);
    assert Claims(db.items, destination, lines) <==> ClaimsOne(db.items, destination, lines, 0);
  }

  /**
   A request that names an item twice, the item having a SKU and no row at the
   destination, can never be executed, however much is in stock.
   */
  lemma RepeatedItemIsRefused(
    db: Db, id: nat, snapshot: seq<Item>, hints: seq<nat>, now: int, j: nat, k: nat)
    requires SkusUnique(db.items) && id < |db.transfers| && j < k < |db.transfers[id].lines|
    requires AllCurrent(snapshot, db.items, db.transfers[id].lines) && InRange(db.transfers[id].lines, |db.items|)
    requires db.transfers[id].lines[j].item == db.transfers[id].lines[k].item
    requires NeedsSku(db.items, db.transfers[id].destination, db.transfers[id].lines[k].item)
    ensures Transfers.CompleteTransfer(db, id, snapshot, hints, now).Err?
  {
    if db.transfers[id].status.SENT? {
      TransferIff(db, id, snapshot, hints, now);
      assert !ClaimsOne(db.items, db.transfers[id].destination, db.transfers[id].lines, k);
    }
  }

  /** Landing a line of an item whose row is elsewhere creates a row under the made-up SKU, which was free. */
  lemma {:induction false} LandingClaimsSku(
    items: seq<Item>, destination: string, lines: seq<Line>, snapshot: seq<Item>, hints: seq<nat>, k: nat)
    requires SkusUnique(items) && LandAll(items, destination, lines, snapshot, hints).Ok?
    requires k < |lines| && lines[k].item < |snapshot| && lines[k].item < |items|
    requires SameRow(snapshot[lines[k].item], items[lines[k].item])
    requires items[lines[k].item].warehouse != destination
    requires SuffixedSku(items[lines[k].item].sku, destination).Some?
    ensures var sku := SuffixedSku(items[lines[k].item].sku, destination);
            !SkuTaken(items, sku) && SkuTaken(LandAll(items, destination, lines, snapshot, hints).value.items, sku)
  {
    var n, x := |lines| - 1, lines[k].item;
    var sku := SuffixedSku(items[x].sku, destination);
    var at := LandAll(items, destination, lines[..n], snapshot, hints).value;
    LandAllSkus(items, destination, lines[..n], snapshot, hints);
    assert SameRow(items[x], at.items[x]);
    if k == n {
      MatchIsOwnRow(at.items, x, snapshot[x], destination, Hint(hints, n));
      assert !SkuTaken(at.items, sku);
      TakenSkuStays(items, at.items, sku);
      var row := NewRow(snapshot[x], destination, lines[n].qty);
      assert (at.items + [row])[|at.items|].sku == sku;
    } else {
      LandingClaimsSku(items, destination, lines[..n], snapshot, hints, k);
      LandOneSkus(at, destination, snapshot[lines[n].item], lines[n].qty, Hint(hints, n));
      TakenSkuStays(at.items, LandAll(items, destination, lines, snapshot, hints).value.items, sku);
    }
  }

  lemma TakenSkuStays(before: seq<Item>, after: seq<Item>, sku: Option<string>)
    requires Extends(before, after)
    ensures SkuTaken(before, sku) ==> SkuTaken(after, sku)
  {
    if SkuTaken(before, sku) {
      var j :| 0 <= j < |before| && before[j].sku == sku;
      assert SameRow(before[j], after[j]);
    }
  }

  /** The item is named by the request, has a SKU and is not stocked at the destination. */
  predicate NeedsNewSku(db: Db, id: nat, x: nat)
    requires id < |db.transfers|
  {
    && Names(db.transfers[id].lines, x)
    && x < |db.items|
    && NeedsSku(db.items, db.transfers[id].destination, x)
  }

  predicate Names(lines: seq<Line>, x: nat)
  {
    exists k :: 0 <= k < |lines| && lines[k].item == x
  }

  lemma ExecutedTransferClaims(db: Db, id: nat, snapshot: seq<Item>, hints: seq<nat>, now: int, x: nat)
    requires IsCurrent(snapshot, db.items, x)
    requires SkusUnique(db.items) && Transfers.CompleteTransfer(db, id, snapshot, hints, now).Ok? && NeedsNewSku(db, id, x)
    ensures var sku := SuffixedSku(db.items[x].sku, db.transfers[id].destination);
            !SkuTaken(db.items, sku) && SkuTaken(Transfers.CompleteTransfer(db, id, snapshot, hints, now).value.items, sku)
  {
    var request := db.transfers[id];
    var items := TakeAll(db.items, request.lines).value;
    var k :| 0 <= k < |request.lines| && request.lines[k].item == x;
    TakeExtends(db.items, request.lines);
    SameSkusUnique(db.items, items);
    assert SameRow(db.items[x], items[x]);
    LandingClaimsSku(items, request.destination, request.lines, snapshot, hints, k);
    var sku := SuffixedSku(db.items[x].sku, request.destination);
    if SkuTaken(db.items, sku) {
      TakenSkuStays(db.items, items, sku);
    }
  }

  /**
   An item with a SKU reaches a destination through a transfer only once. As
   long as nobody edits inventory rows by hand, every later transfer naming it
   is refused, to the same destination or to any whose id starts with the same
   four characters, because the row created the first time keeps the SKU that
   would have to be made up again.
   */
  lemma SecondTransferIsRefused(
    db: Db, id: nat, snapshot: seq<Item>, hints: seq<nat>, now: int, x: nat,
    ops: seq<Op>, again: nat, snapshotAgain: seq<Item>, hintsAgain: seq<nat>, later: int)
    requires IsCurrent(snapshot, db.items, x)
    requires SkusUnique(db.items) && Transfers.CompleteTransfer(db, id, snapshot, hints, now).Ok? && NeedsNewSku(db, id, x)
    requires forall k :: 0 <= k < |ops| ==> !ops[k].EditItem?
    requires var after := Run(Transfers.CompleteTransfer(db, id, snapshot, hints, now).value, ops);
             && again < |after.transfers|
             && NeedsNewSku(after, again, x)
             && IsCurrent(snapshotAgain, after.items, x)
             && SuffixedSku(db.items[x].sku, after.transfers[again].destination)
                == SuffixedSku(db.items[x].sku, db.transfers[id].destination)
    ensures Transfers.CompleteTransfer(
              Run(Transfers.CompleteTransfer(db, id, snapshot, hints, now).value, ops), again, snapshotAgain, hintsAgain, later).Err?
  {
    var executed := Transfers.CompleteTransfer(db, id, snapshot, hints, now).value;
    var after := Run(executed, ops);
    var sku := SuffixedSku(db.items[x].sku, db.transfers[id].destination);
    ExecutedTransferClaims(db, id, snapshot, hints, now, x);
    StepExtends(db, Op.CompleteTransfer(id, snapshot, hints, now));
    StepSkus(db, Op.CompleteTransfer(id, snapshot, hints, now));
    RunSkus(executed, ops);
    RunExtends(executed, ops);
    assert SameRow(db.items[x], executed.items[x]);
    assert SameRow(executed.items[x], after.items[x]);
    TakenSkuStays(executed.items, after.items, sku);
    if Transfers.CompleteTransfer(after, again, snapshotAgain, hintsAgain, later).Ok? {
      ExecutedTransferClaims(after, again, snapshotAgain, hintsAgain, later, x);
    }
  }
}
