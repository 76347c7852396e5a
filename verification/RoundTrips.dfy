/** Creating a document and then deleting or cancelling it puts every row back. */
module RoundTrips {
  import opened Seqs
  import opened Wrappers
  import opened Tables
  import opened Stock
  import opened Payments
  import opened Sales
  import opened Purchases
  import opened Outflows
  import opened Transactions
  import opened Ledger
  import opened Accounts
  import Money

  lemma OutflowRoundTrip(db: Db, warehouse: string, lines: seq<Line>, now: int, later: int)
    requires CreateOutflow(db, warehouse, lines, now).Ok?
    ensures var created := CreateOutflow(db, warehouse, lines, now).value;
            var undone := CancelOutflow(created, |db.outflows|, later);
            undone.Ok? && undone.value.items == db.items
  {
    TakeAllIff(db.items, lines);
    GiveAllIff(Taken(db.items, lines), lines);
    TakeGiveInverse(db.items, lines);
  }

  lemma SaleRoundTrip(db: Db, dto: SaleDto, now: int, later: int)
    requires PaymentsOk(db) && CreateSale(db, dto, false, now).Ok?
    ensures var created := CreateSale(db, dto, false, now).value;
            var undone := CancelSale(created, |db.sales|, true, later);
            undone.Ok? && undone.value.items == db.items
  {
    var lines := Requested(dto.lines);
    WrittenLines(dto.lines, Money.ComputeTotals(Taxables(dto.lines, dto.taxPercent)).lineTaxes);
    TakeAllIff(db.items, lines);
    GiveAllIff(Taken(db.items, lines), lines);
    TakeGiveInverse(db.items, lines);
    forall k | 0 <= k < |db.payments| ensures db.payments[k].target != OfSale(|db.sales|) {
      assert PaymentOk(db, db.payments[k]);
    }
    NothingPaidOn(db.payments, OfSale(|db.sales|));
  }

  /** Confirming a quotation and cancelling the sale it became also restores every row. */
  lemma ConfirmRoundTrip(db: Db, id: nat, now: int, later: int)
    requires PaymentsOk(db) && ConfirmSale(db, id, now).Ok?
    ensures var confirmed := ConfirmSale(db, id, now).value;
            var undone := CancelSale(confirmed, id, true, later);
            undone.Ok? && undone.value.items == db.items
  {
    var lines := Lines(db.sales[id].lines);
    assert Lines(ConfirmedSale(db.sales[id], now).lines) == lines;
    TakeAllIff(db.items, lines);
    GiveAllIff(Taken(db.items, lines), lines);
    TakeGiveInverse(db.items, lines);
    QuotationUnpaid(db, id);
  }

  lemma {:induction false} ValidBulkIsBulk(items: seq<Item>, lines: seq<Line>, warehouse: string)
    requires AllLive(items, lines) && ValidateBulk(items, lines, warehouse).Ok?
    ensures forall k :: 0 <= k < |lines| ==> items[lines[k].item].itemType.BULK?
  {
    if lines != [] {
      ValidBulkIsBulk(items, lines[..|lines| - 1], warehouse);
    }
  }

  /** A purchase just saved can be cancelled exactly when it bought no serialized unit. */
  lemma PurchaseRoundTripIff(db: Db, dto: PurchaseDto, now: int, later: int)
    requires NeverNegative(db) && PaymentsOk(db) && CreatePurchase(db, dto, now).Ok?
    ensures var created := CreatePurchase(db, dto, now).value;
            var undone := CancelPurchase(created, |db.purchases|, later);
            && (undone.Ok? <==> dto.units == [])
            && (undone.Ok? ==> undone.value.items == db.items)
  {
    var bulk := Requested(dto.bulk);
    GiveAllIff(db.items, bulk);
    ValidBulkIsBulk(db.items, bulk, dto.warehouse);
    var created := CreatePurchase(db, dto, now).value;
    var all := AllLines(dto, |db.items|);
    WrittenLines(all, Money.ComputeTotals(Taxables(all, dto.taxPercent)).lineTaxes);
    var lines := Lines(created.purchases[|db.purchases|].lines);
    if dto.units != [] {
      assert lines[|bulk|].item == |db.items|;
      assert HasUnique(created.items, lines);
    } else {
      assert lines == bulk;
      assert created.items == Given(db.items, bulk);
      forall k | 0 <= k < |db.payments| ensures db.payments[k].target != OfPurchase(|db.purchases|) {
        assert PaymentOk(db, db.payments[k]);
      }
      NothingPaidOn(db.payments, OfPurchase(|db.purchases|));
      GivenIsEnough(db.items, bulk);
      TakeAllIff(created.items, bulk);
      TakeGiveInverse(db.items, bulk);
    }
  }

  /** Units just added can be taken back from every row that is not deleted. */
  lemma GivenIsEnough(items: seq<Item>, lines: seq<Line>)
    requires InRange(lines, |items|)
    requires forall i :: 0 <= i < |items| ==> items[i].quantity >= 0
    ensures Enough(Given(items, lines), lines) <==> AllLive(items, lines)
  {
    if Enough(Given(items, lines), lines) {
      forall k | 0 <= k < |lines| ensures !items[lines[k].item].deleted {
        SumAtLeastTerm(lines, k, QtyAt(lines[k].item));
        assert UnitsOf(lines, lines[k].item) > 0;
      }
    }
    if AllLive(items, lines) {
      forall i | 0 <= i < |items| && UnitsOf(lines, i) > 0 ensures !items[i].deleted {
        if forall k :: 0 <= k < |lines| ==> lines[k].item != i {
          SumZero(lines, QtyAt(i));
          assert false;
        }
      }
    }
  }

  /**
   A manual entry just saved can be deleted, restoring every row; except an IN
   that named a soft-deleted item: saving one is allowed, but its units can no
   longer be taken back. The exception is exact.
   */
  lemma TransactionRoundTripIff(db: Db, t: Transaction)
    requires NeverNegative(db) && CreateTransaction(db, t).Ok?
    ensures var created := CreateTransaction(db, t).value;
            var undone := RemoveTransaction(created, |db.transactions|);
            && (undone.Ok? <==> (t.kind.IN? ==> AllLive(db.items, t.lines)))
            && (undone.Ok? ==> undone.value.items == db.items)
  {
    TakeAllIff(db.items, t.lines);
    GiveAllIff(db.items, t.lines);
    GivenIsEnough(db.items, t.lines);
    TakeAllIff(Given(db.items, t.lines), t.lines);
    GiveAllIff(Taken(db.items, t.lines), t.lines);
    TakeGiveInverse(db.items, t.lines);
  }
}
