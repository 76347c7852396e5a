/** The transactions of MoneyRaces do to one client's documents what the service calls do to the tables. */
module MoneyJobs {
  import opened Seqs
  import opened Wrappers
  import T = Tables
  import R = MoneyRaces
  import M = MoneyAlone
  import A = MoneyAnswers
  import Payments
  import Sales
  import Ledger
  import Money
  import Stock
  import TradeAnswers

  /** No document is worth less than nothing and no payment is negative, as the request types demand. */
  ghost predicate NonNegative(db: T.Db)
  {
    && (forall k :: 0 <= k < |db.sales| ==> db.sales[k].total + db.sales[k].tax >= 0)
    && (forall k :: 0 <= k < |db.payments| ==> db.payments[k].amount >= 0)
  }

  function Cents(n: int): nat
  {
    if n < 0 then 0 else n
  }

  /** The payments that name the sale, in their order. */
  function PaidOnSale(payments: seq<T.Payment>, id: nat): seq<R.Paid>
  {
    if payments == [] then []
    else
      var p := payments[|payments| - 1];
      PaidOnSale(payments[..|payments| - 1], id)
        + (if p.target == T.OfSale(id) then [R.Paid(Cents(p.amount), p.active)] else [])
  }

  function DocOf(db: T.Db, client: nat, currency: string, id: nat): R.Doc
    requires id < |db.sales|
  {
    var s := db.sales[id];
    R.Doc(
      s.status, Cents(s.total + s.tax), s.client == Some(client) && s.credit && s.currency == currency,
      PaidOnSale(db.payments, id))
  }

  /** The sales as one client and one currency see them. */
  function Docs(db: T.Db, client: nat, currency: string): seq<R.Doc>
  {
    seq(|db.sales|, id requires 0 <= id < |db.sales| => DocOf(db, client, currency, id))
  }

  lemma ReceivedSnoc(paid: seq<R.Paid>, p: R.Paid)
    ensures M.Received(paid + [p]) == M.Received(paid) + if p.active then p.amount else 0
  {
    assert (paid + [p])[..|paid|] == paid;
  }

  lemma {:induction false} ReceivedAlike(payments: seq<T.Payment>, id: nat)
    requires forall k :: 0 <= k < |payments| ==> payments[k].amount >= 0
    ensures M.Received(PaidOnSale(payments, id)) == A.Received(payments, T.OfSale(id))
  {
    if payments != [] {
      var rest, p := payments[..|payments| - 1], payments[|payments| - 1];
      ReceivedAlike(rest, id);
      if p.target == T.OfSale(id) {
        assert PaidOnSale(payments, id) == PaidOnSale(rest, id) + [R.Paid(p.amount, p.active)];
        ReceivedSnoc(PaidOnSale(rest, id), R.Paid(p.amount, p.active));
      } else {
        assert PaidOnSale(payments, id) == PaidOnSale(rest, id);
      }
    }
  }

  lemma OwesSnoc(docs: seq<R.Doc>, d: R.Doc)
    ensures M.Owes(docs + [d])
            == M.Owes(docs) + if d.status == T.SaleStatus.ACTIVE && d.credit then d.total - M.Received(d.payments) else 0
  {
    assert (docs + [d])[..|docs|] == docs;
  }

  lemma OneMoreOwes(sales: seq<T.Sale>, payments: seq<T.Payment>, client: nat, currency: string, n: nat)
    requires 0 < n <= |sales|
    ensures var s := sales[n - 1];
            A.Owes(sales[..n], payments, client, currency, None)
            == A.Owes(sales[..n - 1], payments, client, currency, None)
               + if s.client == Some(client) && s.status == T.SaleStatus.ACTIVE && s.credit && s.currency == currency
                 then s.total + s.tax - A.Received(payments, T.OfSale(n - 1)) else 0
  {
    assert sales[..n][..n - 1] == sales[..n - 1];
  }

  lemma {:induction false} OwesAlike(db: T.Db, client: nat, currency: string, n: nat)
    requires NonNegative(db) && n <= |db.sales|
    ensures M.Owes(Docs(db, client, currency)[..n]) == A.Owes(db.sales[..n], db.payments, client, currency, None)
  {
    if n > 0 {
      var docs, d := Docs(db, client, currency), DocOf(db, client, currency, n - 1);
      OwesAlike(db, client, currency, n - 1);
      OneMoreOwes(db.sales, db.payments, client, currency, n);
      ReceivedAlike(db.payments, n - 1);
      assert docs[..n] == docs[..n - 1] + [d];
      OwesSnoc(docs[..n - 1], d);
    }
  }

  lemma AllOwedAlike(db: T.Db, client: nat, currency: string)
    requires NonNegative(db)
    ensures M.Owes(Docs(db, client, currency)) == A.Owes(db.sales, db.payments, client, currency, None)
  {
    OwesAlike(db, client, currency, |db.sales|);
    assert Docs(db, client, currency)[..|db.sales|] == Docs(db, client, currency);
    assert db.sales[..|db.sales|] == db.sales;
  }

  /** Leaving aside a sale that is not ACTIVE leaves out nothing. */
  lemma {:induction false} AsideOwesNothing(
    sales: seq<T.Sale>, payments: seq<T.Payment>, client: nat, currency: string, id: nat)
    requires id < |sales| ==> sales[id].status != T.SaleStatus.ACTIVE
    ensures A.Owes(sales, payments, client, currency, Some(id)) == A.Owes(sales, payments, client, currency, None)
  {
    if sales != [] {
      AsideOwesNothing(sales[..|sales| - 1], payments, client, currency, id);
    }
  }

  // Payments

  lemma PaidSnoc(payments: seq<T.Payment>, p: T.Payment, id: nat)
    ensures PaidOnSale(payments + [p], id)
            == PaidOnSale(payments, id) + if p.target == T.OfSale(id) then [R.Paid(Cents(p.amount), p.active)] else []
  {
    assert (payments + [p])[..|payments|] == payments;
  }

  lemma PaidDoc(db: T.Db, client: nat, currency: string, p: T.Payment, k: nat)
    requires k < |db.sales|
    ensures var d := DocOf(db, client, currency, k);
            DocOf(db.(payments := db.payments + [p]), client, currency, k)
            == d.(payments := d.payments + if p.target == T.OfSale(k) then [R.Paid(Cents(p.amount), p.active)] else [])
  {
    PaidSnoc(db.payments, p, k);
  }

  lemma OnePaymentMore(db: T.Db, client: nat, currency: string, id: nat, cents: nat)
    requires id < |db.sales|
    ensures var after := db.(payments := db.payments + [T.Payment(T.OfSale(id), cents, true)]);
            Docs(after, client, currency) == R.Written(Docs(db, client, currency), R.Pay(id, cents))
  {
    var p := T.Payment(T.OfSale(id), cents, true);
    var docs, after := Docs(db, client, currency), db.(payments := db.payments + [p]);
    forall k: nat | k < |db.sales| ensures Docs(after, client, currency)[k] == R.Written(docs, R.Pay(id, cents))[k] {
      PaidDoc(db, client, currency, p, k);
      if k != id {
        assert docs[k].payments + [] == docs[k].payments;
      }
    }
  }

  lemma PayAccepted(db: T.Db, client: nat, currency: string, limit: nat, id: nat, cents: nat)
    requires NonNegative(db)
    ensures Payments.Pay(db, T.OfSale(id), cents as real / 100.0).Ok?
            <==> M.Accepted(limit, Docs(db, client, currency), R.Pay(id, cents))
  {
    A.PayIff(db, T.OfSale(id), cents as real / 100.0);
    ReceivedAlike(db.payments, id);
  }

  /** A payment on a sale is accepted, and recorded, alike. */
  lemma PayAlike(db: T.Db, client: nat, currency: string, limit: nat, id: nat, cents: nat)
    requires NonNegative(db)
    ensures var r, job := Payments.Pay(db, T.OfSale(id), cents as real / 100.0), R.Pay(id, cents);
            && (r.Ok? <==> M.Accepted(limit, Docs(db, client, currency), job))
            && (r.Ok? ==>
                  NonNegative(r.value) && Docs(r.value, client, currency) == R.Written(Docs(db, client, currency), job))
  {
    PayAccepted(db, client, currency, limit, id, cents);
    Money.Round2OfStored(cents);
    if id < |db.sales| {
      OnePaymentMore(db, client, currency, id, cents);
    }
  }

  /** How many payments of the sale come before the one with this id. */
  function Position(payments: seq<T.Payment>, id: nat, k: nat): nat
    requires k <= |payments|
  {
    |PaidOnSale(payments[..k], id)|
  }

  lemma {:induction false} VoidedAt(payments: seq<T.Payment>, id: nat, k: nat)
    requires k < |payments| && payments[k].target == T.OfSale(id)
    ensures var at, paid := Position(payments, id, k), PaidOnSale(payments, id);
            && at < |paid| && paid[at] == R.Paid(Cents(payments[k].amount), payments[k].active)
            && PaidOnSale(payments[k := payments[k].(active := false)], id) == paid[at := paid[at].(active := false)]
  {
    var n := |payments| - 1;
    var after := payments[k := payments[k].(active := false)];
    if k < n {
      VoidedAt(payments[..n], id, k);
      assert payments[..n][..k] == payments[..k];
      assert after[..n] == payments[..n][k := payments[k].(active := false)];
    } else {
      assert after[..n] == payments[..n];
      assert payments[..k] == payments[..n];
    }
  }

  lemma {:induction false} VoidedElsewhere(payments: seq<T.Payment>, id: nat, k: nat)
    requires k < |payments| && payments[k].target != T.OfSale(id)
    ensures PaidOnSale(payments[k := payments[k].(active := false)], id) == PaidOnSale(payments, id)
  {
    var n := |payments| - 1;
    var after := payments[k := payments[k].(active := false)];
    if k < n {
      VoidedElsewhere(payments[..n], id, k);
      assert after[..n] == payments[..n][k := payments[k].(active := false)];
    } else {
      assert after[..n] == payments[..n];
    }
  }

  /** A payment on a sale is voided alike: there it is found by its place among the sale's payments. */
  lemma VoidAlike(db: T.Db, client: nat, currency: string, limit: nat, k: nat)
    requires NonNegative(db) && k < |db.payments| && db.payments[k].target.OfSale? && db.payments[k].target.id < |db.sales|
    ensures var id := db.payments[k].target.id;
            var r, job := Payments.VoidPayment(db, k), R.Void(id, Position(db.payments, id, k));
            && (r.Ok? <==> M.Accepted(limit, Docs(db, client, currency), job))
            && (r.Ok? ==>
                  NonNegative(r.value) && Docs(r.value, client, currency) == R.Written(Docs(db, client, currency), job))
  {
    var id := db.payments[k].target.id;
    VoidedAt(db.payments, id, k);
    var r, job := Payments.VoidPayment(db, k), R.Void(id, Position(db.payments, id, k));
    if r.Ok? {
      var docs := Docs(db, client, currency);
      forall j: nat | j < |db.sales| ensures Docs(r.value, client, currency)[j] == R.Written(docs, job)[j] {
        if j != id {
          VoidedElsewhere(db.payments, j, k);
        }
      }
    }
  }

  // Sales

  /** Cancelling with permission goes through alike. */
  lemma CancelAlike(db: T.Db, client: nat, currency: string, limit: nat, id: nat, now: int)
    requires NonNegative(db) && Ledger.Coherent(db)
    ensures var r, job := Sales.CancelSale(db, id, true, now), R.Cancel(id);
            && (r.Ok? <==> M.Accepted(limit, Docs(db, client, currency), job))
            && (r.Ok? ==>
                  NonNegative(r.value) && Docs(r.value, client, currency) == R.Written(Docs(db, client, currency), job))
  {
    TradeAnswers.CancelSaleIff(db, id, true, now);
    ReceivedAlike(db.payments, id);
    var r, job := Sales.CancelSale(db, id, true, now), R.Cancel(id);
    if r.Ok? {
      var docs := Docs(db, client, currency);
      assert forall k :: 0 <= k < |docs| ==> Docs(r.value, client, currency)[k] == R.Written(docs, job)[k];
    }
  }

  /** No payment names a sale still to come. */
  ghost predicate NoneAhead(db: T.Db)
  {
    forall k :: 0 <= k < |db.payments| && db.payments[k].target.OfSale? ==> db.payments[k].target.id < |db.sales|
  }

  lemma {:induction false} NothingPaidYet(payments: seq<T.Payment>, id: nat)
    requires forall k :: 0 <= k < |payments| ==> payments[k].target != T.OfSale(id)
    ensures PaidOnSale(payments, id) == []
  {
    if payments != [] {
      NothingPaidYet(payments[..|payments| - 1], id);
    }
  }

  lemma NewDoc(db: T.Db, after: T.Db, client: nat, currency: string)
    requires NoneAhead(db) && |after.sales| == |db.sales| + 1 && after.sales[..|db.sales|] == db.sales
    requires after.payments == db.payments
    ensures var s := after.sales[|db.sales|];
            Docs(after, client, currency)
            == Docs(db, client, currency)
               + [R.Doc(s.status, Cents(s.total + s.tax), s.client == Some(client) && s.credit && s.currency == currency, [])]
  {
    NothingPaidYet(db.payments, |db.sales|);
    assert forall k :: 0 <= k < |db.sales| ==> after.sales[k] == after.sales[..|db.sales|][k];
  }

  /** The client has this limit in this currency. */
  predicate Limited(db: T.Db, client: nat, currency: string, limit: nat)
  {
    client < |db.clients| && db.clients[client] == T.Client(Some(limit), currency)
  }

  /** Saving a sale or a quotation of the client: the same credit check, and the same document more. */
  lemma CreateAlike(db: T.Db, client: nat, limit: nat, dto: Sales.SaleDto, asDraft: bool, now: int, amount: nat)
    requires NonNegative(db) && NoneAhead(db) && dto.client == Some(client) && Limited(db, client, dto.currency, limit)
    requires var totals := Money.ComputeTotals(Sales.Taxables(dto.lines, dto.taxPercent)); totals.total + totals.tax == amount
    ensures var r := Sales.CreateSale(db, dto, asDraft, now);
            var job := if asDraft then R.Quote(amount, dto.credit) else R.CreateActive(amount, dto.credit);
            var docs, lines := Docs(db, client, dto.currency), Sales.Requested(dto.lines);
            && (lines != [] && TradeAnswers.Orderable(db.items, lines, dto.warehouse) && (asDraft || Stock.Enough(db.items, lines)) ==>
                  (r.Ok? <==> M.Accepted(limit, docs, job)))
            && (r.Ok? ==> Docs(r.value, client, dto.currency) == R.Written(docs, job))
  {
    var r := Sales.CreateSale(db, dto, asDraft, now);
    TradeAnswers.SaleIff(db, dto, asDraft, now);
    A.CreditIff(db, dto.client, dto.credit, amount, dto.currency, None);
    AllOwedAlike(db, client, dto.currency);
    if r.Ok? {
      NewDoc(db, r.value, client, dto.currency);
    }
  }

  lemma ConfirmedDocs(db: T.Db, client: nat, id: nat, now: int, amount: nat)
    requires Sales.ConfirmSale(db, id, now).Ok? && db.sales[id].client == Some(client)
    requires amount == Sales.ConfirmedSale(db.sales[id], now).total + Sales.ConfirmedSale(db.sales[id], now).tax
    ensures var after, s := Sales.ConfirmSale(db, id, now).value, db.sales[id];
            var retaxed := R.Written(Docs(db, client, s.currency), R.Requote(id, amount, s.credit));
            Docs(after, client, s.currency) == R.Written(retaxed, R.Confirm(id))
  {
    var after, s := Sales.ConfirmSale(db, id, now).value, db.sales[id];
    var docs := Docs(db, client, s.currency);
    var retaxed := R.Written(docs, R.Requote(id, amount, s.credit));
    assert forall k :: 0 <= k < |docs| ==> Docs(after, client, s.currency)[k] == R.Written(retaxed, R.Confirm(id))[k];
  }

  lemma RetaxedOwes(db: T.Db, client: nat, id: nat, amount: nat)
    requires NonNegative(db) && id < |db.sales| && db.sales[id].status != T.SaleStatus.ACTIVE
    ensures var s := db.sales[id];
            M.Owes(R.Written(Docs(db, client, s.currency), R.Requote(id, amount, s.credit)))
            == A.Owes(db.sales, db.payments, client, s.currency, Some(id))
  {
    var s := db.sales[id];
    var docs := Docs(db, client, s.currency);
    AsideOwesNothing(db.sales, db.payments, client, s.currency, id);
    AllOwedAlike(db, client, s.currency);
    DraftOwesNothing(docs, id, docs[id].(total := amount, credit := s.credit));
  }

  /** Confirming: the amounts are written first, as an edit of the quotation, and then checked alike. */
  lemma ConfirmAlike(db: T.Db, client: nat, limit: nat, id: nat, now: int, amount: nat)
    requires NonNegative(db) && id < |db.sales| && db.sales[id].client == Some(client)
    requires Limited(db, client, db.sales[id].currency, limit)
    requires var s := db.sales[id];
             var totals := Money.ComputeTotals(Sales.StoredTaxables(s.lines, Sales.Percent(s.taxPercent)));
             totals.total + totals.tax == amount
    ensures var r, s := Sales.ConfirmSale(db, id, now), db.sales[id];
            var docs := Docs(db, client, s.currency);
            var retaxed := R.Written(docs, R.Requote(id, amount, s.credit));
            && (Stock.Enough(db.items, T.Lines(s.lines)) ==> (r.Ok? <==> M.Accepted(limit, retaxed, R.Confirm(id))))
            && (r.Ok? ==> Docs(r.value, client, s.currency) == R.Written(retaxed, R.Confirm(id)))
  {
    var s := db.sales[id];
    TradeAnswers.ConfirmIff(db, id, now);
    A.CreditIff(db, s.client, s.credit, amount, s.currency, Some(id));
    if s.status != T.SaleStatus.ACTIVE {
      RetaxedOwes(db, client, id, amount);
    }
    if Sales.ConfirmSale(db, id, now).Ok? {
      ConfirmedDocs(db, client, id, now, amount);
    }
  }

  lemma {:induction false} DraftOwesNothing(docs: seq<R.Doc>, id: nat, d: R.Doc)
    requires id < |docs| && docs[id].status != T.SaleStatus.ACTIVE && d.status == docs[id].status
    ensures M.Owes(docs[id := d]) == M.Owes(docs)
  {
    var n := |docs| - 1;
    if id < n {
      DraftOwesNothing(docs[..n], id, d);
      assert docs[id := d][..n] == docs[..n][id := d];
    } else {
      assert docs[id := d][..n] == docs[..n];
    }
  }
}
