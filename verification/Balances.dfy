/** Balances shown in lists, and how they relate to the ones checked under lock. */
module Balances {
  import opened Seqs
  import opened Wrappers
  import opened Tables
  import opened Payments
  import opened Sales
  import opened System
  import opened Accounts

  // One batched query for a whole list

  /** SUM(amount) of the active payments per document, for the documents asked for. */
  function GroupBy(payments: seq<Payment>, ids: set<Target>): map<Target, int>
  {
    if payments == [] then map[]
    else
      var n := |payments| - 1;
      var sums, p := GroupBy(payments[..n], ids), payments[n];
      if p.active && p.target in ids then
        sums[p.target := (if p.target in sums then sums[p.target] else 0) + p.amount]
      else sums
  }

  /** A row of a sales or purchases list. */
  datatype Row = Row(id: Target, total: int, tax: int)

  function AttachBalances(payments: seq<Payment>, rows: seq<Row>): (balances: seq<int>)
    ensures |balances| == |rows|
  {
    var ids := set k | 0 <= k < |rows| :: rows[k].id;
    var paid := GroupBy(payments, ids);
    seq(|rows|, k requires 0 <= k < |rows| =>
      rows[k].total + rows[k].tax - (if rows[k].id in paid then paid[rows[k].id] else 0))
  }

  /** A document is in the grouped sums exactly when it has an active payment, with the sum of all of them. */
  lemma {:induction false} GroupByIff(payments: seq<Payment>, ids: set<Target>, id: Target)
    requires id in ids
    ensures id in GroupBy(payments, ids)
            <==> exists k :: 0 <= k < |payments| && payments[k].active && payments[k].target == id
    ensures (if id in GroupBy(payments, ids) then GroupBy(payments, ids)[id] else 0) == ActivePaid(payments, id)
  {
    if payments != [] {
      var n := |payments| - 1;
      GroupByIff(payments[..n], ids, id);
      assert forall k :: 0 <= k < n ==> payments[..n][k] == payments[k];
    }
  }

  function RowOf(db: Db, target: Target): Row
    requires TargetExists(db, target)
  {
    match target
    case OfSale(id) => Row(target, db.sales[id].total, db.sales[id].tax)
    case OfPurchase(id) => Row(target, db.purchases[id].total, db.purchases[id].tax)
  }

  /** The balances of any list of documents are the ones the payment check computes, those without payments included. */
  lemma AttachedIsBalance(db: Db, targets: seq<Target>)
    requires forall k :: 0 <= k < |targets| ==> TargetExists(db, targets[k])
    ensures var rows := seq(|targets|, k requires 0 <= k < |targets| => RowOf(db, targets[k]));
            AttachBalances(db.payments, rows) == seq(|targets|, k requires 0 <= k < |targets| => Balance(db, targets[k]))
  {
    var rows := seq(|targets|, k requires 0 <= k < |targets| => RowOf(db, targets[k]));
    var ids := set k | 0 <= k < |rows| :: rows[k].id;
    forall k | 0 <= k < |targets| ensures AttachBalances(db.payments, rows)[k] == Balance(db, targets[k]) {
      assert rows[k].id in ids;
      GroupByIff(db.payments, ids, targets[k]);
    }
  }

  // A client's outstanding credit

  /** The balance of a sale that counts toward the client's limit. */
  function OpenBalance(db: Db, client: nat, currency: string, exclude: Option<nat>): nat -> int
  {
    (id: nat) =>
      if IsOpenCreditId(db.sales, id, client, currency, exclude) then Balance(db, OfSale(id)) else 0
  }

  function OpenPaidOn(db: Db, client: nat, currency: string, exclude: Option<nat>): nat -> Payment -> int
  {
    (id: nat) => (p: Payment) =>
      if p.active && p.target == OfSale(id) && IsOpenCreditId(db.sales, id, client, currency, exclude) then p.amount else 0
  }

  lemma OnePaymentOnce(db: Db, client: nat, currency: string, exclude: Option<nat>, p: Payment)
    ensures SumUpTo(|db.sales|, RowAt(p, OpenPaidOn(db, client, currency, exclude)))
            == OpenPaid(db.sales, client, currency, exclude)(p)
  {
    var n, row := |db.sales|, RowAt(p, OpenPaidOn(db, client, currency, exclude));
    forall id: nat ensures row(id) == if p.target == OfSale(id) then OpenPaid(db.sales, client, currency, exclude)(p) else 0 {
      assert row(id) == OpenPaidOn(db, client, currency, exclude)(id)(p);
    }
    if p.target.OfSale? && p.target.id < n {
      SumUpToZero(n, Nothing());
      SumUpToPoint(n, Nothing(), row, p.target.id);
    } else {
      SumUpToZero(n, row);
    }
  }

  function Nothing(): nat -> int
  {
    (id: nat) => 0
  }

  /** What the credit check adds up, totals in one query and payments in another, is the sum of the sales' balances. */
  lemma OutstandingIsSumOfBalances(db: Db, client: nat, currency: string, exclude: Option<nat>)
    ensures Outstanding(db, client, currency, exclude)
            == SumUpTo(|db.sales|, OpenBalance(db, client, currency, exclude))
  {
    var n, paidOn := |db.sales|, OpenPaidOn(db, client, currency, exclude);
    forall k | 0 <= k < |db.payments|
      ensures SumUpTo(n, RowAt(db.payments[k], paidOn)) == OpenPaid(db.sales, client, currency, exclude)(db.payments[k])
    {
      OnePaymentOnce(db, client, currency, exclude, db.payments[k]);
    }
    SumExchange(db.payments, n, paidOn, OpenPaid(db.sales, client, currency, exclude));
    forall id: nat | id < n
      ensures OpenTotal(db.sales, client, currency, exclude)(id)
              == OpenBalance(db, client, currency, exclude)(id) + SumAt(db.payments, paidOn)(id)
    {
      PaidOnOne(db, client, currency, exclude, id);
    }
    SumUpToPlus(
      n, OpenBalance(db, client, currency, exclude), SumAt(db.payments, paidOn),
      OpenTotal(db.sales, client, currency, exclude));
  }

  lemma PaidOnOne(db: Db, client: nat, currency: string, exclude: Option<nat>, id: nat)
    ensures SumAt(db.payments, OpenPaidOn(db, client, currency, exclude))(id)
            == if IsOpenCreditId(db.sales, id, client, currency, exclude) then ActivePaid(db.payments, OfSale(id)) else 0
  {
    var f := OpenPaidOn(db, client, currency, exclude)(id);
    if IsOpenCreditId(db.sales, id, client, currency, exclude) {
      SumSame(db.payments, f, PaidTo(OfSale(id)));
    } else {
      SumZero(db.payments, f);
    }
  }

  // When no payment is ever voided

  ghost predicate NoneVoided(payments: seq<Payment>)
  {
    forall k :: 0 <= k < |payments| ==> payments[k].active
  }

  lemma StepKeepsPayments(db: Db, op: Op)
    requires NoneVoided(db.payments) && !op.VoidPayment?
    ensures NoneVoided(Next(db, op).payments) && Next(db, op).clients == db.clients
  {
    if !IsMoneyOp(op) {
      OtherOpsKeepMoney(db, op);
    }
  }

  lemma {:induction false} RunKeepsPayments(db: Db, ops: seq<Op>)
    requires NoneVoided(db.payments) && forall k :: 0 <= k < |ops| ==> !ops[k].VoidPayment?
    ensures NoneVoided(Run(db, ops).payments) && Run(db, ops).clients == db.clients
  {
    if ops != [] {
      RunKeepsPayments(db, ops[..|ops| - 1]);
      StepKeepsPayments(Run(db, ops[..|ops| - 1]), ops[|ops| - 1]);
    }
  }

  /** From empty tables, as long as no payment is voided, the balances a client owes never add up to more than its limit. */
  lemma LimitHoldsWithoutVoids(clients: seq<Client>, ops: seq<Op>, client: nat)
    requires forall k :: 0 <= k < |clients| ==> clients[k].creditLimit.Some? ==> clients[k].creditLimit.value >= 0
    requires forall k :: 0 <= k < |ops| ==> Validated(ops[k]) && !ops[k].VoidPayment?
    requires client < |clients| && clients[client].creditLimit.Some?
    ensures var db := Run(Empty(clients), ops);
            SumUpTo(|db.sales|, OpenBalance(db, client, clients[client].limitCurrency, None))
            <= clients[client].creditLimit.value
  {
    var db := Run(Empty(clients), ops);
    EmptyBooks(clients);
    RunBooks(Empty(clients), ops);
    RunKeepsPayments(Empty(clients), ops);
    assert CreditOk(db, client);
    SumZero(db.payments, VoidedOf(db.sales, client, db.clients[client].limitCurrency));
    OutstandingIsSumOfBalances(db, client, clients[client].limitCurrency, None);
  }
}
