/** When a payment, a voiding and a credit sale are accepted, in the columns of the documents and payments. */
module MoneyAnswers {
  import opened Seqs
  import opened Wrappers
  import opened Tables
  import opened Payments
  import opened Sales
  import opened Balances
  import Money

  /** The active payments on one document. */
  function Received(payments: seq<Payment>, target: Target): int
  {
    if payments == [] then 0
    else
      var p := payments[|payments| - 1];
      Received(payments[..|payments| - 1], target) + (if p.active && p.target == target then p.amount else 0)
  }

  lemma {:induction false} ReceivedIsPaid(payments: seq<Payment>, target: Target)
    ensures Received(payments, target) == ActivePaid(payments, target)
  {
    if payments != [] {
      ReceivedIsPaid(payments[..|payments| - 1], target);
    }
  }

  /** The cents a document is worth: nothing is known of one that does not exist or is not ACTIVE. */
  function Due(db: Db, target: Target): Option<int>
  {
    match target
    case OfSale(id) =>
      if id < |db.sales| && db.sales[id].status == SaleStatus.ACTIVE then Some(db.sales[id].total + db.sales[id].tax) else None
    case OfPurchase(id) =>
      if id < |db.purchases| && db.purchases[id].status == DocStatus.ACTIVE
      then Some(db.purchases[id].total + db.purchases[id].tax) else None
  }

  predicate Exists(db: Db, target: Target)
  {
    match target
    case OfSale(id) => id < |db.sales|
    case OfPurchase(id) => id < |db.purchases|
  }

  /**
   A payment goes through exactly when the document exists, is ACTIVE and the
   amount is no more than what is left of its total and tax once the active
   payments are taken off. It is then one more active payment, to the nearest
   cent, and nothing else changes.
   */
  lemma PayIff(db: Db, target: Target, amount: real)
    ensures var r := Pay(db, target, amount);
            && (r == Err(NOT_FOUND) <==> !Exists(db, target))
            && (r == Err(INVALID_STATUS) <==> Exists(db, target) && Due(db, target) == None)
            && (r.Ok? <==>
                  && Due(db, target) != None
                  && amount * 100.0 <= (Due(db, target).value - Received(db.payments, target)) as real)
            && (r.Err? ==> r.error in {NOT_FOUND, INVALID_STATUS, PAYMENT_EXCEEDS_BALANCE})
            && (r.Ok? ==>
                  && |r.value.payments| == |db.payments| + 1
                  && r.value == db.(payments := db.payments + [r.value.payments[|db.payments|]])
                  && var p := r.value.payments[|db.payments|];
                     p.target == target && p.active
                     && amount * 100.0 - 0.5 < p.amount as real <= amount * 100.0 + 0.5)
  {
    ReceivedIsPaid(db.payments, target);
    Money.Round2IsNearest(amount);
  }

  /** Whatever is left can be paid in one payment, and then nothing is. */
  lemma CanBePaidOff(db: Db, target: Target, left: int)
    requires Due(db, target) != None && left == Due(db, target).value - Received(db.payments, target)
    ensures var r := Pay(db, target, left as real / 100.0);
            r.Ok? && Due(r.value, target) == Due(db, target)
            && Due(r.value, target).value - Received(r.value.payments, target) == 0
  {
    PayIff(db, target, left as real / 100.0);
    Money.Round2OfStored(left);
    var after := Pay(db, target, left as real / 100.0).value;
    assert after.payments[..|after.payments| - 1] == db.payments;
  }

  /** A payment is voided exactly when it is active, and only its state changes. */
  lemma VoidIff(db: Db, id: nat)
    ensures VoidPayment(db, id)
            == (if id >= |db.payments| then Err(NOT_FOUND)
                else if !db.payments[id].active then Err(INVALID_STATUS)
                else Ok(db.(payments := db.payments[id := Payment(db.payments[id].target, db.payments[id].amount, false)])))
  {
  }

  // Credit

  /** What a client owes on its ACTIVE credit sales in a currency, one of them perhaps left aside. */
  function Owes(sales: seq<Sale>, payments: seq<Payment>, client: nat, currency: string, aside: Option<nat>): int
  {
    if sales == [] then 0
    else
      var id := |sales| - 1;
      var s := sales[id];
      Owes(sales[..id], payments, client, currency, aside)
        + (if s.client == Some(client) && s.status == SaleStatus.ACTIVE && s.credit && s.currency == currency && aside != Some(id)
           then s.total + s.tax - Received(payments, OfSale(id)) else 0)
  }

  lemma {:induction false} OwesIsOutstanding(db: Db, n: nat, client: nat, currency: string, aside: Option<nat>)
    requires n <= |db.sales|
    ensures Owes(db.sales[..n], db.payments, client, currency, aside) == SumUpTo(n, OpenBalance(db, client, currency, aside))
  {
    if n > 0 {
      assert db.sales[..n][..n - 1] == db.sales[..n - 1];
      OwesIsOutstanding(db, n - 1, client, currency, aside);
      ReceivedIsPaid(db.payments, OfSale(n - 1));
    }
  }

  /**
   The credit check refuses exactly a credit sale of a client with a limit that
   is in another currency than the limit, or that would take what the client
   owes on its other ACTIVE credit sales above the limit. A cash sale, one
   without a client and a client without a limit are never refused.
   */
  lemma CreditIff(db: Db, client: Option<nat>, credit: bool, amount: int, currency: string, aside: Option<nat>)
    ensures var r := EnforceCreditLimit(db, client, credit, amount, currency, aside);
            var limited := credit && client != None && client.value < |db.clients|
                           && db.clients[client.value].creditLimit != None;
            && (!limited ==> r == Ok(()))
            && (limited ==>
                  var row := db.clients[client.value];
                  r == (if currency != row.limitCurrency then Err(CREDIT_LIMIT_CURRENCY_MISMATCH)
                        else if Owes(db.sales, db.payments, client.value, currency, aside) + amount > row.creditLimit.value
                        then Err(CREDIT_LIMIT_EXCEEDED)
                        else Ok(())))
  {
    if client.Some? {
      assert db.sales[..|db.sales|] == db.sales;
      OwesIsOutstanding(db, |db.sales|, client.value, currency, aside);
      OutstandingIsSumOfBalances(db, client.value, currency, aside);
    }
  }
}
