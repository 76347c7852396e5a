/**
 Payments and the balances derived from them. No balance is stored: it is the
 document's total and tax less its active payments, computed when needed.
 */
module Payments {
  import opened Seqs
  import opened Wrappers
  import opened Tables
  import opened Stock
  import Money

  function PaidTo(target: Target): Payment -> int
  {
    (p: Payment) => if p.active && p.target == target then p.amount else 0
  }

  /** SUM(amount) over the active payments of one document. */
  function ActivePaid(payments: seq<Payment>, target: Target): int
  {
    SumOver(payments, PaidTo(target))
  }

  predicate TargetExists(db: Db, target: Target)
  {
    match target
    case OfSale(id) => id < |db.sales|
    case OfPurchase(id) => id < |db.purchases|
  }

  predicate TargetActive(db: Db, target: Target)
    requires TargetExists(db, target)
  {
    match target
    case OfSale(id) => db.sales[id].status.ACTIVE?
    case OfPurchase(id) => db.purchases[id].status.ACTIVE?
  }

  function TargetTotal(db: Db, target: Target): int
    requires TargetExists(db, target)
  {
    match target
    case OfSale(id) => db.sales[id].total + db.sales[id].tax
    case OfPurchase(id) => db.purchases[id].total + db.purchases[id].tax
  }

  function Balance(db: Db, target: Target): int
    requires TargetExists(db, target)
  {
    TargetTotal(db, target) - ActivePaid(db.payments, target)
  }

  /** PaymentsService.create. The amount is any positive number; the row stores it rounded. */
  function Pay(db: Db, target: Target, amount: real): Outcome
  {
    if !TargetExists(db, target) then Err(NOT_FOUND)
    else if !TargetActive(db, target) then Err(INVALID_STATUS)
    else if amount > Money.Value(Balance(db, target)) then Err(PAYMENT_EXCEEDS_BALANCE)
    else Ok(db.(payments := db.payments + [Payment(target, Money.Round2(amount), true)]))
  }

  /** PaymentsService.cancel: takes no document lock, and only lowers the active sum. */
  function VoidPayment(db: Db, id: nat): Outcome
  {
    if id >= |db.payments| then Err(NOT_FOUND)
    else if !db.payments[id].active then Err(INVALID_STATUS)
    else Ok(db.(payments := db.payments[id := db.payments[id].(active := false)]))
  }

  class PaymentsService {
    const db: Database

    constructor (db: Database)
      ensures this.db == db
    {
      this.db := db;
    }

    /** _sum: { amount } over the active payments of the document. */
    method AggregatePaid(tx: Tx, target: Target) returns (sum: int)
      ensures sum == ActivePaid(tx.tables.payments, target)
    {
      sum := 0;
      var payments := tx.tables.payments;
      for k := 0 to |payments|
        invariant sum == ActivePaid(payments[..k], target)
      {
        assert payments[..k + 1][..k] == payments[..k];
        if payments[k].active && payments[k].target == target {
          sum := sum + payments[k].amount;
        }
      }
      assert payments[..|payments|] == payments;
    }

    method LockAndComputeBalance(tx: Tx, target: Target) returns (r: Result<int, Error>)
      ensures r.Ok? <==> TargetExists(tx.tables, target) && TargetActive(tx.tables, target)
      ensures r.Ok? ==> r.value == Balance(tx.tables, target)
      ensures r.Err? ==> r.error == if TargetExists(tx.tables, target) then INVALID_STATUS else NOT_FOUND
    {
      if !TargetExists(tx.tables, target) {
        return Err(NOT_FOUND);
      }
      if !TargetActive(tx.tables, target) {
        return Err(INVALID_STATUS);
      }
      var paid := AggregatePaid(tx, target);
      return Ok(TargetTotal(tx.tables, target) - paid);
    }

    method Create(target: Target, amount: real) returns (r: Result<(), Error>)
      modifies db
      ensures Settles(old(db.tables), Pay(old(db.tables), target, amount), db.tables, r)
    {
      var tx := new Tx(db.tables);
      var balance := LockAndComputeBalance(tx, target);
      if balance.Err? {
        return Err(balance.error);
      }
      if amount > Money.Value(balance.value) {
        return Err(PAYMENT_EXCEEDS_BALANCE);
      }
      tx.tables := tx.tables.(payments := tx.tables.payments + [Payment(target, Money.Round2(amount), true)]);
      db.tables := tx.tables;
      return Ok(());
    }

    method Cancel(id: nat) returns (r: Result<(), Error>)
      modifies db
      ensures Settles(old(db.tables), VoidPayment(old(db.tables), id), db.tables, r)
    {
      var tx := new Tx(db.tables);
      if id >= |tx.tables.payments| {
        return Err(NOT_FOUND);
      }
      var current := tx.tables.payments[id];
      if !current.active {
        return Err(INVALID_STATUS);
      }
      tx.tables := tx.tables.(payments := tx.tables.payments[id := current.(active := false)]);
      db.tables := tx.tables;
      return Ok(());
    }
  }
}
