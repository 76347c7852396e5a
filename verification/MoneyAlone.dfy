/** What a transaction on payments or credit answers when nothing runs beside it. */
module MoneyAlone {
  import opened Seqs
  import opened Wrappers
  import Tables
  import opened MoneyRaces

  /** All its statements, one after the other; the ones a job has no use for change nothing it reads. */
  ghost function Alone(s: State, job: Job): State
  {
    var t := |s.txs|;
    var begun := Next(Next(s, Begin(job)), LockDoc(t));
    var read := Next(Next(begun, ReadStatus(t)), LockClient(t));
    Next(Next(Next(read, ReadOpenSales(t)), ReadPaid(t)), Commit(t))
  }

  ghost predicate Free(s: State)
  {
    forall u: nat :: u < |s.txs| ==> !HoldsClient(s.txs[u]) && forall id: nat :: !HoldsDoc(s.txs[u], id)
  }

  /** The active payments on a document. */
  function Received(payments: seq<Paid>): int
  {
    if payments == [] then 0
    else
      var p := payments[|payments| - 1];
      Received(payments[..|payments| - 1]) + (if p.active then p.amount else 0)
  }

  lemma {:induction false} ReceivedIs(d: Doc)
    ensures PaidOn(d) == Received(d.payments)
    decreases |d.payments|
  {
    if d.payments != [] {
      ReceivedIs(d.(payments := d.payments[..|d.payments| - 1]));
    }
  }

  /** What the client owes on its ACTIVE credit sales. */
  function Owes(docs: seq<Doc>): int
  {
    if docs == [] then 0
    else
      var d := docs[|docs| - 1];
      Owes(docs[..|docs| - 1]) + (if d.status == Tables.SaleStatus.ACTIVE && d.credit then d.total - Received(d.payments) else 0)
  }

  lemma {:induction false} OwesIs(docs: seq<Doc>)
    ensures Owed(docs) == Owes(docs)
  {
    if docs != [] {
      OwesIs(docs[..|docs| - 1]);
      ReceivedIs(docs[|docs| - 1]);
    }
  }

  lemma {:induction false} SumUpToMinus(n: nat, f: nat -> int, g: nat -> int, h: nat -> int)
    requires forall i: nat :: i < n ==> f(i) == g(i) - h(i)
    ensures SumUpTo(n, f) == SumUpTo(n, g) - SumUpTo(n, h)
  {
    if n > 0 {
      SumUpToMinus(n - 1, f, g, h);
    }
  }

  /** Undisturbed, the two queries of the credit check leave exactly what is owed. */
  lemma RoomIsExact(docs: seq<Doc>)
    ensures SumUpTo(|docs|, TotalIn(OpenIds(docs), docs)) - SumUpTo(|docs|, PaidIn(OpenIds(docs), docs)) == Owed(docs)
  {
    SumByPosition(docs, OpenBalance());
    SumUpToMinus(
      |docs|, ByPosition(docs, OpenBalance()), TotalIn(OpenIds(docs), docs), PaidIn(OpenIds(docs), docs));
  }

  /** The transaction just begun, with the locks it could take. */
  lemma LocksItsDoc(s: State, job: Job)
    requires Free(s)
    ensures var t := |s.txs|;
            var after := Next(Next(s, Begin(job)), LockDoc(t));
            && after.docs == s.docs && after.limit == s.limit
            && after.txs == s.txs + [
                 if Target(job) == None then Running(job, false, false, Nothing)
                 else if Target(job).value < |s.docs| then Running(job, true, false, Nothing) else Ended]
  {
    var begun := Next(s, Begin(job));
    var t := |s.txs|;
    assert forall u: nat, id: nat :: u < |begun.txs| ==> !HoldsDoc(begun.txs[u], id);
    if Target(job).Some? {
      assert begun.txs[t := Ended] == s.txs + [Ended];
      assert begun.txs[t := Running(job, true, false, Nothing)] == s.txs + [Running(job, true, false, Nothing)];
    }
  }

  /** Of a transaction still going, the last one, only its own entry changes until it commits. */
  ghost predicate Last(s: State, before: State, tx: Tx)
  {
    s == before.(txs := before.txs + [tx])
  }

  lemma LastChanged(s: State, before: State, tx: Tx, tx': Tx)
    requires Last(s, before, tx)
    ensures Last(With(s, |before.txs|, tx'), before, tx')
  {
    assert (before.txs + [tx])[|before.txs| := tx'] == before.txs + [tx'];
  }

  lemma LocksClient(s: State, before: State, tx: Tx)
    requires Free(before) && Last(s, before, tx) && tx.Running? && !tx.clientLocked
    ensures Last(Next(s, LockClient(|before.txs|)), before, tx.(clientLocked := true))
  {
    assert forall u: nat :: u < |s.txs| ==> !HoldsClient(s.txs[u]);
    LastChanged(s, before, tx, tx.(clientLocked := true));
  }

  /** Ended early, the transaction has changed nothing. */
  lemma EndedStays(s: State, before: State)
    requires Last(s, before, Ended)
    ensures var t := |before.txs|;
            && Next(s, LockClient(t)) == s && Next(s, ReadStatus(t)) == s && Next(s, ReadOpenSales(t)) == s
            && Next(s, ReadPaid(t)) == s && Next(s, Commit(t)) == s
  {
  }

  /** What each of the transactions asks, when it is alone. */
  predicate Accepted(limit: nat, docs: seq<Doc>, job: Job)
  {
    match job
    case Quote(_, _) => true
    case Requote(id, _, _) => id < |docs| && docs[id].status == Tables.DRAFT
    case CreateActive(total, credit) => credit ==> Owes(docs) + total <= limit
    case Confirm(id) =>
      id < |docs| && docs[id].status == Tables.DRAFT && (docs[id].credit ==> Owes(docs) + docs[id].total <= limit)
    case Cancel(id) =>
      && id < |docs|
      && (docs[id].status == Tables.DRAFT || (docs[id].status == Tables.SaleStatus.ACTIVE && Received(docs[id].payments) <= 0))
    case Pay(id, amount) =>
      id < |docs| && docs[id].status == Tables.SaleStatus.ACTIVE && amount <= docs[id].total - Received(docs[id].payments)
    case Void(id, k) => id < |docs| && k < |docs[id].payments| && docs[id].payments[k].active
  }

  /** Past the status it needs: with its row locked and the client's, about to make its queries. */
  ghost predicate Asks(s: State, before: State, job: Job, status: Tables.SaleStatus)
  {
    Last(s, before, Running(job, true, true, Status(status)))
  }

  lemma ReadsItsStatus(s: State, job: Job)
    requires Free(s) && Target(job).Some? && !job.Void?
    ensures var t, id := |s.txs|, Target(job).value;
            var after := Next(Next(Next(Next(s, Begin(job)), LockDoc(t)), ReadStatus(t)), LockClient(t));
            if id < |s.docs| && Accepts(job, s.docs[id].status) then Asks(after, s, job, s.docs[id].status)
            else Last(after, s, Ended)
  {
    var t, id := |s.txs|, Target(job).value;
    LocksItsDoc(s, job);
    var locked := Next(Next(s, Begin(job)), LockDoc(t));
    if id >= |s.docs| {
      EndedStays(locked, s);
    } else if !Accepts(job, s.docs[id].status) {
      LastChanged(locked, s, Running(job, true, false, Nothing), Ended);
      EndedStays(Next(locked, ReadStatus(t)), s);
    } else {
      var read := Running(job, true, false, Status(s.docs[id].status));
      LastChanged(locked, s, Running(job, true, false, Nothing), read);
      LocksClient(Next(locked, ReadStatus(t)), s, read);
    }
  }

  /** The first query of the credit check. */
  lemma ReadsOpen(s: State, before: State, tx: Tx)
    requires Last(s, before, tx) && tx.Running? && tx.clientLocked
    requires (tx.job.CreateActive? && tx.seen.Nothing?) || (tx.job.Confirm? && tx.seen.Status?)
    ensures var ids := OpenIds(before.docs);
            Last(
              Next(s, ReadOpenSales(|before.txs|)), before,
              tx.(seen := OpenSales(ids, SumUpTo(|before.docs|, TotalIn(ids, before.docs)))))
  {
    var ids := OpenIds(before.docs);
    LastChanged(s, before, tx, tx.(seen := OpenSales(ids, SumUpTo(|before.docs|, TotalIn(ids, before.docs)))));
  }

  /** The second. */
  lemma ReadsPaidOnOpen(s: State, before: State, tx: Tx)
    requires tx.Running? && tx.seen.OpenSales? && Last(s, before, tx)
    ensures Last(
              Next(s, ReadPaid(|before.txs|)), before,
              tx.(seen := Outstanding(tx.seen.totals - SumUpTo(|before.docs|, PaidIn(tx.seen.ids, before.docs)))))
  {
    LastChanged(
      s, before, tx,
      tx.(seen := Outstanding(tx.seen.totals - SumUpTo(|before.docs|, PaidIn(tx.seen.ids, before.docs)))));
  }

  lemma ReadsAmounts(s: State, before: State, tx: Tx)
    requires Last(s, before, tx) && tx.Running? && tx.clientLocked
    requires (tx.job.CreateActive? && tx.seen.Nothing?) || (tx.job.Confirm? && tx.seen.Status?)
    ensures Last(
              Next(Next(s, ReadOpenSales(|before.txs|)), ReadPaid(|before.txs|)), before,
              tx.(seen := Outstanding(Owes(before.docs))))
  {
    var ids := OpenIds(before.docs);
    var open := tx.(seen := OpenSales(ids, SumUpTo(|before.docs|, TotalIn(ids, before.docs))));
    ReadsOpen(s, before, tx);
    ReadsPaidOnOpen(Next(s, ReadOpenSales(|before.txs|)), before, open);
    RoomIsExact(before.docs);
    OwesIs(before.docs);
  }

  lemma ReadsSum(s: State, before: State, job: Job, id: nat)
    requires Asks(s, before, job, Tables.SaleStatus.ACTIVE) && (job.Pay? || job.Cancel?) && job.id == id && id < |before.docs|
    ensures Last(
              Next(Next(s, ReadOpenSales(|before.txs|)), ReadPaid(|before.txs|)), before,
              Running(job, true, true, ActiveSum(Received(before.docs[id].payments))))
  {
    var tx := Running(job, true, true, Status(Tables.SaleStatus.ACTIVE));
    assert Next(s, ReadOpenSales(|before.txs|)) == s;
    ReceivedIs(before.docs[id]);
    LastChanged(s, before, tx, tx.(seen := ActiveSum(PaidOn(before.docs[id]))));
  }

  lemma PayAlone(s: State, id: nat, amount: nat)
    requires Free(s)
    ensures var job := Pay(id, amount);
            Alone(s, job).docs == if Accepted(s.limit, s.docs, job) then Written(s.docs, job) else s.docs
  {
    var job := Pay(id, amount);
    ReadsItsStatus(s, job);
    var asks := Next(Next(Next(Next(s, Begin(job)), LockDoc(|s.txs|)), ReadStatus(|s.txs|)), LockClient(|s.txs|));
    if id < |s.docs| && s.docs[id].status.ACTIVE? {
      ReadsSum(asks, s, job, id);
    } else {
      EndedStays(asks, s);
    }
  }

  lemma CancelAlone(s: State, id: nat)
    requires Free(s)
    ensures var job := Cancel(id);
            Alone(s, job).docs == if Accepted(s.limit, s.docs, job) then Written(s.docs, job) else s.docs
  {
    var t, job := |s.txs|, Cancel(id);
    ReadsItsStatus(s, job);
    var asks := Next(Next(Next(Next(s, Begin(job)), LockDoc(t)), ReadStatus(t)), LockClient(t));
    if id < |s.docs| && s.docs[id].status.ACTIVE? {
      ReadsSum(asks, s, job, id);
    } else if id < |s.docs| && s.docs[id].status.DRAFT? {
      assert Next(Next(asks, ReadOpenSales(t)), ReadPaid(t)) == asks;
    } else {
      EndedStays(asks, s);
    }
  }

  /** The credit check passed or not, the commit writes or the transaction ends. */
  lemma CommitsChecked(s: State, before: State, tx: Tx)
    requires Last(s, before, tx) && tx.Running? && tx.seen == Outstanding(Owes(before.docs))
    requires tx.job.CreateActive? || (tx.job.Confirm? && tx.job.id < |before.docs| && before.docs[tx.job.id].status.DRAFT?)
    ensures Next(s, Commit(|before.txs|)).docs ==
            if Accepted(before.limit, before.docs, tx.job) then Written(before.docs, tx.job) else before.docs
  {
    assert s.txs[|before.txs|] == tx;
  }

  lemma ConfirmAlone(s: State, id: nat)
    requires Free(s)
    ensures var job := Confirm(id);
            Alone(s, job).docs == if Accepted(s.limit, s.docs, job) then Written(s.docs, job) else s.docs
  {
    var t, job := |s.txs|, Confirm(id);
    ReadsItsStatus(s, job);
    var asks := Next(Next(Next(Next(s, Begin(job)), LockDoc(t)), ReadStatus(t)), LockClient(t));
    if id < |s.docs| && s.docs[id].status.DRAFT? {
      var tx := Running(job, true, true, Status(Tables.DRAFT));
      ReadsAmounts(asks, s, tx);
      CommitsChecked(Next(Next(asks, ReadOpenSales(t)), ReadPaid(t)), s, tx.(seen := Outstanding(Owes(s.docs))));
    } else {
      EndedStays(asks, s);
    }
  }

  lemma RequoteAlone(s: State, id: nat, total: nat, credit: bool)
    requires Free(s)
    ensures var job := Requote(id, total, credit);
            Alone(s, job).docs == if Accepted(s.limit, s.docs, job) then Written(s.docs, job) else s.docs
  {
    var t, job := |s.txs|, Requote(id, total, credit);
    ReadsItsStatus(s, job);
    var asks := Next(Next(Next(Next(s, Begin(job)), LockDoc(t)), ReadStatus(t)), LockClient(t));
    if id < |s.docs| && s.docs[id].status.DRAFT? {
      assert Next(Next(asks, ReadOpenSales(t)), ReadPaid(t)) == asks;
    } else {
      EndedStays(asks, s);
    }
  }

  lemma InsertsLocked(s: State, job: Job)
    requires Free(s) && (job.Quote? || job.CreateActive?)
    ensures var t := |s.txs|;
            var after := Next(Next(Next(Next(s, Begin(job)), LockDoc(t)), ReadStatus(t)), LockClient(t));
            Last(after, s, Running(job, false, true, Nothing))
  {
    var t := |s.txs|;
    LocksItsDoc(s, job);
    var begun := Next(Next(s, Begin(job)), LockDoc(t));
    assert Next(begun, ReadStatus(t)) == begun;
    LocksClient(begun, s, Running(job, false, false, Nothing));
  }

  lemma QuoteAlone(s: State, total: nat, credit: bool)
    requires Free(s)
    ensures var job := Quote(total, credit); Alone(s, job).docs == Written(s.docs, job)
  {
    var t, job := |s.txs|, Quote(total, credit);
    InsertsLocked(s, job);
    var asks := Next(Next(Next(Next(s, Begin(job)), LockDoc(t)), ReadStatus(t)), LockClient(t));
    assert Next(Next(asks, ReadOpenSales(t)), ReadPaid(t)) == asks;
  }

  lemma CreateAlone(s: State, total: nat, credit: bool)
    requires Free(s)
    ensures var job := CreateActive(total, credit);
            Alone(s, job).docs == if Accepted(s.limit, s.docs, job) then Written(s.docs, job) else s.docs
  {
    var t, job := |s.txs|, CreateActive(total, credit);
    InsertsLocked(s, job);
    var asks := Next(Next(Next(Next(s, Begin(job)), LockDoc(t)), ReadStatus(t)), LockClient(t));
    var tx := Running(job, false, true, Nothing);
    ReadsAmounts(asks, s, tx);
    CommitsChecked(Next(Next(asks, ReadOpenSales(t)), ReadPaid(t)), s, tx.(seen := Outstanding(Owes(s.docs))));
  }

  lemma VoidAlone(s: State, id: nat, k: nat)
    requires Free(s)
    ensures var job := Void(id, k);
            Alone(s, job).docs == if Accepted(s.limit, s.docs, job) then Written(s.docs, job) else s.docs
  {
    var t, job := |s.txs|, Void(id, k);
    LocksItsDoc(s, job);
    var begun := Next(Next(s, Begin(job)), LockDoc(t));
    var tx := Running(job, false, false, Nothing);
    if Accepted(s.limit, s.docs, job) {
      var read := tx.(seen := Status(s.docs[id].status));
      LastChanged(begun, s, tx, read);
      LocksClient(Next(begun, ReadStatus(t)), s, read);
      var asks := Next(Next(begun, ReadStatus(t)), LockClient(t));
      assert Next(Next(asks, ReadOpenSales(t)), ReadPaid(t)) == asks;
    } else {
      LastChanged(begun, s, tx, Ended);
      EndedStays(Next(begun, ReadStatus(t)), s);
    }
  }

  /**
   With no row locked by anyone, each transaction goes through exactly where
   it should, and writes what it should: a payment up to what is left on an
   ACTIVE document, a cancellation once nothing is paid, a credit sale up to
   the limit, and so on.
   */
  lemma AloneIff(s: State, job: Job)
    requires Free(s)
    ensures Alone(s, job).docs == if Accepted(s.limit, s.docs, job) then Written(s.docs, job) else s.docs
  {
    match job
    case Quote(total, credit) => QuoteAlone(s, total, credit);
    case Requote(id, total, credit) => RequoteAlone(s, id, total, credit);
    case CreateActive(total, credit) => CreateAlone(s, total, credit);
    case Confirm(id) => ConfirmAlone(s, id);
    case Cancel(id) => CancelAlone(s, id);
    case Pay(id, amount) => PayAlone(s, id, amount);
    case Void(id, k) => VoidAlone(s, id, k);
  }
}
