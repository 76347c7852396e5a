/**
 Payments, cancellations and credit checks racing, one SQL statement at a
 time. Payments are kept with the document they name. One client has a credit
 limit; `credit` marks the CREDIT sales of that client in the limit's currency.
 */
module MoneyRaces {
  import opened Seqs
  import opened Wrappers
  import opened Tables

  datatype Paid = Paid(amount: nat, active: bool)

  datatype Doc = Doc(status: SaleStatus, total: nat, credit: bool, payments: seq<Paid>)

  datatype Job =
    | Quote(total: nat, credit: bool)
    | Requote(id: nat, total: nat, credit: bool)
    | CreateActive(total: nat, credit: bool)
    | Confirm(id: nat)
    | Cancel(id: nat)
    | Pay(id: nat, amount: nat)
    | Void(id: nat, k: nat)

  /** What a transaction has read so far. */
  datatype Seen =
    | Nothing
    | Status(status: SaleStatus)
    | OpenSales(ids: set<nat>, totals: int)
    | Outstanding(amount: int)
    | ActiveSum(amount: int)

  datatype Tx = Running(job: Job, docLocked: bool, clientLocked: bool, seen: Seen) | Ended

  datatype State = State(limit: nat, docs: seq<Doc>, txs: seq<Tx>)

  datatype Statement =
    | Begin(job: Job)
    | LockDoc(t: nat)
    | LockClient(t: nat)
    | ReadStatus(t: nat)
    | ReadOpenSales(t: nat)
    | ReadPaid(t: nat)
    | Commit(t: nat)
    | Abort(t: nat)

  function ActiveAmount(): Paid -> int
  {
    (p: Paid) => if p.active then p.amount else 0
  }

  function VoidedAmount(): Paid -> int
  {
    (p: Paid) => if p.active then 0 else p.amount
  }

  function PaidOn(d: Doc): int
  {
    SumOver(d.payments, ActiveAmount())
  }

  predicate IsOpen(d: Doc)
  {
    d.status.ACTIVE? && d.credit
  }

  function OpenBalance(): Doc -> int
  {
    (d: Doc) => if IsOpen(d) then d.total - PaidOn(d) else 0
  }

  /** What was voided on a credit sale; voiding anything else gives the client no slack. */
  function VoidedOn(): Doc -> int
  {
    (d: Doc) => if d.credit then SumOver(d.payments, VoidedAmount()) else 0
  }

  /** What the client owes on its open credit sales. */
  function Owed(docs: seq<Doc>): int
  {
    SumOver(docs, OpenBalance())
  }

  function Voided(docs: seq<Doc>): int
  {
    SumOver(docs, VoidedOn())
  }

  function OpenIds(docs: seq<Doc>): set<nat>
  {
    set i | 0 <= i < |docs| && IsOpen(docs[i])
  }

  function TotalIn(ids: set<nat>, docs: seq<Doc>): nat -> int
  {
    (i: nat) => if i in ids && i < |docs| then docs[i].total else 0
  }

  function PaidIn(ids: set<nat>, docs: seq<Doc>): nat -> int
  {
    (i: nat) => if i in ids && i < |docs| then PaidOn(docs[i]) else 0
  }

  function Target(job: Job): Option<nat>
  {
    match job
    case Quote(_, _) => None
    case CreateActive(_, _) => None
    case Requote(id, _, _) => Some(id)
    case Confirm(id) => Some(id)
    case Cancel(id) => Some(id)
    case Pay(id, _) => Some(id)
    case Void(_, _) => None
  }

  predicate HoldsDoc(tx: Tx, id: nat)
  {
    tx.Running? && tx.docLocked && Target(tx.job) == Some(id)
  }

  predicate HoldsClient(tx: Tx)
  {
    tx.Running? && tx.clientLocked
  }

  predicate Live(s: State, t: nat)
  {
    t < |s.txs| && s.txs[t].Running?
  }

  function With(s: State, t: nat, tx: Tx): State
    requires t < |s.txs|
  {
    s.(txs := s.txs[t := tx])
  }

  /** A statement that must wait, or is not the transaction's next one, changes nothing. */
  ghost function Next(s: State, st: Statement): State
  {
    match st
    case Begin(job) => s.(txs := s.txs + [Running(job, false, false, Nothing)])
    case LockDoc(t) => if Live(s, t) then AfterLockDoc(s, t) else s
    case LockClient(t) =>
      if Live(s, t) && !exists u: nat :: u < |s.txs| && HoldsClient(s.txs[u])
      then With(s, t, s.txs[t].(clientLocked := true)) else s
    case ReadStatus(t) => if Live(s, t) then AfterReadStatus(s, t) else s
    case ReadOpenSales(t) => if Live(s, t) then AfterReadOpenSales(s, t) else s
    case ReadPaid(t) => if Live(s, t) then AfterReadPaid(s, t) else s
    case Commit(t) => if Live(s, t) then AfterCommit(s, t) else s
    case Abort(t) => if Live(s, t) then With(s, t, Ended) else s
  }

  ghost function AfterLockDoc(s: State, t: nat): State
    requires Live(s, t)
  {
    var target := Target(s.txs[t].job);
    if target.None? then s
    else if target.value >= |s.docs| then With(s, t, Ended)
    else if exists u: nat :: u < |s.txs| && HoldsDoc(s.txs[u], target.value) then s
    else With(s, t, s.txs[t].(docLocked := true))
  }

  /** Which statuses the service goes on with. */
  predicate Accepts(job: Job, status: SaleStatus)
  {
    match job
    case Requote(_, _, _) => status.DRAFT?
    case Confirm(_) => status.DRAFT?
    case Cancel(_) => !status.CANCELLED?
    case Pay(_, _) => status.ACTIVE?
    case _ => false
  }

  /** The status under the row lock; for voiding, the payment's own status, under no lock at all. */
  function AfterReadStatus(s: State, t: nat): State
    requires Live(s, t)
  {
    var tx := s.txs[t];
    if tx.job.Void? then
      if tx.job.id < |s.docs| && tx.job.k < |s.docs[tx.job.id].payments| && s.docs[tx.job.id].payments[tx.job.k].active
      then With(s, t, tx.(seen := Status(s.docs[tx.job.id].status)))
      else With(s, t, Ended)
    else if Target(tx.job).None? || !tx.docLocked || !tx.seen.Nothing? || Target(tx.job).value >= |s.docs| then s
    else
      var status := s.docs[Target(tx.job).value].status;
      if Accepts(tx.job, status) then With(s, t, tx.(seen := Status(status))) else With(s, t, Ended)
  }

  /** The first query of the credit check: the client's other open credit sales. */
  function AfterReadOpenSales(s: State, t: nat): State
    requires Live(s, t)
  {
    var tx := s.txs[t];
    if tx.clientLocked && ((tx.job.CreateActive? && tx.seen.Nothing?) || (tx.job.Confirm? && tx.seen.Status?)) then
      var ids := OpenIds(s.docs);
      With(s, t, tx.(seen := OpenSales(ids, SumUpTo(|s.docs|, TotalIn(ids, s.docs)))))
    else s
  }

  /** The second query of the credit check, or the sum a payment or a cancellation looks at. */
  function AfterReadPaid(s: State, t: nat): State
    requires Live(s, t)
  {
    var tx := s.txs[t];
    if tx.seen.OpenSales? then
      With(s, t, tx.(seen := Outstanding(tx.seen.totals - SumUpTo(|s.docs|, PaidIn(tx.seen.ids, s.docs)))))
    else if (tx.job.Pay? || tx.job.Cancel?) && tx.seen.Status? && tx.seen.status.ACTIVE? && tx.job.id < |s.docs| then
      With(s, t, tx.(seen := ActiveSum(PaidOn(s.docs[tx.job.id]))))
    else s
  }

  /** Whether what it has read lets the transaction write and commit. */
  predicate Ready(s: State, tx: Tx)
    requires tx.Running?
  {
    match tx.job
    case Quote(_, _) => true
    case CreateActive(total, credit) => credit ==> tx.seen.Outstanding? && tx.seen.amount + total <= s.limit
    case Requote(id, _, _) => id < |s.docs| && tx.seen.Status?
    case Confirm(id) =>
      && id < |s.docs|
      && !tx.seen.Nothing?
      && (s.docs[id].credit ==> tx.seen.Outstanding? && tx.seen.amount + s.docs[id].total <= s.limit)
    case Cancel(id) =>
      id < |s.docs| && ((tx.seen.Status? && tx.seen.status.DRAFT?) || (tx.seen.ActiveSum? && tx.seen.amount <= 0))
    case Pay(id, amount) => id < |s.docs| && tx.seen.ActiveSum? && amount <= s.docs[id].total - tx.seen.amount
    case Void(id, k) => id < |s.docs| && k < |s.docs[id].payments| && tx.seen.Status?
  }

  function Written(docs: seq<Doc>, job: Job): seq<Doc>
    requires Target(job).Some? ==> Target(job).value < |docs|
    requires job.Void? ==> job.id < |docs| && job.k < |docs[job.id].payments|
  {
    match job
    case Quote(total, credit) => docs + [Doc(DRAFT, total, credit, [])]
    case CreateActive(total, credit) => docs + [Doc(SaleStatus.ACTIVE, total, credit, [])]
    case Requote(id, total, credit) => docs[id := docs[id].(total := total, credit := credit)]
    case Confirm(id) => docs[id := docs[id].(status := SaleStatus.ACTIVE)]
    case Cancel(id) => docs[id := docs[id].(status := SaleStatus.CANCELLED)]
    case Pay(id, amount) => docs[id := docs[id].(payments := docs[id].payments + [Paid(amount, true)])]
    case Void(id, k) => docs[id := VoidOne(docs[id], k)]
  }

  function VoidOne(d: Doc, k: nat): Doc
    requires k < |d.payments|
  {
    d.(payments := d.payments[k := d.payments[k].(active := false)])
  }

  function AfterCommit(s: State, t: nat): State
    requires Live(s, t)
  {
    var tx := s.txs[t];
    if Ready(s, tx) then State(s.limit, Written(s.docs, tx.job), s.txs[t := Ended]) else With(s, t, Ended)
  }

  ghost function Run(s: State, sts: seq<Statement>): State
  {
    if sts == [] then s else Next(Run(s, sts[..|sts| - 1]), sts[|sts| - 1])
  }

  // What holds between any two statements

  /** Payments never exceed an ACTIVE document, a CANCELLED one has none left and a DRAFT one never had any. */
  predicate DocOk(d: Doc)
  {
    match d.status
    case DRAFT => d.payments == []
    case ACTIVE => PaidOn(d) <= d.total
    case CANCELLED => PaidOn(d) == 0
  }

  ghost predicate MoneyOk(limit: nat, docs: seq<Doc>)
  {
    && (forall i :: 0 <= i < |docs| ==> DocOk(docs[i]))
    && Owed(docs) <= limit + Voided(docs)
  }

  /** The status read under the row lock is still the committed one, and the sum read can only have dropped. */
  predicate DocSeenOk(docs: seq<Doc>, tx: Tx)
    requires tx.Running?
  {
    Target(tx.job).Some? && !tx.seen.Nothing? ==>
      && tx.docLocked
      && Target(tx.job).value < |docs|
      && var d := docs[Target(tx.job).value];
         && Accepts(tx.job, d.status)
         && (tx.seen.Status? ==> d.status == tx.seen.status)
         && (tx.seen.ActiveSum? ==> d.status.ACTIVE? && PaidOn(d) <= tx.seen.amount)
  }

  /** Every credit sale open now was open when the client's sales were read, and no total has moved since. */
  ghost predicate OpenSeenOk(docs: seq<Doc>, ids: set<nat>, totals: int)
  {
    && OpenIds(docs) <= ids
    && (forall i :: i in ids ==> i < |docs| && docs[i].credit && !docs[i].status.DRAFT?)
    && totals == SumUpTo(|docs|, TotalIn(ids, docs))
  }

  ghost predicate ClientSeenOk(docs: seq<Doc>, tx: Tx)
    requires tx.Running?
  {
    && (tx.seen.OpenSales? || tx.seen.Outstanding? ==> tx.clientLocked && (tx.job.CreateActive? || tx.job.Confirm?))
    && (tx.seen.OpenSales? ==> OpenSeenOk(docs, tx.seen.ids, tx.seen.totals))
    && (tx.seen.Outstanding? ==> Owed(docs) <= tx.seen.amount + Voided(docs))
  }

  ghost predicate TxOk(docs: seq<Doc>, tx: Tx)
  {
    tx.Running? ==> DocSeenOk(docs, tx) && ClientSeenOk(docs, tx)
  }

  ghost predicate Exclusive(a: Tx, b: Tx)
  {
    && (forall id: nat :: !(HoldsDoc(a, id) && HoldsDoc(b, id)))
    && !(HoldsClient(a) && HoldsClient(b))
  }

  ghost predicate Inv(s: State)
  {
    && MoneyOk(s.limit, s.docs)
    && (forall t :: 0 <= t < |s.txs| ==> TxOk(s.docs, s.txs[t]))
    && (forall t, u :: 0 <= t < u < |s.txs| ==> Exclusive(s.txs[t], s.txs[u]))
  }

  /** What a commit may do while another transaction holds the client row. */
  ghost predicate Eases(docs: seq<Doc>, after: seq<Doc>)
  {
    && |docs| <= |after|
    && (forall i :: 0 <= i < |docs| && !docs[i].status.DRAFT? ==>
          !after[i].status.DRAFT? && after[i].total == docs[i].total && after[i].credit == docs[i].credit)
    && OpenIds(after) <= OpenIds(docs)
    && Owed(after) - Voided(after) <= Owed(docs) - Voided(docs)
  }

  lemma VoidOneSums(d: Doc, k: nat)
    requires k < |d.payments|
    ensures var p := d.payments[k];
            && PaidOn(VoidOne(d, k)) == PaidOn(d) - (if p.active then p.amount else 0)
            && VoidedOn()(VoidOne(d, k)) == VoidedOn()(d) + (if d.credit && p.active then p.amount else 0)
  {
    var p := d.payments[k];
    SumUpdate(d.payments, k, p.(active := false), ActiveAmount());
    SumUpdate(d.payments, k, p.(active := false), VoidedAmount());
  }

  lemma PaySums(d: Doc, amount: nat)
    ensures var after := d.(payments := d.payments + [Paid(amount, true)]);
            && PaidOn(after) == PaidOn(d) + amount
            && VoidedOn()(after) == VoidedOn()(d)
  {
    SumSnoc(d.payments, Paid(amount, true), ActiveAmount());
    SumSnoc(d.payments, Paid(amount, true), VoidedAmount());
  }

  /** How replacing one document moves what is owed and what has been voided. */
  lemma Replaced(docs: seq<Doc>, id: nat, d: Doc)
    requires id < |docs|
    ensures Owed(docs[id := d]) == Owed(docs) - OpenBalance()(docs[id]) + OpenBalance()(d)
    ensures Voided(docs[id := d]) == Voided(docs) - VoidedOn()(docs[id]) + VoidedOn()(d)
  {
    SumUpdate(docs, id, d, OpenBalance());
    SumUpdate(docs, id, d, VoidedOn());
  }

  lemma Added(docs: seq<Doc>, d: Doc)
    requires d.payments == []
    ensures Owed(docs + [d]) == Owed(docs) + (if IsOpen(d) then d.total else 0)
    ensures Voided(docs + [d]) == Voided(docs)
  {
    SumSnoc(docs, d, OpenBalance());
    SumSnoc(docs, d, VoidedOn());
  }

  /** The job turns a document into an open credit sale. */
  predicate OpensCredit(docs: seq<Doc>, job: Job)
  {
    match job
    case CreateActive(_, credit) => credit
    case Confirm(id) => id < |docs| && docs[id].credit
    case _ => false
  }

  lemma AppendEases(docs: seq<Doc>, d: Doc)
    requires d.payments == [] && !IsOpen(d)
    ensures Eases(docs, docs + [d])
  {
    Added(docs, d);
  }

  lemma ReplaceEases(docs: seq<Doc>, id: nat, d: Doc)
    requires id < |docs|
    requires !docs[id].status.DRAFT? ==> !d.status.DRAFT? && d.total == docs[id].total && d.credit == docs[id].credit
    requires IsOpen(d) ==> IsOpen(docs[id])
    requires OpenBalance()(d) - VoidedOn()(d) <= OpenBalance()(docs[id]) - VoidedOn()(docs[id])
    ensures Eases(docs, docs[id := d])
  {
    Replaced(docs, id, d);
  }

  lemma CommitEases(s: State, tx: Tx)
    requires tx.Running? && Ready(s, tx) && MoneyOk(s.limit, s.docs) && TxOk(s.docs, tx)
    requires !OpensCredit(s.docs, tx.job)
    ensures Eases(s.docs, Written(s.docs, tx.job))
  {
    match tx.job
    case Quote(total, credit) => AppendEases(s.docs, Doc(DRAFT, total, credit, []));
    case CreateActive(total, credit) => AppendEases(s.docs, Doc(SaleStatus.ACTIVE, total, credit, []));
    case Requote(id, total, credit) => ReplaceEases(s.docs, id, s.docs[id].(total := total, credit := credit));
    case Confirm(id) => ReplaceEases(s.docs, id, s.docs[id].(status := SaleStatus.ACTIVE));
    case Cancel(id) =>
      assert DocOk(s.docs[id]);
      ReplaceEases(s.docs, id, s.docs[id].(status := SaleStatus.CANCELLED));
    case Pay(id, amount) =>
      PaySums(s.docs[id], amount);
      ReplaceEases(s.docs, id, s.docs[id].(payments := s.docs[id].payments + [Paid(amount, true)]));
    case Void(id, k) =>
      VoidOneSums(s.docs[id], k);
      ReplaceEases(s.docs, id, VoidOne(s.docs[id], k));
  }

  lemma OpeningKeepsWithinLimit(s: State, tx: Tx)
    requires tx.Running? && Ready(s, tx) && MoneyOk(s.limit, s.docs) && TxOk(s.docs, tx)
    requires OpensCredit(s.docs, tx.job)
    ensures Owed(Written(s.docs, tx.job)) <= s.limit + Voided(Written(s.docs, tx.job))
  {
    match tx.job
    case CreateActive(total, credit) => Added(s.docs, Doc(SaleStatus.ACTIVE, total, credit, []));
    case Confirm(id) =>
      assert DocOk(s.docs[id]);
      Replaced(s.docs, id, s.docs[id].(status := SaleStatus.ACTIVE));
  }

  lemma PaymentsAreNonNegative(d: Doc)
    ensures PaidOn(d) >= 0
  {
    SumNonNegative(d.payments, ActiveAmount());
  }

  lemma CommitDocsOk(s: State, tx: Tx)
    requires tx.Running? && Ready(s, tx) && MoneyOk(s.limit, s.docs) && TxOk(s.docs, tx)
    ensures forall i :: 0 <= i < |Written(s.docs, tx.job)| ==> DocOk(Written(s.docs, tx.job)[i])
  {
    match tx.job
    case Pay(id, amount) => PaySums(s.docs[id], amount);
    case Void(id, k) =>
      VoidOneSums(s.docs[id], k);
      PaymentsAreNonNegative(VoidOne(s.docs[id], k));
      assert DocOk(s.docs[id]);
    case Cancel(id) =>
      PaymentsAreNonNegative(s.docs[id]);
      assert DocOk(s.docs[id]);
    case Quote(_, _) =>
    case CreateActive(_, _) =>
    case Requote(id, _, _) => assert DocOk(s.docs[id]);
    case Confirm(id) => assert DocOk(s.docs[id]);
  }

  lemma CommitMoneyOk(s: State, tx: Tx)
    requires tx.Running? && Ready(s, tx) && MoneyOk(s.limit, s.docs) && TxOk(s.docs, tx)
    ensures MoneyOk(s.limit, Written(s.docs, tx.job))
  {
    CommitDocsOk(s, tx);
    if OpensCredit(s.docs, tx.job) {
      OpeningKeepsWithinLimit(s, tx);
    } else {
      CommitEases(s, tx);
    }
  }

  lemma {:induction false} SumUpToLonger(n: nat, m: nat, f: nat -> int, g: nat -> int)
    requires n <= m
    requires forall i: nat :: i < n ==> f(i) == g(i)
    requires forall i: nat :: n <= i < m ==> g(i) == 0
    ensures SumUpTo(m, g) == SumUpTo(n, f)
  {
    if m == n {
      SumUpToSame(n, f, g);
    } else {
      SumUpToLonger(n, m - 1, f, g);
    }
  }

  lemma OpenSeenStays(docs: seq<Doc>, after: seq<Doc>, ids: set<nat>, totals: int)
    requires Eases(docs, after) && OpenSeenOk(docs, ids, totals)
    ensures OpenSeenOk(after, ids, totals)
  {
    SumUpToLonger(|docs|, |after|, TotalIn(ids, docs), TotalIn(ids, after));
  }

  /** A document somebody else has locked only sees its payments voided. */
  lemma LockedDocStays(s: State, tx: Tx, other: Tx, id: nat)
    requires tx.Running? && Ready(s, tx) && (Target(tx.job).Some? ==> tx.docLocked)
    requires HoldsDoc(other, id) && Exclusive(tx, other) && id < |s.docs|
    ensures var after := Written(s.docs, tx.job);
            && id < |after|
            && after[id].status == s.docs[id].status
            && PaidOn(after[id]) <= PaidOn(s.docs[id])
  {
    assert !HoldsDoc(tx, id);
    if tx.job.Void? && tx.job.id == id {
      VoidOneSums(s.docs[id], tx.job.k);
    }
  }

  lemma OthersUnaffected(s: State, tx: Tx, other: Tx)
    requires tx.Running? && Ready(s, tx) && MoneyOk(s.limit, s.docs)
    requires TxOk(s.docs, tx) && TxOk(s.docs, other) && Exclusive(tx, other)
    ensures TxOk(Written(s.docs, tx.job), other)
  {
    var after := Written(s.docs, tx.job);
    if other.Running? {
      if Target(other.job).Some? && !other.seen.Nothing? {
        assert HoldsDoc(other, Target(other.job).value);
        LockedDocStays(s, tx, other, Target(other.job).value);
      }
      if other.seen.OpenSales? || other.seen.Outstanding? {
        assert !HoldsClient(tx);
        assert !OpensCredit(s.docs, tx.job);
        CommitEases(s, tx);
        if other.seen.OpenSales? {
          OpenSeenStays(s.docs, after, other.seen.ids, other.seen.totals);
        }
      }
    }
  }

  lemma CommitInv(s: State, t: nat)
    requires Inv(s) && Live(s, t)
    ensures Inv(AfterCommit(s, t))
  {
    var tx, after := s.txs[t], AfterCommit(s, t);
    if Ready(s, tx) {
      CommitMoneyOk(s, tx);
      forall u | 0 <= u < |s.txs| ensures TxOk(after.docs, after.txs[u]) {
        if u != t {
          PairExclusive(s, t, u);
          OthersUnaffected(s, tx, s.txs[u]);
        }
      }
      forall u, v | 0 <= u < v < |s.txs| ensures Exclusive(after.txs[u], after.txs[v]) {
        assert Exclusive(s.txs[u], s.txs[v]);
      }
    } else {
      TxChanged(s, t, Ended);
    }
  }

  lemma PairExclusive(s: State, t: nat, u: nat)
    requires Inv(s) && t < |s.txs| && u < |s.txs| && t != u
    ensures Exclusive(s.txs[t], s.txs[u])
  {
    if u < t {
      assert Exclusive(s.txs[u], s.txs[t]);
    }
  }

  lemma TxChanged(s: State, t: nat, tx: Tx)
    requires Inv(s) && t < |s.txs| && TxOk(s.docs, tx)
    requires forall u: nat :: u < |s.txs| && u != t ==> Exclusive(tx, s.txs[u])
    ensures Inv(With(s, t, tx))
  {
    forall u, v | 0 <= u < v < |s.txs| ensures Exclusive(With(s, t, tx).txs[u], With(s, t, tx).txs[v]) {
      assert Exclusive(s.txs[u], s.txs[v]);
    }
  }

  /** A transaction that only reads keeps its locks, and so stays apart from the others. */
  lemma ReadKeeps(s: State, t: nat, seen: Seen)
    requires Inv(s) && Live(s, t) && TxOk(s.docs, s.txs[t].(seen := seen))
    ensures Inv(With(s, t, s.txs[t].(seen := seen)))
  {
    var tx := s.txs[t].(seen := seen);
    forall u: nat | u < |s.txs| && u != t ensures Exclusive(tx, s.txs[u]) {
      PairExclusive(s, t, u);
      assert forall id: nat :: HoldsDoc(tx, id) <==> HoldsDoc(s.txs[t], id);
    }
    TxChanged(s, t, tx);
  }

  lemma LockInv(s: State, t: nat, tx: Tx)
    requires Inv(s) && Live(s, t)
    requires tx == s.txs[t].(docLocked := true) || tx == s.txs[t].(clientLocked := true)
    requires tx.docLocked && !s.txs[t].docLocked && Target(tx.job).Some? ==>
               forall u: nat :: u < |s.txs| ==> !HoldsDoc(s.txs[u], Target(tx.job).value)
    requires tx.clientLocked && !s.txs[t].clientLocked ==> forall u: nat :: u < |s.txs| ==> !HoldsClient(s.txs[u])
    ensures Inv(With(s, t, tx))
  {
    forall u: nat | u < |s.txs| && u != t ensures Exclusive(tx, s.txs[u]) {
      PairExclusive(s, t, u);
      forall id: nat ensures !(HoldsDoc(tx, id) && HoldsDoc(s.txs[u], id)) {
        assert !(HoldsDoc(s.txs[t], id) && HoldsDoc(s.txs[u], id));
      }
    }
    assert TxOk(s.docs, s.txs[t]);
    TxChanged(s, t, tx);
  }

  lemma LockDocInv(s: State, t: nat)
    requires Inv(s) && Live(s, t)
    ensures Inv(AfterLockDoc(s, t))
  {
    var after := AfterLockDoc(s, t);
    if after == With(s, t, Ended) {
      TxChanged(s, t, Ended);
    } else if after != s {
      LockInv(s, t, s.txs[t].(docLocked := true));
    }
  }

  /** What the second query subtracts leaves no less than what is owed now: a sale cancelled meanwhile counts too much. */
  lemma RoomIsSafe(docs: seq<Doc>, ids: set<nat>, totals: int)
    requires OpenSeenOk(docs, ids, totals) && forall i :: 0 <= i < |docs| ==> DocOk(docs[i])
    ensures Owed(docs) <= totals - SumUpTo(|docs|, PaidIn(ids, docs))
  {
    SumByPosition(docs, OpenBalance());
    forall i: nat | i < |docs|
      ensures ByPosition(docs, OpenBalance())(i) <= TotalIn(ids, docs)(i) - PaidIn(ids, docs)(i)
    {
      assert DocOk(docs[i]);
      if IsOpen(docs[i]) {
        assert i in OpenIds(docs);
      }
    }
    SumUpToBelow(|docs|, ByPosition(docs, OpenBalance()), TotalIn(ids, docs), PaidIn(ids, docs));
  }

  lemma {:induction false} SumUpToBelow(n: nat, f: nat -> int, g: nat -> int, h: nat -> int)
    requires forall i: nat :: i < n ==> f(i) <= g(i) - h(i)
    ensures SumUpTo(n, f) <= SumUpTo(n, g) - SumUpTo(n, h)
  {
    if n > 0 {
      SumUpToBelow(n - 1, f, g, h);
    }
  }

  lemma VoidedIsNonNegative(docs: seq<Doc>)
    ensures Voided(docs) >= 0
  {
    forall i | 0 <= i < |docs| ensures VoidedOn()(docs[i]) >= 0 {
      SumNonNegative(docs[i].payments, VoidedAmount());
    }
    SumNonNegative(docs, VoidedOn());
  }

  lemma ReadStatusInv(s: State, t: nat)
    requires Inv(s) && Live(s, t)
    ensures Inv(AfterReadStatus(s, t))
  {
    var after := AfterReadStatus(s, t);
    if after == With(s, t, Ended) {
      TxChanged(s, t, Ended);
    } else if after != s {
      assert TxOk(s.docs, s.txs[t]);
      ReadKeeps(s, t, after.txs[t].seen);
    }
  }

  lemma ReadOpenSalesInv(s: State, t: nat)
    requires Inv(s) && Live(s, t)
    ensures Inv(AfterReadOpenSales(s, t))
  {
    var after := AfterReadOpenSales(s, t);
    if after != s {
      assert TxOk(s.docs, s.txs[t]);
      ReadKeeps(s, t, after.txs[t].seen);
    }
  }

  lemma ReadPaidInv(s: State, t: nat)
    requires Inv(s) && Live(s, t)
    ensures Inv(AfterReadPaid(s, t))
  {
    var tx, after := s.txs[t], AfterReadPaid(s, t);
    if after != s {
      assert TxOk(s.docs, tx);
      if tx.seen.OpenSales? {
        RoomIsSafe(s.docs, tx.seen.ids, tx.seen.totals);
        VoidedIsNonNegative(s.docs);
      }
      ReadKeeps(s, t, after.txs[t].seen);
    }
  }

  lemma NextInv(s: State, st: Statement)
    requires Inv(s)
    ensures Inv(Next(s, st))
  {
    match st
    case Begin(job) => assert forall id: nat :: !HoldsDoc(Running(job, false, false, Nothing), id);
    case LockDoc(t) => if Live(s, t) { LockDocInv(s, t); }
    case LockClient(t) => if Next(s, st) != s { LockInv(s, t, s.txs[t].(clientLocked := true)); }
    case ReadStatus(t) => if Live(s, t) { ReadStatusInv(s, t); }
    case ReadOpenSales(t) => if Live(s, t) { ReadOpenSalesInv(s, t); }
    case ReadPaid(t) => if Live(s, t) { ReadPaidInv(s, t); }
    case Commit(t) => if Live(s, t) { CommitInv(s, t); }
    case Abort(t) => if Live(s, t) { TxChanged(s, t, Ended); }
  }

  lemma {:induction false} RunInv(s: State, sts: seq<Statement>)
    requires Inv(s)
    ensures Inv(Run(s, sts))
  {
    if sts != [] {
      RunInv(s, sts[..|sts| - 1]);
      NextInv(Run(s, sts[..|sts| - 1]), sts[|sts| - 1]);
    }
  }

  /**
   However payments, voidings, confirmations and cancellations interleave, the
   active payments of an ACTIVE document never exceed its total, those of any
   other document add up to zero, and what the client owes on open credit
   sales never exceeds its limit plus all that was voided on credit sales.
   */
  lemma RacesKeepMoneyOk(limit: nat, sts: seq<Statement>)
    ensures MoneyOk(limit, Run(State(limit, [], []), sts).docs)
  {
    RunInv(State(limit, [], []), sts);
    RunKeepsLimit(State(limit, [], []), sts);
  }

  lemma {:induction false} RunKeepsLimit(s: State, sts: seq<Statement>)
    ensures Run(s, sts).limit == s.limit
  {
    if sts != [] {
      RunKeepsLimit(s, sts[..|sts| - 1]);
    }
  }
}
