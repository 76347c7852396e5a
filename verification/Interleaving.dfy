/**
 Any number of transactions running at once, one SQL statement at a time: row
 locks held until the transaction ends, READ COMMITTED reads, and an abort
 that drops everything pending.
 */
module Interleaving {
  import opened Seqs
  import opened Wrappers
  import opened Jobs

  /** `moves` is None until the status has been read; `done` of them have been executed and are pending. */
  datatype Tx =
    | Running(job: Job, locked: bool, moves: Option<seq<Move>>, done: nat)
    | Ended

  /** `committed` lists the jobs that took effect, in that order. */
  datatype State = State(rows: Rows, txs: seq<Tx>, committed: seq<Job>)

  datatype Statement =
    | Begin(job: Job)
    | Lock(t: nat)
    | Read(t: nat)
    | Check(t: nat)
    | Update(t: nat)
    | Commit(t: nat)
    | Abort(t: nat)
    | SetNow(item: nat, quantity: nat)

  function Target(job: Job): Option<nat>
  {
    match job
    case Create(_, _, _) => None
    case Act(id, _) => Some(id)
    case Edit(id, _) => Some(id)
    case SetStatus(id) => Some(id)
    case SetQuantity(_, _) => None
  }

  /** SELECT ... FOR UPDATE comes before the status is read. */
  predicate LocksFirst(job: Job)
  {
    job.Act? || job.Edit?
  }

  predicate HoldsDoc(tx: Tx, id: nat)
  {
    tx.Running? && tx.locked && Target(tx.job) == Some(id)
  }

  /** An updated row stays locked until the transaction ends. */
  ghost predicate HoldsItem(tx: Tx, item: nat)
  {
    tx.Running? && tx.moves.Some? && exists k :: 0 <= k < tx.done && k < |tx.moves.value| && tx.moves.value[k].item == item
  }

  /** What a transaction has written to a row and not yet committed. */
  function Pending(tx: Tx, item: nat): int
  {
    if tx.Running? && tx.moves.Some? && tx.done <= |tx.moves.value| then Delta(tx.moves.value[..tx.done], item) else 0
  }

  predicate Live(s: State, t: nat)
  {
    t < |s.txs| && s.txs[t].Running?
  }

  /** The read that decides: the unlocked jobs also want the status they start from. */
  function Decide(docs: seq<Doc>, job: Job): Option<seq<Move>>
  {
    if job.SetStatus? && job.id < |docs| && UnlockedFrom(docs[job.id].kind) != Some(docs[job.id].status) then None
    else Moves(docs, job)
  }

  /** The unlocked look at the stock, each line on its own, before any row is updated. */
  predicate LooksShort(qty: seq<int>, moves: seq<Move>)
  {
    exists k :: 0 <= k < |moves| && moves[k].delta < 0
                && (moves[k].item >= |qty| || qty[moves[k].item] + moves[k].delta < 0)
  }

  function With(s: State, t: nat, tx: Tx): State
    requires t < |s.txs|
  {
    s.(txs := s.txs[t := tx])
  }

  /** The state after a statement; one that must wait for a lock, or makes no sense, changes nothing. */
  ghost function Next(s: State, st: Statement): State
  {
    match st
    case Begin(job) => s.(txs := s.txs + [Running(job, false, None, 0)])
    case Lock(t) => if Live(s, t) then AfterLock(s, t) else s
    case Read(t) => if Live(s, t) then AfterRead(s, t) else s
    case Check(t) =>
      if Live(s, t) && s.txs[t].moves.Some? && LooksShort(s.rows.qty, s.txs[t].moves.value) then With(s, t, Ended) else s
    case Update(t) => if Live(s, t) && s.txs[t].moves.Some? then AfterUpdate(s, t) else s
    case Commit(t) => if Live(s, t) && s.txs[t].moves.Some? then AfterCommit(s, t) else s
    case Abort(t) => if Live(s, t) then With(s, t, Ended) else s
    case SetNow(item, quantity) =>
      var after := Atomically(s.rows, SetQuantity(item, quantity));
      if after.None? || exists u: nat :: u < |s.txs| && HoldsItem(s.txs[u], item) then s
      else s.(rows := after.value, committed := s.committed + [SetQuantity(item, quantity)])
  }

  /** Waits for whoever holds the row; a row that does not exist locks nothing and is then not found. */
  ghost function AfterLock(s: State, t: nat): State
    requires Live(s, t)
  {
    var tx := s.txs[t];
    var target := Target(tx.job);
    if target.None? || tx.locked then s
    else if target.value >= |s.rows.docs| then With(s, t, Ended)
    else if exists u: nat :: u < |s.txs| && HoldsDoc(s.txs[u], target.value) then s
    else With(s, t, tx.(locked := true))
  }

  ghost function AfterRead(s: State, t: nat): State
    requires Live(s, t)
  {
    var tx := s.txs[t];
    if tx.moves.Some? || (LocksFirst(tx.job) && !tx.locked) then s
    else if Decide(s.rows.docs, tx.job).None? then With(s, t, Ended)
    else With(s, t, tx.(moves := Decide(s.rows.docs, tx.job)))
  }

  /** UPDATE of one row: waits for its lock, then re-evaluates its guard on the row as it is by then. */
  ghost function AfterUpdate(s: State, t: nat): State
    requires Live(s, t) && s.txs[t].moves.Some?
  {
    var tx := s.txs[t];
    if tx.done >= |tx.moves.value| then s
    else
      var move := tx.moves.value[tx.done];
      if exists u: nat :: u < |s.txs| && u != t && HoldsItem(s.txs[u], move.item) then s
      else if move.item >= |s.rows.qty| then With(s, t, Ended)
      else if move.delta < 0 && s.rows.qty[move.item] + Pending(tx, move.item) + move.delta < 0 then With(s, t, Ended)
      else With(s, t, tx.(done := tx.done + 1))
  }

  /**
   All updates done and the document row locked, the writes become visible at
   once. That the moves are still the ones the document calls for never fails
   (see TxOk); it is asked only so that Filed applies.
   */
  ghost function AfterCommit(s: State, t: nat): State
    requires Live(s, t) && s.txs[t].moves.Some?
  {
    var tx := s.txs[t];
    if tx.done < |tx.moves.value| || (Target(tx.job).Some? && !tx.locked) || Moves(s.rows.docs, tx.job).None? then s
    else
      State(
        s.rows.(qty := Updated(s.rows.qty, tx.moves.value), docs := Filed(s.rows.docs, tx.job)),
        s.txs[t := Ended],
        s.committed + [tx.job])
  }

  ghost function Run(s: State, sts: seq<Statement>): State
  {
    if sts == [] then s else Next(Run(s, sts[..|sts| - 1]), sts[|sts| - 1])
  }

  lemma RunSnoc(s: State, sts: seq<Statement>, st: Statement)
    ensures Run(s, sts + [st]) == Next(Run(s, sts), st)
  {
    assert (sts + [st])[..|sts|] == sts;
  }

  function Start(rows: Rows): State
  {
    State(rows, [], [])
  }

  // What holds between any two statements

  /** What a transaction has read and pending still fits the committed rows. */
  ghost predicate TxOk(rows: Rows, tx: Tx)
  {
    && (tx.Running? && tx.moves.None? ==> tx.done == 0)
    && (tx.Running? && tx.moves.Some? ==>
      && tx.done <= |tx.moves.value|
      && (LocksFirst(tx.job) ==> tx.locked)
      && Moves(rows.docs, tx.job) == tx.moves
      && (forall k: nat :: k < tx.done ==> Allowed(rows.qty, tx.moves.value, k)))
  }

  ghost predicate Exclusive(a: Tx, b: Tx)
  {
    && (forall id: nat :: !(HoldsDoc(a, id) && HoldsDoc(b, id)))
    && (forall item: nat :: !(HoldsItem(a, item) && HoldsItem(b, item)))
  }

  ghost predicate Inv(start: Rows, s: State)
  {
    && Serially(start, s.committed) == Some(s.rows)
    && (forall t :: 0 <= t < |s.txs| ==> TxOk(s.rows, s.txs[t]))
    && (forall t, u :: 0 <= t < u < |s.txs| ==> Exclusive(s.txs[t], s.txs[u]))
  }

  lemma SeriallySnoc(rows: Rows, jobs: seq<Job>, job: Job)
    requires Serially(rows, jobs).Some?
    ensures Serially(rows, jobs + [job]) == Atomically(Serially(rows, jobs).value, job)
  {
    assert (jobs + [job])[..|jobs|] == jobs;
  }

  /** A transaction may change as long as it keeps to itself. */
  lemma TxChanged(start: Rows, s: State, t: nat, tx: Tx)
    requires Inv(start, s) && t < |s.txs| && TxOk(s.rows, tx)
    requires forall u: nat :: u < |s.txs| && u != t ==> Exclusive(tx, s.txs[u])
    ensures Inv(start, With(s, t, tx))
  {
    forall u, v | 0 <= u < v < |s.txs| ensures Exclusive(With(s, t, tx).txs[u], With(s, t, tx).txs[v]) {
      assert Exclusive(s.txs[u], s.txs[v]);
    }
  }

  lemma EndedIsFree(start: Rows, s: State, t: nat)
    requires Inv(start, s) && t < |s.txs|
    ensures Inv(start, With(s, t, Ended))
  {
    TxChanged(start, s, t, Ended);
  }

  lemma PairExclusive(start: Rows, s: State, t: nat, u: nat)
    requires Inv(start, s) && t < |s.txs| && u < |s.txs| && t != u
    ensures Exclusive(s.txs[t], s.txs[u])
  {
    if u < t {
      assert Exclusive(s.txs[u], s.txs[t]);
    }
  }

  lemma LockInv(start: Rows, s: State, t: nat)
    requires Inv(start, s) && Live(s, t)
    ensures Inv(start, AfterLock(s, t))
  {
    var tx := s.txs[t];
    var after := AfterLock(s, t);
    if after != s {
      if after == With(s, t, Ended) {
        EndedIsFree(start, s, t);
      } else {
        var locked := tx.(locked := true);
        assert TxOk(s.rows, tx);
        forall u: nat | u < |s.txs| && u != t ensures Exclusive(locked, s.txs[u]) {
          PairExclusive(start, s, t, u);
          assert !HoldsDoc(s.txs[u], Target(tx.job).value);
          assert forall item: nat :: HoldsItem(locked, item) <==> HoldsItem(tx, item);
        }
        TxChanged(start, s, t, locked);
      }
    }
  }

  lemma ReadInv(start: Rows, s: State, t: nat)
    requires Inv(start, s) && Live(s, t)
    ensures Inv(start, AfterRead(s, t))
  {
    var tx := s.txs[t];
    if AfterRead(s, t) == With(s, t, Ended) {
      EndedIsFree(start, s, t);
    } else if AfterRead(s, t) != s {
      var read := tx.(moves := Decide(s.rows.docs, tx.job));
      forall u: nat | u < |s.txs| && u != t ensures Exclusive(read, s.txs[u]) {
        PairExclusive(start, s, t, u);
        assert forall id: nat :: HoldsDoc(read, id) <==> HoldsDoc(tx, id);
      }
      TxChanged(start, s, t, read);
    }
  }

  lemma UpdateInv(start: Rows, s: State, t: nat)
    requires Inv(start, s) && Live(s, t) && s.txs[t].moves.Some?
    ensures Inv(start, AfterUpdate(s, t))
  {
    var tx := s.txs[t];
    if AfterUpdate(s, t) == With(s, t, Ended) {
      EndedIsFree(start, s, t);
    } else if AfterUpdate(s, t) != s {
      var moves, move := tx.moves.value, tx.moves.value[tx.done];
      var updated := tx.(done := tx.done + 1);
      assert moves[..tx.done + 1][..tx.done] == moves[..tx.done];
      assert Delta(moves[..tx.done + 1], move.item) == Pending(tx, move.item) + move.delta;
      assert TxOk(s.rows, updated);
      forall u: nat | u < |s.txs| && u != t ensures Exclusive(updated, s.txs[u]) {
        PairExclusive(start, s, t, u);
        assert forall id: nat :: HoldsDoc(updated, id) <==> HoldsDoc(tx, id);
        forall item: nat ensures !(HoldsItem(updated, item) && HoldsItem(s.txs[u], item)) {
          if item != move.item && HoldsItem(updated, item) {
            assert HoldsItem(tx, item);
          }
        }
      }
      TxChanged(start, s, t, updated);
    }
  }

  /** Whatever another transaction commits, the document this one has locked and the rows it has updated stay. */
  lemma OthersUnaffected(rows: Rows, tx: Tx, other: Tx)
    requires TxOk(rows, tx) && TxOk(rows, other) && Exclusive(tx, other)
    requires tx.Running? && tx.moves.Some? && tx.done == |tx.moves.value|
    requires Target(tx.job).Some? ==> tx.locked
    ensures TxOk(rows.(qty := Updated(rows.qty, tx.moves.value), docs := Filed(rows.docs, tx.job)), other)
  {
    var after := rows.(qty := Updated(rows.qty, tx.moves.value), docs := Filed(rows.docs, tx.job));
    if other.Running? && other.moves.Some? {
      assert Moves(after.docs, other.job) == other.moves by {
        DocsUnaffected(rows, tx, other);
      }
      forall k: nat | k < other.done ensures Allowed(after.qty, other.moves.value, k) {
        var item := other.moves.value[k].item;
        assert Allowed(rows.qty, other.moves.value, k);
        assert HoldsItem(other, item);
        NotHeldNotMoved(tx, item);
      }
    }
  }

  lemma DocsUnaffected(rows: Rows, tx: Tx, other: Tx)
    requires TxOk(rows, tx) && TxOk(rows, other) && Exclusive(tx, other)
    requires tx.Running? && tx.moves.Some? && (Target(tx.job).Some? ==> tx.locked)
    requires other.Running? && other.moves.Some?
    ensures Moves(Filed(rows.docs, tx.job), other.job) == other.moves
  {
    if LocksFirst(other.job) {
      var id := Target(other.job).value;
      assert HoldsDoc(other, id) && !HoldsDoc(tx, id);
      assert Filed(rows.docs, tx.job)[id] == rows.docs[id];
    }
  }

  lemma NotHeldNotMoved(tx: Tx, item: nat)
    requires tx.Running? && tx.moves.Some? && tx.done == |tx.moves.value| && !HoldsItem(tx, item)
    ensures Delta(tx.moves.value, item) == 0
  {
    SumZero(tx.moves.value, DeltaAt(item));
  }

  lemma CommitInv(start: Rows, s: State, t: nat)
    requires Inv(start, s) && Live(s, t) && s.txs[t].moves.Some?
    ensures Inv(start, AfterCommit(s, t))
  {
    var tx, after := s.txs[t], AfterCommit(s, t);
    if after != s {
      assert TxOk(s.rows, tx);
      SeriallySnoc(start, s.committed, tx.job);
      assert Atomically(s.rows, tx.job) == Some(after.rows);
      forall u | 0 <= u < |s.txs| ensures TxOk(after.rows, after.txs[u]) {
        if u != t {
          PairExclusive(start, s, t, u);
          OthersUnaffected(s.rows, tx, s.txs[u]);
        }
      }
      forall u, v | 0 <= u < v < |s.txs| ensures Exclusive(after.txs[u], after.txs[v]) {
        assert Exclusive(s.txs[u], s.txs[v]);
      }
    }
  }

  lemma SetNowInv(start: Rows, s: State, item: nat, quantity: nat)
    requires Inv(start, s)
    ensures Inv(start, Next(s, SetNow(item, quantity)))
  {
    var after := Next(s, SetNow(item, quantity));
    if after != s {
      SeriallySnoc(start, s.committed, SetQuantity(item, quantity));
      forall t: nat | t < |s.txs| ensures TxOk(after.rows, s.txs[t]) {
        var tx := s.txs[t];
        if tx.Running? && tx.moves.Some? {
          forall k: nat | k < tx.done ensures Allowed(after.rows.qty, tx.moves.value, k) {
            assert Allowed(s.rows.qty, tx.moves.value, k);
            assert HoldsItem(tx, tx.moves.value[k].item);
          }
        }
      }
    }
  }

  lemma NextInv(start: Rows, s: State, st: Statement)
    requires Inv(start, s)
    ensures Inv(start, Next(s, st))
  {
    match st
    case Begin(job) =>
      assert forall id: nat :: !HoldsDoc(Running(job, false, None, 0), id);
    case Lock(t) => if Live(s, t) { LockInv(start, s, t); }
    case Read(t) => if Live(s, t) { ReadInv(start, s, t); }
    case Check(t) => if Live(s, t) { EndedIsFree(start, s, t); }
    case Update(t) => if Live(s, t) && s.txs[t].moves.Some? { UpdateInv(start, s, t); }
    case Commit(t) => if Live(s, t) && s.txs[t].moves.Some? { CommitInv(start, s, t); }
    case Abort(t) => if Live(s, t) { EndedIsFree(start, s, t); }
    case SetNow(item, quantity) => SetNowInv(start, s, item, quantity);
  }

  lemma {:induction false} RunInv(start: Rows, sts: seq<Statement>)
    ensures Inv(start, Run(Start(start), sts))
  {
    if sts != [] {
      RunInv(start, sts[..|sts| - 1]);
      NextInv(start, Run(Start(start), sts[..|sts| - 1]), sts[|sts| - 1]);
    }
  }

  /**
   However the statements of any number of transactions interleave, the
   committed rows are exactly what the committed jobs give when run one at a
   time, in the order they committed, with none of them refused.
   */
  lemma RunIsSerial(start: Rows, sts: seq<Statement>)
    ensures var s := Run(Start(start), sts);
            Serially(start, s.committed) == Some(s.rows)
  {
    RunInv(start, sts);
  }

  /**
   In any interleaving: no committed quantity is negative, nor is one as any
   running transaction sees it with its own pending updates; each quantity is
   what was entered plus what the documents' statuses say; the lines of a
   document are applied at most once; and no discharge has two outflows.
   */
  lemma RunIsGood(start: Rows, sts: seq<Statement>)
    requires Good(start)
    ensures var s := Run(Start(start), sts);
            && Good(s.rows)
            && forall t: nat, i: nat :: t < |s.txs| && i < |s.rows.qty| ==> s.rows.qty[i] + Pending(s.txs[t], i) >= 0
  {
    var s := Run(Start(start), sts);
    RunInv(start, sts);
    SeriallyGood(start, s.committed);
    forall t: nat, i: nat | t < |s.txs| && i < |s.rows.qty| ensures s.rows.qty[i] + Pending(s.txs[t], i) >= 0 {
      var tx := s.txs[t];
      assert TxOk(s.rows, tx);
      if tx.Running? && tx.moves.Some? {
        AllowedStaysUp(s.rows.qty, tx.moves.value, tx.done, i);
      }
    }
  }
}
