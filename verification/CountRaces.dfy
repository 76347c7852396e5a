/**
 Stock takes opened at the same time, one SQL statement at a time. Creation
 locks the warehouse row before it looks for an open stock take there.
 */
module CountRaces {
  datatype Take = Take(warehouse: string, open: bool)

  /** `clear`: has found no open stock take in its warehouse. */
  datatype Tx = Opening(warehouse: string, locked: bool, clear: bool) | Ended

  datatype State = State(takes: seq<Take>, txs: seq<Tx>)

  /** Close is a completion or a cancellation, which locks the stock take's own row only. */
  datatype Statement =
    | Begin(warehouse: string)
    | LockWarehouse(t: nat)
    | LookForOpen(t: nat)
    | InsertAndCommit(t: nat)
    | Abort(t: nat)
    | Close(k: nat)

  predicate Holds(tx: Tx, warehouse: string)
  {
    tx.Opening? && tx.locked && tx.warehouse == warehouse
  }

  predicate OpenIn(takes: seq<Take>, warehouse: string)
  {
    exists k :: 0 <= k < |takes| && takes[k].open && takes[k].warehouse == warehouse
  }

  predicate Live(s: State, t: nat)
  {
    t < |s.txs| && s.txs[t].Opening?
  }

  function With(s: State, t: nat, tx: Tx): State
    requires t < |s.txs|
  {
    s.(txs := s.txs[t := tx])
  }

  /** A statement that must wait, or is not the transaction's next one, changes nothing. */
  function Next(s: State, st: Statement): State
  {
    match st
    case Begin(warehouse) => s.(txs := s.txs + [Opening(warehouse, false, false)])
    case LockWarehouse(t) =>
      if Live(s, t) && !exists u :: 0 <= u < |s.txs| && Holds(s.txs[u], s.txs[t].warehouse)
      then With(s, t, s.txs[t].(locked := true)) else s
    case LookForOpen(t) =>
      if !Live(s, t) || !s.txs[t].locked then s
      else if OpenIn(s.takes, s.txs[t].warehouse) then With(s, t, Ended)
      else With(s, t, s.txs[t].(clear := true))
    case InsertAndCommit(t) =>
      if Live(s, t) && s.txs[t].clear
      then State(s.takes + [Take(s.txs[t].warehouse, true)], s.txs[t := Ended]) else s
    case Abort(t) => if Live(s, t) then With(s, t, Ended) else s
    case Close(k) => if k < |s.takes| then s.(takes := s.takes[k := s.takes[k].(open := false)]) else s
  }

  function Run(s: State, sts: seq<Statement>): State
  {
    if sts == [] then s else Next(Run(s, sts[..|sts| - 1]), sts[|sts| - 1])
  }

  ghost predicate AtMostOneOpen(takes: seq<Take>)
  {
    forall j, k :: 0 <= j < k < |takes| && takes[j].open && takes[k].open ==> takes[j].warehouse != takes[k].warehouse
  }

  /** What a transaction found still holds for as long as it keeps the warehouse locked. */
  predicate TxOk(takes: seq<Take>, tx: Tx)
  {
    tx.Opening? && tx.clear ==> tx.locked && !OpenIn(takes, tx.warehouse)
  }

  predicate Exclusive(a: Tx, b: Tx)
  {
    a.Opening? && a.locked ==> !Holds(b, a.warehouse)
  }

  ghost predicate Inv(s: State)
  {
    && AtMostOneOpen(s.takes)
    && (forall t :: 0 <= t < |s.txs| ==> TxOk(s.takes, s.txs[t]))
    && (forall t, u :: 0 <= t < |s.txs| && 0 <= u < |s.txs| && t != u ==> Exclusive(s.txs[t], s.txs[u]))
  }

  lemma TxChanged(s: State, t: nat, tx: Tx)
    requires Inv(s) && t < |s.txs| && TxOk(s.takes, tx)
    requires forall u :: 0 <= u < |s.txs| && u != t ==> Exclusive(tx, s.txs[u]) && Exclusive(s.txs[u], tx)
    ensures Inv(With(s, t, tx))
  {
  }

  lemma InsertInv(s: State, t: nat)
    requires Inv(s) && Live(s, t) && s.txs[t].clear
    ensures Inv(Next(s, InsertAndCommit(t)))
  {
    var w, after := s.txs[t].warehouse, Next(s, InsertAndCommit(t));
    assert TxOk(s.takes, s.txs[t]);
    forall j | 0 <= j < |s.takes| && s.takes[j].open ensures s.takes[j].warehouse != w {
    }
    forall u | 0 <= u < |s.txs| && u != t ensures TxOk(after.takes, s.txs[u]) {
      assert Exclusive(s.txs[t], s.txs[u]) && TxOk(s.takes, s.txs[u]);
      if s.txs[u].Opening? && s.txs[u].clear {
        forall k | 0 <= k < |after.takes| && after.takes[k].open ensures after.takes[k].warehouse != s.txs[u].warehouse {
          assert k < |s.takes| ==> after.takes[k] == s.takes[k];
        }
      }
    }
  }

  lemma CloseInv(s: State, k: nat)
    requires Inv(s)
    ensures Inv(Next(s, Close(k)))
  {
    if k < |s.takes| {
      var after := Next(s, Close(k));
      forall t | 0 <= t < |s.txs| ensures TxOk(after.takes, s.txs[t]) {
        assert TxOk(s.takes, s.txs[t]);
        assert forall j :: 0 <= j < |after.takes| && after.takes[j].open ==> after.takes[j] == s.takes[j];
      }
    }
  }

  lemma NextInv(s: State, st: Statement)
    requires Inv(s)
    ensures Inv(Next(s, st))
  {
    match st
    case Begin(_) =>
    case LockWarehouse(t) =>
      if Next(s, st) != s {
        assert TxOk(s.takes, s.txs[t]);
        TxChanged(s, t, s.txs[t].(locked := true));
      }
    case LookForOpen(t) =>
      if Next(s, st) != s {
        TxChanged(s, t, Next(s, st).txs[t]);
      }
    case InsertAndCommit(t) => if Live(s, t) && s.txs[t].clear { InsertInv(s, t); }
    case Abort(t) => if Live(s, t) { TxChanged(s, t, Ended); }
    case Close(k) => CloseInv(s, k);
  }

  /** However creations interleave with each other and with completions, no warehouse has two open stock takes. */
  lemma OneOpenInAnyInterleaving(sts: seq<Statement>)
    ensures AtMostOneOpen(Run(State([], []), sts).takes)
  {
    RunInv(sts);
  }

  lemma {:induction false} RunInv(sts: seq<Statement>)
    ensures Inv(Run(State([], []), sts))
  {
    if sts != [] {
      RunInv(sts[..|sts| - 1]);
      NextInv(Run(State([], []), sts[..|sts| - 1]), sts[|sts| - 1]);
    }
  }

  /** One creation with nobody holding the warehouse, from its begin to its end. */
  function Alone(s: State, warehouse: string): State
  {
    var t := |s.txs|;
    Next(Next(Next(Next(s, Begin(warehouse)), LockWarehouse(t)), LookForOpen(t)), InsertAndCommit(t))
  }

  /** It opens a stock take exactly when the warehouse has none open; and closing one closes that one. */
  lemma AloneIff(s: State, warehouse: string)
    requires forall u :: 0 <= u < |s.txs| ==> !Holds(s.txs[u], warehouse)
    ensures Alone(s, warehouse).takes
            == if exists k :: 0 <= k < |s.takes| && s.takes[k].open && s.takes[k].warehouse == warehouse
               then s.takes else s.takes + [Take(warehouse, true)]
    ensures forall k: nat :: k < |s.takes| ==> Next(s, Close(k)).takes == s.takes[k := Take(s.takes[k].warehouse, false)]
  {
    var t := |s.txs|;
    var locked := Next(Next(s, Begin(warehouse)), LockWarehouse(t));
    assert locked.txs == s.txs + [Opening(warehouse, true, false)];
    assert locked.takes == s.takes;
  }

  /** Giving up changes no stock take and lets go of the warehouse. */
  lemma AbortLetsGo(s: State, t: nat, warehouse: string)
    requires Live(s, t)
    ensures var after := Next(s, Abort(t)); after.takes == s.takes && !Holds(after.txs[t], warehouse)
  {
  }
}
