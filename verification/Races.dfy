/** What the two jobs that do not lock the row before reading its status can break, and exactly when. */
module Races {
  import opened Seqs
  import opened Wrappers
  import opened Jobs
  import opened Interleaving

  ghost predicate HasOutflow(docs: seq<Doc>, id: nat)
  {
    exists k :: 0 <= k < |docs| && docs[k].origin == Some(id)
  }

  /** A discharge's outflow exists exactly when it is COMPLETED; a transfer ran once if COMPLETED, else never. */
  ghost predicate SaysWhatHappened(docs: seq<Doc>)
  {
    forall id: nat :: id < |docs| ==> Truthful(docs, id)
  }

  ghost predicate Truthful(docs: seq<Doc>, id: nat)
    requires id < |docs|
  {
    && (docs[id].kind.DISCHARGE? ==> (HasOutflow(docs, id) <==> docs[id].status.COMPLETED?))
    && (docs[id].kind.TRANSFER? ==> docs[id].applied == if docs[id].status.COMPLETED? then 1 else 0)
  }

  /** The job does not overwrite the status of a request completed since the job read it. */
  predicate NotTooLate(docs: seq<Doc>, job: Job)
  {
    job.SetStatus? && job.id < |docs| ==> !docs[job.id].status.COMPLETED?
  }

  lemma OutflowsAfter(docs: seq<Doc>, job: Job, id: nat)
    requires Moves(docs, job).Some? && id < |docs|
    requires !(job.Act? && job.id == id && docs[id].kind.DISCHARGE?)
    ensures HasOutflow(Filed(docs, job), id) <==> HasOutflow(docs, id)
  {
    var after := Filed(docs, job);
    assert forall k :: 0 <= k < |docs| ==> after[k].origin == docs[k].origin;
    if HasOutflow(docs, id) {
      var k :| 0 <= k < |docs| && docs[k].origin == Some(id);
      assert after[k].origin == Some(id);
    }
  }

  /** One job keeps the statuses telling what happened exactly when it does not commit too late. */
  lemma StepTellsTruthIff(rows: Rows, job: Job)
    requires Good(rows) && SaysWhatHappened(rows.docs) && Atomically(rows, job).Some?
    ensures SaysWhatHappened(Atomically(rows, job).value.docs) <==> NotTooLate(rows.docs, job)
  {
    if !job.SetQuantity? {
      var docs, after := rows.docs, Filed(rows.docs, job);
      if NotTooLate(docs, job) {
        forall id: nat | id < |after| ensures Truthful(after, id) {
          assert id < |docs| ==> Truthful(docs, id);
          if id == |docs| {
            NewHasNoOutflow(rows, job);
          } else if job.Act? && job.id == id && docs[id].kind.DISCHARGE? {
            assert after[|docs|].origin == Some(id);
          } else {
            OutflowsAfter(docs, job, id);
            if docs[id].kind.TRANSFER? {
              assert DocOk(docs[id]);
            }
          }
        }
      } else {
        OutflowsAfter(docs, job, job.id);
        assert Truthful(docs, job.id) && !Truthful(after, job.id);
      }
    }
  }

  lemma NewHasNoOutflow(rows: Rows, job: Job)
    requires Good(rows) && Moves(rows.docs, job).Some? && |Filed(rows.docs, job)| > |rows.docs|
    ensures !HasOutflow(Filed(rows.docs, job), |rows.docs|)
  {
    var docs, after := rows.docs, Filed(rows.docs, job);
    forall k | 0 <= k < |after| ensures after[k].origin != Some(|docs|) {
      if k < |docs| {
        assert OriginOk(docs, docs[k]);
        assert after[k].origin == docs[k].origin;
      }
    }
  }

  /** Where a status says COMPLETED, it did happen. */
  ghost predicate Recorded(docs: seq<Doc>)
  {
    forall id: nat :: id < |docs| && docs[id].status.COMPLETED? ==>
      && (docs[id].kind.DISCHARGE? ==> HasOutflow(docs, id))
      && (docs[id].kind.TRANSFER? ==> docs[id].applied >= 1)
  }

  lemma TruthIsRecorded(docs: seq<Doc>)
    requires SaysWhatHappened(docs)
    ensures Recorded(docs)
  {
    forall id: nat | id < |docs| && docs[id].status.COMPLETED?
      ensures docs[id].kind.DISCHARGE? ==> HasOutflow(docs, id)
      ensures docs[id].kind.TRANSFER? ==> docs[id].applied >= 1
    {
      assert Truthful(docs, id);
    }
  }

  lemma StepRecorded(rows: Rows, job: Job)
    requires Good(rows) && Recorded(rows.docs) && Atomically(rows, job).Some?
    ensures Recorded(Atomically(rows, job).value.docs)
  {
    if !job.SetQuantity? {
      var docs, after := rows.docs, Filed(rows.docs, job);
      forall id: nat | id < |after| && after[id].status.COMPLETED?
        ensures after[id].kind.DISCHARGE? ==> HasOutflow(after, id)
        ensures after[id].kind.TRANSFER? ==> after[id].applied >= 1
      {
        if id < |docs| {
          if job.Act? && job.id == id && docs[id].kind.DISCHARGE? {
            assert after[|docs|].origin == Some(id);
          } else {
            OutflowsAfter(docs, job, id);
          }
        }
      }
    }
  }

  /** What went by unsaid: stock that left for a rejected discharge, or a transfer run more often than its status says. */
  predicate Silent(docs: seq<Doc>, id: nat)
    requires id < |docs|
  {
    || (docs[id].kind.DISCHARGE? && docs[id].status.REJECTED?)
    || (docs[id].kind.TRANSFER? && docs[id].applied >= if docs[id].status.COMPLETED? then 2 else 1)
  }

  lemma UntruthIsSilent(rows: Rows, id: nat)
    requires Good(rows) && Recorded(rows.docs) && id < |rows.docs| && !Truthful(rows.docs, id)
    ensures Silent(rows.docs, id) && (rows.docs[id].kind.DISCHARGE? ==> HasOutflow(rows.docs, id))
  {
    if rows.docs[id].kind.DISCHARGE? {
      assert HasOutflow(rows.docs, id);
      var k :| 0 <= k < |rows.docs| && rows.docs[k].origin == Some(id);
      assert OriginOk(rows.docs, rows.docs[k]);
    }
  }

  lemma SilenceStays(docs: seq<Doc>, job: Job, id: nat)
    requires Moves(docs, job).Some? && id < |docs| && Silent(docs, id)
    ensures Silent(Filed(docs, job), id) && Filed(docs, job)[id].kind == docs[id].kind
    ensures HasOutflow(docs, id) ==> HasOutflow(Filed(docs, job), id)
  {
    if !(job.Act? && job.id == id && docs[id].kind.DISCHARGE?) {
      OutflowsAfter(docs, job, id);
    }
  }

  /** Once a status is wrong about what happened, nothing puts it right. */
  lemma UntruthStays(rows: Rows, job: Job)
    requires Good(rows) && Recorded(rows.docs) && !SaysWhatHappened(rows.docs) && Atomically(rows, job).Some?
    ensures !SaysWhatHappened(Atomically(rows, job).value.docs)
  {
    if !job.SetQuantity? {
      var id: nat :| id < |rows.docs| && !Truthful(rows.docs, id);
      UntruthIsSilent(rows, id);
      SilenceStays(rows.docs, job, id);
      assert !Truthful(Filed(rows.docs, job), id);
    }
  }

  /** Each of the jobs, in turn, is not too late. */
  ghost predicate NoneTooLate(rows: Rows, jobs: seq<Job>)
    requires Serially(rows, jobs).Some?
  {
    jobs == []
    || (NoneTooLate(rows, jobs[..|jobs| - 1])
        && NotTooLate(Serially(rows, jobs[..|jobs| - 1]).value.docs, jobs[|jobs| - 1]))
  }

  lemma {:induction false} SerialTruthIff(rows: Rows, jobs: seq<Job>)
    requires Good(rows) && SaysWhatHappened(rows.docs) && Serially(rows, jobs).Some?
    ensures var after := Serially(rows, jobs).value;
            Good(after) && Recorded(after.docs) && (SaysWhatHappened(after.docs) <==> NoneTooLate(rows, jobs))
  {
    if jobs == [] {
      TruthIsRecorded(rows.docs);
    } else {
      var before := Serially(rows, jobs[..|jobs| - 1]).value;
      SerialTruthIff(rows, jobs[..|jobs| - 1]);
      AtomicallyGood(before, jobs[|jobs| - 1]);
      StepRecorded(before, jobs[|jobs| - 1]);
      if SaysWhatHappened(before.docs) {
        StepTellsTruthIff(before, jobs[|jobs| - 1]);
      } else {
        UntruthStays(before, jobs[|jobs| - 1]);
      }
    }
  }

  /**
   After any interleaving, every request's status tells what happened to its
   stock exactly when none of the committed jobs was a rejection or a sending
   that overwrote COMPLETED.
   */
  lemma TellsTruthIff(start: Rows, sts: seq<Statement>)
    requires Good(start) && SaysWhatHappened(start.docs)
    ensures var s := Run(Start(start), sts);
            && Serially(start, s.committed) == Some(s.rows)
            && (SaysWhatHappened(s.rows.docs) <==> NoneTooLate(start, s.committed))
  {
    RunIsSerial(start, sts);
    SerialTruthIff(start, Run(Start(start), sts).committed);
  }

  // Both do happen

  /** Nobody else holds a row the job needs. */
  ghost predicate Quiet(s: State, job: Job)
  {
    forall u: nat :: u < |s.txs| ==>
      && (Target(job).Some? ==> !HoldsDoc(s.txs[u], Target(job).value))
      && (forall item: nat :: !HoldsItem(s.txs[u], item))
  }

  /** The transaction has read its document and executed its first `done` updates. */
  ghost predicate Reaches(start: State, sts: seq<Statement>, s: State, tx: Tx)
  {
    Run(start, sts) == s.(txs := s.txs + [tx])
  }

  lemma BeginsAlone(start: State, before: seq<Statement>, s: State, job: Job) returns (sts: seq<Statement>)
    requires Run(start, before) == s && Quiet(s, job) && Decide(s.rows.docs, job).Some?
    ensures Reaches(start, sts, s, Running(job, Target(job).Some?, Decide(s.rows.docs, job), 0))
  {
    var t := |s.txs|;
    RunSnoc(start, before, Begin(job));
    var a := before + [Begin(job)];
    RunSnoc(start, a, Lock(t));
    var b := a + [Lock(t)];
    var begun := s.(txs := s.txs + [Running(job, false, None, 0)]);
    assert Run(start, a) == begun;
    if Target(job).Some? {
      assert forall u: nat :: u < |begun.txs| ==> !HoldsDoc(begun.txs[u], Target(job).value);
      assert begun.txs[t := Running(job, true, None, 0)] == s.txs + [Running(job, true, None, 0)];
    }
    var tx := Running(job, Target(job).Some?, None, 0);
    assert Run(start, b) == s.(txs := s.txs + [tx]);
    RunSnoc(start, b, Read(t));
    sts := b + [Read(t)];
    var read := tx.(moves := Decide(s.rows.docs, job));
    assert (s.txs + [tx])[t := read] == s.txs + [read];
  }

  lemma {:induction false} UpdatesAlone(start: State, before: seq<Statement>, s: State, tx: Tx) returns (sts: seq<Statement>)
    requires tx.Running? && tx.moves.Some? && tx.done <= |tx.moves.value|
    requires Reaches(start, before, s, tx) && Quiet(s, tx.job)
    requires forall k: nat :: k < |tx.moves.value| ==> Allowed(s.rows.qty, tx.moves.value, k)
    ensures Reaches(start, sts, s, tx.(done := |tx.moves.value|))
    decreases |tx.moves.value| - tx.done
  {
    if tx.done == |tx.moves.value| {
      return before;
    }
    var t, moves, updated := |s.txs|, tx.moves.value, tx.(done := tx.done + 1);
    RunSnoc(start, before, Update(t));
    var here := s.(txs := s.txs + [tx]);
    assert Allowed(s.rows.qty, moves, tx.done);
    assert moves[..tx.done + 1][..tx.done] == moves[..tx.done];
    assert forall u: nat :: u < |here.txs| && u != t ==> !HoldsItem(here.txs[u], moves[tx.done].item);
    assert here.txs[t := updated] == s.txs + [updated];
    assert AfterUpdate(here, t) == s.(txs := s.txs + [updated]);
    sts := UpdatesAlone(start, before + [Update(t)], s, updated);
  }

  /** A transaction that nobody disturbs does what its job does alone: every serial run is also a run here. */
  lemma RunsAlone(start: State, before: seq<Statement>, job: Job) returns (sts: seq<Statement>)
    requires var s := Run(start, before);
             Quiet(s, job) && Decide(s.rows.docs, job).Some? && Atomically(s.rows, job).Some?
    ensures var s := Run(start, before);
            Run(start, sts)
            == State(Atomically(s.rows, job).value, s.txs + [Ended], s.committed + [job])
  {
    var s := Run(start, before);
    var t := |s.txs|;
    var a := BeginsAlone(start, before, s, job);
    var read := Running(job, Target(job).Some?, Decide(s.rows.docs, job), 0);
    var b := UpdatesAlone(start, a, s, read);
    RunSnoc(start, b, Commit(t));
    sts := b + [Commit(t)];
    assert (s.txs + [read.(done := |read.moves.value|)])[t := Ended] == s.txs + [Ended];
  }

  /** An aborted transaction leaves the committed rows alone and lets go of every row it held. */
  lemma AbortUndoes(s: State, t: nat, id: nat, item: nat)
    requires Live(s, t)
    ensures var after := Next(s, Abort(t));
            && after.rows == s.rows && after.committed == s.committed
            && !Live(after, t) && !HoldsDoc(after.txs[t], id) && !HoldsItem(after.txs[t], item)
  {
  }

  /** A rejection or a sending that has read the status and not yet locked the row. */
  function Stale(id: nat): Tx
  {
    Running(SetStatus(id), false, Some([]), 0)
  }

  lemma ReadsEarly(rows: Rows) returns (sts: seq<Statement>)
    requires |rows.docs| > 0 && UnlockedFrom(rows.docs[0].kind) == Some(rows.docs[0].status)
    ensures Run(Start(rows), sts) == State(rows, [Stale(0)], [])
  {
    var start, begun := Start(rows), State(rows, [Running(SetStatus(0), false, None, 0)], []);
    RunSnoc(start, [], Begin(SetStatus(0)));
    var a := [] + [Begin(SetStatus(0))];
    assert Run(start, a) == begun;
    RunSnoc(start, a, Read(0));
    sts := a + [Read(0)];
    assert Moves(rows.docs, SetStatus(0)) == Some([]);
    assert AfterRead(begun, 0) == With(begun, 0, Stale(0));
  }

  /** The status update of a stale transaction goes through as soon as nobody holds the row. */
  lemma StaleWrites(s: State, t: nat)
    requires t < |s.txs| && s.txs[t] == Running(SetStatus(0), true, Some([]), 0) && Moves(s.rows.docs, SetStatus(0)).Some?
    ensures Next(s, Commit(t))
            == State(s.rows.(docs := Filed(s.rows.docs, SetStatus(0))), s.txs[t := Ended], s.committed + [SetStatus(0)])
  {
    assert Updated(s.rows.qty, []) == s.rows.qty;
  }

  lemma StaleCommits(start: State, before: seq<Statement>, t: nat) returns (sts: seq<Statement>)
    requires var s := Run(start, before);
             && t < |s.txs| && s.txs[t] == Stale(0) && Moves(s.rows.docs, SetStatus(0)).Some?
             && forall u: nat :: u < |s.txs| ==> !HoldsDoc(s.txs[u], 0)
    ensures var s := Run(start, before);
            Run(start, sts) == State(
              s.rows.(docs := Filed(s.rows.docs, SetStatus(0))), s.txs[t := Ended], s.committed + [SetStatus(0)])
  {
    var s := Run(start, before);
    var locked := With(s, t, Running(SetStatus(0), true, Some([]), 0));
    RunSnoc(start, before, Lock(t));
    assert AfterLock(s, t) == locked;
    var a := before + [Lock(t)];
    RunSnoc(start, a, Commit(t));
    sts := a + [Commit(t)];
    StaleWrites(locked, t);
    assert locked.txs[t := Ended] == s.txs[t := Ended];
  }

  /** Five units on the shelf and one request for two of them. */
  function OneDischarge(): Rows
  {
    Rows([5], [5], [Doc(DISCHARGE, PENDING, [Move(0, -2)], None, 0, 0)])
  }

  /** A discharge can end REJECTED with its stock gone: the rejection read PENDING before the completion committed. */
  lemma RejectedWithStockGone() returns (sts: seq<Statement>)
    ensures var rows := Run(Start(OneDischarge()), sts).rows;
            && rows.qty == [3]
            && rows.docs == [Doc(DISCHARGE, REJECTED, [Move(0, -2)], None, 0, 0),
                             Doc(OUTFLOW, ACTIVE, [Move(0, -2)], Some(0), 1, 0)]
  {
    var start, moves := OneDischarge(), [Move(0, -2)];
    var a := ReadsEarly(start);
    assert Signed(moves, 1) == moves && moves[..1] == moves && moves[..0] == [];
    assert Updated([5], moves) == [3];
    var b := RunsAlone(Start(start), a, Act(0, COMPLETE));
    sts := StaleCommits(Start(start), b, 0);
  }

  const Two := [Move(0, -2), Move(1, 2)]

  /** Two rows, and a transfer of two units from the first to the second. */
  function OneTransfer(from: int, to: int, status: Status, applied: nat): Rows
  {
    Rows([from, to], [5, 0], [Doc(TRANSFER, status, Two, None, applied, 0)])
  }

  lemma ExecutesAlone(from: int, to: int, applied: nat)
    requires from >= 2
    ensures Atomically(OneTransfer(from, to, SENT, applied), Act(0, COMPLETE))
            == Some(OneTransfer(from - 2, to + 2, COMPLETED, applied + 1))
  {
    assert Signed(Two, 1) == Two;
    assert Two[..2] == Two && Two[..1] == [Move(0, -2)] && Two[..0] == [];
    SumSnoc([Move(0, -2)], Move(1, 2), DeltaAt(0));
    SumSnoc([Move(0, -2)], Move(1, 2), DeltaAt(1));
    assert [Move(0, -2)] + [Move(1, 2)] == Two;
    assert Updated([from, to], Two) == [from - 2, to + 2];
    var rows := OneTransfer(from, to, SENT, applied);
    var done := Doc(TRANSFER, COMPLETED, Two, None, applied + 1, 0);
    assert Moves(rows.docs, Act(0, COMPLETE)) == Some(Two);
    assert rows.docs[0 := done] == [done];
    assert Filed(rows.docs, Act(0, COMPLETE)) == [done];
    assert forall k: nat :: k < |Two| ==> Allowed([from, to], Two, k);
  }

  lemma SentAgain(from: int, to: int, status: Status, applied: nat)
    ensures Filed(OneTransfer(from, to, status, applied).docs, SetStatus(0)) == OneTransfer(from, to, SENT, applied).docs
    ensures Updated([from, to], []) == [from, to]
  {
  }

  lemma SendsAlone()
    ensures Atomically(OneTransfer(5, 0, APPROVED, 0), SetStatus(0)) == Some(OneTransfer(5, 0, SENT, 0))
  {
    SentAgain(5, 0, APPROVED, 0);
    assert Moves(OneTransfer(5, 0, APPROVED, 0).docs, SetStatus(0)) == Some([]);
  }

  lemma SendsBesideStale() returns (sts: seq<Statement>)
    ensures var s := Run(Start(OneTransfer(5, 0, APPROVED, 0)), sts);
            s.rows == OneTransfer(5, 0, SENT, 0) && s.txs == [Stale(0), Ended]
  {
    var start := Start(OneTransfer(5, 0, APPROVED, 0));
    SendsAlone();
    var a := ReadsEarly(start.rows);
    sts := RunsAlone(start, a, SetStatus(0));
    assert [Stale(0)] + [Ended] == [Stale(0), Ended];
  }

  /** With only stale and ended transactions about, a sent transfer is executed. */
  lemma ExecutesBeside(start: State, before: seq<Statement>, from: int, to: int, applied: nat) returns (sts: seq<Statement>)
    requires from >= 2 && Run(start, before).rows == OneTransfer(from, to, SENT, applied)
    requires forall u: nat :: u < |Run(start, before).txs| ==> Run(start, before).txs[u] in {Stale(0), Ended}
    ensures var s := Run(start, before);
            Run(start, sts)
            == State(OneTransfer(from - 2, to + 2, COMPLETED, applied + 1), s.txs + [Ended], s.committed + [Act(0, COMPLETE)])
  {
    ExecutesAlone(from, to, applied);
    assert Transition(TRANSFER, SENT, COMPLETE) == Some(COMPLETED);
    assert Moves(Run(start, before).rows.docs, Act(0, COMPLETE)).Some?;
    sts := RunsAlone(start, before, Act(0, COMPLETE));
  }

  lemma SendsAndExecutes() returns (sts: seq<Statement>)
    ensures var s := Run(Start(OneTransfer(5, 0, APPROVED, 0)), sts);
            && s.rows == OneTransfer(3, 2, COMPLETED, 1)
            && s.txs == [Stale(0), Ended, Ended]
  {
    var b := SendsBesideStale();
    sts := ExecutesBeside(Start(OneTransfer(5, 0, APPROVED, 0)), b, 5, 0, 0);
    assert [Stale(0), Ended] + [Ended] == [Stale(0), Ended, Ended];
  }

  /** A transfer sent twice at once can be executed twice: the second sending reopens it after it completed. */
  lemma TransferExecutedTwice() returns (sts: seq<Statement>)
    ensures Run(Start(OneTransfer(5, 0, APPROVED, 0)), sts).rows == OneTransfer(1, 4, COMPLETED, 2)
  {
    var start := Start(OneTransfer(5, 0, APPROVED, 0));
    SentAgain(3, 2, COMPLETED, 1);
    var c := SendsAndExecutes();
    var d := StaleCommits(start, c, 0);
    assert Run(start, d).rows == OneTransfer(3, 2, SENT, 1);
    sts := ExecutesBeside(start, d, 3, 2, 1);
  }

  lemma RequestMade(qty: seq<int>, kind: Kind, lines: seq<Move>)
    requires kind.DISCHARGE? || kind.TRANSFER?
    ensures Serially(Rows(qty, qty, []), [Create(kind, PENDING, lines)])
            == Some(Rows(qty, qty, [Doc(kind, PENDING, lines, None, 0, 0)]))
  {
    var rows, create := Rows(qty, qty, []), Create(kind, PENDING, lines);
    assert [create][..0] == [] && Serially(rows, [create][..0]) == Some(rows);
    assert Moves([], create) == Some([]);
    assert Updated(qty, []) == qty;
    assert Filed([], create) == [Doc(kind, PENDING, lines, None, 0, 0)];
    assert Atomically(rows, create) == Some(Rows(qty, qty, Filed([], create)));
  }

  lemma RequestApproved(qty: seq<int>, lines: seq<Move>)
    ensures Atomically(Rows(qty, qty, [Doc(TRANSFER, PENDING, lines, None, 0, 0)]), Act(0, APPROVE))
            == Some(Rows(qty, qty, [Doc(TRANSFER, APPROVED, lines, None, 0, 0)]))
  {
    var docs := [Doc(TRANSFER, PENDING, lines, None, 0, 0)];
    assert Moves(docs, Act(0, APPROVE)) == Some([]);
    assert Updated(qty, []) == qty;
    assert Filed(docs, Act(0, APPROVE)) == [Doc(TRANSFER, APPROVED, lines, None, 0, 0)];
  }

  /** Both start where ordinary jobs lead: the rows hold what was entered, and a request has just been made or approved. */
  lemma StartsAreReached()
    ensures Serially(Rows([5], [5], []), [Create(DISCHARGE, PENDING, [Move(0, -2)])]) == Some(OneDischarge())
    ensures Serially(Rows([5, 0], [5, 0], []), [Create(TRANSFER, PENDING, Two), Act(0, APPROVE)])
            == Some(OneTransfer(5, 0, APPROVED, 0))
  {
    RequestMade([5], DISCHARGE, [Move(0, -2)]);
    RequestMade([5, 0], TRANSFER, Two);
    RequestApproved([5, 0], Two);
    assert [Create(TRANSFER, PENDING, Two), Act(0, APPROVE)][..1] == [Create(TRANSFER, PENDING, Two)];
  }
}
