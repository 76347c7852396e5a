/** What the loan operations keep over every run. */
module LoanLifecycle {
  import opened Seqs
  import opened Wrappers
  import opened Loans

  predicate Settled(status: LoanStatus)
  {
    status.RETURNED? || status.CANCELLED?
  }

  /** What each status says about the columns, legacy rows included: a column a step writes is still empty. */
  predicate Kept(loan: Loan)
  {
    && (loan.status.PENDING? ==> loan.sendQrCode.None? && loan.receivedAt.None?)
    && (loan.status.SENT? ==> loan.receivedAt.None?)
    && (!loan.status.RETURN_PENDING? && !Settled(loan.status) ==> loan.returnQrCode.None?)
    && (loan.status.RECEIVED? ==> loan.receivedAt.Some?)
    && (loan.status.RETURN_PENDING? ==> loan.returnQrCode.Some?)
    && (loan.status.RETURNED? ==> loan.returnDate.Some?)
  }

  ghost predicate AllKept(loans: seq<Loan>)
  {
    forall k :: 0 <= k < |loans| ==> Kept(loans[k])
  }

  /** How many status changes a loan can still go through. */
  function Measure(loan: Loan): nat
  {
    match loan.status
    case PENDING => 6
    case SENT => 5
    case OVERDUE => if loan.receivedAt.None? then 4 else 2
    case RECEIVED => 3
    case RETURN_PENDING => 1
    case RETURNED => 0
    case CANCELLED => 0
    case ACTIVE => 2
  }

  /** The same loan later: its settled status, its receipt and its codes are written at most once. */
  predicate Later(a: Loan, b: Loan)
  {
    && b.source == a.source && b.destination == a.destination && b.items == a.items && b.dueDate == a.dueDate
    && (Settled(a.status) ==> b.status == a.status)
    && (a.receivedAt.Some? ==> b.receivedAt == a.receivedAt)
    && (a.sendQrCode.Some? ==> b.sendQrCode == a.sendQrCode)
    && (a.returnQrCode.Some? ==> b.returnQrCode == a.returnQrCode)
    && (b.status != a.status ==> Measure(b) < Measure(a))
    && Measure(b) <= Measure(a)
  }

  ghost predicate AllLater(before: seq<Loan>, after: seq<Loan>)
  {
    |before| <= |after| && forall k :: 0 <= k < |before| ==> Later(before[k], after[k])
  }

  /** The one loan an operation changes, if it changes one. */
  function Touched(loans: seq<Loan>, op: Op): Option<nat>
  {
    match op
    case Insert(_, _, _, _) => None
    case Send(id, _) => Some(id)
    case ConfirmReceipt(code, _) => FindBySendCode(loans, code)
    case InitiateReturn(id, _) => Some(id)
    case ConfirmReturn(code, _) => FindByReturnCode(loans, code)
    case ManualConfirmReceipt(id, _) => Some(id)
    case ManualConfirmReturn(id, _) => Some(id)
    case ReturnLoan(id, _) => Some(id)
    case EditLoan(id, _) => Some(id)
    case Cancel(id) => Some(id)
    case CheckOverdue(_, _) => None
  }

  lemma OutTouches(loans: seq<Loan>, op: Op)
    requires op.Send? || op.ConfirmReceipt? || op.ManualConfirmReceipt? || op.EditLoan? || op.Cancel?
    requires AllKept(loans) && Step(loans, op).Ok?
    ensures var id, after := Touched(loans, op).GetOr(|loans|), Step(loans, op).value;
            && id < |loans| && |after| == |loans| && after == loans[id := after[id]]
            && Kept(after[id]) && Later(loans[id], after[id])
            && (after[id].receivedAt != loans[id].receivedAt ==> loans[id].status.SENT? || loans[id].status.OVERDUE?)
  {
    assert Kept(loans[Touched(loans, op).value]);
  }

  lemma BackTouches(loans: seq<Loan>, op: Op)
    requires op.InitiateReturn? || op.ConfirmReturn? || op.ManualConfirmReturn? || op.ReturnLoan?
    requires AllKept(loans) && Step(loans, op).Ok?
    ensures var id, after := Touched(loans, op).GetOr(|loans|), Step(loans, op).value;
            && id < |loans| && |after| == |loans| && after == loans[id := after[id]]
            && Kept(after[id]) && Later(loans[id], after[id])
            && (after[id].receivedAt != loans[id].receivedAt ==> loans[id].status.SENT? || loans[id].status.OVERDUE?)
  {
    assert Kept(loans[Touched(loans, op).value]);
  }

  lemma StepKept(loans: seq<Loan>, op: Op)
    requires AllKept(loans)
    ensures AllKept(Next(loans, op)) && AllLater(loans, Next(loans, op))
  {
    if Step(loans, op).Ok? {
      if op.CheckOverdue? || op.Insert? {
      } else if op.Send? || op.ConfirmReceipt? || op.ManualConfirmReceipt? || op.EditLoan? || op.Cancel? {
        OutTouches(loans, op);
      } else {
        BackTouches(loans, op);
      }
    }
  }

  /**
   Over any run: a RETURNED or CANCELLED loan keeps its status, the receipt date
   and the two codes are each written at most once, and every change of a
   loan's status lowers its measure.
   */
  lemma {:induction false} RunKept(loans: seq<Loan>, ops: seq<Op>)
    requires AllKept(loans)
    ensures AllKept(Run(loans, ops)) && AllLater(loans, Run(loans, ops))
  {
    if ops != [] {
      var before := Run(loans, ops[..|ops| - 1]);
      RunKept(loans, ops[..|ops| - 1]);
      StepKept(before, ops[|ops| - 1]);
      forall k | 0 <= k < |loans| ensures Later(loans[k], Run(loans, ops)[k]) {
        assert Later(loans[k], before[k]) && Later(before[k], Run(loans, ops)[k]);
      }
    }
  }

  /** How many of the calls change the status of one loan. */
  function Changes(loans: seq<Loan>, ops: seq<Op>, id: nat): nat
  {
    if ops == [] then 0
    else
      var before := Run(loans, ops[..|ops| - 1]);
      var after := Next(before, ops[|ops| - 1]);
      Changes(loans, ops[..|ops| - 1], id)
        + (if id < |before| && id < |after| && before[id].status != after[id].status then 1 else 0)
  }

  /** Whatever is called, in any order, a loan changes status at most as often as its measure says: six times from PENDING. */
  lemma {:induction false} ChangesAreBounded(loans: seq<Loan>, ops: seq<Op>, id: nat)
    requires AllKept(loans) && id < |loans|
    ensures id < |Run(loans, ops)| && Changes(loans, ops, id) + Measure(Run(loans, ops)[id]) <= Measure(loans[id])
  {
    if ops != [] {
      var before := Run(loans, ops[..|ops| - 1]);
      ChangesAreBounded(loans, ops[..|ops| - 1], id);
      RunKept(loans, ops[..|ops| - 1]);
      StepKept(before, ops[|ops| - 1]);
      assert Later(before[id], Next(before, ops[|ops| - 1])[id]);
    }
  }

  // Loans that started with this system

  predicate WentOut(status: LoanStatus)
  {
    status.SENT? || status.RECEIVED? || status.OVERDUE? || status.RETURN_PENDING? || status.RETURNED?
  }

  /** Not a legacy row, and sent before anything else happened to it. */
  predicate Regular(loan: Loan)
  {
    && !loan.status.ACTIVE?
    && (WentOut(loan.status) ==> loan.sendQrCode.Some?)
    && (loan.returnQrCode.Some? ==> loan.sendQrCode.Some?)
  }

  predicate SameCode(a: Option<Code>, b: Option<Code>)
  {
    a.Some? && a == b
  }

  ghost predicate RegularTable(loans: seq<Loan>)
  {
    && AllKept(loans)
    && (forall k :: 0 <= k < |loans| ==> Regular(loans[k]))
    && (forall j, k :: 0 <= j < k < |loans| ==> !SameCode(loans[j].sendQrCode, loans[k].sendQrCode))
    && (forall j, k :: 0 <= j < k < |loans| ==> !SameCode(loans[j].returnQrCode, loans[k].returnQrCode))
  }

  lemma OneRowRegular(loans: seq<Loan>, id: nat, loan: Loan)
    requires RegularTable(loans) && id < |loans|
    requires Kept(loan) && Regular(loan)
    requires loan.sendQrCode == loans[id].sendQrCode || (loan.sendQrCode.Some? && !SendCodeUsed(loans, loan.sendQrCode.value))
    requires loan.returnQrCode == loans[id].returnQrCode
             || (loan.returnQrCode.Some? && !ReturnCodeUsed(loans, loan.returnQrCode.value))
    ensures RegularTable(loans[id := loan])
  {
    var after := loans[id := loan];
    forall j, k | 0 <= j < k < |after|
      ensures !SameCode(after[j].sendQrCode, after[k].sendQrCode)
      ensures !SameCode(after[j].returnQrCode, after[k].returnQrCode)
    {
      assert !SameCode(loans[j].sendQrCode, loans[k].sendQrCode);
      assert !SameCode(loans[j].returnQrCode, loans[k].returnQrCode);
    }
  }

  lemma StepRegular(loans: seq<Loan>, op: Op)
    requires RegularTable(loans)
    ensures RegularTable(Next(loans, op))
  {
    if Step(loans, op).Ok? {
      if !op.Insert? && !op.CheckOverdue? {
        if op.Send? || op.ConfirmReceipt? || op.ManualConfirmReceipt? || op.EditLoan? || op.Cancel? {
          OutTouches(loans, op);
        } else {
          BackTouches(loans, op);
        }
        var id := Touched(loans, op).value;
        assert Regular(loans[id]);
        OneRowRegular(loans, id, Step(loans, op).value[id]);
      }
    }
  }

  /** In every run from an empty table, a RETURNED loan had been sent and no two loans share a code. */
  lemma {:induction false} RunRegular(ops: seq<Op>)
    ensures RegularTable(Run([], ops))
  {
    if ops != [] {
      RunRegular(ops[..|ops| - 1]);
      StepRegular(Run([], ops[..|ops| - 1]), ops[|ops| - 1]);
    }
  }

  lemma OneLoanPerCode(loans: seq<Loan>, j: nat, k: nat)
    requires RegularTable(loans) && j < |loans| && k < |loans| && SameCode(loans[j].sendQrCode, loans[k].sendQrCode)
    ensures j == k
  {
    assert SameCode(loans[k].sendQrCode, loans[j].sendQrCode);
  }

  /** A scanned code confirms the loan it was handed out for, and no other. */
  lemma CodeFindsItsLoan(ops: seq<Op>, id: nat, code: Code)
    requires id < |Run([], ops)| && Run([], ops)[id].sendQrCode == Some(code)
    ensures FindBySendCode(Run([], ops), code) == Some(id)
  {
    RunRegular(ops);
    var loans := Run([], ops);
    assert SendCodeUsed(loans, code);
    OneLoanPerCode(loans, FindBySendCode(loans, code).value, id);
  }

  // Returns of loans that never arrived

  /** A loan whose return was ever started, or that is back, was received. */
  predicate ReceivedFirst(loan: Loan)
  {
    loan.returnQrCode.Some? || loan.status.RETURNED? ==> loan.receivedAt.Some?
  }

  ghost predicate AllReceivedFirst(loans: seq<Loan>)
  {
    forall k :: 0 <= k < |loans| ==> ReceivedFirst(loans[k])
  }

  /** Out past its due date, or a legacy row, and never received. */
  predicate NeverArrived(loan: Loan)
  {
    (loan.status.OVERDUE? || loan.status.ACTIVE?) && loan.receivedAt.None?
  }

  /**
   Confirming a return by hand asks whether the loan was received; starting
   one, which takes a code not used before, or returning directly, does not.
   */
  predicate SkipsReceipt(loans: seq<Loan>, op: Op)
  {
    match op
    case InitiateReturn(id, code) => id < |loans| && NeverArrived(loans[id]) && !ReturnCodeUsed(loans, code)
    case ReturnLoan(id, _) => id < |loans| && NeverArrived(loans[id])
    case _ => false
  }

  lemma StepReceivedFirstIff(loans: seq<Loan>, op: Op)
    requires AllKept(loans) && AllReceivedFirst(loans)
    ensures AllReceivedFirst(Next(loans, op)) <==> !SkipsReceipt(loans, op)
  {
    if Step(loans, op).Ok? && !op.Insert? && !op.CheckOverdue? {
      if op.Send? || op.ConfirmReceipt? || op.ManualConfirmReceipt? || op.EditLoan? || op.Cancel? {
        OutTouches(loans, op);
      } else {
        BackTouches(loans, op);
      }
      var id, after := Touched(loans, op).value, Step(loans, op).value;
      assert Kept(loans[id]) && ReceivedFirst(loans[id]);
      if SkipsReceipt(loans, op) {
        assert !ReceivedFirst(after[id]);
      } else {
        assert ReceivedFirst(after[id]);
      }
    }
  }

  /** A receipt can no longer be recorded once the return has started. */
  lemma NeverReceivedStays(loans: seq<Loan>, op: Op)
    requires AllKept(loans) && !AllReceivedFirst(loans)
    ensures !AllReceivedFirst(Next(loans, op))
  {
    var k :| 0 <= k < |loans| && !ReceivedFirst(loans[k]);
    var after := Next(loans, op);
    StepKept(loans, op);
    assert Kept(loans[k]) && Later(loans[k], after[k]);
    if Step(loans, op).Ok? && !op.Insert? && !op.CheckOverdue? {
      if op.Send? || op.ConfirmReceipt? || op.ManualConfirmReceipt? || op.EditLoan? || op.Cancel? {
        OutTouches(loans, op);
      } else {
        BackTouches(loans, op);
      }
    }
    assert !ReceivedFirst(after[k]);
  }

  /** No call of the run starts or records the return of a loan that was not received. */
  predicate NeverSkips(loans: seq<Loan>, ops: seq<Op>)
  {
    ops == []
    || (NeverSkips(loans, ops[..|ops| - 1]) && !SkipsReceipt(Run(loans, ops[..|ops| - 1]), ops[|ops| - 1]))
  }

  /**
   After a run every loan that came back, or started to, had been received,
   exactly when no call of the run started or recorded the return of one that
   had not.
   */
  lemma {:induction false} ReceivedFirstIff(loans: seq<Loan>, ops: seq<Op>)
    requires AllKept(loans) && AllReceivedFirst(loans)
    ensures AllReceivedFirst(Run(loans, ops)) <==> NeverSkips(loans, ops)
  {
    if ops != [] {
      var before := Run(loans, ops[..|ops| - 1]);
      ReceivedFirstIff(loans, ops[..|ops| - 1]);
      RunKept(loans, ops[..|ops| - 1]);
      if AllReceivedFirst(before) {
        StepReceivedFirstIff(before, ops[|ops| - 1]);
      } else {
        NeverReceivedStays(before, ops[|ops| - 1]);
      }
    }
  }

  /** It does happen: created, sent, overdue, and returned directly without ever arriving. */
  lemma ReturnedNeverReceived() returns (ops: seq<Op>)
    ensures var loans := Run([], ops);
            |loans| == 1 && loans[0].status.RETURNED? && loans[0].receivedAt.None?
  {
    var a := [] + [Insert("a", "b", [0], 10)];
    RunSnoc([], [], Insert("a", "b", [0], 10));
    assert Run([], a) == [NewLoan("a", "b", [0], 10)];
    var b := a + [Send(0, 7)];
    RunSnoc([], a, Send(0, 7));
    var c := b + [CheckOverdue(None, 11)];
    RunSnoc([], b, CheckOverdue(None, 11));
    RunSnoc([], c, ReturnLoan(0, 12));
    ops := c + [ReturnLoan(0, 12)];
  }

  // Overdue checks

  /** Two checks are as good as the later one, and a second check at the same moment changes nothing. */
  lemma OverdueChecksCompose(loans: seq<Loan>, only: Option<set<string>>, now: int, later: int)
    requires now <= later
    ensures MarkOverdue(MarkOverdue(loans, only, now), only, later) == MarkOverdue(loans, only, later)
    ensures MarkOverdue(MarkOverdue(loans, only, later), only, now) == MarkOverdue(loans, only, later)
  {
  }
}
