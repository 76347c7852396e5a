/**
 Whether an item can be on two open loans. Creation looks for open loans of
 its items before its transaction and without a lock, so what it saw may no
 longer hold when the loan is inserted.
 */
module LoanOverlaps {
  import opened Wrappers
  import opened Loans
  import opened LoanLifecycle

  predicate Names(loan: Loan, items: seq<nat>)
  {
    IsOpen(loan.status) && exists k :: 0 <= k < |items| && items[k] in loan.items
  }

  predicate Overlap(a: Loan, b: Loan)
  {
    IsOpen(a.status) && Names(b, a.items)
  }

  /** No item is on two open loans. */
  ghost predicate Apart(loans: seq<Loan>)
  {
    forall j, k :: 0 <= j < k < |loans| ==> !Overlap(loans[j], loans[k])
  }

  ghost predicate Clear(loans: seq<Loan>, items: seq<nat>)
  {
    forall k :: 0 <= k < |loans| ==> !Names(loans[k], items)
  }

  /** Items stay, and no operation opens a closed loan. */
  predicate NoWider(a: Loan, b: Loan)
  {
    b.items == a.items && (IsOpen(b.status) ==> IsOpen(a.status))
  }

  lemma LaterIsNoWider(a: Loan, b: Loan)
    requires Later(a, b) && Regular(a) && Regular(b)
    ensures NoWider(a, b)
  {
  }

  lemma StepNoWider(loans: seq<Loan>, op: Op)
    requires RegularTable(loans)
    ensures |loans| <= |Next(loans, op)| && forall k :: 0 <= k < |loans| ==> NoWider(loans[k], Next(loans, op)[k])
    ensures if op.Insert? then |Next(loans, op)| == |loans| + 1 else |Next(loans, op)| == |loans|
  {
    StepKept(loans, op);
    StepRegular(loans, op);
    forall k | 0 <= k < |loans| ensures NoWider(loans[k], Next(loans, op)[k]) {
      assert Later(loans[k], Next(loans, op)[k]) && Regular(loans[k]) && Regular(Next(loans, op)[k]);
      LaterIsNoWider(loans[k], Next(loans, op)[k]);
    }
    if Step(loans, op).Ok? && !op.Insert? && !op.CheckOverdue? {
      if op.Send? || op.ConfirmReceipt? || op.ManualConfirmReceipt? || op.EditLoan? || op.Cancel? {
        OutTouches(loans, op);
      } else {
        BackTouches(loans, op);
      }
    }
  }

  /** The insert is the only thing that can bring two loans of an item about. */
  lemma StepApartIff(loans: seq<Loan>, op: Op)
    requires RegularTable(loans) && Apart(loans)
    ensures Apart(Next(loans, op)) <==> (op.Insert? ==> Clear(loans, op.items))
  {
    var after := Next(loans, op);
    StepNoWider(loans, op);
    forall j, k | 0 <= j < k < |loans| ensures !Overlap(after[j], after[k]) {
      assert !Overlap(loans[j], loans[k]) && NoWider(loans[j], after[j]) && NoWider(loans[k], after[k]);
    }
    if op.Insert? {
      var n, added := |loans|, NewLoan(op.source, op.destination, op.items, op.dueDate);
      assert after == loans + [added];
      forall j | 0 <= j < n ensures Overlap(after[j], after[n]) <==> Names(loans[j], op.items) {
        NamesBothWays(loans[j], added);
      }
      if Clear(loans, op.items) {
        assert Apart(after);
      } else {
        var j :| 0 <= j < n && Names(loans[j], op.items);
        assert Overlap(after[j], after[n]);
      }
    }
  }

  lemma NamesBothWays(a: Loan, b: Loan)
    requires IsOpen(b.status)
    ensures Overlap(a, b) <==> Names(a, b.items)
  {
    if Overlap(a, b) {
      var k :| 0 <= k < |a.items| && a.items[k] in b.items;
      var m :| 0 <= m < |b.items| && b.items[m] == a.items[k];
      assert b.items[m] in a.items;
    }
    if Names(a, b.items) {
      var k :| 0 <= k < |b.items| && b.items[k] in a.items;
      var m :| 0 <= m < |a.items| && a.items[m] == b.items[k];
      assert a.items[m] in b.items;
    }
  }

  /** At no point of the run was an item on two open loans. */
  ghost predicate AlwaysApart(ops: seq<Op>)
  {
    Apart(Run([], ops)) && (ops != [] ==> AlwaysApart(ops[..|ops| - 1]))
  }

  /** Every loan of the run was inserted while none of its items was on an open loan. */
  ghost predicate AllClear(ops: seq<Op>)
  {
    ops == []
    || (AllClear(ops[..|ops| - 1])
        && (ops[|ops| - 1].Insert? ==> Clear(Run([], ops[..|ops| - 1]), ops[|ops| - 1].items)))
  }

  /** Whatever runs between, items stay on one open loan exactly as long as each insert still finds its items free. */
  lemma {:induction false} ApartIff(ops: seq<Op>)
    ensures AlwaysApart(ops) <==> AllClear(ops)
  {
    if ops != [] {
      var before := Run([], ops[..|ops| - 1]);
      ApartIff(ops[..|ops| - 1]);
      RunRegular(ops[..|ops| - 1]);
      if Apart(before) {
        StepApartIff(before, ops[|ops| - 1]);
      }
      if AllClear(ops[..|ops| - 1]) {
        assert AlwaysApart(ops[..|ops| - 1]);
      }
    }
  }

  lemma {:induction false} RunNoWider(loans: seq<Loan>, ops: seq<Op>)
    requires RegularTable(loans)
    ensures RegularTable(Run(loans, ops)) && |loans| <= |Run(loans, ops)|
    ensures forall k :: 0 <= k < |loans| ==> NoWider(loans[k], Run(loans, ops)[k])
  {
    if ops != [] {
      var before := Run(loans, ops[..|ops| - 1]);
      RunNoWider(loans, ops[..|ops| - 1]);
      StepRegular(before, ops[|ops| - 1]);
      StepNoWider(before, ops[|ops| - 1]);
      forall k | 0 <= k < |loans| ensures NoWider(loans[k], Run(loans, ops)[k]) {
        assert NoWider(loans[k], before[k]) && NoWider(before[k], Run(loans, ops)[k]);
      }
    }
  }

  /** None of the loans from position n on is open and names one of the items. */
  ghost predicate NoneSince(loans: seq<Loan>, n: nat, items: seq<nat>)
  {
    forall k :: n <= k < |loans| ==> !Names(loans[k], items)
  }

  /**
   Once a creation has passed its checks, its items are still free when it
   inserts, whatever ran between, exactly when no loan opened since then names
   one of them.
   */
  lemma StillClearIff(
    loans: seq<Loan>, source: string, destination: string, items: seq<nat>, homes: seq<string>, between: seq<Op>)
    requires RegularTable(loans) && CheckCreate(loans, source, destination, items, homes).Ok?
    ensures Clear(Run(loans, between), items) <==> NoneSince(Run(loans, between), |loans|, items)
  {
    var after := Run(loans, between);
    RunNoWider(loans, between);
    forall k | 0 <= k < |loans| ensures !Names(after[k], items) {
      assert NoWider(loans[k], after[k]);
    }
  }

  /**
   A creation that passed its checks keeps items apart exactly when no loan
   opened between the checks and the insert names one of its items.
   */
  lemma CreationKeepsApartIff(
    loans: seq<Loan>, source: string, destination: string, items: seq<nat>, dueDate: int, homes: seq<string>,
    between: seq<Op>)
    requires RegularTable(loans) && CheckCreate(loans, source, destination, items, homes).Ok?
    requires Apart(Run(loans, between))
    ensures Apart(Next(Run(loans, between), Insert(source, destination, items, dueDate)))
            <==> NoneSince(Run(loans, between), |loans|, items)
  {
    RunNoWider(loans, between);
    StillClearIff(loans, source, destination, items, homes, between);
    StepApartIff(Run(loans, between), Insert(source, destination, items, dueDate));
  }

  /** Two creations of one item that both check before either inserts leave it on two open loans. */
  lemma OneItemTwoLoans() returns (ops: seq<Op>)
    ensures CheckCreate([], "a", "b", [0], ["a"]).Ok? && CheckCreate([], "a", "c", [0], ["a"]).Ok?
    ensures ops == [Insert("a", "b", [0], 10), Insert("a", "c", [0], 20)]
    ensures !Apart(Run([], ops))
  {
    var first, second := Insert("a", "b", [0], 10), Insert("a", "c", [0], 20);
    RunSnoc([], [], first);
    RunSnoc([], [first], second);
    assert [] + [first] == [first] && [first] + [second] == [first, second];
    ops := [first, second];
    var loans := Run([], ops);
    assert loans == [NewLoan("a", "b", [0], 10), NewLoan("a", "c", [0], 20)];
    assert loans[0].items[0] in loans[1].items;
    assert Overlap(loans[0], loans[1]);
  }
}
