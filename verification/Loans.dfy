/** Loans between warehouses. A loan moves no stock; its life is its status, its two codes and its receipt. */
module Loans {
  import opened Seqs
  import opened Wrappers

  /** ACTIVE is a legacy status some operations still accept; no operation writes it. */
  datatype LoanStatus = PENDING | SENT | RECEIVED | RETURN_PENDING | RETURNED | OVERDUE | CANCELLED | ACTIVE

  /** Codes are what the QR images carry. */
  type Code = nat

  datatype Loan = Loan(
    status: LoanStatus, source: string, destination: string, items: seq<nat>, dueDate: int,
    sendQrCode: Option<Code>, returnQrCode: Option<Code>,
    receivedAt: Option<int>, returnDate: Option<int>, returnConfirmedAt: Option<int>)

  datatype Error =
    | NOT_FOUND
    | SAME_SOURCE_AND_DESTINATION
    | ITEMS_REQUIRED
    | DUPLICATE_INVENTORY_ITEM
    | ITEM_NOT_IN_SOURCE_WAREHOUSE
    | ITEMS_ALREADY_ON_LOAN
    | LOAN_NOT_PENDING
    | LOAN_RECEIPT_INVALID_STATUS
    | LOAN_ALREADY_RECEIVED
    | LOAN_NEVER_RECEIVED
    | LOAN_RETURN_INVALID_STATUS
    | LOAN_RETURN_CONFIRM_INVALID_STATUS
    | LOAN_ALREADY_RETURNED
    | LOAN_NOT_CANCELLABLE
    | CODE_ALREADY_USED

  type Outcome = Result<seq<Loan>, Error>

  /**
   Insert is the transaction of a creation. Its checks came before it, outside
   any transaction, so other operations may have run in between.
   */
  datatype Op =
    | Insert(source: string, destination: string, items: seq<nat>, dueDate: int)
    | Send(id: nat, code: Code)
    | ConfirmReceipt(code: Code, now: int)
    | InitiateReturn(id: nat, code: Code)
    | ConfirmReturn(code: Code, now: int)
    | ManualConfirmReceipt(id: nat, now: int)
    | ManualConfirmReturn(id: nat, now: int)
    | ReturnLoan(id: nat, date: int)
    | EditLoan(id: nat, returnDate: Option<int>)
    | Cancel(id: nat)
    | CheckOverdue(only: Option<set<string>>, now: int)

  /** The statuses in which a loan keeps its items. */
  predicate IsOpen(status: LoanStatus)
  {
    status.PENDING? || status.SENT? || status.RECEIVED? || status.RETURN_PENDING? || status.OVERDUE?
  }

  predicate OnLoan(loans: seq<Loan>, item: nat)
  {
    exists k :: 0 <= k < |loans| && IsOpen(loans[k].status) && item in loans[k].items
  }

  function NewLoan(source: string, destination: string, items: seq<nat>, dueDate: int): Loan
  {
    Loan(PENDING, source, destination, items, dueDate, None, None, None, None, None)
  }

  /** What creation checks before its transaction; `homes` gives the warehouse each inventory row is in. */
  function CheckCreate(
    loans: seq<Loan>, source: string, destination: string, items: seq<nat>, homes: seq<string>): Result<(), Error>
  {
    if source == destination then Err(SAME_SOURCE_AND_DESTINATION)
    else if items == [] then Err(ITEMS_REQUIRED)
    else if !Distinct(items) then Err(DUPLICATE_INVENTORY_ITEM)
    else if exists k :: 0 <= k < |items| && items[k] >= |homes| then Err(NOT_FOUND)
    else if exists k :: 0 <= k < |items| && homes[items[k]] != source then Err(ITEM_NOT_IN_SOURCE_WAREHOUSE)
    else if exists k :: 0 <= k < |items| && OnLoan(loans, items[k]) then Err(ITEMS_ALREADY_ON_LOAN)
    else Ok(())
  }

  predicate SendCodeUsed(loans: seq<Loan>, code: Code)
  {
    exists k :: 0 <= k < |loans| && loans[k].sendQrCode == Some(code)
  }

  predicate ReturnCodeUsed(loans: seq<Loan>, code: Code)
  {
    exists k :: 0 <= k < |loans| && loans[k].returnQrCode == Some(code)
  }

  /** The code columns are unique. */
  function SendLoan(loans: seq<Loan>, id: nat, code: Code): Outcome
  {
    if id >= |loans| then Err(NOT_FOUND)
    else if !loans[id].status.PENDING? then Err(LOAN_NOT_PENDING)
    else if SendCodeUsed(loans, code) then Err(CODE_ALREADY_USED)
    else Ok(loans[id := loans[id].(status := SENT, sendQrCode := Some(code))])
  }

  /** The loan a scanned code belongs to. */
  function FindBySendCode(loans: seq<Loan>, code: Code): (r: Option<nat>)
    ensures r.Some? ==> r.value < |loans| && loans[r.value].sendQrCode == Some(code)
    ensures r.None? ==> !SendCodeUsed(loans, code)
  {
    if loans == [] then None
    else
      var n := |loans| - 1;
      var earlier := FindBySendCode(loans[..n], code);
      if earlier.Some? then earlier
      else if loans[n].sendQrCode == Some(code) then Some(n)
      else
        assert forall k :: 0 <= k < n ==> loans[..n][k] == loans[k];
        None
  }

  function FindByReturnCode(loans: seq<Loan>, code: Code): (r: Option<nat>)
    ensures r.Some? ==> r.value < |loans| && loans[r.value].returnQrCode == Some(code)
    ensures r.None? ==> !ReturnCodeUsed(loans, code)
  {
    if loans == [] then None
    else
      var n := |loans| - 1;
      var earlier := FindByReturnCode(loans[..n], code);
      if earlier.Some? then earlier
      else if loans[n].returnQrCode == Some(code) then Some(n)
      else
        assert forall k :: 0 <= k < n ==> loans[..n][k] == loans[k];
        None
  }

  function Received(loan: Loan, now: int): Loan
  {
    loan.(status := RECEIVED, receivedAt := Some(now))
  }

  function Returned(loan: Loan, now: int): Loan
  {
    loan.(status := RETURNED, returnDate := Some(now), returnConfirmedAt := Some(now))
  }

  function ConfirmReceiptByCode(loans: seq<Loan>, code: Code, now: int): Outcome
  {
    var found := FindBySendCode(loans, code);
    if found.None? then Err(NOT_FOUND)
    else if !loans[found.value].status.SENT? then Err(LOAN_RECEIPT_INVALID_STATUS)
    else Ok(loans[found.value := Received(loans[found.value], now)])
  }

  predicate MayInitiateReturn(status: LoanStatus)
  {
    status.RECEIVED? || status.OVERDUE? || status.ACTIVE?
  }

  function StartReturn(loans: seq<Loan>, id: nat, code: Code): Outcome
  {
    if id >= |loans| then Err(NOT_FOUND)
    else if !MayInitiateReturn(loans[id].status) then Err(LOAN_RETURN_INVALID_STATUS)
    else if ReturnCodeUsed(loans, code) then Err(CODE_ALREADY_USED)
    else Ok(loans[id := loans[id].(status := RETURN_PENDING, returnQrCode := Some(code))])
  }

  function ConfirmReturnByCode(loans: seq<Loan>, code: Code, now: int): Outcome
  {
    var found := FindByReturnCode(loans, code);
    if found.None? then Err(NOT_FOUND)
    else if !loans[found.value].status.RETURN_PENDING? then Err(LOAN_RETURN_CONFIRM_INVALID_STATUS)
    else Ok(loans[found.value := Returned(loans[found.value], now)])
  }

  function ConfirmReceiptByHand(loans: seq<Loan>, id: nat, now: int): Outcome
  {
    if id >= |loans| then Err(NOT_FOUND)
    else if !loans[id].status.SENT? && !loans[id].status.OVERDUE? then Err(LOAN_RECEIPT_INVALID_STATUS)
    else if loans[id].status.OVERDUE? && loans[id].receivedAt.Some? then Err(LOAN_ALREADY_RECEIVED)
    else Ok(loans[id := Received(loans[id], now)])
  }

  function ConfirmReturnByHand(loans: seq<Loan>, id: nat, now: int): Outcome
  {
    if id >= |loans| then Err(NOT_FOUND)
    else if !loans[id].status.RETURN_PENDING? && !loans[id].status.OVERDUE? then Err(LOAN_RETURN_CONFIRM_INVALID_STATUS)
    else if loans[id].status.OVERDUE? && loans[id].receivedAt.None? then Err(LOAN_NEVER_RECEIVED)
    else Ok(loans[id := Returned(loans[id], now)])
  }

  /** The older way back, without a code. */
  function ReturnDirectly(loans: seq<Loan>, id: nat, date: int): Outcome
  {
    if id >= |loans| then Err(NOT_FOUND)
    else if loans[id].status.RETURNED? then Err(LOAN_ALREADY_RETURNED)
    else if !MayInitiateReturn(loans[id].status) && !loans[id].status.RETURN_PENDING? then Err(LOAN_RETURN_INVALID_STATUS)
    else Ok(loans[id := loans[id].(status := RETURNED, returnDate := Some(date))])
  }

  /** The generic update drops any status it is sent. */
  function EditRow(loans: seq<Loan>, id: nat, returnDate: Option<int>): Outcome
  {
    if id >= |loans| then Err(NOT_FOUND)
    else if returnDate.None? then Ok(loans)
    else Ok(loans[id := loans[id].(returnDate := returnDate)])
  }

  function CancelLoan(loans: seq<Loan>, id: nat): Outcome
  {
    if id >= |loans| then Err(NOT_FOUND)
    else if loans[id].status.RETURNED? || loans[id].status.CANCELLED? then Err(LOAN_NOT_CANCELLABLE)
    else Ok(loans[id := loans[id].(status := CANCELLED)])
  }

  predicate IsVisible(loan: Loan, only: Option<set<string>>)
  {
    only.Some? ==> loan.source in only.value || loan.destination in only.value
  }

  predicate IsDue(loan: Loan, only: Option<set<string>>, now: int)
  {
    (loan.status.SENT? || loan.status.RECEIVED?) && loan.dueDate < now && IsVisible(loan, only)
  }

  function MarkOverdue(loans: seq<Loan>, only: Option<set<string>>, now: int): seq<Loan>
  {
    seq(|loans|, k requires 0 <= k < |loans| =>
      if IsDue(loans[k], only, now) then loans[k].(status := OVERDUE) else loans[k])
  }

  function Step(loans: seq<Loan>, op: Op): Outcome
  {
    match op
    case Insert(source, destination, items, dueDate) => Ok(loans + [NewLoan(source, destination, items, dueDate)])
    case Send(id, code) => SendLoan(loans, id, code)
    case ConfirmReceipt(code, now) => ConfirmReceiptByCode(loans, code, now)
    case InitiateReturn(id, code) => StartReturn(loans, id, code)
    case ConfirmReturn(code, now) => ConfirmReturnByCode(loans, code, now)
    case ManualConfirmReceipt(id, now) => ConfirmReceiptByHand(loans, id, now)
    case ManualConfirmReturn(id, now) => ConfirmReturnByHand(loans, id, now)
    case ReturnLoan(id, date) => ReturnDirectly(loans, id, date)
    case EditLoan(id, returnDate) => EditRow(loans, id, returnDate)
    case Cancel(id) => CancelLoan(loans, id)
    case CheckOverdue(only, now) => Ok(MarkOverdue(loans, only, now))
  }

  function Next(loans: seq<Loan>, op: Op): seq<Loan>
  {
    match Step(loans, op)
    case Ok(after) => after
    case Err(_) => loans
  }

  function Run(loans: seq<Loan>, ops: seq<Op>): seq<Loan>
  {
    if ops == [] then loans else Next(Run(loans, ops[..|ops| - 1]), ops[|ops| - 1])
  }

  lemma RunSnoc(loans: seq<Loan>, ops: seq<Op>, op: Op)
    ensures Run(loans, ops + [op]) == Next(Run(loans, ops), op)
  {
    assert (ops + [op])[..|ops|] == ops;
  }

  /** What a call leaves behind: its specified rows, or the rows as they were and its error. */
  predicate Settles(before: seq<Loan>, spec: Outcome, after: seq<Loan>, r: Result<(), Error>)
  {
    match spec
    case Ok(loans) => r.Ok? && after == loans
    case Err(e) => r == Err(e) && after == before
  }

  class LoansService {
    var loans: seq<Loan>

    constructor (loans: seq<Loan>)
      ensures this.loans == loans
    {
      this.loans := loans;
    }

    /** Checks, then inserts; between the two other calls may change the loans. */
    method Create(source: string, destination: string, items: seq<nat>, dueDate: int, homes: seq<string>)
      returns (r: Result<(), Error>)
      modifies this
      ensures r == CheckCreate(old(loans), source, destination, items, homes)
      ensures loans == if r.Ok? then Next(old(loans), Insert(source, destination, items, dueDate)) else old(loans)
    {
      r := Validate(source, destination, items, homes);
      if r.Ok? {
        InsertLoan(source, destination, items, dueDate);
      }
    }

    method Validate(source: string, destination: string, items: seq<nat>, homes: seq<string>)
      returns (r: Result<(), Error>)
      ensures r == CheckCreate(loans, source, destination, items, homes)
    {
      if source == destination {
        return Err(SAME_SOURCE_AND_DESTINATION);
      }
      if items == [] {
        return Err(ITEMS_REQUIRED);
      }
      if !Distinct(items) {
        return Err(DUPLICATE_INVENTORY_ITEM);
      }
      if exists k :: 0 <= k < |items| && items[k] >= |homes| {
        return Err(NOT_FOUND);
      }
      if exists k :: 0 <= k < |items| && homes[items[k]] != source {
        return Err(ITEM_NOT_IN_SOURCE_WAREHOUSE);
      }
      if exists k :: 0 <= k < |items| && OnLoan(loans, items[k]) {
        return Err(ITEMS_ALREADY_ON_LOAN);
      }
      return Ok(());
    }

    method InsertLoan(source: string, destination: string, items: seq<nat>, dueDate: int)
      modifies this
      ensures loans == Next(old(loans), Insert(source, destination, items, dueDate))
      ensures |loans| == |old(loans)| + 1 && loans[..|old(loans)|] == old(loans) && IsOpen(loans[|old(loans)|].status)
    {
      loans := loans + [NewLoan(source, destination, items, dueDate)];
    }

    method SendLoan(id: nat, code: Code) returns (r: Result<(), Error>)
      modifies this
      ensures Settles(old(loans), Step(old(loans), Send(id, code)), loans, r)
    {
      if id >= |loans| {
        return Err(NOT_FOUND);
      }
      var current := loans[id];
      if !current.status.PENDING? {
        return Err(LOAN_NOT_PENDING);
      }
      if SendCodeUsed(loans, code) {
        return Err(CODE_ALREADY_USED);
      }
      loans := loans[id := current.(status := SENT, sendQrCode := Some(code))];
      return Ok(());
    }

    method ConfirmReceipt(code: Code, now: int) returns (r: Result<(), Error>)
      modifies this
      ensures Settles(old(loans), Step(old(loans), Op.ConfirmReceipt(code, now)), loans, r)
    {
      var found := FindBySendCode(loans, code);
      if found.None? {
        return Err(NOT_FOUND);
      }
      var current := loans[found.value];
      if !current.status.SENT? {
        return Err(LOAN_RECEIPT_INVALID_STATUS);
      }
      loans := loans[found.value := current.(status := RECEIVED, receivedAt := Some(now))];
      return Ok(());
    }

    method InitiateReturn(id: nat, code: Code) returns (r: Result<(), Error>)
      modifies this
      ensures Settles(old(loans), Step(old(loans), Op.InitiateReturn(id, code)), loans, r)
    {
      if id >= |loans| {
        return Err(NOT_FOUND);
      }
      var current := loans[id];
      if !current.status.RECEIVED? && !current.status.OVERDUE? && !current.status.ACTIVE? {
        return Err(LOAN_RETURN_INVALID_STATUS);
      }
      if ReturnCodeUsed(loans, code) {
        return Err(CODE_ALREADY_USED);
      }
      loans := loans[id := current.(status := RETURN_PENDING, returnQrCode := Some(code))];
      return Ok(());
    }

    method ConfirmReturn(code: Code, now: int) returns (r: Result<(), Error>)
      modifies this
      ensures Settles(old(loans), Step(old(loans), Op.ConfirmReturn(code, now)), loans, r)
    {
      var found := FindByReturnCode(loans, code);
      if found.None? {
        return Err(NOT_FOUND);
      }
      var current := loans[found.value];
      if !current.status.RETURN_PENDING? {
        return Err(LOAN_RETURN_CONFIRM_INVALID_STATUS);
      }
      loans := loans[found.value :=
        current.(status := RETURNED, returnDate := Some(now), returnConfirmedAt := Some(now))];
      return Ok(());
    }

    method ManualConfirmReceipt(id: nat, now: int) returns (r: Result<(), Error>)
      modifies this
      ensures Settles(old(loans), Step(old(loans), Op.ManualConfirmReceipt(id, now)), loans, r)
    {
      if id >= |loans| {
        return Err(NOT_FOUND);
      }
      var current := loans[id];
      if !current.status.SENT? && !current.status.OVERDUE? {
        return Err(LOAN_RECEIPT_INVALID_STATUS);
      }
      if current.status.OVERDUE? && current.receivedAt.Some? {
        return Err(LOAN_ALREADY_RECEIVED);
      }
      loans := loans[id := current.(status := RECEIVED, receivedAt := Some(now))];
      return Ok(());
    }

    method ManualConfirmReturn(id: nat, now: int) returns (r: Result<(), Error>)
      modifies this
      ensures Settles(old(loans), Step(old(loans), Op.ManualConfirmReturn(id, now)), loans, r)
    {
      if id >= |loans| {
        return Err(NOT_FOUND);
      }
      var current := loans[id];
      if !current.status.RETURN_PENDING? && !current.status.OVERDUE? {
        return Err(LOAN_RETURN_CONFIRM_INVALID_STATUS);
      }
      if current.status.OVERDUE? && current.receivedAt.None? {
        return Err(LOAN_NEVER_RECEIVED);
      }
      loans := loans[id := current.(status := RETURNED, returnDate := Some(now), returnConfirmedAt := Some(now))];
      return Ok(());
    }

    method ReturnLoan(id: nat, date: int) returns (r: Result<(), Error>)
      modifies this
      ensures Settles(old(loans), Step(old(loans), Op.ReturnLoan(id, date)), loans, r)
    {
      if id >= |loans| {
        return Err(NOT_FOUND);
      }
      var current := loans[id];
      if current.status.RETURNED? {
        return Err(LOAN_ALREADY_RETURNED);
      }
      if !current.status.RECEIVED? && !current.status.OVERDUE? && !current.status.ACTIVE?
         && !current.status.RETURN_PENDING? {
        return Err(LOAN_RETURN_INVALID_STATUS);
      }
      loans := loans[id := current.(status := RETURNED, returnDate := Some(date))];
      return Ok(());
    }

    method Cancel(id: nat) returns (r: Result<(), Error>)
      modifies this
      ensures Settles(old(loans), Step(old(loans), Op.Cancel(id)), loans, r)
    {
      if id >= |loans| {
        return Err(NOT_FOUND);
      }
      var current := loans[id];
      if current.status.RETURNED? || current.status.CANCELLED? {
        return Err(LOAN_NOT_CANCELLABLE);
      }
      loans := loans[id := current.(status := CANCELLED)];
      return Ok(());
    }

    /** Afterwards no visible loan out past its due date says otherwise, and nothing else has changed. */
    method CheckOverdueLoans(only: Option<set<string>>, now: int)
      modifies this
      ensures loans == Next(old(loans), CheckOverdue(only, now))
      ensures |loans| == |old(loans)|
      ensures forall k :: 0 <= k < |loans| && IsVisible(loans[k], only) && (loans[k].status.SENT? || loans[k].status.RECEIVED?) ==>
                now <= loans[k].dueDate
      ensures forall k :: 0 <= k < |loans| && loans[k] != old(loans[k]) ==>
                && IsVisible(loans[k], only) && loans[k].dueDate < now
                && (old(loans[k]).status.SENT? || old(loans[k]).status.RECEIVED?)
                && loans[k] == old(loans[k]).(status := OVERDUE)
    {
      loans := MarkOverdue(loans, only, now);
    }
  }
}
