/** Which loan calls go through in which status, and exactly what they write. */
module LoanAnswers {
  import opened Seqs
  import opened Wrappers
  import opened Loans
  import opened LoanLifecycle

  /** A loan is created for distinct rows of the source warehouse, none of which an open loan names. */
  lemma CreationIff(loans: seq<Loan>, source: string, destination: string, items: seq<nat>, homes: seq<string>)
    ensures CheckCreate(loans, source, destination, items, homes).Ok?
            <==> && source != destination && items != []
                 && (forall j, k :: 0 <= j < k < |items| ==> items[j] != items[k])
                 && (forall k :: 0 <= k < |items| ==> items[k] < |homes| && homes[items[k]] == source)
                 && (forall j, k :: 0 <= j < |loans| && 0 <= k < |items| && items[k] in loans[j].items ==>
                       loans[j].status in {RETURNED, CANCELLED, ACTIVE})
  {
    if forall k :: 0 <= k < |items| ==> !OnLoan(loans, items[k]) {
      forall j, k | 0 <= j < |loans| && 0 <= k < |items| && items[k] in loans[j].items
        ensures loans[j].status in {RETURNED, CANCELLED, ACTIVE}
      {
        assert !OnLoan(loans, items[k]);
      }
    }
  }

  /** Otherwise the first check that fails decides. */
  lemma CreationRefused(loans: seq<Loan>, source: string, destination: string, items: seq<nat>, homes: seq<string>)
    ensures var r := CheckCreate(loans, source, destination, items, homes);
            r.Err? ==>
              r.error == if source == destination then SAME_SOURCE_AND_DESTINATION
                         else if items == [] then ITEMS_REQUIRED
                         else if exists j, k :: 0 <= j < k < |items| && items[j] == items[k] then DUPLICATE_INVENTORY_ITEM
                         else if exists k :: 0 <= k < |items| && items[k] >= |homes| then NOT_FOUND
                         else if exists k :: 0 <= k < |items| && items[k] < |homes| && homes[items[k]] != source
                         then ITEM_NOT_IN_SOURCE_WAREHOUSE
                         else ITEMS_ALREADY_ON_LOAN
  {
  }

  /** No call but an insert goes through on a loan that is not there. */
  lemma NoSuchLoan(loans: seq<Loan>, id: nat, code: Code, now: int, date: Option<int>)
    requires id >= |loans|
    ensures Step(loans, Send(id, code)) == Err(NOT_FOUND) && Step(loans, InitiateReturn(id, code)) == Err(NOT_FOUND)
    ensures Step(loans, ManualConfirmReceipt(id, now)) == Err(NOT_FOUND)
    ensures Step(loans, ManualConfirmReturn(id, now)) == Err(NOT_FOUND)
    ensures Step(loans, ReturnLoan(id, now)) == Err(NOT_FOUND) && Step(loans, Cancel(id)) == Err(NOT_FOUND)
    ensures Step(loans, EditLoan(id, date)) == Err(NOT_FOUND)
  {
  }

  /** The inserted row: pending, with nothing sent, received or returned. */
  lemma InsertedRow(loans: seq<Loan>, source: string, destination: string, items: seq<nat>, dueDate: int)
    ensures Step(loans, Insert(source, destination, items, dueDate))
            == Ok(loans + [Loan(PENDING, source, destination, items, dueDate, None, None, None, None, None)])
  {
  }

  /** A PENDING loan is sent, under a code no loan was sent with before. */
  lemma SendIff(loans: seq<Loan>, id: nat, code: Code)
    requires id < |loans|
    ensures Step(loans, Send(id, code))
            == (if loans[id].status != PENDING then Err(LOAN_NOT_PENDING)
                else if exists k :: 0 <= k < |loans| && loans[k].sendQrCode == Some(code) then Err(CODE_ALREADY_USED)
                else Ok(loans[id := loans[id].(status := SENT, sendQrCode := Some(code))]))
  {
  }

  /** A RECEIVED, OVERDUE or legacy ACTIVE loan starts its return, under a code no return was started with before. */
  lemma InitiateReturnIff(loans: seq<Loan>, id: nat, code: Code)
    requires id < |loans|
    ensures Step(loans, InitiateReturn(id, code))
            == (if loans[id].status !in {RECEIVED, OVERDUE, ACTIVE} then Err(LOAN_RETURN_INVALID_STATUS)
                else if exists k :: 0 <= k < |loans| && loans[k].returnQrCode == Some(code) then Err(CODE_ALREADY_USED)
                else Ok(loans[id := loans[id].(status := RETURN_PENDING, returnQrCode := Some(code))]))
  {
  }

  /** By hand, a loan is received while SENT, or OVERDUE without a receipt; and returned while RETURN_PENDING, or OVERDUE with one. */
  lemma ByHandIff(loans: seq<Loan>, id: nat, now: int)
    requires id < |loans|
    ensures var loan := loans[id];
            && Step(loans, ManualConfirmReceipt(id, now))
               == (if loan.status !in {SENT, OVERDUE} then Err(LOAN_RECEIPT_INVALID_STATUS)
                   else if loan.status == OVERDUE && loan.receivedAt != None then Err(LOAN_ALREADY_RECEIVED)
                   else Ok(loans[id := loan.(status := RECEIVED, receivedAt := Some(now))]))
            && Step(loans, ManualConfirmReturn(id, now))
               == (if loan.status !in {RETURN_PENDING, OVERDUE} then Err(LOAN_RETURN_CONFIRM_INVALID_STATUS)
                   else if loan.status == OVERDUE && loan.receivedAt == None then Err(LOAN_NEVER_RECEIVED)
                   else Ok(loans[id := loan.(status := RETURNED, returnDate := Some(now), returnConfirmedAt := Some(now))]))
  {
  }

  /** A loan that went out is returned directly in any status but RETURNED and CANCELLED; and cancelled in any but those two. */
  lemma EndingIff(loans: seq<Loan>, id: nat, date: int)
    requires id < |loans|
    ensures var loan := loans[id];
            && Step(loans, ReturnLoan(id, date))
               == (if loan.status == RETURNED then Err(LOAN_ALREADY_RETURNED)
                   else if loan.status in {PENDING, SENT, CANCELLED} then Err(LOAN_RETURN_INVALID_STATUS)
                   else Ok(loans[id := loan.(status := RETURNED, returnDate := Some(date))]))
            && Step(loans, Cancel(id))
               == (if loan.status in {RETURNED, CANCELLED} then Err(LOAN_NOT_CANCELLABLE)
                   else Ok(loans[id := loan.(status := CANCELLED)]))
            && Step(loans, EditLoan(id, Some(date))) == Ok(loans[id := loan.(returnDate := Some(date))])
            && Step(loans, EditLoan(id, None)) == Ok(loans)
  {
  }

  /** Scanning a loan's send code receives it if it is SENT. */
  lemma ReceiptByCodeIff(ops: seq<Op>, id: nat, code: Code, now: int)
    requires id < |Run([], ops)| && Run([], ops)[id].sendQrCode == Some(code)
    ensures var loans := Run([], ops);
            Step(loans, ConfirmReceipt(code, now))
            == (if loans[id].status != SENT then Err(LOAN_RECEIPT_INVALID_STATUS)
                else Ok(loans[id := loans[id].(status := RECEIVED, receivedAt := Some(now))]))
  {
    CodeFindsItsLoan(ops, id, code);
  }

  /** Scanning a loan's return code returns it if it is RETURN_PENDING. */
  lemma ReturnByCodeIff(ops: seq<Op>, id: nat, code: Code, now: int)
    requires id < |Run([], ops)| && Run([], ops)[id].returnQrCode == Some(code)
    ensures var loans := Run([], ops);
            Step(loans, ConfirmReturn(code, now))
            == (if loans[id].status != RETURN_PENDING then Err(LOAN_RETURN_CONFIRM_INVALID_STATUS)
                else Ok(loans[id :=
                  loans[id].(status := RETURNED, returnDate := Some(now), returnConfirmedAt := Some(now))]))
  {
    RunRegular(ops);
    var loans := Run([], ops);
    assert ReturnCodeUsed(loans, code);
    OneReturnPerCode(loans, FindByReturnCode(loans, code).value, id);
  }

  lemma OneReturnPerCode(loans: seq<Loan>, j: nat, k: nat)
    requires RegularTable(loans) && j < |loans| && k < |loans| && SameCode(loans[j].returnQrCode, loans[k].returnQrCode)
    ensures j == k
  {
    assert SameCode(loans[k].returnQrCode, loans[j].returnQrCode);
  }

  /** A code nobody holds is refused. */
  lemma UnknownCodes(loans: seq<Loan>, code: Code, now: int)
    ensures (forall k :: 0 <= k < |loans| ==> loans[k].sendQrCode != Some(code)) ==>
              Step(loans, ConfirmReceipt(code, now)) == Err(NOT_FOUND)
    ensures (forall k :: 0 <= k < |loans| ==> loans[k].returnQrCode != Some(code)) ==>
              Step(loans, ConfirmReturn(code, now)) == Err(NOT_FOUND)
  {
  }

  /** The overdue check marks exactly the SENT and RECEIVED loans past their due date that touch a warehouse of the user. */
  lemma OverdueIs(loans: seq<Loan>, only: Option<set<string>>, now: int, k: nat)
    requires k < |loans|
    ensures var loan := loans[k];
            && |MarkOverdue(loans, only, now)| == |loans|
            && MarkOverdue(loans, only, now)[k]
               == if loan.status in {SENT, RECEIVED} && loan.dueDate < now
                     && (only == None || loan.source in only.value || loan.destination in only.value)
                  then loan.(status := OVERDUE) else loan
  {
  }
}
