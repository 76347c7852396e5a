/**
 What a transaction does to the committed rows when nothing runs beside it:
 the serial meaning that interleaved transactions are compared with. Lines are
 signed here, so one vocabulary covers every kind of document.
 */
module Jobs {
  import opened Seqs
  import opened Wrappers

  datatype Move = Move(item: nat, delta: int)

  datatype Kind = SALE | PURCHASE | OUTFLOW | TRANSACTION | STOCK_TAKE | DISCHARGE | TRANSFER

  /** ADJUSTED: a stock take COMPLETED with its variances applied. DELETED: a transaction's row is gone. */
  datatype Status =
    | DRAFT | PENDING | APPROVED | SENT | IN_PROGRESS | ACTIVE | COMPLETED | ADJUSTED | CANCELLED | REJECTED | DELETED

  /**
   `origin` is the discharge an outflow was recorded for. `applied` and
   `undone` are the model's bookkeeping: how often the document's lines were
   added to the stock, and how often they were taken back out.
   */
  datatype Doc = Doc(kind: Kind, status: Status, lines: seq<Move>, origin: Option<nat>, applied: nat, undone: nat)

  datatype Action = CONFIRM | COMPLETE | COMPLETE_UNCHANGED | APPROVE | REJECT | CANCEL | REMOVE

  datatype Job =
    | Create(kind: Kind, status: Status, lines: seq<Move>)
    | Act(id: nat, action: Action)
    | Edit(id: nat, lines: seq<Move>)
    | SetStatus(id: nat)
    | SetQuantity(item: nat, quantity: nat)

  /** `entered` is bookkeeping: what each row holds apart from the documents. */
  datatype Rows = Rows(qty: seq<int>, entered: seq<int>, docs: seq<Doc>)

  predicate CanStartAs(kind: Kind, status: Status)
  {
    match kind
    case SALE => status.DRAFT? || status.ACTIVE?
    case PURCHASE => status.ACTIVE?
    case OUTFLOW => status.ACTIVE?
    case TRANSACTION => status.ACTIVE?
    case STOCK_TAKE => status.IN_PROGRESS?
    case DISCHARGE => status.PENDING?
    case TRANSFER => status.PENDING?
  }

  /** The status an action leads to, or None where the service throws. */
  function Transition(kind: Kind, status: Status, action: Action): Option<Status>
  {
    match (kind, action)
    case (SALE, CONFIRM) => if status.DRAFT? then Some(ACTIVE) else None
    case (SALE, CANCEL) => if !status.CANCELLED? then Some(CANCELLED) else None
    case (PURCHASE, CANCEL) => if !status.CANCELLED? then Some(CANCELLED) else None
    case (OUTFLOW, CANCEL) => if !status.CANCELLED? then Some(CANCELLED) else None
    case (TRANSACTION, REMOVE) => if !status.DELETED? then Some(DELETED) else None
    case (STOCK_TAKE, COMPLETE) => if status.IN_PROGRESS? then Some(ADJUSTED) else None
    case (STOCK_TAKE, COMPLETE_UNCHANGED) => if status.IN_PROGRESS? then Some(COMPLETED) else None
    case (STOCK_TAKE, CANCEL) => if !status.COMPLETED? && !status.ADJUSTED? then Some(CANCELLED) else None
    case (DISCHARGE, COMPLETE) => if status.PENDING? then Some(COMPLETED) else None
    case (TRANSFER, APPROVE) => if status.PENDING? then Some(APPROVED) else None
    case (TRANSFER, REJECT) => if status.PENDING? then Some(REJECTED) else None
    case (TRANSFER, COMPLETE) => if status.SENT? then Some(COMPLETED) else None
    case (TRANSFER, CANCEL) =>
      if !status.COMPLETED? && !status.REJECTED? && !status.CANCELLED? then Some(CANCELLED) else None
    case (_, _) => None
  }

  /** Rejecting a discharge and sending a transfer read the status without locking the row. */
  function UnlockedFrom(kind: Kind): Option<Status>
  {
    if kind.DISCHARGE? then Some(PENDING) else if kind.TRANSFER? then Some(APPROVED) else None
  }

  function UnlockedTo(kind: Kind): Status
  {
    if kind.DISCHARGE? then REJECTED else SENT
  }

  /** Lines change in a quotation, and in a stock take being counted. */
  predicate Editable(d: Doc)
  {
    (d.kind.SALE? && d.status.DRAFT?) || (d.kind.STOCK_TAKE? && d.status.IN_PROGRESS?)
  }

  /** How often the lines of a document in this status are in the stock. */
  function Weight(kind: Kind, status: Status): (w: int)
    ensures w == 0 || w == 1
  {
    if status.ACTIVE? || (kind.STOCK_TAKE? && status.ADJUSTED?) then 1 else 0
  }

  /** +1 where a transition applies the document's lines, -1 where it takes them back, else 0. */
  function Sign(kind: Kind, from: Status, to: Status): int
  {
    if kind.TRANSFER? || kind.DISCHARGE? then (if to.COMPLETED? then 1 else 0)
    else Weight(kind, to) - Weight(kind, from)
  }

  function Signed(lines: seq<Move>, sign: int): seq<Move>
  {
    if sign == 0 then [] else seq(|lines|, k requires 0 <= k < |lines| => lines[k].(delta := sign * lines[k].delta))
  }

  function DeltaAt(item: nat): Move -> int
  {
    (m: Move) => if m.item == item then m.delta else 0
  }

  /** The change the moves make to one item. */
  function Delta(moves: seq<Move>, item: nat): int
  {
    SumOver(moves, DeltaAt(item))
  }

  /** The row updates a job makes, in order, decided when it reads the document; None where it throws. */
  function Moves(docs: seq<Doc>, job: Job): Option<seq<Move>>
  {
    match job
    case Create(kind, status, lines) =>
      if CanStartAs(kind, status) then Some(Signed(lines, Weight(kind, status))) else None
    case Act(id, action) =>
      if id >= |docs| then None
      else
        var to := Transition(docs[id].kind, docs[id].status, action);
        if to.None? then None else Some(Signed(docs[id].lines, Sign(docs[id].kind, docs[id].status, to.value)))
    case Edit(id, _) => if id < |docs| && Editable(docs[id]) then Some([]) else None
    case SetStatus(id) => if id < |docs| && UnlockedFrom(docs[id].kind).Some? then Some([]) else None
    case SetQuantity(_, _) => None
  }

  function Moved(doc: Doc, to: Status): Doc
  {
    var sign := if doc.kind.DISCHARGE? then 0 else Sign(doc.kind, doc.status, to);
    doc.(
      status := to,
      applied := doc.applied + (if sign == 1 then 1 else 0),
      undone := doc.undone + (if sign == -1 then 1 else 0))
  }

  /** The document rows a job writes. */
  function Filed(docs: seq<Doc>, job: Job): seq<Doc>
    requires Moves(docs, job).Some?
  {
    match job
    case Create(kind, status, lines) => docs + [Doc(kind, status, lines, None, Weight(kind, status), 0)]
    case Act(id, action) =>
      var moved := docs[id := Moved(docs[id], Transition(docs[id].kind, docs[id].status, action).value)];
      if docs[id].kind.DISCHARGE? then moved + [Doc(OUTFLOW, ACTIVE, docs[id].lines, Some(id), 1, 0)] else moved
    case Edit(id, lines) => docs[id := docs[id].(lines := lines)]
    case SetStatus(id) => docs[id := docs[id].(status := UnlockedTo(docs[id].kind))]
  }

  /** The guard of the k-th row update: the row exists and a decrement finds enough. */
  predicate Allowed(qty: seq<int>, moves: seq<Move>, k: nat)
    requires k < |moves|
  {
    && moves[k].item < |qty|
    && (moves[k].delta < 0 ==> qty[moves[k].item] + Delta(moves[..k + 1], moves[k].item) >= 0)
  }

  function Updated(qty: seq<int>, moves: seq<Move>): seq<int>
  {
    seq(|qty|, i requires 0 <= i < |qty| => qty[i] + Delta(moves, i))
  }

  /** The job run alone: all of it, or None. */
  function Atomically(rows: Rows, job: Job): Option<Rows>
  {
    if job.SetQuantity? then
      if job.item < |rows.qty| && job.item < |rows.entered| then
        Some(rows.(
          qty := rows.qty[job.item := job.quantity],
          entered := rows.entered[job.item := rows.entered[job.item] + job.quantity - rows.qty[job.item]]))
      else None
    else
      var moves := Moves(rows.docs, job);
      if moves.None? || exists k: nat :: k < |moves.value| && !Allowed(rows.qty, moves.value, k) then None
      else Some(rows.(qty := Updated(rows.qty, moves.value), docs := Filed(rows.docs, job)))
  }

  /** The jobs one after the other, or None if one of them is refused. */
  function Serially(rows: Rows, jobs: seq<Job>): Option<Rows>
  {
    if jobs == [] then Some(rows)
    else
      var before := Serially(rows, jobs[..|jobs| - 1]);
      if before.None? then None else Atomically(before.value, jobs[|jobs| - 1])
  }

  // What every serial run keeps

  function NetOf(item: nat): Doc -> int
  {
    (d: Doc) => (d.applied - d.undone) * Delta(d.lines, item)
  }

  /**
   The lines of a document are applied at most once and taken back at most
   once, and what is left in the stock is what its status says. Transfers,
   which can be sent again without a lock, promise less.
   */
  predicate DocOk(d: Doc)
  {
    match d.kind
    case TRANSFER => d.undone == 0
    case DISCHARGE => d.applied == 0 && d.undone == 0
    case _ =>
      && d.undone <= d.applied <= 1
      && d.applied - d.undone == Weight(d.kind, d.status)
      && (d.status.DRAFT? || d.status.IN_PROGRESS? ==> d.applied == 0)
  }

  /** An outflow recorded for a discharge: the request has been completed, even if it was rejected after. */
  predicate OriginOk(docs: seq<Doc>, d: Doc)
  {
    d.origin.Some? ==>
      && d.origin.value < |docs|
      && docs[d.origin.value].kind.DISCHARGE?
      && (docs[d.origin.value].status.COMPLETED? || docs[d.origin.value].status.REJECTED?)
  }

  /** No discharge has two outflows. */
  ghost predicate OneOutflowEach(docs: seq<Doc>)
  {
    && (forall j :: 0 <= j < |docs| ==> OriginOk(docs, docs[j]))
    && (forall j, k :: 0 <= j < k < |docs| && docs[j].origin.Some? ==> docs[j].origin != docs[k].origin)
  }

  ghost predicate Good(rows: Rows)
  {
    && |rows.qty| == |rows.entered|
    && (forall i :: 0 <= i < |rows.qty| ==> rows.qty[i] >= 0)
    && (forall i :: 0 <= i < |rows.qty| ==> rows.qty[i] == rows.entered[i] + SumOver(rows.docs, NetOf(i)))
    && (forall k :: 0 <= k < |rows.docs| ==> DocOk(rows.docs[k]))
    && OneOutflowEach(rows.docs)
  }

  lemma {:induction false} SignedDelta(lines: seq<Move>, sign: int, item: nat)
    ensures Delta(Signed(lines, sign), item) == sign * Delta(lines, item)
  {
    if lines != [] && sign != 0 {
      var n := |lines| - 1;
      SignedDelta(lines[..n], sign, item);
      assert Signed(lines, sign)[..n] == Signed(lines[..n], sign);
    }
  }

  /** Decrements are guarded one by one, so a row that ends lower has never gone below zero. */
  lemma {:induction false} AllowedStaysUp(qty: seq<int>, moves: seq<Move>, n: nat, item: nat)
    requires n <= |moves| && item < |qty| && qty[item] >= 0
    requires forall k: nat :: k < n ==> Allowed(qty, moves, k)
    ensures qty[item] + Delta(moves[..n], item) >= 0
  {
    if n > 0 {
      AllowedStaysUp(qty, moves, n - 1, item);
      assert moves[..n][..n - 1] == moves[..n - 1];
      assert Allowed(qty, moves, n - 1);
    }
  }

  lemma NetAfter(d: Doc, to: Status, item: nat)
    requires !d.kind.DISCHARGE?
    ensures NetOf(item)(Moved(d, to)) == NetOf(item)(d) + Sign(d.kind, d.status, to) * Delta(d.lines, item)
  {
    var sign, delta := Sign(d.kind, d.status, to), Delta(d.lines, item);
    var moved := Moved(d, to);
    assert moved.applied - moved.undone == d.applied - d.undone + sign;
    assert (d.applied - d.undone + sign) * delta == (d.applied - d.undone) * delta + sign * delta;
  }

  lemma ActNet(docs: seq<Doc>, id: nat, action: Action, item: nat)
    requires Moves(docs, Act(id, action)).Some? && DocOk(docs[id])
    ensures SumOver(Filed(docs, Act(id, action)), NetOf(item))
            == SumOver(docs, NetOf(item)) + Delta(Moves(docs, Act(id, action)).value, item)
  {
    var d := docs[id];
    var to := Transition(d.kind, d.status, action).value;
    var moved := docs[id := Moved(d, to)];
    SumUpdate(docs, id, Moved(d, to), NetOf(item));
    SignedDelta(d.lines, Sign(d.kind, d.status, to), item);
    if d.kind.DISCHARGE? {
      var outflow := Doc(OUTFLOW, ACTIVE, d.lines, Some(id), 1, 0);
      SumSnoc(moved, outflow, NetOf(item));
      assert NetOf(item)(outflow) == Delta(d.lines, item);
    } else {
      NetAfter(d, to, item);
    }
  }

  lemma EditNet(docs: seq<Doc>, id: nat, lines: seq<Move>, item: nat)
    requires id < |docs| && Editable(docs[id]) && DocOk(docs[id])
    ensures SumOver(docs[id := docs[id].(lines := lines)], NetOf(item)) == SumOver(docs, NetOf(item))
  {
    SumUpdate(docs, id, docs[id].(lines := lines), NetOf(item));
  }

  lemma CreateNet(docs: seq<Doc>, kind: Kind, status: Status, lines: seq<Move>, item: nat)
    ensures var doc := Doc(kind, status, lines, None, Weight(kind, status), 0);
            SumOver(docs + [doc], NetOf(item))
            == SumOver(docs, NetOf(item)) + Delta(Signed(lines, Weight(kind, status)), item)
  {
    SumSnoc(docs, Doc(kind, status, lines, None, Weight(kind, status), 0), NetOf(item));
    SignedDelta(lines, Weight(kind, status), item);
  }

  lemma SetStatusNet(docs: seq<Doc>, id: nat, status: Status, item: nat)
    requires id < |docs|
    ensures SumOver(docs[id := docs[id].(status := status)], NetOf(item)) == SumOver(docs, NetOf(item))
  {
    SumUpdate(docs, id, docs[id].(status := status), NetOf(item));
  }

  lemma FiledNet(docs: seq<Doc>, job: Job, item: nat)
    requires Moves(docs, job).Some?
    requires forall k :: 0 <= k < |docs| ==> DocOk(docs[k])
    ensures SumOver(Filed(docs, job), NetOf(item)) == SumOver(docs, NetOf(item)) + Delta(Moves(docs, job).value, item)
  {
    match job
    case Create(kind, status, lines) => CreateNet(docs, kind, status, lines, item);
    case Act(id, action) => ActNet(docs, id, action, item);
    case Edit(id, lines) => EditNet(docs, id, lines, item);
    case SetStatus(id) => SetStatusNet(docs, id, UnlockedTo(docs[id].kind), item);
  }

  lemma FiledDocsOk(docs: seq<Doc>, job: Job)
    requires Moves(docs, job).Some?
    requires forall k :: 0 <= k < |docs| ==> DocOk(docs[k])
    ensures forall k :: 0 <= k < |Filed(docs, job)| ==> DocOk(Filed(docs, job)[k])
  {
  }

  /** A COMPLETED or REJECTED discharge stays one of the two. */
  predicate StaysSettled(before: Doc, after: Doc)
  {
    && after.kind == before.kind && after.origin == before.origin
    && (before.kind.DISCHARGE? && (before.status.COMPLETED? || before.status.REJECTED?) ==>
          after.status.COMPLETED? || after.status.REJECTED?)
  }

  lemma ReplacedOrigins(docs: seq<Doc>, id: nat, d: Doc)
    requires OneOutflowEach(docs) && id < |docs| && StaysSettled(docs[id], d)
    ensures OneOutflowEach(docs[id := d])
  {
    var after := docs[id := d];
    forall j | 0 <= j < |after| ensures OriginOk(after, after[j]) {
      assert OriginOk(docs, docs[j]);
    }
  }

  lemma AddedOrigins(docs: seq<Doc>, d: Doc)
    requires OneOutflowEach(docs) && OriginOk(docs, d)
    requires d.origin.Some? ==> forall j :: 0 <= j < |docs| ==> docs[j].origin != d.origin
    ensures OneOutflowEach(docs + [d])
  {
    var after := docs + [d];
    forall j | 0 <= j < |after| ensures OriginOk(after, after[j]) {
      assert j < |docs| ==> OriginOk(docs, docs[j]);
    }
  }

  lemma ActOrigins(docs: seq<Doc>, id: nat, action: Action)
    requires Moves(docs, Act(id, action)).Some? && OneOutflowEach(docs)
    ensures OneOutflowEach(Filed(docs, Act(id, action)))
  {
    var d := docs[id];
    var moved := Moved(d, Transition(d.kind, d.status, action).value);
    ReplacedOrigins(docs, id, moved);
    if d.kind.DISCHARGE? {
      forall j | 0 <= j < |docs| ensures docs[j].origin != Some(id) {
        assert OriginOk(docs, docs[j]);
      }
      AddedOrigins(docs[id := moved], Doc(OUTFLOW, ACTIVE, d.lines, Some(id), 1, 0));
    }
  }

  lemma FiledOrigins(docs: seq<Doc>, job: Job)
    requires Moves(docs, job).Some? && OneOutflowEach(docs)
    ensures OneOutflowEach(Filed(docs, job))
  {
    match job
    case Create(kind, status, lines) => AddedOrigins(docs, Doc(kind, status, lines, None, Weight(kind, status), 0));
    case Act(id, action) => ActOrigins(docs, id, action);
    case Edit(id, lines) => ReplacedOrigins(docs, id, docs[id].(lines := lines));
    case SetStatus(id) => ReplacedOrigins(docs, id, docs[id].(status := UnlockedTo(docs[id].kind)));
  }

  lemma AtomicallyGood(rows: Rows, job: Job)
    requires Good(rows) && Atomically(rows, job).Some?
    ensures Good(Atomically(rows, job).value)
  {
    if !job.SetQuantity? {
      var moves, after := Moves(rows.docs, job).value, Atomically(rows, job).value;
      forall i | 0 <= i < |rows.qty|
        ensures after.qty[i] >= 0
        ensures after.qty[i] == after.entered[i] + SumOver(after.docs, NetOf(i))
      {
        FiledNet(rows.docs, job, i);
        AllowedStaysUp(rows.qty, moves, |moves|, i);
        assert moves[..|moves|] == moves;
      }
      FiledDocsOk(rows.docs, job);
      FiledOrigins(rows.docs, job);
    }
  }

  lemma {:induction false} SeriallyGood(rows: Rows, jobs: seq<Job>)
    requires Good(rows) && Serially(rows, jobs).Some?
    ensures Good(Serially(rows, jobs).value)
  {
    if jobs != [] {
      SeriallyGood(rows, jobs[..|jobs| - 1]);
      AtomicallyGood(Serially(rows, jobs[..|jobs| - 1]).value, jobs[|jobs| - 1]);
    }
  }

  // Transfers

  function Itself(): int -> int
  {
    (q: int) => q
  }

  function DeltaOf(): Move -> int
  {
    (m: Move) => m.delta
  }

  lemma {:induction false} TotalUpdated(qty: seq<int>, moves: seq<Move>)
    requires forall k :: 0 <= k < |moves| ==> moves[k].item < |qty|
    ensures SumOver(Updated(qty, moves), Itself()) == SumOver(qty, Itself()) + SumOver(moves, DeltaOf())
  {
    if moves == [] {
      assert Updated(qty, moves) == qty;
    } else {
      var n := |moves| - 1;
      var before := Updated(qty, moves[..n]);
      TotalUpdated(qty, moves[..n]);
      var row := before[moves[n].item] + moves[n].delta;
      assert Updated(qty, moves) == before[moves[n].item := row];
      SumUpdate(before, moves[n].item, row, Itself());
    }
  }

  /** Executing a transfer, even for the second time, conserves the stock. */
  lemma TransferConserves(rows: Rows, id: nat)
    requires id < |rows.docs| && rows.docs[id].kind.TRANSFER? && SumOver(rows.docs[id].lines, DeltaOf()) == 0
    requires Atomically(rows, Act(id, COMPLETE)).Some?
    ensures SumOver(Atomically(rows, Act(id, COMPLETE)).value.qty, Itself()) == SumOver(rows.qty, Itself())
  {
    var lines := rows.docs[id].lines;
    assert Signed(lines, 1) == lines;
    forall k | 0 <= k < |lines| ensures lines[k].item < |rows.qty| {
      assert Allowed(rows.qty, lines, k);
    }
    TotalUpdated(rows.qty, lines);
  }
}
