/** CAI ranges of fiscal numbers, the fallback sale counter, and the counters of the other documents. */
module Numbering {
  import opened Wrappers
  import opened Correlatives

  type Code3 = s: string | |s| == 3 && AllDigits(s) witness "000"
  type Code2 = s: string | |s| == 2 && AllDigits(s) witness "00"
  type Positive = n: nat | 1 <= n witness 1

  datatype Range = Range(
    establishment: Code3, emission: Code3, docType: Code2,
    rangeStart: Positive, rangeEnd: Positive, currentNumber: Positive, expiresAt: int, isActive: bool)

  datatype Series = CAI(range: nat) | FALLBACK | PURCHASE | LOAN | TRANSFER | OUTFLOW | QUOTE

  /** The single configuration row: the next number of each counter. */
  datatype FiscalConfig = FiscalConfig(sale: nat, purchase: nat, loan: nat, transfer: nat, outflow: nat, quote: nat)

  /** The model's own bookkeeping: every number handed to a saved document. */
  datatype Issued = Issued(series: Series, number: nat, text: string)

  datatype Numbers = Numbers(ranges: seq<Range>, config: Option<FiscalConfig>, log: seq<Issued>)

  datatype Error =
    | NOT_FOUND
    | CAI_RANGE_INVALID
    | CAI_RANGE_IN_USE
    | CAI_RANGE_BELOW_ISSUED
    | CAI_RANGE_EXPIRED
    | CAI_RANGE_EXHAUSTED

  datatype RangeEdit = RangeEdit(
    establishment: Option<Code3>, emission: Option<Code3>, docType: Option<Code2>,
    rangeStart: Option<Positive>, rangeEnd: Option<Positive>, expiresAt: Option<int>, isActive: Option<bool>)

  // CAI ranges

  function Deactivated(ranges: seq<Range>, exclude: Option<nat>): seq<Range>
  {
    seq(|ranges|, k requires 0 <= k < |ranges| =>
      if exclude == Some(k) then ranges[k] else ranges[k].(isActive := false))
  }

  function CreateRange(
    s: Numbers, establishment: Code3, emission: Code3, docType: Code2, rangeStart: Positive, rangeEnd: Positive,
    expiresAt: int, isActive: bool): Result<Numbers, Error>
  {
    if rangeEnd <= rangeStart then Err(CAI_RANGE_INVALID)
    else
      var others := if isActive then Deactivated(s.ranges, None) else s.ranges;
      Ok(s.(ranges := others
              + [Range(establishment, emission, docType, rangeStart, rangeEnd, rangeStart, expiresAt, isActive)]))
  }

  predicate InUse(r: Range)
  {
    r.currentNumber > r.rangeStart
  }

  function EditedRange(r: Range, edit: RangeEdit): Range
  {
    Range(
      edit.establishment.GetOr(r.establishment), edit.emission.GetOr(r.emission), edit.docType.GetOr(r.docType),
      edit.rangeStart.GetOr(r.rangeStart), edit.rangeEnd.GetOr(r.rangeEnd),
      if InUse(r) then r.currentNumber else edit.rangeStart.GetOr(r.currentNumber),
      edit.expiresAt.GetOr(r.expiresAt), edit.isActive.GetOr(r.isActive))
  }

  function UpdateRange(s: Numbers, id: nat, edit: RangeEdit): Result<Numbers, Error>
  {
    if id >= |s.ranges| then Err(NOT_FOUND)
    else
      var r := s.ranges[id];
      var rangeStart, rangeEnd := edit.rangeStart.GetOr(r.rangeStart), edit.rangeEnd.GetOr(r.rangeEnd);
      if rangeEnd <= rangeStart then Err(CAI_RANGE_INVALID)
      else if InUse(r) && rangeStart != r.rangeStart then Err(CAI_RANGE_IN_USE)
      else if rangeEnd < r.currentNumber - 1 then Err(CAI_RANGE_BELOW_ISSUED)
      else
        var others := if edit.isActive == Some(true) then Deactivated(s.ranges, Some(id)) else s.ranges;
        Ok(s.(ranges := others[id := EditedRange(r, edit)]))
  }

  // Numbers

  function FirstActive(ranges: seq<Range>): (r: Option<nat>)
    ensures r.Some? ==> r.value < |ranges| && ranges[r.value].isActive
    ensures r.None? ==> forall k :: 0 <= k < |ranges| ==> !ranges[k].isActive
  {
    if ranges == [] then None
    else
      var n := |ranges| - 1;
      var earlier := FirstActive(ranges[..n]);
      if earlier.Some? then earlier else if ranges[n].isActive then Some(n) else None
  }

  function CaiPrefix(r: Range): string
  {
    r.establishment + "-" + r.emission + "-" + r.docType
  }

  function Prefix(series: Series): string
    requires !series.CAI?
  {
    match series
    case FALLBACK => "V"
    case PURCHASE => "COM"
    case LOAN => "PRE"
    case TRANSFER => "TRA"
    case OUTFLOW => "SAL"
    case QUOTE => "COT"
  }

  /** A configuration row is made, with every counter at 1, the first time one is needed. */
  function Config(s: Numbers): FiscalConfig
  {
    s.config.GetOr(FiscalConfig(1, 1, 1, 1, 1, 1))
  }

  function Counter(c: FiscalConfig, series: Series): nat
    requires !series.CAI?
  {
    match series
    case FALLBACK => c.sale
    case PURCHASE => c.purchase
    case LOAN => c.loan
    case TRANSFER => c.transfer
    case OUTFLOW => c.outflow
    case QUOTE => c.quote
  }

  function Increment(c: FiscalConfig, series: Series): FiscalConfig
    requires !series.CAI?
  {
    match series
    case FALLBACK => c.(sale := c.sale + 1)
    case PURCHASE => c.(purchase := c.purchase + 1)
    case LOAN => c.(loan := c.loan + 1)
    case TRANSFER => c.(transfer := c.transfer + 1)
    case OUTFLOW => c.(outflow := c.outflow + 1)
    case QUOTE => c.(quote := c.quote + 1)
  }

  /** Takes the next number of a counter. */
  function TakeCounter(s: Numbers, series: Series): Numbers
    requires !series.CAI?
  {
    var n := Counter(Config(s), series);
    s.(config := Some(Increment(Config(s), series)), log := s.log + [Issued(series, n, Print(Prefix(series), n, 4))])
  }

  function TakeFromRange(s: Numbers, id: nat): Numbers
    requires id < |s.ranges|
  {
    var r := s.ranges[id];
    s.(ranges := s.ranges[id := r.(currentNumber := r.currentNumber + 1)],
       log := s.log + [Issued(CAI(id), r.currentNumber, Print(CaiPrefix(r), r.currentNumber, 8))])
  }

  /** The number a sale gets when it becomes ACTIVE. */
  function TakeSaleNumber(s: Numbers, now: int): Result<Numbers, Error>
  {
    var active := FirstActive(s.ranges);
    if active.None? then Ok(TakeCounter(s, FALLBACK))
    else if s.ranges[active.value].expiresAt <= now then Err(CAI_RANGE_EXPIRED)
    else if s.ranges[active.value].currentNumber > s.ranges[active.value].rangeEnd then Err(CAI_RANGE_EXHAUSTED)
    else Ok(TakeFromRange(s, active.value))
  }

  class Store {
    var numbers: Numbers

    constructor (numbers: Numbers)
      ensures this.numbers == numbers
    {
      this.numbers := numbers;
    }
  }

  class CaiRangesService {
    const db: Store

    constructor (db: Store)
      ensures this.db == db
    {
      this.db := db;
    }

    method AssertValidRange(rangeStart: nat, rangeEnd: nat) returns (r: Result<(), Error>)
      ensures r == if rangeStart < rangeEnd then Ok(()) else Err(CAI_RANGE_INVALID)
    {
      if rangeEnd <= rangeStart {
        return Err(CAI_RANGE_INVALID);
      }
      return Ok(());
    }

    method DeactivateOthers(exclude: Option<nat>)
      modifies db
      ensures db.numbers == old(db.numbers).(ranges := Deactivated(old(db.numbers.ranges), exclude))
    {
      db.numbers := db.numbers.(ranges := Deactivated(db.numbers.ranges, exclude));
    }

    method Create(
      establishment: Code3, emission: Code3, docType: Code2, rangeStart: Positive, rangeEnd: Positive,
      expiresAt: int, isActive: bool) returns (r: Result<(), Error>)
      modifies db
      ensures match CreateRange(
                old(db.numbers), establishment, emission, docType, rangeStart, rangeEnd, expiresAt, isActive)
              case Ok(numbers) => r.Ok? && db.numbers == numbers
              case Err(e) => r == Err(e) && db.numbers == old(db.numbers)
    {
      var valid := AssertValidRange(rangeStart, rangeEnd);
      if valid.Err? {
        return valid;
      }
      if isActive {
        DeactivateOthers(None);
      }
      var row := Range(establishment, emission, docType, rangeStart, rangeEnd, rangeStart, expiresAt, isActive);
      db.numbers := db.numbers.(ranges := db.numbers.ranges + [row]);
      return Ok(());
    }

    method Update(id: nat, edit: RangeEdit) returns (r: Result<(), Error>)
      modifies db
      ensures match UpdateRange(old(db.numbers), id, edit)
              case Ok(numbers) => r.Ok? && db.numbers == numbers
              case Err(e) => r == Err(e) && db.numbers == old(db.numbers)
    {
      if id >= |db.numbers.ranges| {
        return Err(NOT_FOUND);
      }
      var current := db.numbers.ranges[id];
      var rangeStart, rangeEnd := edit.rangeStart.GetOr(current.rangeStart), edit.rangeEnd.GetOr(current.rangeEnd);
      var valid := AssertValidRange(rangeStart, rangeEnd);
      if valid.Err? {
        return valid;
      }
      var issued := current.currentNumber > current.rangeStart;
      if issued && rangeStart != current.rangeStart {
        return Err(CAI_RANGE_IN_USE);
      }
      if rangeEnd < current.currentNumber - 1 {
        return Err(CAI_RANGE_BELOW_ISSUED);
      }
      if edit.isActive == Some(true) {
        DeactivateOthers(Some(id));
      }
      var row := EditedRange(current, edit);
      db.numbers := db.numbers.(ranges := db.numbers.ranges[id := row]);
      return Ok(());
    }
  }

  /** Both numbering services work inside the caller's transaction `tx`, so an abort takes the number back. */
  class NumberingService {
    constructor () {}

    method AssignSaleNumber(tx: Store, now: int) returns (r: Result<string, Error>)
      modifies tx
      ensures match TakeSaleNumber(old(tx.numbers), now)
              case Ok(numbers) =>
                && tx.numbers == numbers && numbers.log != [] && r == Ok(numbers.log[|numbers.log| - 1].text)
              case Err(e) => r == Err(e) && tx.numbers == old(tx.numbers)
    {
      var active := FirstActive(tx.numbers.ranges);
      if active.Some? {
        var id := active.value;
        var range := tx.numbers.ranges[id];
        if range.expiresAt <= now {
          return Err(CAI_RANGE_EXPIRED);
        }
        if range.currentNumber > range.rangeEnd {
          return Err(CAI_RANGE_EXHAUSTED);
        }
        var correlative := PadStart(Digits(range.currentNumber), 8);
        var text := CaiPrefix(range) + "-" + correlative;
        tx.numbers := tx.numbers.(
          ranges := tx.numbers.ranges[id := range.(currentNumber := range.currentNumber + 1)],
          log := tx.numbers.log + [Issued(CAI(id), range.currentNumber, text)]);
        return Ok(text);
      }
      var text := AssignNumber(tx, FALLBACK);
      return Ok(text);
    }

    method AssignNumber(tx: Store, document: Series) returns (text: string)
      requires !document.CAI?
      modifies tx
      ensures tx.numbers == TakeCounter(old(tx.numbers), document)
      ensures text == tx.numbers.log[|tx.numbers.log| - 1].text
    {
      if tx.numbers.config.None? {
        tx.numbers := tx.numbers.(config := Some(FiscalConfig(1, 1, 1, 1, 1, 1)));
      }
      var config := tx.numbers.config.value;
      var locked := Counter(config, document);
      text := Prefix(document) + "-" + PadStart(Digits(locked), 4);
      tx.numbers := tx.numbers.(
        config := Some(Increment(config, document)), log := tx.numbers.log + [Issued(document, locked, text)]);
    }
  }

  datatype Op =
    | Create(establishment: Code3, emission: Code3, docType: Code2, rangeStart: Positive, rangeEnd: Positive,
             expiresAt: int, isActive: bool)
    | Update(id: nat, edit: RangeEdit)
    | ActivateSale(now: int, commits: bool)
    | SaveDocument(series: Series, commits: bool)

  /** A transaction that aborts after taking its number leaves nothing behind. */
  function Next(s: Numbers, op: Op): Numbers
  {
    match op
    case Create(establishment, emission, docType, rangeStart, rangeEnd, expiresAt, isActive) =>
      var after := CreateRange(s, establishment, emission, docType, rangeStart, rangeEnd, expiresAt, isActive);
      if after.Ok? then after.value else s
    case Update(id, edit) =>
      var after := UpdateRange(s, id, edit);
      if after.Ok? then after.value else s
    case ActivateSale(now, commits) =>
      var after := TakeSaleNumber(s, now);
      if after.Ok? && commits then after.value else s
    case SaveDocument(series, commits) =>
      if commits && !series.CAI? && !series.FALLBACK? then TakeCounter(s, series) else s
  }

  function Run(s: Numbers, ops: seq<Op>): Numbers
  {
    if ops == [] then s else Next(Run(s, ops[..|ops| - 1]), ops[|ops| - 1])
  }
}
