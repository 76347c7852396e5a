/** What numbering keeps over every run. */
module NumberingFacts {
  import opened Wrappers
  import opened Correlatives
  import opened Numbering

  /** The numbers a series has handed out, in order. */
  function NumbersOf(log: seq<Issued>, series: Series): seq<nat>
  {
    if log == [] then []
    else
      var n := |log| - 1;
      NumbersOf(log[..n], series) + (if log[n].series == series then [log[n].number] else [])
  }

  /** a, a + 1, ..., b - 1 */
  function UpTo(a: nat, b: nat): seq<nat>
    requires a <= b
  {
    seq(b - a, k requires 0 <= k < b - a => a + k)
  }

  lemma LogSnoc(log: seq<Issued>, e: Issued, series: Series)
    ensures NumbersOf(log + [e], series) == NumbersOf(log, series) + (if e.series == series then [e.number] else [])
  {
    assert (log + [e])[..|log|] == log;
  }

  predicate IsCaiPrefix(p: string)
  {
    |p| == 10
  }

  /** The printed form gives back the number, and which kind of series it is from. */
  predicate ReadsBack(e: Issued)
  {
    match Parse(e.text)
    case Some(p) => p.number == e.number && (if e.series.CAI? then IsCaiPrefix(p.prefix) else p.prefix == Prefix(e.series))
    case None => false
  }

  predicate RangeOk(r: Range)
  {
    r.rangeStart < r.rangeEnd && r.rangeStart <= r.currentNumber <= r.rangeEnd + 1
  }

  ghost predicate AtMostOneActive(ranges: seq<Range>)
  {
    forall i, j :: 0 <= i < j < |ranges| ==> !(ranges[i].isActive && ranges[j].isActive)
  }

  ghost predicate RangesOk(s: Numbers)
  {
    && (forall i: nat :: i < |s.ranges| ==> RangeOk(s.ranges[i]))
    && (forall i: nat :: i < |s.ranges| ==>
          NumbersOf(s.log, CAI(i)) == UpTo(s.ranges[i].rangeStart, s.ranges[i].currentNumber))
    && (forall i: nat :: |s.ranges| <= i ==> NumbersOf(s.log, CAI(i)) == [])
    && AtMostOneActive(s.ranges)
  }

  ghost predicate CountersOk(s: Numbers)
  {
    forall series: Series :: !series.CAI? ==>
      && 1 <= Counter(Config(s), series)
      && NumbersOf(s.log, series) == UpTo(1, Counter(Config(s), series))
  }

  ghost predicate AllReadBack(log: seq<Issued>)
  {
    forall k :: 0 <= k < |log| ==> ReadsBack(log[k])
  }

  ghost predicate Gapless(s: Numbers)
  {
    RangesOk(s) && CountersOk(s) && AllReadBack(s.log)
  }

  lemma CounterReadsBack(log: seq<Issued>, series: Series, n: nat)
    requires AllReadBack(log) && !series.CAI?
    ensures AllReadBack(log + [Issued(series, n, Print(Prefix(series), n, 4))])
  {
    PrintRoundTrip(Prefix(series), n, 4);
  }

  lemma RangeReadsBack(log: seq<Issued>, id: nat, r: Range)
    requires AllReadBack(log)
    ensures AllReadBack(log + [Issued(CAI(id), r.currentNumber, Print(CaiPrefix(r), r.currentNumber, 8))])
  {
    PrintRoundTrip(CaiPrefix(r), r.currentNumber, 8);
  }

  lemma UpToSnoc(a: nat, b: nat)
    requires a <= b
    ensures UpTo(a, b + 1) == UpTo(a, b) + [b]
  {
  }

  /** Neither the ranges nor what they handed out change. */
  lemma CounterKeepsRanges(s: Numbers, series: Series, e: Issued, config: Option<FiscalConfig>)
    requires RangesOk(s) && !series.CAI? && e.series == series
    ensures RangesOk(Numbers(s.ranges, config, s.log + [e]))
  {
    var after := Numbers(s.ranges, config, s.log + [e]);
    forall i: nat ensures NumbersOf(after.log, CAI(i)) == NumbersOf(s.log, CAI(i)) {
      LogSnoc(s.log, e, CAI(i));
    }
  }

  lemma CounterKeepsCounters(s: Numbers, series: Series, e: Issued)
    requires CountersOk(s) && !series.CAI? && e.series == series && e.number == Counter(Config(s), series)
    ensures CountersOk(Numbers(s.ranges, Some(Increment(Config(s), series)), s.log + [e]))
  {
    var config := Increment(Config(s), series);
    forall other: Series | !other.CAI?
      ensures 1 <= Counter(config, other) && NumbersOf(s.log + [e], other) == UpTo(1, Counter(config, other))
    {
      assert NumbersOf(s.log, other) == UpTo(1, Counter(Config(s), other));
      CounterMoves(Config(s), series, other);
      LogSnoc(s.log, e, other);
      UpToSnoc(1, e.number);
    }
  }

  lemma CounterKeeps(s: Numbers, series: Series)
    requires Gapless(s) && !series.CAI?
    ensures Gapless(TakeCounter(s, series))
  {
    var n := Counter(Config(s), series);
    var e := Issued(series, n, Print(Prefix(series), n, 4));
    CounterReadsBack(s.log, series, n);
    CounterKeepsRanges(s, series, e, Some(Increment(Config(s), series)));
    CounterKeepsCounters(s, series, e);
  }

  lemma CounterMoves(c: FiscalConfig, series: Series, other: Series)
    requires !series.CAI? && !other.CAI?
    ensures Counter(Increment(c, series), other) == Counter(c, other) + (if other == series then 1 else 0)
  {
  }

  lemma TakenNumbers(log: seq<Issued>, r: Range, id: nat, e: Issued)
    requires RangeOk(r) && NumbersOf(log, CAI(id)) == UpTo(r.rangeStart, r.currentNumber)
    requires e.series == CAI(id) && e.number == r.currentNumber
    ensures NumbersOf(log + [e], CAI(id)) == UpTo(r.rangeStart, r.currentNumber + 1)
  {
    LogSnoc(log, e, CAI(id));
    UpToSnoc(r.rangeStart, r.currentNumber);
  }

  lemma TakeKeepsRanges(s: Numbers, id: nat, e: Issued)
    requires RangesOk(s) && id < |s.ranges| && s.ranges[id].currentNumber <= s.ranges[id].rangeEnd
    requires e.series == CAI(id) && e.number == s.ranges[id].currentNumber
    ensures RangesOk(s.(
              ranges := s.ranges[id := s.ranges[id].(currentNumber := s.ranges[id].currentNumber + 1)],
              log := s.log + [e]))
  {
    var taken := s.ranges[id].(currentNumber := s.ranges[id].currentNumber + 1);
    var after := s.ranges[id := taken];
    assert RangeOk(s.ranges[id]);
    TakenNumbers(s.log, s.ranges[id], id, e);
    forall i: nat | i != id ensures NumbersOf(s.log + [e], CAI(i)) == NumbersOf(s.log, CAI(i)) {
      LogSnoc(s.log, e, CAI(i));
    }
    forall i: nat | i < |after|
      ensures RangeOk(after[i]) && NumbersOf(s.log + [e], CAI(i)) == UpTo(after[i].rangeStart, after[i].currentNumber)
    {
      assert RangeOk(s.ranges[i]);
    }
    assert AtMostOneActive(after);
  }

  lemma TakeKeepsCounters(s: Numbers, ranges: seq<Range>, e: Issued)
    requires CountersOk(s) && e.series.CAI?
    ensures CountersOk(Numbers(ranges, s.config, s.log + [e]))
  {
    forall other: Series | !other.CAI? ensures NumbersOf(s.log + [e], other) == NumbersOf(s.log, other) {
      LogSnoc(s.log, e, other);
    }
  }

  lemma RangeTakeKeeps(s: Numbers, id: nat)
    requires Gapless(s) && id < |s.ranges| && s.ranges[id].currentNumber <= s.ranges[id].rangeEnd
    ensures Gapless(TakeFromRange(s, id))
  {
    var r, after := s.ranges[id], TakeFromRange(s, id);
    var e := Issued(CAI(id), r.currentNumber, Print(CaiPrefix(r), r.currentNumber, 8));
    RangeReadsBack(s.log, id, r);
    TakeKeepsRanges(s, id, e);
    TakeKeepsCounters(s, after.ranges, e);
  }

  lemma RangesKeepCounters(s: Numbers, ranges: seq<Range>)
    requires CountersOk(s)
    ensures CountersOk(s.(ranges := ranges))
  {
  }

  lemma AddedRangeOk(s: Numbers, others: seq<Range>, r: Range)
    requires RangesOk(s) && RangeOk(r) && r.currentNumber == r.rangeStart
    requires others == if r.isActive then Deactivated(s.ranges, None) else s.ranges
    ensures RangesOk(s.(ranges := others + [r]))
  {
    var after := others + [r];
    forall i: nat | i < |after|
      ensures RangeOk(after[i]) && NumbersOf(s.log, CAI(i)) == UpTo(after[i].rangeStart, after[i].currentNumber)
    {
      if i < |s.ranges| {
        assert RangeOk(s.ranges[i]);
      }
    }
  }

  lemma CreateKeeps(s: Numbers, op: Op)
    requires Gapless(s) && op.Create?
    ensures Gapless(Next(s, op))
  {
    if op.rangeStart < op.rangeEnd {
      var r := Range(
        op.establishment, op.emission, op.docType, op.rangeStart, op.rangeEnd, op.rangeStart, op.expiresAt, op.isActive);
      var others := if op.isActive then Deactivated(s.ranges, None) else s.ranges;
      AddedRangeOk(s, others, r);
      RangesKeepCounters(s, others + [r]);
    }
  }

  lemma EditedRangeOk(r: Range, edit: RangeEdit, numbers: seq<nat>)
    requires RangeOk(r) && numbers == UpTo(r.rangeStart, r.currentNumber)
    requires var start, end := edit.rangeStart.GetOr(r.rangeStart), edit.rangeEnd.GetOr(r.rangeEnd);
             start < end && (InUse(r) ==> start == r.rangeStart) && r.currentNumber - 1 <= end
    ensures RangeOk(EditedRange(r, edit))
    ensures numbers == UpTo(EditedRange(r, edit).rangeStart, EditedRange(r, edit).currentNumber)
  {
  }

  lemma OneActiveAfterUpdate(ranges: seq<Range>, id: nat, edit: RangeEdit)
    requires AtMostOneActive(ranges) && id < |ranges|
    ensures var others := if edit.isActive == Some(true) then Deactivated(ranges, Some(id)) else ranges;
            AtMostOneActive(others[id := EditedRange(ranges[id], edit)])
  {
  }

  lemma UpdateKeeps(s: Numbers, op: Op)
    requires Gapless(s) && op.Update? && UpdateRange(s, op.id, op.edit).Ok?
    ensures Gapless(Next(s, op))
  {
    var after, r := UpdateRange(s, op.id, op.edit).value, s.ranges[op.id];
    EditedRangeOk(r, op.edit, NumbersOf(s.log, CAI(op.id)));
    OneActiveAfterUpdate(s.ranges, op.id, op.edit);
    forall i: nat | i < |s.ranges|
      ensures RangeOk(after.ranges[i])
      ensures NumbersOf(s.log, CAI(i)) == UpTo(after.ranges[i].rangeStart, after.ranges[i].currentNumber)
    {
      assert RangeOk(s.ranges[i]);
    }
    RangesKeepCounters(s, after.ranges);
  }

  lemma NextKeeps(s: Numbers, op: Op)
    requires Gapless(s)
    ensures Gapless(Next(s, op))
  {
    match op
    case Create(_, _, _, _, _, _, _) => CreateKeeps(s, op);
    case Update(id, edit) => if UpdateRange(s, id, edit).Ok? { UpdateKeeps(s, op); }
    case ActivateSale(now, commits) =>
      var active := FirstActive(s.ranges);
      if Next(s, op) != s {
        if active.Some? {
          RangeTakeKeeps(s, active.value);
        } else {
          CounterKeeps(s, FALLBACK);
        }
      }
    case SaveDocument(series, commits) => if Next(s, op) != s { CounterKeeps(s, series); }
  }

  function Blank(): Numbers
  {
    Numbers([], None, [])
  }

  /**
   In every run, whichever transactions abort: each CAI range has handed out
   exactly rangeStart, ..., currentNumber - 1, in order, without a gap or a
   repeat, and never past its end; so has every counter from 1; and at most
   one range is active.
   */
  lemma {:induction false} RunGapless(ops: seq<Op>)
    ensures Gapless(Run(Blank(), ops))
  {
    if ops != [] {
      RunGapless(ops[..|ops| - 1]);
      NextKeeps(Run(Blank(), ops[..|ops| - 1]), ops[|ops| - 1]);
    }
  }

  lemma {:induction false} LoggedNumbersAreListed(log: seq<Issued>, k: nat)
    requires k < |log|
    ensures log[k].number in NumbersOf(log, log[k].series)
  {
    if k < |log| - 1 {
      LoggedNumbersAreListed(log[..|log| - 1], k);
    }
  }

  lemma LastOfSeries(log: seq<Issued>, series: Series, a: nat, b: nat)
    requires a <= b && NumbersOf(log, series) == UpTo(a, b) && log != [] && log[|log| - 1].series == series
    ensures a < b && log[|log| - 1].number == b - 1 && NumbersOf(log[..|log| - 1], series) == UpTo(a, b - 1)
  {
    var before, last := NumbersOf(log[..|log| - 1], series), log[|log| - 1].number;
    assert before + [last] == UpTo(a, b);
    UpToSnoc(a, b - 1);
    assert before == (before + [last])[..|before|];
  }

  lemma {:induction false} LaterIsGreater(log: seq<Issued>, series: Series, a: nat, b: nat, j: nat, k: nat)
    requires a <= b && NumbersOf(log, series) == UpTo(a, b)
    requires j < k < |log| && log[j].series == series && log[k].series == series
    ensures log[j].number < log[k].number
  {
    var n := |log| - 1;
    if log[n].series == series {
      LastOfSeries(log, series, a, b);
      if k == n {
        LoggedNumbersAreListed(log[..n], j);
        assert log[j].number in UpTo(a, b - 1);
      } else {
        LaterIsGreater(log[..n], series, a, b - 1, j, k);
      }
    } else {
      LaterIsGreater(log[..n], series, a, b, j, k);
    }
  }

  lemma TextsDiffer(a: Issued, b: Issued)
    requires ReadsBack(a) && ReadsBack(b)
    requires if a.series == b.series then a.number != b.number else !a.series.CAI? || !b.series.CAI?
    ensures a.text != b.text
  {
  }

  /** No two numbers of one CAI range, nor any two numbers of the prefixed counters, are printed alike. */
  lemma PrintedApart(ops: seq<Op>, j: nat, k: nat)
    requires j < k < |Run(Blank(), ops).log|
    requires var log := Run(Blank(), ops).log;
             log[j].series == log[k].series || !log[j].series.CAI? || !log[k].series.CAI?
    ensures Run(Blank(), ops).log[j].text != Run(Blank(), ops).log[k].text
  {
    RunGapless(ops);
    var s := Run(Blank(), ops);
    var a, b := s.log[j], s.log[k];
    if a.series == b.series {
      LoggedNumbersAreListed(s.log, j);
      if a.series.CAI? {
        var id := a.series.range;
        LaterIsGreater(s.log, a.series, s.ranges[id].rangeStart, s.ranges[id].currentNumber, j, k);
      } else {
        LaterIsGreater(s.log, a.series, 1, Counter(Config(s), a.series), j, k);
      }
    }
    TextsDiffer(a, b);
  }

  // Moving a range nothing was issued from

  function Ends(edit: RangeEdit, r: Range): (int, int)
  {
    (edit.rangeStart.GetOr(r.rangeStart), edit.rangeEnd.GetOr(r.rangeEnd))
  }

  /**
   One edit of an unused range, of either end or of both, goes through exactly
   when it leaves a range whose end is not below the old start less one; the
   range is then unused at its new start.
   */
  lemma UnusedEditIff(s: Numbers, id: nat, edit: RangeEdit)
    requires Gapless(s) && id < |s.ranges| && !InUse(s.ranges[id])
    ensures var r, ends := s.ranges[id], Ends(edit, s.ranges[id]);
            && (UpdateRange(s, id, edit).Ok? <==> ends.0 < ends.1 && r.rangeStart - 1 <= ends.1)
            && (UpdateRange(s, id, edit).Ok? ==>
                  var after := UpdateRange(s, id, edit).value.ranges[id];
                  (after.rangeStart, after.rangeEnd) == ends && !InUse(after))
  {
    assert RangeOk(s.ranges[id]);
  }

  function EditAll(s: Numbers, id: nat, edits: seq<RangeEdit>): Result<Numbers, Error>
  {
    if edits == [] then Ok(s)
    else
      var before :- EditAll(s, id, edits[..|edits| - 1]);
      UpdateRange(before, id, edits[|edits| - 1])
  }

  function MoveStart(a: Positive): RangeEdit
  {
    RangeEdit(None, None, None, Some(a), None, None, None)
  }

  function MoveEnd(b: Positive): RangeEdit
  {
    RangeEdit(None, None, None, None, Some(b), None, None)
  }

  function MoveBoth(a: Positive, b: Positive): RangeEdit
  {
    RangeEdit(None, None, None, Some(a), Some(b), None, None)
  }

  function MovedRange(s: Numbers, id: nat, a: Positive, b: Positive): Numbers
    requires id < |s.ranges|
  {
    s.(ranges := s.ranges[id := s.ranges[id].(rangeStart := a, rangeEnd := b, currentNumber := a)])
  }

  /** One edit takes an unused range to a..b exactly when b is not below its old start less one. */
  lemma OneEditReachesIff(s: Numbers, id: nat, a: Positive, b: Positive)
    requires Gapless(s) && id < |s.ranges| && !InUse(s.ranges[id]) && a < b
    ensures (exists edit :: UpdateRange(s, id, edit) == Ok(MovedRange(s, id, a, b))) <==> s.ranges[id].rangeStart - 1 <= b
  {
    UnusedEditIff(s, id, MoveBoth(a, b));
    if s.ranges[id].rangeStart - 1 <= b {
      assert UpdateRange(s, id, MoveBoth(a, b)) == Ok(MovedRange(s, id, a, b));
    }
    forall edit | UpdateRange(s, id, edit) == Ok(MovedRange(s, id, a, b)) ensures s.ranges[id].rangeStart - 1 <= b {
      UnusedEditIff(s, id, edit);
    }
  }

  lemma EndMoves(s: Numbers, id: nat, a: Positive, mid: Positive, b: Positive)
    requires id < |s.ranges| && a < b
    ensures UpdateRange(MovedRange(s, id, a, mid), id, MoveEnd(b)) == Ok(MovedRange(s, id, a, b))
  {
    var between, moved := MovedRange(s, id, a, mid), MovedRange(s, id, a, b);
    assert between.ranges[id := moved.ranges[id]] == moved.ranges;
  }

  /** Two edits always do: the start on its own first, which takes the next number along, then the end. */
  lemma TwoEditsReach(s: Numbers, id: nat, a: Positive, b: Positive) returns (edits: seq<RangeEdit>)
    requires Gapless(s) && id < |s.ranges| && !InUse(s.ranges[id]) && a < b
    ensures |edits| <= 2 && EditAll(s, id, edits) == Ok(MovedRange(s, id, a, b))
  {
    var r := s.ranges[id];
    assert RangeOk(r);
    if r.rangeStart - 1 <= b {
      edits := [MoveBoth(a, b)];
      assert edits[..0] == [];
    } else {
      edits := [MoveStart(a), MoveEnd(b)];
      assert edits[..1] == [MoveStart(a)] && [MoveStart(a)][..0] == [];
      var between := MovedRange(s, id, a, r.rangeEnd);
      assert EditAll(s, id, [MoveStart(a)]) == Ok(between);
      EndMoves(s, id, a, r.rangeEnd, b);
    }
  }

  /** From a new range 1000..2000: 1..50 is refused in one edit, and reached in two. */
  lemma LowerRangeTakesTwoEdits()
    ensures var s := Next(Blank(), Create("000", "001", "01", 1000, 2000, 5, false));
            && |s.ranges| == 1
            && UpdateRange(s, 0, MoveBoth(1, 50)) == Err(CAI_RANGE_BELOW_ISSUED)
            && EditAll(s, 0, [MoveStart(1), MoveEnd(50)]) == Ok(MovedRange(s, 0, 1, 50))
  {
    var s := Next(Blank(), Create("000", "001", "01", 1000, 2000, 5, false));
    var edits := [MoveStart(1), MoveEnd(50)];
    assert edits[..1] == [MoveStart(1)] && [MoveStart(1)][..0] == [];
    assert EditAll(s, 0, [MoveStart(1)]) == Ok(MovedRange(s, 0, 1, 2000));
    EndMoves(s, 0, 1, 2000, 50);
  }
}
