/** When a range and a counter issue a number, which one, and how it is printed. */
module NumberingAnswers {
  import opened Wrappers
  import opened Correlatives
  import opened Numbering
  import opened NumberingFacts

  // Printed numbers

  function Pow10(n: nat): nat
  {
    if n == 0 then 1 else 10 * Pow10(n - 1)
  }

  lemma {:induction false} DigitsFit(n: nat, width: nat)
    requires n < Pow10(width) && width > 0
    ensures |Digits(n)| <= width
  {
    if n >= 10 {
      DigitsFit(n / 10, width - 1);
    }
  }

  /** A number below ten to the width is printed in exactly that many digits; a wider one in as many as it has. */
  lemma PaddedTo(n: nat, width: nat)
    requires width > 0
    ensures var text := PadStart(Digits(n), width);
            && AllDigits(text) && Value(text) == n
            && |text| >= width && (n < Pow10(width) ==> |text| == width)
            && (|text| > width ==> text == Digits(n))
  {
    DigitsRoundTrip(n);
    if |Digits(n)| < width {
      ZerosHaveNoValue(width - |Digits(n)|, Digits(n));
    }
    if n < Pow10(width) {
      DigitsFit(n, width);
    }
  }

  // Sale numbers

  /** What is printed for a number of a range: its three codes and the number in at least eight digits. */
  predicate PrintedFor(text: string, r: Range, n: nat)
  {
    text == r.establishment + "-" + r.emission + "-" + r.docType + "-" + PadStart(Digits(n), 8)
  }

  /**
   With a range active, a sale takes its next number, unless the range has
   expired or is used up; with none, the next one of the fallback counter.
   */
  lemma SaleNumberIff(s: Numbers, now: int)
    requires Gapless(s)
    ensures (forall k :: 0 <= k < |s.ranges| ==> !s.ranges[k].isActive) ==> TakeSaleNumber(s, now) == Ok(TakeCounter(s, FALLBACK))
    ensures forall k :: 0 <= k < |s.ranges| && s.ranges[k].isActive ==>
              var r, out := s.ranges[k], TakeSaleNumber(s, now);
              && (r.expiresAt <= now ==> out == Err(CAI_RANGE_EXPIRED))
              && (now < r.expiresAt && r.rangeEnd < r.currentNumber ==> out == Err(CAI_RANGE_EXHAUSTED))
              && (now < r.expiresAt && r.currentNumber <= r.rangeEnd ==>
                    && out.Ok? && |out.value.log| == |s.log| + 1
                    && out.value == Numbers(
                         s.ranges[k := r.(currentNumber := r.currentNumber + 1)], s.config,
                         s.log + [Issued(CAI(k), r.currentNumber, out.value.log[|s.log|].text)])
                    && PrintedFor(out.value.log[|s.log|].text, r, r.currentNumber))
  {
    forall k | 0 <= k < |s.ranges| && s.ranges[k].isActive ensures FirstActive(s.ranges) == Some(k) {
    }
    forall k: nat | k < |s.ranges| ensures PrintedFor(TakeFromRange(s, k).log[|s.log|].text, s.ranges[k], s.ranges[k].currentNumber) {
      PrintsCodes(s.ranges[k]);
    }
  }

  lemma PrintsCodes(r: Range)
    ensures PrintedFor(Print(CaiPrefix(r), r.currentNumber, 8), r, r.currentNumber)
  {
  }

  // The other counters

  /** The counters of a configuration, one apart from the other; without a configuration row all stand at 1. */
  function Standing(config: Option<FiscalConfig>, series: Series): nat
    requires !series.CAI?
  {
    if config == None then 1
    else
      match series
      case FALLBACK => config.value.sale
      case PURCHASE => config.value.purchase
      case LOAN => config.value.loan
      case TRANSFER => config.value.transfer
      case OUTFLOW => config.value.outflow
      case QUOTE => config.value.quote
  }

  /** V for sales without a range, COM for purchases, PRE for loans, TRA for transfers, SAL for outflows, COT for quotations. */
  predicate Titled(text: string, series: Series, n: nat)
    requires !series.CAI?
  {
    var digits := PadStart(Digits(n), 4);
    match series
    case FALLBACK => text == "V-" + digits
    case PURCHASE => text == "COM-" + digits
    case LOAN => text == "PRE-" + digits
    case TRANSFER => text == "TRA-" + digits
    case OUTFLOW => text == "SAL-" + digits
    case QUOTE => text == "COT-" + digits
  }

  /** Taking a number moves its own counter on by one, and no other. */
  lemma CounterIs(s: Numbers, series: Series)
    requires !series.CAI?
    ensures var after, n := TakeCounter(s, series), Standing(s.config, series);
            && after.ranges == s.ranges && |after.log| == |s.log| + 1
            && after.log == s.log + [Issued(series, n, after.log[|s.log|].text)]
            && Titled(after.log[|s.log|].text, series, n)
            && after.config.Some?
            && forall other: Series :: !other.CAI? ==>
                 Standing(after.config, other) == Standing(s.config, other) + (if other == series then 1 else 0)
  {
    TitledPrefix(series, Standing(s.config, series));
  }

  lemma TitledPrefix(series: Series, n: nat)
    requires !series.CAI?
    ensures Titled(Print(Prefix(series), n, 4), series, n)
  {
    var digits := PadStart(Digits(n), 4);
    match series
    case FALLBACK => assert "V" + "-" == "V-";
    case PURCHASE => assert "COM" + "-" == "COM-";
    case LOAN => assert "PRE" + "-" == "PRE-";
    case TRANSFER => assert "TRA" + "-" == "TRA-";
    case OUTFLOW => assert "SAL" + "-" == "SAL-";
    case QUOTE => assert "COT" + "-" == "COT-";
  }

  // Range administration

  /** A new range must end after it starts; it starts at its first number, and an active one deactivates the others. */
  lemma CreateRangeIff(
    s: Numbers, establishment: Code3, emission: Code3, docType: Code2, rangeStart: Positive, rangeEnd: Positive,
    expiresAt: int, isActive: bool)
    ensures var r := CreateRange(s, establishment, emission, docType, rangeStart, rangeEnd, expiresAt, isActive);
            && (if rangeStart < rangeEnd then r.Ok? else r == Err(CAI_RANGE_INVALID))
            && (r.Ok? ==>
                  && r.value == s.(ranges := r.value.ranges) && |r.value.ranges| == |s.ranges| + 1
                  && r.value.ranges[|s.ranges|]
                     == Range(establishment, emission, docType, rangeStart, rangeEnd, rangeStart, expiresAt, isActive)
                  && forall k :: 0 <= k < |s.ranges| ==>
                       r.value.ranges[k] == s.ranges[k].(isActive := s.ranges[k].isActive && !isActive))
  {
  }

  /**
   A range is edited as long as it stays proper, keeps its start once in use
   and does not end below what it has issued. Fields not given stay; an unused
   range restarts where it is moved to; activating it deactivates the others.
   */
  lemma UpdateRangeIff(s: Numbers, id: nat, edit: RangeEdit)
    requires id < |s.ranges|
    ensures var r, before := UpdateRange(s, id, edit), s.ranges[id];
            var start := if edit.rangeStart != None then edit.rangeStart.value else before.rangeStart;
            var end := if edit.rangeEnd != None then edit.rangeEnd.value else before.rangeEnd;
            var used := before.rangeStart < before.currentNumber;
            && r == (if end <= start then Err(CAI_RANGE_INVALID)
                     else if used && start != before.rangeStart then Err(CAI_RANGE_IN_USE)
                     else if end < before.currentNumber - 1 then Err(CAI_RANGE_BELOW_ISSUED)
                     else r)
            && (r.Ok? <==> start < end && (used ==> start == before.rangeStart) && before.currentNumber - 1 <= end)
            && (r.Ok? ==>
                  && r.value == s.(ranges := r.value.ranges) && |r.value.ranges| == |s.ranges|
                  && r.value.ranges[id] == Range(
                       if edit.establishment != None then edit.establishment.value else before.establishment,
                       if edit.emission != None then edit.emission.value else before.emission,
                       if edit.docType != None then edit.docType.value else before.docType,
                       start, end,
                       if !used && edit.rangeStart != None then start else before.currentNumber,
                       if edit.expiresAt != None then edit.expiresAt.value else before.expiresAt,
                       if edit.isActive != None then edit.isActive.value else before.isActive)
                  && forall k :: 0 <= k < |s.ranges| && k != id ==>
                       r.value.ranges[k] == s.ranges[k].(isActive := s.ranges[k].isActive && edit.isActive != Some(true)))
  {
  }
}
