/**
 Money and tax arithmetic. A stored amount or percentage is a numeric(.,2)
 column, so it is a whole number of hundredths (an int: cents, or hundredths
 of a percent). What a request carries is any number (a real).
 */
module Money {
  import opened Seqs
  import opened Wrappers

  /** Math.round(n * 100): half-up, as a number of hundredths. */
  function Round2(x: real): int
  {
    (x * 100.0 + 0.5).Floor
  }

  /** The number a count of hundredths stands for. */
  function Value(hundredths: int): real
  {
    hundredths as real / 100.0
  }

  lemma Round2OfStored(h: int)
    ensures Round2(Value(h)) == h
  {
    assert (Value(h) * 100.0 + 0.5).Floor == h;
  }

  /** Round2 picks the nearest hundredth, and the upper one on a tie. */
  lemma Round2IsNearest(x: real)
    ensures Value(Round2(x)) - 0.005 <= x < Value(Round2(x)) + 0.005
  {
    var f := x * 100.0 + 0.5;
    assert f.Floor as real <= f < f.Floor as real + 1.0;
  }

  /** A request amount that does not exceed a stored balance still does not once it is stored itself. */
  lemma StoringKeepsUpperBound(amount: real, balance: int)
    requires amount <= Value(balance)
    ensures Round2(amount) <= balance
  {
    Round2IsNearest(amount);
    assert Round2(amount) as real - 0.5 <= balance as real;
  }

  /** One line of a sale or purchase as computeTotals sees it, with the percentage that applies to it. */
  datatype Taxable = Taxable(lineTotal: int, percent: real)

  datatype Totals = Totals(lineTaxes: seq<int>, total: int, tax: int)

  /** round2(lineTotal * percent / 100), in cents. */
  function LineTax(lineTotal: int, percent: real): int
  {
    Round2(Value(lineTotal) * percent / 100.0)
  }

  function TaxOf(): Taxable -> int
  {
    (t: Taxable) => LineTax(t.lineTotal, t.percent)
  }

  function TotalOf(): Taxable -> int
  {
    (t: Taxable) => t.lineTotal
  }

  function Identity(): int -> int
  {
    (x: int) => x
  }

  /** The line's own percentage if it has one, else the document's, else none. */
  function EffectivePercent(line: Option<real>, document: Option<real>): real
  {
    line.GetOr(document.GetOr(0.0))
  }

  /** Per-line tax, the total and the tax of a document; shared by create, update and confirm. */
  function ComputeTotals(lines: seq<Taxable>): Totals
  {
    var taxes := seq(|lines|, k requires 0 <= k < |lines| => LineTax(lines[k].lineTotal, lines[k].percent));
    Totals(taxes, SumOver(lines, TotalOf()), SumOver(taxes, Identity()))
  }

  lemma {:induction false} TaxIsSumOfLines(lines: seq<Taxable>)
    ensures ComputeTotals(lines).tax == SumOver(lines, TaxOf())
  {
    if lines != [] {
      var n := |lines| - 1;
      TaxIsSumOfLines(lines[..n]);
      assert ComputeTotals(lines).lineTaxes[..n] == ComputeTotals(lines[..n]).lineTaxes;
    }
  }

  /** The tax before any rounding, in cents. */
  function ExactTax(lines: seq<Taxable>): real
  {
    if lines == [] then 0.0
    else
      var last := lines[|lines| - 1];
      ExactTax(lines[..|lines| - 1]) + last.lineTotal as real * last.percent / 100.0
  }

  lemma LineTaxWithinHalfCent(lineTotal: int, percent: real)
    ensures LineTax(lineTotal, percent) as real - 0.5
              <= lineTotal as real * percent / 100.0
              < LineTax(lineTotal, percent) as real + 0.5
  {
    var x := Value(lineTotal) * percent / 100.0;
    assert x * 100.0 == lineTotal as real * percent / 100.0;
    Round2IsNearest(x);
  }

  /** The stored tax of n lines is within n half-cents of the exact tax. */
  lemma {:induction false} TaxWithinHalfCentPerLine(lines: seq<Taxable>)
    ensures ComputeTotals(lines).tax as real - 0.5 * |lines| as real
              <= ExactTax(lines)
              <= ComputeTotals(lines).tax as real + 0.5 * |lines| as real
  {
    TaxIsSumOfLines(lines);
    if lines != [] {
      var n := |lines| - 1;
      TaxWithinHalfCentPerLine(lines[..n]);
      TaxIsSumOfLines(lines[..n]);
      LineTaxWithinHalfCent(lines[n].lineTotal, lines[n].percent);
    }
  }

  lemma ProductInBounds(a: real, b: real, c: real)
    requires 0.0 <= a && 0.0 <= b <= c
    ensures 0.0 <= a * b <= a * c
  {
    assert a * (c - b) >= 0.0;
    assert a * (c - b) == a * c - a * b;
  }

  lemma LineTaxBetweenZeroAndTotal(lineTotal: int, percent: real)
    requires 0 <= lineTotal && 0.0 <= percent <= 100.0
    ensures 0 <= LineTax(lineTotal, percent) <= lineTotal
  {
    var exact := lineTotal as real * percent / 100.0;
    ProductInBounds(lineTotal as real, percent, 100.0);
    assert 0.0 <= exact <= lineTotal as real;
    LineTaxWithinHalfCent(lineTotal, percent);
  }

  /** With percentages from 0 to 100 the tax never exceeds the total. */
  lemma {:induction false} TaxAtMostTotal(lines: seq<Taxable>)
    requires forall k :: 0 <= k < |lines| ==> 0 <= lines[k].lineTotal && 0.0 <= lines[k].percent <= 100.0
    ensures 0 <= ComputeTotals(lines).tax <= ComputeTotals(lines).total
  {
    TaxIsSumOfLines(lines);
    if lines != [] {
      var n := |lines| - 1;
      TaxAtMostTotal(lines[..n]);
      TaxIsSumOfLines(lines[..n]);
      LineTaxBetweenZeroAndTotal(lines[n].lineTotal, lines[n].percent);
    }
  }

  /** The percentage a numeric(5,2) column keeps of a requested one. */
  function StoredPercent(percent: real): real
  {
    Value(Round2(percent))
  }

  /** Enough cents for a difference of d per cent to move the tax by a whole cent. */
  lemma BigLineTotal(d: real) returns (lineTotal: nat)
    requires d > 0.0
    ensures lineTotal as real * d / 100.0 >= 2.0
  {
    var exact := 200.0 / d;
    lineTotal := exact.Floor + 1;
    assert lineTotal as real >= exact;
    assert lineTotal as real * d >= exact * d;
  }

  /**
   Tax is computed with the requested percentage when a quotation is created
   and with the stored one when it is confirmed. The two agree on every line
   total exactly when the request has no more than two decimals.
   */
  lemma TaxSurvivesStorageIff(percent: real)
    ensures (forall lineTotal: nat :: LineTax(lineTotal, percent) == LineTax(lineTotal, StoredPercent(percent)))
            <==> percent == StoredPercent(percent)
  {
    var stored := StoredPercent(percent);
    if percent != stored {
      var d := if percent > stored then percent - stored else stored - percent;
      var big := BigLineTotal(d);
      LineTaxWithinHalfCent(big, percent);
      LineTaxWithinHalfCent(big, stored);
      var b := big as real;
      if percent > stored {
        assert b * percent == b * stored + b * d;
      } else {
        assert b * stored == b * percent + b * d;
      }
      assert LineTax(big, percent) != LineTax(big, stored);
    }
  }

  /**
   A line total is computed from the requested unit price, while the stored
   unit price is rounded: they match for every quantity exactly when the
   price has no more than two decimals.
   */
  lemma LineTotalMatchesStoredPriceIff(unitPrice: real)
    ensures (forall qty: nat :: Round2(unitPrice * qty as real) == Round2(unitPrice) * qty)
            <==> unitPrice == Value(Round2(unitPrice))
  {
    var stored := Value(Round2(unitPrice));
    if unitPrice == stored {
      forall qty: nat ensures Round2(unitPrice * qty as real) == Round2(unitPrice) * qty {
        assert unitPrice * qty as real == Value(Round2(unitPrice) * qty);
        Round2OfStored(Round2(unitPrice) * qty);
      }
    } else {
      var d := if unitPrice > stored then unitPrice - stored else stored - unitPrice;
      var big := BigLineTotal(d);
      var b := big as real;
      Round2IsNearest(unitPrice * b);
      assert Value(Round2(unitPrice) * big) == stored * b;
      if unitPrice > stored {
        assert unitPrice * b == stored * b + d * b;
      } else {
        assert stored * b == unitPrice * b + d * b;
      }
      assert Round2(unitPrice * big as real) != Round2(unitPrice) * big;
    }
  }
}
