/**
 Sums, flattening and filtering over sequences. Every table of the model is a
 sequence of rows, so "the sum over all documents" and "the movements of all
 documents" are SumOver and FlatMap.
 */
module Seqs {

  /** Sum of f over the elements of s. */
  function SumOver<T>(s: seq<T>, f: T -> int): int
  {
    if s == [] then 0 else SumOver(s[..|s| - 1], f) + f(s[|s| - 1])
  }

  lemma {:induction false} SumAppend<T>(s: seq<T>, t: seq<T>, f: T -> int)
    ensures SumOver(s + t, f) == SumOver(s, f) + SumOver(t, f)
  {
    if t == [] {
      assert s + t == s;
    } else {
      var n := |t| - 1;
      assert (s + t)[..|s + t| - 1] == s + t[..n];
      SumAppend(s, t[..n], f);
    }
  }

  lemma SumSnoc<T>(s: seq<T>, x: T, f: T -> int)
    ensures SumOver(s + [x], f) == SumOver(s, f) + f(x)
  {
    assert (s + [x])[..|s|] == s;
  }

  lemma {:induction false} SumUpdate<T>(s: seq<T>, k: nat, x: T, f: T -> int)
    requires k < |s|
    ensures SumOver(s[k := x], f) == SumOver(s, f) - f(s[k]) + f(x)
  {
    var n := |s| - 1;
    if k == n {
      assert s[k := x][..n] == s[..n];
    } else {
      assert s[k := x][..n] == s[..n][k := x];
      SumUpdate(s[..n], k, x, f);
    }
  }

  lemma {:induction false} SumSame<T>(s: seq<T>, f: T -> int, g: T -> int)
    requires forall k :: 0 <= k < |s| ==> f(s[k]) == g(s[k])
    ensures SumOver(s, f) == SumOver(s, g)
  {
    if s != [] {
      SumSame(s[..|s| - 1], f, g);
    }
  }

  lemma {:induction false} SumZero<T>(s: seq<T>, f: T -> int)
    requires forall k :: 0 <= k < |s| ==> f(s[k]) == 0
    ensures SumOver(s, f) == 0
  {
    if s != [] {
      SumZero(s[..|s| - 1], f);
    }
  }

  lemma {:induction false} SumNonNegative<T>(s: seq<T>, f: T -> int)
    requires forall k :: 0 <= k < |s| ==> f(s[k]) >= 0
    ensures SumOver(s, f) >= 0
  {
    if s != [] {
      SumNonNegative(s[..|s| - 1], f);
    }
  }

  /** With nonnegative terms, any one term is at most the sum. */
  lemma {:induction false} SumAtLeastTerm<T>(s: seq<T>, k: nat, f: T -> int)
    requires k < |s|
    requires forall j :: 0 <= j < |s| ==> f(s[j]) >= 0
    ensures f(s[k]) <= SumOver(s, f)
  {
    if k == |s| - 1 {
      SumNonNegative(s[..k], f);
    } else {
      SumAtLeastTerm(s[..|s| - 1], k, f);
    }
  }

  /** Sum of g(0), ..., g(n-1). */
  function SumUpTo(n: nat, g: nat -> int): int
  {
    if n == 0 then 0 else SumUpTo(n - 1, g) + g(n - 1)
  }

  lemma {:induction false} SumUpToSame(n: nat, g: nat -> int, h: nat -> int)
    requires forall i: nat :: i < n ==> g(i) == h(i)
    ensures SumUpTo(n, g) == SumUpTo(n, h)
  {
    if n > 0 {
      SumUpToSame(n - 1, g, h);
    }
  }

  lemma {:induction false} SumUpToPlus(n: nat, f: nat -> int, g: nat -> int, h: nat -> int)
    requires forall i: nat :: i < n ==> h(i) == f(i) + g(i)
    ensures SumUpTo(n, h) == SumUpTo(n, f) + SumUpTo(n, g)
  {
    if n > 0 {
      SumUpToPlus(n - 1, f, g, h);
    }
  }

  lemma {:induction false} SumUpToZero(n: nat, g: nat -> int)
    requires forall i: nat :: i < n ==> g(i) == 0
    ensures SumUpTo(n, g) == 0
  {
    if n > 0 {
      SumUpToZero(n - 1, g);
    }
  }

  lemma {:induction false} SumUpToScaled(n: nat, f: nat -> int, c: int, scaled: nat -> int)
    requires forall i: nat :: i < n ==> scaled(i) == c * f(i)
    ensures SumUpTo(n, scaled) == c * SumUpTo(n, f)
  {
    if n > 0 {
      SumUpToScaled(n - 1, f, c, scaled);
    }
  }

  /** The elements of s by position. */
  function ByPosition<T>(s: seq<T>, f: T -> int): nat -> int
  {
    (i: nat) => if i < |s| then f(s[i]) else 0
  }

  lemma {:induction false} SumByPosition<T>(s: seq<T>, f: T -> int)
    ensures SumOver(s, f) == SumUpTo(|s|, ByPosition(s, f))
  {
    if s != [] {
      var n := |s| - 1;
      SumByPosition(s[..n], f);
      SumUpToSame(n, ByPosition(s[..n], f), ByPosition(s, f));
    }
  }

  /** The sum over one table as a function of the item it is seen from. */
  function SumAt<T>(s: seq<T>, f: nat -> T -> int): nat -> int
  {
    (i: nat) => SumOver(s, f(i))
  }

  /** What one row weighs, as a function of the item it is seen from. */
  function RowAt<T>(x: T, f: nat -> T -> int): nat -> int
  {
    (i: nat) => f(i)(x)
  }

  /** Adding first over the items and then over the rows, or the other way round, is the same. */
  lemma {:induction false} SumExchange<T>(s: seq<T>, n: nat, f: nat -> T -> int, g: T -> int)
    requires forall k :: 0 <= k < |s| ==> SumUpTo(n, RowAt(s[k], f)) == g(s[k])
    ensures SumUpTo(n, SumAt(s, f)) == SumOver(s, g)
  {
    if s == [] {
      forall i: nat | i < n ensures SumAt(s, f)(i) == 0 {
        assert SumAt(s, f)(i) == SumOver(s, f(i));
      }
      SumUpToZero(n, SumAt(s, f));
    } else {
      var last := |s| - 1;
      SumExchange(s[..last], n, f, g);
      SumUpToPlus(n, SumAt(s[..last], f), RowAt(s[last], f), SumAt(s, f));
    }
  }

  /** The concatenation of f(s[0]), f(s[1]), ... */
  function FlatMap<T, U>(s: seq<T>, f: T -> seq<U>): seq<U>
  {
    if s == [] then [] else FlatMap(s[..|s| - 1], f) + f(s[|s| - 1])
  }

  lemma FlatMapSnoc<T, U>(s: seq<T>, x: T, f: T -> seq<U>)
    ensures FlatMap(s + [x], f) == FlatMap(s, f) + f(x)
  {
    assert (s + [x])[..|s|] == s;
  }

  /** Pushing the images of the rows one after the other behind what is there already. */
  lemma PushedNext<T, U>(before: seq<U>, rows: seq<T>, k: nat, f: T -> seq<U>)
    requires k < |rows|
    ensures before + FlatMap(rows[..k], f) + f(rows[k]) == before + FlatMap(rows[..k + 1], f)
  {
    assert rows[..k + 1] == rows[..k] + [rows[k]];
    FlatMapSnoc(rows[..k], rows[k], f);
  }

  lemma {:induction false} FlatMapAppend<T, U>(s: seq<T>, t: seq<T>, f: T -> seq<U>)
    ensures FlatMap(s + t, f) == FlatMap(s, f) + FlatMap(t, f)
  {
    if t == [] {
      assert s + t == s;
    } else {
      var n := |t| - 1;
      assert (s + t)[..|s + t| - 1] == s + t[..n];
      FlatMapAppend(s, t[..n], f);
    }
  }

  lemma Removing<T>(t: seq<T>, j: nat)
    requires j < |t|
    ensures multiset(t[..j] + t[j + 1..]) == multiset(t) - multiset{t[j]}
  {
    assert t == t[..j] + [t[j]] + t[j + 1..];
  }

  /** A permutation of s + [x] without one occurrence of x. */
  lemma Without<T>(t: seq<T>, s: seq<T>, x: T) returns (rest: seq<T>, j: nat)
    requires multiset(t) == multiset(s + [x])
    ensures j < |t| && t[j] == x && rest == t[..j] + t[j + 1..] && multiset(rest) == multiset(s)
  {
    assert (s + [x])[|s|] in multiset(s + [x]);
    j :| 0 <= j < |t| && t[j] == x;
    rest := t[..j] + t[j + 1..];
    Removing(t, j);
    Removing(s + [x], |s|);
    assert (s + [x])[..|s|] + (s + [x])[|s| + 1..] == s;
  }

  /** The order of the rows only moves their images about. */
  lemma {:induction false} FlatMapPermuted<T, U>(s: seq<T>, t: seq<T>, f: T -> seq<U>)
    requires multiset(s) == multiset(t)
    ensures multiset(FlatMap(s, f)) == multiset(FlatMap(t, f))
  {
    if s == [] {
      assert |t| == |multiset(t)| == |multiset(s)|;
    } else {
      var n := |s| - 1;
      assert s == s[..n] + [s[n]];
      var rest, j := Without(t, s[..n], s[n]);
      FlatMapPermuted(s[..n], rest, f);
      assert t == t[..j] + [t[j]] + t[j + 1..];
      FlatMapSnoc(t[..j], t[j], f);
      FlatMapAppend(t[..j] + [t[j]], t[j + 1..], f);
      FlatMapAppend(t[..j], t[j + 1..], f);
    }
  }

  lemma {:induction false} SumFlatMap<T, U>(s: seq<T>, f: T -> seq<U>, g: U -> int, h: T -> int)
    requires forall k :: 0 <= k < |s| ==> SumOver(f(s[k]), g) == h(s[k])
    ensures SumOver(FlatMap(s, f), g) == SumOver(s, h)
  {
    if s != [] {
      var n := |s| - 1;
      SumFlatMap(s[..n], f, g, h);
      SumAppend(FlatMap(s[..n], f), f(s[n]), g);
    }
  }

  lemma {:induction false} FlatMapAll<T, U>(s: seq<T>, f: T -> seq<U>, p: U -> bool)
    requires forall k, j :: 0 <= k < |s| && 0 <= j < |f(s[k])| ==> p(f(s[k])[j])
    ensures forall j :: 0 <= j < |FlatMap(s, f)| ==> p(FlatMap(s, f)[j])
  {
    if s != [] {
      var n := |s| - 1;
      FlatMapAll(s[..n], f, p);
      assert forall j :: 0 <= j < |f(s[n])| ==> p(f(s[n])[j]);
    }
  }

  /** The elements of s that satisfy p, in order. */
  function Filter<T(!new)>(s: seq<T>, p: T -> bool): (r: seq<T>)
    ensures forall x :: x in r <==> x in s && p(x)
    ensures |r| <= |s|
  {
    if s == [] then []
    else
      var n := |s| - 1;
      assert s == s[..n] + [s[n]];
      Filter(s[..n], p) + (if p(s[n]) then [s[n]] else [])
  }

  lemma {:induction false} FilterPermuted<T(!new)>(s: seq<T>, t: seq<T>, p: T -> bool)
    requires multiset(s) == multiset(t)
    ensures multiset(Filter(s, p)) == multiset(Filter(t, p))
  {
    if s == [] {
      assert |t| == |multiset(t)| == |multiset(s)|;
    } else {
      var n := |s| - 1;
      assert s == s[..n] + [s[n]];
      var rest, j := Without(t, s[..n], s[n]);
      FilterPermuted(s[..n], rest, p);
      assert t == t[..j] + [t[j]] + t[j + 1..];
      FilterAppend(t[..j], [t[j]], p);
      FilterAppend(t[..j] + [t[j]], t[j + 1..], p);
      FilterAppend(t[..j], t[j + 1..], p);
    }
  }

  lemma FilterSnoc<T(!new)>(s: seq<T>, x: T, p: T -> bool)
    ensures Filter(s + [x], p) == Filter(s, p) + (if p(x) then [x] else [])
  {
    assert (s + [x])[..|s|] == s;
  }

  lemma FilterTail<T(!new)>(s: seq<T>, p: T -> bool)
    requires s != []
    ensures Filter(s, p) == Filter(s[..|s| - 1], p) + (if p(s[|s| - 1]) then [s[|s| - 1]] else [])
  {
  }

  lemma {:induction false} FilterAppend<T(!new)>(s: seq<T>, t: seq<T>, p: T -> bool)
    ensures Filter(s + t, p) == Filter(s, p) + Filter(t, p)
  {
    if t == [] {
      assert s + t == s;
    } else {
      var n := |t| - 1;
      assert (s + t)[..|s + t| - 1] == s + t[..n];
      FilterAppend(s, t[..n], p);
    }
  }

  lemma {:induction false} FilterNone<T(!new)>(s: seq<T>, p: T -> bool)
    requires forall k :: 0 <= k < |s| ==> !p(s[k])
    ensures Filter(s, p) == []
  {
    if s != [] {
      FilterNone(s[..|s| - 1], p);
    }
  }

  lemma {:induction false} FilterSame<T(!new)>(s: seq<T>, p: T -> bool, q: T -> bool)
    requires forall k :: 0 <= k < |s| ==> p(s[k]) == q(s[k])
    ensures Filter(s, p) == Filter(s, q)
  {
    if s != [] {
      FilterSame(s[..|s| - 1], p, q);
    }
  }

  lemma {:induction false} FilterAll<T(!new)>(s: seq<T>, p: T -> bool)
    requires forall k :: 0 <= k < |s| ==> p(s[k])
    ensures Filter(s, p) == s
  {
    if s != [] {
      FilterAll(s[..|s| - 1], p);
    }
  }

  /**
   Rows dropped by a query whose every movement the final cut would drop
   anyway do not change what is left after the cut.
   */
  lemma {:induction false} PrefilterIsSafe<T(!new), U(!new)>(s: seq<T>, pre: T -> bool, f: T -> seq<U>, cut: U -> bool)
    requires forall k :: 0 <= k < |s| && !pre(s[k]) ==> Filter(f(s[k]), cut) == []
    ensures Filter(FlatMap(Filter(s, pre), f), cut) == Filter(FlatMap(s, f), cut)
  {
    if s != [] {
      var n := |s| - 1;
      var kept := Filter(s[..n], pre);
      PrefilterIsSafe(s[..n], pre, f, cut);
      FilterAppend(FlatMap(s[..n], f), f(s[n]), cut);
      if pre(s[n]) {
        FlatMapSnoc(kept, s[n], f);
        FilterAppend(FlatMap(kept, f), f(s[n]), cut);
      } else {
        assert Filter(s, pre) == kept;
      }
    }
  }

  predicate Distinct<T(==)>(s: seq<T>)
  {
    forall j, k :: 0 <= j < k < |s| ==> s[j] != s[k]
  }
}
