/** The array operations the tracker uses on its lists: `filter`, and the
    `reduce((total, item) => total + f(item), 0)` sums of the dashboard. */
module Lists {

  /** `Array.prototype.filter`: keeps, in order, the elements satisfying `p`. */
  function Filter<T(!new)>(s: seq<T>, p: T -> bool): (r: seq<T>)
    ensures |r| <= |s|
    ensures forall x :: x in r <==> x in s && p(x)
    decreases |s|
  {
    if |s| == 0 then []
    else if p(s[0]) then [s[0]] + Filter(s[1..], p)
    else Filter(s[1..], p)
  }

  /** Nothing passes when no element satisfies the predicate. */
  lemma {:induction false} FilterNone<T(!new)>(s: seq<T>, p: T -> bool)
    requires forall i :: 0 <= i < |s| ==> !p(s[i])
    ensures Filter(s, p) == []
    decreases |s|
  {
    if |s| > 0 {
      assert forall i :: 0 <= i < |s| - 1 ==> s[1..][i] == s[i + 1];
      FilterNone(s[1..], p);
    }
  }

  lemma FilterCons<T(!new)>(h: T, t: seq<T>, p: T -> bool)
    ensures Filter([h] + t, p) == (if p(h) then [h] else []) + Filter(t, p)
  {
    assert ([h] + t)[1..] == t;
  }

  lemma {:induction false} FilterAppend<T(!new)>(a: seq<T>, b: seq<T>, p: T -> bool)
    ensures Filter(a + b, p) == Filter(a, p) + Filter(b, p)
    decreases |a|
  {
    if |a| == 0 {
      assert a + b == b;
    } else {
      assert (a + b)[1..] == a[1..] + b;
      FilterAppend(a[1..], b, p);
    }
  }

  /** `reduce` summing `f` over the elements, starting from 0. */
  function SumOf<T>(s: seq<T>, f: T -> int): int
    decreases |s|
  {
    if |s| == 0 then 0 else f(s[0]) + SumOf(s[1..], f)
  }

  lemma {:induction false} SumOfAppend<T>(a: seq<T>, b: seq<T>, f: T -> int)
    ensures SumOf(a + b, f) == SumOf(a, f) + SumOf(b, f)
    decreases |a|
  {
    if |a| == 0 {
      assert a + b == b;
    } else {
      assert (a + b)[1..] == a[1..] + b;
      SumOfAppend(a[1..], b, f);
    }
  }

  /** Removing the element at `j` takes its term out of the sum. */
  lemma {:induction false} SumOfRemove<T>(b: seq<T>, j: nat, f: T -> int)
    requires j < |b|
    ensures SumOf(b, f) == f(b[j]) + SumOf(b[..j] + b[j + 1..], f)
    decreases j
  {
    var rem := b[..j] + b[j + 1..];
    if j == 0 {
      assert rem == b[1..];
    } else {
      var tail := b[1..];
      SumOfRemove(tail, j - 1, f);
      assert rem[0] == b[0];
      assert rem[1..] == tail[..j - 1] + tail[j..];
    }
  }

  /** Removing the element at `j` takes one copy of it out of the multiset. */
  lemma MultisetRemove<T>(b: seq<T>, j: nat)
    requires j < |b|
    ensures multiset(b[..j] + b[j + 1..]) == multiset(b) - multiset{b[j]}
  {
    assert b == b[..j] + [b[j]] + b[j + 1..];
    assert multiset(b) == multiset(b[..j]) + multiset{b[j]} + multiset(b[j + 1..]);
  }

  /** Reordering the elements does not change the sum. */
  lemma {:induction false} SumOfPermutation<T>(a: seq<T>, b: seq<T>, f: T -> int)
    requires multiset(a) == multiset(b)
    ensures SumOf(a, f) == SumOf(b, f)
    decreases |a|
  {
    if |a| > 0 {
      var j := MatchHead(a, b);
      SumOfPermutation(a[1..], b[..j] + b[j + 1..], f);
      SumOfRemove(b, j, f);
    }
  }

  /** A position of `b` holding the head of its permutation `a`; the rests
      are again permutations of each other. */
  lemma MatchHead<T>(a: seq<T>, b: seq<T>) returns (j: nat)
    requires multiset(a) == multiset(b) && |a| > 0
    ensures j < |b| && b[j] == a[0]
    ensures multiset(a[1..]) == multiset(b[..j] + b[j + 1..])
  {
    assert a[0] in multiset(b);
    j :| 0 <= j < |b| && b[j] == a[0];
    MultisetRemove(b, j);
    assert a == [a[0]] + a[1..];
    assert multiset(a) == multiset{a[0]} + multiset(a[1..]);
  }

  /** A sum of terms each between `lo` and `hi` lies between `n * lo` and `n * hi`. */
  lemma {:induction false} SumOfBounds<T>(s: seq<T>, f: T -> int, lo: int, hi: int)
    requires forall i :: 0 <= i < |s| ==> lo <= f(s[i]) <= hi
    ensures |s| * lo <= SumOf(s, f) <= |s| * hi
    decreases |s|
  {
    if |s| > 0 {
      SumOfBounds(s[1..], f, lo, hi);
    }
  }

  /** An element's contribution when counting those that satisfy `p`. */
  function Indicator<T>(p: T -> bool): T -> int {
    (x: T) => if p(x) then 1 else 0
  }

  /** The length of a filtered list is the number of elements passing. */
  lemma {:induction false} FilterLengthIsCount<T(!new)>(s: seq<T>, p: T -> bool)
    ensures |Filter(s, p)| == SumOf(s, Indicator(p))
    decreases |s|
  {
    if |s| > 0 {
      FilterLengthIsCount(s[1..], p);
    }
  }

  /** Counting is insensitive to the order of the elements. */
  lemma FilterLengthPermutation<T(!new)>(a: seq<T>, b: seq<T>, p: T -> bool)
    requires multiset(a) == multiset(b)
    ensures |Filter(a, p)| == |Filter(b, p)|
  {
    FilterLengthIsCount(a, p);
    FilterLengthIsCount(b, p);
    SumOfPermutation(a, b, Indicator(p));
  }
}
