/** Array operations the views use: `filter`, `map`, `slice` and "drop the element at index k". */
module Seqs {

  /**
   * `r` holds no element more often than `s`, and each element of `s` that
   * passes `p` exactly as often as `s` does.
   */
  ghost predicate KeepsCounts<T>(r: seq<T>, s: seq<T>, p: T -> bool) {
    && multiset(r) <= multiset(s)
    && forall i :: 0 <= i < |s| && p(s[i]) ==> multiset(r)[s[i]] == multiset(s)[s[i]]
  }

  /** `s.filter(p)`: the elements satisfying `p`, in their original order. */
  function Filter<T>(s: seq<T>, p: T -> bool): (r: seq<T>)
    ensures |r| <= |s|
    ensures forall i :: 0 <= i < |r| ==> r[i] in s && p(r[i])
    ensures forall i :: 0 <= i < |s| && p(s[i]) ==> s[i] in r
    decreases |s|
  {
    if s == [] then []
    else if p(s[0]) then [s[0]] + Filter(s[1..], p)
    else Filter(s[1..], p)
  }

  /** A filter keeps every passing element as many times as it occurs, and adds none. */
  lemma {:induction false} FilterCounts<T>(s: seq<T>, p: T -> bool)
    ensures KeepsCounts(Filter(s, p), s, p)
    decreases |s|
  {
    if s != [] {
      FilterCounts(s[1..], p);
      assert s == [s[0]] + s[1..];
      KeepsCountsStep(s[0], s[1..], Filter(s[1..], p), p);
    }
  }

  lemma KeepsCountsStep<T>(x: T, tail: seq<T>, kept: seq<T>, p: T -> bool)
    requires KeepsCounts(kept, tail, p)
    ensures KeepsCounts((if p(x) then [x] else []) + kept, [x] + tail, p)
  {
    var s, r := [x] + tail, (if p(x) then [x] else []) + kept;
    assert multiset(s) == multiset{x} + multiset(tail);
    assert multiset(r) == (if p(x) then multiset{x} else multiset{}) + multiset(kept);
    forall i | 0 <= i < |s| && p(s[i]) ensures multiset(r)[s[i]] == multiset(s)[s[i]] {
      if i > 0 {
        assert s[i] == tail[i - 1];
      }
    }
  }

  /** Filtering distributes over concatenation: the kept elements keep their relative order. */
  lemma {:induction false} FilterAppend<T>(a: seq<T>, b: seq<T>, p: T -> bool)
    ensures Filter(a + b, p) == Filter(a, p) + Filter(b, p)
    decreases |a|
  {
    if a != [] {
      var head := if p(a[0]) then [a[0]] else [];
      FilterAppend(a[1..], b, p);
      TailOfAppend(a, b);
      FilterStep(a + b, p);
      FilterStep(a, p);
      assert head + (Filter(a[1..], p) + Filter(b, p)) == (head + Filter(a[1..], p)) + Filter(b, p);
    } else {
      assert a + b == b;
    }
  }

  lemma TailOfAppend<T>(a: seq<T>, b: seq<T>)
    requires a != []
    ensures (a + b)[0] == a[0] && (a + b)[1..] == a[1..] + b
  {
  }

  /** One step of `Filter`: the head is kept exactly when it passes. */
  lemma FilterStep<T>(s: seq<T>, p: T -> bool)
    requires s != []
    ensures Filter(s, p) == (if p(s[0]) then [s[0]] else []) + Filter(s[1..], p)
  {
  }

  /** A filter that rejects nothing returns the sequence itself. */
  lemma {:induction false} FilterKeepsAll<T>(s: seq<T>, p: T -> bool)
    requires forall i :: 0 <= i < |s| ==> p(s[i])
    ensures Filter(s, p) == s
    decreases |s|
  {
    if s != [] {
      FilterKeepsAll(s[1..], p);
    }
  }

  /** Two tests that agree on every element of `s` keep the same elements. */
  lemma {:induction false} FilterSameTest<T>(s: seq<T>, p: T -> bool, q: T -> bool)
    requires forall i :: 0 <= i < |s| ==> p(s[i]) == q(s[i])
    ensures Filter(s, p) == Filter(s, q)
    decreases |s|
  {
    if s != [] {
      assert forall i :: 0 <= i < |s[1..]| ==> s[1..][i] == s[i + 1];
      FilterSameTest(s[1..], p, q);
    }
  }

  /** `s.filter((_, i) => i !== k)`: drops index `k`, and nothing when `k` is out of range. */
  function RemoveAt<T>(s: seq<T>, k: int): (r: seq<T>)
    ensures 0 <= k < |s| ==> |r| == |s| - 1
    ensures 0 <= k < |s| ==> forall i :: 0 <= i < |r| ==> r[i] == (if i < k then s[i] else s[i + 1])
    ensures !(0 <= k < |s|) ==> r == s
  {
    if 0 <= k < |s| then s[..k] + s[k + 1..] else s
  }

  /** The number of elements satisfying `p` (`s.filter(p).length`). */
  function Count<T>(s: seq<T>, p: T -> bool): (n: nat)
    ensures n == |Filter(s, p)|
    ensures n <= |s|
    decreases |s|
  {
    if s == [] then 0 else (if p(s[0]) then 1 else 0) + Count(s[1..], p)
  }

  lemma {:induction false} CountAppend<T>(a: seq<T>, b: seq<T>, p: T -> bool)
    ensures Count(a + b, p) == Count(a, p) + Count(b, p)
  {
    FilterAppend(a, b, p);
  }

  /** No element passes exactly when the count is 0, and every element exactly when it is `|s|`. */
  lemma {:induction false} CountBounds<T>(s: seq<T>, p: T -> bool)
    ensures Count(s, p) == 0 <==> forall i :: 0 <= i < |s| ==> !p(s[i])
    ensures Count(s, p) == |s| <==> forall i :: 0 <= i < |s| ==> p(s[i])
    decreases |s|
  {
    if s != [] {
      CountBounds(s[1..], p);
      assert forall i :: 1 <= i < |s| ==> s[i] == s[1..][i - 1];
    }
  }

  /** `a` is `b` with some elements left out, the rest in their original order. */
  predicate IsSubsequence<T(==)>(a: seq<T>, b: seq<T>)
    decreases |a| + |b|
  {
    a == [] || (|b| > 0 && ((a[0] == b[0] && IsSubsequence(a[1..], b[1..])) || IsSubsequence(a, b[1..])))
  }

  /** A filter result is an order-preserving sublist of its input. */
  lemma {:induction false} FilterIsSubsequence<T>(s: seq<T>, p: T -> bool)
    ensures IsSubsequence(Filter(s, p), s)
    decreases |s|
  {
    if s != [] {
      FilterIsSubsequence(s[1..], p);
    }
  }

  /** `s.map(f)`. */
  function Map<A, B>(s: seq<A>, f: A -> B): (r: seq<B>)
    ensures |r| == |s|
    ensures forall i :: 0 <= i < |s| ==> r[i] == f(s[i])
  {
    seq(|s|, i requires 0 <= i < |s| => f(s[i]))
  }

  lemma MapAppend<A, B>(a: seq<A>, b: seq<A>, f: A -> B)
    ensures Map(a + b, f) == Map(a, f) + Map(b, f)
  {
    assert forall i :: 0 <= i < |a + b| ==> Map(a + b, f)[i] == (Map(a, f) + Map(b, f))[i];
  }

  /** Dropping an index commutes with mapping. */
  lemma MapRemoveAt<A, B>(s: seq<A>, k: int, f: A -> B)
    ensures Map(RemoveAt(s, k), f) == RemoveAt(Map(s, f), k)
  {
  }

  /**
   * Dropping index `k` from a sequence drops, from its filtered image, the
   * element at the number of kept elements before `k` when `s[k]` is kept,
   * and nothing otherwise.
   */
  lemma FilterRemoveAt<T>(s: seq<T>, k: int, p: T -> bool)
    requires 0 <= k < |s|
    ensures p(s[k]) ==> Count(s[..k], p) < |Filter(s, p)|
    ensures p(s[k]) ==> Filter(RemoveAt(s, k), p) == RemoveAt(Filter(s, p), Count(s[..k], p))
    ensures !p(s[k]) ==> Filter(RemoveAt(s, k), p) == Filter(s, p)
  {
    SplitAround(s, k);
    FilterAround(s[..k], s[k], s[k + 1..], p);
  }

  lemma SplitAround<T>(s: seq<T>, k: int)
    requires 0 <= k < |s|
    ensures s == s[..k] + [s[k]] + s[k + 1..]
    ensures RemoveAt(s, k) == s[..k] + s[k + 1..]
  {
  }

  lemma FilterAround<T>(a: seq<T>, x: T, b: seq<T>, p: T -> bool)
    ensures p(x) ==> Count(a, p) < |Filter(a + [x] + b, p)|
    ensures p(x) ==> Filter(a + b, p) == RemoveAt(Filter(a + [x] + b, p), Count(a, p))
    ensures !p(x) ==> Filter(a + b, p) == Filter(a + [x] + b, p)
  {
    FilterAppend(a + [x], b, p);
    FilterAppend(a, [x], p);
    FilterAppend(a, b, p);
    FilterMiddle(Filter(a, p), Filter([x], p), Filter(b, p), x, p(x));
  }

  /** The three-part filter equation with the middle part either `[x]` or empty. */
  lemma FilterMiddle<T>(fa: seq<T>, fx: seq<T>, fb: seq<T>, x: T, kept: bool)
    requires fx == if kept then [x] else []
    ensures kept ==> |fa| < |fa + fx + fb| && fa + fb == RemoveAt(fa + fx + fb, |fa|)
    ensures !kept ==> fa + fb == fa + fx + fb
  {
    if kept {
      DropMiddle(fa, x, fb);
    } else {
      assert fa + fx + fb == fa + fb;
    }
  }

  lemma DropMiddle<T>(a: seq<T>, x: T, b: seq<T>)
    ensures RemoveAt(a + [x] + b, |a|) == a + b
  {
    assert (a + [x] + b)[..|a|] == a;
    assert (a + [x] + b)[|a| + 1..] == b;
  }
}
