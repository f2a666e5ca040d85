/** The array operations the pages chain together: `filter`, `reduce` into a
    sum, `filter(...).length`, `slice` (with JavaScript's index rules) and the
    page count `Math.ceil(total / pageSize)`. */
module Seqs {

  function Min(a: int, b: int): int
  {
    if a <= b then a else b
  }

  /** `s.filter(p)`: the elements satisfying `p`, in their original order. */
  function Filter<T>(s: seq<T>, p: T -> bool): (r: seq<T>)
    ensures |r| <= |s|
    ensures forall k | 0 <= k < |r| :: p(r[k])
    ensures forall k | 0 <= k < |r| :: r[k] in s
    ensures forall k | 0 <= k < |s| && p(s[k]) :: s[k] in r
  {
    if s == [] then []
    else if p(s[0]) then [s[0]] + Filter(s[1..], p)
    else Filter(s[1..], p)
  }

  /** Filtering keeps every element satisfying `p` as many times as it occurs,
      and no element failing it. */
  lemma {:induction false} FilterCounts<T>(s: seq<T>, p: T -> bool)
    ensures forall x :: multiset(Filter(s, p))[x] == if p(x) then multiset(s)[x] else 0
    decreases |s|
  {
    if s != [] {
      FilterCounts(s[1..], p);
      assert s == [s[0]] + s[1..];
    }
  }

  /** `r` is obtained from `s` by deleting elements, keeping the order of the rest. */
  predicate IsSubsequence<T(==)>(r: seq<T>, s: seq<T>)
    decreases |s|
  {
    r == [] ||
    (s != [] && ((r[0] == s[0] && IsSubsequence(r[1..], s[1..])) || IsSubsequence(r, s[1..])))
  }

  /** Filtering keeps the surviving elements in their original order. */
  lemma {:induction false} FilterIsSubsequence<T>(s: seq<T>, p: T -> bool)
    ensures IsSubsequence(Filter(s, p), s)
    decreases |s|
  {
    if s != [] {
      FilterIsSubsequence(s[1..], p);
      var r := Filter(s, p);
      if p(s[0]) {
        assert r[1..] == Filter(s[1..], p);
      }
    }
  }

  /** Filtering drops exactly the elements that fail `p`: together with the
      elements that fail it, the kept ones make up the input. */
  lemma {:induction false} FilterPartition<T>(s: seq<T>, p: T -> bool)
    ensures multiset(Filter(s, p)) + multiset(Filter(s, x => !p(x))) == multiset(s)
    ensures |Filter(s, p)| + |Filter(s, x => !p(x))| == |s|
    decreases |s|
  {
    if s != [] {
      FilterPartition(s[1..], p);
      assert s == [s[0]] + s[1..];
      assert multiset(s) == multiset{s[0]} + multiset(s[1..]);
    }
  }

  /** When every element satisfies `p`, filtering returns the input unchanged. */
  lemma {:induction false} FilterKeepsAll<T>(s: seq<T>, p: T -> bool)
    requires forall k | 0 <= k < |s| :: p(s[k])
    ensures Filter(s, p) == s
    decreases |s|
  {
    if s != [] {
      FilterKeepsAll(s[1..], p);
      assert [s[0]] + s[1..] == s;
    }
  }

  /** When no element satisfies `p`, filtering returns the empty list. */
  lemma {:induction false} FilterDropsAll<T>(s: seq<T>, p: T -> bool)
    requires forall k | 0 <= k < |s| :: !p(s[k])
    ensures Filter(s, p) == []
    decreases |s|
  {
    if s != [] {
      FilterDropsAll(s[1..], p);
    }
  }

  /** Filtering a second time with the same test changes nothing. */
  lemma FilterIdempotent<T>(s: seq<T>, p: T -> bool)
    ensures Filter(Filter(s, p), p) == Filter(s, p)
  {
    var r := Filter(s, p);
    FilterKeepsAll(r, p);
  }

  /** Filtering with `p` and then `q` keeps what satisfies both. */
  lemma {:induction false} FilterFilter<T>(s: seq<T>, p: T -> bool, q: T -> bool)
    ensures Filter(Filter(s, p), q) == Filter(s, x => p(x) && q(x))
    decreases |s|
  {
    if s != [] {
      FilterFilter(s[1..], p, q);
      if p(s[0]) {
        assert Filter(s, p)[1..] == Filter(s[1..], p);
      }
    }
  }

  /** `s.reduce((sum, x) => sum + f(x), 0)`. */
  function Sum<T>(s: seq<T>, f: T -> int): int
  {
    if s == [] then 0 else f(s[0]) + Sum(s[1..], f)
  }

  /** Sums split over concatenation. */
  lemma {:induction false} SumAppend<T>(a: seq<T>, b: seq<T>, f: T -> int)
    ensures Sum(a + b, f) == Sum(a, f) + Sum(b, f)
    decreases |a|
  {
    if a != [] {
      SumAppend(a[1..], b, f);
      assert (a + b)[1..] == a[1..] + b;
    } else {
      assert a + b == b;
    }
  }

  /** `s.filter(p).reduce((sum, x) => sum + f(x), 0)`. */
  function SumWhere<T>(s: seq<T>, p: T -> bool, f: T -> int): int
  {
    Sum(Filter(s, p), f)
  }

  /** `s.filter(p).length`. */
  function CountWhere<T>(s: seq<T>, p: T -> bool): nat
  {
    |Filter(s, p)|
  }

  /** The first element decides whether it contributes to a filtered sum or count. */
  lemma WhereStep<T>(s: seq<T>, p: T -> bool, f: T -> int)
    requires s != []
    ensures SumWhere(s, p, f) == (if p(s[0]) then f(s[0]) else 0) + SumWhere(s[1..], p, f)
    ensures CountWhere(s, p) == (if p(s[0]) then 1 else 0) + CountWhere(s[1..], p)
  {
    if p(s[0]) {
      assert Filter(s, p)[1..] == Filter(s[1..], p);
    }
  }

  /** Each element contributes to exactly one of the sums over `p` and over not-`p`. */
  lemma {:induction false} SumWherePartition<T>(s: seq<T>, p: T -> bool, f: T -> int)
    ensures SumWhere(s, p, f) + SumWhere(s, x => !p(x), f) == Sum(s, f)
    decreases |s|
  {
    if s != [] {
      SumWherePartition(s[1..], p, f);
      WhereStep(s, p, f);
      WhereStep(s, x => !p(x), f);
    }
  }

  /** Replacing one element changes a filtered sum and count by that element's
      contribution only: its old one is taken out and its new one put in. */
  lemma {:induction false} WhereUpdate<T>(s: seq<T>, i: int, x: T, p: T -> bool, f: T -> int)
    requires 0 <= i < |s|
    ensures SumWhere(s[i := x], p, f) ==
            SumWhere(s, p, f) - (if p(s[i]) then f(s[i]) else 0) + (if p(x) then f(x) else 0)
    ensures CountWhere(s[i := x], p) ==
            CountWhere(s, p) - (if p(s[i]) then 1 else 0) + (if p(x) then 1 else 0)
    decreases |s|
  {
    var t := s[i := x];
    WhereStep(s, p, f);
    WhereStep(t, p, f);
    if i > 0 {
      assert t[1..] == s[1..][i - 1 := x];
      WhereUpdate(s[1..], i - 1, x, p, f);
    } else {
      assert t[1..] == s[1..];
    }
  }

  /** `s.slice(0, n)`: the first `n` elements, or all of them when there are fewer. */
  function Take<T>(s: seq<T>, n: nat): (r: seq<T>)
    ensures |r| == Min(n, |s|)
    ensures r <= s
  {
    if n <= |s| then s[..n] else s
  }

  /** How `slice` reads one index: negative counts from the end, and the result
      is clamped to `[0, len]`. */
  function SliceIndex(i: int, len: nat): (k: nat)
    ensures k <= len
  {
    if i < 0 then (if len + i < 0 then 0 else len + i)
    else if i < len then i
    else len
  }

  /** `s.slice(start, end)` with JavaScript's index rules. */
  function JsSlice<T>(s: seq<T>, start: int, end: int): (r: seq<T>)
    ensures |r| <= |s|
    ensures 0 <= start <= end ==> r == s[Min(start, |s|)..Min(end, |s|)]
    ensures 0 <= start && 0 <= end ==> |r| <= end - start || r == []
  {
    var from, to := SliceIndex(start, |s|), SliceIndex(end, |s|);
    if from < to then s[from..to] else []
  }

  /** `Math.ceil(n / d)` for a natural number and a positive divisor. */
  function CeilDiv(n: nat, d: nat): (r: nat)
    requires d > 0
    ensures r * d >= n
    ensures (r - 1) * d < n
  {
    var r := (n + d - 1) / d;
    assert n + d - 1 == r * d + (n + d - 1) % d;
    r
  }

  lemma MulMonotone(a: int, b: int, d: nat)
    requires a <= b
    ensures a * d <= b * d
  {
  }

  /** `CeilDiv` is the only number with its two bounds. */
  lemma CeilDivUnique(n: nat, d: nat, r: nat)
    requires d > 0 && r * d >= n && (r - 1) * d < n
    ensures r == CeilDiv(n, d)
  {
    var c := CeilDiv(n, d);
    if r < c {
      MulMonotone(r, c - 1, d);
    } else if r > c {
      MulMonotone(c, r - 1, d);
    }
  }

  /** Page `page` (counted from 1) of size `size`, as the list views cut it:
      `s.slice((page - 1) * size, (page - 1) * size + size)`. */
  function PageOf<T>(s: seq<T>, page: int, size: nat): seq<T>
  {
    var start := (page - 1) * size;
    JsSlice(s, start, start + size)
  }

  /** Pages 1 to `k`, one after the other. */
  function FirstPages<T>(s: seq<T>, size: nat, k: nat): seq<T>
  {
    if k == 0 then [] else FirstPages(s, size, k - 1) + PageOf(s, k, size)
  }

  lemma PageStart(k: nat, size: nat)
    requires k > 0
    ensures 0 <= (k - 1) * size && (k - 1) * size + size == k * size
  {
  }

  lemma {:induction false} FirstPagesArePrefix<T>(s: seq<T>, size: nat, k: nat)
    ensures FirstPages(s, size, k) == s[..Min(k * size, |s|)]
    decreases k
  {
    if k > 0 {
      FirstPagesArePrefix(s, size, k - 1);
      PageStart(k, size);
      var lo, hi := Min((k - 1) * size, |s|), Min(k * size, |s|);
      assert PageOf(s, k, size) == s[lo..hi];
      assert s[..lo] + s[lo..hi] == s[..hi];
    }
  }

  /** Concatenating pages 1 to `ceil(|s| / size)` gives back the whole list. */
  lemma PagesCoverAll<T>(s: seq<T>, size: nat)
    requires size > 0
    ensures FirstPages(s, size, CeilDiv(|s|, size)) == s
  {
    var k := CeilDiv(|s|, size);
    FirstPagesArePrefix(s, size, k);
    assert Min(k * size, |s|) == |s|;
  }
}
