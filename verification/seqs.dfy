/** Array pipelines the pages use, over immutable sequences: `filter`,
    a stable sort by an integer key, and `slice(0, n)`. */
module Seqs {

  /** `r` is an order-preserving selection of elements of `s`. */
  ghost predicate IsSubsequence<T>(r: seq<T>, s: seq<T>)
    decreases |s|
  {
    |r| == 0 || (|s| > 0 && ((r[0] == s[0] && IsSubsequence(r[1..], s[1..])) || IsSubsequence(r, s[1..])))
  }

  /** `Array.prototype.filter`. */
  function Filter<T>(s: seq<T>, p: T -> bool): (r: seq<T>)
    ensures |r| <= |s|
  {
    if |s| == 0 then []
    else if p(s[0]) then [s[0]] + Filter(s[1..], p)
    else Filter(s[1..], p)
  }

  /** Every element satisfying `p` is kept exactly as often as it occurs,
      and every other element is dropped. */
  lemma {:induction false} FilterCount<T(!new)>(s: seq<T>, p: T -> bool)
    ensures forall x :: multiset(Filter(s, p))[x] == if p(x) then multiset(s)[x] else 0
  {
    if |s| > 0 {
      FilterCount(s[1..], p);
      assert s == [s[0]] + s[1..];
    }
  }

  /** The filter keeps the input's order, and what it keeps satisfies `p`
      and comes from the input; every element of the input satisfying `p` is
      kept. */
  lemma {:induction false} FilterSelects<T(!new)>(s: seq<T>, p: T -> bool)
    ensures IsSubsequence(Filter(s, p), s)
    ensures forall i :: 0 <= i < |Filter(s, p)| ==> p(Filter(s, p)[i]) && Filter(s, p)[i] in s
    ensures forall i :: 0 <= i < |s| && p(s[i]) ==> s[i] in Filter(s, p)
  {
    var r := Filter(s, p);
    if |s| > 0 {
      FilterSelects(s[1..], p);
      if p(s[0]) {
        assert r[1..] == Filter(s[1..], p);
      }
    }
    FilterCount(s, p);
    forall i | 0 <= i < |r| ensures p(r[i]) && r[i] in s {
      assert multiset(r)[r[i]] > 0;
    }
    forall i | 0 <= i < |s| && p(s[i]) ensures s[i] in r {
      assert multiset(s)[s[i]] > 0;
    }
  }

  /** Filtering distributes over concatenation. */
  lemma {:induction false} FilterConcat<T>(a: seq<T>, b: seq<T>, p: T -> bool)
    ensures Filter(a + b, p) == Filter(a, p) + Filter(b, p)
  {
    if |a| == 0 {
      assert a + b == b;
    } else {
      var ab := a + b;
      assert ab[0] == a[0];
      assert ab[1..] == a[1..] + b;
      FilterConcat(a[1..], b, p);
      var left, right := Filter(a[1..], p), Filter(b, p);
      assert Filter(ab[1..], p) == left + right;
      if p(a[0]) {
        assert Filter(ab, p) == [a[0]] + (left + right);
        assert Filter(a, p) == [a[0]] + left;
        assert [a[0]] + (left + right) == ([a[0]] + left) + right;
      } else {
        assert Filter(ab, p) == left + right;
        assert Filter(a, p) == left;
      }
    }
  }

  /** What a filter keeps is a sub-bag of its input. */
  lemma FilterSubBag<T(!new)>(s: seq<T>, p: T -> bool)
    ensures multiset(Filter(s, p)) <= multiset(s)
  {
    var r := Filter(s, p);
    FilterCount(s, p);
    forall x ensures multiset(r)[x] <= multiset(s)[x] {
    }
  }

  /** A sub-bag of what a filter keeps satisfies the predicate and is a
      sub-bag of the filter's input. */
  lemma SubBagOfFilter<T(!new)>(top: seq<T>, s: seq<T>, p: T -> bool)
    requires multiset(top) <= multiset(Filter(s, p))
    ensures forall i :: 0 <= i < |top| ==> p(top[i])
    ensures multiset(top) <= multiset(s)
  {
    FilterCount(s, p);
    forall i | 0 <= i < |top| ensures p(top[i]) {
      assert multiset(top)[top[i]] > 0;
    }
    FilterSubBag(s, p);
  }

  /** Two predicates that agree on every element select the same elements. */
  lemma {:induction false} FilterCongruent<T>(s: seq<T>, p: T -> bool, q: T -> bool)
    requires forall i :: 0 <= i < |s| ==> p(s[i]) == q(s[i])
    ensures Filter(s, p) == Filter(s, q)
  {
    if |s| > 0 {
      FilterCongruent(s[1..], p, q);
    }
  }

  /** A predicate that holds of every element keeps the whole sequence. */
  lemma {:induction false} FilterKeepsAll<T>(s: seq<T>, p: T -> bool)
    requires forall i :: 0 <= i < |s| ==> p(s[i])
    ensures Filter(s, p) == s
  {
    if |s| > 0 {
      FilterKeepsAll(s[1..], p);
      assert s == [s[0]] + s[1..];
    }
  }

  ghost predicate SortedBy<T>(s: seq<T>, key: T -> int) {
    forall i, j :: 0 <= i < j < |s| ==> key(s[i]) <= key(s[j])
  }

  /** Every element of a bag made of `t`'s elements and `x` has a key of at
      least `k`, when `x` and every element of `t` have. */
  lemma BagLowerBound<T>(r: seq<T>, t: seq<T>, x: T, key: T -> int, k: int)
    requires multiset(r) == multiset(t) + multiset{x}
    requires k <= key(x) && forall i :: 0 <= i < |t| ==> k <= key(t[i])
    ensures forall i :: 0 <= i < |r| ==> k <= key(r[i])
  {
    forall i | 0 <= i < |r| ensures k <= key(r[i]) {
      assert r[i] in multiset(r);
      if r[i] != x {
        assert r[i] in multiset(t);
        var j :| 0 <= j < |t| && t[j] == r[i];
      }
    }
  }

  /** Inserts `x` before the first element whose key is not smaller. */
  function Insert<T>(x: T, s: seq<T>, key: T -> int): (r: seq<T>)
    requires SortedBy(s, key)
    ensures SortedBy(r, key)
    ensures multiset(r) == multiset(s) + multiset{x}
  {
    if |s| == 0 then [x]
    else if key(x) <= key(s[0]) then [x] + s
    else
      var rest := Insert(x, s[1..], key);
      InsertBehindHead(s, x, rest, key);
      [s[0]] + rest
  }

  /** Putting the head of a sorted sequence in front of the tail with `x`
      inserted keeps the order, when `x` belongs behind the head. */
  lemma InsertBehindHead<T>(s: seq<T>, x: T, rest: seq<T>, key: T -> int)
    requires |s| > 0 && SortedBy(s, key) && key(s[0]) < key(x)
    requires SortedBy(rest, key) && multiset(rest) == multiset(s[1..]) + multiset{x}
    ensures SortedBy([s[0]] + rest, key)
    ensures multiset([s[0]] + rest) == multiset(s) + multiset{x}
  {
    var tail := s[1..];
    assert s == [s[0]] + tail;
    assert forall i :: 0 <= i < |tail| ==> key(s[0]) <= key(tail[i]) by {
      forall i | 0 <= i < |tail| ensures key(s[0]) <= key(tail[i]) {
        assert tail[i] == s[i + 1];
      }
    }
    BagLowerBound(rest, tail, x, key, key(s[0]));
    var r := [s[0]] + rest;
    forall i, j | 0 <= i < j < |r| ensures key(r[i]) <= key(r[j]) {
      assert r[j] == rest[j - 1];
      if i > 0 {
        assert r[i] == rest[i - 1];
      }
    }
  }

  /** A stable sort, ascending by `key`: `arr.sort((a, b) => key(a) - key(b))`. */
  function SortBy<T>(s: seq<T>, key: T -> int): (r: seq<T>)
    ensures SortedBy(r, key)
    ensures multiset(r) == multiset(s)
  {
    if |s| == 0 then []
    else
      assert s == [s[0]] + s[1..];
      Insert(s[0], SortBy(s[1..], key), key)
  }

  /** `arr.slice(0, n)`. */
  function Take<T>(s: seq<T>, n: nat): (r: seq<T>)
    ensures |r| == if |s| < n then |s| else n
    ensures r <= s
  {
    if |s| <= n then s else s[..n]
  }

  /** `sort(...).slice(0, n)`: the `n` elements with the smallest keys, in
      key order. Every element left out has a key at least that of every
      element kept. */
  function TopBy<T>(s: seq<T>, n: nat, key: T -> int): (top: seq<T>)
    ensures |top| == if |s| < n then |s| else n
    ensures SortedBy(top, key)
    ensures multiset(top) <= multiset(s)
    ensures forall x, y :: x in top && y in multiset(s) - multiset(top) ==> key(x) <= key(y)
  {
    var sorted := SortBy(s, key);
    var top := Take(sorted, n);
    var rest := sorted[|top|..];
    SplitBag(sorted, top, rest);
    PrefixIsSorted(sorted, top, key);
    PrefixIsLeast(sorted, top, rest, key);
    top
  }

  /** Splitting a sequence splits its bag. */
  lemma SplitBag<T>(sorted: seq<T>, top: seq<T>, rest: seq<T>)
    requires top <= sorted && rest == sorted[|top|..]
    ensures multiset(sorted) == multiset(top) + multiset(rest)
  {
    assert sorted == top + rest;
  }

  /** A prefix of a sorted sequence is sorted. */
  lemma PrefixIsSorted<T>(sorted: seq<T>, top: seq<T>, key: T -> int)
    requires SortedBy(sorted, key) && top <= sorted
    ensures SortedBy(top, key)
  {
    forall i, j | 0 <= i < j < |top| ensures key(top[i]) <= key(top[j]) {
      assert top[i] == sorted[i] && top[j] == sorted[j];
    }
  }

  /** In a sorted sequence, each element of the prefix is at most each
      element of the remainder. */
  lemma PrefixIsLeast<T>(sorted: seq<T>, top: seq<T>, rest: seq<T>, key: T -> int)
    requires SortedBy(sorted, key) && top <= sorted && rest == sorted[|top|..]
    ensures forall x, y :: x in top && y in multiset(rest) ==> key(x) <= key(y)
  {
    forall x, y | x in top && y in multiset(rest)
      ensures key(x) <= key(y)
    {
      assert y in rest;
      var i :| 0 <= i < |top| && top[i] == x;
      var j :| 0 <= j < |rest| && rest[j] == y;
      assert sorted[i] == x && sorted[|top| + j] == y;
    }
  }
}
