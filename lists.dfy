/** The array operations the stores are built from (`filter`, `find`,
    `findIndex`, `reduce` and a stable `sort`), as functions over sequences,
    with the facts about them that the stores' properties rest on. */
module Lists {
  import opened Wrappers

  /** `Array.prototype.filter`: the elements that satisfy `p`, in order. */
  function Filter<T(==)>(s: seq<T>, p: T -> bool): (r: seq<T>)
    ensures |r| <= |s|
    ensures forall i :: 0 <= i < |r| ==> p(r[i])
    decreases |s|
  {
    if s == [] then []
    else
      var init, last := s[..|s| - 1], s[|s| - 1];
      assert s == init + [last];
      Filter(init, p) + (if p(last) then [last] else [])
  }

  /** An element is kept exactly when it occurs in `s` and satisfies `p`. */
  lemma {:induction false} FilterMembers<T>(s: seq<T>, p: T -> bool)
    ensures forall x :: x in Filter(s, p) <==> x in s && p(x)
    decreases |s|
  {
    if s != [] {
      var init, last := s[..|s| - 1], s[|s| - 1];
      assert s == init + [last];
      FilterMembers(init, p);
      FilterSnoc(init, last, p);
    }
  }

  /** Filtering a sequence extended by one element. */
  lemma FilterSnoc<T>(s: seq<T>, x: T, p: T -> bool)
    ensures Filter(s + [x], p) == Filter(s, p) + (if p(x) then [x] else [])
  {
    assert (s + [x])[..|s|] == s;
  }

  /** A prefix holds no element more often than the whole sequence. */
  lemma PrefixIncluded<T>(s: seq<T>, n: nat)
    requires n <= |s|
    ensures multiset(s[..n]) <= multiset(s)
  {
    assert s == s[..n] + s[n..];
  }

  /** Two predicates that are complementary on `s` split it into two parts
      that together hold every element exactly as often as `s` does. */
  lemma {:induction false} FilterSplit<T>(s: seq<T>, p: T -> bool, q: T -> bool)
    requires forall i :: 0 <= i < |s| ==> q(s[i]) == !p(s[i])
    ensures multiset(Filter(s, p)) + multiset(Filter(s, q)) == multiset(s)
    ensures |Filter(s, p)| + |Filter(s, q)| == |s|
    decreases |s|
  {
    if s != [] {
      var init, last := s[..|s| - 1], s[|s| - 1];
      assert s == init + [last];
      FilterSplit(init, p, q);
    }
  }

  /** Three predicates of which exactly one holds of each element of `s`
      split it into three parts that together hold every element exactly
      as often as `s` does. */
  lemma {:induction false} FilterSplit3<T>(s: seq<T>, p: T -> bool, q: T -> bool, r: T -> bool)
    requires forall i :: 0 <= i < |s| ==>
      (p(s[i]) || q(s[i]) || r(s[i])) && !(p(s[i]) && q(s[i])) && !(p(s[i]) && r(s[i])) && !(q(s[i]) && r(s[i]))
    ensures multiset(Filter(s, p)) + multiset(Filter(s, q)) + multiset(Filter(s, r)) == multiset(s)
    ensures |Filter(s, p)| + |Filter(s, q)| + |Filter(s, r)| == |s|
    decreases |s|
  {
    if s != [] {
      var init, last := s[..|s| - 1], s[|s| - 1];
      assert forall i :: 0 <= i < |init| ==> init[i] == s[i];
      FilterSplit3(init, p, q, r);
      assert s == init + [last];
      FilterSplit3Step(init, last, p, q, r);
    }
  }

  /** The step of `FilterSplit3`: one more element lands in exactly one
      of the three parts. */
  lemma FilterSplit3Step<T>(init: seq<T>, last: T, p: T -> bool, q: T -> bool, r: T -> bool)
    requires (p(last) || q(last) || r(last)) && !(p(last) && q(last)) && !(p(last) && r(last)) && !(q(last) && r(last))
    requires multiset(Filter(init, p)) + multiset(Filter(init, q)) + multiset(Filter(init, r)) == multiset(init)
    requires |Filter(init, p)| + |Filter(init, q)| + |Filter(init, r)| == |init|
    ensures var s := init + [last];
      multiset(Filter(s, p)) + multiset(Filter(s, q)) + multiset(Filter(s, r)) == multiset(s)
    ensures var s := init + [last];
      |Filter(s, p)| + |Filter(s, q)| + |Filter(s, r)| == |s|
  {
    FilterSnoc(init, last, p);
    FilterSnoc(init, last, q);
    FilterSnoc(init, last, r);
    var s := init + [last];
    PartsGrow(Filter(init, p), Filter(init, q), Filter(init, r), init, last,
      Filter(s, p), Filter(s, q), Filter(s, r));
  }

  /** Three parts of `s` stay parts of `s + [x]` when `x` joins exactly
      one of them. */
  lemma PartsGrow<T>(a: seq<T>, b: seq<T>, c: seq<T>, s: seq<T>, x: T, a': seq<T>, b': seq<T>, c': seq<T>)
    requires multiset(a) + multiset(b) + multiset(c) == multiset(s)
    requires |a| + |b| + |c| == |s|
    requires || (a' == a + [x] && b' == b && c' == c)
             || (a' == a && b' == b + [x] && c' == c)
             || (a' == a && b' == b && c' == c + [x])
    ensures multiset(a') + multiset(b') + multiset(c') == multiset(s + [x])
    ensures |a'| + |b'| + |c'| == |s| + 1
  {
    assert multiset(s + [x]) == multiset(s) + multiset{x};
    if a' == a + [x] {
      assert multiset(a + [x]) == multiset(a) + multiset{x};
    } else if b' == b + [x] {
      assert multiset(b + [x]) == multiset(b) + multiset{x};
    } else {
      assert multiset(c + [x]) == multiset(c) + multiset{x};
    }
  }

  /** Filtering twice is filtering once by the conjunction. */
  lemma {:induction false} FilterRefine<T>(s: seq<T>, p: T -> bool, q: T -> bool, r: T -> bool)
    requires forall i :: 0 <= i < |s| ==> r(s[i]) == (p(s[i]) && q(s[i]))
    ensures Filter(Filter(s, p), q) == Filter(s, r)
    decreases |s|
  {
    if s != [] {
      var init, last := s[..|s| - 1], s[|s| - 1];
      assert s == init + [last];
      FilterRefine(init, p, q, r);
      FilterSnoc(init, last, p);
      FilterSnoc(init, last, r);
      if p(last) {
        FilterSnoc(Filter(init, p), last, q);
        assert r(last) == q(last);
      } else {
        assert Filter(s, p) == Filter(init, p);
        assert Filter(s, r) == Filter(init, r);
      }
    }
  }

  /** Replacing one element changes the size of a filter by at most one:
      the old element leaves it if it passed, the new one enters if it
      passes. */
  lemma {:induction false} FilterCountUpdate<T>(s: seq<T>, i: int, x: T, p: T -> bool)
    requires 0 <= i < |s|
    ensures |Filter(s[i := x], p)| == |Filter(s, p)| - (if p(s[i]) then 1 else 0) + (if p(x) then 1 else 0)
    decreases |s|
  {
    var init, last := s[..|s| - 1], s[|s| - 1];
    assert s == init + [last];
    FilterSnoc(init, last, p);
    if i == |s| - 1 {
      assert s[i := x] == init + [x];
      FilterSnoc(init, x, p);
    } else {
      assert s[i := x] == init[i := x] + [last];
      FilterCountUpdate(init, i, x, p);
      FilterSnoc(init[i := x], last, p);
    }
  }

  /** A filter that every element passes keeps the sequence as it is. */
  lemma {:induction false} FilterAll<T>(s: seq<T>, p: T -> bool)
    requires forall i :: 0 <= i < |s| ==> p(s[i])
    ensures Filter(s, p) == s
    decreases |s|
  {
    if s != [] {
      var init, last := s[..|s| - 1], s[|s| - 1];
      assert s == init + [last];
      FilterAll(init, p);
    }
  }

  /** A filter that no element passes is empty. */
  lemma {:induction false} FilterNone<T>(s: seq<T>, p: T -> bool)
    requires forall i :: 0 <= i < |s| ==> !p(s[i])
    ensures Filter(s, p) == []
    decreases |s|
  {
    if s != [] {
      var init, last := s[..|s| - 1], s[|s| - 1];
      assert s == init + [last];
      FilterNone(init, p);
    }
  }

  /** `idx` lists, in increasing order, the positions in `s` of the elements of `r`. */
  ghost predicate Embedding<T>(r: seq<T>, s: seq<T>, idx: seq<int>)
  {
    && |idx| == |r|
    && (forall k :: 0 <= k < |idx| ==> 0 <= idx[k] < |s| && r[k] == s[idx[k]])
    && (forall k, l :: 0 <= k < l < |idx| ==> idx[k] < idx[l])
  }

  /** `r` is `s` with some elements left out and the rest in their order. */
  ghost predicate IsSubsequence<T>(r: seq<T>, s: seq<T>)
  {
    exists idx :: Embedding(r, s, idx)
  }

  /** A filter keeps the surviving elements in their original order. */
  lemma {:induction false} FilterKeepsOrder<T>(s: seq<T>, p: T -> bool)
    ensures IsSubsequence(Filter(s, p), s)
    decreases |s|
  {
    if s == [] {
      assert Embedding(Filter(s, p), s, []);
    } else {
      var init, last := s[..|s| - 1], s[|s| - 1];
      assert s == init + [last];
      FilterKeepsOrder(init, p);
      var idx :| Embedding(Filter(init, p), init, idx);
      FilterSnoc(init, last, p);
      if p(last) {
        EmbeddingSnoc(Filter(init, p), init, idx, last);
        assert Embedding(Filter(s, p), s, idx + [|init|]);
      } else {
        EmbeddingExtend(Filter(init, p), init, idx, last);
        assert Embedding(Filter(s, p), s, idx);
      }
    }
  }

  /** An embedding extends by a common last element. */
  lemma EmbeddingSnoc<T>(r: seq<T>, s: seq<T>, idx: seq<int>, x: T)
    requires Embedding(r, s, idx)
    ensures Embedding(r + [x], s + [x], idx + [|s|])
  {
    var r', s', idx' := r + [x], s + [x], idx + [|s|];
    forall k | 0 <= k < |idx'|
      ensures 0 <= idx'[k] < |s'| && r'[k] == s'[idx'[k]]
    {
      if k < |idx| {
        assert idx'[k] == idx[k] && r'[k] == r[k] && s'[idx[k]] == s[idx[k]];
      }
    }
  }

  /** An embedding stays one when the larger sequence grows. */
  lemma EmbeddingExtend<T>(r: seq<T>, s: seq<T>, idx: seq<int>, x: T)
    requires Embedding(r, s, idx)
    ensures Embedding(r, s + [x], idx)
  {
    forall k | 0 <= k < |idx|
      ensures r[k] == (s + [x])[idx[k]]
    {
      assert (s + [x])[idx[k]] == s[idx[k]];
    }
  }

  /** `Array.prototype.findIndex`: the position of the first element that
      satisfies `p`, or -1 when there is none. */
  function FindIndex<T>(s: seq<T>, p: T -> bool): (r: int)
    ensures -1 <= r < |s|
    ensures r == -1 <==> forall i :: 0 <= i < |s| ==> !p(s[i])
    ensures 0 <= r ==> p(s[r]) && forall i :: 0 <= i < r ==> !p(s[i])
    decreases |s|
  {
    if s == [] then -1
    else if p(s[0]) then 0
    else
      var k := FindIndex(s[1..], p);
      if k == -1 then -1 else k + 1
  }

  /** `Array.prototype.find`: the first element that satisfies `p`. */
  function Find<T>(s: seq<T>, p: T -> bool): (r: Option<T>)
    ensures r.None? <==> forall i :: 0 <= i < |s| ==> !p(s[i])
    ensures r.Some? ==> exists i :: 0 <= i < |s| && s[i] == r.value && p(s[i]) && forall j :: 0 <= j < i ==> !p(s[j])
  {
    var i := FindIndex(s, p);
    if i == -1 then None else Some(s[i])
  }

  /** `Array.prototype.reduce((sum, x) => sum + f(x), 0)`. */
  function SumBy<T>(s: seq<T>, f: T -> int): int
    decreases |s|
  {
    if s == [] then 0 else SumBy(s[..|s| - 1], f) + f(s[|s| - 1])
  }

  /** Summing a sequence extended by one element. */
  lemma SumBySnoc<T>(s: seq<T>, x: T, f: T -> int)
    ensures SumBy(s + [x], f) == SumBy(s, f) + f(x)
  {
    assert (s + [x])[..|s|] == s;
  }

  /** A sum over `s` is the sum over the part a predicate keeps plus the
      sum over the part its complement keeps. */
  lemma {:induction false} SumSplit<T>(s: seq<T>, f: T -> int, p: T -> bool, q: T -> bool)
    requires forall i :: 0 <= i < |s| ==> q(s[i]) == !p(s[i])
    ensures SumBy(s, f) == SumBy(Filter(s, p), f) + SumBy(Filter(s, q), f)
    decreases |s|
  {
    if s != [] {
      var init, last := s[..|s| - 1], s[|s| - 1];
      assert s == init + [last];
      SumSplit(init, f, p, q);
      var fp, fq := Filter(init, p), Filter(init, q);
      FilterSnoc(init, last, p);
      FilterSnoc(init, last, q);
      SumBySnoc(init, last, f);
      if p(last) {
        assert Filter(s, p) == fp + [last] && Filter(s, q) == fq;
        SumBySnoc(fp, last, f);
      } else {
        assert Filter(s, q) == fq + [last] && Filter(s, p) == fp;
        SumBySnoc(fq, last, f);
      }
    }
  }

  /** Scaling every summand scales the sum. */
  lemma {:induction false} SumScale<T>(s: seq<T>, f: T -> int, g: T -> int, k: int)
    requires forall i :: 0 <= i < |s| ==> g(s[i]) == k * f(s[i])
    ensures SumBy(s, g) == k * SumBy(s, f)
    decreases |s|
  {
    if s != [] {
      var init, last := s[..|s| - 1], s[|s| - 1];
      assert s == init + [last];
      SumScale(init, f, g, k);
      calc {
        SumBy(s, g);
        SumBy(init, g) + g(last);
        k * SumBy(init, f) + k * f(last);
        { assert k * SumBy(init, f) + k * f(last) == k * (SumBy(init, f) + f(last)); }
        k * SumBy(s, f);
      }
    }
  }

  /** `s` is in non-decreasing order of `key`. */
  ghost predicate SortedBy<T>(s: seq<T>, key: T -> int)
  {
    forall i, j :: 0 <= i < j < |s| ==> key(s[i]) <= key(s[j])
  }

  /** Inserts `x` before the first element whose key is not smaller, so
      that `x` precedes the elements of equal key that follow it. */
  function InsertBy<T(==)>(x: T, s: seq<T>, key: T -> int): (r: seq<T>)
    requires SortedBy(s, key)
    ensures SortedBy(r, key)
    ensures multiset(r) == multiset(s) + multiset{x}
    decreases |s|
  {
    if s == [] || key(x) <= key(s[0]) then
      SortedCons(x, s, key);
      [x] + s
    else
      SortedTail(s, key);
      var rest := InsertBy(x, s[1..], key);
      assert s == [s[0]] + s[1..];
      HeadBelowRest(x, s, rest, key);
      SortedCons(s[0], rest, key);
      [s[0]] + rest
  }

  /** The tail of a sorted sequence is sorted. */
  lemma SortedTail<T>(s: seq<T>, key: T -> int)
    requires SortedBy(s, key) && s != []
    ensures SortedBy(s[1..], key)
  {
    forall i, j | 0 <= i < j < |s| - 1
      ensures key(s[1..][i]) <= key(s[1..][j])
    {
      assert s[1..][i] == s[i + 1] && s[1..][j] == s[j + 1];
    }
  }

  /** A sorted sequence stays sorted with an element in front that is no
      greater than any of its elements. */
  lemma SortedCons<T>(x: T, s: seq<T>, key: T -> int)
    requires SortedBy(s, key)
    requires forall j :: 0 <= j < |s| ==> key(x) <= key(s[j])
    ensures SortedBy([x] + s, key)
  {
    forall i, j | 0 <= i < j < |s| + 1
      ensures key(([x] + s)[i]) <= key(([x] + s)[j])
    {
      assert ([x] + s)[j] == s[j - 1];
      if i > 0 {
        assert ([x] + s)[i] == s[i - 1];
      }
    }
  }

  /** The head of a sorted `s` is no greater than any element of a
      rearrangement of its tail with `x` added, when `x`'s key is greater. */
  lemma HeadBelowRest<T>(x: T, s: seq<T>, rest: seq<T>, key: T -> int)
    requires SortedBy(s, key) && s != [] && key(s[0]) < key(x)
    requires multiset(rest) == multiset(s[1..]) + multiset{x}
    ensures forall j :: 0 <= j < |rest| ==> key(s[0]) <= key(rest[j])
  {
    forall j | 0 <= j < |rest|
      ensures key(s[0]) <= key(rest[j])
    {
      assert rest[j] in multiset(rest);
      if rest[j] != x {
        assert rest[j] in multiset(s[1..]);
        var k :| 0 <= k < |s[1..]| && s[1..][k] == rest[j];
        assert s[k + 1] == rest[j];
      }
    }
  }

  /** `Array.prototype.sort` with the comparator `(a, b) => key(a) - key(b)`:
      a stable insertion sort by ascending key. */
  function SortBy<T(==)>(s: seq<T>, key: T -> int): (r: seq<T>)
    ensures SortedBy(r, key)
    ensures multiset(r) == multiset(s)
    ensures |r| == |s|
    decreases |s|
  {
    if s == [] then []
    else
      assert s == [s[0]] + s[1..];
      InsertBy(s[0], SortBy(s[1..], key), key)
  }
}
