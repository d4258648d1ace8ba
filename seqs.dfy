/**
 * Sequence operations shared by the routers and the pages: order-keeping
 * filters, sums, first-occurrence de-duplication (what `[...new Set(xs)]`
 * yields), a stable insertion sort (what `Array.prototype.sort` and Python's
 * `sorted` yield for a consistent comparator), and the SQL OFFSET/LIMIT page.
 */
module Seqs {
  import opened Base

  /** `s.find(f)`: the first element of `s` satisfying `f`. */
  function Find<T>(s: seq<T>, f: T -> bool): (r: Option<T>)
    ensures r.Some? ==> r.value in s && f(r.value)
  {
    if s == [] then None
    else if f(s[0]) then Some(s[0])
    else Find(s[1..], f)
  }

  /** Nothing is found exactly when no element satisfies the test. */
  lemma {:induction false} FindNone<T>(s: seq<T>, f: T -> bool)
    ensures Find(s, f).None? <==> forall x :: x in s ==> !f(x)
  {
    if s != [] && !f(s[0]) {
      FindNone(s[1..], f);
      assert s == [s[0]] + s[1..];
    }
  }

  /** What is found is the first element satisfying the test. */
  lemma {:induction false} FindFirst<T>(s: seq<T>, f: T -> bool, i: nat)
    requires i < |s| && f(s[i])
    requires forall j :: 0 <= j < i ==> !f(s[j])
    ensures Find(s, f) == Some(s[i])
  {
    if i > 0 {
      FindFirst(s[1..], f, i - 1);
    }
  }

  /** The elements of `s` satisfying `f`, in their order. */
  function Filter<T>(s: seq<T>, f: T -> bool): (r: seq<T>)
    ensures |r| <= |s|
  {
    if s == [] then []
    else Filter(s[..|s| - 1], f) + (if f(s[|s| - 1]) then [s[|s| - 1]] else [])
  }

  /** What the filter keeps: elements of `s` satisfying `f`, and every such element. */
  lemma {:induction false} FilterSpec<T>(s: seq<T>, f: T -> bool)
    ensures forall i :: 0 <= i < |Filter(s, f)| ==> Filter(s, f)[i] in s && f(Filter(s, f)[i])
    ensures forall i :: 0 <= i < |s| && f(s[i]) ==> s[i] in Filter(s, f)
  {
    if s != [] {
      var init, last := s[..|s| - 1], s[|s| - 1];
      FilterSpec(init, f);
      assert s == init + [last];
      var r := Filter(s, f);
      assert r == Filter(init, f) + (if f(last) then [last] else []);
      forall i | 0 <= i < |r| ensures r[i] in s && f(r[i]) {
        if i < |Filter(init, f)| {
          assert r[i] == Filter(init, f)[i];
        }
      }
      forall i | 0 <= i < |s| && f(s[i]) ensures s[i] in r {
        if i < |init| {
          assert s[i] == init[i];
        }
      }
    }
  }

  lemma {:induction false} FilterAppend<T>(a: seq<T>, b: seq<T>, f: T -> bool)
    ensures Filter(a + b, f) == Filter(a, f) + Filter(b, f)
    decreases |b|
  {
    if b == [] {
      assert a + b == a;
    } else {
      var ib := b[..|b| - 1];
      assert (a + b)[..|a + b| - 1] == a + ib;
      FilterAppend(a, ib, f);
    }
  }

  lemma {:induction false} FilterAll<T>(s: seq<T>, f: T -> bool)
    requires forall x :: x in s ==> f(x)
    ensures Filter(s, f) == s
  {
    if s != [] {
      assert s == s[..|s| - 1] + [s[|s| - 1]];
      FilterAll(s[..|s| - 1], f);
    }
  }

  /** Two filters in a row are one filter by the conjunction. */
  lemma {:induction false} FilterFilter<T>(s: seq<T>, f: T -> bool, g: T -> bool, h: T -> bool)
    requires forall x :: h(x) == (f(x) && g(x))
    ensures Filter(Filter(s, f), g) == Filter(s, h)
  {
    if s != [] {
      var init := s[..|s| - 1];
      var last := s[|s| - 1];
      FilterFilter(init, f, g, h);
      FilterAppend(Filter(init, f), if f(last) then [last] else [], g);
      if f(last) {
        assert Filter([last], g) == [] + (if g(last) then [last] else []);
      }
    }
  }

  /** Sum of `f` over the elements, left to right. */
  function SumBy<T>(s: seq<T>, f: T -> int): int
  {
    if s == [] then 0 else SumBy(s[..|s| - 1], f) + f(s[|s| - 1])
  }

  lemma {:induction false} SumByAppend<T>(a: seq<T>, b: seq<T>, f: T -> int)
    ensures SumBy(a + b, f) == SumBy(a, f) + SumBy(b, f)
    decreases |b|
  {
    if b == [] {
      assert a + b == a;
    } else {
      assert (a + b)[..|a + b| - 1] == a + b[..|b| - 1];
      SumByAppend(a, b[..|b| - 1], f);
    }
  }

  /** A pointwise smaller summand gives a smaller sum. */
  lemma {:induction false} SumByMonotone<T>(s: seq<T>, f: T -> int, g: T -> int)
    requires forall x :: x in s ==> g(x) <= f(x)
    ensures SumBy(s, g) <= SumBy(s, f)
  {
    if s != [] {
      assert forall x :: x in s[..|s| - 1] ==> x in s;
      SumByMonotone(s[..|s| - 1], f, g);
    }
  }

  lemma {:induction false} SumByNonNegative<T>(s: seq<T>, f: T -> int)
    requires forall x :: x in s ==> f(x) >= 0
    ensures SumBy(s, f) >= 0
  {
    if s != [] {
      assert forall x :: x in s[..|s| - 1] ==> x in s;
      SumByNonNegative(s[..|s| - 1], f);
    }
  }

  lemma FilterMember<T>(s: seq<T>, f: T -> bool, x: T)
    requires x in Filter(s, f)
    ensures x in s && f(x)
  {
    FilterSpec(s, f);
    var r := Filter(s, f);
    var i :| 0 <= i < |r| && r[i] == x;
  }

  /** One more element of `s` through the filter: appended when kept, nothing otherwise. */
  lemma FilterStep<T>(s: seq<T>, i: int, f: T -> bool)
    requires 0 <= i < |s|
    ensures f(s[i]) ==> Filter(s[..i + 1], f) == Filter(s[..i], f) + [s[i]]
    ensures !f(s[i]) ==> Filter(s[..i + 1], f) == Filter(s[..i], f)
  {
    assert s[..i + 1][..i] == s[..i];
    assert Filter(s[..i], f) + [] == Filter(s[..i], f);
  }

  /** Filters by two predicates that agree everywhere give the same sequence. */
  lemma {:induction false} FilterExt<T>(s: seq<T>, f: T -> bool, g: T -> bool)
    requires forall x :: f(x) == g(x)
    ensures Filter(s, f) == Filter(s, g)
  {
    if s != [] {
      FilterExt(s[..|s| - 1], f, g);
    }
  }

  /** Summing over a filter by `f || g`, with `f` and `g` disjoint, is summing over each. */
  lemma {:induction false} SumByFilterSplit<T>(s: seq<T>, f: T -> bool, g: T -> bool, h: T -> bool, w: T -> int)
    requires forall x :: h(x) == (f(x) || g(x)) && !(f(x) && g(x))
    ensures SumBy(Filter(s, h), w) == SumBy(Filter(s, f), w) + SumBy(Filter(s, g), w)
  {
    if s != [] {
      var init, last := s[..|s| - 1], s[|s| - 1];
      SumByFilterSplit(init, f, g, h, w);
      SumByAppend(Filter(init, h), if h(last) then [last] else [], w);
      SumByAppend(Filter(init, f), if f(last) then [last] else [], w);
      SumByAppend(Filter(init, g), if g(last) then [last] else [], w);
      assert SumBy([last], w) == w(last) by {
        assert [last][..0] == [];
      }
    }
  }

  /** Three filters that between them keep every element exactly once have lengths adding up to `|s|`. */
  lemma {:induction false} FilterCountSplit<T>(s: seq<T>, f: T -> bool, g: T -> bool, h: T -> bool)
    requires forall x :: (f(x) || g(x) || h(x)) && !(f(x) && g(x)) && !(f(x) && h(x)) && !(g(x) && h(x))
    ensures |Filter(s, f)| + |Filter(s, g)| + |Filter(s, h)| == |s|
  {
    if s != [] {
      FilterCountSplit(s[..|s| - 1], f, g, h);
    }
  }

  predicate NoDuplicates<T(==)>(s: seq<T>)
  {
    forall i, j :: 0 <= i < j < |s| ==> s[i] != s[j]
  }

  /** The distinct elements in order of first occurrence. */
  function Dedup<T(==)>(s: seq<T>): (r: seq<T>)
    ensures forall i :: 0 <= i < |r| ==> r[i] in s
    ensures forall i :: 0 <= i < |s| ==> s[i] in r
    ensures NoDuplicates(r)
    ensures |r| <= |s|
  {
    if s == [] then []
    else
      var d := Dedup(s[..|s| - 1]);
      assert s == s[..|s| - 1] + [s[|s| - 1]];
      if s[|s| - 1] in d then d else d + [s[|s| - 1]]
  }

  // ---------------------------------------------------------------------------
  // Sorting by a total preorder `le` ("a may come before b").

  ghost predicate TotalPreorder<T(!new)>(le: (T, T) -> bool)
  {
    (forall a, b :: le(a, b) || le(b, a))
    && (forall a, b, c :: le(a, b) && le(b, c) ==> le(a, c))
  }

  predicate SortedBy<T>(s: seq<T>, le: (T, T) -> bool)
  {
    forall i, j :: 0 <= i < j < |s| ==> le(s[i], s[j])
  }

  /** `x` placed before the first element it may precede. */
  function InsertBy<T>(x: T, s: seq<T>, le: (T, T) -> bool): (r: seq<T>)
    ensures multiset(r) == multiset(s) + multiset{x}
    ensures |r| == |s| + 1
  {
    if s == [] then [x]
    else if le(x, s[0]) then [x] + s
    else
      assert s == [s[0]] + s[1..];
      [s[0]] + InsertBy(x, s[1..], le)
  }

  /**
   * Stable insertion sort: an element goes in front of every later element
   * it may precede, so equal elements keep their input order.
   */
  function SortBy<T>(s: seq<T>, le: (T, T) -> bool): (r: seq<T>)
    ensures multiset(r) == multiset(s)
    ensures |r| == |s|
  {
    if s == [] then []
    else
      assert s == [s[0]] + s[1..];
      InsertBy(s[0], SortBy(s[1..], le), le)
  }

  /** `le` is a total preorder on the elements of `u`. */
  ghost predicate TotalPreorderOn<T>(u: seq<T>, le: (T, T) -> bool)
  {
    (forall a, b :: a in u && b in u ==> le(a, b) || le(b, a))
    && (forall a, b, c :: a in u && b in u && c in u && le(a, b) && le(b, c) ==> le(a, c))
  }

  lemma {:induction false} InsertBySorted<T>(x: T, s: seq<T>, le: (T, T) -> bool, u: seq<T>)
    requires TotalPreorderOn(u, le) && x in u && (forall y :: y in s ==> y in u) && SortedBy(s, le)
    ensures SortedBy(InsertBy(x, s, le), le)
  {
    if s != [] && !le(x, s[0]) {
      var t := s[1..];
      InsertBySorted(x, t, le, u);
      var r := InsertBy(x, t, le);
      assert le(s[0], x);
      forall y | y in r ensures le(s[0], y) {
        assert y in multiset(r);
        if y != x {
          assert y in multiset(t);
          assert y in t;
        }
      }
    }
  }

  /** Sorting by an order that is a total preorder on the sequence's elements sorts it. */
  lemma {:induction false} SortBySortedOn<T>(s: seq<T>, le: (T, T) -> bool, u: seq<T>)
    requires TotalPreorderOn(u, le) && forall y :: y in s ==> y in u
    ensures SortedBy(SortBy(s, le), le)
  {
    if s != [] {
      SortBySortedOn(s[1..], le, u);
      forall y | y in SortBy(s[1..], le) ensures y in u {
        assert y in multiset(SortBy(s[1..], le));
        assert y in s[1..];
      }
      InsertBySorted(s[0], SortBy(s[1..], le), le, u);
    }
  }

  /** The sorted sequence is ordered by `le` and is a permutation of the input. */
  lemma SortBySorted<T(!new)>(s: seq<T>, le: (T, T) -> bool)
    requires TotalPreorder(le)
    ensures SortedBy(SortBy(s, le), le)
    ensures multiset(SortBy(s, le)) == multiset(s)
  {
    SortBySortedOn(s, le, s);
  }

  /** Filtering a sorted sequence keeps it sorted. */
  lemma {:induction false} FilterSorted<T>(s: seq<T>, f: T -> bool, le: (T, T) -> bool)
    requires SortedBy(s, le)
    ensures SortedBy(Filter(s, f), le)
  {
    if s != [] {
      var init, last := s[..|s| - 1], s[|s| - 1];
      assert SortedBy(init, le) by {
        forall i, j | 0 <= i < j < |init| ensures le(init[i], init[j]) {
          assert init[i] == s[i] && init[j] == s[j];
        }
      }
      FilterSorted(init, f, le);
      if f(last) {
        var fi := Filter(init, f);
        FilterSpec(init, f);
        forall i | 0 <= i < |fi| ensures le(fi[i], last) {
          var k :| 0 <= k < |init| && init[k] == fi[i];
          assert init[k] == s[k];
        }
        var r := fi + [last];
        assert Filter(s, f) == r;
        forall i, j | 0 <= i < j < |r| ensures le(r[i], r[j]) {
          if j < |fi| {
            assert r[i] == fi[i] && r[j] == fi[j];
          } else {
            assert r[i] == fi[i];
          }
        }
      }
    }
  }

  /** How often a filter keeps a value: as often as the input holds it, when `f` accepts it. */
  lemma {:induction false} FilterCount<T>(s: seq<T>, f: T -> bool, x: T)
    ensures multiset(Filter(s, f))[x] == if f(x) then multiset(s)[x] else 0
  {
    if s != [] {
      var init, last := s[..|s| - 1], s[|s| - 1];
      assert s == init + [last];
      FilterCount(init, f, x);
    }
  }

  /** Filtering two permutations of each other gives two permutations of each other. */
  lemma FilterPermutation<T(!new)>(a: seq<T>, b: seq<T>, f: T -> bool)
    requires multiset(a) == multiset(b)
    ensures multiset(Filter(a, f)) == multiset(Filter(b, f))
  {
    var ma, mb := multiset(Filter(a, f)), multiset(Filter(b, f));
    forall x ensures ma[x] == mb[x] {
      FilterCount(a, f, x);
      FilterCount(b, f, x);
    }
    assert ma == mb;
  }

  /** A value occurs at most once in a sequence without duplicates. */
  lemma {:induction false} NoDuplicatesCount<T>(s: seq<T>, x: T)
    requires NoDuplicates(s)
    ensures multiset(s)[x] <= 1
  {
    if s != [] {
      var init, last := s[..|s| - 1], s[|s| - 1];
      assert s == init + [last];
      assert NoDuplicates(init);
      NoDuplicatesCount(init, x);
      assert last !in init by {
        forall i | 0 <= i < |init| ensures init[i] != last {
          assert init[i] == s[i];
        }
      }
    }
  }

  /** Reordering keeps a sequence free of duplicates. */
  lemma NoDuplicatesPermutation<T>(a: seq<T>, b: seq<T>)
    requires NoDuplicates(a) && multiset(a) == multiset(b)
    ensures NoDuplicates(b)
  {
    forall i, j | 0 <= i < j < |b| ensures b[i] != b[j] {
      var x := b[i];
      NoDuplicatesCount(a, x);
      assert b == b[..j] + b[j..];
      assert b[..j][i] == x;
      assert multiset(b)[x] == multiset(b[..j])[x] + multiset(b[j..])[x];
      assert multiset(b[j..])[x] == 0;
      assert b[j..][0] == b[j];
    }
  }

  // ---------------------------------------------------------------------------
  // Pages.

  /**
   * SQLite's `OFFSET skip LIMIT limit`: a negative offset counts as 0 and a
   * negative limit means no limit.
   */
  function Page<T>(s: seq<T>, skip: int, limit: int): (r: seq<T>)
    ensures |r| <= |s|
    ensures limit >= 0 ==> |r| <= limit
    ensures var off := if skip < 0 then 0 else skip;
            off <= |s| ==> forall i :: 0 <= i < |r| ==> off + i < |s| && r[i] == s[off + i]
    ensures var off := if skip < 0 then 0 else skip;
            (limit < 0 || off + limit >= |s|) ==> |r| == if off >= |s| then 0 else |s| - off
    ensures var off := if skip < 0 then 0 else skip;
            limit >= 0 && off + limit < |s| ==> |r| == limit
  {
    var off := if skip < 0 then 0 else if skip > |s| then |s| else skip;
    var rest := s[off..];
    if limit < 0 || limit >= |rest| then rest else rest[..limit]
  }

  /** Every row of a page is a row of the listing it was cut from. */
  lemma PageIn<T>(s: seq<T>, skip: int, limit: int)
    ensures forall i :: 0 <= i < |Page(s, skip, limit)| ==> Page(s, skip, limit)[i] in s
  {
    var r := Page(s, skip, limit);
    var off := if skip < 0 then 0 else skip;
    forall i | 0 <= i < |r| ensures r[i] in s {
      assert off + i < |s| && r[i] == s[off + i];
    }
  }

  /** `xs.slice(0, n)`. */
  function Take<T>(s: seq<T>, n: nat): (r: seq<T>)
    ensures |r| == if |s| < n then |s| else n
    ensures r == s[..|r|]
  {
    if |s| <= n then s else s[..n]
  }
}
