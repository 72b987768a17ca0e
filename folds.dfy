/** The sequence folds every handler is built from: a sum of per-element
    contributions (a `forEach` accumulation or a `$sum`), a filter (`find`,
    `$match`, `Array.filter`), and a stable sort (`.sort()` of the store's
    cursor and `Array.prototype.sort` in the browser). */
module Folds {

  /** The sum of `f` over `s`, accumulated from the front as a `forEach` does. */
  function SumBy<T>(s: seq<T>, f: T -> int): int
  {
    if s == [] then 0 else SumBy(s[..|s| - 1], f) + f(s[|s| - 1])
  }

  lemma {:induction false} SumByAppend<T>(a: seq<T>, b: seq<T>, f: T -> int)
    ensures SumBy(a + b, f) == SumBy(a, f) + SumBy(b, f)
    decreases |b|
  {
    if b == [] {
      assert a + b == a;
    } else {
      assert (a + b)[..|a + b| - 1] == a + b[..|b| - 1];
      SumByAppend(a, b[..|b| - 1], f);
    }
  }

  lemma SumBySingle<T>(x: T, f: T -> int)
    ensures SumBy([x], f) == f(x)
  {
    assert [x][..0] == [];
  }

  /** A sum does not depend on the order of its terms. */
  lemma {:induction false} SumByPermutation<T>(a: seq<T>, b: seq<T>, f: T -> int)
    requires multiset(a) == multiset(b)
    ensures SumBy(a, f) == SumBy(b, f)
    decreases |a|
  {
    if a != [] {
      var n := |a| - 1;
      var x := a[n];
      assert a == a[..n] + [x];
      assert x in multiset(b);
      var j :| 0 <= j < |b| && b[j] == x;
      var rest := b[..j] + b[j + 1..];
      assert b == b[..j] + [x] + b[j + 1..];
      assert multiset(a) == multiset(a[..n]) + multiset{x};
      assert multiset(b) == multiset(b[..j]) + multiset{x} + multiset(b[j + 1..]);
      assert multiset(rest) == multiset(b[..j]) + multiset(b[j + 1..]);
      assert multiset(a[..n]) == multiset(a) - multiset{x};
      assert multiset(rest) == multiset(b) - multiset{x};
      SumByPermutation(a[..n], rest, f);
      SumByAppend(b[..j] + [x], b[j + 1..], f);
      SumByAppend(b[..j], [x], f);
      SumByAppend(b[..j], b[j + 1..], f);
      SumBySingle(x, f);
    }
  }

  /** Sums agree when their terms agree on every element. */
  lemma {:induction false} SumByPointwise<T>(s: seq<T>, f: T -> int, g: T -> int)
    requires forall i :: 0 <= i < |s| ==> f(s[i]) == g(s[i])
    ensures SumBy(s, f) == SumBy(s, g)
  {
    if s != [] {
      SumByPointwise(s[..|s| - 1], f, g);
    }
  }

  /** A sum of pointwise sums is the sum of the two sums. */
  lemma {:induction false} SumByAdd<T>(s: seq<T>, f: T -> int, g: T -> int, h: T -> int)
    requires forall i :: 0 <= i < |s| ==> h(s[i]) == f(s[i]) + g(s[i])
    ensures SumBy(s, h) == SumBy(s, f) + SumBy(s, g)
  {
    if s != [] {
      SumByAdd(s[..|s| - 1], f, g, h);
    }
  }

  lemma {:induction false} SumByNonNegative<T>(s: seq<T>, f: T -> int)
    requires forall i :: 0 <= i < |s| ==> f(s[i]) >= 0
    ensures SumBy(s, f) >= 0
  {
    if s != [] {
      SumByNonNegative(s[..|s| - 1], f);
    }
  }

  /** The elements of `s` that satisfy `p`, in their order in `s`. */
  function Filter<T>(s: seq<T>, p: T -> bool): (r: seq<T>)
    ensures |r| <= |s|
    ensures forall i :: 0 <= i < |r| ==> r[i] in s && p(r[i])
    ensures forall i :: 0 <= i < |s| && p(s[i]) ==> s[i] in r
  {
    if s == [] then []
    else
      var init := Filter(s[..|s| - 1], p);
      var last := s[|s| - 1];
      assert forall i :: 0 <= i < |s| - 1 ==> s[..|s| - 1][i] == s[i];
      if p(last) then init + [last] else init
  }

  /** An element passes the filter exactly when it is in `s` and satisfies `p`. */
  lemma FilterMembers<T>(s: seq<T>, p: T -> bool)
    ensures forall x :: x in Filter(s, p) <==> x in s && p(x)
  {
    var r := Filter(s, p);
    forall x | x in s && p(x) ensures x in r {
      var i :| 0 <= i < |s| && s[i] == x;
    }
  }

  /** Filters that agree on every element select the same elements. */
  lemma {:induction false} FilterEquivalent<T>(s: seq<T>, p: T -> bool, q: T -> bool)
    requires forall i :: 0 <= i < |s| ==> p(s[i]) == q(s[i])
    ensures Filter(s, p) == Filter(s, q)
  {
    if s != [] {
      FilterEquivalent(s[..|s| - 1], p, q);
    }
  }

  lemma {:induction false} FilterAppend<T>(a: seq<T>, b: seq<T>, p: T -> bool)
    ensures Filter(a + b, p) == Filter(a, p) + Filter(b, p)
    decreases |b|
  {
    if b == [] {
      assert a + b == a;
    } else {
      assert (a + b)[..|a + b| - 1] == a + b[..|b| - 1];
      FilterAppend(a, b[..|b| - 1], p);
    }
  }

  /** Nothing passes a filter no element satisfies. */
  lemma {:induction false} FilterNone<T>(s: seq<T>, p: T -> bool)
    requires forall i :: 0 <= i < |s| ==> !p(s[i])
    ensures Filter(s, p) == []
  {
    if s != [] {
      FilterNone(s[..|s| - 1], p);
    }
  }

  /** Summing the filtered elements is summing the contribution masked by the filter. */
  lemma {:induction false} SumByFilter<T>(s: seq<T>, p: T -> bool, f: T -> int, g: T -> int)
    requires forall i :: 0 <= i < |s| ==> g(s[i]) == (if p(s[i]) then f(s[i]) else 0)
    ensures SumBy(Filter(s, p), f) == SumBy(s, g)
  {
    if s != [] {
      var last := s[|s| - 1];
      SumByFilter(s[..|s| - 1], p, f, g);
      if p(last) {
        SumByAppend(Filter(s[..|s| - 1], p), [last], f);
        SumBySingle(last, f);
      }
    }
  }

  /** No element occurs twice. */
  predicate Distinct<T(==)>(s: seq<T>)
  {
    forall i, j :: 0 <= i < j < |s| ==> s[i] != s[j]
  }

  lemma {:induction false} FilterDistinct<T>(s: seq<T>, p: T -> bool)
    requires Distinct(s)
    ensures Distinct(Filter(s, p))
  {
    if s != [] {
      var init := s[..|s| - 1];
      assert Distinct(init);
      FilterDistinct(init, p);
      var fi := Filter(init, p);
      if p(s[|s| - 1]) {
        forall i | 0 <= i < |fi| ensures fi[i] != s[|s| - 1] {
          assert fi[i] in init;
        }
      }
    }
  }

  /** A sequence without repetitions has as many elements as its set. */
  lemma {:induction false} DistinctCard<T>(s: seq<T>)
    requires Distinct(s)
    ensures |set x | x in s| == |s|
  {
    if s != [] {
      var init := s[..|s| - 1];
      var last := s[|s| - 1];
      assert Distinct(init);
      DistinctCard(init);
      assert (set x | x in s) == (set x | x in init) + {last};
      assert last !in (set x | x in init);
    }
  }

  /** `key` takes a different value on every element (a unique index). */
  predicate DistinctBy<T, K(==)>(s: seq<T>, key: T -> K)
  {
    forall i, j :: 0 <= i < j < |s| ==> key(s[i]) != key(s[j])
  }

  /** A filter keeps a unique index unique. */
  lemma {:induction false} FilterDistinctBy<T, K>(s: seq<T>, p: T -> bool, key: T -> K)
    requires DistinctBy(s, key)
    ensures DistinctBy(Filter(s, p), key)
  {
    if s != [] {
      var n := |s| - 1;
      var init := s[..n];
      assert DistinctBy(init, key);
      FilterDistinctBy(init, p, key);
      var fi := Filter(init, p);
      if p(s[n]) {
        var r := fi + [s[n]];
        assert Filter(s, p) == r;
        forall i | 0 <= i < |fi| ensures key(fi[i]) != key(s[n]) {
          var j :| 0 <= j < |init| && init[j] == fi[i];
          assert init[j] == s[j];
        }
        forall a, b | 0 <= a < b < |r| ensures key(r[a]) != key(r[b]) {
          assert r[a] == fi[a];
          if b < |fi| {
            assert r[b] == fi[b];
          }
        }
      } else {
        assert Filter(s, p) == fi;
      }
    }
  }

  /** `s` without its element at `i` (a `deleteOne` of a located document). */
  function RemoveAt<T>(s: seq<T>, i: nat): (r: seq<T>)
    requires i < |s|
    ensures |r| == |s| - 1
    ensures forall k :: 0 <= k < |r| ==> r[k] == (if k < i then s[k] else s[k + 1])
  {
    s[..i] + s[i + 1..]
  }

  /** Removing an element keeps a unique index unique. */
  lemma RemoveAtDistinctBy<T, K>(s: seq<T>, i: nat, key: T -> K)
    requires i < |s| && DistinctBy(s, key)
    ensures DistinctBy(RemoveAt(s, i), key)
  {
    var r := RemoveAt(s, i);
    forall a, b | 0 <= a < b < |r| ensures key(r[a]) != key(r[b]) {
      var a' := if a < i then a else a + 1;
      var b' := if b < i then b else b + 1;
      assert r[a] == s[a'] && r[b] == s[b'];
    }
  }

  /** With a unique index, removing the element at `i` removes exactly the
      elements carrying its key. */
  lemma RemoveAtMembers<T, K>(s: seq<T>, i: nat, key: T -> K)
    requires i < |s| && DistinctBy(s, key)
    ensures forall x :: x in RemoveAt(s, i) <==> x in s && key(x) != key(s[i])
  {
    var r := RemoveAt(s, i);
    forall x | x in r ensures x in s && key(x) != key(s[i]) {
      var k :| 0 <= k < |r| && r[k] == x;
      var k' := if k < i then k else k + 1;
      assert r[k] == s[k'];
    }
    forall x | x in s && key(x) != key(s[i]) ensures x in r {
      var k :| 0 <= k < |s| && s[k] == x;
      if k < i {
        assert r[k] == x;
      } else {
        assert r[k - 1] == x;
      }
    }
  }

  lemma FilterSingle<T>(x: T, p: T -> bool)
    ensures Filter([x], p) == if p(x) then [x] else []
  {
    assert [x][..0] == [];
  }

  /** Removing the element at `i` takes its contribution out of every
      filtered sum. */
  lemma SumByFilterRemoveAt<T>(s: seq<T>, i: nat, p: T -> bool, f: T -> int)
    requires i < |s|
    ensures SumBy(Filter(RemoveAt(s, i), p), f)
         == SumBy(Filter(s, p), f) - (if p(s[i]) then f(s[i]) else 0)
  {
    SplitAt(s, i);
    SumByFilterMiddle(s[..i], s[i], s[i + 1..], p, f);
  }

  lemma SplitAt<T>(s: seq<T>, i: nat)
    requires i < |s|
    ensures s == (s[..i] + [s[i]]) + s[i + 1..]
    ensures RemoveAt(s, i) == s[..i] + s[i + 1..]
  {
  }

  /** The same on the pieces around the removed element. */
  lemma SumByFilterMiddle<T>(a: seq<T>, x: T, b: seq<T>, p: T -> bool, f: T -> int)
    ensures SumBy(Filter((a + [x]) + b, p), f) == SumBy(Filter(a + b, p), f) + (if p(x) then f(x) else 0)
  {
    FilterAppend(a + [x], b, p);
    SumByAppend(Filter(a + [x], p), Filter(b, p), f);
    SumByFilterAppendOne(a, x, p, f);
    FilterAppend(a, b, p);
    SumByAppend(Filter(a, p), Filter(b, p), f);
  }

  /** Appending an element adds its contribution to every filtered sum. */
  lemma SumByFilterAppendOne<T>(s: seq<T>, x: T, p: T -> bool, f: T -> int)
    ensures SumBy(Filter(s + [x], p), f) == SumBy(Filter(s, p), f) + (if p(x) then f(x) else 0)
  {
    FilterAppend(s, [x], p);
    FilterSingle(x, p);
    SumByAppend(Filter(s, p), Filter([x], p), f);
    if p(x) {
      SumBySingle(x, f);
    }
  }

  /** Every pair of elements is related one way or the other. */
  ghost predicate Total<T(!new)>(le: (T, T) -> bool)
  {
    forall a, b :: le(a, b) || le(b, a)
  }

  /** Each element is related to its successor. */
  predicate SortedBy<T>(s: seq<T>, le: (T, T) -> bool)
  {
    forall i :: 0 < i < |s| ==> le(s[i - 1], s[i])
  }

  /** Insert `x` before the first element it is related to; an element already
      in `s` that compares equal stays after `x`. */
  function Insert<T>(x: T, s: seq<T>, le: (T, T) -> bool): (r: seq<T>)
    ensures multiset(r) == multiset(s) + multiset{x}
    ensures |r| == |s| + 1
  {
    if s == [] then [x]
    else if le(x, s[0]) then [x] + s
    else
      assert s == [s[0]] + s[1..];
      [s[0]] + Insert(x, s[1..], le)
  }

  /** A stable insertion sort: `SortBy(s, le)` is `s` reordered so that
      `le` holds between neighbours, ties keeping their order in `s`. */
  function SortBy<T>(s: seq<T>, le: (T, T) -> bool): (r: seq<T>)
    ensures multiset(r) == multiset(s)
    ensures |r| == |s|
  {
    if s == [] then []
    else
      assert s == [s[0]] + s[1..];
      Insert(s[0], SortBy(s[1..], le), le)
  }

  lemma {:induction false} InsertSorted<T(!new)>(x: T, s: seq<T>, le: (T, T) -> bool)
    requires Total(le) && SortedBy(s, le)
    ensures SortedBy(Insert(x, s, le), le)
    ensures s != [] ==> Insert(x, s, le)[0] == x || Insert(x, s, le)[0] == s[0]
  {
    if s != [] && !le(x, s[0]) {
      assert le(s[0], x);
      InsertSorted(x, s[1..], le);
      var tail := Insert(x, s[1..], le);
      assert Insert(x, s, le) == [s[0]] + tail;
      if |s| > 1 {
        assert le(s[0], s[1]);
      }
    }
  }

  /** Under a total relation the sort's output is ordered. */
  lemma {:induction false} SortBySorted<T(!new)>(s: seq<T>, le: (T, T) -> bool)
    requires Total(le)
    ensures SortedBy(SortBy(s, le), le)
  {
    if s != [] {
      SortBySorted(s[1..], le);
      InsertSorted(s[0], SortBy(s[1..], le), le);
    }
  }

  lemma SortByMembers<T>(s: seq<T>, le: (T, T) -> bool)
    ensures forall x :: x in SortBy(s, le) <==> x in s
  {
    var r := SortBy(s, le);
    assert forall x :: x in r <==> x in multiset(r);
    assert forall x :: x in s <==> x in multiset(s);
  }

  /** Two elements stay in order when the first may stay before the second
      (a tie included) and are swapped otherwise. */
  lemma SortByPair<T>(x: T, y: T, le: (T, T) -> bool)
    ensures SortBy([x, y], le) == if le(x, y) then [x, y] else [y, x]
  {
    assert [x, y][1..] == [y];
    assert SortBy([y], le) == [y] by {
      assert [y][1..] == [];
    }
    assert Insert(x, [y], le) == if le(x, y) then [x, y] else [y, x] by {
      assert [y][1..] == [];
    }
  }

  /** Sorting never changes a sum. */
  lemma SumBySorted<T>(s: seq<T>, le: (T, T) -> bool, f: T -> int)
    ensures SumBy(SortBy(s, le), f) == SumBy(s, f)
  {
    SumByPermutation(SortBy(s, le), s, f);
  }

  /** Apply `f` to every element, keeping the order (`Array.prototype.map`). */
  function Map<T, U>(s: seq<T>, f: T -> U): (r: seq<U>)
    ensures |r| == |s|
    ensures forall i :: 0 <= i < |s| ==> r[i] == f(s[i])
  {
    seq(|s|, i requires 0 <= i < |s| => f(s[i]))
  }
}
