/**
 * Sequence utilities standing in for the array built-ins the storefront uses:
 * `Array.prototype.filter` and the stable `Array.prototype.sort`.
 */
module Seqs {

  /** The elements of `s` that satisfy `keep`, in their original order. */
  function Filter<T>(s: seq<T>, keep: T -> bool): (r: seq<T>)
    ensures |r| <= |s|
    ensures forall x :: x in r ==> x in s && keep(x)
  {
    if s == [] then []
    else if keep(s[0]) then [s[0]] + Filter(s[1..], keep)
    else Filter(s[1..], keep)
  }

  /** `r` can be obtained from `s` by deleting elements (order is kept). */
  ghost predicate SubsequenceOf<T>(r: seq<T>, s: seq<T>)
    decreases |s|
  {
    if r == [] then true
    else if s == [] then false
    else (r[0] == s[0] && SubsequenceOf(r[1..], s[1..])) || SubsequenceOf(r, s[1..])
  }

  lemma {:induction false} FilterIsSubsequence<T>(s: seq<T>, keep: T -> bool)
    ensures SubsequenceOf(Filter(s, keep), s)
  {
    if s != [] {
      FilterIsSubsequence(s[1..], keep);
      if !keep(s[0]) && Filter(s[1..], keep) != [] {
        assert SubsequenceOf(Filter(s[1..], keep), s[1..]);
      }
    }
  }

  /** Every element of `s` that satisfies `keep` survives the filter. */
  lemma {:induction false} FilterMembership<T>(s: seq<T>, keep: T -> bool, x: T)
    ensures x in Filter(s, keep) <==> x in s && keep(x)
  {
    if s != [] {
      FilterMembership(s[1..], keep, x);
    }
  }

  /** A filter that rejects nothing is the identity. */
  lemma {:induction false} FilterKeepsAll<T>(s: seq<T>, keep: T -> bool)
    requires forall i :: 0 <= i < |s| ==> keep(s[i])
    ensures Filter(s, keep) == s
  {
    if s != [] {
      FilterKeepsAll(s[1..], keep);
    }
  }

  /** Filters by pointwise equal predicates agree. */
  lemma {:induction false} FilterSame<T>(s: seq<T>, keep: T -> bool, keep': T -> bool)
    requires forall x :: keep(x) == keep'(x)
    ensures Filter(s, keep) == Filter(s, keep')
  {
    if s != [] {
      FilterSame(s[1..], keep, keep');
    }
  }

  /** Filtering twice is filtering once by the conjunction. */
  lemma {:induction false} FilterTwice<T>(s: seq<T>, first: T -> bool, second: T -> bool, both: T -> bool)
    requires forall x :: both(x) == (first(x) && second(x))
    ensures Filter(Filter(s, first), second) == Filter(s, both)
  {
    if s != [] {
      FilterTwice(s[1..], first, second, both);
    }
  }

  lemma {:induction false} FilterConcat<T>(a: seq<T>, b: seq<T>, keep: T -> bool)
    ensures Filter(a + b, keep) == Filter(a, keep) + Filter(b, keep)
  {
    if a == [] {
      assert a + b == b;
    } else {
      var ab := a + b;
      assert ab[0] == a[0] && ab[1..] == a[1..] + b;
      FilterConcat(a[1..], b, keep);
      if keep(a[0]) {
        assert Filter(ab, keep) == [a[0]] + Filter(a[1..] + b, keep);
        assert Filter(a, keep) == [a[0]] + Filter(a[1..], keep);
      } else {
        assert Filter(ab, keep) == Filter(a[1..] + b, keep);
        assert Filter(a, keep) == Filter(a[1..], keep);
      }
    }
  }

  /** One step of a filter: the head is kept or dropped, then the tail is filtered. */
  lemma FilterCons<T>(x: T, s: seq<T>, keep: T -> bool)
    ensures Filter([x] + s, keep) == (if keep(x) then [x] else []) + Filter(s, keep)
  {
    assert ([x] + s)[1..] == s;
  }

  /** A filter keeps every copy of a kept element and no copy of a rejected one. */
  lemma {:induction false} FilterCount<T>(s: seq<T>, keep: T -> bool, x: T)
    ensures multiset(Filter(s, keep))[x] == if keep(x) then multiset(s)[x] else 0
  {
    if s != [] {
      FilterCount(s[1..], keep, x);
      assert s == [s[0]] + s[1..];
    }
  }

  // ----- stable sort by a comparator -----

  /** Insert `x` before the first element it may precede (`le(x, y)`), so that `x`
      lands ahead of every element that compares equal to it. */
  function Insert<T>(x: T, s: seq<T>, le: (T, T) -> bool): (r: seq<T>)
    ensures multiset(r) == multiset(s) + multiset{x}
  {
    if s == [] || le(x, s[0]) then [x] + s
    else
      assert s == [s[0]] + s[1..];
      [s[0]] + Insert(x, s[1..], le)
  }

  /** Stable insertion sort: the sorted result of `sorted.sort(compare)`. */
  function SortBy<T>(s: seq<T>, le: (T, T) -> bool): (r: seq<T>)
    ensures multiset(r) == multiset(s)
  {
    if s == [] then []
    else
      assert s == [s[0]] + s[1..];
      Insert(s[0], SortBy(s[1..], le), le)
  }

  /** `s` is ordered by a numeric key, smallest first. */
  ghost predicate SortedByKey<T>(s: seq<T>, key: T -> real) {
    forall i, j :: 0 <= i < j < |s| ==> key(s[i]) <= key(s[j])
  }

  /** The predicate "has key `k`", one equivalence class of the comparator. */
  function HasKey<T>(key: T -> real, k: real): T -> bool {
    x => key(x) == k
  }

  lemma PrependSorted<T>(h: T, s: seq<T>, key: T -> real)
    requires SortedByKey(s, key)
    requires forall y :: y in s ==> key(h) <= key(y)
    ensures SortedByKey([h] + s, key)
  {
    var r := [h] + s;
    forall i, j | 0 <= i < j < |r| ensures key(r[i]) <= key(r[j]) {
      if i == 0 {
        assert r[j] in s;
      } else {
        assert r[i] == s[i - 1] && r[j] == s[j - 1];
      }
    }
  }

  lemma {:induction false} InsertSorted<T>(x: T, s: seq<T>, le: (T, T) -> bool, key: T -> real)
    requires forall a, b :: le(a, b) == (key(a) <= key(b))
    requires SortedByKey(s, key)
    ensures SortedByKey(Insert(x, s, le), key)
  {
    if s == [] || le(x, s[0]) {
      forall y | y in s ensures key(x) <= key(y) {
        var k :| 0 <= k < |s| && s[k] == y;
        assert key(x) <= key(s[0]) <= key(s[k]);
      }
      PrependSorted(x, s, key);
    } else {
      var rest := Insert(x, s[1..], le);
      InsertSorted(x, s[1..], le, key);
      forall y | y in rest ensures key(s[0]) <= key(y) {
        assert y in multiset(s[1..]) + multiset{x} by {
          assert y in multiset(rest);
        }
        if y != x {
          var k :| 0 <= k < |s[1..]| && s[1..][k] == y;
          assert s[k + 1] == y;
        }
      }
      PrependSorted(s[0], rest, key);
    }
  }

  /** The sort orders by the key the comparator is induced by. */
  lemma {:induction false} SortByIsSorted<T>(s: seq<T>, le: (T, T) -> bool, key: T -> real)
    requires forall a, b :: le(a, b) == (key(a) <= key(b))
    ensures SortedByKey(SortBy(s, le), key)
  {
    if s != [] {
      SortByIsSorted(s[1..], le, key);
      InsertSorted(s[0], SortBy(s[1..], le), le, key);
    }
  }

  lemma {:induction false} InsertKeepsClassOrder<T>(x: T, s: seq<T>, le: (T, T) -> bool, key: T -> real, k: real)
    requires forall a, b :: le(a, b) == (key(a) <= key(b))
    ensures Filter(Insert(x, s, le), HasKey(key, k)) == Filter([x] + s, HasKey(key, k))
  {
    if s != [] && !le(x, s[0]) {
      InsertKeepsClassOrder(x, s[1..], le, key, k);
      assert ([x] + s)[1..] == s;
      assert ([x] + s[1..])[1..] == s[1..];
      assert s == [s[0]] + s[1..];
    }
  }

  /** Stability: within each class of equal keys the sort keeps the input order. */
  lemma {:induction false} SortByIsStable<T>(s: seq<T>, le: (T, T) -> bool, key: T -> real, k: real)
    requires forall a, b :: le(a, b) == (key(a) <= key(b))
    ensures Filter(SortBy(s, le), HasKey(key, k)) == Filter(s, HasKey(key, k))
  {
    if s != [] {
      SortByIsStable(s[1..], le, key, k);
      InsertKeepsClassOrder(s[0], SortBy(s[1..], le), le, key, k);
      assert ([s[0]] + SortBy(s[1..], le))[1..] == SortBy(s[1..], le);
    }
  }

  /** Sorting an already ordered sequence changes nothing; hence the sort is idempotent. */
  lemma {:induction false} SortBySortedIsIdentity<T>(s: seq<T>, le: (T, T) -> bool, key: T -> real)
    requires forall a, b :: le(a, b) == (key(a) <= key(b))
    requires SortedByKey(s, key)
    ensures SortBy(s, le) == s
  {
    if s != [] {
      assert SortedByKey(s[1..], key) by {
        forall i, j | 0 <= i < j < |s[1..]| ensures key(s[1..][i]) <= key(s[1..][j]) {
          assert s[1..][i] == s[i + 1] && s[1..][j] == s[j + 1];
        }
      }
      SortBySortedIsIdentity(s[1..], le, key);
      if |s| > 1 {
        assert le(s[0], s[1..][0]);
      }
    }
  }

  lemma SortByIsIdempotent<T>(s: seq<T>, le: (T, T) -> bool, key: T -> real)
    requires forall a, b :: le(a, b) == (key(a) <= key(b))
    ensures SortBy(SortBy(s, le), le) == SortBy(s, le)
  {
    SortByIsSorted(s, le, key);
    SortBySortedIsIdentity(SortBy(s, le), le, key);
  }
}
