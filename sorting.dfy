/** The orderings the dashboard relies on: `Array.prototype.sort`, which is
    stable, called with a numeric key comparator (`a.k - b.k`) or with an
    arbitrary string comparator, and `Array.prototype.map`. */
module Sorting {

  /** `s.map(f)`. */
  function Map<T, U>(s: seq<T>, f: T -> U): (r: seq<U>)
    ensures |r| == |s|
    ensures forall i :: 0 <= i < |s| ==> r[i] == f(s[i])
  {
    if s == [] then [] else [f(s[0])] + Map(s[1..], f)
  }

  /** Ascending by `key`. */
  ghost predicate SortedBy<T>(s: seq<T>, key: T -> int)
  {
    forall i, j :: 0 <= i < j < |s| ==> key(s[i]) <= key(s[j])
  }

  /** The elements of `s` whose key is `k`, in their order in `s`. */
  function KeyFilter<T>(s: seq<T>, key: T -> int, k: int): seq<T>
  {
    if s == [] then [] else (if key(s[0]) == k then [s[0]] else []) + KeyFilter(s[1..], key, k)
  }

  /** Places `x` before the first element whose key is not smaller than its own. */
  function Insert<T>(x: T, s: seq<T>, key: T -> int): (r: seq<T>)
    ensures |r| == |s| + 1
    ensures multiset(r) == multiset(s) + multiset{x}
  {
    if s == [] || key(x) <= key(s[0]) then
      [x] + s
    else
      assert s == [s[0]] + s[1..];
      [s[0]] + Insert(x, s[1..], key)
  }

  lemma {:induction false} InsertSorted<T>(x: T, s: seq<T>, key: T -> int)
    requires SortedBy(s, key)
    ensures SortedBy(Insert(x, s, key), key)
  {
    if s != [] && key(s[0]) < key(x) {
      var rest := Insert(x, s[1..], key);
      InsertSorted(x, s[1..], key);
      forall j | 0 <= j < |rest| ensures key(s[0]) <= key(rest[j]) {
        assert rest[j] in multiset(rest);
        if rest[j] != x {
          assert rest[j] in s[1..];
        }
      }
    }
  }

  /** `s.sort((a, b) => key(a) - key(b))` as a stable insertion sort. */
  function SortBy<T>(s: seq<T>, key: T -> int): (r: seq<T>)
    ensures |r| == |s|
    ensures multiset(r) == multiset(s)
    ensures SortedBy(r, key)
  {
    if s == [] then []
    else
      assert s == [s[0]] + s[1..];
      InsertSorted(s[0], SortBy(s[1..], key), key);
      Insert(s[0], SortBy(s[1..], key), key)
  }

  lemma {:induction false} InsertKeyFilter<T>(x: T, s: seq<T>, key: T -> int, k: int)
    ensures KeyFilter(Insert(x, s, key), key, k) == (if key(x) == k then [x] else []) + KeyFilter(s, key, k)
  {
    var r := Insert(x, s, key);
    if s == [] || key(x) <= key(s[0]) {
      assert r[0] == x && r[1..] == s;
    } else {
      var rest := Insert(x, s[1..], key);
      InsertKeyFilter(x, s[1..], key, k);
      assert r[0] == s[0] && r[1..] == rest;
      assert KeyFilter(r, key, k) == (if key(s[0]) == k then [s[0]] else []) + KeyFilter(rest, key, k);
      assert KeyFilter(s, key, k) == (if key(s[0]) == k then [s[0]] else []) + KeyFilter(s[1..], key, k);
      if key(x) == k {
        assert key(s[0]) != k;
      }
    }
  }

  /** Stability: among elements with equal keys the sort keeps the input order. */
  lemma {:induction false} SortByStable<T>(s: seq<T>, key: T -> int, k: int)
    ensures KeyFilter(SortBy(s, key), key, k) == KeyFilter(s, key, k)
  {
    if s != [] {
      SortByStable(s[1..], key, k);
      InsertKeyFilter(s[0], SortBy(s[1..], key), key, k);
    }
  }

  /** Sorting what is already sorted changes nothing. */
  lemma {:induction false} SortBySortedIdentity<T>(s: seq<T>, key: T -> int)
    requires SortedBy(s, key)
    ensures SortBy(s, key) == s
  {
    if s != [] {
      SortBySortedIdentity(s[1..], key);
      assert s == [s[0]] + s[1..];
    }
  }

  /** Sorting twice is sorting once. */
  lemma SortByIdempotent<T>(s: seq<T>, key: T -> int)
    ensures SortBy(SortBy(s, key), key) == SortBy(s, key)
  {
    SortBySortedIdentity(SortBy(s, key), key);
  }

  lemma {:induction false} InsertMapMultiset<T, U>(x: T, s: seq<T>, key: T -> int, f: T -> U)
    ensures multiset(Map(Insert(x, s, key), f)) == multiset(Map(s, f)) + multiset{f(x)}
  {
    if s == [] || key(x) <= key(s[0]) {
      assert Map([x] + s, f) == [f(x)] + Map(s, f);
    } else {
      InsertMapMultiset(x, s[1..], key, f);
      assert Map([s[0]] + Insert(x, s[1..], key), f) == [f(s[0])] + Map(Insert(x, s[1..], key), f);
      assert Map(s, f) == [f(s[0])] + Map(s[1..], f);
    }
  }

  /** Mapping after sorting yields a permutation of mapping the input. */
  lemma {:induction false} SortByMapPermutation<T, U>(s: seq<T>, key: T -> int, f: T -> U)
    ensures multiset(Map(SortBy(s, key), f)) == multiset(Map(s, f))
  {
    if s != [] {
      SortByMapPermutation(s[1..], key, f);
      InsertMapMultiset(s[0], SortBy(s[1..], key), key, f);
      assert Map(s, f) == [f(s[0])] + Map(s[1..], f);
    }
  }

  /** Mapping commutes with picking out one key, when the map keeps keys. */
  lemma {:induction false} MapKeyFilter<T, U>(s: seq<T>, f: T -> U, keyT: T -> int, keyU: U -> int, k: int)
    requires forall x :: keyU(f(x)) == keyT(x)
    ensures KeyFilter(Map(s, f), keyU, k) == Map(KeyFilter(s, keyT, k), f)
  {
    if s != [] {
      MapKeyFilter(s[1..], f, keyT, keyU, k);
      assert Map(s, f) == [f(s[0])] + Map(s[1..], f);
      assert Map(s, f)[1..] == Map(s[1..], f);
    }
  }

  /** Taking a prefix of a sorted sequence keeps exactly the elements with the
      smallest keys: whatever is dropped has a key no smaller than anything kept. */
  lemma SortedPrefixNearest<T>(s: seq<T>, key: T -> int, n: nat)
    requires SortedBy(s, key)
    requires n <= |s|
    ensures SortedBy(s[..n], key)
    ensures multiset(s[..n]) <= multiset(s)
    ensures multiset(s) - multiset(s[..n]) == multiset(s[n..])
    ensures forall i, y :: 0 <= i < n && y in multiset(s) - multiset(s[..n]) ==> key(s[i]) <= key(y)
  {
    assert s == s[..n] + s[n..];
    assert multiset(s) == multiset(s[..n]) + multiset(s[n..]);
    forall i, y | 0 <= i < n && y in multiset(s) - multiset(s[..n])
      ensures key(s[i]) <= key(y)
    {
      assert y in s[n..];
      var j :| n <= j < |s| && s[j] == y;
    }
  }

  // --- Sorting with a caller-supplied comparator ---

  /** `le` relates every pair one way or the other (a comparator that never
      leaves two elements unordered). */
  ghost predicate Connected<T(!new)>(le: (T, T) -> bool)
  {
    forall a, b :: le(a, b) || le(b, a)
  }

  /** Each element is related by `le` to its successor. */
  ghost predicate ChainedBy<T>(s: seq<T>, le: (T, T) -> bool)
  {
    forall i :: 0 <= i < |s| - 1 ==> le(s[i], s[i + 1])
  }

  ghost predicate Distinct<T>(s: seq<T>)
  {
    forall i, j :: 0 <= i < j < |s| ==> s[i] != s[j]
  }

  /** Places `x` before the first element `y` with `le(x, y)`. */
  function InsertWith<T>(x: T, s: seq<T>, le: (T, T) -> bool): (r: seq<T>)
    ensures |r| == |s| + 1
    ensures multiset(r) == multiset(s) + multiset{x}
    ensures r[0] == x || (s != [] && r[0] == s[0])
  {
    if s == [] || le(x, s[0]) then [x] + s
    else
      assert s == [s[0]] + s[1..];
      [s[0]] + InsertWith(x, s[1..], le)
  }

  /** `s.sort(cmp)` for a comparator `cmp` with `le(a, b)` meaning `cmp(a, b) <= 0`. */
  function SortWith<T>(s: seq<T>, le: (T, T) -> bool): (r: seq<T>)
    ensures |r| == |s|
    ensures multiset(r) == multiset(s)
  {
    if s == [] then []
    else
      assert s == [s[0]] + s[1..];
      InsertWith(s[0], SortWith(s[1..], le), le)
  }

  lemma SortWithMembers<T>(s: seq<T>, le: (T, T) -> bool, x: T)
    ensures x in SortWith(s, le) <==> x in s
  {
    assert x in SortWith(s, le) <==> x in multiset(SortWith(s, le));
  }

  lemma {:induction false} InsertWithChained<T(!new)>(x: T, s: seq<T>, le: (T, T) -> bool)
    requires Connected(le)
    requires ChainedBy(s, le)
    ensures ChainedBy(InsertWith(x, s, le), le)
  {
    if s != [] && !le(x, s[0]) {
      assert le(s[0], x);
      InsertWithChained(x, s[1..], le);
    }
  }

  lemma {:induction false} InsertWithDistinct<T>(x: T, s: seq<T>, le: (T, T) -> bool)
    requires Distinct(s)
    requires x !in s
    ensures Distinct(InsertWith(x, s, le))
  {
    if s != [] && !le(x, s[0]) {
      InsertWithDistinct(x, s[1..], le);
      var r := InsertWith(x, s, le);
      forall i | 1 <= i < |r| ensures r[0] != r[i] {
        assert r[i] in multiset(InsertWith(x, s[1..], le));
        assert s == [s[0]] + s[1..];
      }
    }
  }

  /** A connected comparator yields an ordered result, and distinct inputs stay distinct. */
  lemma {:induction false} SortWithOrdered<T(!new)>(s: seq<T>, le: (T, T) -> bool)
    requires Connected(le)
    ensures ChainedBy(SortWith(s, le), le)
  {
    if s != [] {
      SortWithOrdered(s[1..], le);
      InsertWithChained(s[0], SortWith(s[1..], le), le);
    }
  }

  lemma {:induction false} SortWithDistinct<T>(s: seq<T>, le: (T, T) -> bool)
    requires Distinct(s)
    ensures Distinct(SortWith(s, le))
  {
    if s != [] {
      SortWithDistinct(s[1..], le);
      assert s[0] !in multiset(s[1..]);
      InsertWithDistinct(s[0], SortWith(s[1..], le), le);
    }
  }
}
