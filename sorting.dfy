/**
 * Python's list primitives that the pipeline leans on, as functions on sequences:
 * the stable `list.sort(key=...)` / `sorted(..., key=...)`, the filtering
 * comprehension `[c for c in s if p(c)]` and the slice `s[:stop]`.
 *
 * The stable sort is written as an insertion sort. Lemma `StableSortUnique`
 * shows that a sequence that is sorted and keeps the relative order of equal
 * keys is unique, so any stable sort (Python's Timsort included) gives exactly
 * `SortBy`.
 */
module Sorting {

  /** A sort key: a number, or `float('inf')`, which sorts after every number. */
  datatype Key = Finite(v: real) | Infinite

  /** `a <= b` on keys. */
  predicate KeyLe(a: Key, b: Key) {
    b.Infinite? || (a.Finite? && a.v <= b.v)
  }

  /** The keys along `s` never decrease. */
  predicate Sorted<T>(s: seq<T>, key: T -> Key) {
    forall i, j :: 0 <= i < j < |s| ==> KeyLe(key(s[i]), key(s[j]))
  }

  /** No element occurs twice (the same object is not listed twice). */
  predicate Distinct<T(==)>(s: seq<T>) {
    forall i, j :: 0 <= i < j < |s| ==> s[i] != s[j]
  }

  /** Inserts `x` in front of the first element whose key is not below `key(x)`. */
  function Insert<T>(x: T, s: seq<T>, key: T -> Key): seq<T> {
    if s == [] then [x]
    else if KeyLe(key(x), key(s[0])) then [x] + s
    else [s[0]] + Insert(x, s[1..], key)
  }

  /** Stable sort by ascending key: each element is inserted in front of the equal keys that follow it in the input. */
  function SortBy<T>(s: seq<T>, key: T -> Key): seq<T> {
    if s == [] then [] else Insert(s[0], SortBy(s[1..], key), key)
  }

  /** The elements of `s` whose key is `k`, in the order of `s`. */
  function WithKey<T>(s: seq<T>, key: T -> Key, k: Key): seq<T> {
    if s == [] then [] else (if key(s[0]) == k then [s[0]] else []) + WithKey(s[1..], key, k)
  }

  /** `[x for x in s if p(x)]` */
  function Filter<T>(s: seq<T>, p: T -> bool): seq<T> {
    if s == [] then [] else (if p(s[0]) then [s[0]] else []) + Filter(s[1..], p)
  }

  /** `[f(x) for x in s]` */
  function Map<T, U>(s: seq<T>, f: T -> U): (r: seq<U>)
    ensures |r| == |s|
    ensures forall i :: 0 <= i < |s| ==> r[i] == f(s[i])
  {
    if s == [] then [] else [f(s[0])] + Map(s[1..], f)
  }

  /** Python's slice `s[:stop]`: a negative `stop` counts from the end. */
  function SliceTo<T>(s: seq<T>, stop: int): (r: seq<T>)
    ensures |r| <= |s| && r == s[..|r|]
  {
    if stop >= 0 then (if stop <= |s| then s[..stop] else s)
    else if |s| + stop >= 0 then s[..|s| + stop]
    else []
  }

  /** The number of elements `s[:stop]` keeps. */
  function SliceLength(n: nat, stop: int): nat {
    if stop >= 0 then (if stop <= n then stop else n)
    else if n + stop >= 0 then n + stop
    else 0
  }

  lemma SliceToLength<T>(s: seq<T>, stop: int)
    ensures |SliceTo(s, stop)| == SliceLength(|s|, stop)
  {
  }

  // ---------------------------------------------------------------------------
  // Filter

  lemma {:induction false} FilterConcat<T>(a: seq<T>, b: seq<T>, p: T -> bool)
    ensures Filter(a + b, p) == Filter(a, p) + Filter(b, p)
  {
    if a == [] {
      assert a + b == b;
    } else {
      assert (a + b)[1..] == a[1..] + b;
      FilterConcat(a[1..], b, p);
    }
  }

  lemma {:induction false} FilterMultiset<T>(s: seq<T>, p: T -> bool)
    ensures multiset(Filter(s, p)) <= multiset(s)
    ensures forall x :: x in Filter(s, p) <==> x in s && p(x)
    ensures |Filter(s, p)| <= |s|
  {
    if s != [] {
      FilterMultiset(s[1..], p);
      assert s == [s[0]] + s[1..];
    }
  }

  // ---------------------------------------------------------------------------
  // The stable sort

  lemma {:induction false} InsertPermutes<T>(x: T, s: seq<T>, key: T -> Key)
    ensures multiset(Insert(x, s, key)) == multiset(s) + multiset{x}
    ensures |Insert(x, s, key)| == |s| + 1
  {
    if s != [] && !KeyLe(key(x), key(s[0])) {
      InsertPermutes(x, s[1..], key);
      assert s == [s[0]] + s[1..];
    }
  }

  lemma {:induction false} InsertSorted<T>(x: T, s: seq<T>, key: T -> Key)
    requires Sorted(s, key)
    ensures Sorted(Insert(x, s, key), key)
  {
    if s != [] && !KeyLe(key(x), key(s[0])) {
      var t := Insert(x, s[1..], key);
      InsertSorted(x, s[1..], key);
      InsertPermutes(x, s[1..], key);
      forall y | y in t
        ensures KeyLe(key(s[0]), key(y))
      {
        assert y in multiset(t);
        if y != x {
          assert y in s[1..];
        }
      }
      assert Insert(x, s, key) == [s[0]] + t;
    }
  }

  lemma {:induction false} SortByPermutes<T>(s: seq<T>, key: T -> Key)
    ensures multiset(SortBy(s, key)) == multiset(s)
    ensures |SortBy(s, key)| == |s|
  {
    if s != [] {
      SortByPermutes(s[1..], key);
      InsertPermutes(s[0], SortBy(s[1..], key), key);
      assert s == [s[0]] + s[1..];
    }
  }

  lemma {:induction false} SortBySorted<T>(s: seq<T>, key: T -> Key)
    ensures Sorted(SortBy(s, key), key)
  {
    if s != [] {
      SortBySorted(s[1..], key);
      InsertSorted(s[0], SortBy(s[1..], key), key);
    }
  }

  lemma {:induction false} InsertWithKey<T>(x: T, s: seq<T>, key: T -> Key, k: Key)
    ensures WithKey(Insert(x, s, key), key, k) == (if key(x) == k then [x] else []) + WithKey(s, key, k)
  {
    if s == [] {
    } else if KeyLe(key(x), key(s[0])) {
      assert ([x] + s)[1..] == s;
    } else {
      InsertWithKey(x, s[1..], key, k);
      assert ([s[0]] + Insert(x, s[1..], key))[1..] == Insert(x, s[1..], key);
    }
  }

  /** Stability: the elements sharing a key keep their input order. */
  lemma {:induction false} SortByStable<T>(s: seq<T>, key: T -> Key, k: Key)
    ensures WithKey(SortBy(s, key), key, k) == WithKey(s, key, k)
  {
    if s != [] {
      SortByStable(s[1..], key, k);
      InsertWithKey(s[0], SortBy(s[1..], key), key, k);
    }
  }

  lemma {:induction false} WithKeyMembers<T>(s: seq<T>, key: T -> Key, k: Key)
    ensures forall x :: x in WithKey(s, key, k) <==> x in s && key(x) == k
  {
    if s != [] {
      WithKeyMembers(s[1..], key, k);
      assert s == [s[0]] + s[1..];
    }
  }

  lemma WithKeyOfHead<T>(s: seq<T>, key: T -> Key)
    requires s != []
    ensures WithKey(s, key, key(s[0])) != []
  {
  }

  /** Two sorted sequences that agree, key by key, on the order of their elements are equal. */
  lemma {:induction false} SortedUnique<T>(t: seq<T>, u: seq<T>, key: T -> Key)
    requires Sorted(t, key) && Sorted(u, key)
    requires forall k :: WithKey(t, key, k) == WithKey(u, key, k)
    ensures t == u
  {
    if t == [] && u != [] {
      WithKeyOfHead(u, key);
      assert false;
    } else if t != [] && u == [] {
      WithKeyOfHead(t, key);
      assert false;
    } else if t != [] {
      var kt, ku := key(t[0]), key(u[0]);
      WithKeyMembers(t, key, ku);
      WithKeyMembers(u, key, kt);
      assert u[0] in WithKey(u, key, ku);
      assert t[0] in WithKey(t, key, kt);
      assert exists y :: y in t && key(y) == ku;
      assert exists y :: y in u && key(y) == kt;
      assert KeyLe(kt, ku) && KeyLe(ku, kt);
      assert kt == ku;
      assert t[0] == WithKey(t, key, kt)[0] == WithKey(u, key, kt)[0] == u[0];
      forall k
        ensures WithKey(t[1..], key, k) == WithKey(u[1..], key, k)
      {
        var h := if key(t[0]) == k then [t[0]] else [];
        assert WithKey(t, key, k) == h + WithKey(t[1..], key, k);
        assert WithKey(u, key, k) == h + WithKey(u[1..], key, k);
        assert WithKey(t[1..], key, k) == (h + WithKey(t[1..], key, k))[|h|..];
        assert WithKey(u[1..], key, k) == (h + WithKey(u[1..], key, k))[|h|..];
      }
      SortedUnique(t[1..], u[1..], key);
      assert t == [t[0]] + t[1..] && u == [u[0]] + u[1..];
    }
  }

  /** Any sorted and stable rearrangement of `s` is `SortBy(s, key)`. */
  lemma StableSortUnique<T>(s: seq<T>, t: seq<T>, key: T -> Key)
    requires Sorted(t, key)
    requires forall k :: WithKey(t, key, k) == WithKey(s, key, k)
    ensures t == SortBy(s, key)
  {
    SortBySorted(s, key);
    forall k
      ensures WithKey(t, key, k) == WithKey(SortBy(s, key), key, k)
    {
      SortByStable(s, key, k);
    }
    SortedUnique(t, SortBy(s, key), key);
  }

  /** Sorting what is already sorted changes nothing (re-running the normaliser's sort is a no-op). */
  lemma SortBySortedIsIdentity<T>(s: seq<T>, key: T -> Key)
    requires Sorted(s, key)
    ensures SortBy(s, key) == s
  {
    StableSortUnique(s, s, key);
  }

  /** Only the keys of the elements present matter. */
  lemma {:induction false} SortByCongruent<T>(s: seq<T>, key1: T -> Key, key2: T -> Key)
    requires forall x :: x in s ==> key1(x) == key2(x)
    ensures SortBy(s, key1) == SortBy(s, key2)
  {
    if s != [] {
      SortByCongruent(s[1..], key1, key2);
      SortByPermutes(s[1..], key1);
      forall y | y in SortBy(s[1..], key1)
        ensures key1(y) == key2(y)
      {
        assert y in multiset(SortBy(s[1..], key1));
        assert y in s[1..];
      }
      InsertCongruent(s[0], SortBy(s[1..], key1), key1, key2);
    }
  }

  lemma {:induction false} InsertCongruent<T>(x: T, s: seq<T>, key1: T -> Key, key2: T -> Key)
    requires key1(x) == key2(x)
    requires forall y :: y in s ==> key1(y) == key2(y)
    ensures Insert(x, s, key1) == Insert(x, s, key2)
  {
    if s != [] {
      InsertCongruent(x, s[1..], key1, key2);
    }
  }

  /** Sorting commutes with a map `f` when the key of `x` is the key of `f(x)`. */
  lemma {:induction false} SortByMap<T, U>(s: seq<T>, f: T -> U, keyT: T -> Key, keyU: U -> Key)
    requires forall x :: keyT(x) == keyU(f(x))
    ensures Map(SortBy(s, keyT), f) == SortBy(Map(s, f), keyU)
  {
    if s != [] {
      SortByMap(s[1..], f, keyT, keyU);
      assert Map(s, f)[1..] == Map(s[1..], f);
      InsertMap(s[0], SortBy(s[1..], keyT), f, keyT, keyU);
    }
  }

  lemma {:induction false} InsertMap<T, U>(x: T, s: seq<T>, f: T -> U, keyT: T -> Key, keyU: U -> Key)
    requires forall x :: keyT(x) == keyU(f(x))
    ensures Map(Insert(x, s, keyT), f) == Insert(f(x), Map(s, f), keyU)
  {
    if s != [] {
      InsertMap(x, s[1..], f, keyT, keyU);
      assert Map(s, f)[1..] == Map(s[1..], f);
      if !KeyLe(keyT(x), keyT(s[0])) {
        assert Map([s[0]] + Insert(x, s[1..], keyT), f) == [f(s[0])] + Map(Insert(x, s[1..], keyT), f);
      }
    }
  }

  // ---------------------------------------------------------------------------
  // Distinctness: the same object listed twice would be written twice

  lemma {:induction false} DistinctMultiset<T>(s: seq<T>)
    ensures Distinct(s) <==> forall x :: multiset(s)[x] <= 1
  {
    if s == [] {
    } else {
      DistinctMultiset(s[1..]);
      assert s == [s[0]] + s[1..];
      if Distinct(s) {
        assert s[0] !in s[1..];
      }
      if forall x :: multiset(s)[x] <= 1 {
        forall x
          ensures multiset(s[1..])[x] <= 1
        {
          assert multiset(s) == multiset{s[0]} + multiset(s[1..]);
          assert multiset(s)[x] <= 1;
        }
        forall i, j | 0 <= i < j < |s|
          ensures s[i] != s[j]
        {
          if i == 0 {
            assert s[j] in s[1..];
            assert multiset(s)[s[0]] == multiset(s[1..])[s[0]] + 1;
          } else {
            assert s[i] == s[1..][i - 1] && s[j] == s[1..][j - 1];
          }
        }
      }
    }
  }

  /** A rearrangement or a sub-multiset of a duplicate-free sequence has no duplicates either. */
  lemma DistinctSubMultiset<T>(s: seq<T>, t: seq<T>)
    requires Distinct(s)
    requires multiset(t) <= multiset(s)
    ensures Distinct(t)
  {
    DistinctMultiset(s);
    DistinctMultiset(t);
    forall x
      ensures multiset(t)[x] <= 1
    {
      assert multiset(t)[x] <= multiset(s)[x];
    }
  }

  lemma PrefixMultiset<T>(s: seq<T>, n: nat)
    requires n <= |s|
    ensures multiset(s[..n]) <= multiset(s)
  {
    assert s == s[..n] + s[n..];
  }
}
