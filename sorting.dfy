/** Sorting by an integer key, largest first, as the storefront does with
    `sort({ createdAt: -1 })` in its database queries and with
    `sort((a, b) => b.x - a.x)` in its analytics, and `slice(0, n)`. */
module Sorting {

  predicate SortedDesc<T>(s: seq<T>, key: T -> int) {
    forall i, j :: 0 <= i < j < |s| ==> key(s[i]) >= key(s[j])
  }

  /** Puts `x` in front of the first element whose key is smaller, so that
      among equal keys earlier elements stay earlier. */
  function Insert<T>(x: T, s: seq<T>, key: T -> int): (r: seq<T>)
    ensures |r| == |s| + 1
  {
    if s == [] || key(x) >= key(s[0]) then [x] + s
    else [s[0]] + Insert(x, s[1..], key)
  }

  lemma {:induction false} InsertIsPermutation<T>(x: T, s: seq<T>, key: T -> int)
    ensures multiset(Insert(x, s, key)) == multiset(s) + multiset{x}
  {
    if s != [] && key(x) < key(s[0]) {
      InsertIsPermutation(x, s[1..], key);
      assert s == [s[0]] + s[1..];
    }
  }

  lemma {:induction false} InsertIsSorted<T>(x: T, s: seq<T>, key: T -> int)
    requires SortedDesc(s, key)
    ensures SortedDesc(Insert(x, s, key), key)
  {
    if s != [] && key(x) < key(s[0]) {
      var rest := Insert(x, s[1..], key);
      InsertIsSorted(x, s[1..], key);
      InsertIsPermutation(x, s[1..], key);
      forall k | 0 <= k < |rest|
        ensures key(s[0]) >= key(rest[k])
      {
        assert rest[k] in multiset(rest);
        if rest[k] != x {
          assert rest[k] in multiset(s[1..]);
          var j :| 0 <= j < |s[1..]| && s[1..][j] == rest[k];
          assert s[j + 1] == rest[k];
        }
      }
    }
  }

  /** Insertion sort: a permutation of `s`, ordered by descending key. */
  function SortDesc<T>(s: seq<T>, key: T -> int): (r: seq<T>)
    ensures SortedDesc(r, key)
    ensures multiset(r) == multiset(s)
    ensures |r| == |s|
  {
    if s == [] then []
    else
      var rest := SortDesc(s[1..], key);
      InsertIsSorted(s[0], rest, key);
      InsertIsPermutation(s[0], rest, key);
      assert s == [s[0]] + s[1..];
      Insert(s[0], rest, key)
  }

  /** `s.slice(0, n)`. */
  function Take<T>(s: seq<T>, n: nat): (r: seq<T>)
    ensures |r| == if |s| <= n then |s| else n
    ensures r == s[..|r|]
  {
    if |s| <= n then s else s[..n]
  }

  /** The first `n` of a sorted sequence: when some element is left out, no
      element kept has a smaller key than it. */
  lemma TakeKeepsLargest<T>(s: seq<T>, key: T -> int, n: nat, x: T)
    requires SortedDesc(s, key)
    requires x in s && x !in Take(s, n)
    ensures |Take(s, n)| == n
    ensures forall y :: y in Take(s, n) ==> key(y) >= key(x)
  {
    var j :| 0 <= j < |s| && s[j] == x;
    assert j >= n;
    forall y | y in Take(s, n)
      ensures key(y) >= key(x)
    {
      var i :| 0 <= i < n && s[i] == y;
    }
  }

  /** `s.filter(keep)`: the elements that pass, in their order. */
  function Filter<T(!new)>(s: seq<T>, keep: T -> bool): (r: seq<T>)
    ensures forall x :: x in r <==> x in s && keep(x)
    ensures |r| <= |s|
    decreases |s|
  {
    if s == [] then []
    else if keep(s[0]) then [s[0]] + Filter(s[1..], keep)
    else Filter(s[1..], keep)
  }

  /** Filtering a sorted sequence leaves it sorted. */
  lemma {:induction false} FilterKeepsSorted<T(!new)>(s: seq<T>, keep: T -> bool, key: T -> int)
    requires SortedDesc(s, key)
    ensures SortedDesc(Filter(s, keep), key)
    decreases |s|
  {
    if s != [] {
      FilterKeepsSorted(s[1..], keep, key);
      var rest := Filter(s[1..], keep);
      if keep(s[0]) {
        forall k | 0 <= k < |rest|
          ensures key(s[0]) >= key(rest[k])
        {
          assert rest[k] in s[1..];
        }
      }
    }
  }

  /** Sorting keeps exactly the elements it was given. */
  lemma SortDescSameElements<T>(s: seq<T>, key: T -> int)
    ensures forall x :: x in SortDesc(s, key) <==> x in s
  {
    var r := SortDesc(s, key);
    forall x
      ensures x in r <==> x in s
    {
      assert x in r <==> x in multiset(r);
      assert x in s <==> x in multiset(s);
    }
  }
}
