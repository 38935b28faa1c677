/**
 * A stable sort by a natural-number key, as Python's `sorted(xs, key=f)` does
 * it, together with its reference definition: with keys below `n`, a stable
 * sort is the counting sort that lists the elements of key 0, then those of
 * key 1, and so on, each bucket in input order.
 */
module StableSort {

  /** `s` is in ascending order of `key`. */
  ghost predicate SortedBy<T>(s: seq<T>, key: T -> nat) {
    forall i, j :: 0 <= i < j < |s| ==> key(s[i]) <= key(s[j])
  }

  /** The elements of `s` whose key is `k`, in their order in `s`. */
  function Filter<T>(s: seq<T>, key: T -> nat, k: nat): (r: seq<T>)
    ensures |r| <= |s|
    ensures forall i :: 0 <= i < |r| ==> key(r[i]) == k
  {
    if s == [] then [] else (if key(s[0]) == k then [s[0]] else []) + Filter(s[1..], key, k)
  }

  /** `x` placed in front of the first element of `s` whose key is not below its own. */
  function Insert<T>(x: T, s: seq<T>, key: T -> nat): (r: seq<T>)
    ensures multiset(r) == multiset(s) + multiset{x}
  {
    if s == [] || key(x) <= key(s[0]) then [x] + s
    else
      assert s == [s[0]] + s[1..];
      [s[0]] + Insert(x, s[1..], key)
  }

  /** Inserting into a sorted sequence keeps it sorted. */
  lemma {:induction false} InsertSorted<T>(x: T, s: seq<T>, key: T -> nat)
    requires SortedBy(s, key)
    ensures SortedBy(Insert(x, s, key), key)
  {
    if s != [] && key(x) > key(s[0]) {
      var tail := Insert(x, s[1..], key);
      InsertSorted(x, s[1..], key);
      forall i | 0 <= i < |tail|
        ensures key(s[0]) <= key(tail[i])
      {
        assert tail[i] in multiset(s[1..]) + multiset{x};
        if tail[i] != x {
          assert tail[i] in s[1..];
        }
      }
    }
  }

  /** Stable insertion sort of `s` by ascending `key`. */
  function Sort<T>(s: seq<T>, key: T -> nat): (r: seq<T>)
    ensures multiset(r) == multiset(s)
    ensures SortedBy(r, key)
  {
    if s == [] then []
    else
      assert s == [s[0]] + s[1..];
      InsertSorted(s[0], Sort(s[1..], key), key);
      Insert(s[0], Sort(s[1..], key), key)
  }

  /** Inserting `x` adds it to the front of its own key's elements and leaves
      the other keys' elements as they were. */
  lemma {:induction false} FilterInsert<T>(x: T, s: seq<T>, key: T -> nat, k: nat)
    ensures Filter(Insert(x, s, key), key, k) == (if key(x) == k then [x] else []) + Filter(s, key, k)
  {
    if s == [] || key(x) <= key(s[0]) {
      assert ([x] + s)[1..] == s;
    } else {
      var r := [s[0]] + Insert(x, s[1..], key);
      assert r[1..] == Insert(x, s[1..], key);
      FilterInsert(x, s[1..], key, k);
    }
  }

  /** Stability: for every key, the elements of that key come out in the order
      they went in. */
  lemma {:induction false} SortStable<T>(s: seq<T>, key: T -> nat, k: nat)
    ensures Filter(Sort(s, key), key, k) == Filter(s, key, k)
  {
    if s != [] {
      SortStable(s[1..], key, k);
      FilterInsert(s[0], Sort(s[1..], key), key, k);
    }
  }

  /** Counting-sort reference: the elements of key `lo`, then `lo + 1`, up to `n - 1`. */
  function Buckets<T>(s: seq<T>, key: T -> nat, lo: nat, n: nat): seq<T>
    decreases n - lo
  {
    if lo >= n then [] else Filter(s, key, lo) + Buckets(s, key, lo + 1, n)
  }

  lemma {:induction false} BucketsCongruent<T>(a: seq<T>, b: seq<T>, key: T -> nat, lo: nat, n: nat)
    requires forall k :: lo <= k < n ==> Filter(a, key, k) == Filter(b, key, k)
    ensures Buckets(a, key, lo, n) == Buckets(b, key, lo, n)
    decreases n - lo
  {
    if lo < n {
      BucketsCongruent(a, b, key, lo + 1, n);
    }
  }

  lemma {:induction false} FilterAbsent<T>(s: seq<T>, key: T -> nat, k: nat)
    requires forall i :: 0 <= i < |s| ==> key(s[i]) != k
    ensures Filter(s, key, k) == []
  {
    if s != [] {
      FilterAbsent(s[1..], key, k);
    }
  }

  /** A sorted sequence whose keys are at least `lo` starts with exactly its
      elements of key `lo`. */
  lemma {:induction false} SortedSplit<T>(t: seq<T>, key: T -> nat, lo: nat) returns (m: nat)
    requires SortedBy(t, key)
    requires forall i :: 0 <= i < |t| ==> lo <= key(t[i])
    ensures m <= |t| && t[..m] == Filter(t, key, lo)
    ensures forall i :: m <= i < |t| ==> lo < key(t[i])
    ensures forall k :: k != lo ==> Filter(t, key, k) == Filter(t[m..], key, k)
  {
    if t == [] {
      m := 0;
    } else if key(t[0]) == lo {
      var m' := SortedSplit(t[1..], key, lo);
      m := m' + 1;
      assert t[..m] == [t[0]] + t[1..][..m'];
      assert t[1..][m'..] == t[m..];
    } else {
      m := 0;
      FilterAbsent(t, key, lo);
      assert t[m..] == t;
    }
  }

  /** A sorted sequence with keys in `[lo, n)` is its own counting sort. */
  lemma {:induction false} SortedIsBuckets<T>(t: seq<T>, key: T -> nat, lo: nat, n: nat)
    requires SortedBy(t, key)
    requires forall i :: 0 <= i < |t| ==> lo <= key(t[i]) < n
    ensures Buckets(t, key, lo, n) == t
    decreases n - lo
  {
    if lo >= n {
      assert t == [];
    } else {
      var m := SortedSplit(t, key, lo);
      BucketsCongruent(t, t[m..], key, lo + 1, n);
      SortedIsBuckets(t[m..], key, lo + 1, n);
      assert t == t[..m] + t[m..];
    }
  }

  /** The stable sort and the counting sort agree on every input whose keys
      lie below `n`. */
  lemma {:induction false} SortIsBuckets<T>(s: seq<T>, key: T -> nat, n: nat)
    requires forall i :: 0 <= i < |s| ==> key(s[i]) < n
    ensures Sort(s, key) == Buckets(s, key, 0, n)
  {
    var t := Sort(s, key);
    forall i | 0 <= i < |t|
      ensures key(t[i]) < n
    {
      assert t[i] in multiset(s);
    }
    forall k | 0 <= k < n
      ensures Filter(t, key, k) == Filter(s, key, k)
    {
      SortStable(s, key, k);
    }
    BucketsCongruent(t, s, key, 0, n);
    SortedIsBuckets(t, key, 0, n);
  }
}
