/**
 * `Array.prototype.sort` with a comparator `(a, b) => key(a) - key(b)`:
 * a stable sort by an integer key, done in place.
 */
module StableSort {

  /** Inserting `x` into a run sorted by `key`, as an insertion step does:
    * moving left past every element whose key is larger. */
  function Insert<T>(key: T -> int, s: seq<T>, x: T): (r: seq<T>)
    ensures |r| == |s| + 1
    decreases |s|
  {
    if |s| == 0 || key(s[|s| - 1]) <= key(x) then s + [x]
    else Insert(key, s[..|s| - 1], x) + [s[|s| - 1]]
  }

  /** The elements of `xs` sorted by `key`, equal keys in their original order. */
  function SortByKey<T>(key: T -> int, xs: seq<T>): (r: seq<T>)
    ensures |r| == |xs|
    decreases |xs|
  {
    if |xs| == 0 then [] else Insert(key, SortByKey(key, xs[..|xs| - 1]), xs[|xs| - 1])
  }

  predicate Sorted<T>(key: T -> int, s: seq<T>)
  {
    forall i, j :: 0 <= i < j < |s| ==> key(s[i]) <= key(s[j])
  }

  /** The elements of `xs` whose key is `k`, in order. */
  function WithKey<T>(key: T -> int, xs: seq<T>, k: int): seq<T>
    decreases |xs|
  {
    if |xs| == 0 then []
    else WithKey(key, xs[..|xs| - 1], k) + (if key(xs[|xs| - 1]) == k then [xs[|xs| - 1]] else [])
  }

  /** The in-place insertion sort. */
  method SortInPlace<T>(key: T -> int, a: array<T>)
    modifies a
    ensures a[..] == SortByKey(key, old(a[..]))
  {
    ghost var input := a[..];
    var i := 0;
    while i < a.Length
      invariant 0 <= i <= a.Length
      invariant a[..i] == SortByKey(key, input[..i])
      invariant a[i..] == input[i..]
    {
      assert input[..i + 1][..i] == input[..i];
      assert a[i] == input[i];
      InsertAt(key, a, i);
      assert a[i + 1..] == input[i + 1..];
      i := i + 1;
    }
    assert input[..i] == input;
  }

  /** Moves `a[i]` left into the sorted run `a[..i]`. */
  method InsertAt<T>(key: T -> int, a: array<T>, i: nat)
    requires i < a.Length
    modifies a
    ensures a[..i + 1] == Insert(key, old(a[..i]), old(a[i]))
    ensures a[i + 1..] == old(a[i + 1..])
  {
    ghost var s := a[..i];
    var x := a[i];
    var j := i;
    while j > 0 && key(a[j - 1]) > key(x)
      invariant 0 <= j <= i
      invariant forall k :: 0 <= k < j ==> a[k] == s[k]
      invariant forall k :: j < k <= i ==> a[k] == s[k - 1]
      invariant forall k :: i < k < a.Length ==> a[k] == old(a[k])
      invariant forall k :: j <= k < i ==> key(s[k]) > key(x)
    {
      a[j] := a[j - 1];
      j := j - 1;
    }
    InsertSplits(key, s, x, j);
    a[j] := x;
    Placed(a[..i + 1], s, x, j);
  }

  /** The run after the loop: the elements before `j`, then `x`, then the
    * shifted ones. */
  lemma Placed<T>(t: seq<T>, s: seq<T>, x: T, j: nat)
    requires j <= |s| && |t| == |s| + 1
    requires forall k :: 0 <= k < j ==> t[k] == s[k]
    requires t[j] == x
    requires forall k :: j < k < |t| ==> t[k] == s[k - 1]
    ensures t == s[..j] + [x] + s[j..]
  {
    var u := s[..j] + [x] + s[j..];
    forall k | 0 <= k < |t| ensures t[k] == u[k] {
      if k > j {
        assert u[k] == s[k - 1];
      }
    }
  }

  /** `x` goes right after the last element whose key is not larger than
    * its own, all later ones having larger keys. */
  lemma {:induction false} InsertSplits<T>(key: T -> int, s: seq<T>, x: T, j: nat)
    requires j <= |s| && (j == 0 || key(s[j - 1]) <= key(x))
    requires forall k :: j <= k < |s| ==> key(s[k]) > key(x)
    ensures Insert(key, s, x) == s[..j] + [x] + s[j..]
    decreases |s|
  {
    if j < |s| {
      var n := |s| - 1;
      assert s[..n][..j] == s[..j];
      InsertSplits(key, s[..n], x, j);
      assert s[j..] == s[..n][j..] + [s[n]];
    } else {
      assert s[..j] == s;
    }
  }

  // ----- What the sort guarantees -----

  /** An insertion keeps a sorted run sorted. */
  lemma {:induction false} InsertSorted<T>(key: T -> int, s: seq<T>, x: T)
    requires Sorted(key, s)
    ensures Sorted(key, Insert(key, s, x))
    ensures forall i :: 0 <= i < |Insert(key, s, x)| ==> Insert(key, s, x)[i] == x || Insert(key, s, x)[i] in s
    decreases |s|
  {
    if |s| > 0 && key(s[|s| - 1]) > key(x) {
      var n := |s| - 1;
      InsertSorted(key, s[..n], x);
      var t := Insert(key, s[..n], x);
      forall i | 0 <= i < |t| ensures key(t[i]) <= key(s[n]) {
        if t[i] != x {
          var m :| 0 <= m < n && s[..n][m] == t[i];
        }
      }
      forall i | 0 <= i < |t| ensures t[i] == x || t[i] in s {
        if t[i] != x { assert t[i] in s[..n]; }
      }
    }
  }

  /** The result is sorted by the key. */
  lemma {:induction false} SortSorted<T>(key: T -> int, xs: seq<T>)
    ensures Sorted(key, SortByKey(key, xs))
    decreases |xs|
  {
    if |xs| > 0 {
      SortSorted(key, xs[..|xs| - 1]);
      InsertSorted(key, SortByKey(key, xs[..|xs| - 1]), xs[|xs| - 1]);
    }
  }

  /** An insertion adds exactly the inserted element. */
  lemma {:induction false} InsertPermutes<T>(key: T -> int, s: seq<T>, x: T)
    ensures multiset(Insert(key, s, x)) == multiset(s) + multiset{x}
    decreases |s|
  {
    if |s| > 0 && key(s[|s| - 1]) > key(x) {
      var n := |s| - 1;
      InsertPermutes(key, s[..n], x);
      assert s == s[..n] + [s[n]];
    }
  }

  /** The result is a permutation of the input. */
  lemma {:induction false} SortPermutes<T>(key: T -> int, xs: seq<T>)
    ensures multiset(SortByKey(key, xs)) == multiset(xs)
    decreases |xs|
  {
    if |xs| > 0 {
      var n := |xs| - 1;
      SortPermutes(key, xs[..n]);
      InsertPermutes(key, SortByKey(key, xs[..n]), xs[n]);
      assert xs == xs[..n] + [xs[n]];
    }
  }

  /** An insertion places `x` after every element of its key. */
  lemma {:induction false} InsertWithKey<T>(key: T -> int, s: seq<T>, x: T, k: int)
    ensures WithKey(key, Insert(key, s, x), k) == WithKey(key, s, k) + (if key(x) == k then [x] else [])
    decreases |s|
  {
    var tail := if key(x) == k then [x] else [];
    if |s| == 0 || key(s[|s| - 1]) <= key(x) {
      var r := s + [x];
      assert r[..|r| - 1] == s;
    } else {
      var n := |s| - 1;
      var t := Insert(key, s[..n], x);
      var r := t + [s[n]];
      assert r[..|r| - 1] == t;
      InsertWithKey(key, s[..n], x, k);
      var last := if key(s[n]) == k then [s[n]] else [];
      assert WithKey(key, r, k) == WithKey(key, s[..n], k) + tail + last;
      assert WithKey(key, s, k) == WithKey(key, s[..n], k) + last;
      if key(x) == k {
        assert last == [];
      } else {
        assert tail == [];
      }
    }
  }

  /** Stability: for every key, the elements with that key appear in the
    * result in the order they had in the input. */
  lemma {:induction false} SortStable<T>(key: T -> int, xs: seq<T>, k: int)
    ensures WithKey(key, SortByKey(key, xs), k) == WithKey(key, xs, k)
    decreases |xs|
  {
    if |xs| > 0 {
      var n := |xs| - 1;
      SortStable(key, xs[..n], k);
      InsertWithKey(key, SortByKey(key, xs[..n]), xs[n], k);
    }
  }
}
