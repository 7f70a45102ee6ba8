/** Python's `sorted(xs, key=k)` and `xs.sort(key=k)`: a stable sort, ascending by key.
    A descending sort (`reverse=True`) is the same as an ascending sort by the negated key,
    since Python keeps equal elements in their original order in both directions. */
module StableSort {

  /** Ascending by key. */
  ghost predicate SortedBy<T>(s: seq<T>, key: T -> real)
  {
    forall i, j :: 0 <= i < j < |s| ==> key(s[i]) <= key(s[j])
  }

  /** The elements of `s` whose key is `d`, in their order in `s`. */
  function WithKey<T>(s: seq<T>, key: T -> real, d: real): seq<T>
  {
    if s == [] then []
    else (if key(s[0]) == d then [s[0]] else []) + WithKey(s[1..], key, d)
  }

  /** A stable sort: sorted, and for every key value the elements carrying it keep their order. */
  ghost predicate IsStableSortOf<T>(r: seq<T>, s: seq<T>, key: T -> real)
  {
    SortedBy(r, key) && forall d :: WithKey(r, key, d) == WithKey(s, key, d)
  }

  /** Places `x` before the first element whose key is not smaller. */
  function Insert<T>(x: T, s: seq<T>, key: T -> real): seq<T>
  {
    if s == [] || key(x) <= key(s[0]) then [x] + s
    else [s[0]] + Insert(x, s[1..], key)
  }

  /** The model of `sorted(s, key=key)`: insertion sort, which is stable. */
  function Sort<T>(s: seq<T>, key: T -> real): seq<T>
  {
    if s == [] then [] else Insert(s[0], Sort(s[1..], key), key)
  }

  /** The first `k` elements, or all of them when there are fewer: Python's `s[:k]` for `k >= 0`. */
  function Take<T>(s: seq<T>, k: nat): (r: seq<T>)
    ensures |r| == if k <= |s| then k else |s|
    ensures forall j :: 0 <= j < |r| ==> r[j] == s[j]
  {
    if k <= |s| then s[..k] else s
  }

  lemma {:induction false} InsertPermutes<T>(x: T, s: seq<T>, key: T -> real)
    ensures multiset(Insert(x, s, key)) == multiset(s) + multiset{x}
  {
    if s == [] || key(x) <= key(s[0]) {
    } else {
      InsertPermutes(x, s[1..], key);
      assert s == [s[0]] + s[1..];
    }
  }

  lemma {:induction false} InsertSorted<T>(x: T, s: seq<T>, key: T -> real)
    requires SortedBy(s, key)
    ensures SortedBy(Insert(x, s, key), key)
  {
    if s == [] || key(x) <= key(s[0]) {
    } else {
      var tail := Insert(x, s[1..], key);
      InsertSorted(x, s[1..], key);
      InsertPermutes(x, s[1..], key);
      forall y | y in tail ensures key(s[0]) <= key(y) {
        assert y in multiset(tail);
        assert y == x || y in multiset(s[1..]);
      }
    }
  }

  lemma {:induction false} InsertWithKey<T>(x: T, s: seq<T>, key: T -> real, d: real)
    ensures WithKey(Insert(x, s, key), key, d) == WithKey([x] + s, key, d)
  {
    if s == [] || key(x) <= key(s[0]) {
    } else {
      var s0 := [s[0]];
      InsertWithKey(x, s[1..], key, d);
      assert ([s[0]] + Insert(x, s[1..], key))[1..] == Insert(x, s[1..], key);
      assert ([x] + s[1..])[1..] == s[1..];
      assert ([x] + s)[1..] == s;
    }
  }

  /** `Sort` is a stable sort of its input and a permutation of it. */
  lemma {:induction false} SortIsStable<T>(s: seq<T>, key: T -> real)
    ensures IsStableSortOf(Sort(s, key), s, key)
    ensures multiset(Sort(s, key)) == multiset(s)
  {
    if s != [] {
      SortIsStable(s[1..], key);
      InsertSorted(s[0], Sort(s[1..], key), key);
      InsertPermutes(s[0], Sort(s[1..], key), key);
      assert s == [s[0]] + s[1..];
      forall d ensures WithKey(Sort(s, key), key, d) == WithKey(s, key, d) {
        InsertWithKey(s[0], Sort(s[1..], key), key, d);
        assert ([s[0]] + Sort(s[1..], key))[1..] == Sort(s[1..], key);
      }
    }
  }

  lemma {:induction false} WithKeyMember<T>(s: seq<T>, key: T -> real, d: real, x: T)
    ensures x in WithKey(s, key, d) <==> x in s && key(x) == d
  {
    if s != [] {
      WithKeyMember(s[1..], key, d, x);
      assert s == [s[0]] + s[1..];
    }
  }

  lemma WithKeyOfHead<T>(s: seq<T>, key: T -> real)
    ensures s != [] ==> WithKey(s, key, key(s[0])) != []
  {
  }

  /** The stable sort of a sequence is unique: any two stable sorts of the same input are equal.
      So `Sort` returns exactly what Python's `sorted` returns. */
  lemma {:induction false} StableSortUnique<T>(a: seq<T>, b: seq<T>, key: T -> real)
    requires SortedBy(a, key) && SortedBy(b, key)
    requires forall d :: WithKey(a, key, d) == WithKey(b, key, d)
    ensures a == b
  {
    if a == [] || b == [] {
      WithKeyOfHead(a, key);
      WithKeyOfHead(b, key);
    } else {
      var da, db := key(a[0]), key(b[0]);
      WithKeyMember(b, key, db, b[0]);
      assert WithKey(a, key, db) == WithKey(b, key, db);
      WithKeyMember(a, key, db, WithKey(a, key, db)[0]);
      assert da <= db;
      WithKeyMember(a, key, da, a[0]);
      assert WithKey(a, key, da) == WithKey(b, key, da);
      WithKeyMember(b, key, da, WithKey(b, key, da)[0]);
      assert db <= da;
      assert WithKey(a, key, da)[0] == a[0];
      assert WithKey(b, key, db)[0] == b[0];
      assert a[0] == b[0];
      forall d ensures WithKey(a[1..], key, d) == WithKey(b[1..], key, d) {
        var p := if key(a[0]) == d then [a[0]] else [];
        assert WithKey(a, key, d) == p + WithKey(a[1..], key, d);
        assert WithKey(b, key, d) == p + WithKey(b[1..], key, d);
        assert WithKey(a[1..], key, d) == WithKey(a, key, d)[|p|..];
      }
      StableSortUnique(a[1..], b[1..], key);
      assert a == [a[0]] + a[1..];
      assert b == [b[0]] + b[1..];
    }
  }

  lemma {:induction false} WithKeyPrefix<T>(s: seq<T>, key: T -> real, d: real, n: nat)
    requires n <= |s|
    ensures WithKey(s[..n], key, d) <= WithKey(s, key, d)
  {
    if n > 0 {
      WithKeyPrefix(s[1..], key, d, n - 1);
      assert s[..n][1..] == s[1..][..n - 1];
    }
  }

  /** The first `k` of a stable sort: the `k` smallest keys (or all elements), ascending,
      and taken from the input. */
  lemma TakeSortedBasic<T>(s: seq<T>, key: T -> real, k: nat)
    ensures |Take(Sort(s, key), k)| == if k <= |s| then k else |s|
    ensures SortedBy(Take(Sort(s, key), k), key)
    ensures multiset(Take(Sort(s, key), k)) <= multiset(s)
  {
    var sorted := Sort(s, key);
    SortIsStable(s, key);
    var n := |Take(sorted, k)|;
    assert |sorted| == |multiset(sorted)| == |multiset(s)| == |s|;
    assert sorted == sorted[..n] + sorted[n..];
    assert multiset(sorted) == multiset(sorted[..n]) + multiset(sorted[n..]);
  }

  /** No element left out of the first `k` of a stable sort has a smaller key than one kept. */
  lemma TakeSortedClosest<T>(s: seq<T>, key: T -> real, k: nat, x: T, y: T)
    requires x in multiset(s) - multiset(Take(Sort(s, key), k))
    requires y in Take(Sort(s, key), k)
    ensures key(y) <= key(x)
  {
    var sorted := Sort(s, key);
    SortIsStable(s, key);
    var n := |Take(sorted, k)|;
    var r := sorted[..n];
    assert sorted == r + sorted[n..];
    assert multiset(sorted) == multiset(r) + multiset(sorted[n..]);
    assert x in multiset(sorted[n..]);
    var i :| 0 <= i < |sorted[n..]| && sorted[n..][i] == x;
    var j :| 0 <= j < n && r[j] == y;
    assert sorted[j] == y && sorted[n + i] == x;
  }

  /** Among elements with equal keys, the first `k` of a stable sort keeps the earliest in input order. */
  lemma TakeSortedTies<T>(s: seq<T>, key: T -> real, k: nat, d: real)
    ensures WithKey(Take(Sort(s, key), k), key, d) <= WithKey(s, key, d)
  {
    var sorted := Sort(s, key);
    SortIsStable(s, key);
    WithKeyPrefix(sorted, key, d, |Take(sorted, k)|);
  }
}
