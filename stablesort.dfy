/**
 * A stable sort in descending order of a numeric key: the behaviour of
 * `Array.prototype.sort` with the comparator `(a, b) => key(b) - key(a)`
 * (stable since ECMAScript 2019). It is written as an insertion sort and
 * proved to return a permutation of its input, ordered by the key, in which
 * elements with equal keys keep their input order.
 */
module StableSort {

  /** Inserts `x` in front of the first element whose key does not exceed its own. */
  function Insert<T>(x: T, s: seq<T>, key: T -> real): seq<T>
  {
    if s == [] || key(x) >= key(s[0]) then [x] + s
    else [s[0]] + Insert(x, s[1..], key)
  }

  function SortDesc<T>(s: seq<T>, key: T -> real): seq<T>
  {
    if s == [] then [] else Insert(s[0], SortDesc(s[1..], key), key)
  }

  ghost predicate SortedDesc<T>(s: seq<T>, key: T -> real)
  {
    forall i, j :: 0 <= i < j < |s| ==> key(s[i]) >= key(s[j])
  }

  /** The elements of `s` whose key is `v`, in their order in `s`. */
  function WithKey<T>(s: seq<T>, key: T -> real, v: real): seq<T>
  {
    if s == [] then []
    else (if key(s[0]) == v then [s[0]] else []) + WithKey(s[1..], key, v)
  }

  lemma {:induction false} InsertPermutes<T>(x: T, s: seq<T>, key: T -> real)
    ensures multiset(Insert(x, s, key)) == multiset(s) + multiset{x}
    ensures |Insert(x, s, key)| == |s| + 1
  {
    if s == [] || key(x) >= key(s[0]) {
    } else {
      InsertPermutes(x, s[1..], key);
      assert s == [s[0]] + s[1..];
    }
  }

  lemma {:induction false} InsertSorted<T>(x: T, s: seq<T>, key: T -> real)
    requires SortedDesc(s, key)
    ensures SortedDesc(Insert(x, s, key), key)
  {
    if s == [] || key(x) >= key(s[0]) {
      var r := [x] + s;
      forall i, j | 0 <= i < j < |r| ensures key(r[i]) >= key(r[j]) {
        if i > 0 {
          assert r[i] == s[i - 1] && r[j] == s[j - 1];
        } else {
          assert r[j] == s[j - 1];
        }
      }
    } else {
      var tail := Insert(x, s[1..], key);
      InsertSorted(x, s[1..], key);
      InsertPermutes(x, s[1..], key);
      var r := [s[0]] + tail;
      forall i, j | 0 <= i < j < |r| ensures key(r[i]) >= key(r[j]) {
        if i > 0 {
          assert r[i] == tail[i - 1] && r[j] == tail[j - 1];
        } else {
          assert r[j] == tail[j - 1];
          assert r[j] in multiset(tail);
          assert r[j] == x || r[j] in multiset(s[1..]);
          if r[j] != x {
            var k :| 0 <= k < |s[1..]| && s[1..][k] == r[j];
            assert s[k + 1] == r[j];
          }
        }
      }
    }
  }

  lemma {:induction false} InsertWithKey<T>(x: T, s: seq<T>, key: T -> real, v: real)
    ensures WithKey(Insert(x, s, key), key, v)
            == (if key(x) == v then [x] else []) + WithKey(s, key, v)
  {
    if s == [] || key(x) >= key(s[0]) {
      assert ([x] + s)[1..] == s;
    } else {
      var tail := Insert(x, s[1..], key);
      var r := [s[0]] + tail;
      assert r[1..] == tail;
      var head := if key(s[0]) == v then [s[0]] else [];
      var mine := if key(x) == v then [x] else [];
      assert WithKey(r, key, v) == head + WithKey(tail, key, v);
      InsertWithKey(x, s[1..], key, v);
      assert WithKey(s, key, v) == head + WithKey(s[1..], key, v);
      assert head == [] || mine == [];
      assert head + (mine + WithKey(s[1..], key, v)) == mine + (head + WithKey(s[1..], key, v));
    }
  }

  /** The sort returns a permutation of its input. */
  lemma {:induction false} SortPermutes<T>(s: seq<T>, key: T -> real)
    ensures multiset(SortDesc(s, key)) == multiset(s)
    ensures |SortDesc(s, key)| == |s|
  {
    if s != [] {
      SortPermutes(s[1..], key);
      InsertPermutes(s[0], SortDesc(s[1..], key), key);
      assert s == [s[0]] + s[1..];
    }
  }

  /** A permutation of a list whose entries all have different ids cannot repeat an entry. */
  lemma DistinctPositionsDiffer<T, K>(r: seq<T>, s: seq<T>, id: T -> K, a: nat, b: nat)
    requires multiset(r) == multiset(s)
    requires forall i, j :: 0 <= i < j < |s| ==> id(s[i]) != id(s[j])
    requires a < b < |r|
    ensures r[a] != r[b]
  {
    if r[a] == r[b] {
      var e := r[a];
      var prefix := r[..b];
      assert r == prefix + r[b..];
      assert e in multiset(prefix) && e in multiset(r[b..]);
      assert multiset(r)[e] >= 2;
      OnceInDistinct(s, id, e);
      assert false;
    }
  }

  /** In a list whose entries all have different ids, an entry occurs at most once. */
  lemma {:induction false} OnceInDistinct<T, K>(s: seq<T>, id: T -> K, e: T)
    requires forall i, j :: 0 <= i < j < |s| ==> id(s[i]) != id(s[j])
    ensures multiset(s)[e] <= 1
  {
    if s != [] {
      assert s == [s[0]] + s[1..];
      OnceInDistinct(s[1..], id, e);
      if s[0] == e {
        assert e !in s[1..];
      }
    }
  }

  /** The sort orders by the key, largest first. */
  lemma {:induction false} SortSorted<T>(s: seq<T>, key: T -> real)
    ensures SortedDesc(SortDesc(s, key), key)
  {
    if s != [] {
      SortSorted(s[1..], key);
      InsertSorted(s[0], SortDesc(s[1..], key), key);
    }
  }

  /** The sort is stable: elements sharing a key keep their relative input order. */
  lemma {:induction false} SortStable<T>(s: seq<T>, key: T -> real, v: real)
    ensures WithKey(SortDesc(s, key), key, v) == WithKey(s, key, v)
  {
    if s != [] {
      SortStable(s[1..], key, v);
      InsertWithKey(s[0], SortDesc(s[1..], key), key, v);
    }
  }

  /** Cutting a list off after `n` elements keeps a prefix of each key's elements. */
  lemma {:induction false} WithKeyPrefix<T>(s: seq<T>, key: T -> real, v: real, n: nat)
    requires n <= |s|
    ensures WithKey(s[..n], key, v) <= WithKey(s, key, v)
  {
    if n > 0 {
      assert s[..n] == [s[0]] + s[1..][..n - 1];
      assert s[..n][1..] == s[1..][..n - 1];
      WithKeyPrefix(s[1..], key, v, n - 1);
    }
  }

  /** The sequence of `f` applied to every element, in order. */
  function Map<T, U>(s: seq<T>, f: T -> U): (r: seq<U>)
    ensures |r| == |s|
    ensures forall i :: 0 <= i < |s| ==> r[i] == f(s[i])
  {
    if s == [] then [] else [f(s[0])] + Map(s[1..], f)
  }

  lemma {:induction false} InsertMapPermutes<T, U>(x: T, s: seq<T>, key: T -> real, f: T -> U)
    ensures multiset(Map(Insert(x, s, key), f)) == multiset{f(x)} + multiset(Map(s, f))
  {
    if s == [] || key(x) >= key(s[0]) {
      assert ([x] + s)[1..] == s;
    } else {
      var r := [s[0]] + Insert(x, s[1..], key);
      assert r[1..] == Insert(x, s[1..], key);
      InsertMapPermutes(x, s[1..], key, f);
      assert Map(s, f) == [f(s[0])] + Map(s[1..], f);
    }
  }

  /** Any per-element view of the sorted list is a rearrangement of the same view of the input. */
  lemma {:induction false} SortMapPermutes<T, U>(s: seq<T>, key: T -> real, f: T -> U)
    ensures multiset(Map(SortDesc(s, key), f)) == multiset(Map(s, f))
  {
    if s != [] {
      SortMapPermutes(s[1..], key, f);
      InsertMapPermutes(s[0], SortDesc(s[1..], key), key, f);
      assert Map(s, f) == [f(s[0])] + Map(s[1..], f);
    }
  }

  /**
   * The order the sort produces depends only on the keys: lists that agree
   * position by position on the key and on a projection `g` are sorted into
   * lists that again agree position by position.
   */
  lemma {:induction false} InsertAgrees<T, U>(x: T, y: T, s: seq<T>, r: seq<T>, key: T -> real, g: T -> U)
    requires key(x) == key(y) && g(x) == g(y)
    requires |s| == |r| && forall i :: 0 <= i < |s| ==> key(s[i]) == key(r[i]) && g(s[i]) == g(r[i])
    ensures |Insert(x, s, key)| == |Insert(y, r, key)|
    ensures forall i :: 0 <= i < |Insert(x, s, key)| ==>
      key(Insert(x, s, key)[i]) == key(Insert(y, r, key)[i]) && g(Insert(x, s, key)[i]) == g(Insert(y, r, key)[i])
  {
    if s != [] && key(x) < key(s[0]) {
      InsertAgrees(x, y, s[1..], r[1..], key, g);
    }
  }

  lemma {:induction false} SortAgrees<T, U>(s: seq<T>, r: seq<T>, key: T -> real, g: T -> U)
    requires |s| == |r| && forall i :: 0 <= i < |s| ==> key(s[i]) == key(r[i]) && g(s[i]) == g(r[i])
    ensures |SortDesc(s, key)| == |SortDesc(r, key)|
    ensures forall i :: 0 <= i < |SortDesc(s, key)| ==>
      key(SortDesc(s, key)[i]) == key(SortDesc(r, key)[i]) && g(SortDesc(s, key)[i]) == g(SortDesc(r, key)[i])
  {
    if s != [] {
      SortAgrees(s[1..], r[1..], key, g);
      InsertAgrees(s[0], r[0], SortDesc(s[1..], key), SortDesc(r[1..], key), key, g);
    }
  }
}
