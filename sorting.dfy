/** Python's `list.sort(key=...)`: a stable sort by a tuple key compared
    lexicographically. Keys here have at most three numeric components;
    shorter Python keys are padded with zeros, which does not change the
    order. `reverse=True` on a one-component key is the same stable sort
    on the negated component. */
module Sorting {

  datatype Key = Key(major: real, middle: real, minor: real)

  /** Lexicographic order on keys, as Python compares tuples. */
  predicate KeyLe(a: Key, b: Key) {
    a.major < b.major
    || (a.major == b.major && (a.middle < b.middle || (a.middle == b.middle && a.minor <= b.minor)))
  }

  lemma KeyLeTotal(a: Key, b: Key)
    ensures KeyLe(a, b) || KeyLe(b, a)
    ensures KeyLe(a, b) && KeyLe(b, a) ==> a == b
  {
  }

  lemma KeyLeTransitive(a: Key, b: Key, c: Key)
    requires KeyLe(a, b) && KeyLe(b, c)
    ensures KeyLe(a, c)
  {
  }

  predicate SortedBy<T>(s: seq<T>, key: T -> Key) {
    forall i, j :: 0 <= i < j < |s| ==> KeyLe(key(s[i]), key(s[j]))
  }

  /** Places `x` before the first element whose key is strictly greater, so
      that it follows every element with an equal key. */
  function Insert<T>(x: T, s: seq<T>, key: T -> Key): (r: seq<T>)
    ensures |r| == |s| + 1
  {
    if |s| == 0 then [x]
    else if !KeyLe(key(s[0]), key(x)) then [x] + s
    else [s[0]] + Insert(x, s[1..], key)
  }

  function SortBy<T>(xs: seq<T>, key: T -> Key): (r: seq<T>)
    ensures |r| == |xs|
  {
    if |xs| == 0 then [] else Insert(xs[|xs| - 1], SortBy(xs[..|xs| - 1], key), key)
  }

  lemma {:induction false} InsertPermutes<T>(x: T, s: seq<T>, key: T -> Key)
    ensures multiset(Insert(x, s, key)) == multiset(s) + multiset{x}
  {
    if |s| > 0 && KeyLe(key(s[0]), key(x)) {
      InsertPermutes(x, s[1..], key);
      assert s == [s[0]] + s[1..];
    }
  }

  lemma {:induction false} InsertSorted<T>(x: T, s: seq<T>, key: T -> Key)
    requires SortedBy(s, key)
    ensures SortedBy(Insert(x, s, key), key)
  {
    if |s| > 0 {
      KeyLeTotal(key(s[0]), key(x));
      if KeyLe(key(s[0]), key(x)) {
        InsertSorted(x, s[1..], key);
        InsertPermutes(x, s[1..], key);
        var r := Insert(x, s, key);
        var tail := Insert(x, s[1..], key);
        forall j | 0 < j < |r| ensures KeyLe(key(r[0]), key(r[j])) {
          assert r[j] == tail[j - 1];
          assert r[j] in multiset(tail);
          if r[j] != x {
            assert r[j] in multiset(s[1..]);
            var k :| 0 <= k < |s[1..]| && s[1..][k] == r[j];
            assert s[k + 1] == r[j];
          }
        }
      } else {
        forall j | 0 < j < |s| ensures KeyLe(key(x), key(s[j])) {
          KeyLeTransitive(key(x), key(s[0]), key(s[j]));
        }
      }
    }
  }

  /** The sort permutes its input into key order. */
  lemma {:induction false} SortBySortsAndPermutes<T>(xs: seq<T>, key: T -> Key)
    ensures SortedBy(SortBy(xs, key), key)
    ensures multiset(SortBy(xs, key)) == multiset(xs)
  {
    if |xs| > 0 {
      var init := xs[..|xs| - 1];
      SortBySortsAndPermutes(init, key);
      InsertSorted(xs[|xs| - 1], SortBy(init, key), key);
      InsertPermutes(xs[|xs| - 1], SortBy(init, key), key);
      assert xs == init + [xs[|xs| - 1]];
    }
  }

  /** The elements whose key is `k`, in their order. */
  function WithKey<T>(s: seq<T>, key: T -> Key, k: Key): (r: seq<T>)
    ensures |r| <= |s|
  {
    if |s| == 0 then []
    else WithKey(s[..|s| - 1], key, k) + (if key(s[|s| - 1]) == k then [s[|s| - 1]] else [])
  }

  lemma {:induction false} WithKeyPrepend<T>(x: T, s: seq<T>, key: T -> Key, k: Key)
    ensures WithKey([x] + s, key, k) == (if key(x) == k then [x] else []) + WithKey(s, key, k)
    decreases |s|
  {
    if |s| > 0 {
      var last := s[|s| - 1];
      assert ([x] + s)[..|s|] == [x] + s[..|s| - 1];
      WithKeyPrepend(x, s[..|s| - 1], key, k);
    } else {
      assert ([x] + s)[..0] == [];
    }
  }

  /** In a sorted list, inserting `x` puts it after every element sharing
      its key, so the elements of each key keep their order. */
  lemma {:induction false} InsertStable<T>(x: T, s: seq<T>, key: T -> Key, k: Key)
    requires SortedBy(s, key)
    ensures WithKey(Insert(x, s, key), key, k) == WithKey(s, key, k) + (if key(x) == k then [x] else [])
  {
    if |s| == 0 {
      WithKeyPrepend(x, [], key, k);
    } else if !KeyLe(key(s[0]), key(x)) {
      WithKeyPrepend(x, s, key, k);
      if key(x) == k {
        GreaterHasNoKey(x, s, key);
        NoneWithKey(s, key, k);
      }
    } else {
      InsertStable(x, s[1..], key, k);
      InsertStableStep(x, s, key, k);
    }
  }

  lemma InsertStableStep<T>(x: T, s: seq<T>, key: T -> Key, k: Key)
    requires |s| > 0 && KeyLe(key(s[0]), key(x))
    requires WithKey(Insert(x, s[1..], key), key, k) == WithKey(s[1..], key, k) + (if key(x) == k then [x] else [])
    ensures WithKey(Insert(x, s, key), key, k) == WithKey(s, key, k) + (if key(x) == k then [x] else [])
  {
    assert s == [s[0]] + s[1..];
    WithKeyPrepend(s[0], Insert(x, s[1..], key), key, k);
    WithKeyPrepend(s[0], s[1..], key, k);
  }

  /** Every element of a sorted list that starts above `x` is above `x`. */
  lemma GreaterHasNoKey<T>(x: T, s: seq<T>, key: T -> Key)
    requires SortedBy(s, key) && |s| > 0 && !KeyLe(key(s[0]), key(x))
    ensures forall i :: 0 <= i < |s| ==> key(s[i]) != key(x)
  {
    forall i | 0 < i < |s| ensures key(s[i]) != key(x) {
      assert KeyLe(key(s[0]), key(s[i]));
    }
  }

  lemma {:induction false} NoneWithKey<T>(s: seq<T>, key: T -> Key, k: Key)
    requires forall i :: 0 <= i < |s| ==> key(s[i]) != k
    ensures WithKey(s, key, k) == []
  {
    if |s| > 0 {
      NoneWithKey(s[..|s| - 1], key, k);
    }
  }

  /** The sort is stable: the elements of each key appear in input order. */
  lemma {:induction false} SortByStable<T>(xs: seq<T>, key: T -> Key, k: Key)
    ensures WithKey(SortBy(xs, key), key, k) == WithKey(xs, key, k)
  {
    if |xs| > 0 {
      var init := xs[..|xs| - 1];
      SortByStable(init, key, k);
      SortBySortsAndPermutes(init, key);
      InsertStable(xs[|xs| - 1], SortBy(init, key), key, k);
    }
  }

  /** Python's `s[:n]`, including a negative `n`, which drops that many
      elements from the end. */
  function Take<T>(s: seq<T>, n: int): (r: seq<T>)
    ensures n >= 0 ==> |r| == if n < |s| then n else |s|
    ensures n < 0 ==> |r| == if |s| + n > 0 then |s| + n else 0
    ensures forall i :: 0 <= i < |r| ==> r[i] == s[i]
  {
    if n >= 0 then (if n < |s| then s[..n] else s)
    else (if |s| + n > 0 then s[..|s| + n] else [])
  }

  /** A prefix of a sorted list is sorted. */
  lemma TakeSorted<T>(s: seq<T>, n: int, key: T -> Key)
    requires SortedBy(s, key)
    ensures SortedBy(Take(s, n), key)
  {
    var r := Take(s, n);
    forall i, j | 0 <= i < j < |r| ensures KeyLe(key(r[i]), key(r[j])) {
      assert r[i] == s[i] && r[j] == s[j];
    }
  }
}
