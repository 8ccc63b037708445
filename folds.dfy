// Generic shapes of the analysers' loops: nested loops that append what
// each (inner, outer) pair yields, and running products and sums over a
// list. Their facts are proved once here, for any per-element function.

module Folds {
  /** What the inner loop over `ps` appends for one outer element `t`. */
  function InnerResults<P, T, R>(ps: seq<P>, t: T, f: (P, T) -> seq<R>): seq<R> {
    if |ps| == 0 then [] else InnerResults(ps[..|ps| - 1], t, f) + f(ps[|ps| - 1], t)
  }

  /** What the nested loops append: outer loop over `ts`, inner over `ps`. */
  function PairResults<P, T, R>(ps: seq<P>, ts: seq<T>, f: (P, T) -> seq<R>): seq<R> {
    if |ts| == 0 then [] else PairResults(ps, ts[..|ts| - 1], f) + InnerResults(ps, ts[|ts| - 1], f)
  }

  lemma InnerStep<P, T, R>(ps: seq<P>, j: nat, t: T, f: (P, T) -> seq<R>)
    requires j < |ps|
    ensures InnerResults(ps[..j + 1], t, f) == InnerResults(ps[..j], t, f) + f(ps[j], t)
  {
    assert ps[..j + 1][..j] == ps[..j];
  }

  lemma PairStep<P, T, R>(ps: seq<P>, ts: seq<T>, i: nat, f: (P, T) -> seq<R>)
    requires i < |ts|
    ensures PairResults(ps, ts[..i + 1], f) == PairResults(ps, ts[..i], f) + InnerResults(ps, ts[i], f)
  {
    assert ts[..i + 1][..i] == ts[..i];
  }

  lemma {:induction false} InnerMembers<P, T, R>(ps: seq<P>, t: T, f: (P, T) -> seq<R>, x: R)
    ensures x in InnerResults(ps, t, f) <==> exists j :: 0 <= j < |ps| && x in f(ps[j], t)
  {
    if |ps| > 0 {
      var n := |ps| - 1;
      var init := ps[..n];
      InnerMembers(init, t, f, x);
      assert InnerResults(ps, t, f) == InnerResults(init, t, f) + f(ps[n], t);
      if x in InnerResults(init, t, f) {
        var j :| 0 <= j < |init| && x in f(init[j], t);
        assert ps[j] == init[j];
      }
      if exists j :: 0 <= j < |ps| && x in f(ps[j], t) {
        var j :| 0 <= j < |ps| && x in f(ps[j], t);
        if j < n {
          assert init[j] == ps[j];
          assert x in InnerResults(init, t, f);
        }
      }
    }
  }

  /** An element is appended exactly when some pair yields it. */
  lemma {:induction false} PairMembers<P, T, R>(ps: seq<P>, ts: seq<T>, f: (P, T) -> seq<R>, x: R)
    ensures x in PairResults(ps, ts, f) <==> exists i, j :: 0 <= i < |ts| && 0 <= j < |ps| && x in f(ps[j], ts[i])
  {
    if |ts| > 0 {
      var n := |ts| - 1;
      var init := ts[..n];
      PairMembers(ps, init, f, x);
      InnerMembers(ps, ts[n], f, x);
      assert PairResults(ps, ts, f) == PairResults(ps, init, f) + InnerResults(ps, ts[n], f);
      if x in PairResults(ps, init, f) {
        var i, j :| 0 <= i < |init| && 0 <= j < |ps| && x in f(ps[j], init[i]);
        assert ts[i] == init[i];
        assert 0 <= i < |ts| && 0 <= j < |ps| && x in f(ps[j], ts[i]);
      } else if x in InnerResults(ps, ts[n], f) {
        var j :| 0 <= j < |ps| && x in f(ps[j], ts[n]);
        assert 0 <= n < |ts| && 0 <= j < |ps| && x in f(ps[j], ts[n]);
      }
      if exists i, j :: 0 <= i < |ts| && 0 <= j < |ps| && x in f(ps[j], ts[i]) {
        var i, j :| 0 <= i < |ts| && 0 <= j < |ps| && x in f(ps[j], ts[i]);
        if i < n {
          assert init[i] == ts[i];
          assert x in PairResults(ps, init, f);
        } else {
          assert x in InnerResults(ps, ts[n], f);
        }
      }
    }
  }

  /** The product of `f` over `s`. */
  function Product<T>(s: seq<T>, f: T -> real): real {
    if |s| == 0 then 1.0 else Product(s[..|s| - 1], f) * f(s[|s| - 1])
  }

  /** The sum of `f` over `s`. */
  function Sum<T>(s: seq<T>, f: T -> real): real {
    if |s| == 0 then 0.0 else Sum(s[..|s| - 1], f) + f(s[|s| - 1])
  }

  lemma ProductStep<T>(s: seq<T>, i: nat, f: T -> real)
    requires i < |s|
    ensures Product(s[..i + 1], f) == Product(s[..i], f) * f(s[i])
    ensures Sum(s[..i + 1], f) == Sum(s[..i], f) + f(s[i])
  {
    assert s[..i + 1][..i] == s[..i];
  }

  function Without<T>(s: seq<T>, i: nat): seq<T>
    requires i < |s|
  {
    s[..i] + s[i + 1..]
  }

  lemma {:induction false} RemoveOne<T>(s: seq<T>, i: nat, f: T -> real)
    requires i < |s|
    ensures Product(s, f) == Product(Without(s, i), f) * f(s[i])
    ensures Sum(s, f) == Sum(Without(s, i), f) + f(s[i])
  {
    var n := |s| - 1;
    var init := s[..n];
    if i == n {
      assert Without(s, i) == init;
    } else {
      RemoveOne(init, i, f);
      var w := Without(s, i);
      assert w[..|w| - 1] == Without(init, i) && w[|w| - 1] == s[n];
      var a, x, y := Product(Without(init, i), f), f(s[i]), f(s[n]);
      assert Product(s, f) == Product(init, f) * y;
      assert Product(w, f) == a * y;
      Swap(a, x, y);
    }
  }

  /** Removing the last element of `a` and an equal element of `b` keeps
      the two lists permutations of each other. */
  lemma LastRemoved<T>(a: seq<T>, b: seq<T>, i: nat)
    requires multiset(a) == multiset(b) && |a| > 0 && i < |b| && b[i] == a[|a| - 1]
    ensures multiset(a[..|a| - 1]) == multiset(Without(b, i))
  {
    var n := |a| - 1;
    var x := a[n];
    assert a == a[..n] + [x];
    assert b == b[..i] + [x] + b[i + 1..];
    var left := multiset(a[..n]);
    var right := multiset(Without(b, i));
    assert multiset(a) == left + multiset{x};
    assert multiset(b) == multiset(b[..i]) + multiset{x} + multiset(b[i + 1..]);
    assert right == multiset(b[..i]) + multiset(b[i + 1..]);
    forall y
      ensures left[y] == right[y]
    {
      assert multiset(a)[y] == left[y] + multiset{x}[y];
      assert multiset(b)[y] == right[y] + multiset{x}[y];
    }
  }

  lemma Swap(a: real, x: real, y: real)
    ensures a * x * y == a * y * x
  {
  }

  /** Products and sums do not depend on the order of the elements. */
  lemma {:induction false} Reordered<T>(a: seq<T>, b: seq<T>, f: T -> real)
    requires multiset(a) == multiset(b)
    ensures Product(a, f) == Product(b, f) && Sum(a, f) == Sum(b, f)
    decreases |a|
  {
    if |a| > 0 {
      var n := |a| - 1;
      var x := a[n];
      assert x in multiset(b);
      var i :| 0 <= i < |b| && b[i] == x;
      LastRemoved(a, b, i);
      Reordered(a[..n], Without(b, i), f);
      RemoveOne(b, i, f);
    } else {
      assert |b| == |multiset(b)| == 0;
    }
  }

  /** The elements `keep` accepts, in order. */
  function Filter<T>(s: seq<T>, keep: T -> bool): seq<T> {
    if |s| == 0 then [] else Filter(s[..|s| - 1], keep) + (if keep(s[|s| - 1]) then [s[|s| - 1]] else [])
  }

  lemma {:induction false} FilterMembers<T>(s: seq<T>, keep: T -> bool, x: T)
    ensures x in Filter(s, keep) <==> x in s && keep(x)
  {
    if |s| > 0 {
      var n := |s| - 1;
      FilterMembers(s[..n], keep, x);
      assert s == s[..n] + [s[n]];
    }
  }

  /** Dropping elements whose factor is 1 leaves the product unchanged. */
  lemma {:induction false} FilterProduct<T>(s: seq<T>, keep: T -> bool, f: T -> real)
    requires forall i :: 0 <= i < |s| && !keep(s[i]) ==> f(s[i]) == 1.0
    ensures Product(Filter(s, keep), f) == Product(s, f)
  {
    if |s| > 0 {
      var n := |s| - 1;
      var init := s[..n];
      var c := Filter(init, keep);
      FilterProduct(init, keep, f);
      if keep(s[n]) {
        var d := c + [s[n]];
        assert Filter(s, keep) == d;
        assert d[..|d| - 1] == c;
        assert Product(d, f) == Product(c, f) * f(s[n]);
      } else {
        assert Filter(s, keep) == c + [] == c;
        assert f(s[n]) == 1.0;
      }
    }
  }

  /** Dropping elements whose term is 0 leaves the sum unchanged. */
  lemma {:induction false} FilterSum<T>(s: seq<T>, keep: T -> bool, f: T -> real)
    requires forall i :: 0 <= i < |s| && !keep(s[i]) ==> f(s[i]) == 0.0
    ensures Sum(Filter(s, keep), f) == Sum(s, f)
  {
    if |s| > 0 {
      var n := |s| - 1;
      var init := s[..n];
      var c := Filter(init, keep);
      FilterSum(init, keep, f);
      if keep(s[n]) {
        var d := c + [s[n]];
        assert Filter(s, keep) == d;
        assert d[..|d| - 1] == c;
        assert Sum(d, f) == Sum(c, f) + f(s[n]);
      } else {
        assert Filter(s, keep) == c + [] == c;
        assert f(s[n]) == 0.0;
      }
    }
  }
}
