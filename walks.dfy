/** Routes through a directed graph given as out-lists, and the state of a
    breadth-first search over it. Both pathfinders of the passive tree search
    from a set of source nodes, treat a set of nodes as already visited, and
    stop as soon as the node being expanded lists the target among its
    out-neighbours. The predicates below describe what such a search knows
    after expanding a prefix of its queue; the lemmas turn that into "the
    route found is a shortest one" and "no route exists". */
module Walks {

  type Graph = map<int, seq<int>>

  /** The out-list of a node; a node without an entry has none. */
  function Succ(g: Graph, v: int): seq<int> {
    if v in g then g[v] else []
  }

  /** `p` leads from one of `sources` to its last node: its first node is an
      out-neighbour of a source, every later node an out-neighbour of the
      node before it, and no node of `p` is `blocked`. The source itself is
      not part of `p`, so `|p|` is the number of hops. */
  ghost predicate IsRoute(g: Graph, blocked: set<int>, sources: set<int>, p: seq<int>) {
    |p| > 0
    && (exists s :: s in sources && p[0] in Succ(g, s))
    && (forall i :: 0 <= i < |p| - 1 ==> p[i + 1] in Succ(g, p[i]))
    && (forall i :: 0 <= i < |p| ==> p[i] !in blocked)
  }

  ghost predicate IsRouteTo(g: Graph, blocked: set<int>, sources: set<int>, t: int, p: seq<int>) {
    IsRoute(g, blocked, sources, p) && p[|p| - 1] == t
  }

  /** No route leads to `t`. */
  ghost predicate NoRoute(g: Graph, blocked: set<int>, sources: set<int>, t: int) {
    forall p :: !IsRouteTo(g, blocked, sources, t, p)
  }

  /** `p` is a route to `t` with the fewest hops. */
  ghost predicate ShortestRoute(g: Graph, blocked: set<int>, sources: set<int>, t: int, p: seq<int>) {
    IsRouteTo(g, blocked, sources, t, p)
    && forall p' :: IsRouteTo(g, blocked, sources, t, p') ==> |p| <= |p'|
  }

  /** A route without its last node is a route to the node before it. */
  lemma RoutePrefix(g: Graph, blocked: set<int>, sources: set<int>, p: seq<int>)
    requires IsRoute(g, blocked, sources, p) && |p| > 1
    ensures IsRoute(g, blocked, sources, p[..|p| - 1])
    ensures p[|p| - 1] in Succ(g, p[|p| - 2])
  {
    var q := p[..|p| - 1];
    assert forall i :: 0 <= i < |q| ==> q[i] == p[i];
  }

  /** A route extended by an out-neighbour of its last node that is not
      blocked is a route. */
  lemma RouteExtend(g: Graph, blocked: set<int>, sources: set<int>, p: seq<int>, v: int)
    requires IsRoute(g, blocked, sources, p) && v in Succ(g, p[|p| - 1]) && v !in blocked
    ensures IsRoute(g, blocked, sources, p + [v])
  {
    var q := p + [v];
    assert q[0] == p[0];
    assert forall i :: 0 <= i < |p| ==> q[i] == p[i];
  }

  /** An unblocked out-neighbour of a source is a one-hop route. */
  lemma RouteStart(g: Graph, blocked: set<int>, sources: set<int>, s: int, v: int)
    requires s in sources && v in Succ(g, s) && v !in blocked
    ensures IsRoute(g, blocked, sources, [v])
  {
  }

  // ===== The search state =====

  /** The queue lists each discovered node with its depth `d`: depths never
      decrease along the queue and, from the head on, exceed the head's by
      at most one. `d` holds exactly the queued nodes. */
  ghost predicate Layered(q: seq<int>, d: map<int, nat>, h: nat) {
    h <= |q|
    && (forall i :: 0 <= i < |q| ==> q[i] in d)
    && (forall x :: x in d ==> x in q)
    && (forall i, j :: 0 <= i <= j < |q| ==> d[q[i]] <= d[q[j]])
    && (h < |q| ==> forall j :: h <= j < |q| ==> d[q[j]] <= d[q[h]] + 1)
  }

  /** Every expanded node (`q[..h]`) has had all its out-neighbours seen:
      each is blocked or queued at most one level deeper, and none is the
      target (the search would have stopped). */
  ghost predicate Closed(g: Graph, blocked: set<int>, t: int, q: seq<int>, d: map<int, nat>, h: nat)
    requires Layered(q, d, h)
  {
    forall i, v :: 0 <= i < h && v in Succ(g, q[i]) ==>
      v != t && (v in blocked || (v in d && d[v] <= d[q[i]] + 1))
  }

  /** The sources are queued at depth 0. */
  ghost predicate Seeded(sources: set<int>, d: map<int, nat>) {
    forall s :: s in sources ==> s in d && d[s] == 0
  }

  /** Every node reachable in at most as many hops as the head's depth is
      queued, at a depth no greater than its hop count. */
  ghost predicate Discovered(g: Graph, blocked: set<int>, sources: set<int>, q: seq<int>, d: map<int, nat>, h: nat)
    requires Layered(q, d, h)
  {
    h < |q| ==>
      forall p :: IsRoute(g, blocked, sources, p) && |p| <= d[q[h]] ==>
        p[|p| - 1] in d && d[p[|p| - 1]] <= |p|
  }

  /** The whole invariant of the search after expanding `q[..h]`. */
  ghost predicate Searching(g: Graph, blocked: set<int>, sources: set<int>, t: int, q: seq<int>, d: map<int, nat>, h: nat) {
    Layered(q, d, h) && Closed(g, blocked, t, q, d, h) && Seeded(sources, d)
    && Discovered(g, blocked, sources, q, d, h)
  }

  /** A queued node shallower than the head has been expanded. */
  lemma ShallowIsExpanded(q: seq<int>, d: map<int, nat>, h: nat, x: int) returns (i: nat)
    requires Layered(q, d, h) && h < |q| && x in d && d[x] < d[q[h]]
    ensures i < h && q[i] == x
  {
    assert forall j :: h <= j < |q| ==> d[q[h]] <= d[q[j]];
    i :| 0 <= i < |q| && q[i] == x;
  }

  /** A queued node no deeper than the node after the head has been
      expanded once the head has. */
  lemma NotDeeperIsExpanded(q: seq<int>, d: map<int, nat>, h: nat, x: int) returns (i: nat)
    requires Layered(q, d, h) && h + 1 < |q| && x in d && d[x] < d[q[h + 1]]
    ensures i <= h && q[i] == x
  {
    assert forall j :: h + 1 <= j < |q| ==> d[q[h + 1]] <= d[q[j]];
    i :| 0 <= i < |q| && q[i] == x;
  }

  /** Every route ends at a node whose predecessor (a source or the route's
      second-to-last node) is queued strictly shallower than the route's
      length, provided the shorter routes are discovered. */
  lemma Predecessor(g: Graph, blocked: set<int>, sources: set<int>, q: seq<int>, d: map<int, nat>, h: nat, p: seq<int>)
      returns (x: int)
    requires Layered(q, d, h) && Seeded(sources, d) && Discovered(g, blocked, sources, q, d, h)
    requires h < |q| && IsRoute(g, blocked, sources, p) && |p| <= d[q[h]] + 1
    ensures x in d && d[x] < |p| && p[|p| - 1] in Succ(g, x)
  {
    if |p| == 1 {
      var s :| s in sources && p[0] in Succ(g, s);
      x := s;
    } else {
      RoutePrefix(g, blocked, sources, p);
      var pre := p[..|p| - 1];
      assert |pre| <= d[q[h]] && pre[|pre| - 1] == p[|p| - 2];
      x := p[|p| - 2];
    }
  }

  /** Queuing an unseen, unblocked out-neighbour of the head one level
      deeper than the head keeps the search invariant. */
  lemma Enqueue(g: Graph, blocked: set<int>, sources: set<int>, t: int, q: seq<int>, d: map<int, nat>, h: nat,
                v: int, k: nat)
    requires Searching(g, blocked, sources, t, q, d, h) && h < |q|
    requires v !in d && q[h] in d && d[q[h]] == k
    ensures Searching(g, blocked, sources, t, q + [v], d[v := k + 1], h)
  {
    EnqueueLayered(q, d, h, v);
    EnqueueClosed(g, blocked, t, q, d, h, v);
    var q' := q + [v];
    var d' := d[v := d[q[h]] + 1];
    assert q'[h] == q[h];
  }

  lemma EnqueueClosed(g: Graph, blocked: set<int>, t: int, q: seq<int>, d: map<int, nat>, h: nat, v: int)
    requires Layered(q, d, h) && Closed(g, blocked, t, q, d, h) && h < |q| && v !in d
    requires Layered(q + [v], d[v := d[q[h]] + 1], h)
    ensures Closed(g, blocked, t, q + [v], d[v := d[q[h]] + 1], h)
  {
    var q' := q + [v];
    assert forall i :: 0 <= i < |q| ==> q'[i] == q[i];
  }

  lemma EnqueueLayered(q: seq<int>, d: map<int, nat>, h: nat, v: int)
    requires Layered(q, d, h) && h < |q| && v !in d
    ensures Layered(q + [v], d[v := d[q[h]] + 1], h)
  {
    var q' := q + [v];
    var d' := d[v := d[q[h]] + 1];
    assert forall i :: 0 <= i < |q| ==> q'[i] == q[i] && d'[q[i]] == d[q[i]];
    assert forall i :: 0 <= i < h ==> d[q[i]] <= d[q[h]];
    assert q'[|q|] == v;
  }

  /** Parent pointers of a search: each queued node other than a source
      points at the node whose expansion queued it, one level shallower,
      and is not blocked; every other queued node is a source at depth 0. */
  ghost predicate ParentsValid(g: Graph, blocked: set<int>, sources: set<int>, parent: map<int, int>, d: map<int, nat>) {
    (forall v :: v in parent ==>
      v in d && parent[v] in d && d[v] == d[parent[v]] + 1 && v in Succ(g, parent[v]) && v !in blocked)
    && (forall v :: v in d && v !in parent ==> d[v] == 0 && v in sources)
  }

  lemma EnqueueParent(g: Graph, blocked: set<int>, sources: set<int>, parent: map<int, int>, d: map<int, nat>,
                      u: int, v: int, k: nat)
    requires ParentsValid(g, blocked, sources, parent, d)
    requires u in d && d[u] == k && v !in d && v !in blocked && v in Succ(g, u)
    ensures ParentsValid(g, blocked, sources, parent[v := u], d[v := k + 1])
  {
  }

  /** Once every out-neighbour of the head has been seen, the head counts as
      expanded. */
  lemma CloseHead(g: Graph, blocked: set<int>, t: int, q: seq<int>, d: map<int, nat>, h: nat)
    requires Layered(q, d, h) && h < |q| && Closed(g, blocked, t, q, d, h)
    requires forall k :: 0 <= k < |Succ(g, q[h])| ==>
      Succ(g, q[h])[k] != t
      && (Succ(g, q[h])[k] in blocked || (Succ(g, q[h])[k] in d && d[Succ(g, q[h])[k]] <= d[q[h]] + 1))
    ensures Layered(q, d, h + 1) && Closed(g, blocked, t, q, d, h + 1)
  {
    if h + 1 < |q| {
      assert d[q[h]] <= d[q[h + 1]];
    }
    forall i, v | 0 <= i < h + 1 && v in Succ(g, q[i])
      ensures v != t && (v in blocked || (v in d && d[v] <= d[q[i]] + 1))
    {
      if i == h {
        var k :| 0 <= k < |Succ(g, q[h])| && Succ(g, q[h])[k] == v;
        assert Succ(g, q[h])[k] == v;
      } else {
        assert v in Succ(g, q[i]);
      }
    }
  }

  /** Moving the head forward keeps every route of at most the new head's
      depth discovered, once the old head has been expanded. */
  lemma AdvanceHead(g: Graph, blocked: set<int>, sources: set<int>, t: int, q: seq<int>, d: map<int, nat>, h: nat)
    requires Layered(q, d, h) && h < |q| && Layered(q, d, h + 1)
    requires Closed(g, blocked, t, q, d, h + 1) && Seeded(sources, d)
    requires Discovered(g, blocked, sources, q, d, h)
    ensures Discovered(g, blocked, sources, q, d, h + 1)
  {
    if h + 1 < |q| {
      forall p | IsRoute(g, blocked, sources, p) && |p| <= d[q[h + 1]]
        ensures p[|p| - 1] in d && d[p[|p| - 1]] <= |p|
      {
        if |p| > d[q[h]] {
          var x := Predecessor(g, blocked, sources, q, d, h, p);
          var i := NotDeeperIsExpanded(q, d, h, x);
          var v := p[|p| - 1];
          assert v in Succ(g, q[i]);
          assert v in blocked || (v in d && d[v] <= d[q[i]] + 1);
          assert v !in blocked;
        }
      }
    }
  }

  /** When the head lists the target, every route to the target has more
      hops than the head's depth. */
  lemma FoundIsShortest(g: Graph, blocked: set<int>, sources: set<int>, t: int, q: seq<int>, d: map<int, nat>, h: nat)
    requires Searching(g, blocked, sources, t, q, d, h) && h < |q|
    ensures forall p :: IsRouteTo(g, blocked, sources, t, p) ==> |p| >= d[q[h]] + 1
  {
    forall p | IsRouteTo(g, blocked, sources, t, p)
      ensures |p| >= d[q[h]] + 1
    {
      if |p| <= d[q[h]] {
        var x := Predecessor(g, blocked, sources, q, d, h, p);
        var i := ShallowIsExpanded(q, d, h, x);
        assert false;
      }
    }
  }

  /** Once the queue is exhausted, every route ends at a queued node. */
  lemma {:induction false} ExhaustedRoutesAreQueued(g: Graph, blocked: set<int>, sources: set<int>, t: int,
                                                     q: seq<int>, d: map<int, nat>, p: seq<int>)
    requires Layered(q, d, |q|) && Closed(g, blocked, t, q, d, |q|) && Seeded(sources, d)
    requires IsRoute(g, blocked, sources, p)
    ensures p[|p| - 1] in d && p[|p| - 1] != t
    decreases |p|
  {
    var x: int;
    if |p| == 1 {
      var s :| s in sources && p[0] in Succ(g, s);
      x := s;
    } else {
      RoutePrefix(g, blocked, sources, p);
      ExhaustedRoutesAreQueued(g, blocked, sources, t, q, d, p[..|p| - 1]);
      x := p[|p| - 2];
      assert p[..|p| - 1][|p| - 2] == x;
    }
    assert x in q;
    var i :| 0 <= i < |q| && q[i] == x;
    var v := p[|p| - 1];
    assert v in Succ(g, q[i]);
    assert v != t && (v in blocked || v in d);
    assert v !in blocked;
  }

  /** Once the queue is exhausted without meeting the target, no route
      leads to it. */
  lemma ExhaustedMeansUnreachable(g: Graph, blocked: set<int>, sources: set<int>, t: int, q: seq<int>, d: map<int, nat>)
    requires Layered(q, d, |q|) && Closed(g, blocked, t, q, d, |q|) && Seeded(sources, d)
    ensures forall p :: !IsRouteTo(g, blocked, sources, t, p)
  {
    forall p | IsRoute(g, blocked, sources, p)
      ensures p[|p| - 1] != t
    {
      ExhaustedRoutesAreQueued(g, blocked, sources, t, q, d, p);
    }
  }
}
