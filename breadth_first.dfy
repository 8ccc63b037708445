/** The bookkeeping of the breadth-first search the passive-tree path
    finder runs, on top of the route theory of `Walks`: the search state it
    keeps between steps and one lemma per step that carries the state
    forward, so that the search loops need only call them. */
module BreadthFirst {
  import opened Walks
  import Seqs

  /** The set of every node some out-list names. */
  function Listed(g: Graph): set<int> {
    set k, v | k in g && v in g[k] :: v
  }

  /** Taking one more node out of the unvisited part of a finite set. */
  lemma VisitOne(nodes: set<int>, visited: set<int>, x: int)
    requires x in nodes && x !in visited
    ensures |nodes - (visited + {x})| == |nodes - visited| - 1
  {
    var rest := nodes - (visited + {x});
    assert nodes - visited == rest + {x};
  }

  /** What the search knows after expanding `queue[..h]` (see `Walks`),
      together with its bookkeeping: `visited` is the allocated nodes plus
      the queued ones, the target is never queued, and `nodes`, a finite
      set holding every node some out-list names, holds every queued node
      that is not allocated. */
  ghost predicate SearchState(g: Graph, allocatedNodes: set<int>, sources: set<int>, target: int, nodes: set<int>,
                              queue: seq<int>, d: map<int, nat>, h: nat, parent: map<int, int>, visited: set<int>)
  {
    Searching(g, allocatedNodes, sources, target, queue, d, h)
    && ParentsValid(g, allocatedNodes, sources, parent, d)
    && (forall x :: x in visited <==> x in allocatedNodes || x in d)
    && target !in d
    && Listed(g) <= nodes
    && (forall x :: x in d && x !in allocatedNodes ==> x in nodes)
  }

  /** The out-neighbours before position `j` have been seen: none is the
      target, and each is allocated or queued at most one level deeper. */
  ghost predicate SeenUpTo(neighbors: seq<int>, j: nat, target: int, allocatedNodes: set<int>, d: map<int, nat>, depth: nat) {
    j <= |neighbors|
    && forall k :: 0 <= k < j ==>
      (neighbors[k] != target && (neighbors[k] in allocatedNodes || (neighbors[k] in d && d[neighbors[k]] <= depth + 1)))
  }


  lemma HeadDepth(g: Graph, allocatedNodes: set<int>, sources: set<int>, target: int, nodes: set<int>,
                  queue: seq<int>, d: map<int, nat>, h: nat, parent: map<int, int>, visited: set<int>)
      returns (depth: nat)
    requires SearchState(g, allocatedNodes, sources, target, nodes, queue, d, h, parent, visited) && h < |queue|
    ensures queue[h] in d && d[queue[h]] == depth
    ensures SeenUpTo(Succ(g, queue[h]), 0, target, allocatedNodes, d, depth)
  {
    depth := d[queue[h]];
  }

  lemma EnqueueStep(g: Graph, allocatedNodes: set<int>, sources: set<int>, target: int, nodes: set<int>,
                    queue: seq<int>, d: map<int, nat>, h: nat, parent: map<int, int>, visited: set<int>,
                    current: int, depth: nat, neighbors: seq<int>, j: nat)
    requires SearchState(g, allocatedNodes, sources, target, nodes, queue, d, h, parent, visited)
    requires h < |queue| && queue[h] == current && current in d && d[current] == depth
    requires neighbors == Succ(g, current) && j < |neighbors|
    requires neighbors[j] != target && neighbors[j] !in visited
    ensures SearchState(g, allocatedNodes, sources, target, nodes, queue + [neighbors[j]],
                        d[neighbors[j] := depth + 1], h, parent[neighbors[j] := current], visited + {neighbors[j]})
  {
    var v := neighbors[j];
    Enqueue(g, allocatedNodes, sources, target, queue, d, h, v, depth);
    EnqueueParent(g, allocatedNodes, sources, parent, d, current, v, depth);
    EnqueueBookkeeping(g, allocatedNodes, target, nodes, d, visited, current, v, depth);
  }

  /** What queueing a neighbour of the head does to the head, to the seen
      part of its out-list and to the count of unvisited nodes. */
  lemma EnqueueProgress(g: Graph, allocatedNodes: set<int>, sources: set<int>, target: int, nodes: set<int>,
                        queue: seq<int>, d: map<int, nat>, h: nat, parent: map<int, int>, visited: set<int>,
                        current: int, depth: nat, neighbors: seq<int>, j: nat)
    requires SearchState(g, allocatedNodes, sources, target, nodes, queue, d, h, parent, visited)
    requires h < |queue| && queue[h] == current && current in d && d[current] == depth
    requires neighbors == Succ(g, current) && j < |neighbors|
    requires SeenUpTo(neighbors, j, target, allocatedNodes, d, depth)
    requires neighbors[j] != target && neighbors[j] !in visited
    ensures SeenUpTo(neighbors, j + 1, target, allocatedNodes, d[neighbors[j] := depth + 1], depth)
    ensures |nodes - (visited + {neighbors[j]})| + |queue + [neighbors[j]]| == |nodes - visited| + |queue|
    ensures (queue + [neighbors[j]])[h] == current && d[neighbors[j] := depth + 1][current] == depth
  {
    var v := neighbors[j];
    assert v !in d;
    assert current in g && v in g[current];
    VisitOne(nodes, visited, v);
    SeenOneMore(neighbors, j, target, allocatedNodes, d, depth);
  }

  lemma EnqueueBookkeeping(g: Graph, allocatedNodes: set<int>, target: int, nodes: set<int>,
                           d: map<int, nat>, visited: set<int>, u: int, v: int, k: nat)
    requires forall x :: x in visited <==> x in allocatedNodes || x in d
    requires target !in d && Listed(g) <= nodes
    requires forall x :: x in d && x !in allocatedNodes ==> x in nodes
    requires u in d && v in Succ(g, u) && v != target && v !in visited
    ensures forall x :: x in visited + {v} <==> x in allocatedNodes || x in d[v := k + 1]
    ensures target !in d[v := k + 1]
    ensures forall x :: x in d[v := k + 1] && x !in allocatedNodes ==> x in nodes
  {
    assert u in g && v in g[u];
    assert v in nodes;
    VisitOne(nodes, visited, v);
  }

  /** Seeing a newly queued neighbour one level below the head. */
  lemma SeenOneMore(neighbors: seq<int>, j: nat, target: int, allocatedNodes: set<int>, d: map<int, nat>, depth: nat)
    requires SeenUpTo(neighbors, j, target, allocatedNodes, d, depth) && j < |neighbors|
    requires neighbors[j] != target && neighbors[j] !in d
    ensures SeenUpTo(neighbors, j + 1, target, allocatedNodes, d[neighbors[j] := depth + 1], depth)
  {
  }

  lemma SkipStep(g: Graph, allocatedNodes: set<int>, sources: set<int>, target: int, nodes: set<int>,
                 queue: seq<int>, d: map<int, nat>, h: nat, parent: map<int, int>, visited: set<int>,
                 current: int, depth: nat, neighbors: seq<int>, j: nat)
    requires SearchState(g, allocatedNodes, sources, target, nodes, queue, d, h, parent, visited)
    requires h < |queue| && queue[h] == current && current in d && d[current] == depth
    requires neighbors == Succ(g, current) && j < |neighbors|
    requires SeenUpTo(neighbors, j, target, allocatedNodes, d, depth)
    requires neighbors[j] != target && neighbors[j] in visited
    ensures SeenUpTo(neighbors, j + 1, target, allocatedNodes, d, depth)
  {
    var v := neighbors[j];
    if v !in allocatedNodes {
      assert v in d;
      var i :| 0 <= i < |queue| && queue[i] == v;
      assert Layered(queue, d, h);
      if i >= h {
        assert d[queue[i]] <= d[queue[h]] + 1;
      } else {
        assert d[queue[i]] <= d[queue[h]];
      }
    }
  }

  lemma AdvanceStep(g: Graph, allocatedNodes: set<int>, sources: set<int>, target: int, nodes: set<int>,
                    queue: seq<int>, d: map<int, nat>, h: nat, parent: map<int, int>, visited: set<int>)
    requires SearchState(g, allocatedNodes, sources, target, nodes, queue, d, h, parent, visited)
    requires h < |queue| && queue[h] in d
    requires SeenUpTo(Succ(g, queue[h]), |Succ(g, queue[h])|, target, allocatedNodes, d, d[queue[h]])
    ensures SearchState(g, allocatedNodes, sources, target, nodes, queue, d, h + 1, parent, visited)
  {
    CloseHead(g, allocatedNodes, target, queue, d, h);
    AdvanceHead(g, allocatedNodes, sources, target, queue, d, h);
  }

  lemma FoundStep(g: Graph, allocatedNodes: set<int>, sources: set<int>, target: int, nodes: set<int>,
                  queue: seq<int>, d: map<int, nat>, h: nat, parent: map<int, int>, visited: set<int>)
    requires SearchState(g, allocatedNodes, sources, target, nodes, queue, d, h, parent, visited) && h < |queue|
    ensures queue[h] in d && ParentsValid(g, allocatedNodes, sources, parent, d)
    ensures forall p :: IsRouteTo(g, allocatedNodes, sources, target, p) ==> |p| >= d[queue[h]] + 1
  {
    FoundIsShortest(g, allocatedNodes, sources, target, queue, d, h);
  }

  lemma ExhaustedStep(g: Graph, allocatedNodes: set<int>, sources: set<int>, target: int, nodes: set<int>,
                      queue: seq<int>, d: map<int, nat>, h: nat, parent: map<int, int>, visited: set<int>)
    requires SearchState(g, allocatedNodes, sources, target, nodes, queue, d, h, parent, visited) && h >= |queue|
    ensures NoRoute(g, allocatedNodes, sources, target)
  {
    ExhaustedMeansUnreachable(g, allocatedNodes, sources, target, queue, d);
  }

  /** A path being built backwards: its first node is the target, each
      node is an out-neighbour of the one after it, the last node an
      out-neighbour of `current`, and none is blocked. */
  ghost predicate BackChain(g: Graph, blocked: set<int>, d: map<int, nat>, reversed: seq<int>, current: int) {
    current in d
    && |reversed| >= 1
    && reversed[|reversed| - 1] in Succ(g, current)
    && (forall i :: 0 <= i < |reversed| - 1 ==> reversed[i] in Succ(g, reversed[i + 1]))
    && (forall i :: 0 <= i < |reversed| ==> reversed[i] !in blocked)
  }

  lemma ChainStep(g: Graph, blocked: set<int>, sources: set<int>, parent: map<int, int>, d: map<int, nat>,
                  reversed: seq<int>, current: int)
    requires ParentsValid(g, blocked, sources, parent, d) && BackChain(g, blocked, d, reversed, current)
    requires current in parent
    ensures BackChain(g, blocked, d, reversed + [current], parent[current])
    ensures d[parent[current]] + 1 == d[current]
  {
    var r := reversed + [current];
    assert forall i :: 0 <= i < |reversed| ==> r[i] == reversed[i];
  }

  lemma ChainIsRoute(g: Graph, blocked: set<int>, sources: set<int>, parent: map<int, int>, d: map<int, nat>,
                     reversed: seq<int>, current: int)
    requires ParentsValid(g, blocked, sources, parent, d) && BackChain(g, blocked, d, reversed, current)
    requires current !in parent
    ensures d[current] == 0
    ensures IsRoute(g, blocked, sources, Seqs.Reverse(reversed))
  {
    var path := Seqs.Reverse(reversed);
    assert path[0] in Succ(g, current);
    forall i | 0 <= i < |path| - 1
      ensures path[i + 1] in Succ(g, path[i])
    {
      assert path[i] == reversed[|path| - 1 - i] && path[i + 1] == reversed[|path| - 2 - i];
    }
    forall i | 0 <= i < |path|
      ensures path[i] !in blocked
    {
      assert path[i] == reversed[|path| - 1 - i];
    }
  }

}
