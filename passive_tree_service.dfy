/** The passive-tree service: a node map read from the tree export, node
    lookups with a default record, and a single-source breadth-first search
    run once per allocated start, the shortest result winning. Unlike the
    path finder of `PassiveTreeAnalyzer`, each search starts from one node,
    carries the whole path in its queue and blocks no node. */
module TreeService {
  import opened Wrappers
  import opened Walks
  import opened BreadthFirst
  import opened Sorting
  import Text
  import Seqs
  import PassiveTreeAnalyzer

  // ===== Node records =====

  /** The `type` field of a node record. */
  datatype ServiceNodeType = NormalNode | KeystoneNode | NotableNode | MasteryNode | JewelSocketNode | UnknownNode

  datatype NodeInfo = NodeInfo(
    id: int,
    name: string,
    stats: seq<string>,
    nodeType: ServiceNodeType,
    isKeystone: bool,
    isNotable: bool,
    isMastery: bool,
    isJewelSocket: bool,
    icon: string,
    flavourText: seq<string>,
    out: seq<int>)

  type RawNode = PassiveTreeAnalyzer.RawNode

  /** Keystone, notable and mastery flags are read under their short names
      first, then their long names. */
  function TypeOf(raw: RawNode): (t: ServiceNodeType)
    ensures t != UnknownNode
  {
    if PassiveTreeAnalyzer.Flag(raw.ks, raw.isKeystone) then KeystoneNode
    else if PassiveTreeAnalyzer.Flag(raw.notable, raw.isNotable) then NotableNode
    else if PassiveTreeAnalyzer.Flag(raw.mastery, raw.isMastery) then MasteryNode
    else if raw.isJewelSocket == Some(true) then JewelSocketNode
    else NormalNode
  }

  /** The service types a node with the precedence keystone, notable,
      mastery, jewel socket, normal. It agrees with the analyzer's
      classification on the four flagged types and calls "normal" exactly
      what the analyzer calls an ascendancy node or a small passive. */
  lemma TypePrecedence(raw: RawNode)
    ensures TypeOf(raw) == KeystoneNode <==> PassiveTreeAnalyzer.Flag(raw.ks, raw.isKeystone)
    ensures TypeOf(raw) == NotableNode <==>
      !PassiveTreeAnalyzer.Flag(raw.ks, raw.isKeystone) && PassiveTreeAnalyzer.Flag(raw.notable, raw.isNotable)
    ensures TypeOf(raw) == MasteryNode <==>
      !PassiveTreeAnalyzer.Flag(raw.ks, raw.isKeystone) && !PassiveTreeAnalyzer.Flag(raw.notable, raw.isNotable)
      && PassiveTreeAnalyzer.Flag(raw.mastery, raw.isMastery)
    ensures TypeOf(raw) == JewelSocketNode <==> PassiveTreeAnalyzer.ClassifyNodeType(raw) == PassiveTreeAnalyzer.JewelSocket
    ensures TypeOf(raw) == NormalNode <==>
      PassiveTreeAnalyzer.ClassifyNodeType(raw) in {PassiveTreeAnalyzer.Ascendancy, PassiveTreeAnalyzer.SmallPassive}
  {
  }

  function MakeInfo(id: int, raw: RawNode): NodeInfo {
    NodeInfo(
      id,
      raw.name.GetOr(raw.dn.GetOr("Node " + Text.IntToString(id))),
      raw.sd.GetOr(raw.stats.GetOr([])),
      TypeOf(raw),
      PassiveTreeAnalyzer.Flag(raw.ks, raw.isKeystone),
      PassiveTreeAnalyzer.Flag(raw.notable, raw.isNotable),
      PassiveTreeAnalyzer.Flag(raw.mastery, raw.isMastery),
      raw.isJewelSocket == Some(true),
      raw.icon.GetOr(""),
      raw.flavourText.GetOr([]),
      raw.out.GetOr([]))
  }

  /** The node map built from the export's node records, in order: a key
      that is not a decimal integer skips its record, and a later record
      for the same id replaces an earlier one. */
  function InfoMapOf(entries: seq<(string, RawNode)>): map<int, NodeInfo> {
    if |entries| == 0 then map[]
    else
      var m := InfoMapOf(entries[..|entries| - 1]);
      var last := entries[|entries| - 1];
      match Text.ParseInt(last.0)
      case None => m
      case Some(id) => m[id := MakeInfo(id, last.1)]
  }

  /** Every stored node sits under its own id and has a known type. */
  ghost predicate InfoMapValid(m: map<int, NodeInfo>) {
    forall k :: k in m ==> m[k].id == k && m[k].nodeType != UnknownNode
  }

  /** The service keeps exactly the ids the analyzer's classifier keeps
      from the same records, and every stored node is valid. */
  lemma {:induction false} InfoMapOfDomain(entries: seq<(string, RawNode)>)
    ensures InfoMapValid(InfoMapOf(entries))
    ensures forall k :: k in InfoMapOf(entries) <==> k in PassiveTreeAnalyzer.NodeMapOf(entries)
  {
    if |entries| > 0 {
      InfoMapOfDomain(entries[..|entries| - 1]);
    }
  }

  /** The record `get_node_info` answers for an id the map does not know. */
  function UnknownInfo(id: int): NodeInfo {
    NodeInfo(id, "Unknown Node " + Text.IntToString(id), [], UnknownNode, false, false, false, false, "", [], [])
  }

  function InfoOf(m: map<int, NodeInfo>, id: int): NodeInfo {
    if id in m then m[id] else UnknownInfo(id)
  }

  /** Every lookup answers a record for the id asked; it is typed unknown
      exactly when the map lacks the id, and its out-list is the id's
      successor list in the node graph. */
  lemma InfoOfProperties(m: map<int, NodeInfo>, id: int)
    requires InfoMapValid(m)
    ensures InfoOf(m, id).id == id
    ensures InfoOf(m, id).nodeType == UnknownNode <==> id !in m
    ensures Succ(NodeGraph(m), id) == InfoOf(m, id).out
  {
  }

  /** Each node's out-list. */
  function NodeGraph(m: map<int, NodeInfo>): Graph {
    map k | k in m :: m[k].out
  }

  function InfosOf(m: map<int, NodeInfo>, ids: seq<int>): (r: seq<NodeInfo>)
    ensures |r| == |ids|
    ensures forall i :: 0 <= i < |ids| ==> r[i] == InfoOf(m, ids[i])
  {
    seq(|ids|, i requires 0 <= i < |ids| => InfoOf(m, ids[i]))
  }

  // ===== Single-source search =====

  /** No node is blocked: a search from one start may pass any node. */
  const Open: set<int> := {}

  /** `path` walks `k` hops from `start` to `v` along out-lists. */
  ghost predicate WalkFrom(g: Graph, start: int, path: seq<int>, v: int, k: nat) {
    |path| == k + 1 && path[0] == start && path[k] == v
    && forall i :: 0 <= i < k ==> path[i + 1] in Succ(g, path[i])
  }

  /** Each queue entry pairs a queued node with a walk from the start that
      is as long as the node's depth. */
  ghost predicate Tracked(g: Graph, start: int, pq: seq<(int, seq<int>)>, queue: seq<int>, d: map<int, nat>) {
    |pq| == |queue|
    && forall i :: 0 <= i < |queue| ==>
      pq[i].0 == queue[i] && queue[i] in d && WalkFrom(g, start, pq[i].1, queue[i], d[queue[i]])
  }

  lemma TrackedStep(g: Graph, start: int, pq: seq<(int, seq<int>)>, queue: seq<int>, d: map<int, nat>,
                    current: int, path: seq<int>, depth: nat, v: int)
    requires Tracked(g, start, pq, queue, d) && WalkFrom(g, start, path, current, depth)
    requires v !in d && v in Succ(g, current)
    ensures Tracked(g, start, pq + [(v, path + [v])], queue + [v], d[v := depth + 1])
  {
    var pq' := pq + [(v, path + [v])];
    var q' := queue + [v];
    var d' := d[v := depth + 1];
    forall i | 0 <= i < |q'|
      ensures pq'[i].0 == q'[i] && q'[i] in d' && WalkFrom(g, start, pq'[i].1, q'[i], d'[q'[i]])
    {
      if i < |queue| {
        assert pq'[i] == pq[i] && q'[i] == queue[i] && queue[i] != v;
      } else {
        var p := path + [v];
        forall k | 0 <= k < depth ensures p[k + 1] in Succ(g, p[k]) {
          assert p[k] == path[k] && p[k + 1] == path[k + 1];
        }
      }
    }
  }

  /** A walk of `k` hops to the head, extended by the target, is a route of
      `k + 1` hops once its start is dropped. */
  lemma WalkToTarget(g: Graph, start: int, path: seq<int>, current: int, depth: nat, target: int)
    requires WalkFrom(g, start, path, current, depth) && target in Succ(g, current)
    ensures |path + [target]| >= 2 && (path + [target])[0] == start
    ensures IsRouteTo(g, Open, {start}, target, (path + [target])[1..]) && |(path + [target])[1..]| == depth + 1
  {
    var p := (path + [target])[1..];
    assert forall i :: 0 <= i < depth ==> p[i] == path[i + 1];
    assert p[depth] == target;
    if depth == 0 {
      assert p[0] in Succ(g, start);
    } else {
      assert p[0] in Succ(g, path[0]);
      forall i | 0 <= i < |p| - 1 ensures p[i + 1] in Succ(g, p[i]) {
        if i + 1 < depth {
          assert path[i + 2] in Succ(g, path[i + 1]);
        }
      }
    }
  }

  /** A route found while expanding a head of depth `depth`, when no route
      has fewer than `depth + 1` hops, is the search's answer. */
  lemma FoundAnswer(g: Graph, start: int, sources: set<int>, target: int, path: seq<int>, current: int, depth: nat)
    requires sources == {start} && start != target
    requires WalkFrom(g, start, path, current, depth) && target in Succ(g, current)
    requires forall p :: IsRouteTo(g, Open, sources, target, p) ==> |p| >= depth + 1
    ensures SearchAnswer(g, start, target, Some(path + [target]))
  {
    WalkToTarget(g, start, path, current, depth, target);
  }

  lemma NoAnswer(g: Graph, start: int, sources: set<int>, target: int)
    requires sources == {start} && start != target && NoRoute(g, Open, sources, target)
    ensures SearchAnswer(g, start, target, None)
  {
  }

  /** The entry at the head of the queue. */
  lemma HeadEntry(g: Graph, start: int, pq: seq<(int, seq<int>)>, queue: seq<int>, d: map<int, nat>, h: nat)
    requires Tracked(g, start, pq, queue, d) && h < |queue| && queue[h] in d
    ensures pq[h].0 == queue[h] && WalkFrom(g, start, pq[h].1, queue[h], d[queue[h]])
  {
  }

  /** The search state right after queueing the start. */
  lemma StartState(g: Graph, start: int, sources: set<int>, target: int, nodes: set<int>)
    requires sources == {start} && start != target && nodes == Listed(g) + {start}
    ensures SearchState(g, Open, sources, target, nodes, [start], map[start := 0], 0, map[], {start})
    ensures Tracked(g, start, [(start, [start])], [start], map[start := 0])
  {
    assert Layered([start], map[start := 0], 0);
  }

  /** What a search from one start to a different target answers: `[start]`
      plus a route with the fewest hops, or nothing when no route exists. */
  ghost predicate Connects(g: Graph, start: int, target: int, hops: seq<int>) {
    if start == target then hops == [] else ShortestRoute(g, Open, {start}, target, hops)
  }

  ghost predicate SearchAnswer(g: Graph, start: int, target: int, r: Option<seq<int>>) {
    (start == target ==> r == Some([start]))
    && (r.None? <==> start != target && NoRoute(g, Open, {start}, target))
    && (r.Some? ==> |r.value| >= 1 && r.value[0] == start && Connects(g, start, target, r.value[1..]))
  }

  /** One round of the search: visits the out-list of the node at the head
      of the queue, queueing each unvisited neighbour with its path, and
      stops as soon as the target appears. */
  method ExpandNeighbors(current: int, path: seq<int>, neighbors: seq<int>, target: int,
                         pq0: seq<(int, seq<int>)>, visited0: set<int>,
                         ghost g: Graph, ghost start: int, ghost sources: set<int>, ghost nodes: set<int>, ghost queue0: seq<int>,
                         ghost d0: map<int, nat>, ghost parent0: map<int, int>, ghost h: nat, ghost depth: nat)
    returns (found: bool, pq: seq<(int, seq<int>)>, visited: set<int>,
             ghost queue: seq<int>, ghost d: map<int, nat>, ghost parent: map<int, int>)
    requires SearchState(g, Open, sources, target, nodes, queue0, d0, h, parent0, visited0)
    requires Tracked(g, start, pq0, queue0, d0) && WalkFrom(g, start, path, current, depth)
    requires h < |queue0| && queue0[h] == current && current in d0 && d0[current] == depth
    requires neighbors == Succ(g, current)
    ensures SearchState(g, Open, sources, target, nodes, queue, d, h, parent, visited)
    ensures Tracked(g, start, pq, queue, d) && |pq| == |queue|
    ensures h < |queue| && queue[h] == current && current in d && d[current] == depth
    ensures |nodes - visited| + |queue| == |nodes - visited0| + |queue0|
    ensures found ==> target in neighbors
    ensures !found ==> SeenUpTo(neighbors, |neighbors|, target, Open, d, depth)
  {
    pq, visited, queue, d, parent := pq0, visited0, queue0, d0, parent0;
    found := false;
    var j := 0;
    while j < |neighbors| && !found
      invariant j <= |neighbors|
      invariant SearchState(g, Open, sources, target, nodes, queue, d, h, parent, visited)
      invariant Tracked(g, start, pq, queue, d)
      invariant h < |queue| && queue[h] == current && current in d && d[current] == depth
      invariant found ==> target in neighbors
      invariant !found ==> SeenUpTo(neighbors, j, target, Open, d, depth)
      invariant |nodes - visited| + |queue| == |nodes - visited0| + |queue0|
    {
      var neighbor := neighbors[j];
      if neighbor == target {
        found := true;
      } else if neighbor !in visited {
        EnqueueStep(g, Open, sources, target, nodes, queue, d, h, parent, visited, current, depth, neighbors, j);
        EnqueueProgress(g, Open, sources, target, nodes, queue, d, h, parent, visited, current, depth, neighbors, j);
        TrackedStep(g, start, pq, queue, d, current, path, depth, neighbor);
        visited := visited + {neighbor};
        pq := pq + [(neighbor, path + [neighbor])];
        queue := queue + [neighbor];
        d := d[neighbor := depth + 1];
        parent := parent[neighbor := current];
      } else {
        SkipStep(g, Open, sources, target, nodes, queue, d, h, parent, visited, current, depth, neighbors, j);
      }
      j := j + 1;
    }
  }

  /** One round of the search: takes the entry at the head of the queue
      and expands it; answers the target's path when the head lists it. */
  method SearchRound(g: Graph, target: int, h: nat, pq0: seq<(int, seq<int>)>, visited0: set<int>,
                     ghost start: int, ghost sources: set<int>, ghost nodes: set<int>,
                     ghost queue0: seq<int>, ghost d0: map<int, nat>, ghost parent0: map<int, int>)
    returns (answer: Option<seq<int>>, pq: seq<(int, seq<int>)>, visited: set<int>,
             ghost queue: seq<int>, ghost d: map<int, nat>, ghost parent: map<int, int>)
    requires sources == {start} && start != target
    requires SearchState(g, Open, sources, target, nodes, queue0, d0, h, parent0, visited0)
    requires Tracked(g, start, pq0, queue0, d0) && |pq0| == |queue0| && h < |pq0|
    ensures answer.Some? ==> SearchAnswer(g, start, target, answer)
    ensures answer.None? ==>
      SearchState(g, Open, sources, target, nodes, queue, d, h + 1, parent, visited)
      && Tracked(g, start, pq, queue, d) && |pq| == |queue|
      && |nodes - visited| + |queue| == |nodes - visited0| + |queue0|
  {
    var current := pq0[h].0;
    var path := pq0[h].1;
    ghost var depth := HeadDepth(g, Open, sources, target, nodes, queue0, d0, h, parent0, visited0);
    HeadEntry(g, start, pq0, queue0, d0, h);
    var neighbors := Succ(g, current);
    var found;
    found, pq, visited, queue, d, parent :=
      ExpandNeighbors(current, path, neighbors, target, pq0, visited0, g, start, sources, nodes, queue0, d0, parent0, h, depth);
    if found {
      FoundStep(g, Open, sources, target, nodes, queue, d, h, parent, visited);
      FoundAnswer(g, start, sources, target, path, current, depth);
      answer := Some(path + [target]);
    } else {
      AdvanceStep(g, Open, sources, target, nodes, queue, d, h, parent, visited);
      answer := None;
    }
  }

  /** Breadth-first search from `start`, carrying each queued node's path
      and following out-lists only; the start itself is the answer when it
      is the target. */
  method ShortestPathFrom(g: Graph, start: int, target: int) returns (r: Option<seq<int>>)
    ensures SearchAnswer(g, start, target, r)
  {
    if start == target {
      return Some([start]);
    }
    ghost var sources := {start};
    ghost var nodes := Listed(g) + {start};
    var pq: seq<(int, seq<int>)> := [(start, [start])];
    var visited := {start};
    ghost var queue := [start];
    ghost var d: map<int, nat> := map[start := 0];
    ghost var parent: map<int, int> := map[];
    StartState(g, start, sources, target, nodes);
    var h: nat := 0;
    while h < |pq|
      invariant SearchState(g, Open, sources, target, nodes, queue, d, h, parent, visited)
      invariant Tracked(g, start, pq, queue, d) && |pq| == |queue|
      decreases |nodes - visited| + |queue| - h
    {
      var answer;
      answer, pq, visited, queue, d, parent := SearchRound(g, target, h, pq, visited, start, sources, nodes, queue, d, parent);
      if answer.Some? {
        return answer;
      }
      h := h + 1;
    }
    ExhaustedStep(g, Open, sources, target, nodes, queue, d, h, parent, visited);
    NoAnswer(g, start, sources, target);
    return None;
  }

  // ===== Shortest path over several starts =====

  /** Every way from `s` to `t` takes at least `n` hops (none when `s` is
      `t`). */
  ghost predicate HopsAtLeast(g: Graph, s: int, t: int, n: nat) {
    (s == t ==> n == 0) && forall p :: IsRouteTo(g, Open, {s}, t, p) ==> n <= |p|
  }

  /** Every way from `s` to `t` takes more than `n` hops. */
  ghost predicate HopsAbove(g: Graph, s: int, t: int, n: nat) {
    s != t && forall p :: IsRouteTo(g, Open, {s}, t, p) ==> n < |p|
  }

  /** After trying `starts[..i]`: with no result, none of them reaches the
      target; with one, it came from `starts[chosen]`, every earlier start
      needs strictly more hops and every later one at least as many. */
  ghost predicate BestSoFar(g: Graph, starts: seq<int>, target: int, i: nat, best: Option<seq<int>>, chosen: nat) {
    i <= |starts|
    && (best.None? ==> forall j :: 0 <= j < i ==> starts[j] != target && NoRoute(g, Open, {starts[j]}, target))
    && (best.Some? ==>
          chosen < i && |best.value| >= 1 && best.value[0] == starts[chosen]
          && Connects(g, starts[chosen], target, best.value[1..])
          && (forall j :: 0 <= j < chosen ==> HopsAbove(g, starts[j], target, |best.value| - 1))
          && (forall j :: chosen < j < i ==> HopsAtLeast(g, starts[j], target, |best.value| - 1)))
  }

  /** What the search from one start tells about the hop count from it. */
  lemma AnswerBounds(g: Graph, s: int, t: int, path: Option<seq<int>>)
    requires SearchAnswer(g, s, t, path)
    ensures path.None? ==> s != t && NoRoute(g, Open, {s}, t)
    ensures path.Some? ==> |path.value| >= 1 && HopsAtLeast(g, s, t, |path.value| - 1)
  {
  }

  /** A start whose answer is strictly shorter than the best so far takes
      its place. */
  lemma TakeBest(g: Graph, starts: seq<int>, target: int, i: nat, best: Option<seq<int>>, chosen: nat,
                 path: seq<int>)
    requires BestSoFar(g, starts, target, i, best, chosen) && i < |starts|
    requires SearchAnswer(g, starts[i], target, Some(path))
    requires best.None? || |path| < |best.value|
    ensures BestSoFar(g, starts, target, i + 1, Some(path), i)
  {
    var n := |path| - 1;
    forall j | 0 <= j < i ensures HopsAbove(g, starts[j], target, n) {
      if best.Some? {
        var m := |best.value| - 1;
        if j == chosen {
          AnswerBounds(g, starts[chosen], target, best);
          assert starts[j] != target;
        } else if j > chosen {
          assert HopsAtLeast(g, starts[j], target, m);
        } else {
          assert HopsAbove(g, starts[j], target, m);
        }
      }
    }
  }

  /** A start whose answer is missing or no shorter leaves the best as it is. */
  lemma KeepBest(g: Graph, starts: seq<int>, target: int, i: nat, best: Option<seq<int>>, chosen: nat,
                 path: Option<seq<int>>)
    requires BestSoFar(g, starts, target, i, best, chosen) && i < |starts|
    requires SearchAnswer(g, starts[i], target, path)
    requires !(path.Some? && |path.value| > 0 && (best.None? || |path.value| < |best.value|))
    ensures BestSoFar(g, starts, target, i + 1, best, chosen)
  {
    AnswerBounds(g, starts[i], target, path);
    if best.Some? {
      var m := |best.value| - 1;
      assert HopsAtLeast(g, starts[i], target, m);
    }
  }

  /** A chosen start reaches the target, so "no start reaches it" fails. */
  lemma ChosenReaches(g: Graph, starts: seq<int>, target: int, best: seq<int>, chosen: nat)
    requires BestSoFar(g, starts, target, |starts|, Some(best), chosen)
    ensures !(forall j :: 0 <= j < |starts| ==> starts[j] != target && NoRoute(g, Open, {starts[j]}, target))
  {
    if starts[chosen] != target {
      assert IsRouteTo(g, Open, {starts[chosen]}, target, best[1..]);
    }
  }

  datatype PathAnswer = NoPath | PathFound(path: seq<int>, cost: nat, nodesInfo: seq<NodeInfo>)

  // ===== Suggestions =====

  datatype PriorityNode = PriorityNode(id: int, info: NodeInfo, priority: int)

  /** The keystones and notables among `ids`, in order, keystones at
      priority 10 and notables at 5. */
  function PriorityNodes(m: map<int, NodeInfo>, ids: seq<int>): seq<PriorityNode> {
    if |ids| == 0 then []
    else
      var info := InfoOf(m, ids[|ids| - 1]);
      PriorityNodes(m, ids[..|ids| - 1])
        + if info.isKeystone || info.isNotable
          then [PriorityNode(ids[|ids| - 1], info, if info.isKeystone then 10 else 5)]
          else []
  }

  /** A candidate is a keystone or notable of `ids` with the priority of
      its kind. */
  ghost predicate Qualifies(m: map<int, NodeInfo>, ids: seq<int>, x: PriorityNode) {
    x.id in ids && x.info == InfoOf(m, x.id) && (x.info.isKeystone || x.info.isNotable)
    && x.priority == (if x.info.isKeystone then 10 else 5)
  }

  lemma {:induction false} PriorityNodesMembers(m: map<int, NodeInfo>, ids: seq<int>, x: PriorityNode)
    ensures x in PriorityNodes(m, ids) <==> Qualifies(m, ids, x)
  {
    if |ids| > 0 {
      var init := ids[..|ids| - 1];
      PriorityNodesMembers(m, init, x);
      assert ids == init + [ids[|ids| - 1]];
    }
  }

  /** Higher priority first. */
  function PriorityKey(p: PriorityNode): Key {
    Key(-(p.priority as real), 0.0, 0.0)
  }

  datatype ServiceSuggestion = ServiceSuggestion(
    targetNode: int,
    targetInfo: NodeInfo,
    path: seq<int>,
    cost: nat,
    priority: int,
    nodesOnPath: seq<NodeInfo>)

  /** Cheaper first, then higher priority. */
  function CostKey(s: ServiceSuggestion): Key {
    Key(s.cost as real, -(s.priority as real), 0.0)
  }

  /** The candidates, in order, that some start reaches. */
  ghost function ReachedCandidates(g: Graph, starts: seq<int>, cands: seq<PriorityNode>): (r: seq<PriorityNode>)
    ensures |r| <= |cands|
    ensures forall x :: x in r ==> x in cands
  {
    if |cands| == 0 then []
    else
      var last := cands[|cands| - 1];
      ReachedCandidates(g, starts, cands[..|cands| - 1])
        + (if Reaches(g, starts, last.id) then [last] else [])
  }

  /** Some start is the node itself or has a route to it. */
  ghost predicate Reaches(g: Graph, starts: seq<int>, t: int) {
    !(forall j :: 0 <= j < |starts| ==> starts[j] != t && NoRoute(g, Open, {starts[j]}, t))
  }

  lemma ReachedStep(g: Graph, starts: seq<int>, cands: seq<PriorityNode>, i: nat)
    requires i < |cands|
    ensures ReachedCandidates(g, starts, cands[..i + 1])
      == ReachedCandidates(g, starts, cands[..i]) + (if Reaches(g, starts, cands[i].id) then [cands[i]] else [])
  {
    assert cands[..i + 1][..i] == cands[..i];
  }

  /** The path of a suggestion is a shortest one from some start, no start
      does better, and its cost and node records are those of the path. */
  ghost predicate BestPath(g: Graph, starts: seq<int>, t: int, path: seq<int>) {
    (exists c :: 0 <= c < |starts| && Connects(g, starts[c], t, path))
    && forall j :: 0 <= j < |starts| ==> HopsAtLeast(g, starts[j], t, |path|)
  }

  ghost predicate ValidServiceSuggestion(m: map<int, NodeInfo>, starts: seq<int>, s: ServiceSuggestion) {
    BestPath(NodeGraph(m), starts, s.targetNode, s.path)
    && s.cost == |s.path| && s.nodesOnPath == InfosOf(m, s.path)
  }

  ghost predicate AllValidServiceSuggestions(m: map<int, NodeInfo>, starts: seq<int>, ss: seq<ServiceSuggestion>) {
    forall k :: 0 <= k < |ss| ==> ValidServiceSuggestion(m, starts, ss[k])
  }

  function TargetsOf(ss: seq<ServiceSuggestion>): (r: seq<PriorityNode>)
    ensures |r| == |ss|
    ensures forall i :: 0 <= i < |ss| ==> r[i] == PriorityNode(ss[i].targetNode, ss[i].targetInfo, ss[i].priority)
  {
    if |ss| == 0 then []
    else
      var s := ss[|ss| - 1];
      TargetsOf(ss[..|ss| - 1]) + [PriorityNode(s.targetNode, s.targetInfo, s.priority)]
  }

  lemma TargetsOfConcat(a: seq<ServiceSuggestion>, b: seq<ServiceSuggestion>)
    ensures TargetsOf(a + b) == TargetsOf(a) + TargetsOf(b)
  {
    assert forall i :: 0 <= i < |a + b| ==> TargetsOf(a + b)[i] == (TargetsOf(a) + TargetsOf(b))[i];
  }

  /** Reordering suggestions reorders their targets the same way. */
  lemma {:induction false} TargetsOfPermutation(a: seq<ServiceSuggestion>, b: seq<ServiceSuggestion>)
    requires multiset(a) == multiset(b)
    ensures multiset(TargetsOf(a)) == multiset(TargetsOf(b))
    decreases |a|
  {
    if |a| == 0 {
      assert |b| == |multiset(b)| == 0;
    } else {
      var x := a[|a| - 1];
      var init := a[..|a| - 1];
      assert a == init + [x];
      assert x in multiset(b);
      var i :| 0 <= i < |b| && b[i] == x;
      var rest := b[..i] + b[i + 1..];
      assert b == b[..i] + [x] + b[i + 1..];
      calc {
        multiset(init);
        multiset(a) - multiset{x};
        multiset(b) - multiset{x};
        multiset(b[..i]) + multiset{x} + multiset(b[i + 1..]) - multiset{x};
        multiset(rest);
      }
      TargetsOfPermutation(init, rest);
      TargetsOfConcat(init, [x]);
      TargetsOfConcat(b[..i], [x]);
      TargetsOfConcat(b[..i] + [x], b[i + 1..]);
      TargetsOfConcat(b[..i], b[i + 1..]);
    }
  }

  lemma AppendSuggestion(m: map<int, NodeInfo>, starts: seq<int>, ss: seq<ServiceSuggestion>, s: ServiceSuggestion)
    requires AllValidServiceSuggestions(m, starts, ss) && ValidServiceSuggestion(m, starts, s)
    ensures AllValidServiceSuggestions(m, starts, ss + [s])
    ensures TargetsOf(ss + [s]) == TargetsOf(ss) + [PriorityNode(s.targetNode, s.targetInfo, s.priority)]
  {
    assert (ss + [s])[..|ss|] == ss;
    forall k | 0 <= k < |ss + [s]| ensures ValidServiceSuggestion(m, starts, (ss + [s])[k]) {
      if k < |ss| {
        assert (ss + [s])[k] == ss[k];
      }
    }
  }

  /** The answer of `CalculatePath` for a reached target is a best path. */
  lemma FoundIsBest(g: Graph, starts: seq<int>, target: int, path: seq<int>, chosen: nat)
    requires chosen < |starts| && Connects(g, starts[chosen], target, path)
    requires forall j :: 0 <= j < chosen ==> HopsAbove(g, starts[j], target, |path|)
    requires forall j :: chosen < j < |starts| ==> HopsAtLeast(g, starts[j], target, |path|)
    ensures BestPath(g, starts, target, path)
  {
    forall j | 0 <= j < |starts| ensures HopsAtLeast(g, starts[j], target, |path|) {
      if j < chosen {
        assert HopsAbove(g, starts[j], target, |path|);
      }
    }
  }

  /** Sorting valid suggestions keeps them valid and keeps their targets. */
  lemma SortedServiceSuggestions(m: map<int, NodeInfo>, starts: seq<int>, found: seq<ServiceSuggestion>)
    requires AllValidServiceSuggestions(m, starts, found)
    ensures var sorted := SortBy(found, CostKey);
      && SortedBy(sorted, CostKey)
      && forall k :: 0 <= k < |sorted| ==>
           ValidServiceSuggestion(m, starts, sorted[k])
           && PriorityNode(sorted[k].targetNode, sorted[k].targetInfo, sorted[k].priority) in TargetsOf(found)
  {
    var sorted := SortBy(found, CostKey);
    SortBySortsAndPermutes(found, CostKey);
    forall k | 0 <= k < |sorted|
      ensures ValidServiceSuggestion(m, starts, sorted[k])
      ensures PriorityNode(sorted[k].targetNode, sorted[k].targetInfo, sorted[k].priority) in TargetsOf(found)
    {
      assert sorted[k] in multiset(found);
      var i :| 0 <= i < |found| && found[i] == sorted[k];
      assert TargetsOf(found)[i] == PriorityNode(sorted[k].targetNode, sorted[k].targetInfo, sorted[k].priority);
    }
  }

  /** Every candidate examined is a keystone or notable of the missing
      nodes, with the priority of its kind. */
  lemma CandidatesQualify(m: map<int, NodeInfo>, missing: seq<int>, max: int, x: PriorityNode)
    requires x in Take(SortBy(PriorityNodes(m, missing), PriorityKey), max)
    ensures Qualifies(m, missing, x)
  {
    var sorted := SortBy(PriorityNodes(m, missing), PriorityKey);
    SortBySortsAndPermutes(PriorityNodes(m, missing), PriorityKey);
    var t := Take(sorted, max);
    var i :| 0 <= i < |t| && t[i] == x;
    assert sorted[i] == x;
    assert x in multiset(PriorityNodes(m, missing));
    PriorityNodesMembers(m, missing, x);
  }

  // ===== The service =====

  /** The tree export as fetched: a failed request, or a document with or
      without a `nodes` entry. */
  datatype Fetch = FetchFailed | Fetched(nodes: Option<seq<(string, RawNode)>>)

  class PassiveTreeService {
    var nodeMap: map<int, NodeInfo>
    var loaded: bool

    ghost predicate Valid()
      reads this
    {
      InfoMapValid(nodeMap) && (!loaded ==> nodeMap == map[])
    }

    constructor ()
      ensures nodeMap == map[] && !loaded && Valid()
    {
      nodeMap := map[];
      loaded := false;
    }

    /** Loads the node map once: a loaded, non-empty map is kept; otherwise
        a fetched document with node records fills the map and marks it
        loaded, and anything else reports failure and changes nothing. */
    method LoadTreeData(fetch: Fetch) returns (ok: bool)
      requires Valid()
      modifies this
      ensures Valid()
      ensures old(loaded && |nodeMap| > 0) ==> ok && nodeMap == old(nodeMap) && loaded
      ensures !old(loaded && |nodeMap| > 0) ==>
        (ok <==> fetch.Fetched? && fetch.nodes.Some?)
        && (ok ==> loaded && nodeMap == InfoMapOf(fetch.nodes.value))
        && (!ok ==> nodeMap == old(nodeMap) && loaded == old(loaded))
    {
      if loaded && |nodeMap| > 0 {
        return true;
      }
      if fetch.FetchFailed? || fetch.nodes.None? {
        return false;
      }
      var entries := fetch.nodes.value;
      var m := nodeMap;
      for i := 0 to |entries|
        invariant m == InfoMapOf(entries[..i])
      {
        Seqs.PrefixStep(entries, i);
        var id := Text.ParseInt(entries[i].0);
        if id.Some? {
          m := m[id.value := MakeInfo(id.value, entries[i].1)];
        }
      }
      Seqs.WholePrefix(entries);
      InfoMapOfDomain(entries);
      nodeMap := m;
      loaded := true;
      ok := true;
    }

    /** The stored record, or the unknown-node default. */
    function GetNodeInfo(id: int): (r: NodeInfo)
      reads this
      ensures Valid() ==> r.id == id && (r.nodeType == UnknownNode <==> id !in nodeMap)
    {
      InfoOf(nodeMap, id)
    }

    /** The shortest of the paths the per-start searches find, the earliest
        start winning ties; the start itself is dropped, so a target among
        the starts costs 0. */
    method CalculatePath(starts: seq<int>, target: int) returns (r: PathAnswer, ghost chosen: nat)
      ensures r.NoPath? <==>
        forall j :: 0 <= j < |starts| ==> starts[j] != target && NoRoute(NodeGraph(nodeMap), Open, {starts[j]}, target)
      ensures r.PathFound? ==>
        chosen < |starts| && Connects(NodeGraph(nodeMap), starts[chosen], target, r.path)
        && (forall j :: 0 <= j < chosen ==> HopsAbove(NodeGraph(nodeMap), starts[j], target, |r.path|))
        && (forall j :: chosen < j < |starts| ==> HopsAtLeast(NodeGraph(nodeMap), starts[j], target, |r.path|))
        && r.cost == |r.path| && r.nodesInfo == InfosOf(nodeMap, r.path)
    {
      var g := NodeGraph(nodeMap);
      var best: Option<seq<int>> := None;
      chosen := 0;
      for i := 0 to |starts|
        invariant BestSoFar(g, starts, target, i, best, chosen)
      {
        var path := ShortestPathFrom(g, starts[i], target);
        if path.Some? && |path.value| > 0 && (best.None? || |path.value| < |best.value|) {
          TakeBest(g, starts, target, i, best, chosen, path.value);
          best := path;
          chosen := i;
        } else {
          KeepBest(g, starts, target, i, best, chosen, path);
        }
      }
      if best.None? {
        return NoPath, chosen;
      }
      ChosenReaches(g, starts, target, best.value, chosen);
      var pathNodes := best.value[1..];
      r := PathFound(pathNodes, |pathNodes|, InfosOf(nodeMap, pathNodes));
    }

    /** Paths to the missing keystones and notables: the candidates are
        sorted by priority (stably) and cut to `max` before any search, each
        reached one becomes a suggestion, and the suggestions are sorted by
        cost, then priority. */
    method SuggestOptimalPaths(allocatedNodes: seq<int>, missing: seq<int>, max: int)
      returns (r: seq<ServiceSuggestion>, ghost found: seq<ServiceSuggestion>)
      requires Valid()
      ensures TargetsOf(found) == ReachedCandidates(NodeGraph(nodeMap), allocatedNodes,
                                                    Take(SortBy(PriorityNodes(nodeMap, missing), PriorityKey), max))
      ensures AllValidServiceSuggestions(nodeMap, allocatedNodes, found)
      ensures r == SortBy(found, CostKey)
      ensures multiset(TargetsOf(r)) == multiset(ReachedCandidates(NodeGraph(nodeMap), allocatedNodes,
                                                                  Take(SortBy(PriorityNodes(nodeMap, missing), PriorityKey), max)))
      ensures |r| == |ReachedCandidates(NodeGraph(nodeMap), allocatedNodes,
                                        Take(SortBy(PriorityNodes(nodeMap, missing), PriorityKey), max))|
      ensures max >= 0 ==> |r| <= max
      ensures SortedBy(r, CostKey)
      ensures forall k :: 0 <= k < |r| ==>
        ValidServiceSuggestion(nodeMap, allocatedNodes, r[k])
        && PriorityNode(r[k].targetNode, r[k].targetInfo, r[k].priority)
           in ReachedCandidates(NodeGraph(nodeMap), allocatedNodes,
                                Take(SortBy(PriorityNodes(nodeMap, missing), PriorityKey), max))
    {
      var priority := PriorityTargets(missing);
      var cands := Take(SortBy(priority, PriorityKey), max);
      var reached := PathsTo(allocatedNodes, cands);
      SortedServiceSuggestions(nodeMap, allocatedNodes, reached);
      r := SortBy(reached, CostKey);
      SortBySortsAndPermutes(reached, CostKey);
      TargetsOfPermutation(r, reached);
      found := reached;
    }

    /** The keystones and notables among the missing nodes, in order. */
    method PriorityTargets(missing: seq<int>) returns (priority: seq<PriorityNode>)
      ensures priority == PriorityNodes(nodeMap, missing)
    {
      priority := [];
      for i := 0 to |missing|
        invariant priority == PriorityNodes(nodeMap, missing[..i])
      {
        Seqs.PrefixStep(missing, i);
        var info := GetNodeInfo(missing[i]);
        if info.isKeystone || info.isNotable {
          priority := priority + [PriorityNode(missing[i], info, if info.isKeystone then 10 else 5)];
        }
      }
      Seqs.WholePrefix(missing);
    }

    /** A suggestion for each candidate some allocated node reaches, in
        candidate order. */
    method PathsTo(allocatedNodes: seq<int>, cands: seq<PriorityNode>) returns (found: seq<ServiceSuggestion>)
      ensures TargetsOf(found) == ReachedCandidates(NodeGraph(nodeMap), allocatedNodes, cands)
      ensures AllValidServiceSuggestions(nodeMap, allocatedNodes, found)
    {
      ghost var g := NodeGraph(nodeMap);
      found := [];
      for i := 0 to |cands|
        invariant TargetsOf(found) == ReachedCandidates(g, allocatedNodes, cands[..i])
        invariant AllValidServiceSuggestions(nodeMap, allocatedNodes, found)
      {
        var c := cands[i];
        var answer, chosen := CalculatePath(allocatedNodes, c.id);
        ReachedStep(g, allocatedNodes, cands, i);
        if answer.PathFound? {
          FoundIsBest(g, allocatedNodes, c.id, answer.path, chosen);
          var s := ServiceSuggestion(c.id, c.info, answer.path, answer.cost, c.priority, answer.nodesInfo);
          AppendSuggestion(nodeMap, allocatedNodes, found, s);
          found := found + [s];
        }
      }
      assert cands[..|cands|] == cands;
    }
  }
}
