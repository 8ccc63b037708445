/** The passive-tree classifier, the multi-source shortest-path finder and
    the cluster-jewel scorer of the back end. The classifier turns the raw
    node records of the official tree export into typed nodes; the path
    finder searches breadth-first from the allocated start nodes along
    out-lists only, treating every allocated node as already visited, and
    scores the path it finds; the suggestion pass ranks paths to missing
    keystones and notables. */
module PassiveTreeAnalyzer {
  import opened Wrappers
  import opened Walks
  import opened BreadthFirst
  import opened Sorting
  import Text
  import Seqs

  datatype NodeType = Keystone | Notable | JewelSocket | Mastery | Ascendancy | SmallPassive | ClassStart

  datatype ClusterSize = Small | Medium | Large

  /** The weight table. It has no entry for the class-start type, so a
      class-start node has no weight. */
  function BaseWeight(t: NodeType): nat
    requires t != ClassStart
  {
    match t
    case Keystone => 100
    case Notable => 50
    case JewelSocket => 30
    case Mastery => 40
    case Ascendancy => 80
    case SmallPassive => 1
  }

  datatype PassiveNode = PassiveNode(
    id: int,
    name: string,
    nodeType: NodeType,
    stats: seq<string>,
    connections: seq<int>,
    isClusterSocket: bool,
    clusterSize: Option<ClusterSize>)

  /** The base weight, plus 20 for a large and 10 for a medium cluster
      socket. */
  function Weight(n: PassiveNode): nat
    requires n.nodeType != ClassStart
  {
    var base := BaseWeight(n.nodeType);
    if n.isClusterSocket && n.clusterSize.Some? then
      match n.clusterSize.value
      case Large => base + 20
      case Medium => base + 10
      case Small => base
    else base
  }

  /** Which nodes reach the notable weight of 50: keystones, notables and
      ascendancy nodes always; a mastery only as a medium or large cluster
      socket; a jewel socket only as a large one; a small passive never. */
  lemma WeightAtLeastNotable(n: PassiveNode)
    requires n.nodeType != ClassStart
    ensures Weight(n) >= 50 <==>
      n.nodeType == Keystone || n.nodeType == Notable || n.nodeType == Ascendancy
      || (n.nodeType == Mastery && n.isClusterSocket && n.clusterSize.Some? && n.clusterSize.value != Small)
      || (n.nodeType == JewelSocket && n.isClusterSocket && n.clusterSize == Some(Large))
  {
  }

  // ===== Raw node records and classification =====

  /** The fields of one node record of the tree export that the classifier
      reads; a field absent from the record is `None`. */
  datatype RawNode = RawNode(
    name: Option<string>,
    dn: Option<string>,
    sd: Option<seq<string>>,
    stats: Option<seq<string>>,
    out: Option<seq<int>>,
    ks: Option<bool>,
    isKeystone: Option<bool>,
    notable: Option<bool>,
    isNotable: Option<bool>,
    mastery: Option<bool>,
    isMastery: Option<bool>,
    isJewelSocket: Option<bool>,
    icon: Option<string>,
    flavourText: Option<seq<string>>,
    skill: Option<int>,
    expansionJewel: Option<map<string, int>>)

  /** A flag read under its short name, falling back to its long name only
      when the short one is absent. */
  predicate Flag(short: Option<bool>, long: Option<bool>) {
    if short.Some? then short.value else long == Some(true)
  }

  function ClassifyNodeType(raw: RawNode): (t: NodeType)
    ensures t != ClassStart
  {
    if Flag(raw.ks, raw.isKeystone) then Keystone
    else if Flag(raw.notable, raw.isNotable) then Notable
    else if Flag(raw.mastery, raw.isMastery) then Mastery
    else if raw.isJewelSocket == Some(true) then JewelSocket
    else if raw.skill.GetOr(0) >= 60000 then Ascendancy
    else SmallPassive
  }

  /** The precedence of the classification: each type is chosen exactly
      when its flag is set and no earlier flag is; ascendancy needs a skill
      number of at least 60000 and no flag at all. */
  lemma ClassificationPrecedence(raw: RawNode)
    ensures ClassifyNodeType(raw) == Keystone <==> Flag(raw.ks, raw.isKeystone)
    ensures ClassifyNodeType(raw) == Notable <==>
      !Flag(raw.ks, raw.isKeystone) && Flag(raw.notable, raw.isNotable)
    ensures ClassifyNodeType(raw) == Mastery <==>
      !Flag(raw.ks, raw.isKeystone) && !Flag(raw.notable, raw.isNotable) && Flag(raw.mastery, raw.isMastery)
    ensures ClassifyNodeType(raw) == JewelSocket <==>
      !Flag(raw.ks, raw.isKeystone) && !Flag(raw.notable, raw.isNotable) && !Flag(raw.mastery, raw.isMastery)
      && raw.isJewelSocket == Some(true)
    ensures ClassifyNodeType(raw) == Ascendancy <==>
      !Flag(raw.ks, raw.isKeystone) && !Flag(raw.notable, raw.isNotable) && !Flag(raw.mastery, raw.isMastery)
      && raw.isJewelSocket != Some(true) && raw.skill.Some? && raw.skill.value >= 60000
  {
  }

  /** The cluster size of an expansion-jewel record; an empty record means
      no cluster socket. A missing index count counts as 0. */
  function ClusterSizeOf(expansion: map<string, int>): Option<ClusterSize> {
    if |expansion| == 0 then None
    else
      var total := if "totalIndices" in expansion then expansion["totalIndices"] else 0;
      if total <= 3 then Some(Small) else if total <= 6 then Some(Medium) else Some(Large)
  }

  /** Up to twelve indices, the size chosen is the smallest cluster jewel
      whose passive count (3, 6 or 12) holds them all. */
  lemma ClusterSizeFitsPassives(expansion: map<string, int>)
    requires "totalIndices" in expansion && 0 <= expansion["totalIndices"] <= 12
    ensures ClusterSizeOf(expansion).Some?
    ensures expansion["totalIndices"] <= MaxPassives(ClusterSizeOf(expansion).value)
    ensures forall c: ClusterSize :: expansion["totalIndices"] <= MaxPassives(c) ==>
      MaxPassives(ClusterSizeOf(expansion).value) <= MaxPassives(c)
  {
  }

  function MaxPassives(c: ClusterSize): nat {
    match c
    case Small => 3
    case Medium => 6
    case Large => 12
  }

  function MakeNode(id: int, raw: RawNode): (n: PassiveNode) {
    var expansion := raw.expansionJewel.GetOr(map[]);
    var isCluster := |expansion| > 0;
    PassiveNode(
      id,
      raw.name.GetOr(raw.dn.GetOr("Node " + Text.IntToString(id))),
      ClassifyNodeType(raw),
      raw.sd.GetOr(raw.stats.GetOr([])),
      raw.out.GetOr([]),
      isCluster,
      if isCluster then ClusterSizeOf(expansion) else None)
  }

  /** The node map built from the export's node records, in order: a key
      that is not a decimal integer skips its record, and a later record
      for the same id replaces an earlier one. */
  function NodeMapOf(entries: seq<(string, RawNode)>): map<int, PassiveNode> {
    if |entries| == 0 then map[]
    else
      var m := NodeMapOf(entries[..|entries| - 1]);
      var last := entries[|entries| - 1];
      match Text.ParseInt(last.0)
      case None => m
      case Some(id) => m[id := MakeNode(id, last.1)]
  }

  /** Every node of a map is stored under its own id and has a type the
      weight table covers. */
  ghost predicate WellFormed(m: map<int, PassiveNode>) {
    forall k :: k in m ==> m[k].id == k && m[k].nodeType != ClassStart
  }

  /** An id is in the node map exactly when some record's key parses to it. */
  lemma NodeMapOfDomain(entries: seq<(string, RawNode)>, k: int)
    ensures k in NodeMapOf(entries) <==> exists i :: 0 <= i < |entries| && Text.ParseInt(entries[i].0) == Some(k)
  {
    if k in NodeMapOf(entries) {
      var i := KeyedRecord(entries, k);
    } else {
      forall i | 0 <= i < |entries| && Text.ParseInt(entries[i].0) == Some(k)
        ensures false
      {
        var j := LastKeyed(entries, k, i);
        NodeMapOfLast(entries, k, j);
      }
    }
  }

  /** A record whose key parses to an id in the node map. */
  lemma {:induction false} KeyedRecord(entries: seq<(string, RawNode)>, k: int) returns (i: nat)
    requires k in NodeMapOf(entries)
    ensures i < |entries| && Text.ParseInt(entries[i].0) == Some(k)
  {
    var init := entries[..|entries| - 1];
    if Text.ParseInt(entries[|entries| - 1].0) == Some(k) {
      i := |entries| - 1;
    } else {
      i := KeyedRecord(init, k);
      assert entries[i] == init[i];
    }
  }

  /** The last of the records whose key parses to `k`, starting from one of them. */
  lemma {:induction false} LastKeyed(entries: seq<(string, RawNode)>, k: int, i: nat) returns (j: nat)
    requires i < |entries| && Text.ParseInt(entries[i].0) == Some(k)
    ensures i <= j < |entries| && Text.ParseInt(entries[j].0) == Some(k)
    ensures forall l :: j < l < |entries| ==> Text.ParseInt(entries[l].0) != Some(k)
    decreases |entries| - i
  {
    if exists l :: i < l < |entries| && Text.ParseInt(entries[l].0) == Some(k) {
      var l :| i < l < |entries| && Text.ParseInt(entries[l].0) == Some(k);
      j := LastKeyed(entries, k, l);
    } else {
      j := i;
    }
  }

  /** The node stored under an id is built from the last record whose key
      parses to that id. */
  lemma {:induction false} NodeMapOfLast(entries: seq<(string, RawNode)>, k: int, i: nat)
    requires i < |entries| && Text.ParseInt(entries[i].0) == Some(k)
    requires forall j :: i < j < |entries| ==> Text.ParseInt(entries[j].0) != Some(k)
    ensures k in NodeMapOf(entries) && NodeMapOf(entries)[k] == MakeNode(k, entries[i].1)
  {
    if i < |entries| - 1 {
      var init := entries[..|entries| - 1];
      assert init[i] == entries[i];
      forall j | i < j < |init| ensures Text.ParseInt(init[j].0) != Some(k) {
        assert init[j] == entries[j];
      }
      NodeMapOfLast(init, k, i);
    }
  }

  lemma {:induction false} NodeMapOfWellFormed(entries: seq<(string, RawNode)>)
    ensures WellFormed(NodeMapOf(entries))
  {
    if |entries| > 0 {
      NodeMapOfWellFormed(entries[..|entries| - 1]);
    }
  }

  // ===== The classifier =====

  class Classifier {
    const nodeMap: map<int, PassiveNode>

    ghost predicate Valid()
      reads this
    {
      WellFormed(nodeMap)
    }

    /** Builds the node map from the export's node records; without node
        records (no tree data, or no `nodes` entry) the map stays empty. */
    constructor (nodes: Option<seq<(string, RawNode)>>)
      ensures nodeMap == if nodes.Some? then NodeMapOf(nodes.value) else map[]
      ensures Valid()
    {
      var m: map<int, PassiveNode> := map[];
      if nodes.Some? {
        var entries := nodes.value;
        for i := 0 to |entries|
          invariant m == NodeMapOf(entries[..i])
        {
          Seqs.PrefixStep(entries, i);
          var id := Text.ParseInt(entries[i].0);
          if id.Some? {
            m := m[id.value := MakeNode(id.value, entries[i].1)];
          }
        }
        Seqs.WholePrefix(entries);
        NodeMapOfWellFormed(entries);
      }
      nodeMap := m;
    }

    function GetNode(id: int): Option<PassiveNode>
      reads this
    {
      if id in nodeMap then Some(nodeMap[id]) else None
    }

    /** Splits ids into one list per node type, in input order; ids absent
        from the map are dropped. */
    method ClassifyNodes(ids: seq<int>) returns (r: map<NodeType, seq<int>>)
      requires Valid()
      ensures forall t :: t in r <==> t != ClassStart
      ensures forall t :: t in r ==> r[t] == OfType(nodeMap, ids, t)
    {
      r := map[Keystone := [], Notable := [], JewelSocket := [], Mastery := [], Ascendancy := [], SmallPassive := []];
      for i := 0 to |ids|
        invariant forall t :: t in r <==> t != ClassStart
        invariant forall t :: t in r ==> r[t] == OfType(nodeMap, ids[..i], t)
      {
        Seqs.PrefixStep(ids, i);
        var node := GetNode(ids[i]);
        if node.Some? {
          var t := node.value.nodeType;
          r := r[t := r[t] + [ids[i]]];
        }
      }
      Seqs.WholePrefix(ids);
    }
  }

  /** The ids of `ids` that the map knows with type `t`, in order. */
  function OfType(m: map<int, PassiveNode>, ids: seq<int>, t: NodeType): seq<int> {
    if |ids| == 0 then []
    else
      var last := ids[|ids| - 1];
      OfType(m, ids[..|ids| - 1], t) + (if last in m && m[last].nodeType == t then [last] else [])
  }

  /** Each bucket holds exactly the ids of its type, so every id the map
      knows lands in the one bucket of its type and unknown ids in none. */
  lemma {:induction false} OfTypeMembers(m: map<int, PassiveNode>, ids: seq<int>, t: NodeType, x: int)
    ensures x in OfType(m, ids, t) <==> x in ids && x in m && m[x].nodeType == t
  {
    if |ids| > 0 {
      var init := ids[..|ids| - 1];
      OfTypeMembers(m, init, t, x);
      assert ids == init + [ids[|ids| - 1]];
    }
  }

  // ===== Path scoring =====

  datatype NodeDetail = NodeDetail(id: int, name: string, nodeType: NodeType, weight: nat)

  datatype PathAnalysis = PathAnalysis(
    path: seq<int>,
    cost: nat,
    totalWeight: nat,
    efficiency: real,
    detourNodes: seq<int>,
    valuableNodes: seq<int>,
    nodeDetails: seq<NodeDetail>)

  /** The outcome of one search: the target was already allocated, no route
      reaches it, or a route was found and scored. */
  datatype PathResult = AlreadyAllocated | Unreachable | Reached(analysis: PathAnalysis)

  /** The path nodes that are not allocated, in order. */
  function NewNodes(path: seq<int>, allocatedNodes: set<int>): seq<int> {
    if |path| == 0 then []
    else
      var last := path[|path| - 1];
      NewNodes(path[..|path| - 1], allocatedNodes) + (if last in allocatedNodes then [] else [last])
  }

  lemma {:induction false} NewNodesMembers(path: seq<int>, allocatedNodes: set<int>, x: int)
    ensures x in NewNodes(path, allocatedNodes) <==> x in path && x !in allocatedNodes
  {
    if |path| > 0 {
      NewNodesMembers(path[..|path| - 1], allocatedNodes, x);
      assert path == path[..|path| - 1] + [path[|path| - 1]];
    }
  }

  lemma {:induction false} NewNodesOfUnallocated(path: seq<int>, allocatedNodes: set<int>)
    requires forall i :: 0 <= i < |path| ==> path[i] !in allocatedNodes
    ensures NewNodes(path, allocatedNodes) == path
  {
    if |path| > 0 {
      NewNodesOfUnallocated(path[..|path| - 1], allocatedNodes);
      assert path == path[..|path| - 1] + [path[|path| - 1]];
    }
  }

  /** A small passive without stats is only a step on the way. */
  predicate IsDetour(m: map<int, PassiveNode>, n: int) {
    n in m && m[n].nodeType == SmallPassive && |m[n].stats| == 0
  }

  predicate IsValuable(m: map<int, PassiveNode>, n: int)
    requires WellFormed(m)
  {
    n in m && !IsDetour(m, n) && Weight(m[n]) >= 50
  }

  /** The sum of the weights of the nodes the map knows. */
  function TotalWeight(m: map<int, PassiveNode>, ns: seq<int>): nat
    requires WellFormed(m)
  {
    if |ns| == 0 then 0
    else
      var last := ns[|ns| - 1];
      TotalWeight(m, ns[..|ns| - 1]) + (if last in m then Weight(m[last]) else 0)
  }

  function Detours(m: map<int, PassiveNode>, ns: seq<int>): seq<int> {
    if |ns| == 0 then []
    else
      var last := ns[|ns| - 1];
      Detours(m, ns[..|ns| - 1]) + (if IsDetour(m, last) then [last] else [])
  }

  function ValuableNodes(m: map<int, PassiveNode>, ns: seq<int>): seq<int>
    requires WellFormed(m)
  {
    if |ns| == 0 then []
    else
      var last := ns[|ns| - 1];
      ValuableNodes(m, ns[..|ns| - 1]) + (if IsValuable(m, last) then [last] else [])
  }

  function Details(m: map<int, PassiveNode>, ns: seq<int>): seq<NodeDetail>
    requires WellFormed(m)
  {
    if |ns| == 0 then []
    else
      var last := ns[|ns| - 1];
      Details(m, ns[..|ns| - 1])
        + (if last in m then [NodeDetail(last, m[last].name, m[last].nodeType, Weight(m[last]))] else [])
  }

  /** Weight per point spent, 0 for an empty path. */
  function Efficiency(total: nat, cost: nat): real {
    if cost > 0 then total as real / cost as real else 0.0
  }

  function AnalysisOf(m: map<int, PassiveNode>, path: seq<int>, allocatedNodes: set<int>): PathAnalysis
    requires WellFormed(m)
  {
    var ns := NewNodes(path, allocatedNodes);
    PathAnalysis(ns, |ns|, TotalWeight(m, ns), Efficiency(TotalWeight(m, ns), |ns|),
                 Detours(m, ns), ValuableNodes(m, ns), Details(m, ns))
  }

  lemma {:induction false} DetoursMembers(m: map<int, PassiveNode>, ns: seq<int>, x: int)
    ensures x in Detours(m, ns) <==> x in ns && IsDetour(m, x)
  {
    if |ns| > 0 {
      DetoursMembers(m, ns[..|ns| - 1], x);
      assert ns == ns[..|ns| - 1] + [ns[|ns| - 1]];
    }
  }

  lemma {:induction false} ValuableMembers(m: map<int, PassiveNode>, ns: seq<int>, x: int)
    requires WellFormed(m)
    ensures x in ValuableNodes(m, ns) <==> x in ns && IsValuable(m, x)
  {
    if |ns| > 0 {
      ValuableMembers(m, ns[..|ns| - 1], x);
      assert ns == ns[..|ns| - 1] + [ns[|ns| - 1]];
    }
  }

  /** Every valuable node weighs at least 50 and no node more than 120, so
      the total lies between those bounds. */
  lemma {:induction false} TotalWeightBounds(m: map<int, PassiveNode>, ns: seq<int>)
    requires WellFormed(m)
    ensures 50 * |ValuableNodes(m, ns)| <= TotalWeight(m, ns) <= 120 * |ns|
  {
    if |ns| > 0 {
      TotalWeightBounds(m, ns[..|ns| - 1]);
    }
  }

  /** What a path's score says about one node: the scored nodes are the
      path's unallocated nodes; detour and valuable nodes are disjoint parts
      of them, and a valuable node weighs at least 50. */
  lemma AnalysisMembers(m: map<int, PassiveNode>, path: seq<int>, allocatedNodes: set<int>, x: int)
    requires WellFormed(m)
    ensures var a := AnalysisOf(m, path, allocatedNodes);
      && (x in a.path <==> x in path && x !in allocatedNodes)
      && (x in a.detourNodes ==> x in a.path && x !in a.valuableNodes)
      && (x in a.valuableNodes ==> x in a.path && x in m && Weight(m[x]) >= 50)
  {
    var ns := NewNodes(path, allocatedNodes);
    NewNodesMembers(path, allocatedNodes, x);
    DetoursMembers(m, ns, x);
    ValuableMembers(m, ns, x);
  }

  /** What a path's score says about its totals: the cost is the number of
      scored nodes, the efficiency is the total weight per scored node, and
      the total lies between 50 per valuable node and 120 per scored node. */
  lemma AnalysisTotals(m: map<int, PassiveNode>, path: seq<int>, allocatedNodes: set<int>)
    requires WellFormed(m)
    ensures var a := AnalysisOf(m, path, allocatedNodes);
      && a.cost == |a.path|
      && (a.cost > 0 ==> a.efficiency == a.totalWeight as real / a.cost as real)
      && (a.cost == 0 ==> a.efficiency == 0.0 && a.totalWeight == 0)
      && 50 * |a.valuableNodes| <= a.totalWeight <= 120 * a.cost
  {
    TotalWeightBounds(m, NewNodes(path, allocatedNodes));
  }

  // ===== The path finder =====

  /** Each node's out-list, read from the node map. */
  function ConnectionGraph(m: map<int, PassiveNode>): Graph {
    map k | k in m :: m[k].connections
  }

  /** The starts that seed the search: those that are allocated. */
  function Seeds(starts: seq<int>, allocatedNodes: set<int>): set<int> {
    set s | s in starts && s in allocatedNodes
  }

  /** The queue after seeding from `starts[..i]`: every allocated start
      seen so far is queued at depth 0, and nothing else is. */
  ghost predicate SeededUpTo(starts: seq<int>, i: nat, allocatedNodes: set<int>, queue: seq<int>, d: map<int, nat>) {
    i <= |starts|
    && (forall k :: 0 <= k < |queue| ==> queue[k] in d && d[queue[k]] == 0)
    && (forall x :: x in d ==> x in queue && x in Seeds(starts, allocatedNodes))
    && (forall k :: 0 <= k < i && starts[k] in allocatedNodes ==> starts[k] in d)
  }

  lemma SeedOne(starts: seq<int>, i: nat, allocatedNodes: set<int>, queue: seq<int>, d: map<int, nat>)
    requires SeededUpTo(starts, i, allocatedNodes, queue, d) && i < |starts| && starts[i] in allocatedNodes
    ensures SeededUpTo(starts, i + 1, allocatedNodes, queue + [starts[i]], d[starts[i] := 0])
  {
    var q := queue + [starts[i]];
    assert forall k :: 0 <= k < |queue| ==> q[k] == queue[k];
  }

  /** A route found by the search stays the scored path, and it is a
      shortest one when no route is shorter. */
  lemma FoundAnswer(m: map<int, PassiveNode>, g: Graph, allocatedNodes: set<int>, sources: set<int>,
                    target: int, path: seq<int>, depth: nat)
    requires WellFormed(m) && IsRouteTo(g, allocatedNodes, sources, target, path) && |path| == depth + 1
    requires forall p :: IsRouteTo(g, allocatedNodes, sources, target, p) ==> |p| >= depth + 1
    ensures AnalysisOf(m, path, allocatedNodes).path == path
    ensures ShortestRoute(g, allocatedNodes, sources, target, path)
  {
    NewNodesOfUnallocated(path, allocatedNodes);
  }

  /** The out-list the search reads for a node is the node's successor list
      in the connection graph. */
  lemma NeighborsAreSucc(m: map<int, PassiveNode>, id: int)
    ensures Succ(ConnectionGraph(m), id) == if id in m then m[id].connections else []
  {
  }

  lemma SeededState(g: Graph, allocatedNodes: set<int>, starts: seq<int>, target: int, nodes: set<int>,
                    queue: seq<int>, d: map<int, nat>, visited: set<int>)
    requires visited == allocatedNodes && target !in allocatedNodes && nodes == Listed(g)
    requires SeededUpTo(starts, |starts|, allocatedNodes, queue, d)
    ensures SearchState(g, allocatedNodes, Seeds(starts, allocatedNodes), target, nodes, queue, d, 0, map[], visited)
  {
    var sources := Seeds(starts, allocatedNodes);
    assert Layered(queue, d, 0);
    forall s | s in sources ensures s in d && d[s] == 0 {
      var k :| 0 <= k < |starts| && starts[k] == s;
    }
  }

  /** One round of the search: visits the out-list of the node at the
      head of the queue, queueing each unvisited neighbour one level deeper
      and recording where it was reached from, and stops as soon as the
      target appears. */
  method ExpandHead(current: int, neighbors: seq<int>, target: int, allocatedNodes: set<int>,
                    queue0: seq<int>, visited0: set<int>, parent0: map<int, int>,
                    ghost g: Graph, ghost sources: set<int>, ghost nodes: set<int>, ghost d0: map<int, nat>,
                    ghost h: nat, ghost depth: nat)
    returns (found: bool, queue: seq<int>, visited: set<int>, parent: map<int, int>, ghost d: map<int, nat>)
    requires SearchState(g, allocatedNodes, sources, target, nodes, queue0, d0, h, parent0, visited0)
    requires h < |queue0| && queue0[h] == current && current in d0 && d0[current] == depth
    requires neighbors == Succ(g, current)
    ensures SearchState(g, allocatedNodes, sources, target, nodes, queue, d, h, parent, visited)
    ensures h < |queue| && queue[h] == current && current in d && d[current] == depth
    ensures |nodes - visited| + |queue| == |nodes - visited0| + |queue0|
    ensures found ==> target in neighbors
    ensures !found ==> SeenUpTo(neighbors, |neighbors|, target, allocatedNodes, d, depth)
  {
    queue, visited, parent, d := queue0, visited0, parent0, d0;
    found := false;
    var j := 0;
    while j < |neighbors| && !found
      invariant j <= |neighbors|
      invariant SearchState(g, allocatedNodes, sources, target, nodes, queue, d, h, parent, visited)
      invariant h < |queue| && queue[h] == current && current in d && d[current] == depth
      invariant found ==> target in neighbors
      invariant !found ==> SeenUpTo(neighbors, j, target, allocatedNodes, d, depth)
      invariant |nodes - visited| + |queue| == |nodes - visited0| + |queue0|
    {
      var neighbor := neighbors[j];
      if neighbor == target {
        found := true;
      } else if neighbor !in visited {
        EnqueueStep(g, allocatedNodes, sources, target, nodes, queue, d, h, parent, visited, current, depth, neighbors, j);
        EnqueueProgress(g, allocatedNodes, sources, target, nodes, queue, d, h, parent, visited, current, depth, neighbors, j);
        visited := visited + {neighbor};
        parent := parent[neighbor := current];
        queue := queue + [neighbor];
        d := d[neighbor := depth + 1];
      } else {
        SkipStep(g, allocatedNodes, sources, target, nodes, queue, d, h, parent, visited, current, depth, neighbors, j);
      }
      j := j + 1;
    }
  }

  // ===== Suggestions =====

  /** Why a target is suggested: a missing keystone or a missing notable. */
  datatype TargetCategory = KeystoneTarget | NotableTarget

  function PriorityOf(c: TargetCategory): int {
    match c
    case KeystoneTarget => 10
    case NotableTarget => 5
  }

  datatype Suggestion = Suggestion(
    targetId: int,
    targetName: string,
    category: TargetCategory,
    path: seq<int>,
    cost: nat,
    efficiency: real,
    detourCount: nat,
    priority: int)

  /** Higher priority first, then cheaper, then more efficient. */
  function SuggestionKey(s: Suggestion): Key {
    Key(-(s.priority as real), s.cost as real, -s.efficiency)
  }

  /** The missing keystones followed by the missing notables, each tagged
      with its category. */
  function Candidates(keystones: seq<int>, notables: seq<int>): (r: seq<(int, TargetCategory)>)
    ensures |r| == |keystones| + |notables|
    ensures forall i :: 0 <= i < |keystones| ==> r[i] == (keystones[i], KeystoneTarget)
    ensures forall i :: 0 <= i < |notables| ==> r[|keystones| + i] == (notables[i], NotableTarget)
  {
    seq(|keystones|, i requires 0 <= i < |keystones| => (keystones[i], KeystoneTarget))
      + seq(|notables|, i requires 0 <= i < |notables| => (notables[i], NotableTarget))
  }

  /** The candidates, in order, that the search reaches: not allocated and
      with some route from the allocated nodes. */
  ghost function ReachableTargets(g: Graph, allocatedNodes: set<int>, cands: seq<(int, TargetCategory)>)
    : seq<(int, TargetCategory)>
  {
    if |cands| == 0 then []
    else
      var last := cands[|cands| - 1];
      ReachableTargets(g, allocatedNodes, cands[..|cands| - 1])
        + (if last.0 !in allocatedNodes && !NoRoute(g, allocatedNodes, allocatedNodes, last.0) then [last] else [])
  }

  lemma ReachableStep(g: Graph, allocatedNodes: set<int>, cands: seq<(int, TargetCategory)>, i: nat)
    requires i < |cands|
    ensures ReachableTargets(g, allocatedNodes, cands[..i + 1])
      == ReachableTargets(g, allocatedNodes, cands[..i])
         + (if cands[i].0 !in allocatedNodes && !NoRoute(g, allocatedNodes, allocatedNodes, cands[i].0)
            then [cands[i]] else [])
  {
    assert cands[..i + 1][..i] == cands[..i];
  }

  /** The targets and categories of a list of suggestions, in order. */
  function TargetsOf(ss: seq<Suggestion>): (r: seq<(int, TargetCategory)>)
    ensures |r| == |ss|
    ensures forall i :: 0 <= i < |ss| ==> r[i] == (ss[i].targetId, ss[i].category)
  {
    if |ss| == 0 then [] else TargetsOf(ss[..|ss| - 1]) + [(ss[|ss| - 1].targetId, ss[|ss| - 1].category)]
  }

  lemma TargetsOfAppend(ss: seq<Suggestion>, s: Suggestion)
    ensures TargetsOf(ss + [s]) == TargetsOf(ss) + [(s.targetId, s.category)]
  {
    assert (ss + [s])[..|ss|] == ss;
  }

  /** A suggestion made from a search result: its path is a shortest route
      from the allocated nodes to the target, and its cost, efficiency and
      detour count are those of the path's score. */
  ghost predicate ValidSuggestion(m: map<int, PassiveNode>, allocatedNodes: set<int>, s: Suggestion)
    requires WellFormed(m)
  {
    var a := AnalysisOf(m, s.path, allocatedNodes);
    ShortestRoute(ConnectionGraph(m), allocatedNodes, allocatedNodes, s.targetId, s.path)
    && s.cost == |s.path| && s.cost == a.cost && s.efficiency == a.efficiency && s.detourCount == |a.detourNodes|
    && s.priority == PriorityOf(s.category)
    && s.targetName == (if s.targetId in m then m[s.targetId].name else "Unknown")
  }

  ghost predicate AllValid(m: map<int, PassiveNode>, allocatedNodes: set<int>, ss: seq<Suggestion>)
    requires WellFormed(m)
  {
    forall k :: 0 <= k < |ss| ==> ValidSuggestion(m, allocatedNodes, ss[k])
  }

  lemma ValidAppend(m: map<int, PassiveNode>, allocatedNodes: set<int>, ss: seq<Suggestion>, s: Suggestion)
    requires WellFormed(m) && AllValid(m, allocatedNodes, ss) && ValidSuggestion(m, allocatedNodes, s)
    ensures AllValid(m, allocatedNodes, ss + [s])
  {
    forall k | 0 <= k < |ss + [s]| ensures ValidSuggestion(m, allocatedNodes, (ss + [s])[k]) {
      if k < |ss| {
        assert (ss + [s])[k] == ss[k];
      }
    }
  }

  /** Python's `list(s)` of a set: every element once, in an order the
      model leaves open. */
  method ListOfSet(s: set<int>) returns (r: seq<int>)
    ensures forall x :: x in r <==> x in s
    ensures |r| == |s|
  {
    r := [];
    var rest := s;
    while rest != {}
      invariant rest <= s
      invariant forall x :: x in r <==> x in s && x !in rest
      invariant |r| + |rest| == |s|
      decreases |rest|
    {
      NonEmptyHasElement(rest);
      var x :| x in rest;
      r := r + [x];
      rest := rest - {x};
    }
  }

  lemma NonEmptyHasElement(s: set<int>)
    requires s != {}
    ensures exists x :: x in s
  {
    if forall x :: x !in s {
      assert false;
    }
  }

  /** Searching from every allocated node seeds the search with all of them. */
  lemma SeedsOfAll(starts: seq<int>, allocatedNodes: set<int>)
    requires forall x :: x in starts <==> x in allocatedNodes
    ensures Seeds(starts, allocatedNodes) == allocatedNodes
  {
    forall x | x in allocatedNodes ensures x in Seeds(starts, allocatedNodes) {
      assert x in starts;
    }
  }

  /** Sorting valid suggestions keeps them valid and keeps their targets,
      and puts every keystone suggestion before every notable one. */
  lemma SortedSuggestions(m: map<int, PassiveNode>, allocatedNodes: set<int>, found: seq<Suggestion>)
    requires WellFormed(m) && AllValid(m, allocatedNodes, found)
    ensures var sorted := SortBy(found, SuggestionKey);
      && SortedBy(sorted, SuggestionKey)
      && (forall i, j :: 0 <= i < j < |sorted| && sorted[j].category == KeystoneTarget ==> sorted[i].category == KeystoneTarget)
      && (forall k :: 0 <= k < |sorted| ==>
            ValidSuggestion(m, allocatedNodes, sorted[k]) && (sorted[k].targetId, sorted[k].category) in TargetsOf(found))
  {
    var sorted := SortBy(found, SuggestionKey);
    SortBySortsAndPermutes(found, SuggestionKey);
    forall k | 0 <= k < |sorted|
      ensures ValidSuggestion(m, allocatedNodes, sorted[k])
      ensures (sorted[k].targetId, sorted[k].category) in TargetsOf(found)
    {
      assert sorted[k] in multiset(found);
      var l :| 0 <= l < |found| && found[l] == sorted[k];
      assert TargetsOf(found)[l] == (sorted[k].targetId, sorted[k].category);
    }
    forall i, j | 0 <= i < j < |sorted| && sorted[j].category == KeystoneTarget
      ensures sorted[i].category == KeystoneTarget
    {
      assert KeyLe(SuggestionKey(sorted[i]), SuggestionKey(sorted[j]));
    }
  }

  class PathFinder {
    const classifier: Classifier

    constructor (c: Classifier)
      ensures classifier == c
    {
      classifier := c;
    }

    /** Breadth-first search from the allocated starts towards `target`,
        following out-lists and never entering an allocated node. */
    method FindShortestPath(starts: seq<int>, target: int, allocatedNodes: set<int>) returns (r: PathResult)
      requires classifier.Valid()
      ensures r.AlreadyAllocated? <==> target in allocatedNodes
      ensures r.Unreachable? <==>
        target !in allocatedNodes
        && NoRoute(ConnectionGraph(classifier.nodeMap), allocatedNodes, Seeds(starts, allocatedNodes), target)
      ensures r.Reached? ==>
        ShortestRoute(ConnectionGraph(classifier.nodeMap), allocatedNodes, Seeds(starts, allocatedNodes), target, r.analysis.path)
        && r.analysis == AnalysisOf(classifier.nodeMap, r.analysis.path, allocatedNodes)
    {
      if target in allocatedNodes {
        return AlreadyAllocated;
      }
      ghost var g := ConnectionGraph(classifier.nodeMap);
      ghost var sources := Seeds(starts, allocatedNodes);
      ghost var nodes := Listed(g);
      var queue: seq<int> := [];
      var visited := allocatedNodes;
      var parent: map<int, int> := map[];
      ghost var d: map<int, nat> := map[];
      for i := 0 to |starts|
        invariant visited == allocatedNodes
        invariant SeededUpTo(starts, i, allocatedNodes, queue, d)
      {
        if starts[i] in allocatedNodes {
          SeedOne(starts, i, allocatedNodes, queue, d);
          queue := queue + [starts[i]];
          visited := visited + {starts[i]};
          d := d[starts[i] := 0];
        }
      }
      SeededState(g, allocatedNodes, starts, target, nodes, queue, d, visited);
      var h: nat := 0;
      while h < |queue|
        invariant SearchState(g, allocatedNodes, sources, target, nodes, queue, d, h, parent, visited)
        decreases |nodes - visited| + |queue| - h
      {
        var current := queue[h];
        ghost var depth := HeadDepth(g, allocatedNodes, sources, target, nodes, queue, d, h, parent, visited);
        var node := classifier.GetNode(current);
        var neighbors := if node.Some? then node.value.connections else [];
        var found;
        found, queue, visited, parent, d :=
          ExpandHead(current, neighbors, target, allocatedNodes, queue, visited, parent, g, sources, nodes, d, h, depth);
        if found {
          FoundStep(g, allocatedNodes, sources, target, nodes, queue, d, h, parent, visited);
          var path := ReconstructPath(parent, current, target, g, allocatedNodes, sources, d);
          FoundAnswer(classifier.nodeMap, g, allocatedNodes, sources, target, path, depth);
          r := AnalyzePath(path, allocatedNodes);
          return;
        }
        AdvanceStep(g, allocatedNodes, sources, target, nodes, queue, d, h, parent, visited);
        h := h + 1;
      }
      ExhaustedStep(g, allocatedNodes, sources, target, nodes, queue, d, h, parent, visited);
      return Unreachable;
    }

    /** Follows parent pointers back from `last` to a source and returns the
        nodes after the source, ending with `target`. */
    method ReconstructPath(parent: map<int, int>, last: int, target: int,
                           ghost g: Graph, ghost blocked: set<int>, ghost sources: set<int>, ghost d: map<int, nat>)
      returns (path: seq<int>)
      requires ParentsValid(g, blocked, sources, parent, d)
      requires last in d && target in Succ(g, last) && target !in blocked
      ensures IsRouteTo(g, blocked, sources, target, path) && |path| == d[last] + 1
    {
      var reversed := [target];
      var current := last;
      while current in parent
        invariant BackChain(g, blocked, d, reversed, current)
        invariant reversed[0] == target && |reversed| + d[current] == d[last] + 1
        decreases d[current]
      {
        ChainStep(g, blocked, sources, parent, d, reversed, current);
        reversed := reversed + [current];
        current := parent[current];
      }
      path := Seqs.Reverse(reversed);
      ChainIsRoute(g, blocked, sources, parent, d, reversed, current);
    }

    /** Scores a path: its unallocated nodes, their total weight and the
        weight per node, and which of them are detours or valuable. */
    method AnalyzePath(path: seq<int>, allocatedNodes: set<int>) returns (r: PathResult)
      requires classifier.Valid()
      ensures r == Reached(AnalysisOf(classifier.nodeMap, path, allocatedNodes))
    {
      var m := classifier.nodeMap;
      var newNodes := NewNodes(path, allocatedNodes);
      var total := 0;
      var detours: seq<int> := [];
      var valuable: seq<int> := [];
      for i := 0 to |newNodes|
        invariant total == TotalWeight(m, newNodes[..i])
        invariant detours == Detours(m, newNodes[..i])
        invariant valuable == ValuableNodes(m, newNodes[..i])
      {
        Seqs.PrefixStep(newNodes, i);
        var node := classifier.GetNode(newNodes[i]);
        if node.Some? {
          total := total + Weight(node.value);
          if node.value.nodeType == SmallPassive && |node.value.stats| == 0 {
            detours := detours + [newNodes[i]];
          } else if Weight(node.value) >= BaseWeight(Notable) {
            valuable := valuable + [newNodes[i]];
          }
        }
      }
      Seqs.WholePrefix(newNodes);
      var cost := |newNodes|;
      var efficiency := if cost > 0 then total as real / cost as real else 0.0;
      r := Reached(PathAnalysis(newNodes, cost, total, efficiency, detours, valuable, Details(m, newNodes)));
    }

    /** Ranks paths to missing keystones and notables: the first `2 * max`
        candidates (keystones first) are searched from every allocated
        node, each reached one becomes a suggestion, and the suggestions are
        sorted by priority, then cost, then efficiency, and cut to `max`. */
    method SuggestOptimalPaths(allocatedNodes: set<int>, keystones: seq<int>, notables: seq<int>, max: int)
      returns (r: seq<Suggestion>, ghost found: seq<Suggestion>)
      requires classifier.Valid()
      ensures TargetsOf(found) == ReachableTargets(ConnectionGraph(classifier.nodeMap), allocatedNodes,
                                                   Take(Candidates(keystones, notables), 2 * max))
      ensures AllValid(classifier.nodeMap, allocatedNodes, found)
      ensures r == Take(SortBy(found, SuggestionKey), max)
      ensures |r| == |Take(ReachableTargets(ConnectionGraph(classifier.nodeMap), allocatedNodes,
                                            Take(Candidates(keystones, notables), 2 * max)), max)|
      ensures SortedBy(r, SuggestionKey)
      ensures forall i, j :: 0 <= i < j < |r| && r[j].category == KeystoneTarget ==> r[i].category == KeystoneTarget
      ensures forall i :: 0 <= i < |r| ==>
        ValidSuggestion(classifier.nodeMap, allocatedNodes, r[i])
        && (r[i].targetId, r[i].category) in ReachableTargets(ConnectionGraph(classifier.nodeMap), allocatedNodes,
                                                              Take(Candidates(keystones, notables), 2 * max))
    {
      ghost var m := classifier.nodeMap;
      ghost var g := ConnectionGraph(m);
      var cands := Take(Candidates(keystones, notables), 2 * max);
      var starts := ListOfSet(allocatedNodes);
      var reached: seq<Suggestion> := [];
      for i := 0 to |cands|
        invariant TargetsOf(reached) == ReachableTargets(g, allocatedNodes, cands[..i])
        invariant AllValid(m, allocatedNodes, reached)
      {
        var (target, category) := cands[i];
        var suggestion := SuggestionFor(starts, target, category, allocatedNodes);
        ReachableStep(g, allocatedNodes, cands, i);
        if suggestion.Some? {
          TargetsOfAppend(reached, suggestion.value);
          ValidAppend(m, allocatedNodes, reached, suggestion.value);
          reached := reached + [suggestion.value];
        }
      }
      assert cands[..|cands|] == cands;
      var sorted := SortBy(reached, SuggestionKey);
      SortedSuggestions(m, allocatedNodes, reached);
      TakeSorted(sorted, max, SuggestionKey);
      r := Take(sorted, max);
      found := reached;
    }

    /** The suggestion for one candidate, if the search reaches it. */
    method SuggestionFor(starts: seq<int>, target: int, category: TargetCategory, allocatedNodes: set<int>)
      returns (s: Option<Suggestion>)
      requires classifier.Valid()
      requires forall x :: x in starts <==> x in allocatedNodes
      ensures s.Some? <==>
        target !in allocatedNodes && !NoRoute(ConnectionGraph(classifier.nodeMap), allocatedNodes, allocatedNodes, target)
      ensures s.Some? ==>
        ValidSuggestion(classifier.nodeMap, allocatedNodes, s.value)
        && s.value.targetId == target && s.value.category == category
    {
      SeedsOfAll(starts, allocatedNodes);
      var result := FindShortestPath(starts, target, allocatedNodes);
      if result.Reached? {
        var node := classifier.GetNode(target);
        var a := result.analysis;
        s := Some(Suggestion(target, if node.Some? then node.value.name else "Unknown", category,
                             a.path, a.cost, a.efficiency, |a.detourNodes|, PriorityOf(category)));
      } else {
        s := None;
      }
    }
  }

  // ===== Cluster jewels =====

  /** The enum value of a cluster size. */
  function SizeName(c: ClusterSize): string {
    match c
    case Small => "small"
    case Medium => "medium"
    case Large => "large"
  }

  /** The size a name denotes, if it is one of the three enum values. */
  function SizeOfName(name: string): (r: Option<ClusterSize>)
    ensures r.Some? ==> SizeName(r.value) == name
  {
    if name == "small" then Some(Small)
    else if name == "medium" then Some(Medium)
    else if name == "large" then Some(Large)
    else None
  }

  lemma SizeNameRoundTrip(c: ClusterSize)
    ensures SizeOfName(SizeName(c)) == Some(c)
  {
    match c
    case Small =>
    case Medium =>
    case Large =>
  }

  datatype ClusterSpec = ClusterSpec(maxPassives: nat, notableCount: nat, pointCostLow: nat, pointCostHigh: nat)

  /** The cluster-jewel table, one entry per size. */
  function ClusterDatabase(c: ClusterSize): ClusterSpec {
    match c
    case Small => ClusterSpec(3, 1, 2, 3)
    case Medium => ClusterSpec(6, 2, 4, 6)
    case Large => ClusterSpec(12, 3, 8, 12)
  }

  /** The table agrees with the passive counts used to size cluster sockets:
      a jewel's point cost tops out at its passive count, and larger jewels
      carry more notables. */
  lemma ClusterDatabaseConsistent(c: ClusterSize)
    ensures ClusterDatabase(c).maxPassives == MaxPassives(c)
    ensures 0 < ClusterDatabase(c).pointCostLow <= ClusterDatabase(c).pointCostHigh == ClusterDatabase(c).maxPassives
    ensures 1 <= ClusterDatabase(c).notableCount <= 3
    ensures ClusterDatabase(c).notableCount < ClusterDatabase(c).maxPassives
  {
  }

  function SpecOf(size: string): Option<ClusterSpec> {
    match SizeOfName(size)
    case Some(c) => Some(ClusterDatabase(c))
    case None => None
  }

  /** The fields of a jewel record that the analysis reads; a missing field
      takes its default. */
  datatype JewelData = JewelData(
    size: Option<string>,
    enchants: Option<seq<string>>,
    notables: Option<seq<string>>,
    passives: Option<int>)

  datatype ClusterRecommendation =
    | AddEnchant(size: string)
    | MoreNotables(current: nat, expected: nat)

  datatype JewelAnalysis = JewelAnalysis(
    size: string,
    passiveCount: int,
    pointCost: int,
    notables: seq<string>,
    enchants: seq<string>,
    matchScore: real,
    recommendations: seq<ClusterRecommendation>)

  /** 50, plus 10 for having any enchant, plus 10 per notable, capped at 100. */
  function MatchScore(enchants: seq<string>, notables: seq<string>): (r: real)
    ensures 50.0 <= r <= 100.0
  {
    var score := 50.0 + (if |enchants| > 0 then 10.0 else 0.0) + (if |notables| > 0 then |notables| as real * 10.0 else 0.0);
    if score < 100.0 then score else 100.0
  }

  /** The score is 50 exactly for a bare jewel, reaches the cap from four
      notables on (five without an enchant), and never drops when a notable
      or an enchant is added. */
  lemma MatchScoreProperties(enchants: seq<string>, notables: seq<string>, n: string)
    ensures MatchScore(enchants, notables) == 50.0 <==> |enchants| == 0 && |notables| == 0
    ensures |notables| >= 5 || (|enchants| > 0 && |notables| >= 4) ==> MatchScore(enchants, notables) == 100.0
    ensures MatchScore(enchants, notables) <= MatchScore(enchants, notables + [n])
    ensures MatchScore(enchants, notables) <= MatchScore(enchants + [n], notables)
  {
  }

  /** The notable count expected for a size, 2 when the size is unknown. */
  function ExpectedNotables(size: string): nat {
    match SpecOf(size)
    case Some(spec) => spec.notableCount
    case None => 2
  }

  function ClusterRecommendations(size: string, enchants: seq<string>, notables: seq<string>)
    : (r: seq<ClusterRecommendation>)
    ensures AddEnchant(size) in r <==> |enchants| == 0
    ensures |notables| < ExpectedNotables(size) ==>
      |r| > 0 && r[|r| - 1] == MoreNotables(|notables|, ExpectedNotables(size))
    ensures forall k :: 0 <= k < |r| && r[k].MoreNotables? ==>
      r[k] == MoreNotables(|notables|, ExpectedNotables(size)) && r[k].current < r[k].expected
    ensures |r| <= 2 && (|r| == 2 ==> r[0].AddEnchant?)
  {
    (if |enchants| == 0 then [AddEnchant(size)] else [])
      + (if |notables| < ExpectedNotables(size) then [MoreNotables(|notables|, ExpectedNotables(size))] else [])
  }

  /** The build type is accepted but not consulted. */
  function AnalyzeClusterJewel(data: JewelData, buildType: string): (r: JewelAnalysis)
    ensures r.size == data.size.GetOr("medium")
    ensures r.pointCost == r.passiveCount
    ensures data.passives.Some? ==> r.passiveCount == data.passives.value
    ensures data.passives.None? ==>
      r.passiveCount == match SpecOf(r.size) case Some(spec) => spec.maxPassives case None => 6
    ensures r.matchScore == MatchScore(r.enchants, r.notables)
    ensures r.recommendations == ClusterRecommendations(r.size, r.enchants, r.notables)
  {
    var size := data.size.GetOr("medium");
    var enchants := data.enchants.GetOr([]);
    var notables := data.notables.GetOr([]);
    var passiveCount := match data.passives
      case Some(p) => p
      case None => (match SpecOf(size) case Some(spec) => spec.maxPassives case None => 6);
    JewelAnalysis(size, passiveCount, passiveCount, notables, enchants,
                  MatchScore(enchants, notables), ClusterRecommendations(size, enchants, notables))
  }

  /** A jewel of a known size without an explicit passive count costs the
      top of its point-cost range; one of no known size (or no size at all)
      costs the medium jewel's 6. */
  lemma JewelCostInRange(data: JewelData, buildType: string)
    requires data.passives.None?
    ensures var r := AnalyzeClusterJewel(data, buildType);
      && (SizeOfName(r.size).Some? ==>
            ClusterDatabase(SizeOfName(r.size).value).pointCostLow <= r.pointCost
            <= ClusterDatabase(SizeOfName(r.size).value).pointCostHigh)
      && (data.size.None? ==> r.pointCost == 6)
  {
  }
}
