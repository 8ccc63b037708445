/** Build extraction: turns a Path of Building XML document into the canonical
    build records. Each extractor is a method whose loops mirror the
    original's and whose result is tied to a specification function; the
    properties the extractor promises are lemmas about those functions. */
module PobXmlMapper {
  import opened Wrappers
  import opened Text
  import opened Xml
  import opened CharacterModels
  import opened Seqs

  /** Why an extraction fails. */
  datatype MapperError =
    | BuildMissing                     // no usable Build element
    | NotAnInteger(text: string)       // an attribute `int()` rejects
    | Invalid(error: ValidationError)  // a record field outside its range

  // ===== Version detection =====

  /** A document carrying a Calcs element anywhere below the root comes from
      the community fork; every other document is official. */
  function DetectPobVersion(root: Element): (v: string)
    ensures v == "community" || v == "official"
    ensures v == "community" <==> root.HasDescendant("Calcs")
  {
    if root.HasDescendant("Calcs") then "community" else "official"
  }

  // ===== Integer attributes =====

  /** `int(elem.get(name, default))`: the default when the attribute is
      absent, the parsed value when it is a decimal integer, an error otherwise. */
  function IntAttr(e: Element, name: string, default: int): (r: Result<int, MapperError>)
    ensures name !in e.attrs ==> r == Success(default)
    ensures name in e.attrs ==> (r.Success? <==> ParseInt(e.attrs[name]).Some?)
  {
    if name in e.attrs then
      match ParseInt(e.attrs[name])
      case Some(n) => Success(n)
      case None => Failure(NotAnInteger(e.attrs[name]))
    else Success(default)
  }

  // ===== Ascendancy =====

  const AscendancyNodeThreshold: int := 60000

  predicate IsAscendancyNode(nodeId: int) {
    nodeId >= AscendancyNodeThreshold
  }

  /** The Spec element of the Tree element, when both are present and have
      children; `None` when either is missing. */
  function SpecOf(root: Element): (r: Option<Element>)
    ensures r.Some? ==> r.value.children != []
  {
    var tree := root.Find("Tree");
    if Missing(tree) then None
    else
      var spec := tree.value.Find("Spec");
      if Missing(spec) then None else spec
  }

  /** Number of Node elements whose id is at or above the threshold; the
      first id `int()` rejects makes the count fail. */
  function CountAscendancyNodes(nodes: seq<Element>): (r: Result<nat, MapperError>)
    ensures r.Success? ==> r.value <= |nodes|
    ensures r.Failure? ==> r.error.NotAnInteger?
  {
    if nodes == [] then Success(0)
    else
      match CountAscendancyNodes(nodes[..|nodes| - 1])
      case Failure(e) => Failure(e)
      case Success(n) =>
        match IntAttr(nodes[|nodes| - 1], "nodeId", 0)
        case Failure(e) => Failure(e)
        case Success(id) => Success(if IsAscendancyNode(id) then n + 1 else n)
  }

  lemma {:induction false} CountFailurePersists(nodes: seq<Element>, k: nat)
    requires k <= |nodes| && CountAscendancyNodes(nodes[..k]).Failure?
    ensures CountAscendancyNodes(nodes) == CountAscendancyNodes(nodes[..k])
  {
    if k < |nodes| {
      var prefix := nodes[..|nodes| - 1];
      assert prefix[..k] == nodes[..k];
      CountFailurePersists(prefix, k);
    } else {
      assert nodes[..k] == nodes;
    }
  }

  /** No ascendancy nodes is NONE, one to seven is PARTIAL, eight or more is
      COMPLETE. */
  function StatusFor(n: nat): (s: AscendancyStatus)
    ensures s == StatusNone <==> n == 0
    ensures s == StatusPartial <==> 1 <= n <= 7
    ensures s == StatusComplete <==> n >= 8
  {
    if n == 0 then StatusNone else if n < 8 then StatusPartial else StatusComplete
  }

  /** The ascendancy status and points for a build. `clamp` selects between
      the points as the original computes them (the raw count) and the
      corrected points, capped at the eight the record accepts. */
  function AscendancyWith(root: Element, name: Option<string>, clamp: bool): (r: Result<(AscendancyStatus, int), MapperError>)
    ensures r.Failure? ==> r.error.NotAnInteger?
    ensures r.Success? ==> 0 <= r.value.1 && (clamp ==> r.value.1 <= 8)
  {
    if name.None? || name.value == "" then Success((StatusNone, 0))
    else
      match SpecOf(root)
      case None => Success((StatusPartial, 0))
      case Some(spec) =>
        match CountAscendancyNodes(spec.FindAll("Node"))
        case Failure(e) => Failure(e)
        case Success(n) => Success((StatusFor(n), if clamp && n > 8 then 8 else n))
  }

  /** The status and points as the original computes them. */
  function AscendancyAsWritten(root: Element, name: Option<string>): Result<(AscendancyStatus, int), MapperError> {
    AscendancyWith(root, name, false)
  }

  /** The status and points with the count capped at eight. */
  function AscendancyOf(root: Element, name: Option<string>): Result<(AscendancyStatus, int), MapperError> {
    AscendancyWith(root, name, true)
  }

  /** The three outcomes of the ascendancy computation: no ascendancy name
      gives (NONE, 0); a missing Tree or Spec gives (PARTIAL, 0); otherwise the
      status follows the count and the corrected points never exceed 8. */
  lemma AscendancyOutcomes(root: Element, name: Option<string>)
    ensures name.None? || name.value == "" ==> AscendancyOf(root, name) == Success((StatusNone, 0))
    ensures name.Some? && name.value != "" && SpecOf(root).None? ==> AscendancyOf(root, name) == Success((StatusPartial, 0))
    ensures name.Some? && name.value != "" && SpecOf(root).Some? ==>
              match CountAscendancyNodes(SpecOf(root).value.FindAll("Node"))
              case Failure(e) => AscendancyOf(root, name) == Failure(e)
              case Success(n) => AscendancyAsWritten(root, name) == Success((StatusFor(n), n))
                                 && AscendancyOf(root, name) == Success((StatusFor(n), if n > 8 then 8 else n))
    ensures AscendancyOf(root, name).Success? ==> 0 <= AscendancyOf(root, name).value.1 <= 8
  {
  }

  /** One more Node element either fails the count or adds at most one. */
  lemma CountStep(nodes: seq<Element>, i: nat, count: nat)
    requires i < |nodes| && CountAscendancyNodes(nodes[..i]) == Success(count)
    ensures var id := IntAttr(nodes[i], "nodeId", 0);
            CountAscendancyNodes(nodes[..i + 1])
            == if id.Failure? then Failure(id.error)
               else Success(if IsAscendancyNode(id.value) then count + 1 else count)
  {
    PrefixStep(nodes, i);
  }

  /** The counting loop over the Spec's Node elements. */
  method CountAscendancy(nodes: seq<Element>) returns (r: Result<nat, MapperError>)
    ensures r == CountAscendancyNodes(nodes)
  {
    var count: nat := 0;
    var i := 0;
    while i < |nodes|
      invariant 0 <= i <= |nodes|
      invariant CountAscendancyNodes(nodes[..i]) == Success(count)
    {
      CountStep(nodes, i, count);
      var id := IntAttr(nodes[i], "nodeId", 0);
      if id.Failure? {
        CountFailurePersists(nodes, i + 1);
        return Failure(id.error);
      }
      if IsAscendancyNode(id.value) {
        count := count + 1;
      }
      i := i + 1;
    }
    WholePrefix(nodes);
    return Success(count);
  }

  /** The ascendancy computation as the original performs it: the raw count
      becomes the points. */
  method CalculateAscendancyStatus(root: Element, name: Option<string>) returns (r: Result<(AscendancyStatus, int), MapperError>)
    ensures r == AscendancyAsWritten(root, name)
  {
    if name.None? || name.value == "" {
      return Success((StatusNone, 0));
    }
    var spec := SpecOf(root);
    if spec.None? {
      return Success((StatusPartial, 0));
    }
    var count := CountAscendancy(spec.value.FindAll("Node"));
    if count.Failure? {
      return Failure(count.error);
    }
    return Success((StatusFor(count.value), count.value));
  }

  // ===== Character core =====

  /** The core record: a missing or childless Build element is an error;
      level defaults to 1, class to "Unknown" and league to "Standard", and the
      record validator has the last word. */
  function CoreWith(root: Element, clamp: bool): Result<CharacterCore, MapperError> {
    var build := root.Find("Build");
    if Missing(build) then Failure(BuildMissing)
    else
      var b := build.value;
      match IntAttr(b, "level", 1)
      case Failure(e) => Failure(e)
      case Success(level) =>
        var ascendancy := b.Attr("ascendClassName");
        match AscendancyWith(root, ascendancy, clamp)
        case Failure(e) => Failure(e)
        case Success(sp) =>
          match NewCharacterCore(level, b.Get("className", "Unknown"), ascendancy, sp.0, sp.1, b.Get("league", "Standard"))
          case Failure(v) => Failure(Invalid(v))
          case Success(c) => Success(c)
  }

  /** The core as the original extracts it. */
  function CharacterCoreAsWritten(root: Element): Result<CharacterCore, MapperError> {
    CoreWith(root, false)
  }

  /** The core with the ascendancy points capped at eight. */
  function CharacterCoreOf(root: Element): Result<CharacterCore, MapperError> {
    CoreWith(root, true)
  }

  /** A build whose Spec lists nine or more nodes at or above the threshold
      (cluster-jewel nodes have such ids) is rejected as written, because the
      record accepts at most 8 ascendancy points; with the count capped the
      same build is accepted as a complete ascendancy with 8 points. */
  lemma AscendancyOverflowRejectsBuild(root: Element, n: nat)
    requires !Missing(root.Find("Build"))
    requires IntAttr(root.Find("Build").value, "level", 1).Success?
    requires 1 <= IntAttr(root.Find("Build").value, "level", 1).value <= 100
    requires root.Find("Build").value.Attr("ascendClassName").Some?
    requires root.Find("Build").value.Attr("ascendClassName").value != ""
    requires SpecOf(root).Some?
    requires CountAscendancyNodes(SpecOf(root).value.FindAll("Node")) == Success(n)
    requires n >= 9
    ensures CharacterCoreAsWritten(root) == Failure(Invalid(ValidationError("ascendancy_points")))
    ensures CharacterCoreOf(root).Success?
    ensures CharacterCoreOf(root).value.ascendancyPoints == 8
    ensures CharacterCoreOf(root).value.ascendancyStatus == StatusComplete
  {
  }

  /** With the count capped, extraction of the core fails only for a missing
      Build element, an attribute that is not an integer, or a level outside
      1..100, never because of the ascendancy points. */
  lemma CoreFailsOnlyOnBuildOrLevel(root: Element)
    ensures CharacterCoreOf(root).Failure? ==>
              CharacterCoreOf(root).error == BuildMissing
              || CharacterCoreOf(root).error.NotAnInteger?
              || CharacterCoreOf(root).error == Invalid(ValidationError("level"))
    ensures CharacterCoreOf(root).Success? ==> CharacterCoreOf(root).value.Valid()
  {
  }

  method ExtractCharacterCore(root: Element) returns (r: Result<CharacterCore, MapperError>)
    ensures r == CharacterCoreOf(root)
  {
    var build := root.Find("Build");
    if Missing(build) {
      return Failure(BuildMissing);
    }
    var b := build.value;
    var level := IntAttr(b, "level", 1);
    if level.Failure? {
      return Failure(level.error);
    }
    var ascendancy := b.Attr("ascendClassName");
    var sp := CalculateAscendancyStatus(root, ascendancy);
    if sp.Failure? {
      return Failure(sp.error);
    }
    var status, points := sp.value.0, sp.value.1;
    if points > 8 {
      points := 8;
    }
    var core := NewCharacterCore(level.value, b.Get("className", "Unknown"), ascendancy, status, points, b.Get("league", "Standard"));
    if core.Failure? {
      return Failure(Invalid(core.error));
    }
    return Success(core.value);
  }

  // ===== Passive allocation =====

  /** The ids of the Node elements that are positive, in document order. */
  function PositiveIds(nodes: seq<Element>): (r: Result<seq<int>, MapperError>)
    ensures r.Success? ==> |r.value| <= |nodes|
    ensures r.Failure? ==> r.error.NotAnInteger?
  {
    if nodes == [] then Success([])
    else
      match PositiveIds(nodes[..|nodes| - 1])
      case Failure(e) => Failure(e)
      case Success(ids) =>
        match IntAttr(nodes[|nodes| - 1], "nodeId", 0)
        case Failure(e) => Failure(e)
        case Success(id) => Success(if id > 0 then ids + [id] else ids)
  }

  /** One more Node element either fails the collection or appends its id when positive. */
  lemma PositiveIdsStep(nodes: seq<Element>, i: nat, nodeIds: seq<int>)
    requires i < |nodes| && PositiveIds(nodes[..i]) == Success(nodeIds)
    ensures var id := IntAttr(nodes[i], "nodeId", 0);
            PositiveIds(nodes[..i + 1])
            == if id.Failure? then Failure(id.error)
               else Success(if id.value > 0 then nodeIds + [id.value] else nodeIds)
  {
    PrefixStep(nodes, i);
  }

  /** The id of a Node element.  */
  function NodeId(node: Element): Result<int, MapperError> {
    IntAttr(node, "nodeId", 0)
  }

  /** Every collected id is positive. */
  lemma {:induction false} PositiveIdsArePositive(nodes: seq<Element>)
    requires PositiveIds(nodes).Success?
    ensures forall k :: 0 <= k < |PositiveIds(nodes).value| ==> PositiveIds(nodes).value[k] > 0
  {
    if nodes != [] {
      PositiveIdsArePositive(nodes[..|nodes| - 1]);
    }
  }

  /** Every Node element with a positive id has its id collected. */
  lemma {:induction false} PositiveIdListed(nodes: seq<Element>, i: int)
    requires PositiveIds(nodes).Success?
    requires 0 <= i < |nodes| && NodeId(nodes[i]).Success? && NodeId(nodes[i]).value > 0
    ensures NodeId(nodes[i]).value in PositiveIds(nodes).value
  {
    var prefix := nodes[..|nodes| - 1];
    if i < |nodes| - 1 {
      assert prefix[i] == nodes[i];
      PositiveIdListed(prefix, i);
    }
  }

  lemma {:induction false} PositiveIdsFailurePersists(nodes: seq<Element>, k: nat)
    requires k <= |nodes| && PositiveIds(nodes[..k]).Failure?
    ensures PositiveIds(nodes) == PositiveIds(nodes[..k])
  {
    if k < |nodes| {
      var prefix := nodes[..|nodes| - 1];
      assert prefix[..k] == nodes[..k];
      PositiveIdsFailurePersists(prefix, k);
    } else {
      assert nodes[..k] == nodes;
    }
  }

  /** `int(classId) if classId else None`, with the ASCII-only `ParseInt`. */
  function ClassStartOf(spec: Element): Result<Option<int>, MapperError> {
    var c := spec.Attr("classId");
    if c.None? || c.value == "" then Success(None)
    else
      match ParseInt(c.value)
      case Some(n) => Success(Some(n))
      case None => Failure(NotAnInteger(c.value))
  }

  /** The passive allocation: empty when the Tree or Spec is missing;
      otherwise the positive node ids, their count, the URL text and the
      class start. */
  function PassiveAllocationOf(root: Element): Result<PassiveAllocation, MapperError> {
    match SpecOf(root)
    case None => Success(EmptyPassiveAllocation)
    case Some(spec) =>
      match PositiveIds(spec.FindAll("Node"))
      case Failure(e) => Failure(e)
      case Success(ids) =>
        var urlElem := spec.Find("URL");
        var url := if urlElem.Some? then urlElem.value.text else None;
        match ClassStartOf(spec)
        case Failure(e) => Failure(e)
        case Success(cls) => Success(PassiveAllocation(ids, |ids|, [], [], [], [], url, cls))
  }

  /** Points used equals the number of nodeIds nodes, all of which are
      positive; a missing tree gives the empty allocation. */
  lemma PassiveAllocationShape(root: Element)
    ensures SpecOf(root).None? ==> PassiveAllocationOf(root) == Success(EmptyPassiveAllocation)
    ensures PassiveAllocationOf(root).Success? ==>
              var p := PassiveAllocationOf(root).value;
              p.totalPointsUsed == |p.allocatedNodes|
              && forall i :: 0 <= i < |p.allocatedNodes| ==> p.allocatedNodes[i] > 0
  {
    if SpecOf(root).Some? && PassiveAllocationOf(root).Success? {
      PositiveIdsArePositive(SpecOf(root).value.FindAll("Node"));
    }
  }

  /** The loop collecting the positive node ids. */
  method CollectNodeIds(nodes: seq<Element>) returns (r: Result<seq<int>, MapperError>)
    ensures r == PositiveIds(nodes)
  {
    var nodeIds: seq<int> := [];
    var i := 0;
    while i < |nodes|
      invariant 0 <= i <= |nodes|
      invariant PositiveIds(nodes[..i]) == Success(nodeIds)
    {
      PositiveIdsStep(nodes, i, nodeIds);
      var id := IntAttr(nodes[i], "nodeId", 0);
      if id.Failure? {
        PositiveIdsFailurePersists(nodes, i + 1);
        return Failure(id.error);
      }
      if id.value > 0 {
        nodeIds := nodeIds + [id.value];
      }
      i := i + 1;
    }
    WholePrefix(nodes);
    return Success(nodeIds);
  }

  method ExtractPassiveAllocation(root: Element) returns (r: Result<PassiveAllocation, MapperError>)
    ensures r == PassiveAllocationOf(root)
  {
    var spec := SpecOf(root);
    if spec.None? {
      return Success(EmptyPassiveAllocation);
    }
    var nodeIds := CollectNodeIds(spec.value.FindAll("Node"));
    if nodeIds.Failure? {
      return Failure(nodeIds.error);
    }
    var urlElem := spec.value.Find("URL");
    var url := if urlElem.Some? then urlElem.value.text else None;
    var cls := ClassStartOf(spec.value);
    if cls.Failure? {
      return Failure(cls.error);
    }
    return Success(PassiveAllocation(nodeIds.value, |nodeIds.value|, [], [], [], [], url, cls.value));
  }

  // ===== Gems =====

  function ParseQualityType(qualityId: string): (q: GemQualityType)
    ensures qualityId !in {"Anomalous", "Divergent", "Phantasmal"} ==> q == Default
  {
    if qualityId == "Anomalous" then Anomalous
    else if qualityId == "Divergent" then Divergent
    else if qualityId == "Phantasmal" then Phantasmal
    else Default
  }

  /** Support classification: a hit in the reference table's support names
      first, then a gem id naming a support gem, then name keywords. */
  predicate IsSupportGem(supportNames: set<string>, name: string, gemId: string) {
    Lower(name) in supportNames
    || (gemId != "" && Contains(gemId, "SupportGem"))
    || Contains(name, "Support") || Contains(name, "support")
    || Contains(name, "Awakened") || Contains(name, "awakened")
  }

  /** The classification's precedence: the table decides when it knows the
      name, the gem id decides next, and only then do the keywords. */
  lemma SupportPrecedence(supportNames: set<string>, name: string, gemId: string)
    ensures Lower(name) in supportNames ==> IsSupportGem(supportNames, name, gemId)
    ensures gemId != "" && Contains(gemId, "SupportGem") ==> IsSupportGem(supportNames, name, gemId)
    ensures Lower(name) !in supportNames && !(gemId != "" && Contains(gemId, "SupportGem")) ==>
              (IsSupportGem(supportNames, name, gemId) <==>
                 Contains(name, "Support") || Contains(name, "support")
                 || Contains(name, "Awakened") || Contains(name, "awakened"))
  {
  }

  /** A larger support table never turns a support gem into an active one. */
  lemma SupportMonotone(small: set<string>, large: set<string>, name: string, gemId: string)
    requires small <= large
    ensures IsSupportGem(small, name, gemId) ==> IsSupportGem(large, name, gemId)
  {
  }

  /** One Gem element: name, level, quality, enabled flag, classification,
      Awakened/Vaal flags from the name and the quality variant; the record
      validator rejects levels outside 1..50 and qualities outside 0..50. */
  function GemInfoOf(e: Element, supportNames: set<string>): (r: Result<GemInfo, MapperError>)
    ensures r.Success? ==> r.value.Valid()
    ensures r.Success? ==> r.value.name == e.Get("nameSpec", "Unknown")
                           && r.value.enabled == (e.Get("enabled", "true") == "true")
                           && r.value.isSupport == IsSupportGem(supportNames, r.value.name, e.Get("gemId", ""))
  {
    var name := e.Get("nameSpec", "Unknown");
    match IntAttr(e, "level", 1)
    case Failure(err) => Failure(err)
    case Success(level) =>
      match IntAttr(e, "quality", 0)
      case Failure(err) => Failure(err)
      case Success(quality) =>
        var gemId := e.Get("gemId", "");
        match NewGemInfo(name, level, quality,
                         ParseQualityType(e.Get("qualityId", "Default")),
                         IsSupportGem(supportNames, name, gemId),
                         Contains(name, "Awakened"),
                         Contains(name, "Vaal"),
                         e.Get("enabled", "true") == "true")
        case Failure(v) => Failure(Invalid(v))
        case Success(g) => Success(g)
  }

  /** The gems of a skill group, in document order. */
  function GemsOf(elems: seq<Element>, supportNames: set<string>): (r: Result<seq<GemInfo>, MapperError>)
    ensures r.Success? ==> |r.value| == |elems|
  {
    if elems == [] then Success([])
    else
      match GemsOf(elems[..|elems| - 1], supportNames)
      case Failure(e) => Failure(e)
      case Success(gems) =>
        match GemInfoOf(elems[|elems| - 1], supportNames)
        case Failure(e) => Failure(e)
        case Success(g) => Success(gems + [g])
  }

  lemma {:induction false} GemsFailurePersists(elems: seq<Element>, supportNames: set<string>, k: nat)
    requires k <= |elems| && GemsOf(elems[..k], supportNames).Failure?
    ensures GemsOf(elems, supportNames) == GemsOf(elems[..k], supportNames)
  {
    if k < |elems| {
      var prefix := elems[..|elems| - 1];
      assert prefix[..k] == elems[..k];
      GemsFailurePersists(prefix, supportNames, k);
    } else {
      assert elems[..k] == elems;
    }
  }

  predicate IsActive(g: GemInfo) {
    g.enabled && !g.isSupport
  }

  /** The link count: how many gems are enabled. */
  function EnabledCount(gems: seq<GemInfo>): (r: nat)
    ensures r <= |gems|
    ensures r == 0 <==> forall i :: 0 <= i < |gems| ==> !gems[i].enabled
    ensures r == |gems| <==> forall i :: 0 <= i < |gems| ==> gems[i].enabled
  {
    if gems == [] then 0
    else
      var prefix := gems[..|gems| - 1];
      assert forall i :: 0 <= i < |prefix| ==> prefix[i] == gems[i];
      EnabledCount(prefix) + (if gems[|gems| - 1].enabled then 1 else 0)
  }

  /** The names of the enabled support gems, in order. */
  function SupportNamesOf(gems: seq<GemInfo>): seq<string> {
    if gems == [] then []
    else
      var last := gems[|gems| - 1];
      SupportNamesOf(gems[..|gems| - 1]) + (if last.enabled && last.isSupport then [last.name] else [])
  }

  predicate IsEnabledSupport(g: GemInfo) {
    g.enabled && g.isSupport
  }

  /** The support list is no longer than the link count. */
  lemma {:induction false} SupportNamesWithinLinks(gems: seq<GemInfo>)
    ensures |SupportNamesOf(gems)| <= EnabledCount(gems)
  {
    if gems != [] {
      SupportNamesWithinLinks(gems[..|gems| - 1]);
    }
  }

  /** Every enabled support gem's name is in the support list. */
  lemma {:induction false} SupportNameListed(gems: seq<GemInfo>, i: int)
    requires 0 <= i < |gems| && IsEnabledSupport(gems[i])
    ensures gems[i].name in SupportNamesOf(gems)
  {
    if i < |gems| - 1 {
      var prefix := gems[..|gems| - 1];
      assert prefix[i] == gems[i];
      SupportNameListed(prefix, i);
    }
  }

  /** Every name in the support list is that of an enabled support gem. */
  lemma {:induction false} SupportNameSource(gems: seq<GemInfo>, n: string)
    requires n in SupportNamesOf(gems)
    ensures exists i :: 0 <= i < |gems| && IsEnabledSupport(gems[i]) && gems[i].name == n
  {
    var last := gems[|gems| - 1];
    if IsEnabledSupport(last) && last.name == n {
      assert IsEnabledSupport(gems[|gems| - 1]);
    } else {
      var prefix := gems[..|gems| - 1];
      SupportNameSource(prefix, n);
      var i :| 0 <= i < |prefix| && IsEnabledSupport(prefix[i]) && prefix[i].name == n;
      assert prefix[i] == gems[i];
    }
  }

  /** The main skill: the name of the LAST enabled non-support gem (each one
      overwrites the previous), or `None` when there is none. */
  function MainSkillOf(gems: seq<GemInfo>): Option<string> {
    if gems == [] then None
    else if IsActive(gems[|gems| - 1]) then Some(gems[|gems| - 1].name)
    else MainSkillOf(gems[..|gems| - 1])
  }

  /** Position `i` holds the last enabled active gem. */
  predicate LastActive(gems: seq<GemInfo>, i: int) {
    0 <= i < |gems| && IsActive(gems[i]) && forall j :: i < j < |gems| ==> !IsActive(gems[j])
  }

  /** The main skill is the name of the last enabled active gem, and there is
      none exactly when no gem is enabled and active. */
  lemma {:induction false} MainSkillIsLastActive(gems: seq<GemInfo>)
    ensures MainSkillOf(gems).None? <==> forall i :: 0 <= i < |gems| ==> !IsActive(gems[i])
    ensures forall i :: LastActive(gems, i) ==> MainSkillOf(gems) == Some(gems[i].name)
  {
    if gems != [] {
      var prefix := gems[..|gems| - 1];
      MainSkillIsLastActive(prefix);
      assert forall i :: 0 <= i < |prefix| ==> prefix[i] == gems[i];
      if !IsActive(gems[|gems| - 1]) {
        assert forall i :: LastActive(gems, i) ==> LastActive(prefix, i);
      }
    }
  }

  /** The label of an unlabelled group: "Group " and its id. */
  function DefaultLabel(id: int): string {
    "Group " + IntToString(id)
  }

  /** One Skill element as a skill group with the given 1-based id. */
  function GroupOf(skill: Element, id: int, supportNames: set<string>): Result<SkillGroup, MapperError> {
    match GemsOf(skill.FindAll("Gem"), supportNames)
    case Failure(e) => Failure(e)
    case Success(gems) =>
      Success(SkillGroup(
        skill.Get("label", DefaultLabel(id)),
        skill.Get("slot", "Unknown"),
        skill.Get("enabled", "true") == "true",
        gems, EnabledCount(gems), MainSkillOf(gems), SupportNamesOf(gems)))
  }

  /** A group counts as a main skill group exactly when it has an enabled
      active gem and at least four enabled gems. */
  lemma GroupMainTest(skill: Element, id: int, supportNames: set<string>)
    requires GroupOf(skill, id, supportNames).Success?
    ensures var g := GroupOf(skill, id, supportNames).value;
            g.IsMainSkillGroup() <==>
              (exists i :: 0 <= i < |g.gems| && IsActive(g.gems[i])) && EnabledCount(g.gems) >= 4
  {
    MainSkillIsLastActive(GroupOf(skill, id, supportNames).value.gems);
  }

  /** The skill groups of all skill sets, numbered 1, 2, ... across sets. */
  function GroupsOf(skills: seq<Element>, supportNames: set<string>): (r: Result<seq<SkillGroup>, MapperError>)
    ensures r.Success? ==> |r.value| == |skills|
  {
    if skills == [] then Success([])
    else
      match GroupsOf(skills[..|skills| - 1], supportNames)
      case Failure(e) => Failure(e)
      case Success(groups) =>
        match GroupOf(skills[|skills| - 1], |groups| + 1, supportNames)
        case Failure(e) => Failure(e)
        case Success(g) => Success(groups + [g])
  }

  lemma {:induction false} GroupsFailurePersists(skills: seq<Element>, supportNames: set<string>, k: nat)
    requires k <= |skills| && GroupsOf(skills[..k], supportNames).Failure?
    ensures GroupsOf(skills, supportNames) == GroupsOf(skills[..k], supportNames)
  {
    if k < |skills| {
      var prefix := skills[..|skills| - 1];
      assert prefix[..k] == skills[..k];
      GroupsFailurePersists(prefix, supportNames, k);
    } else {
      assert skills[..k] == skills;
    }
  }

  /** The Skill elements of the SkillSet elements, one set after another. */
  function AllSkills(sets: seq<Element>): seq<Element> {
    if sets == [] then []
    else AllSkills(sets[..|sets| - 1]) + sets[|sets| - 1].FindAll("Skill")
  }

  lemma {:induction false} AllSkillsPrefix(sets: seq<Element>, k: nat)
    requires k <= |sets|
    ensures AllSkills(sets[..k]) <= AllSkills(sets)
  {
    if k < |sets| {
      var prefix := sets[..|sets| - 1];
      assert prefix[..k] == sets[..k];
      AllSkillsPrefix(prefix, k);
    } else {
      assert sets[..k] == sets;
    }
  }

  /** The group the build declares as main: the enabled group whose 1-based
      index is `mainSocketGroup`, whether or not it has a main skill. */
  function DeclaredMain(groups: seq<SkillGroup>, mainSocketGroup: int): Option<SkillGroup> {
    if 1 <= mainSocketGroup <= |groups| && groups[mainSocketGroup - 1].enabled
    then Some(groups[mainSocketGroup - 1]) else None
  }

  /** A group whose main skill is a non-empty name. */
  predicate HasMainSkill(g: SkillGroup) {
    g.mainSkill.Some? && g.mainSkill.value != ""
  }

  /** The fallback main group: among the groups with a main skill, the first
      one with the largest link count; `None` when no group has a main skill. */
  function BestGroup(groups: seq<SkillGroup>): (r: Option<SkillGroup>)
    ensures r.None? <==> forall i :: 0 <= i < |groups| ==> !HasMainSkill(groups[i])
    ensures r.Some? ==> exists i :: 0 <= i < |groups| && groups[i] == r.value && HasMainSkill(r.value)
                                    && (forall j :: 0 <= j < i && HasMainSkill(groups[j]) ==> groups[j].linkCount < r.value.linkCount)
    ensures r.Some? ==> forall j :: 0 <= j < |groups| && HasMainSkill(groups[j]) ==> groups[j].linkCount <= r.value.linkCount
  {
    if groups == [] then None
    else
      var prefix := groups[..|groups| - 1];
      var last := groups[|groups| - 1];
      assert forall i :: 0 <= i < |prefix| ==> prefix[i] == groups[i];
      var best := BestGroup(prefix);
      if HasMainSkill(last) && (best.None? || last.linkCount > best.value.linkCount) then Some(last) else best
  }

  /** `int(build.get("mainSocketGroup", 1)) if build else 1`. */
  function MainSocketGroupOf(root: Element): Result<int, MapperError> {
    var build := root.Find("Build");
    if Missing(build) then Success(1) else IntAttr(build.value, "mainSocketGroup", 1)
  }

  /** The skill setup: empty when Skills is missing; otherwise every group,
      the declared main group if it is enabled, else the best group. */
  function SkillSetupOf(root: Element, supportNames: set<string>): Result<SkillSetup, MapperError> {
    var skills := root.Find("Skills");
    if Missing(skills) then Success(EmptySkillSetup)
    else
      match MainSocketGroupOf(root)
      case Failure(e) => Failure(e)
      case Success(msg) =>
        match GroupsOf(AllSkills(skills.value.FindAll("SkillSet")), supportNames)
        case Failure(e) => Failure(e)
        case Success(groups) =>
          Success(SkillSetup(groups, MainGroupOf(groups, msg), [], []))
  }

  /** The main group: the declared one, else the best one when there are
      groups at all. */
  function MainGroupOf(groups: seq<SkillGroup>, mainSocketGroup: int): Option<SkillGroup> {
    var declared := DeclaredMain(groups, mainSocketGroup);
    if declared.None? && groups != [] then BestGroup(groups) else declared
  }

  /** Main-group selection: the declared group wins whenever it is enabled,
      even without a main skill; otherwise the first group with a main skill
      and the most links; no main group when no group has a main skill. */
  lemma MainGroupSelection(groups: seq<SkillGroup>, mainSocketGroup: int)
    ensures 1 <= mainSocketGroup <= |groups| && groups[mainSocketGroup - 1].enabled ==>
              MainGroupOf(groups, mainSocketGroup) == Some(groups[mainSocketGroup - 1])
    ensures !(1 <= mainSocketGroup <= |groups| && groups[mainSocketGroup - 1].enabled) ==>
              MainGroupOf(groups, mainSocketGroup) == BestGroup(groups)
    ensures (forall i :: 0 <= i < |groups| ==> !HasMainSkill(groups[i]))
            && !(1 <= mainSocketGroup <= |groups| && groups[mainSocketGroup - 1].enabled) ==>
              MainGroupOf(groups, mainSocketGroup).None?
  {
  }

  /** The setup's main group is chosen from its own groups. */
  lemma SetupUsesMainGroupOf(root: Element, supportNames: set<string>)
    requires !Missing(root.Find("Skills")) && SkillSetupOf(root, supportNames).Success?
    ensures var s := SkillSetupOf(root, supportNames).value;
            s.mainSkillGroup == MainGroupOf(s.skillGroups, MainSocketGroupOf(root).value)
  {
  }

  /** A missing Skills element yields the empty setup. */
  lemma MissingSkillsGiveEmptySetup(root: Element, supportNames: set<string>)
    requires Missing(root.Find("Skills"))
    ensures SkillSetupOf(root, supportNames) == Success(EmptySkillSetup)
    ensures EmptySkillSetup.MainLinkCount() == 0
  {
  }

  /** One more Gem element either fails the list or appends its gem. */
  lemma GemsStep(elems: seq<Element>, supportNames: set<string>, k: nat, gems: seq<GemInfo>)
    requires k < |elems| && GemsOf(elems[..k], supportNames) == Success(gems)
    ensures var g := GemInfoOf(elems[k], supportNames);
            GemsOf(elems[..k + 1], supportNames) == if g.Failure? then Failure(g.error) else Success(gems + [g.value])
  {
    PrefixStep(elems, k);
  }

  /** Extracts the Gem element at position `k` and appends it to the gems before it. */
  method AddGem(elems: seq<Element>, supportNames: set<string>, k: nat, gems: seq<GemInfo>)
    returns (r: Result<seq<GemInfo>, MapperError>)
    requires k < |elems| && GemsOf(elems[..k], supportNames) == Success(gems)
    ensures r == GemsOf(elems[..k + 1], supportNames)
  {
    GemsStep(elems, supportNames, k, gems);
    var g := GemInfoOf(elems[k], supportNames);
    if g.Failure? {
      return Failure(g.error);
    }
    return Success(gems + [g.value]);
  }

  /** The gems loop of one group: extracts each Gem element in order. */
  method ExtractGems(gemElems: seq<Element>, supportNames: set<string>) returns (r: Result<seq<GemInfo>, MapperError>)
    ensures r == GemsOf(gemElems, supportNames)
  {
    var gems: seq<GemInfo> := [];
    var k := 0;
    while k < |gemElems|
      invariant 0 <= k <= |gemElems|
      invariant GemsOf(gemElems[..k], supportNames) == Success(gems)
    {
      var next := AddGem(gemElems, supportNames, k, gems);
      if next.Failure? {
        GemsFailurePersists(gemElems, supportNames, k + 1);
        return next;
      }
      gems := next.value;
      k := k + 1;
    }
    WholePrefix(gemElems);
    return Success(gems);
  }

  /** One more gem updates the main skill and the support names. */
  lemma ClassifyStep(gems: seq<GemInfo>, m: nat)
    requires m < |gems|
    ensures MainSkillOf(gems[..m + 1]) == if IsActive(gems[m]) then Some(gems[m].name) else MainSkillOf(gems[..m])
    ensures SupportNamesOf(gems[..m + 1])
            == SupportNamesOf(gems[..m]) + (if gems[m].enabled && gems[m].isSupport then [gems[m].name] else [])
  {
    PrefixStep(gems, m);
  }

  /** The classification loop of one group: support names are collected in
      order and every enabled active gem overwrites the main skill. */
  method ClassifyGems(gems: seq<GemInfo>) returns (mainSkill: Option<string>, supports: seq<string>)
    ensures mainSkill == MainSkillOf(gems)
    ensures supports == SupportNamesOf(gems)
  {
    mainSkill, supports := None, [];
    var m := 0;
    while m < |gems|
      invariant 0 <= m <= |gems|
      invariant mainSkill == MainSkillOf(gems[..m])
      invariant supports == SupportNamesOf(gems[..m])
    {
      ClassifyStep(gems, m);
      var gem := gems[m];
      if gem.enabled {
        if gem.isSupport {
          supports := supports + [gem.name];
        } else {
          mainSkill := Some(gem.name);
        }
      }
      m := m + 1;
    }
    WholePrefix(gems);
  }

  /** One skill group: its attributes, its gems, and the classification. */
  method ExtractGroup(skill: Element, id: int, supportNames: set<string>) returns (r: Result<SkillGroup, MapperError>)
    ensures r == GroupOf(skill, id, supportNames)
  {
    var enabled := skill.Get("enabled", "true") == "true";
    var groupLabel := skill.Get("label", DefaultLabel(id));
    var slot := skill.Get("slot", "Unknown");
    var gems := ExtractGems(skill.FindAll("Gem"), supportNames);
    if gems.Failure? {
      return Failure(gems.error);
    }
    var linkCount := EnabledCount(gems.value);
    var mainSkill, supports := ClassifyGems(gems.value);
    return Success(SkillGroup(groupLabel, slot, enabled, gems.value, linkCount, mainSkill, supports));
  }

  /** One more Skill element adds one group numbered after the others, or
      fails with that group's error. */
  lemma GroupsAppend(prefix: seq<Element>, skill: Element, supportNames: set<string>, groups: seq<SkillGroup>)
    requires GroupsOf(prefix, supportNames) == Success(groups)
    ensures var g := GroupOf(skill, |groups| + 1, supportNames);
            GroupsOf(prefix + [skill], supportNames) == if g.Failure? then Failure(g.error) else Success(groups + [g.value])
  {
    AppendLast(prefix, skill);
  }





  /** A failure within the skills of one set fails the set. */
  lemma SetPrefixFailure(done: seq<Element>, skills: seq<Element>, j: nat, supportNames: set<string>)
    requires j < |skills| && GroupsOf(done + skills[..j + 1], supportNames).Failure?
    ensures GroupsOf(done + skills, supportNames) == GroupsOf(done + skills[..j + 1], supportNames)
  {
    var whole := done + skills;
    var part := done + skills[..j + 1];
    PrefixOfAppend(done, skills, j + 1);
    assert whole[..|part|] == part;
    GroupsFailurePersists(whole, supportNames, |part|);
  }

  /** The skills of the first `i + 1` sets are those of the first `i` and then
      those of set `i`. */
  lemma AllSkillsStep(sets: seq<Element>, i: nat)
    requires i < |sets|
    ensures AllSkills(sets[..i + 1]) == AllSkills(sets[..i]) + sets[i].FindAll("Skill")
  {
    PrefixStep(sets, i);
  }

  /** A failure within set `i` fails the whole setup. */
  lemma SetFailureAborts(sets: seq<Element>, i: nat, supportNames: set<string>)
    requires i < |sets| && GroupsOf(AllSkills(sets[..i]) + sets[i].FindAll("Skill"), supportNames).Failure?
    ensures GroupsOf(AllSkills(sets), supportNames) == GroupsOf(AllSkills(sets[..i]) + sets[i].FindAll("Skill"), supportNames)
  {
    AllSkillsStep(sets, i);
    AllSkillsPrefix(sets, i + 1);
    var k := |AllSkills(sets[..i + 1])|;
    assert AllSkills(sets)[..k] == AllSkills(sets[..i + 1]);
    GroupsFailurePersists(AllSkills(sets), supportNames, k);
  }

  /** Appending a group changes the declared main group only when the new
      group has the declared id and is enabled. */
  lemma DeclaredMainStep(groups: seq<SkillGroup>, g: SkillGroup, mainSocketGroup: int)
    ensures DeclaredMain(groups + [g], mainSocketGroup)
            == if mainSocketGroup == |groups| + 1 && g.enabled then Some(g) else DeclaredMain(groups, mainSocketGroup)
  {
    assert forall k :: 0 <= k < |groups| ==> (groups + [g])[k] == groups[k];
  }

  /** Extracts the group numbered after `groups` and records it as the main
      group when it is the declared one. */
  method AddGroup(skill: Element, supportNames: set<string>, ghost prefix: seq<Element>,
                  groups: seq<SkillGroup>, mainSocketGroup: int, mainGroup: Option<SkillGroup>)
    returns (r: Result<seq<SkillGroup>, MapperError>, newMain: Option<SkillGroup>)
    requires GroupsOf(prefix, supportNames) == Success(groups)
    requires mainGroup == DeclaredMain(groups, mainSocketGroup)
    ensures r == GroupsOf(prefix + [skill], supportNames)
    ensures r.Success? ==> newMain == DeclaredMain(r.value, mainSocketGroup)
  {
    GroupsAppend(prefix, skill, supportNames, groups);
    var group := ExtractGroup(skill, |groups| + 1, supportNames);
    if group.Failure? {
      return Failure(group.error), mainGroup;
    }
    DeclaredMainStep(groups, group.value, mainSocketGroup);
    newMain := if |groups| + 1 == mainSocketGroup && group.value.enabled then Some(group.value) else mainGroup;
    r := Success(groups + [group.value]);
  }

  /** The groups of one skill set, appended to those of the earlier sets;
      the declared main group is tracked as groups are numbered. */
  method ExtractSetGroups(skills: seq<Element>, supportNames: set<string>, ghost done: seq<Element>,
                          groups0: seq<SkillGroup>, mainSocketGroup: int, main0: Option<SkillGroup>)
    returns (r: Result<seq<SkillGroup>, MapperError>, mainGroup: Option<SkillGroup>)
    requires GroupsOf(done, supportNames) == Success(groups0)
    requires main0 == DeclaredMain(groups0, mainSocketGroup)
    ensures r == GroupsOf(done + skills, supportNames)
    ensures r.Success? ==> mainGroup == DeclaredMain(r.value, mainSocketGroup)
  {
    var groups := groups0;
    mainGroup := main0;
    AppendWhole(done, skills);
    var j := 0;
    while j < |skills|
      invariant 0 <= j <= |skills|
      invariant GroupsOf(done + skills[..j], supportNames) == Success(groups)
      invariant mainGroup == DeclaredMain(groups, mainSocketGroup)
    {
      AppendOneMore(done, skills, j);
      var next, nextMain := AddGroup(skills[j], supportNames, done + skills[..j], groups, mainSocketGroup, mainGroup);
      if next.Failure? {
        SetPrefixFailure(done, skills, j, supportNames);
        return next, mainGroup;
      }
      groups, mainGroup := next.value, nextMain;
      j := j + 1;
    }
    return Success(groups), mainGroup;
  }

  method ExtractSkillSetup(root: Element, supportNames: set<string>) returns (r: Result<SkillSetup, MapperError>)
    ensures r == SkillSetupOf(root, supportNames)
  {
    var skillsElem := root.Find("Skills");
    if Missing(skillsElem) {
      return Success(EmptySkillSetup);
    }
    var msgResult := MainSocketGroupOf(root);
    if msgResult.Failure? {
      return Failure(msgResult.error);
    }
    var mainSocketGroup := msgResult.value;
    var groups: seq<SkillGroup> := [];
    var mainGroup: Option<SkillGroup> := None;
    var sets := skillsElem.value.FindAll("SkillSet");
    var i := 0;
    while i < |sets|
      invariant 0 <= i <= |sets|
      invariant GroupsOf(AllSkills(sets[..i]), supportNames) == Success(groups)
      invariant mainGroup == DeclaredMain(groups, mainSocketGroup)
    {
      var setGroups, setMain := ExtractSetGroups(sets[i].FindAll("Skill"), supportNames, AllSkills(sets[..i]),
                                                 groups, mainSocketGroup, mainGroup);
      if setGroups.Failure? {
        SetFailureAborts(sets, i, supportNames);
        return Failure(setGroups.error);
      }
      AllSkillsStep(sets, i);
      groups, mainGroup := setGroups.value, setMain;
      i := i + 1;
    }
    WholePrefix(sets);
    if mainGroup.None? && groups != [] {
      mainGroup := BestGroup(groups);
    }
    assert mainGroup == MainGroupOf(groups, mainSocketGroup);
    return Success(SkillSetup(groups, mainGroup, [], []));
  }

  // ===== Item text =====

  predicate IsRarityLine(line: string) {
    StartsWith(Lower(line), "rarity:")
  }

  predicate IsItemLevelLine(line: string) {
    StartsWith(Lower(line), "item level:")
  }

  /** `line.split(":", 1)[1]`: what follows the first colon. */
  function AfterColon(line: string): (r: string)
    ensures |r| <= |line|
  {
    if line == [] then []
    else if line[0] == ':' then line[1..]
    else AfterColon(line[1..])
  }

  /** The rarity named after the colon, upper-cased; unknown names are NORMAL. */
  function ParseRarity(line: string): ItemRarity {
    var s := Upper(Strip(AfterColon(line)));
    if s == "MAGIC" then Magic
    else if s == "RARE" then Rare
    else if s == "UNIQUE" then Unique
    else Normal
  }

  /** The rarity of the LAST rarity line, or NORMAL when there is none. */
  function RarityOf(lines: seq<string>): ItemRarity {
    if lines == [] then Normal
    else if IsRarityLine(lines[|lines| - 1]) then ParseRarity(lines[|lines| - 1])
    else RarityOf(lines[..|lines| - 1])
  }

  /** Position `i` holds the last rarity line. */
  predicate LastRarityLine(lines: seq<string>, i: int) {
    0 <= i < |lines| && IsRarityLine(lines[i]) && forall j :: i < j < |lines| ==> !IsRarityLine(lines[j])
  }

  /** The rarity is the one named by the last rarity line. */
  lemma {:induction false} RarityFromLastLine(lines: seq<string>, i: int)
    requires LastRarityLine(lines, i)
    ensures RarityOf(lines) == ParseRarity(lines[i])
  {
    if i < |lines| - 1 {
      var prefix := lines[..|lines| - 1];
      assert prefix[i] == lines[i];
      assert forall j :: i < j < |prefix| ==> prefix[j] == lines[j];
      assert LastRarityLine(prefix, i);
      RarityFromLastLine(prefix, i);
    }
  }

  /** Without a rarity line the item is NORMAL. */
  lemma {:induction false} RarityDefault(lines: seq<string>)
    requires forall i :: 0 <= i < |lines| ==> !IsRarityLine(lines[i])
    ensures RarityOf(lines) == Normal
  {
    if lines != [] {
      var prefix := lines[..|lines| - 1];
      assert forall i :: 0 <= i < |prefix| ==> prefix[i] == lines[i];
      RarityDefault(prefix);
    }
  }

  /** A line that sets the item level: an item-level line (not a rarity line)
      whose value `int()` accepts. */
  predicate SetsItemLevel(line: string) {
    !IsRarityLine(line) && IsItemLevelLine(line) && ParseInt(AfterColon(line)).Some?
  }

  /** The item level of the LAST line that sets it, or 0 when none does. */
  function ItemLevelOf(lines: seq<string>): int {
    if lines == [] then 0
    else if SetsItemLevel(lines[|lines| - 1]) then LevelValue(lines[|lines| - 1])
    else ItemLevelOf(lines[..|lines| - 1])
  }

  /** The value an item-level line sets. */
  function LevelValue(line: string): int
    requires SetsItemLevel(line)
  {
    ParseInt(AfterColon(line)).value
  }

  /** Position `i` holds the last line that sets the item level. */
  predicate LastLevelLine(lines: seq<string>, i: int) {
    0 <= i < |lines| && SetsItemLevel(lines[i]) && forall j :: i < j < |lines| ==> !SetsItemLevel(lines[j])
  }

  /** The item level is the value of the last line that sets it:
      unparseable item-level lines leave it unchanged. */
  lemma {:induction false} ItemLevelFromLastLine(lines: seq<string>, i: int)
    requires LastLevelLine(lines, i)
    ensures ItemLevelOf(lines) == LevelValue(lines[i])
  {
    if i < |lines| - 1 {
      var prefix := lines[..|lines| - 1];
      assert prefix[i] == lines[i];
      assert forall j :: i < j < |prefix| ==> prefix[j] == lines[j];
      assert LastLevelLine(prefix, i);
      ItemLevelFromLastLine(prefix, i);
    }
  }

  /** With no line that sets it, the item level is 0. */
  lemma {:induction false} ItemLevelDefault(lines: seq<string>)
    requires forall i :: 0 <= i < |lines| ==> !SetsItemLevel(lines[i])
    ensures ItemLevelOf(lines) == 0
  {
    if lines != [] {
      var prefix := lines[..|lines| - 1];
      assert forall i :: 0 <= i < |prefix| ==> prefix[i] == lines[i];
      ItemLevelDefault(prefix);
    }
  }

  /** The lines that are not rarity lines, in order. */
  function NonRarityLines(lines: seq<string>): (r: seq<string>)
    ensures |r| <= |lines|
    ensures forall i :: 0 <= i < |r| ==> !IsRarityLine(r[i]) && r[i] in lines
    ensures (exists i :: 0 <= i < |lines| && !IsRarityLine(lines[i])) ==> r != []
  {
    if lines == [] then []
    else
      var rest := NonRarityLines(lines[1..]);
      assert forall i :: 1 <= i < |lines| ==> lines[i] == lines[1..][i - 1];
      if IsRarityLine(lines[0]) then rest else [lines[0]] + rest
  }

  /** The first non-rarity line is the first element of the filtered lines. */
  lemma {:induction false} FirstNonRarityLine(lines: seq<string>, i: nat)
    requires i < |lines| && !IsRarityLine(lines[i])
    requires forall j :: 0 <= j < i ==> IsRarityLine(lines[j])
    ensures NonRarityLines(lines) != [] && NonRarityLines(lines)[0] == lines[i]
  {
    if i > 0 {
      FirstNonRarityLine(lines[1..], i - 1);
    }
  }

  /** The item name: the first non-rarity line, or "" when there is none. */
  function ItemNameOf(lines: seq<string>): string {
    var filtered := NonRarityLines(lines);
    if filtered != [] then filtered[0] else ""
  }



  /** The header loop over the item's lines: the last rarity line sets the
      rarity and the last parseable item-level line sets the level. */
  /** One more line updates the rarity and the item level. */
  lemma HeaderStep(lines: seq<string>, i: nat)
    requires i < |lines|
    ensures RarityOf(lines[..i + 1]) == if IsRarityLine(lines[i]) then ParseRarity(lines[i]) else RarityOf(lines[..i])
    ensures ItemLevelOf(lines[..i + 1]) == if SetsItemLevel(lines[i]) then LevelValue(lines[i]) else ItemLevelOf(lines[..i])
  {
    PrefixStep(lines, i);
  }

  method ScanHeader(lines: seq<string>) returns (rarity: ItemRarity, itemLevel: int)
    ensures rarity == RarityOf(lines)
    ensures itemLevel == ItemLevelOf(lines)
  {
    rarity := Normal;
    itemLevel := 0;
    var i := 0;
    while i < |lines|
      invariant 0 <= i <= |lines|
      invariant rarity == RarityOf(lines[..i])
      invariant itemLevel == ItemLevelOf(lines[..i])
    {
      HeaderStep(lines, i);
      var line := lines[i];
      if IsRarityLine(line) {
        rarity := ParseRarity(line);
      } else if IsItemLevelLine(line) {
        var parsed := ParseInt(AfterColon(line));
        if parsed.Some? {
          itemLevel := parsed.value;
        }
      }
      i := i + 1;
    }
    WholePrefix(lines);
  }

  /** Reads name, rarity and item level from the item text. */
  method ParseItemTextHeader(text: string) returns (name: string, rarity: ItemRarity, itemLevel: int)
    ensures name == ItemNameOf(Lines(text))
    ensures rarity == RarityOf(Lines(text))
    ensures itemLevel == ItemLevelOf(Lines(text))
  {
    var lines := Lines(text);
    rarity, itemLevel := ScanHeader(lines);
    name := ItemNameOf(lines);
  }

  /** Position `i` holds the first line equal to `name`. */
  predicate FirstOccurrence(lines: seq<string>, name: string, i: int) {
    0 <= i < |lines| && lines[i] == name && forall j :: 0 <= j < i ==> lines[j] != name
  }

  /** The line right after the first line equal to `name` that has a
      successor, if any. */
  function FollowingLine(lines: seq<string>, name: string): (r: Option<string>)
    ensures r.None? <==> forall i :: 0 <= i < |lines| - 1 ==> lines[i] != name
    ensures r.Some? ==> exists i :: FirstOccurrence(lines, name, i) && i < |lines| - 1 && r.value == lines[i + 1]
  {
    if |lines| < 2 then None
    else if lines[0] == name then
      assert FirstOccurrence(lines, name, 0);
      Some(lines[1])
    else
      var later := FollowingLine(lines[1..], name);
      assert forall i :: 1 <= i < |lines| ==> lines[i] == lines[1..][i - 1];
      if later.Some? then
        var k :| FirstOccurrence(lines[1..], name, k) && k < |lines| - 2 && later.value == lines[1..][k + 1];
        assert FirstOccurrence(lines, name, k + 1);
        later
      else later
  }

  /** The base type: "" for an empty text; the first non-rarity line for
      NORMAL and MAGIC items or an unnamed item; for UNIQUE and RARE items
      the line after the name, falling back to the first line. */
  function BaseTypeOf(text: string, name: string, rarity: ItemRarity): string {
    var filtered := NonRarityLines(Lines(text));
    if text == [] || filtered == [] then ""
    else if (rarity == Unique || rarity == Rare) && name != [] then
      if filtered[0] == name && |filtered| > 1 then filtered[1]
      else
        var following := FollowingLine(filtered, name);
        if following.Some? then following.value else filtered[0]
    else filtered[0]
  }

  /** The shortcut for a name on the first line never changes the outcome:
      the base type is the line after the first occurrence of the name. */
  lemma BaseTypeShortcutRedundant(text: string, name: string, rarity: ItemRarity)
    requires text != [] && NonRarityLines(Lines(text)) != []
    requires (rarity == Unique || rarity == Rare) && name != []
    ensures var following := FollowingLine(NonRarityLines(Lines(text)), name);
            BaseTypeOf(text, name, rarity) ==
              if following.Some? then following.value else NonRarityLines(Lines(text))[0]
  {
  }

  /** For an item whose own text names it UNIQUE or RARE, the base type is the
      second non-rarity line when there is one, else the name itself. */
  lemma NamedItemBaseType(text: string)
    requires var r := RarityOf(Lines(text)); r == Unique || r == Rare
    requires text != [] && NonRarityLines(Lines(text)) != []
    ensures var filtered := NonRarityLines(Lines(text));
            BaseTypeOf(text, ItemNameOf(Lines(text)), RarityOf(Lines(text)))
              == (if |filtered| > 1 then filtered[1] else filtered[0])
  {
    assert NonRarityLines(Lines(text))[0] in Lines(text);
  }

  /** The base-type parser, with the original's scan for the name. */
  method ExtractBaseType(text: string, name: string, rarity: ItemRarity) returns (b: string)
    ensures b == BaseTypeOf(text, name, rarity)
  {
    if text == [] {
      return "";
    }
    var lines := Lines(text);
    if lines == [] {
      return "";
    }
    var filtered := NonRarityLines(lines);
    if filtered == [] {
      return "";
    }
    if (rarity == Unique || rarity == Rare) && name != [] {
      if filtered[0] == name && |filtered| > 1 {
        return filtered[1];
      }
      var i := 0;
      while i < |filtered|
        invariant 0 <= i <= |filtered|
        invariant FollowingLine(filtered[i..], name) == FollowingLine(filtered, name)
      {
        if filtered[i] == name && i + 1 < |filtered| {
          return filtered[i + 1];
        }
        assert filtered[i..][1..] == filtered[i + 1..];
        i := i + 1;
      }
      return filtered[0];
    }
    return filtered[0];
  }

  // ===== Equipment =====

  /** The item pool: each Item element with a non-empty id, later elements
      replacing earlier ones with the same id. */
  function ItemPool(items: seq<Element>): (m: map<string, Element>)
    ensures forall k :: k in m <==> k != "" && exists i :: 0 <= i < |items| && items[i].Get("id", "") == k
  {
    if items == [] then map[]
    else
      var prefix := items[..|items| - 1];
      var last := items[|items| - 1];
      assert forall i :: 0 <= i < |prefix| ==> prefix[i] == items[i];
      var m := ItemPool(prefix);
      var id := last.Get("id", "");
      if id != "" then m[id := last] else m
  }

  /** The first ItemSet whose id (default "") equals the active id. */
  function ItemSetWithId(sets: seq<Element>, active: string): (r: Option<Element>)
    ensures r.Some? ==> r.value in sets && r.value.Get("id", "") == active
    ensures r.None? ==> forall i :: 0 <= i < |sets| ==> sets[i].Get("id", "") != active
  {
    if sets == [] then None
    else if sets[0].Get("id", "") == active then Some(sets[0])
    else
      var later := ItemSetWithId(sets[1..], active);
      assert forall i :: 1 <= i < |sets| ==> sets[i] == sets[1..][i - 1];
      later
  }

  /** The item set in use: the one named by activeItemSet (default "1"),
      else the first ItemSet, else none. */
  function ActiveItemSet(items: Element): (r: Option<Element>)
    ensures r.None? <==> items.FindAll("ItemSet") == []
  {
    var sets := items.FindAll("ItemSet");
    match ItemSetWithId(sets, items.Get("activeItemSet", "1"))
    case Some(s) => Some(s)
    case None =>
      var first := items.Find("ItemSet");
      assert first.Some? ==> first.value in sets;
      assert first.None? ==> sets == [];
      first
  }

  /** The fifteen PoB slot names in the order they are looked up. */
  const SlotNames: seq<(string, Slot)> := [
    ("Weapon 1", WeaponMainHand), ("Weapon 2", WeaponOffHand), ("Helmet", Helmet),
    ("Body Armour", BodyArmour), ("Gloves", Gloves), ("Boots", Boots), ("Amulet", Amulet),
    ("Ring 1", Ring1), ("Ring 2", Ring2), ("Belt", Belt),
    ("Flask 1", Flask1), ("Flask 2", Flask2), ("Flask 3", Flask3), ("Flask 4", Flask4), ("Flask 5", Flask5)]

  /** The text of an Item element, "" when it has none. */
  function ItemText(e: Element): string {
    if e.text.Some? && e.text.value != "" then e.text.value else ""
  }

  /** One equipped item, read from its text. */
  function EquipmentItemOf(e: Element, slotName: string): (item: EquipmentItem)
    ensures item.slot == slotName
  {
    var text := ItemText(e);
    var lines := Lines(text);
    var name := ItemNameOf(lines);
    var rarity := RarityOf(lines);
    var d := DefaultItem(slotName);
    d.(name := name, baseType := BaseTypeOf(text, name, rarity), rarity := rarity, itemLevel := ItemLevelOf(lines))
  }

  method ExtractEquipmentItem(e: Element, slotName: string) returns (item: EquipmentItem)
    ensures item == EquipmentItemOf(e, slotName)
  {
    var text := if e.text.Some? && e.text.value != "" then e.text.value else "";
    var name, rarity, itemLevel := ParseItemTextHeader(text);
    var baseType := ExtractBaseType(text, name, rarity);
    item := DefaultItem(slotName).(name := name, baseType := baseType, rarity := rarity, itemLevel := itemLevel);
  }

  /** The item id an item set assigns to a slot name, "" when the set has no
      such Slot element or it has no itemId. */
  function SlotItemId(itemSet: Element, slotName: string): string {
    match FindWithAttr(itemSet.children, "Slot", "name", slotName)
    case Some(s) => s.Get("itemId", "")
    case None => ""
  }

  /** The equipped items for the given slot names: a slot gets an entry
      exactly when its item id is non-empty and in the pool. */
  function SlotEntries(itemSet: Element, pool: map<string, Element>, names: seq<(string, Slot)>): map<Slot, EquipmentItem> {
    if names == [] then map[]
    else
      var slotName := names[|names| - 1].0;
      var m := SlotEntries(itemSet, pool, names[..|names| - 1]);
      var itemId := SlotItemId(itemSet, slotName);
      if itemId != "" && itemId in pool then m[names[|names| - 1].1 := EquipmentItemOf(pool[itemId], slotName)] else m
  }

  /** One more slot name adds at most its own entry. */
  lemma SlotEntriesStep(itemSet: Element, pool: map<string, Element>, names: seq<(string, Slot)>, k: nat)
    requires k < |names|
    ensures var itemId := SlotItemId(itemSet, names[k].0);
            SlotEntries(itemSet, pool, names[..k + 1])
            == if itemId != "" && itemId in pool
               then SlotEntries(itemSet, pool, names[..k])[names[k].1 := EquipmentItemOf(pool[itemId], names[k].0)]
               else SlotEntries(itemSet, pool, names[..k])
  {
    PrefixStep(names, k);
  }

  /** The slot name at position `i` names an item in the pool. */
  predicate Equipped(itemSet: Element, pool: map<string, Element>, names: seq<(string, Slot)>, i: int) {
    0 <= i < |names| && SlotItemId(itemSet, names[i].0) != "" && SlotItemId(itemSet, names[i].0) in pool
  }

  /** A slot name that assigns an item id in the pool gives its slot an entry. */
  lemma {:induction false} EquippedSlotHasEntry(itemSet: Element, pool: map<string, Element>, names: seq<(string, Slot)>, i: int)
    requires Equipped(itemSet, pool, names, i)
    ensures names[i].1 in SlotEntries(itemSet, pool, names)
  {
    if i < |names| - 1 {
      var prefix := names[..|names| - 1];
      assert prefix[i] == names[i];
      EquippedSlotHasEntry(itemSet, pool, prefix, i);
    }
  }

  /** Every entry comes from a slot name that assigns an item id in the pool. */
  lemma {:induction false} EntryHasEquippedSlot(itemSet: Element, pool: map<string, Element>, names: seq<(string, Slot)>, s: Slot)
    requires s in SlotEntries(itemSet, pool, names)
    ensures exists i :: Equipped(itemSet, pool, names, i) && names[i].1 == s
  {
    var last := |names| - 1;
    if Equipped(itemSet, pool, names, last) && names[last].1 == s {
    } else {
      var prefix := names[..last];
      EntryHasEquippedSlot(itemSet, pool, prefix, s);
      var i :| Equipped(itemSet, pool, prefix, i) && prefix[i].1 == s;
      assert prefix[i] == names[i];
      assert Equipped(itemSet, pool, names, i);
    }
  }

  /** The equipment snapshot: empty when Items is missing or has no item set. */
  function EquipmentSnapshotOf(root: Element): EquipmentSnapshot {
    var items := root.Find("Items");
    if Missing(items) then EmptySnapshot
    else
      match ActiveItemSet(items.value)
      case None => EmptySnapshot
      case Some(itemSet) => EquipmentSnapshot(SlotEntries(itemSet, ItemPool(items.value.FindAll("Item")), SlotNames), [])
  }

  /** With an item set in use, a slot is equipped exactly when one of its PoB
      slot names assigns it an item id that some Item element carries. */
  lemma EquippedExactlyFromThePool(root: Element, s: Slot)
    requires !Missing(root.Find("Items")) && ActiveItemSet(root.Find("Items").value).Some?
    ensures var items := root.Find("Items").value;
            var pool := ItemPool(items.FindAll("Item"));
            (s in EquipmentSnapshotOf(root).items)
              <==> (exists i :: Equipped(ActiveItemSet(items).value, pool, SlotNames, i) && SlotNames[i].1 == s)
  {
    var items := root.Find("Items").value;
    var itemSet := ActiveItemSet(items).value;
    var pool := ItemPool(items.FindAll("Item"));
    if s in EquipmentSnapshotOf(root).items {
      EntryHasEquippedSlot(itemSet, pool, SlotNames, s);
    }
    if i :| Equipped(itemSet, pool, SlotNames, i) && SlotNames[i].1 == s {
      EquippedSlotHasEntry(itemSet, pool, SlotNames, i);
    }
  }

  /** A missing Items element, or one without item sets, gives the empty
      snapshot. */
  lemma MissingItemsGiveEmptySnapshot(root: Element)
    requires Missing(root.Find("Items")) || root.Find("Items").value.FindAll("ItemSet") == []
    ensures EquipmentSnapshotOf(root) == EmptySnapshot
  {
  }

  /** The item-pool loop: every Item element with a non-empty id, later
      ones replacing earlier ones. */
  /** One more Item element with an id overwrites that id's entry. */
  lemma PoolStep(items: seq<Element>, i: nat)
    requires i < |items|
    ensures var id := items[i].Get("id", "");
            ItemPool(items[..i + 1]) == if id != "" then ItemPool(items[..i])[id := items[i]] else ItemPool(items[..i])
  {
    PrefixStep(items, i);
  }

  method BuildItemPool(itemElems: seq<Element>) returns (pool: map<string, Element>)
    ensures pool == ItemPool(itemElems)
  {
    pool := map[];
    var i := 0;
    while i < |itemElems|
      invariant 0 <= i <= |itemElems|
      invariant pool == ItemPool(itemElems[..i])
    {
      PoolStep(itemElems, i);
      var id := itemElems[i].Get("id", "");
      if id != "" {
        pool := pool[id := itemElems[i]];
      }
      i := i + 1;
    }
    WholePrefix(itemElems);
  }

  /** The slot loop: each slot name whose item id is in the pool gets its
      item read from the item's text. */
  method FillSlots(itemSet: Element, pool: map<string, Element>, names: seq<(string, Slot)>) returns (equipment: map<Slot, EquipmentItem>)
    ensures equipment == SlotEntries(itemSet, pool, names)
  {
    equipment := map[];
    var k := 0;
    while k < |names|
      invariant 0 <= k <= |names|
      invariant equipment == SlotEntries(itemSet, pool, names[..k])
    {
      SlotEntriesStep(itemSet, pool, names, k);
      var slotName, slot := names[k].0, names[k].1;
      var itemId := SlotItemId(itemSet, slotName);
      if itemId != "" && itemId in pool {
        var item := ExtractEquipmentItem(pool[itemId], slotName);
        equipment := equipment[slot := item];
      }
      k := k + 1;
    }
    WholePrefix(names);
  }

  method ExtractEquipmentSnapshot(root: Element) returns (snap: EquipmentSnapshot)
    ensures snap == EquipmentSnapshotOf(root)
  {
    var itemsElem := root.Find("Items");
    if Missing(itemsElem) {
      return EmptySnapshot;
    }
    var items := itemsElem.value;
    var pool := BuildItemPool(items.FindAll("Item"));
    var itemSet := ActiveItemSet(items);
    if itemSet.None? {
      return EmptySnapshot;
    }
    var equipment := FillSlots(itemSet.value, pool, SlotNames);
    return EquipmentSnapshot(equipment, []);
  }

  // ===== Whole character =====

  /** The whole extraction: the core first (its failure aborts everything),
      then the passive tree, the skills and the equipment. The core is the
      capped one (`CharacterCoreOf`), so nine or more ascendancy-range nodes
      give a complete ascendancy of 8 points where the source's validation
      rejects the build (`AscendancyOverflowRejectsBuild`). */
  function StandardizedCharacterOf(root: Element, supportNames: set<string>, timestamp: string): Result<StandardizedCharacter, MapperError> {
    match CharacterCoreOf(root)
    case Failure(e) => Failure(e)
    case Success(core) =>
      match PassiveAllocationOf(root)
      case Failure(e) => Failure(e)
      case Success(passives) =>
        match SkillSetupOf(root, supportNames)
        case Failure(e) => Failure(e)
        case Success(skills) =>
          Success(StandardizedCharacter(core, passives, skills, EquipmentSnapshotOf(root),
                                        "pob_import", Some(DetectPobVersion(root)), Some(timestamp)))
  }

  /** A missing or childless Build element fails the whole extraction; the
      other sections fall back to their empty records instead. */
  lemma MissingSectionsOutcomes(root: Element, supportNames: set<string>, timestamp: string)
    ensures Missing(root.Find("Build")) ==> StandardizedCharacterOf(root, supportNames, timestamp) == Failure(BuildMissing)
    ensures StandardizedCharacterOf(root, supportNames, timestamp).Success? ==>
              var c := StandardizedCharacterOf(root, supportNames, timestamp).value;
              c.characterCore.Valid()
              && (SpecOf(root).None? ==> c.passiveAllocation == EmptyPassiveAllocation)
              && (Missing(root.Find("Skills")) ==> c.skillSetup == EmptySkillSetup)
              && (Missing(root.Find("Items")) ==> c.equipmentSnapshot == EmptySnapshot)
              && c.source == "pob_import"
  {
    CoreFailsOnlyOnBuildOrLevel(root);
  }

  class Mapper {
    var versionDetected: Option<string>
    var compatibilityMode: string

    constructor()
      ensures versionDetected == None && compatibilityMode == "auto"
    {
      versionDetected := None;
      compatibilityMode := "auto";
    }

    /** Extracts the whole build, with the capped character core. The
        detected version is recorded before anything can fail. `supportNames` is the gem service's support set and
        `timestamp` the import time. */
    method ExtractStandardizedCharacter(root: Element, supportNames: set<string>, timestamp: string)
      returns (r: Result<StandardizedCharacter, MapperError>)
      modifies this
      ensures versionDetected == Some(DetectPobVersion(root))
      ensures compatibilityMode == old(compatibilityMode)
      ensures r == StandardizedCharacterOf(root, supportNames, timestamp)
    {
      versionDetected := Some(DetectPobVersion(root));
      var core := ExtractCharacterCore(root);
      if core.Failure? {
        return Failure(core.error);
      }
      var passives := ExtractPassiveAllocation(root);
      if passives.Failure? {
        return Failure(passives.error);
      }
      var skills := ExtractSkillSetup(root, supportNames);
      if skills.Failure? {
        return Failure(skills.error);
      }
      var equipment := ExtractEquipmentSnapshot(root);
      return Success(StandardizedCharacter(core.value, passives.value, skills.value, equipment,
                                           "pob_import", versionDetected, Some(timestamp)));
    }
  }
}
