/** The enhanced comparison engine: it takes the base engine's difference
    list and, when advanced analysis is on, appends the passive tree, core
    equipment and main skill gem findings, then re-sorts the list by
    priority. The base engine is not part of this model: its list is an
    input. */
module EnhancedComparisonEngine {
  import opened Wrappers
  import opened ComparisonDifference
  import opened CharacterModels
  import opened Sorting
  import PassiveTreeAnalyzer
  import EquipmentGemAnalyzer
  import BackendJson
  import Seqs
  import Walks

  // ===== Severity to priority =====

  /** The analysers' severity words map to the same-named priority; any
      other word maps to medium. */
  function MapSeverityToPriority(severity: string): (r: Priority)
    ensures severity !in {"critical", "high", "medium", "low"} ==> r == Medium
  {
    if severity == "critical" then Critical
    else if severity == "high" then High
    else if severity == "medium" then Medium
    else if severity == "low" then Low
    else Medium
  }

  /** Mapping undoes `Priority.Value`: each priority's own word maps back
      to it. */
  lemma SeverityRoundTrip(p: Priority)
    ensures MapSeverityToPriority(p.Value()) == p
  {
  }

  /** The re-sort key: the priority tier, most important first. */
  function PriorityKey(d: Difference): Key {
    Key(d.priority.Rank() as real, 0.0, 0.0)
  }

  // ===== Passive tree pass =====

  /** The allocated nodes of a build as a set. */
  function AllocatedSet(c: StandardizedCharacter): set<int> {
    set x | x in c.passiveAllocation.allocatedNodes
  }

  /** The target's allocated nodes of type `t` that the player lacks:
      the difference of the two classified buckets. */
  function MissingOfType(m: map<int, PassiveTreeAnalyzer.PassiveNode>, player: StandardizedCharacter,
                         target: StandardizedCharacter, t: PassiveTreeAnalyzer.NodeType): set<int> {
    set x | x in AllocatedSet(target) && x in m && m[x].nodeType == t && x !in AllocatedSet(player)
  }

  /** The difference reported for one path suggestion. */
  function SuggestionDifference(s: PassiveTreeAnalyzer.Suggestion): Difference {
    Difference(
      if s.category == PassiveTreeAnalyzer.KeystoneTarget then PassiveKeystone else PassiveNotable,
      High,
      PathSuggestion(s.targetId, s.targetName, s.cost, s.path, s.efficiency, s.detourCount))
  }

  function SuggestionDifferences(ss: seq<PassiveTreeAnalyzer.Suggestion>): (r: seq<Difference>)
    ensures |r| == |ss|
    ensures forall i :: 0 <= i < |ss| ==> r[i] == SuggestionDifference(ss[i])
  {
    if |ss| == 0 then [] else SuggestionDifferences(ss[..|ss| - 1]) + [SuggestionDifference(ss[|ss| - 1])]
  }

  /** A record of the passive pass: a high keystone or notable path
      suggestion towards a node of that type that the target allocates and
      the player does not. */
  ghost predicate PassiveRecord(m: map<int, PassiveTreeAnalyzer.PassiveNode>, player: StandardizedCharacter,
                                target: StandardizedCharacter, d: Difference) {
    && d.priority == High
    && d.detail.PathSuggestion?
    && d.detail.targetNodeId !in AllocatedSet(player)
    && ((d.category == PassiveKeystone
         && d.detail.targetNodeId in MissingOfType(m, player, target, PassiveTreeAnalyzer.Keystone))
        || (d.category == PassiveNotable
            && d.detail.targetNodeId in MissingOfType(m, player, target, PassiveTreeAnalyzer.Notable)))
  }

  /** What the passive pass appends. `keystones` and `notables` list
      exactly the missing nodes of each type; `found` holds one valid
      suggestion per candidate among the first six (keystones first) that
      the search reaches, in candidate order; the records are those of the
      three best found suggestions, by (-priority, cost, -efficiency). */
  ghost predicate PassiveOutcome(m: map<int, PassiveTreeAnalyzer.PassiveNode>, player: StandardizedCharacter,
                                 target: StandardizedCharacter, keystones: seq<int>, notables: seq<int>,
                                 found: seq<PassiveTreeAnalyzer.Suggestion>, added: seq<Difference>)
    requires PassiveTreeAnalyzer.WellFormed(m)
  {
    && (forall x :: x in keystones <==> x in MissingOfType(m, player, target, PassiveTreeAnalyzer.Keystone))
    && (forall x :: x in notables <==> x in MissingOfType(m, player, target, PassiveTreeAnalyzer.Notable))
    && PassiveTreeAnalyzer.TargetsOf(found)
       == PassiveTreeAnalyzer.ReachableTargets(PassiveTreeAnalyzer.ConnectionGraph(m), AllocatedSet(player),
                                               Take(PassiveTreeAnalyzer.Candidates(keystones, notables), 2 * 3))
    && PassiveTreeAnalyzer.AllValid(m, AllocatedSet(player), found)
    && added == SuggestionDifferences(Take(SortBy(found, PassiveTreeAnalyzer.SuggestionKey), 3))
  }

  /** A candidate of the search list comes from the keystone list when it
      is tagged as a keystone, and from the notable list otherwise. */
  lemma CandidateOrigin(keystones: seq<int>, notables: seq<int>, n: int, c: (int, PassiveTreeAnalyzer.TargetCategory))
    requires c in Take(PassiveTreeAnalyzer.Candidates(keystones, notables), n)
    ensures c.1 == PassiveTreeAnalyzer.KeystoneTarget ==> c.0 in keystones
    ensures c.1 == PassiveTreeAnalyzer.NotableTarget ==> c.0 in notables
  {
    var all := PassiveTreeAnalyzer.Candidates(keystones, notables);
    var taken := Take(all, n);
    var i :| 0 <= i < |taken| && taken[i] == c;
    assert all[i] == c;
    if i < |keystones| {
      assert c == (keystones[i], PassiveTreeAnalyzer.KeystoneTarget);
    } else {
      assert c == (notables[i - |keystones|], PassiveTreeAnalyzer.NotableTarget);
    }
  }

  /** A reachable target is one of the candidates and is not allocated. */
  lemma {:induction false} ReachableOrigin(g: Walks.Graph, allocatedNodes: set<int>,
                                          cands: seq<(int, PassiveTreeAnalyzer.TargetCategory)>,
                                          c: (int, PassiveTreeAnalyzer.TargetCategory))
    requires c in PassiveTreeAnalyzer.ReachableTargets(g, allocatedNodes, cands)
    ensures c in cands && c.0 !in allocatedNodes
  {
    if |cands| > 0 {
      var init := cands[..|cands| - 1];
      if c in PassiveTreeAnalyzer.ReachableTargets(g, allocatedNodes, init) {
        ReachableOrigin(g, allocatedNodes, init, c);
        var i :| 0 <= i < |init| && init[i] == c;
        assert cands[i] == c;
      }
    }
  }

  // ===== Equipment pass =====

  /** The two core slots, under the names the engine asks the snapshot
      for: the record's field names "weapon_main_hand" and "body_armour". */
  const CoreSlots: seq<string> := [FieldName(WeaponMainHand), FieldName(BodyArmour)]

  /** The item keys the base comparison reads. */
  function FieldsOf(item: EquipmentItem): EquipmentGemAnalyzer.ItemFields {
    EquipmentGemAnalyzer.ItemFields(item.itemLevel, item.baseType, item.quality)
  }

  /** The explicit then implicit modifiers, reduced to their text. */
  function ModsOf(item: EquipmentItem): (r: seq<EquipmentGemAnalyzer.Mod>)
    ensures |r| == |item.explicitMods + item.implicitMods|
    ensures forall i :: 0 <= i < |r| ==> r[i] == EquipmentGemAnalyzer.Mod((item.explicitMods + item.implicitMods)[i].text, None)
  {
    var mods := item.explicitMods + item.implicitMods;
    seq(|mods|, i requires 0 <= i < |mods| => EquipmentGemAnalyzer.Mod(mods[i].text, None))
  }

  /** The difference reported for one base field that falls short. */
  function BaseDifference(slot: string, d: EquipmentGemAnalyzer.BaseDiff): Difference {
    Difference(EquipmentCore, MapSeverityToPriority(d.severity), EquipmentBase(slot, d.kind.Name(), d.current, d.target))
  }

  function BaseDifferences(slot: string, ds: seq<EquipmentGemAnalyzer.BaseDiff>): (r: seq<Difference>)
    ensures |r| == |ds|
    ensures forall i :: 0 <= i < |ds| ==> r[i] == BaseDifference(slot, ds[i])
  {
    if |ds| == 0 then [] else BaseDifferences(slot, ds[..|ds| - 1]) + [BaseDifference(slot, ds[|ds| - 1])]
  }

  /** The important keywords the target's modifiers mention and the
      player's do not. */
  function MissingKeywords(player: seq<EquipmentGemAnalyzer.Mod>, target: seq<EquipmentGemAnalyzer.Mod>): set<string> {
    set k | k in EquipmentGemAnalyzer.ImportantKeywords
      && EquipmentGemAnalyzer.MentionedBy(target, k) && !EquipmentGemAnalyzer.MentionedBy(player, k)
  }

  /** What one slot adds: nothing unless both sides have an item there;
      otherwise one record per base field that falls short, then one
      medium record when keywords are missing. */
  function SlotDifferences(player: Option<EquipmentItem>, target: Option<EquipmentItem>, slot: string): seq<Difference> {
    if target.None? || player.None? then []
    else
      BaseDifferences(slot, EquipmentGemAnalyzer.BaseDiffs(FieldsOf(player.value), FieldsOf(target.value)))
        + ModDifferences(slot, MissingKeywords(ModsOf(player.value), ModsOf(target.value)))
  }

  /** One medium record naming the missing keywords, when there are any. */
  function ModDifferences(slot: string, missing: set<string>): seq<Difference> {
    if |missing| > 0 then [Difference(EquipmentMods, Medium, MissingMods(slot, |missing|, missing))] else []
  }

  /** What the equipment pass adds over a list of slot names. */
  function EquipmentDifferences(player: EquipmentSnapshot, target: EquipmentSnapshot, slots: seq<string>): seq<Difference> {
    if |slots| == 0 then []
    else
      var slot := slots[|slots| - 1];
      EquipmentDifferences(player, target, slots[..|slots| - 1])
        + SlotDifferences(player.GetItemBySlot(slot), target.GetItemBySlot(slot), slot)
  }

  /** A slot with an item on both sides reports each base field that falls
      short, with the priority its severity maps to, and one medium record
      exactly when the target mentions keywords the player lacks. */
  lemma SlotDifferencesFacts(p: EquipmentItem, t: EquipmentItem, slot: string)
    ensures var ds := SlotDifferences(Some(p), Some(t), slot);
      var bs := EquipmentGemAnalyzer.BaseDiffs(FieldsOf(p), FieldsOf(t));
      var missing := MissingKeywords(ModsOf(p), ModsOf(t));
      && (forall i :: 0 <= i < |bs| ==>
            ds[i] == BaseDifference(slot, bs[i]) && EquipmentGemAnalyzer.ReportsBaseDiff(FieldsOf(p), FieldsOf(t), bs[i]))
      && (|ds| == |bs| + 1 <==> missing != {})
      && (|ds| == |bs| + 1 ==> ds[|bs|] == Difference(EquipmentMods, Medium, MissingMods(slot, |missing|, missing)))
      && |ds| >= |bs|
  {
    EquipmentGemAnalyzer.BaseDiffsFacts(FieldsOf(p), FieldsOf(t));
  }

  /** Without an item on either side, a slot adds nothing. */
  lemma EmptySlotAddsNothing(player: Option<EquipmentItem>, target: Option<EquipmentItem>, slot: string)
    requires player.None? || target.None?
    ensures SlotDifferences(player, target, slot) == []
  {
  }

  /** Slot names that find no item on the player's side add nothing. */
  lemma {:induction false} UnknownSlotsAddNothing(player: EquipmentSnapshot, target: EquipmentSnapshot, slots: seq<string>)
    requires forall i :: 0 <= i < |slots| ==> player.GetItemBySlot(slots[i]) == None
    ensures EquipmentDifferences(player, target, slots) == []
  {
    if |slots| > 0 {
      var n := |slots| - 1;
      UnknownSlotsAddNothing(player, target, slots[..n]);
      EmptySlotAddsNothing(player.GetItemBySlot(slots[n]), target.GetItemBySlot(slots[n]), slots[n]);
    }
  }

  /** The engine asks the snapshots for the record's field names, which are
      not lookup keys, so the equipment pass adds nothing for any pair of
      builds. */
  lemma EquipmentPassAddsNothing(player: EquipmentSnapshot, target: EquipmentSnapshot)
    ensures EquipmentDifferences(player, target, CoreSlots) == []
  {
    var slots := CoreSlots;
    forall i | 0 <= i < |slots|
      ensures player.GetItemBySlot(slots[i]) == None
    {
      FieldNamesAreNotKeys(player, slots[i]);
    }
    UnknownSlotsAddNothing(player, target, slots);
  }

  // ===== Gem pass =====

  /** The gem record the analysers read, built from a gem of a skill group. */
  function GemRecord(g: GemInfo): EquipmentGemAnalyzer.Gem {
    EquipmentGemAnalyzer.Gem(g.name, g.level, g.quality, g.isSupport, g.isAwakened, g.enabled,
                             BackendJson.QualityTypeValue(g.qualityType))
  }

  function GemRecords(gems: seq<GemInfo>): (r: seq<EquipmentGemAnalyzer.Gem>)
    ensures |r| == |gems|
    ensures forall i :: 0 <= i < |gems| ==> r[i] == GemRecord(gems[i])
  {
    seq(|gems|, i requires 0 <= i < |gems| => GemRecord(gems[i]))
  }

  /** The difference reported for one awakened upgrade. */
  function UpgradeDifference(u: EquipmentGemAnalyzer.Upgrade): Difference {
    Difference(GemMissing, Medium, AwakenedUpgrade(u.current, u.upgradeTo))
  }

  function UpgradeDifferences(us: seq<EquipmentGemAnalyzer.Upgrade>): (r: seq<Difference>)
    ensures |r| == |us|
    ensures forall i :: 0 <= i < |us| ==> r[i] == UpgradeDifference(us[i])
  {
    if |us| == 0 then [] else UpgradeDifferences(us[..|us| - 1]) + [UpgradeDifference(us[|us| - 1])]
  }

  /** The support multipliers of two gem lists, player first. */
  function Multipliers(player: seq<EquipmentGemAnalyzer.Gem>, target: seq<EquipmentGemAnalyzer.Gem>): (real, real) {
    (EquipmentGemAnalyzer.Multiplier(EquipmentGemAnalyzer.SupportMultipliers, EquipmentGemAnalyzer.Supports(player)),
     EquipmentGemAnalyzer.Multiplier(EquipmentGemAnalyzer.SupportMultipliers, EquipmentGemAnalyzer.Supports(target)))
  }

  /** One high record when the target's multiplier is more than 5% ahead. */
  function MultiplierDifferences(pm: real, tm: real): seq<Difference> {
    var gap := EquipmentGemAnalyzer.GapPercentage(pm, tm);
    if gap > 5.0 then [Difference(GemMissing, High, MultiplierGap(gap, pm, tm))] else []
  }

  /** One critical record when the player's main group has fewer links. */
  function LinkDifferences(current: int, target: int): seq<Difference> {
    if current >= target then []
    else
      var cost := EquipmentGemAnalyzer.LinkingCost(target);
      [Difference(SkillLinks, Critical,
                  LinkShortfall(current, target, EquipmentGemAnalyzer.LinkDifficulty(target, "RARE"), cost.fusings, cost.jewellers))]
  }

  /** What the gem pass adds: nothing without a main group on both sides;
      otherwise the multiplier record, the upgrade records and the link
      record, in that order. */
  function GemDifferences(player: SkillSetup, target: SkillSetup): seq<Difference> {
    if player.mainSkillGroup.None? || target.mainSkillGroup.None? then []
    else
      var pm := player.mainSkillGroup.value;
      var tm := target.mainSkillGroup.value;
      var pg := GemRecords(pm.gems);
      var tg := GemRecords(tm.gems);
      var ms := Multipliers(pg, tg);
      MultiplierDifferences(ms.0, ms.1)
        + UpgradeDifferences(EquipmentGemAnalyzer.AwakenedUpgrades(EquipmentGemAnalyzer.Supports(pg),
                                                                   EquipmentGemAnalyzer.Supports(tg)))
        + LinkDifferences(pm.linkCount, tm.linkCount)
  }

  /** The multiplier record appears exactly when the target's support
      multiplier exceeds the player's by more than 5%. */
  lemma MultiplierRecordIff(pm: real, tm: real)
    requires pm >= 1.0
    ensures |MultiplierDifferences(pm, tm)| == 1 <==> tm > pm * 1.05
    ensures |MultiplierDifferences(pm, tm)| <= 1
  {
    EquipmentGemAnalyzer.GapPercentageMeaning(pm, tm, 5.0);
  }

  /** The link record appears exactly when the player's main group has
      fewer links than the target's; it is critical and carries the
      difficulty for a rare item and the currency estimate. */
  lemma LinkRecordIff(current: int, target: int)
    ensures |LinkDifferences(current, target)| == 1 <==> current < target
    ensures |LinkDifferences(current, target)| <= 1
    ensures current < target ==>
      LinkDifferences(current, target)[0].priority == Critical && LinkDifferences(current, target)[0].category == SkillLinks
  {
  }

  /** Every record the gem pass adds is a gem or link record: a high
      multiplier record, medium upgrade records (one per awakened upgrade)
      or a critical link record. */
  lemma GemDifferencesKinds(player: SkillSetup, target: SkillSetup)
    ensures forall d :: d in GemDifferences(player, target) ==>
      (d.category == GemMissing && d.priority == High && d.detail.MultiplierGap?)
      || (d.category == GemMissing && d.priority == Medium && d.detail.AwakenedUpgrade?)
      || (d.category == SkillLinks && d.priority == Critical && d.detail.LinkShortfall?)
  {
    if player.mainSkillGroup.Some? && target.mainSkillGroup.Some? {
      var pm := player.mainSkillGroup.value;
      var tm := target.mainSkillGroup.value;
      var pg := GemRecords(pm.gems);
      var tg := GemRecords(tm.gems);
      var ms := Multipliers(pg, tg);
      var multiplierPart := MultiplierDifferences(ms.0, ms.1);
      var upgradePart := UpgradeDifferences(EquipmentGemAnalyzer.AwakenedUpgrades(EquipmentGemAnalyzer.Supports(pg),
                                                                                  EquipmentGemAnalyzer.Supports(tg)));
      var linkPart := LinkDifferences(pm.linkCount, tm.linkCount);
      assert GemDifferences(player, target) == multiplierPart + upgradePart + linkPart;
      forall d | d in upgradePart
        ensures d.category == GemMissing && d.priority == Medium && d.detail.AwakenedUpgrade?
      {
        var k :| 0 <= k < |upgradePart| && upgradePart[k] == d;
      }
    }
  }

  /** Without a main group on either side the gem pass adds nothing. */
  lemma NoMainGroupAddsNothing(player: SkillSetup, target: SkillSetup)
    requires player.mainSkillGroup.None? || target.mainSkillGroup.None?
    ensures GemDifferences(player, target) == []
  {
  }

  // ===== The engine =====

  /** The passive tree export the engine is built with: its node records
      (when it has a `nodes` entry) and how many other entries it has. */
  datatype TreeData = TreeData(nodes: Option<seq<(string, PassiveTreeAnalyzer.RawNode)>>, otherEntries: nat)
  {
    /** A dictionary is truthy when it has an entry. */
    predicate Truthy() {
      nodes.Some? || otherEntries > 0
    }
  }

  class ComparisonEngine {
    const enableAdvanced: bool
    const classifier: PassiveTreeAnalyzer.Classifier?
    const pathfinder: PassiveTreeAnalyzer.PathFinder?
    var differences: seq<Difference>

    /** The tree tools exist together and the path finder searches the
        classifier's tree. */
    ghost predicate Valid()
      reads this, classifier
    {
      && (classifier == null <==> pathfinder == null)
      && (classifier != null ==> classifier.Valid() && pathfinder.classifier == classifier)
    }

    /** The tree tools are built only from tree data that is present and
        non-empty, and only with advanced analysis on. */
    constructor (treeData: Option<TreeData>, enableAdvanced: bool)
      ensures Valid()
      ensures this.enableAdvanced == enableAdvanced && differences == []
      ensures classifier != null <==> enableAdvanced && treeData.Some? && treeData.value.Truthy()
      ensures classifier != null ==>
        classifier.nodeMap == (if treeData.value.nodes.Some? then PassiveTreeAnalyzer.NodeMapOf(treeData.value.nodes.value) else map[])
    {
      this.enableAdvanced := enableAdvanced;
      if treeData.Some? && treeData.value.Truthy() && enableAdvanced {
        var c := new PassiveTreeAnalyzer.Classifier(treeData.value.nodes);
        classifier := c;
        pathfinder := new PassiveTreeAnalyzer.PathFinder(c);
      } else {
        classifier := null;
        pathfinder := null;
      }
      differences := [];
    }

    /** Classifies both allocations, takes the missing keystones and
        notables, and appends a high record for each of at most three path
        suggestions towards them. The ghost results are the two missing
        lists in the order used, the suggestions the path finder found and
        the ones it returned. */
    method PassivePass(player: StandardizedCharacter, target: StandardizedCharacter)
      returns (ghost added: seq<Difference>, ghost keystones: seq<int>, ghost notables: seq<int>,
               ghost found: seq<PassiveTreeAnalyzer.Suggestion>, ghost suggestions: seq<PassiveTreeAnalyzer.Suggestion>)
      requires Valid() && classifier != null
      modifies this
      ensures Valid()
      ensures differences == old(differences) + added
      ensures PassiveOutcome(classifier.nodeMap, player, target, keystones, notables, found, added)
      ensures suggestions == Take(SortBy(found, PassiveTreeAnalyzer.SuggestionKey), 3)
      ensures forall x :: x in keystones <==> x in MissingOfType(classifier.nodeMap, player, target, PassiveTreeAnalyzer.Keystone)
      ensures forall x :: x in notables <==> x in MissingOfType(classifier.nodeMap, player, target, PassiveTreeAnalyzer.Notable)
      ensures |keystones| == 0 && |notables| == 0 ==> added == []
      ensures |keystones| > 0 || |notables| > 0 ==>
        added == SuggestionDifferences(suggestions)
        && |suggestions| == |Take(PassiveTreeAnalyzer.ReachableTargets(PassiveTreeAnalyzer.ConnectionGraph(classifier.nodeMap),
                                    AllocatedSet(player), Take(PassiveTreeAnalyzer.Candidates(keystones, notables), 2 * 3)), 3)|
        && SortedBy(suggestions, PassiveTreeAnalyzer.SuggestionKey)
      ensures |added| <= 3
      ensures (MissingOfType(classifier.nodeMap, player, target, PassiveTreeAnalyzer.Keystone) == {}
               && MissingOfType(classifier.nodeMap, player, target, PassiveTreeAnalyzer.Notable) == {}) ==> added == []
      ensures forall i :: 0 <= i < |added| ==> PassiveRecord(classifier.nodeMap, player, target, added[i])
    {
      var playerNodes := AllocatedSet(player);
      var missingKeystones, missingNotables := MissingNodes(player, target);
      keystones, notables := missingKeystones, missingNotables;
      added, found, suggestions := [], [], [];
      if |missingKeystones| > 0 || |missingNotables| > 0 {
        var suggested;
        ghost var made, all;
        suggested, made, all := SuggestedDifferences(player, target, missingKeystones, missingNotables);
        differences := differences + suggested;
        added, found, suggestions := suggested, all, made;
      } else {
        NothingMissingFindsNothing(classifier.nodeMap, player, target, keystones, notables);
      }
    }

    /** The records for the path finder's (at most three) suggestions
        towards the missing keystones and notables; `found` is what the
        path finder found before ranking and cutting. */
    method SuggestedDifferences(player: StandardizedCharacter, target: StandardizedCharacter,
                                keystones: seq<int>, notables: seq<int>)
      returns (suggested: seq<Difference>, ghost made: seq<PassiveTreeAnalyzer.Suggestion>,
               ghost found: seq<PassiveTreeAnalyzer.Suggestion>)
      requires Valid() && classifier != null
      requires forall x :: x in keystones <==> x in MissingOfType(classifier.nodeMap, player, target, PassiveTreeAnalyzer.Keystone)
      requires forall x :: x in notables <==> x in MissingOfType(classifier.nodeMap, player, target, PassiveTreeAnalyzer.Notable)
      ensures suggested == SuggestionDifferences(made)
      ensures made == Take(SortBy(found, PassiveTreeAnalyzer.SuggestionKey), 3)
      ensures PassiveTreeAnalyzer.TargetsOf(found)
              == PassiveTreeAnalyzer.ReachableTargets(PassiveTreeAnalyzer.ConnectionGraph(classifier.nodeMap), AllocatedSet(player),
                                                      Take(PassiveTreeAnalyzer.Candidates(keystones, notables), 2 * 3))
      ensures PassiveTreeAnalyzer.AllValid(classifier.nodeMap, AllocatedSet(player), found)
      ensures |made| == |Take(PassiveTreeAnalyzer.ReachableTargets(PassiveTreeAnalyzer.ConnectionGraph(classifier.nodeMap),
                                AllocatedSet(player), Take(PassiveTreeAnalyzer.Candidates(keystones, notables), 2 * 3)), 3)|
      ensures SortedBy(made, PassiveTreeAnalyzer.SuggestionKey)
      ensures |suggested| <= 3
      ensures forall i :: 0 <= i < |suggested| ==> PassiveRecord(classifier.nodeMap, player, target, suggested[i])
    {
      var r;
      r, found := pathfinder.SuggestOptimalPaths(AllocatedSet(player), keystones, notables, 3);
      SuggestedRecords(classifier.nodeMap, player, target, keystones, notables, r);
      suggested := SuggestionDifferences(r);
      made := r;
    }

    /** Classifies both allocations and lists the target's keystones and
        notables that the player lacks. */
    method MissingNodes(player: StandardizedCharacter, target: StandardizedCharacter)
      returns (keystones: seq<int>, notables: seq<int>)
      requires Valid() && classifier != null
      ensures forall x :: x in keystones <==> x in MissingOfType(classifier.nodeMap, player, target, PassiveTreeAnalyzer.Keystone)
      ensures forall x :: x in notables <==> x in MissingOfType(classifier.nodeMap, player, target, PassiveTreeAnalyzer.Notable)
    {
      ghost var m := classifier.nodeMap;
      var targetList := PassiveTreeAnalyzer.ListOfSet(AllocatedSet(target));
      var targetClassified := classifier.ClassifyNodes(targetList);
      var playerList := PassiveTreeAnalyzer.ListOfSet(AllocatedSet(player));
      var playerClassified := classifier.ClassifyNodes(playerList);
      var missingKeystoneSet := (set x | x in targetClassified[PassiveTreeAnalyzer.Keystone])
                                - (set x | x in playerClassified[PassiveTreeAnalyzer.Keystone]);
      var missingNotableSet := (set x | x in targetClassified[PassiveTreeAnalyzer.Notable])
                               - (set x | x in playerClassified[PassiveTreeAnalyzer.Notable]);
      MissingSets(m, player, target, targetList, playerList, PassiveTreeAnalyzer.Keystone);
      MissingSets(m, player, target, targetList, playerList, PassiveTreeAnalyzer.Notable);
      keystones := PassiveTreeAnalyzer.ListOfSet(missingKeystoneSet);
      notables := PassiveTreeAnalyzer.ListOfSet(missingNotableSet);
    }

    /** Runs the equipment comparison for each slot name in turn. */
    method EquipmentPass(player: EquipmentSnapshot, target: EquipmentSnapshot, slots: seq<string>)
      modifies this
      ensures differences == old(differences) + EquipmentDifferences(player, target, slots)
    {
      ghost var start := differences;
      for i := 0 to |slots|
        invariant differences == start + EquipmentDifferences(player, target, slots[..i])
      {
        var playerItem := player.GetItemBySlot(slots[i]);
        var targetItem := target.GetItemBySlot(slots[i]);
        SlotPass(playerItem, targetItem, slots[i]);
        EquipmentStep(player, target, slots, i);
        Concat2(start, EquipmentDifferences(player, target, slots[..i]), SlotDifferences(playerItem, targetItem, slots[i]));
      }
      Seqs.WholePrefix(slots);
    }

    /** One slot: skipped unless both items exist; otherwise the base
        comparison's records, then the missing-keyword record. */
    method SlotPass(player: Option<EquipmentItem>, target: Option<EquipmentItem>, slot: string)
      modifies this
      ensures differences == old(differences) + SlotDifferences(player, target, slot)
    {
      if target.None? || player.None? {
        return;
      }
      var base := EquipmentGemAnalyzer.CompareEquipmentBase(FieldsOf(player.value), FieldsOf(target.value));
      ghost var start := differences;
      if base.hasDifferences {
        AddBaseRecords(slot, base.differences);
      }
      ghost var afterBase := differences;
      ModGapPass(player.value, target.value, slot);
      assert afterBase[|start|..] == BaseDifferences(slot, base.differences);
    }

    /** The modifier comparison of one slot: one medium record when the
        target mentions important keywords the player's mods lack. */
    method ModGapPass(player: EquipmentItem, target: EquipmentItem, slot: string)
      modifies this
      ensures differences == old(differences) + ModDifferences(slot, MissingKeywords(ModsOf(player), ModsOf(target)))
    {
      var modAnalysis := EquipmentGemAnalyzer.AnalyzeModGap(ModsOf(player), ModsOf(target));
      assert modAnalysis.missingMods == MissingKeywords(ModsOf(player), ModsOf(target));
      AddModRecord(slot, modAnalysis.missingCount, modAnalysis.missingMods);
    }

    /** One record per base field that falls short, in order. */
    method AddBaseRecords(slot: string, ds: seq<EquipmentGemAnalyzer.BaseDiff>)
      modifies this
      ensures differences == old(differences) + BaseDifferences(slot, ds)
    {
      ghost var start := differences;
      for i := 0 to |ds|
        invariant differences == start + BaseDifferences(slot, ds[..i])
      {
        BaseDifferencesStep(slot, ds, i);
        differences := differences + [BaseDifference(slot, ds[i])];
      }
      Seqs.WholePrefix(ds);
    }

    /** One medium record when keywords are missing. */
    method AddModRecord(slot: string, missingCount: int, missingMods: set<string>)
      requires missingCount == |missingMods|
      modifies this
      ensures differences == old(differences) + ModDifferences(slot, missingMods)
    {
      if missingCount > 0 {
        differences := differences + [Difference(EquipmentMods, Medium, MissingMods(slot, missingCount, missingMods))];
      }
    }

    /** The gem pass over the two main skill groups: the multiplier gap,
        the awakened upgrades and the link shortfall. */
    method GemPass(player: SkillSetup, target: SkillSetup)
      modifies this
      ensures differences == old(differences) + GemDifferences(player, target)
    {
      if player.mainSkillGroup.None? || target.mainSkillGroup.None? {
        return;
      }
      var playerMain := player.mainSkillGroup.value;
      var targetMain := target.mainSkillGroup.value;
      var playerGems := GemRecords(playerMain.gems);
      var targetGems := GemRecords(targetMain.gems);
      var analysis := EquipmentGemAnalyzer.AnalyzeGemCombination(playerGems, targetGems);
      ghost var start := differences;
      AddMultiplierRecord(analysis.multipliers);
      ghost var afterMultiplier := differences;
      AddUpgradeRecords(analysis.support.awakenedUpgrades);
      ghost var afterUpgrades := differences;
      AddLinkRecord(playerMain.linkCount, targetMain.linkCount);
      Concat3(start, afterMultiplier[|start|..], afterUpgrades[|afterMultiplier|..], differences[|afterUpgrades|..]);
    }

    /** One high record when the multiplier gap exceeds 5%. */
    method AddMultiplierRecord(m: EquipmentGemAnalyzer.MultiplierComparison)
      requires m.gapPercentage == EquipmentGemAnalyzer.GapPercentage(m.player, m.target)
      modifies this
      ensures differences == old(differences) + MultiplierDifferences(m.player, m.target)
    {
      if m.gapPercentage > 5.0 {
        differences := differences + [Difference(GemMissing, High, MultiplierGap(m.gapPercentage, m.player, m.target))];
      }
    }

    /** One medium record per awakened upgrade, in order. */
    method AddUpgradeRecords(upgrades: seq<EquipmentGemAnalyzer.Upgrade>)
      modifies this
      ensures differences == old(differences) + UpgradeDifferences(upgrades)
    {
      ghost var start := differences;
      for i := 0 to |upgrades|
        invariant differences == start + UpgradeDifferences(upgrades[..i])
      {
        UpgradeDifferencesStep(upgrades, i);
        differences := differences + [UpgradeDifference(upgrades[i])];
      }
      Seqs.WholePrefix(upgrades);
    }

    /** One critical record when the player's group has fewer links. */
    method AddLinkRecord(current: int, target: int)
      modifies this
      ensures differences == old(differences) + LinkDifferences(current, target)
    {
      var links := EquipmentGemAnalyzer.EvaluateLinkRequirement(current, target, "RARE");
      if links.Unsatisfied? {
        differences := differences + [Difference(SkillLinks, Critical,
          LinkShortfall(links.currentLinks, links.targetLinks, links.difficulty,
                        links.estimatedCost.fusings, links.estimatedCost.jewellers))];
      }
    }

    /** The three analyses in order: the passive pass when the tree tools
        exist, the equipment pass over the core slots and the gem pass. The
        ghost results are the passive pass's records, its missing lists and
        the suggestions the path finder found. */
    method AdvancedPasses(player: StandardizedCharacter, target: StandardizedCharacter)
      returns (ghost passiveAdded: seq<Difference>, ghost keystones: seq<int>, ghost notables: seq<int>,
               ghost found: seq<PassiveTreeAnalyzer.Suggestion>)
      requires Valid()
      modifies this
      ensures Valid()
      ensures differences == old(differences) + passiveAdded
        + EquipmentDifferences(player.equipmentSnapshot, target.equipmentSnapshot, CoreSlots)
        + GemDifferences(player.skillSetup, target.skillSetup)
      ensures classifier == null ==> passiveAdded == []
      ensures classifier != null ==> PassiveOutcome(classifier.nodeMap, player, target, keystones, notables, found, passiveAdded)
      ensures |passiveAdded| <= 3
      ensures forall i :: 0 <= i < |passiveAdded| ==>
        classifier != null && PassiveRecord(classifier.nodeMap, player, target, passiveAdded[i])
    {
      passiveAdded, keystones, notables, found := [], [], [], [];
      if classifier != null && pathfinder != null {
        ghost var suggestions;
        passiveAdded, keystones, notables, found, suggestions := PassivePass(player, target);
      } else {
        assert differences == old(differences) + passiveAdded;
      }
      EquipmentPass(player.equipmentSnapshot, target.equipmentSnapshot, CoreSlots);
      GemPass(player.skillSetup, target.skillSetup);
    }

    /** The base engine's list, returned as is when advanced analysis is
        off; otherwise with the passive (when the tree tools exist),
        equipment and gem records appended, re-sorted by priority. */
    method CompareCharacters(player: StandardizedCharacter, target: StandardizedCharacter, base: seq<Difference>)
      returns (r: seq<Difference>, ghost passiveAdded: seq<Difference>, ghost keystones: seq<int>,
               ghost notables: seq<int>, ghost found: seq<PassiveTreeAnalyzer.Suggestion>)
      requires Valid()
      modifies this
      ensures Valid()
      ensures r == differences
      ensures !enableAdvanced ==> r == base
      ensures enableAdvanced ==>
        r == SortBy(base + passiveAdded
                    + EquipmentDifferences(player.equipmentSnapshot, target.equipmentSnapshot, CoreSlots)
                    + GemDifferences(player.skillSetup, target.skillSetup), PriorityKey)
      ensures enableAdvanced ==> SortedBy(r, PriorityKey)
      ensures enableAdvanced ==>
        multiset(r) == multiset(base + passiveAdded + GemDifferences(player.skillSetup, target.skillSetup))
      ensures classifier == null ==> passiveAdded == []
      ensures enableAdvanced && classifier != null ==>
        PassiveOutcome(classifier.nodeMap, player, target, keystones, notables, found, passiveAdded)
      ensures |passiveAdded| <= 3
      ensures forall i :: 0 <= i < |passiveAdded| ==>
        classifier != null && PassiveRecord(classifier.nodeMap, player, target, passiveAdded[i])
    {
      differences := base;
      passiveAdded, keystones, notables, found := [], [], [], [];
      if !enableAdvanced {
        return differences, passiveAdded, keystones, notables, found;
      }
      passiveAdded, keystones, notables, found := AdvancedPasses(player, target);
      ghost var unsorted := differences;
      ghost var equipmentPart := EquipmentDifferences(player.equipmentSnapshot, target.equipmentSnapshot, CoreSlots);
      ghost var gemPart := GemDifferences(player.skillSetup, target.skillSetup);
      assert unsorted == base + passiveAdded + equipmentPart + gemPart;
      EquipmentPassAddsNothing(player.equipmentSnapshot, target.equipmentSnapshot);
      DropEmpty(base + passiveAdded, equipmentPart, gemPart);
      differences := SortBy(differences, PriorityKey);
      SortBySortsAndPermutes(unsorted, PriorityKey);
      r := differences;
    }
  }

  // ===== Proof steps =====

  lemma MissingSets(m: map<int, PassiveTreeAnalyzer.PassiveNode>, player: StandardizedCharacter, target: StandardizedCharacter,
                    targetList: seq<int>, playerList: seq<int>, t: PassiveTreeAnalyzer.NodeType)
    requires forall x :: x in targetList <==> x in AllocatedSet(target)
    requires forall x :: x in playerList <==> x in AllocatedSet(player)
    ensures (set x | x in PassiveTreeAnalyzer.OfType(m, targetList, t)) - (set x | x in PassiveTreeAnalyzer.OfType(m, playerList, t))
            == MissingOfType(m, player, target, t)
  {
    forall x
      ensures x in (set x | x in PassiveTreeAnalyzer.OfType(m, targetList, t)) - (set x | x in PassiveTreeAnalyzer.OfType(m, playerList, t))
              <==> x in MissingOfType(m, player, target, t)
    {
      PassiveTreeAnalyzer.OfTypeMembers(m, targetList, t, x);
      PassiveTreeAnalyzer.OfTypeMembers(m, playerList, t, x);
    }
  }

  lemma SuggestionsAreMissing(m: map<int, PassiveTreeAnalyzer.PassiveNode>, allocatedNodes: set<int>,
                              keystones: seq<int>, notables: seq<int>, ss: seq<PassiveTreeAnalyzer.Suggestion>)
    requires forall i :: 0 <= i < |ss| ==>
      (ss[i].targetId, ss[i].category) in PassiveTreeAnalyzer.ReachableTargets(PassiveTreeAnalyzer.ConnectionGraph(m), allocatedNodes,
                                                                            Take(PassiveTreeAnalyzer.Candidates(keystones, notables), 2 * 3))
    ensures forall i :: 0 <= i < |ss| ==>
      ss[i].targetId !in allocatedNodes
      && (ss[i].category == PassiveTreeAnalyzer.KeystoneTarget ==> ss[i].targetId in keystones)
      && (ss[i].category == PassiveTreeAnalyzer.NotableTarget ==> ss[i].targetId in notables)
  {
    forall i | 0 <= i < |ss|
      ensures ss[i].targetId !in allocatedNodes
      ensures ss[i].category == PassiveTreeAnalyzer.KeystoneTarget ==> ss[i].targetId in keystones
      ensures ss[i].category == PassiveTreeAnalyzer.NotableTarget ==> ss[i].targetId in notables
    {
      var c := (ss[i].targetId, ss[i].category);
      ReachableOrigin(PassiveTreeAnalyzer.ConnectionGraph(m), allocatedNodes,
                      Take(PassiveTreeAnalyzer.Candidates(keystones, notables), 2 * 3), c);
      CandidateOrigin(keystones, notables, 2 * 3, c);
    }
  }

  lemma SuggestedRecords(m: map<int, PassiveTreeAnalyzer.PassiveNode>, player: StandardizedCharacter,
                         target: StandardizedCharacter, keystones: seq<int>, notables: seq<int>,
                         ss: seq<PassiveTreeAnalyzer.Suggestion>)
    requires forall x :: x in keystones <==> x in MissingOfType(m, player, target, PassiveTreeAnalyzer.Keystone)
    requires forall x :: x in notables <==> x in MissingOfType(m, player, target, PassiveTreeAnalyzer.Notable)
    requires forall i :: 0 <= i < |ss| ==>
      (ss[i].targetId, ss[i].category) in PassiveTreeAnalyzer.ReachableTargets(PassiveTreeAnalyzer.ConnectionGraph(m), AllocatedSet(player),
                                                                            Take(PassiveTreeAnalyzer.Candidates(keystones, notables), 2 * 3))
    ensures forall i :: 0 <= i < |ss| ==> PassiveRecord(m, player, target, SuggestionDifferences(ss)[i])
  {
    SuggestionsAreMissing(m, AllocatedSet(player), keystones, notables, ss);
  }

  /** With nothing missing there is no candidate, so nothing is found and
      nothing is appended. */
  lemma NothingMissingFindsNothing(m: map<int, PassiveTreeAnalyzer.PassiveNode>, player: StandardizedCharacter,
                                   target: StandardizedCharacter, keystones: seq<int>, notables: seq<int>)
    requires PassiveTreeAnalyzer.WellFormed(m)
    requires keystones == [] && notables == []
    requires forall x :: x in keystones <==> x in MissingOfType(m, player, target, PassiveTreeAnalyzer.Keystone)
    requires forall x :: x in notables <==> x in MissingOfType(m, player, target, PassiveTreeAnalyzer.Notable)
    ensures PassiveOutcome(m, player, target, keystones, notables, [], [])
  {
    assert Take(PassiveTreeAnalyzer.Candidates(keystones, notables), 2 * 3) == [];
    assert SortBy([], PassiveTreeAnalyzer.SuggestionKey) == [];
  }

  lemma EquipmentStep(player: EquipmentSnapshot, target: EquipmentSnapshot, slots: seq<string>, i: nat)
    requires i < |slots|
    ensures EquipmentDifferences(player, target, slots[..i + 1])
      == EquipmentDifferences(player, target, slots[..i])
         + SlotDifferences(player.GetItemBySlot(slots[i]), target.GetItemBySlot(slots[i]), slots[i])
  {
    assert slots[..i + 1][..i] == slots[..i];
  }

  lemma BaseDifferencesStep(slot: string, ds: seq<EquipmentGemAnalyzer.BaseDiff>, i: nat)
    requires i < |ds|
    ensures BaseDifferences(slot, ds[..i + 1]) == BaseDifferences(slot, ds[..i]) + [BaseDifference(slot, ds[i])]
  {
    assert ds[..i + 1][..i] == ds[..i];
  }

  lemma DropEmpty<T>(a: seq<T>, e: seq<T>, b: seq<T>)
    requires e == []
    ensures a + e + b == a + b
  {
    assert a + e == a;
  }

  lemma Concat2<T>(s: seq<T>, a: seq<T>, b: seq<T>)
    ensures s + a + b == s + (a + b)
  {
  }

  lemma Concat3<T>(s: seq<T>, a: seq<T>, b: seq<T>, c: seq<T>)
    ensures s + a + b + c == s + (a + b + c)
  {
  }

  lemma UpgradeDifferencesStep(us: seq<EquipmentGemAnalyzer.Upgrade>, i: nat)
    requires i < |us|
    ensures UpgradeDifferences(us[..i + 1]) == UpgradeDifferences(us[..i]) + [UpgradeDifference(us[i])]
  {
    assert us[..i + 1][..i] == us[..i];
  }
}
