/** The canonical build records every importer produces and every analyser
    reads: the character core, the passive allocation, the skill setup and
    the equipment snapshot, with their field constraints and derived values. */
module CharacterModels {
  import opened Wrappers
  import opened Text

  datatype AscendancyStatus = StatusNone | StatusPartial | StatusComplete

  datatype GemQualityType = Default | Anomalous | Divergent | Phantasmal

  datatype ItemRarity = Normal | Magic | Rare | Unique

  datatype SocketColor = Red | Green | Blue | White

  /** A field constraint the record validator rejected, named by its field. */
  datatype ValidationError = ValidationError(field: string)

  // ===== Character core =====

  datatype CharacterCore = CharacterCore(
    level: int,
    characterClass: string,
    ascendancy: Option<string>,
    ascendancyStatus: AscendancyStatus,
    ascendancyPoints: int,
    league: string)
  {
    /** Level lies in 1..100 and the ascendancy points in 0..8. */
    predicate Valid() {
      1 <= level <= 100 && 0 <= ascendancyPoints <= 8
    }

    /** Passive points earned by levelling alone. */
    function AvailablePassivePoints(): int {
      level - 1
    }

    /** Passive points including the 22 quest rewards. */
    function TotalAvailablePoints(): int {
      level - 1 + 22
    }
  }

  /** Building a core record: the validator accepts exactly the levels 1..100
      and the point counts 0..8, and fills in the documented defaults. */
  function NewCharacterCore(
    level: int,
    characterClass: string,
    ascendancy: Option<string> := None,
    ascendancyStatus: AscendancyStatus := StatusNone,
    ascendancyPoints: int := 0,
    league: string := "Standard"): (r: Result<CharacterCore, ValidationError>)
    ensures r.Success? <==> 1 <= level <= 100 && 0 <= ascendancyPoints <= 8
    ensures !(1 <= level <= 100) ==> r == Failure(ValidationError("level"))
    ensures 1 <= level <= 100 && !(0 <= ascendancyPoints <= 8) ==> r == Failure(ValidationError("ascendancy_points"))
    ensures r.Success? ==> r.value.Valid()
    ensures r.Success? ==> r.value == CharacterCore(level, characterClass, ascendancy, ascendancyStatus, ascendancyPoints, league)
  {
    if !(1 <= level <= 100) then Failure(ValidationError("level"))
    else if !(0 <= ascendancyPoints <= 8) then Failure(ValidationError("ascendancy_points"))
    else Success(CharacterCore(level, characterClass, ascendancy, ascendancyStatus, ascendancyPoints, league))
  }

  /** Without explicit values a core has no ascendancy points, status NONE and
      the Standard league. */
  lemma CoreDefaults(level: int, characterClass: string)
    requires 1 <= level <= 100
    ensures NewCharacterCore(level, characterClass).Success?
    ensures NewCharacterCore(level, characterClass).value.ascendancyPoints == 0
    ensures NewCharacterCore(level, characterClass).value.ascendancyStatus == StatusNone
    ensures NewCharacterCore(level, characterClass).value.league == "Standard"
  {
  }

  /** For a valid record the levelling points are 0..99 and the total is
      always 22 more. */
  lemma PassivePointBudget(c: CharacterCore)
    requires c.Valid()
    ensures 0 <= c.AvailablePassivePoints() <= 99
    ensures c.TotalAvailablePoints() == c.AvailablePassivePoints() + 22
    ensures 22 <= c.TotalAvailablePoints() <= 121
  {
  }

  // ===== Passive allocation =====

  datatype JewelSocketInfo = JewelSocketInfo(
    nodeId: int,
    socketType: string,
    isAllocated: bool,
    jewelEquipped: Option<map<string, string>>)

  datatype PassiveAllocation = PassiveAllocation(
    allocatedNodes: seq<int>,
    totalPointsUsed: int,
    keystoneNodes: seq<int>,
    notableNodes: seq<int>,
    jewelSockets: seq<JewelSocketInfo>,
    clusterJewelSockets: seq<JewelSocketInfo>,
    treeUrl: Option<string>,
    classStartNode: Option<int>)

  /** The allocation a build without a passive tree gets. */
  const EmptyPassiveAllocation := PassiveAllocation([], 0, [], [], [], [], None, None)

  // ===== Gems and skill groups =====

  datatype GemInfo = GemInfo(
    name: string,
    level: int,
    quality: int,
    qualityType: GemQualityType,
    isSupport: bool,
    isAwakened: bool,
    isVaal: bool,
    enabled: bool,
    experiencePercent: Option<real>)
  {
    predicate Valid() {
      1 <= level <= 50 && 0 <= quality <= 50
    }
  }

  /** Building a gem record: levels 1..50 and qualities 0..50 are accepted,
      anything else is a validation error. */
  function NewGemInfo(
    name: string,
    level: int := 1,
    quality: int := 0,
    qualityType: GemQualityType := Default,
    isSupport: bool := false,
    isAwakened: bool := false,
    isVaal: bool := false,
    enabled: bool := true,
    experiencePercent: Option<real> := None): (r: Result<GemInfo, ValidationError>)
    ensures r.Success? <==> 1 <= level <= 50 && 0 <= quality <= 50
    ensures r.Success? ==> r.value.Valid()
    ensures r.Success? ==> r.value == GemInfo(name, level, quality, qualityType, isSupport, isAwakened, isVaal, enabled, experiencePercent)
  {
    if !(1 <= level <= 50) then Failure(ValidationError("level"))
    else if !(0 <= quality <= 50) then Failure(ValidationError("quality"))
    else Success(GemInfo(name, level, quality, qualityType, isSupport, isAwakened, isVaal, enabled, experiencePercent))
  }

  /** A gem given only its name is a level 1, quality 0, default-variant,
      enabled gem with every other flag off. */
  lemma GemDefaults(name: string)
    ensures NewGemInfo(name) == Success(GemInfo(name, 1, 0, Default, false, false, false, true, None))
  {
  }

  datatype SkillGroup = SkillGroup(
    groupLabel: string,
    slot: string,
    enabled: bool,
    gems: seq<GemInfo>,
    linkCount: int,
    mainSkill: Option<string>,
    supportGems: seq<string>)
  {
    /** A main skill group has an active skill and at least four links. */
    predicate IsMainSkillGroup() {
      mainSkill.Some? && linkCount >= 4
    }
  }

  datatype SkillSetup = SkillSetup(
    skillGroups: seq<SkillGroup>,
    mainSkillGroup: Option<SkillGroup>,
    auraGroups: seq<SkillGroup>,
    utilityGroups: seq<SkillGroup>)
  {
    /** The link count of the main group, or 0 when there is none. */
    function MainLinkCount(): int {
      match mainSkillGroup
      case Some(g) => g.linkCount
      case None => 0
    }
  }

  /** The setup a build without skills gets. */
  const EmptySkillSetup := SkillSetup([], None, [], [])

  /** The main link count is 0 exactly when there is no main group or the
      main group has no links. */
  lemma MainLinkCountZero(s: SkillSetup)
    ensures s.MainLinkCount() == 0 <==> s.mainSkillGroup.None? || s.mainSkillGroup.value.linkCount == 0
    ensures s.mainSkillGroup.Some? ==> s.MainLinkCount() == s.mainSkillGroup.value.linkCount
  {
  }

  // ===== Equipment =====

  datatype SocketGroup = SocketGroup(colors: seq<SocketColor>, linked: bool)

  datatype ItemModifier = ItemModifier(
    text: string,
    modType: string,
    tier: Option<int>,
    valueRanges: Option<map<string, real>>)

  datatype EquipmentItem = EquipmentItem(
    slot: string,
    name: string,
    baseType: string,
    rarity: ItemRarity,
    itemLevel: int,
    quality: int,
    sockets: seq<SocketGroup>,
    implicitMods: seq<ItemModifier>,
    explicitMods: seq<ItemModifier>,
    craftedMods: seq<ItemModifier>,
    fracturedMods: seq<ItemModifier>,
    enchantMods: seq<ItemModifier>,
    isCorrupted: bool,
    isMirrored: bool,
    isSynthesised: bool,
    isElder: bool,
    isShaper: bool,
    isCrusader: bool,
    isHunter: bool,
    isRedeemer: bool,
    isWarlord: bool)
  {
    function TotalSockets(): int {
      SocketCount(sockets)
    }

    function MaxLinks(): int {
      LargestLinkedGroup(sockets)
    }
  }

  /** An item with the given slot and every other field at its default. */
  function DefaultItem(slot: string): EquipmentItem {
    EquipmentItem(slot, "", "", Normal, 0, 0, [], [], [], [], [], [],
                  false, false, false, false, false, false, false, false, false)
  }

  /** Sum of the colour-list lengths: 0 for no groups, and never smaller than
      any one group. */
  function SocketCount(groups: seq<SocketGroup>): (r: nat)
    ensures groups == [] ==> r == 0
    ensures forall i :: 0 <= i < |groups| ==> |groups[i].colors| <= r
  {
    if groups == [] then 0 else |groups[0].colors| + SocketCount(groups[1..])
  }

  /** The largest colour-list length among the linked groups, or 0 when no
      group is linked: an upper bound on every linked group that is either 0
      or reached by one of them. */
  function LargestLinkedGroup(groups: seq<SocketGroup>): (r: nat)
    ensures forall i :: 0 <= i < |groups| && groups[i].linked ==> |groups[i].colors| <= r
    ensures r == 0 || exists i :: 0 <= i < |groups| && groups[i].linked && |groups[i].colors| == r
    ensures (forall i :: 0 <= i < |groups| ==> !groups[i].linked) ==> r == 0
  {
    if groups == [] then 0
    else
      var rest := LargestLinkedGroup(groups[1..]);
      if groups[0].linked && |groups[0].colors| > rest then |groups[0].colors| else rest
  }

  /** Appending groups adds their sockets. */
  lemma {:induction false} SocketCountAppend(a: seq<SocketGroup>, b: seq<SocketGroup>)
    ensures SocketCount(a + b) == SocketCount(a) + SocketCount(b)
  {
    if a == [] {
      assert a + b == b;
    } else {
      assert (a + b)[1..] == a[1..] + b;
      SocketCountAppend(a[1..], b);
    }
  }

  /** No item has more links than sockets. */
  lemma {:induction false} MaxLinksAtMostTotalSockets(item: EquipmentItem)
    ensures 0 <= item.MaxLinks() <= item.TotalSockets()
  {
    var g := item.sockets;
    if item.MaxLinks() > 0 {
      var i :| 0 <= i < |g| && g[i].linked && |g[i].colors| == item.MaxLinks();
      assert |g[i].colors| <= SocketCount(g);
    }
  }

  /** The fifteen equipment positions of a snapshot. */
  datatype Slot =
    | WeaponMainHand | WeaponOffHand | Helmet | BodyArmour | Gloves | Boots
    | Amulet | Ring1 | Ring2 | Belt | Flask1 | Flask2 | Flask3 | Flask4 | Flask5

  /** The record field that holds a slot, as the other components name it. */
  function FieldName(s: Slot): string {
    match s
    case WeaponMainHand => "weapon_main_hand"
    case WeaponOffHand => "weapon_off_hand"
    case Helmet => "helmet"
    case BodyArmour => "body_armour"
    case Gloves => "gloves"
    case Boots => "boots"
    case Amulet => "amulet"
    case Ring1 => "ring_1"
    case Ring2 => "ring_2"
    case Belt => "belt"
    case Flask1 => "flask_1"
    case Flask2 => "flask_2"
    case Flask3 => "flask_3"
    case Flask4 => "flask_4"
    case Flask5 => "flask_5"
  }

  /** Different slots are held in differently named fields, none of them
      named like the snapshot's jewel list. */
  lemma FieldNamesDistinct()
    ensures forall a: Slot, b: Slot :: FieldName(a) == FieldName(b) ==> a == b
    ensures forall a: Slot :: FieldName(a) != "jewels"
  {
    forall a: Slot, b: Slot | FieldName(a) == FieldName(b)
      ensures a == b
    {
      assert |FieldName(a)| == |FieldName(b)|;
    }
  }

  /** The fifteen slots in the order of the snapshot's fields. */
  const SlotOrder: seq<Slot> := [
    WeaponMainHand, WeaponOffHand, Helmet, BodyArmour, Gloves, Boots, Amulet,
    Ring1, Ring2, Belt, Flask1, Flask2, Flask3, Flask4, Flask5]

  /** Every slot is listed. */
  lemma SlotOrderIsComplete(s: Slot)
    ensures s in SlotOrder
  {
    match s
    case WeaponMainHand => assert SlotOrder[0] == s;
    case WeaponOffHand => assert SlotOrder[1] == s;
    case Helmet => assert SlotOrder[2] == s;
    case BodyArmour => assert SlotOrder[3] == s;
    case Gloves => assert SlotOrder[4] == s;
    case Boots => assert SlotOrder[5] == s;
    case Amulet => assert SlotOrder[6] == s;
    case Ring1 => assert SlotOrder[7] == s;
    case Ring2 => assert SlotOrder[8] == s;
    case Belt => assert SlotOrder[9] == s;
    case Flask1 => assert SlotOrder[10] == s;
    case Flask2 => assert SlotOrder[11] == s;
    case Flask3 => assert SlotOrder[12] == s;
    case Flask4 => assert SlotOrder[13] == s;
    case Flask5 => assert SlotOrder[14] == s;
  }

  /** The short keys the slot lookup understands. */
  const SlotKeys: map<string, Slot> := map[
    "mainhand" := WeaponMainHand, "offhand" := WeaponOffHand, "helmet" := Helmet,
    "body" := BodyArmour, "gloves" := Gloves, "boots" := Boots, "amulet" := Amulet,
    "ring1" := Ring1, "ring2" := Ring2, "belt" := Belt,
    "flask1" := Flask1, "flask2" := Flask2, "flask3" := Flask3, "flask4" := Flask4, "flask5" := Flask5]

  /** A snapshot: the items present, by slot (an absent key is an empty
      slot), and the jewels socketed in the tree. */
  datatype EquipmentSnapshot = EquipmentSnapshot(items: map<Slot, EquipmentItem>, jewels: seq<EquipmentItem>)
  {
    function Get(s: Slot): Option<EquipmentItem> {
      if s in items then Some(items[s]) else None
    }

    /** Lookup by a case-insensitive short key; every other name finds nothing. */
    function GetItemBySlot(name: string): (r: Option<EquipmentItem>)
      ensures Lower(name) !in SlotKeys ==> r == None
      ensures r.Some? ==> Lower(name) in SlotKeys && SlotKeys[Lower(name)] in items
                          && r.value == items[SlotKeys[Lower(name)]]
    {
      var key := Lower(name);
      if key in SlotKeys then Get(SlotKeys[key]) else None
    }
  }

  const EmptySnapshot := EquipmentSnapshot(map[], [])

  /** The lookup ignores the case of its argument. */
  lemma GetItemBySlotIgnoresCase(snap: EquipmentSnapshot, name: string)
    ensures snap.GetItemBySlot(name) == snap.GetItemBySlot(Lower(name))
  {
    LowerIdempotent(name);
  }

  /** The record's own field names for the main weapon and the body armour
      are not lookup keys: asking for either always finds nothing. */
  lemma FieldNamesAreNotKeys(snap: EquipmentSnapshot, name: string)
    requires name == FieldName(WeaponMainHand) || name == FieldName(BodyArmour)
    ensures snap.GetItemBySlot(name) == None
  {
    LowerOfLowercase(name);
  }

  /** Every short key finds the item of its own slot. */
  lemma ShortKeysFindTheirSlot(snap: EquipmentSnapshot, k: string)
    requires k in SlotKeys
    ensures snap.GetItemBySlot(k) == snap.Get(SlotKeys[k])
  {
    assert forall i :: 0 <= i < |k| ==> ('a' <= k[i] <= 'z' || '1' <= k[i] <= '5');
    LowerOfLowercase(k);
  }

  /** Every slot has a short key. */
  lemma EverySlotHasAKey()
    ensures forall s: Slot :: s in SlotKeys.Values
  {
    forall s: Slot
      ensures s in SlotKeys.Values
    {
      var k := KeyOf(s);
    }
  }

  /** The short key of each slot. */
  function KeyOf(s: Slot): (k: string)
    ensures k in SlotKeys && SlotKeys[k] == s
  {
    match s
    case WeaponMainHand => "mainhand"
    case WeaponOffHand => "offhand"
    case Helmet => "helmet"
    case BodyArmour => "body"
    case Gloves => "gloves"
    case Boots => "boots"
    case Amulet => "amulet"
    case Ring1 => "ring1"
    case Ring2 => "ring2"
    case Belt => "belt"
    case Flask1 => "flask1"
    case Flask2 => "flask2"
    case Flask3 => "flask3"
    case Flask4 => "flask4"
    case Flask5 => "flask5"
  }

  // ===== Whole character =====

  datatype StandardizedCharacter = StandardizedCharacter(
    characterCore: CharacterCore,
    passiveAllocation: PassiveAllocation,
    skillSetup: SkillSetup,
    equipmentSnapshot: EquipmentSnapshot,
    source: string,
    pobVersion: Option<string>,
    importTimestamp: Option<string>)
}
