/** The front end's normaliser from the back end's JSON to the records the
    views read: the fifteen equipment slots, the skill setup and its groups,
    the fallback character stats, the completeness check and the support-gem
    keyword test. JavaScript's `||` defaults and truthiness are spelled out
    with `JsValues`. */
module BuildDataTransformer {
  import opened Wrappers
  import opened Text
  import opened Seqs
  import opened JsValues
  import opened CharacterModels
  import opened BackendJson
  import PobXmlMapper

  // ===== Equipment =====

  /** The fifteen slot keys of the equipment record, in order. */
  const FrontSlots: seq<string> := [
    "weapon_main_hand", "weapon_off_hand", "helmet", "body_armour",
    "gloves", "boots", "amulet", "ring_1", "ring_2", "belt",
    "flask_1", "flask_2", "flask_3", "flask_4", "flask_5"]

  /** The front end's slot keys are exactly the back end's field names: the
      i-th key names the i-th slot of the snapshot, and every slot is listed. */
  lemma FrontSlotsAreFieldNames()
    ensures |FrontSlots| == |SlotOrder|
    ensures forall i :: 0 <= i < |FrontSlots| ==> FrontSlots[i] == FieldName(SlotOrder[i])
    ensures forall s: Slot :: s in SlotOrder
  {
    forall s: Slot
      ensures s in SlotOrder
    {
      SlotOrderIsComplete(s);
    }
  }

  datatype Sockets = Sockets(total: JsValue, maxLinks: JsValue, groups: JsValue)

  datatype Mods = Mods(implicitMods: JsValue, explicitMods: JsValue, craftedMods: JsValue,
                       fracturedMods: JsValue, enchantMods: JsValue)

  datatype Influences = Influences(isElder: JsValue, isShaper: JsValue, isCrusader: JsValue,
                                   isHunter: JsValue, isRedeemer: JsValue, isWarlord: JsValue)

  /** One slot of the equipment record. */
  datatype FrontItem = FrontItem(
    slot: JsValue,
    name: JsValue,
    baseType: JsValue,
    rarity: JsValue,
    itemLevel: JsValue,
    quality: JsValue,
    sockets: Sockets,
    mods: Mods,
    influences: Influences,
    isCorrupted: JsValue,
    isMirrored: JsValue,
    isSynthesised: JsValue,
    hasData: bool)

  const NoMods := Mods(Arr([]), Arr([]), Arr([]), Arr([]), Arr([]))

  /** A slot that shows nothing: no name or base, level and quality 0, no
      sockets, no modifiers, no influence and no special state. */
  predicate ShowsNothing(r: FrontItem) {
    !Truthy(r.name) && !Truthy(r.baseType) && !Truthy(r.itemLevel) && !Truthy(r.quality)
    && !Truthy(r.sockets.total) && !Truthy(r.sockets.maxLinks) && r.sockets.groups == Arr([])
    && r.mods == NoMods
    && !Truthy(r.influences.isElder) && !Truthy(r.influences.isShaper) && !Truthy(r.influences.isCrusader)
    && !Truthy(r.influences.isHunter) && !Truthy(r.influences.isRedeemer) && !Truthy(r.influences.isWarlord)
    && !Truthy(r.isCorrupted) && !Truthy(r.isMirrored) && !Truthy(r.isSynthesised)
  }

  /** The record of an unequipped slot. */
  function EmptyItem(slot: string): (r: FrontItem)
    ensures r.slot == Str(slot) && r.rarity == Str("NORMAL") && !r.hasData
    ensures ShowsNothing(r)
  {
    FrontItem(Str(slot), Str(""), Str(""), Str("NORMAL"), Num(0.0), Num(0.0),
              Sockets(Num(0.0), Num(0.0), Arr([])), NoMods,
              Influences(Bool(false), Bool(false), Bool(false), Bool(false), Bool(false), Bool(false)),
              Bool(false), Bool(false), Bool(false), false)
  }

  /** The item record as the source builds it: each field copied when truthy,
      else its default. The socket summary is read from `total_sockets` and
      `max_links`, which the back end never sends (see the findings). */
  function TransformEquipmentItemAsWritten(item: JsValue): (r: FrontItem)
    ensures r.hasData && r.slot == Prop(item, "slot")
  {
    FrontItem(
      Prop(item, "slot"),
      Or(Prop(item, "name"), Str("")),
      Or(Prop(item, "base_type"), Str("")),
      Or(Prop(item, "rarity"), Str("NORMAL")),
      Or(Prop(item, "item_level"), Num(0.0)),
      Or(Prop(item, "quality"), Num(0.0)),
      Sockets(Or(Prop(item, "total_sockets"), Num(0.0)),
              Or(Prop(item, "max_links"), Num(0.0)),
              Or(Prop(item, "sockets"), Arr([]))),
      Mods(Or(Prop(item, "implicit_mods"), Arr([])),
           Or(Prop(item, "explicit_mods"), Arr([])),
           Or(Prop(item, "crafted_mods"), Arr([])),
           Or(Prop(item, "fractured_mods"), Arr([])),
           Or(Prop(item, "enchant_mods"), Arr([]))),
      Influences(Or(Prop(item, "is_elder"), Bool(false)),
                 Or(Prop(item, "is_shaper"), Bool(false)),
                 Or(Prop(item, "is_crusader"), Bool(false)),
                 Or(Prop(item, "is_hunter"), Bool(false)),
                 Or(Prop(item, "is_redeemer"), Bool(false)),
                 Or(Prop(item, "is_warlord"), Bool(false))),
      Or(Prop(item, "is_corrupted"), Bool(false)),
      Or(Prop(item, "is_mirrored"), Bool(false)),
      Or(Prop(item, "is_synthesised"), Bool(false)),
      true)
  }

  /** Number of sockets over the socket groups of a JSON item. */
  function JsSocketTotal(groups: seq<JsValue>): nat {
    if groups == [] then 0 else |Items(Prop(groups[0], "colors"))| + JsSocketTotal(groups[1..])
  }

  /** Largest linked socket group of a JSON item, 0 when none is linked. */
  function JsMaxLinks(groups: seq<JsValue>): nat {
    if groups == [] then 0
    else
      var rest := JsMaxLinks(groups[1..]);
      var size := |Items(Prop(groups[0], "colors"))|;
      if Truthy(Prop(groups[0], "linked")) && size > rest then size else rest
  }

  /** The item record with the socket summary falling back to what the
      socket groups give when the summary fields are absent; everything else
      is the record the source builds. */
  function TransformEquipmentItem(item: JsValue): (r: FrontItem)
    ensures r.(sockets := Sockets(Num(0.0), Num(0.0), r.sockets.groups)) ==
            TransformEquipmentItemAsWritten(item).(sockets := Sockets(Num(0.0), Num(0.0), r.sockets.groups))
    ensures r.sockets.groups == TransformEquipmentItemAsWritten(item).sockets.groups
    ensures Truthy(Prop(item, "total_sockets")) ==> r.sockets.total == Prop(item, "total_sockets")
    ensures Truthy(Prop(item, "max_links")) ==> r.sockets.maxLinks == Prop(item, "max_links")
  {
    var asWritten := TransformEquipmentItemAsWritten(item);
    var groups := Items(asWritten.sockets.groups);
    asWritten.(sockets := Sockets(Or(Prop(item, "total_sockets"), Num(JsSocketTotal(groups) as real)),
                                  Or(Prop(item, "max_links"), Num(JsMaxLinks(groups) as real)),
                                  asWritten.sockets.groups))
  }

  /** An item with nothing but its slot shows as the empty slot, except that
      it is marked as holding data. */
  lemma BareItemShowsNothing(slot: string)
    ensures TransformEquipmentItem(Obj(map["slot" := Str(slot)])) == EmptyItem(slot).(hasData := true)
  {
  }

  lemma SocketGroupsJsonTail(gs: seq<SocketGroup>)
    requires gs != []
    ensures SocketGroupsJson(gs)[0] == SocketGroupJson(gs[0])
    ensures SocketGroupsJson(gs)[1..] == SocketGroupsJson(gs[1..])
  {
  }

  /** Counting the colours of the JSON groups gives the item's socket count. */
  lemma {:induction false} SocketTotalOfJson(gs: seq<SocketGroup>)
    ensures JsSocketTotal(SocketGroupsJson(gs)) == SocketCount(gs)
  {
    if gs != [] {
      SocketGroupJsonKeys(gs[0]);
      SocketGroupsJsonTail(gs);
      SocketTotalOfJson(gs[1..]);
    }
  }

  /** The largest linked JSON group is the item's largest linked group. */
  lemma {:induction false} MaxLinksOfJson(gs: seq<SocketGroup>)
    ensures JsMaxLinks(SocketGroupsJson(gs)) == LargestLinkedGroup(gs)
  {
    if gs != [] {
      SocketGroupJsonKeys(gs[0]);
      SocketGroupsJsonTail(gs);
      MaxLinksOfJson(gs[1..]);
    }
  }

  /** What the equipment view should show for a back-end item: every field
      as the back end holds it, and the socket summary of its groups. */
  function ExpectedView(e: EquipmentItem): FrontItem {
    FrontItem(
      Str(e.slot), Str(e.name), Str(e.baseType), Str(RarityValue(e.rarity)),
      Num(e.itemLevel as real), Num(e.quality as real),
      Sockets(Num(e.TotalSockets() as real), Num(e.MaxLinks() as real), Arr(SocketGroupsJson(e.sockets))),
      Mods(ModifierListJson(e.implicitMods), ModifierListJson(e.explicitMods), ModifierListJson(e.craftedMods),
           ModifierListJson(e.fracturedMods), ModifierListJson(e.enchantMods)),
      Influences(Bool(e.isElder), Bool(e.isShaper), Bool(e.isCrusader),
                 Bool(e.isHunter), Bool(e.isRedeemer), Bool(e.isWarlord)),
      Bool(e.isCorrupted), Bool(e.isMirrored), Bool(e.isSynthesised), true)
  }

  /** As written, the view of a back-end item reports no sockets and no
      links, whatever sockets the item has: the summary fields it reads are
      derived properties that the back end's serialisation leaves out. */
  lemma SocketSummaryLostAsWritten(e: EquipmentItem)
    ensures var v := TransformEquipmentItemAsWritten(ItemJson(e));
            v.sockets.total == Num(0.0) && v.sockets.maxLinks == Num(0.0)
            && v.sockets.groups == Arr(SocketGroupsJson(e.sockets))
  {
    ItemJsonHasNoTotalSockets(e);
    ItemJsonHasNoMaxLinks(e);
    ItemJsonSockets(e);
  }

  /** A concrete item with three linked sockets whose view, as written,
      shows none. */
  lemma SocketSummaryLostExample()
    ensures var e := DefaultItem("Body Armour").(sockets := [SocketGroup([Red, Green, Blue], true)]);
            e.TotalSockets() == 3 && e.MaxLinks() == 3
            && TransformEquipmentItemAsWritten(ItemJson(e)).sockets.total == Num(0.0)
  {
    var e := DefaultItem("Body Armour").(sockets := [SocketGroup([Red, Green, Blue], true)]);
    assert e.sockets[1..] == [];
    SocketSummaryLostAsWritten(e);
  }

  /** With the fallback, the view of a back-end item shows every field as the
      back end holds it, socket summary included. */
  lemma BackendItemView(e: EquipmentItem)
    ensures TransformEquipmentItem(ItemJson(e)) == ExpectedView(e)
  {
    ItemViewHeader(e);
    ItemViewLevels(e);
    ItemViewSockets(e);
    ItemViewMods(e);
    ItemViewFlags(e);
  }

  lemma ItemViewHeader(e: EquipmentItem)
    ensures var v := TransformEquipmentItem(ItemJson(e));
            var x := ExpectedView(e);
            v.slot == x.slot && v.name == x.name && v.baseType == x.baseType
  {
    ItemJsonNames(e);
    ItemJsonBaseType(e);
  }

  lemma ItemViewLevels(e: EquipmentItem)
    ensures var v := TransformEquipmentItem(ItemJson(e));
            var x := ExpectedView(e);
            v.rarity == x.rarity && v.itemLevel == x.itemLevel && v.quality == x.quality
  {
    ItemJsonLevels(e);
    ItemJsonQuality(e);
  }

  lemma ItemViewSockets(e: EquipmentItem)
    ensures TransformEquipmentItem(ItemJson(e)).sockets == ExpectedView(e).sockets
  {
    ItemJsonHasNoTotalSockets(e);
    ItemJsonHasNoMaxLinks(e);
    ItemJsonSockets(e);
    SocketTotalOfJson(e.sockets);
    MaxLinksOfJson(e.sockets);
  }

  lemma ItemViewMods(e: EquipmentItem)
    ensures TransformEquipmentItem(ItemJson(e)).mods == ExpectedView(e).mods
  {
    ItemJsonSockets(e);
    ItemJsonCraftedMods(e);
    ItemJsonMods(e);
  }

  lemma ItemViewFlags(e: EquipmentItem)
    ensures var v := TransformEquipmentItem(ItemJson(e));
            var x := ExpectedView(e);
            v.influences == x.influences && v.isCorrupted == x.isCorrupted
            && v.isMirrored == x.isMirrored && v.isSynthesised == x.isSynthesised
  {
    ItemJsonCorrupted(e);
    ItemJsonMirrored(e);
    ItemJsonSynthesised(e);
    ItemJsonInfluences(e);
    ItemJsonConquerors(e);
  }

  /** The record the equipment view holds for one slot key, built with the
      corrected item view (see `TransformEquipmentItem`). */
  function SlotView(snapshot: JsValue, slot: string): (r: FrontItem)
    ensures r.hasData <==> Truthy(Prop(snapshot, slot))
    ensures !r.hasData ==> r == EmptyItem(slot)
  {
    var v := Prop(snapshot, slot);
    if Truthy(v) then TransformEquipmentItem(v) else EmptyItem(slot)
  }

  /** The equipment record when there is no snapshot: every slot empty. */
  method GetEmptyEquipmentStructure() returns (equipment: map<string, FrontItem>)
    ensures forall k :: k in equipment <==> k in FrontSlots
    ensures forall k :: k in equipment ==> equipment[k] == EmptyItem(k)
  {
    equipment := map[];
    var i := 0;
    while i < |FrontSlots|
      invariant 0 <= i <= |FrontSlots|
      invariant forall k :: k in equipment <==> k in FrontSlots[..i]
      invariant forall k :: k in equipment ==> equipment[k] == EmptyItem(k)
    {
      TakeOneMore(FrontSlots, i);
      equipment := equipment[FrontSlots[i] := EmptyItem(FrontSlots[i])];
      i := i + 1;
    }
    WholePrefix(FrontSlots);
  }

  /** The equipment record: exactly the fifteen slot keys; a slot the
      snapshot fills shows its item (through the corrected item view), any
      other slot the empty record. */
  method TransformEquipmentSnapshot(snapshot: JsValue) returns (equipment: map<string, FrontItem>)
    ensures forall k :: k in equipment <==> k in FrontSlots
    ensures forall k :: k in equipment ==> equipment[k] == SlotView(snapshot, k)
  {
    if !Truthy(snapshot) {
      equipment := GetEmptyEquipmentStructure();
      return;
    }
    equipment := ViewSlots(snapshot, FrontSlots);
  }

  /** The loop over the slot names: each slot shows the snapshot's item
      when it is truthy and the empty record otherwise. */
  method ViewSlots(snapshot: JsValue, slots: seq<string>) returns (equipment: map<string, FrontItem>)
    ensures forall k :: k in equipment <==> k in slots
    ensures forall k :: k in equipment ==> equipment[k] == SlotView(snapshot, k)
  {
    equipment := map[];
    var i := 0;
    while i < |slots|
      invariant 0 <= i <= |slots|
      invariant forall k :: k in equipment <==> k in slots[..i]
      invariant forall k :: k in equipment ==> equipment[k] == SlotView(snapshot, k)
    {
      TakeOneMore(slots, i);
      var slot := slots[i];
      var v := Prop(snapshot, slot);
      if Truthy(v) {
        equipment := equipment[slot := TransformEquipmentItem(v)];
      } else {
        equipment := equipment[slot := EmptyItem(slot)];
      }
      i := i + 1;
    }
    WholePrefix(slots);
  }

  /** For the back end's snapshot, a slot holds data exactly when the back
      end has an item there, and then it shows that item. */
  lemma BackendSnapshotView(snap: EquipmentSnapshot, s: Slot)
    ensures var v := SlotView(SnapshotJson(snap), FieldName(s));
            (v.hasData <==> s in snap.items)
            && (s in snap.items ==> v == ExpectedView(snap.items[s]))
  {
    SnapshotJsonSlot(snap, s);
    if s in snap.items {
      BackendItemView(snap.items[s]);
    }
  }

  /** As written, a back-end slot holding an item is viewed with no sockets
      and no links, whatever its sockets. */
  lemma BackendSnapshotViewAsWritten(snap: EquipmentSnapshot, s: Slot)
    requires s in snap.items
    ensures var w := TransformEquipmentItemAsWritten(Prop(SnapshotJson(snap), FieldName(s)));
            w.sockets.total == Num(0.0) && w.sockets.maxLinks == Num(0.0)
  {
    SnapshotJsonSlot(snap, s);
    SocketSummaryLostAsWritten(snap.items[s]);
  }

  // ===== Skills =====

  /** A gem record of a skill group. The three gem lists carry different
      keys: `isSupport` is only in the full list and `isVaal` is not in the
      support list (`None` = key absent). */
  datatype FrontGem = FrontGem(
    name: JsValue,
    level: JsValue,
    quality: JsValue,
    qualityType: JsValue,
    isSupport: Option<JsValue>,
    isAwakened: JsValue,
    isVaal: Option<JsValue>,
    enabled: JsValue,
    experiencePercent: JsValue)

  function GemFields(g: JsValue, isSupport: Option<JsValue>, isVaal: Option<JsValue>): FrontGem {
    FrontGem(Prop(g, "name"), Or(Prop(g, "level"), Num(1.0)), Or(Prop(g, "quality"), Num(0.0)),
             Or(Prop(g, "quality_type"), Str("DEFAULT")), isSupport,
             Or(Prop(g, "is_awakened"), Bool(false)), isVaal,
             Defined(Prop(g, "enabled"), Bool(true)), Or(Prop(g, "experience_percent"), Null))
  }

  function MainGemView(g: JsValue): FrontGem {
    GemFields(g, None, Some(Or(Prop(g, "is_vaal"), Bool(false))))
  }

  function SupportGemView(g: JsValue): FrontGem {
    GemFields(g, None, None)
  }

  function GemView(g: JsValue): FrontGem {
    GemFields(g, Some(Or(Prop(g, "is_support"), Bool(false))), Some(Or(Prop(g, "is_vaal"), Bool(false))))
  }

  datatype FrontGroup = FrontGroup(
    groupLabel: JsValue,
    slot: JsValue,
    enabled: JsValue,
    linkCount: JsValue,
    mainSkillName: JsValue,
    supportGemNames: JsValue,
    mainSkill: Option<FrontGem>,
    supportGems: seq<FrontGem>,
    allGems: seq<FrontGem>)

  predicate IsNamedActive(g: JsValue, mainSkill: JsValue) {
    Prop(g, "name") == mainSkill && !Truthy(Prop(g, "is_support"))
  }

  /** The test `find` applies when looking for the gem named `mainSkill`. */
  function NamedActive(mainSkill: JsValue): JsValue -> bool {
    g => IsNamedActive(g, mainSkill)
  }

  predicate IsEnabledActive(g: JsValue) {
    !Truthy(Prop(g, "is_support")) && Truthy(Prop(g, "enabled"))
  }

  predicate IsEnabledSupport(g: JsValue) {
    Truthy(Prop(g, "is_support")) && Truthy(Prop(g, "enabled"))
  }

  function GroupGems(group: JsValue): seq<JsValue> {
    Items(Or(Prop(group, "gems"), Arr([])))
  }

  /** `i` is the first position whose gem satisfies `p`. */
  predicate FirstAt(gems: seq<JsValue>, p: JsValue -> bool, i: int) {
    0 <= i < |gems| && p(gems[i]) && forall j :: 0 <= j < i ==> !p(gems[j])
  }

  /** The main gem as the source picks it: a `find` by name when
      `main_skill` is set, else (or when that finds nothing) a `find` for an
      enabled non-support gem. */
  function MainGem(group: JsValue): JsValue {
    var gems := GroupGems(group);
    var ms := Prop(group, "main_skill");
    var named := if Truthy(ms) then FindIndex(gems, NamedActive(ms)) else None;
    var found := if named.Some? then gems[named.value] else Undefined;
    if Truthy(found) then found
    else
      match FindIndex(gems, IsEnabledActive)
      case Some(k) => gems[k]
      case None => Undefined
  }

  /** At most one position is the first to satisfy a test. */
  lemma FirstAtUnique(gems: seq<JsValue>, p: JsValue -> bool, i: int, j: int)
    requires FirstAt(gems, p, i) && FirstAt(gems, p, j)
    ensures i == j
  {
  }

  /** The main gem is the first non-support gem named by `main_skill` when
      that name is set and such a gem exists (enabled or not); otherwise the
      first enabled non-support gem; `undefined` when there is none. */
  lemma MainGemChoice(group: JsValue)
    ensures var gems := GroupGems(group);
            var ms := Prop(group, "main_skill");
            var r := MainGem(group);
            (forall i :: Truthy(ms) && FirstAt(gems, NamedActive(ms), i) ==> r == gems[i])
            && ((!Truthy(ms) || forall i :: 0 <= i < |gems| ==> !IsNamedActive(gems[i], ms)) ==>
                  (forall i :: FirstAt(gems, IsEnabledActive, i) ==> r == gems[i])
                  && ((forall i :: 0 <= i < |gems| ==> !IsEnabledActive(gems[i])) ==> r == Undefined))
  {
    var gems := GroupGems(group);
    var ms := Prop(group, "main_skill");
    if Truthy(ms) {
      var named := FindIndex(gems, NamedActive(ms));
      if named.Some? {
        assert gems[named.value].Obj? by {
          assert IsNamedActive(gems[named.value], ms);
        }
        forall i | FirstAt(gems, NamedActive(ms), i)
          ensures MainGem(group) == gems[i]
        {
          FirstAtUnique(gems, NamedActive(ms), i, named.value);
        }
      }
    }
    forall i | FirstAt(gems, IsEnabledActive, i)
      ensures (!Truthy(ms) || forall j :: 0 <= j < |gems| ==> !IsNamedActive(gems[j], ms)) ==> MainGem(group) == gems[i]
    {
      var k := FindIndex(gems, IsEnabledActive);
      FirstAtUnique(gems, IsEnabledActive, i, k.value);
    }
  }

  function Names(gems: seq<JsValue>): (r: seq<JsValue>)
    ensures |r| == |gems| && forall i :: 0 <= i < |gems| ==> r[i] == Prop(gems[i], "name")
  {
    seq(|gems|, i requires 0 <= i < |gems| => Prop(gems[i], "name"))
  }

  /** One skill group: label, slot, enabled flag and link count with their
      defaults, the main skill, the enabled supports and every gem. */
  function TransformSkillGroup(group: JsValue): (r: FrontGroup)
    ensures var gems := GroupGems(group);
            |r.allGems| == |gems| && forall i :: 0 <= i < |gems| ==> r.allGems[i] == GemView(gems[i])
    ensures var supports := Filter(GroupGems(group), IsEnabledSupport);
            |r.supportGems| == |supports| && forall i :: 0 <= i < |supports| ==> r.supportGems[i] == SupportGemView(supports[i])
    ensures r.mainSkill.Some? <==> Truthy(MainGem(group))
    ensures r.mainSkill.Some? ==> r.mainSkill.value == MainGemView(MainGem(group))
  {
    var gems := GroupGems(group);
    var mainGem := MainGem(group);
    var supports := Filter(gems, IsEnabledSupport);
    FrontGroup(
      Or(Prop(group, "label"), Str("Skill")),
      Or(Prop(group, "slot"), Str("Unknown")),
      Defined(Prop(group, "enabled"), Bool(true)),
      Or(Prop(group, "link_count"), Num(0.0)),
      Or(Prop(group, "main_skill"), if Truthy(mainGem) then Prop(mainGem, "name") else Null),
      Or(Prop(group, "support_gems"), Arr(Names(supports))),
      if Truthy(mainGem) then Some(MainGemView(mainGem)) else None,
      seq(|supports|, i requires 0 <= i < |supports| => SupportGemView(supports[i])),
      seq(|gems|, i requires 0 <= i < |gems| => GemView(gems[i])))
  }

  lemma {:induction false} FilterAppend(a: seq<JsValue>, x: JsValue, p: JsValue -> bool)
    ensures Filter(a + [x], p) == Filter(a, p) + (if p(x) then [x] else [])
  {
    if a == [] {
      assert a + [x] == [x];
    } else {
      assert (a + [x])[1..] == a[1..] + [x];
      FilterAppend(a[1..], x, p);
    }
  }

  lemma GemJsonFlags(g: GemInfo)
    ensures Prop(GemJson(g), "name") == Str(g.name)
    ensures IsEnabledSupport(GemJson(g)) <==> g.enabled && g.isSupport
    ensures IsEnabledActive(GemJson(g)) <==> PobXmlMapper.IsActive(g)
    ensures IsNamedActive(GemJson(g), Str(g.name)) <==> !g.isSupport
  {
    GemJsonFlagKeys(g);
  }

  /** For a back-end group, the names of the front end's support list are
      the back end's support list: both take the enabled supports in order. */
  lemma {:induction false} BackendSupportsAgree(gems: seq<GemInfo>)
    ensures Names(Filter(GemListJson(gems), IsEnabledSupport)) == StrList(PobXmlMapper.SupportNamesOf(gems))
  {
    if gems != [] {
      var prefix := gems[..|gems| - 1];
      var last := gems[|gems| - 1];
      var kept := Filter(GemListJson(prefix), IsEnabledSupport);
      var names := PobXmlMapper.SupportNamesOf(prefix);
      BackendSupportsAgree(prefix);
      GemJsonFlags(last);
      TakeOneMore(gems, |gems| - 1);
      WholePrefix(gems);
      if last.enabled && last.isSupport {
        SupportStep(prefix, last, kept, [GemJson(last)], names, [last.name]);
      } else {
        SupportStep(prefix, last, kept, [], names, []);
      }
    }
  }

  lemma SupportStep(prefix: seq<GemInfo>, last: GemInfo, kept: seq<JsValue>, extra: seq<JsValue>,
                    names: seq<string>, extraNames: seq<string>)
    requires kept == Filter(GemListJson(prefix), IsEnabledSupport) && names == PobXmlMapper.SupportNamesOf(prefix)
    requires Names(kept) == StrList(names)
    requires extra == (if IsEnabledSupport(GemJson(last)) then [GemJson(last)] else [])
    requires extraNames == (if last.enabled && last.isSupport then [last.name] else [])
    requires Names(extra) == StrList(extraNames)
    ensures Names(Filter(GemListJson(prefix + [last]), IsEnabledSupport)) == StrList(PobXmlMapper.SupportNamesOf(prefix + [last]))
  {
    GemListJsonSnoc(prefix, last);
    FilterAppend(GemListJson(prefix), GemJson(last), IsEnabledSupport);
    NamesAppend(kept, extra);
    StrListAppend(names, extraNames);
    assert (prefix + [last])[..|prefix|] == prefix;
  }

  lemma GemListJsonSnoc(gems: seq<GemInfo>, g: GemInfo)
    ensures GemListJson(gems + [g]) == GemListJson(gems) + [GemJson(g)]
  {
  }

  lemma NamesAppend(a: seq<JsValue>, b: seq<JsValue>)
    ensures Names(a + b) == Names(a) + Names(b)
  {
  }

  lemma StrListAppend(a: seq<string>, b: seq<string>)
    ensures StrList(a + b) == StrList(a) + StrList(b)
  {
  }

  /** The gems of a back-end group, read back with their flags. */
  lemma GroupGemsOfJson(g: SkillGroup)
    ensures GroupGems(GroupJson(g)) == GemListJson(g.gems)
    ensures forall i :: 0 <= i < |g.gems| ==>
              Prop(GroupGems(GroupJson(g))[i], "name") == Str(g.gems[i].name)
              && (IsEnabledActive(GroupGems(GroupJson(g))[i]) <==> PobXmlMapper.IsActive(g.gems[i]))
              && (IsNamedActive(GroupGems(GroupJson(g))[i], Str(g.gems[i].name)) <==> !g.gems[i].isSupport)
  {
    GroupJsonKeys(g);
    forall i | 0 <= i < |g.gems|
      ensures Prop(GemListJson(g.gems)[i], "name") == Str(g.gems[i].name)
      ensures IsEnabledActive(GemListJson(g.gems)[i]) <==> PobXmlMapper.IsActive(g.gems[i])
      ensures IsNamedActive(GemListJson(g.gems)[i], Str(g.gems[i].name)) <==> !g.gems[i].isSupport
    {
      GemJsonFlags(g.gems[i]);
    }
  }

  /** A back-end group without a main skill has no enabled active gem, so
      the front end finds no main gem either. */
  lemma MainGemOfBackendNone(g: SkillGroup)
    requires g.mainSkill == None && PobXmlMapper.MainSkillOf(g.gems) == None
    ensures MainGem(GroupJson(g)) == Undefined && Prop(GroupJson(g), "main_skill") == Null
  {
    GroupJsonKeys(g);
    GroupGemsOfJson(g);
    PobXmlMapper.MainSkillIsLastActive(g.gems);
  }

  /** A back-end group whose main skill is named finds a gem of that name. */
  lemma MainGemOfBackendSome(g: SkillGroup, n: string)
    requires g.mainSkill == Some(n) && n != "" && PobXmlMapper.MainSkillOf(g.gems) == Some(n)
    ensures Truthy(MainGem(GroupJson(g))) && Prop(MainGem(GroupJson(g)), "name") == Str(n)
    ensures Prop(GroupJson(g), "main_skill") == Str(n)
  {
    GroupJsonKeys(g);
    var gems := GemListJson(g.gems);
    var ms := Str(n);
    var j := ActiveGemNamed(g.gems, n);
    GemJsonFlags(g.gems[j]);
    assert NamedActive(ms)(gems[j]);
    var k := FindIndex(gems, NamedActive(ms));
    assert FirstAt(gems, NamedActive(ms), k.value);
    assert gems[k.value] == GemJson(g.gems[k.value]);
  }

  /** The back end's main skill is the name of one of its enabled active gems. */
  lemma {:induction false} ActiveGemNamed(gems: seq<GemInfo>, n: string) returns (j: nat)
    requires PobXmlMapper.MainSkillOf(gems) == Some(n)
    ensures j < |gems| && PobXmlMapper.IsActive(gems[j]) && gems[j].name == n
  {
    if PobXmlMapper.IsActive(gems[|gems| - 1]) {
      j := |gems| - 1;
    } else {
      j := ActiveGemNamed(gems[..|gems| - 1], n);
    }
  }

  /** For a group the back end built, the front end names the same main
      skill, and shows none exactly when the back end has none. */
  lemma BackendMainSkillAgrees(g: SkillGroup)
    requires g.mainSkill == PobXmlMapper.MainSkillOf(g.gems)
    ensures var r := TransformSkillGroup(GroupJson(g));
            (g.mainSkill.None? ==> r.mainSkill.None? && r.mainSkillName == Null)
            && (g.mainSkill.Some? && g.mainSkill.value != "" ==>
                  r.mainSkillName == Str(g.mainSkill.value)
                  && r.mainSkill.Some? && r.mainSkill.value.name == Str(g.mainSkill.value))
  {
    if g.mainSkill.None? {
      MainGemOfBackendNone(g);
    } else if g.mainSkill.value != "" {
      MainGemOfBackendSome(g, g.mainSkill.value);
    }
  }

  datatype FrontSetup = FrontSetup(mainSkillGroup: Option<FrontGroup>, allSkillGroups: seq<FrontGroup>)

  function SetupGroups(setup: JsValue): seq<JsValue> {
    Items(Or(Prop(setup, "skill_groups"), Arr([])))
  }

  /** The skill setup: no setup gives no main group and no groups; otherwise
      one record per group, in order, and the main group when it is set. */
  function TransformSkillSetup(setup: JsValue): (r: FrontSetup)
    ensures !Truthy(setup) ==> r == FrontSetup(None, [])
    ensures Truthy(setup) ==>
              |r.allSkillGroups| == |SetupGroups(setup)|
              && (forall i :: 0 <= i < |SetupGroups(setup)| ==> r.allSkillGroups[i] == TransformSkillGroup(SetupGroups(setup)[i]))
              && (r.mainSkillGroup.Some? <==> Truthy(Prop(setup, "main_skill_group")))
  {
    if !Truthy(setup) then FrontSetup(None, [])
    else
      var groups := SetupGroups(setup);
      var main := Prop(setup, "main_skill_group");
      FrontSetup(if Truthy(main) then Some(TransformSkillGroup(main)) else None,
                 seq(|groups|, i requires 0 <= i < |groups| => TransformSkillGroup(groups[i])))
  }

  /** For the back end's setup, the front end lists one group per back-end
      group and has a main group exactly when the back end has one. */
  lemma BackendSetupView(s: SkillSetup)
    ensures var r := TransformSkillSetup(SetupJson(s));
            |r.allSkillGroups| == |s.skillGroups|
            && (forall i :: 0 <= i < |s.skillGroups| ==> r.allSkillGroups[i] == TransformSkillGroup(GroupJson(s.skillGroups[i])))
            && (r.mainSkillGroup.Some? <==> s.mainSkillGroup.Some?)
  {
    SetupJsonKeys(s);
  }

  // ===== Stats =====

  /** JavaScript's numeric reading of a value used in arithmetic; `None`
      stands for NaN. A string is converted (see `JsStringToNumber`); an
      array reads as its comma-joined string, so an empty one is 0, one
      element reads as that element (`null` and `undefined` as the empty
      string) and two or more, joined by a comma, are NaN. */
  function ToNumber(v: JsValue): Option<real> {
    match v
    case Undefined => None
    case Null => Some(0.0)
    case Bool(b) => Some(if b then 1.0 else 0.0)
    case Num(n) => Some(n)
    case Str(s) => JsStringToNumber(s)
    case Arr(items) =>
      if |items| == 0 then Some(0.0)
      else if |items| > 1 then None
      else (match items[0]
        case Undefined => Some(0.0)
        case Null => Some(0.0)
        case Bool(_) => None
        case Obj(_) => None
        case _ => ToNumber(items[0]))
    case Obj(_) => None
  }

  /** `Math.round`: halves round up. */
  function Round(x: real): (n: int)
    ensures x - 0.5 < n as real <= x + 0.5
  {
    (x + 0.5).Floor
  }

  /** A config key yields a value when it is truthy and parses as a number. */
  predicate Hit(config: JsValue, key: string, parseFloat: JsValue -> Option<real>) {
    Truthy(Prop(config, key)) && parseFloat(Prop(config, key)).Some?
  }

  predicate FirstHitAt(config: JsValue, keys: seq<string>, parseFloat: JsValue -> Option<real>, i: int) {
    0 <= i < |keys| && Hit(config, keys[i], parseFloat)
    && forall j :: 0 <= j < i ==> !Hit(config, keys[j], parseFloat)
  }

  /** The rounded value of the first key that yields one; `None` (null) when
      no key does. */
  function ConfigValue(config: JsValue, keys: seq<string>, parseFloat: JsValue -> Option<real>): Option<int> {
    if keys == [] then None
    else if Hit(config, keys[0], parseFloat) then Some(Round(parseFloat(Prop(config, keys[0])).value))
    else ConfigValue(config, keys[1..], parseFloat)
  }

  /** The config value is absent exactly when no key yields one, and
      otherwise comes from the first key that does. */
  lemma {:induction false} ConfigValueIsFirstHit(config: JsValue, keys: seq<string>, parseFloat: JsValue -> Option<real>)
    ensures ConfigValue(config, keys, parseFloat).None? <==> forall i :: 0 <= i < |keys| ==> !Hit(config, keys[i], parseFloat)
    ensures forall i :: FirstHitAt(config, keys, parseFloat, i) ==>
              ConfigValue(config, keys, parseFloat) == Some(Round(parseFloat(Prop(config, keys[i])).value))
  {
    if keys != [] && !Hit(config, keys[0], parseFloat) {
      ConfigValueIsFirstHit(config, keys[1..], parseFloat);
      assert forall i :: 1 <= i < |keys| ==> keys[1..][i - 1] == keys[i];
      assert forall i :: FirstHitAt(config, keys, parseFloat, i) ==> i > 0 && FirstHitAt(config, keys[1..], parseFloat, i - 1);
    }
  }

  lemma ConfigValueStep(config: JsValue, keys: seq<string>, parseFloat: JsValue -> Option<real>, i: nat)
    requires i < |keys| && ConfigValue(config, keys[..i], parseFloat).None?
    ensures ConfigValue(config, keys[..i + 1], parseFloat) ==
            if Hit(config, keys[i], parseFloat) then Some(Round(parseFloat(Prop(config, keys[i])).value)) else None
  {
    var ks := keys[..i + 1];
    ConfigValueIsFirstHit(config, keys[..i], parseFloat);
    ConfigValueIsFirstHit(config, ks, parseFloat);
    assert ks[i] == keys[i];
    assert forall j :: 0 <= j < i ==> ks[j] == keys[..i][j];
    if Hit(config, keys[i], parseFloat) {
      assert FirstHitAt(config, ks, parseFloat, i);
    }
  }

  /** The first key, in order, whose config value is truthy and parses as a
      number gives the result, rounded. */
  method ExtractConfigValue(config: JsValue, keys: seq<string>, parseFloat: JsValue -> Option<real>) returns (r: Option<int>)
    ensures r == ConfigValue(config, keys, parseFloat)
  {
    var i := 0;
    while i < |keys|
      invariant 0 <= i <= |keys|
      invariant ConfigValue(config, keys[..i], parseFloat).None?
    {
      ConfigValueStep(config, keys, parseFloat, i);
      var value := Prop(config, keys[i]);
      if Truthy(value) {
        var parsed := parseFloat(value);
        if parsed.Some? {
          PrefixOfHit(config, keys, parseFloat, i);
          return Some(Round(parsed.value));
        }
      }
      i := i + 1;
    }
    WholePrefix(keys);
    return None;
  }

  lemma PrefixOfHit(config: JsValue, keys: seq<string>, parseFloat: JsValue -> Option<real>, i: nat)
    requires i < |keys| && ConfigValue(config, keys[..i], parseFloat).None? && Hit(config, keys[i], parseFloat)
    ensures ConfigValue(config, keys, parseFloat) == Some(Round(parseFloat(Prop(config, keys[i])).value))
  {
    ConfigValueIsFirstHit(config, keys[..i], parseFloat);
    ConfigValueIsFirstHit(config, keys, parseFloat);
    assert forall j :: 0 <= j < i ==> keys[..i][j] == keys[j];
    assert FirstHitAt(config, keys, parseFloat, i);
  }

  const DpsKeys: seq<string> := ["DPS", "TotalDPS", "AverageDamage"]
  const LifeKeys: seq<string> := ["Life", "TotalLife", "MaxLife"]
  const ManaKeys: seq<string> := ["Mana", "TotalMana", "MaxMana"]
  const EnergyShieldKeys: seq<string> := ["EnergyShield", "ES", "MaxES"]

  /** The computed stats; `None` stands for NaN. */
  datatype Stats = Stats(
    life: Option<real>,
    energyShield: Option<real>,
    mana: Option<real>,
    dps: Option<real>,
    fireRes: int,
    coldRes: int,
    lightningRes: int,
    chaosRes: int)

  /** `configValue || fallback` for a rounded config value. */
  function OrConfig(configValue: Option<int>, fallback: Option<real>): Option<real> {
    if configValue.Some? && configValue.value != 0 then Some(configValue.value as real) else fallback
  }

  /** The level the stats use: the build's level, 90 when it is falsy. */
  function StatsLevel(buildInfo: JsValue): Option<real> {
    ToNumber(Or(Prop(buildInfo, "level"), Num(90.0)))
  }

  function StatsOf(buildInfo: JsValue, config: JsValue, parseFloat: JsValue -> Option<real>): (r: Stats)
    ensures r.fireRes == 75 && r.coldRes == 75 && r.lightningRes == 75 && r.chaosRes == 0
  {
    var level := StatsLevel(buildInfo);
    Stats(
      OrConfig(ConfigValue(config, LifeKeys, parseFloat),
               if level.Some? then Some(38.0 + (level.value - 1.0) * 12.0) else None),
      OrConfig(ConfigValue(config, EnergyShieldKeys, parseFloat), Some(0.0)),
      OrConfig(ConfigValue(config, ManaKeys, parseFloat),
               if level.Some? then Some(300.0 + level.value * 8.0) else None),
      OrConfig(ConfigValue(config, DpsKeys, parseFloat), Some(0.0)),
      75, 75, 75, 0)
  }

  /** Stats from the build's level and the config's computed values. */
  method CalculateStatsFromPoB(buildInfo: JsValue, config: JsValue, parseFloat: JsValue -> Option<real>) returns (r: Stats)
    ensures r == StatsOf(buildInfo, config, parseFloat)
  {
    var level := StatsLevel(buildInfo);
    var configDps := ExtractConfigValue(config, DpsKeys, parseFloat);
    var configLife := ExtractConfigValue(config, LifeKeys, parseFloat);
    var configMana := ExtractConfigValue(config, ManaKeys, parseFloat);
    var configEs := ExtractConfigValue(config, EnergyShieldKeys, parseFloat);
    var baseLife := if level.Some? then Some(38.0 + (level.value - 1.0) * 12.0) else None;
    var baseMana := if level.Some? then Some(300.0 + level.value * 8.0) else None;
    r := Stats(OrConfig(configLife, baseLife), OrConfig(configEs, Some(0.0)),
               OrConfig(configMana, baseMana), OrConfig(configDps, Some(0.0)), 75, 75, 75, 0);
  }

  /** Without config values, life and mana grow with the level (12 life and
      8 mana per level), energy shield and damage are 0, and a build without
      a level is taken at level 90. */
  lemma StatsFallbacks(buildInfo: JsValue, config: JsValue, parseFloat: JsValue -> Option<real>, level: real)
    requires forall k :: k in LifeKeys ==> !Hit(config, k, parseFloat)
    requires forall k :: k in ManaKeys ==> !Hit(config, k, parseFloat)
    requires forall k :: k in EnergyShieldKeys ==> !Hit(config, k, parseFloat)
    requires forall k :: k in DpsKeys ==> !Hit(config, k, parseFloat)
    requires StatsLevel(buildInfo) == Some(level)
    ensures var r := StatsOf(buildInfo, config, parseFloat);
            r.life == Some(26.0 + 12.0 * level) && r.mana == Some(300.0 + 8.0 * level)
            && r.energyShield == Some(0.0) && r.dps == Some(0.0)
    ensures !Truthy(Prop(buildInfo, "level")) ==> level == 90.0
  {
    ConfigValueIsFirstHit(config, LifeKeys, parseFloat);
    ConfigValueIsFirstHit(config, ManaKeys, parseFloat);
    ConfigValueIsFirstHit(config, EnergyShieldKeys, parseFloat);
    ConfigValueIsFirstHit(config, DpsKeys, parseFloat);
  }

  /** A level given as a string of digits, as PoB's XML attributes are,
      is converted before the arithmetic: the fallbacks use its value. */
  lemma {:induction false} StringLevelStats(buildInfo: JsValue, config: JsValue, parseFloat: JsValue -> Option<real>, digits: string)
    requires forall k :: k in LifeKeys ==> !Hit(config, k, parseFloat)
    requires forall k :: k in ManaKeys ==> !Hit(config, k, parseFloat)
    requires forall k :: k in EnergyShieldKeys ==> !Hit(config, k, parseFloat)
    requires forall k :: k in DpsKeys ==> !Hit(config, k, parseFloat)
    requires digits != [] && forall i :: 0 <= i < |digits| ==> IsDigit(digits[i])
    requires Prop(buildInfo, "level") == Str(digits)
    ensures var r := StatsOf(buildInfo, config, parseFloat);
            r.life == Some(26.0 + 12.0 * DigitsValue(digits) as real)
            && r.mana == Some(300.0 + 8.0 * DigitsValue(digits) as real)
  {
    StringLevel(buildInfo, digits);
    StatsFallbacks(buildInfo, config, parseFloat, DigitsValue(digits) as real);
  }

  lemma StringLevel(buildInfo: JsValue, digits: string)
    requires digits != [] && forall i :: 0 <= i < |digits| ==> IsDigit(digits[i])
    requires Prop(buildInfo, "level") == Str(digits)
    ensures StatsLevel(buildInfo) == Some(DigitsValue(digits) as real)
  {
    DigitStringsConvert(digits);
    assert Truthy(Str(digits));
  }

  /** A non-zero config value overrides the level-based fallback. */
  lemma ConfigLifeWins(buildInfo: JsValue, config: JsValue, parseFloat: JsValue -> Option<real>)
    requires Hit(config, "Life", parseFloat) && Round(parseFloat(Prop(config, "Life")).value) != 0
    ensures StatsOf(buildInfo, config, parseFloat).life == Some(Round(parseFloat(Prop(config, "Life")).value) as real)
  {
    ConfigValueIsFirstHit(config, LifeKeys, parseFloat);
    assert FirstHitAt(config, LifeKeys, parseFloat, 0);
  }

  // ===== Validation =====

  const RequiredKeys: seq<string> := ["stats", "equipment", "skills", "passive_tree"]

  /** The required keys whose value is falsy, in order. */
  function MissingKeys(build: JsValue, keys: seq<string>): (r: seq<string>)
    ensures forall k :: k in r <==> k in keys && !Truthy(Prop(build, k))
    ensures |r| == 0 <==> forall k :: k in keys ==> Truthy(Prop(build, k))
  {
    if keys == [] then []
    else (if Truthy(Prop(build, keys[0])) then [] else [keys[0]]) + MissingKeys(build, keys[1..])
  }

  /** A build is complete exactly when stats, equipment, skills and
      passive_tree are all truthy. */
  function ValidateBuildData(build: JsValue): (r: bool)
    ensures r <==> forall k :: k in RequiredKeys ==> Truthy(Prop(build, k))
  {
    |MissingKeys(build, RequiredKeys)| == 0
  }

  // ===== Support-gem keywords =====

  const SupportKeywords: seq<string> := [
    "Support", "support", "Awakened", "awakened",
    "Damage on Full Life", "Elemental Damage with Attacks", "Added Cold Damage",
    "Added Fire Damage", "Added Lightning Damage", "Increased Critical",
    "Hypothermia", "Inspiration", "Vicious Projectiles", "Multistrike",
    "Melee Physical Damage", "Fortify", "Concentrated Effect", "Increased Area of Effect"]

  function AnyKeyword(lowerName: string, keywords: seq<string>): (r: bool)
    ensures r <==> exists i :: 0 <= i < |keywords| && Contains(lowerName, Lower(keywords[i]))
  {
    if keywords == [] then false
    else if Contains(lowerName, Lower(keywords[0])) then true
    else
      var rest := AnyKeyword(lowerName, keywords[1..]);
      assert forall i :: 1 <= i < |keywords| ==> keywords[i] == keywords[1..][i - 1];
      rest
  }

  /** A gem is a support exactly when, ignoring case, its name contains one
      of the keywords. */
  function IsSupportGem(gemName: string): (r: bool)
    ensures r <==> exists i :: 0 <= i < |SupportKeywords| && Contains(Lower(gemName), Lower(SupportKeywords[i]))
  {
    AnyKeyword(Lower(gemName), SupportKeywords)
  }

  /** The test ignores case. */
  lemma IsSupportGemIgnoresCase(gemName: string)
    ensures IsSupportGem(Lower(gemName)) == IsSupportGem(gemName)
  {
    LowerIdempotent(gemName);
  }

  lemma {:induction false} LowerPrefix(sub: string, s: string)
    requires sub <= s
    ensures Lower(sub) <= Lower(s)
  {
    LowerChars(sub);
    LowerChars(s);
  }

  lemma {:induction false} ContainsLower(s: string, sub: string)
    requires Contains(s, sub)
    ensures Contains(Lower(s), Lower(sub))
    decreases |s|
  {
    if sub <= s {
      LowerPrefix(sub, s);
    } else {
      ContainsLower(s[1..], sub);
      assert Lower(s)[1..] == Lower(s[1..]);
    }
  }

  /** A name holding any keyword, in any case, is a support. */
  lemma KeywordMakesSupport(name: string, i: int)
    requires 0 <= i < |SupportKeywords| && Contains(name, SupportKeywords[i])
    ensures IsSupportGem(name)
  {
    ContainsLower(name, SupportKeywords[i]);
  }

  lemma LeadingKeywords()
    ensures SupportKeywords[0] == "Support" && SupportKeywords[1] == "support"
    ensures SupportKeywords[2] == "Awakened" && SupportKeywords[3] == "awakened"
  {
  }

  /** Every name the back end's keyword fallback calls a support, the front
      end calls a support too. */
  lemma BackendKeywordsAreFrontKeywords(name: string)
    requires Contains(name, "Support") || Contains(name, "support")
             || Contains(name, "Awakened") || Contains(name, "awakened")
    ensures IsSupportGem(name)
  {
    LeadingKeywords();
    if Contains(name, "Support") {
      KeywordMakesSupport(name, 0);
    } else if Contains(name, "support") {
      KeywordMakesSupport(name, 1);
    } else if Contains(name, "Awakened") {
      KeywordMakesSupport(name, 2);
    } else {
      KeywordMakesSupport(name, 3);
    }
  }
}
