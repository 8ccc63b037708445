/** The JSON the back end sends for its canonical records: the record's
    fields under their snake_case names, enums as their string values and
    `None` as `null`. Derived properties such as `total_sockets` and
    `max_links` are not fields and are not sent. */
module BackendJson {
  import opened Wrappers
  import opened JsValues
  import opened CharacterModels

  function RarityValue(r: ItemRarity): (v: string)
    ensures |v| > 0
  {
    match r
    case Normal => "NORMAL"
    case Magic => "MAGIC"
    case Rare => "RARE"
    case Unique => "UNIQUE"
  }

  function QualityTypeValue(q: GemQualityType): string {
    match q
    case Default => "Default"
    case Anomalous => "Anomalous"
    case Divergent => "Divergent"
    case Phantasmal => "Phantasmal"
  }

  function ColorValue(c: SocketColor): string {
    match c
    case Red => "R"
    case Green => "G"
    case Blue => "B"
    case White => "W"
  }

  function StrList(ss: seq<string>): (r: seq<JsValue>)
    ensures |r| == |ss| && forall i :: 0 <= i < |ss| ==> r[i] == Str(ss[i])
  {
    seq(|ss|, i requires 0 <= i < |ss| => Str(ss[i]))
  }

  function OptionalNum(v: Option<real>): JsValue {
    match v
    case None => Null
    case Some(x) => Num(x)
  }

  function ModifierJson(m: ItemModifier): JsValue {
    Obj(map[
      "text" := Str(m.text),
      "mod_type" := Str(m.modType),
      "tier" := (match m.tier case None => Null case Some(t) => Num(t as real)),
      "value_ranges" := (match m.valueRanges
                         case None => Null
                         case Some(vr) => Obj(map k | k in vr :: Num(vr[k])))])
  }

  function ModifierListJson(ms: seq<ItemModifier>): (r: JsValue)
    ensures r.Arr? && |r.items| == |ms|
  {
    Arr(seq(|ms|, i requires 0 <= i < |ms| => ModifierJson(ms[i])))
  }

  function SocketGroupJson(g: SocketGroup): JsValue {
    Obj(map["colors" := Arr(seq(|g.colors|, i requires 0 <= i < |g.colors| => Str(ColorValue(g.colors[i])))),
            "linked" := Bool(g.linked)])
  }

  function SocketGroupsJson(gs: seq<SocketGroup>): (r: seq<JsValue>)
    ensures |r| == |gs| && forall i :: 0 <= i < |gs| ==> r[i] == SocketGroupJson(gs[i])
  {
    seq(|gs|, i requires 0 <= i < |gs| => SocketGroupJson(gs[i]))
  }

  function ItemJson(e: EquipmentItem): JsValue {
    Obj(map[
      "slot" := Str(e.slot),
      "name" := Str(e.name),
      "base_type" := Str(e.baseType),
      "rarity" := Str(RarityValue(e.rarity)),
      "item_level" := Num(e.itemLevel as real),
      "quality" := Num(e.quality as real),
      "sockets" := Arr(SocketGroupsJson(e.sockets)),
      "implicit_mods" := ModifierListJson(e.implicitMods),
      "explicit_mods" := ModifierListJson(e.explicitMods),
      "crafted_mods" := ModifierListJson(e.craftedMods),
      "fractured_mods" := ModifierListJson(e.fracturedMods),
      "enchant_mods" := ModifierListJson(e.enchantMods),
      "is_corrupted" := Bool(e.isCorrupted),
      "is_mirrored" := Bool(e.isMirrored),
      "is_synthesised" := Bool(e.isSynthesised),
      "is_elder" := Bool(e.isElder),
      "is_shaper" := Bool(e.isShaper),
      "is_crusader" := Bool(e.isCrusader),
      "is_hunter" := Bool(e.isHunter),
      "is_redeemer" := Bool(e.isRedeemer),
      "is_warlord" := Bool(e.isWarlord)])
  }

  function SlotJson(snap: EquipmentSnapshot, s: Slot): JsValue {
    if s in snap.items then ItemJson(snap.items[s]) else Null
  }

  /** The slot fields of a snapshot for the slots listed, each under its
      field name. */
  function SlotFields(snap: EquipmentSnapshot, slots: seq<Slot>): map<string, JsValue> {
    if slots == [] then map[]
    else
      var last := slots[|slots| - 1];
      SlotFields(snap, slots[..|slots| - 1])[FieldName(last) := SlotJson(snap, last)]
  }

  /** The snapshot: each slot under its field name, then the jewels. */
  function SnapshotJson(snap: EquipmentSnapshot): JsValue {
    Obj(SlotFields(snap, SlotOrder)
        ["jewels" := Arr(seq(|snap.jewels|, i requires 0 <= i < |snap.jewels| => ItemJson(snap.jewels[i])))])
  }

  lemma {:induction false} SlotFieldsHold(snap: EquipmentSnapshot, slots: seq<Slot>, s: Slot)
    requires s in slots
    ensures FieldName(s) in SlotFields(snap, slots) && SlotFields(snap, slots)[FieldName(s)] == SlotJson(snap, s)
  {
    FieldNamesDistinct();
    var last := slots[|slots| - 1];
    if s != last {
      var prefix := slots[..|slots| - 1];
      assert s in prefix by {
        var i :| 0 <= i < |slots| && slots[i] == s;
        assert prefix[i] == s;
      }
      SlotFieldsHold(snap, prefix, s);
    }
  }

  lemma SnapshotJsonSlot(snap: EquipmentSnapshot, s: Slot)
    ensures Prop(SnapshotJson(snap), FieldName(s)) == SlotJson(snap, s)
  {
    FieldNamesDistinct();
    SlotOrderIsComplete(s);
    SlotFieldsHold(snap, SlotOrder, s);
  }

  function GemJson(g: GemInfo): JsValue {
    Obj(map[
      "name" := Str(g.name),
      "level" := Num(g.level as real),
      "quality" := Num(g.quality as real),
      "quality_type" := Str(QualityTypeValue(g.qualityType)),
      "is_support" := Bool(g.isSupport),
      "is_awakened" := Bool(g.isAwakened),
      "is_vaal" := Bool(g.isVaal),
      "enabled" := Bool(g.enabled),
      "experience_percent" := OptionalNum(g.experiencePercent)])
  }

  function GemListJson(gs: seq<GemInfo>): (r: seq<JsValue>)
    ensures |r| == |gs| && forall i :: 0 <= i < |gs| ==> r[i] == GemJson(gs[i])
  {
    seq(|gs|, i requires 0 <= i < |gs| => GemJson(gs[i]))
  }

  function GroupJson(g: SkillGroup): JsValue {
    Obj(map[
      "label" := Str(g.groupLabel),
      "slot" := Str(g.slot),
      "enabled" := Bool(g.enabled),
      "gems" := Arr(GemListJson(g.gems)),
      "link_count" := Num(g.linkCount as real),
      "main_skill" := (match g.mainSkill case None => Null case Some(n) => Str(n)),
      "support_gems" := Arr(StrList(g.supportGems))])
  }

  function GroupListJson(gs: seq<SkillGroup>): (r: seq<JsValue>)
    ensures |r| == |gs| && forall i :: 0 <= i < |gs| ==> r[i] == GroupJson(gs[i])
  {
    seq(|gs|, i requires 0 <= i < |gs| => GroupJson(gs[i]))
  }

  function SetupJson(s: SkillSetup): JsValue {
    Obj(map[
      "skill_groups" := Arr(GroupListJson(s.skillGroups)),
      "main_skill_group" := (match s.mainSkillGroup case None => Null case Some(g) => GroupJson(g)),
      "aura_groups" := Arr(GroupListJson(s.auraGroups)),
      "utility_groups" := Arr(GroupListJson(s.utilityGroups))])
  }

  // ===== Reading the records back =====
  // Each lemma reads a few keys of one record, so that a proof about the
  // front end's reading of a whole record does not search the map itself.

  lemma ItemJsonHasNoTotalSockets(e: EquipmentItem)
    ensures Prop(ItemJson(e), "total_sockets") == Undefined
  {
  }

  lemma ItemJsonHasNoMaxLinks(e: EquipmentItem)
    ensures Prop(ItemJson(e), "max_links") == Undefined
  {
  }

  lemma ItemJsonNames(e: EquipmentItem)
    ensures Prop(ItemJson(e), "slot") == Str(e.slot) && Prop(ItemJson(e), "name") == Str(e.name)
  {
  }

  lemma ItemJsonBaseType(e: EquipmentItem)
    ensures Prop(ItemJson(e), "base_type") == Str(e.baseType)
  {
  }

  lemma ItemJsonLevels(e: EquipmentItem)
    ensures Prop(ItemJson(e), "rarity") == Str(RarityValue(e.rarity))
    ensures Prop(ItemJson(e), "item_level") == Num(e.itemLevel as real)
  {
  }

  lemma ItemJsonQuality(e: EquipmentItem)
    ensures Prop(ItemJson(e), "quality") == Num(e.quality as real)
  {
  }

  lemma ItemJsonSockets(e: EquipmentItem)
    ensures Prop(ItemJson(e), "sockets") == Arr(SocketGroupsJson(e.sockets))
    ensures Prop(ItemJson(e), "implicit_mods") == ModifierListJson(e.implicitMods)
    ensures Prop(ItemJson(e), "explicit_mods") == ModifierListJson(e.explicitMods)
  {
  }

  lemma ItemJsonCraftedMods(e: EquipmentItem)
    ensures Prop(ItemJson(e), "crafted_mods") == ModifierListJson(e.craftedMods)
  {
  }

  lemma ItemJsonMods(e: EquipmentItem)
    ensures Prop(ItemJson(e), "fractured_mods") == ModifierListJson(e.fracturedMods)
    ensures Prop(ItemJson(e), "enchant_mods") == ModifierListJson(e.enchantMods)
  {
  }

  lemma ItemJsonCorrupted(e: EquipmentItem)
    ensures Prop(ItemJson(e), "is_corrupted") == Bool(e.isCorrupted)
  {
  }

  lemma ItemJsonMirrored(e: EquipmentItem)
    ensures Prop(ItemJson(e), "is_mirrored") == Bool(e.isMirrored)
  {
  }

  lemma ItemJsonSynthesised(e: EquipmentItem)
    ensures Prop(ItemJson(e), "is_synthesised") == Bool(e.isSynthesised)
  {
  }

  lemma ItemJsonInfluences(e: EquipmentItem)
    ensures Prop(ItemJson(e), "is_elder") == Bool(e.isElder)
    ensures Prop(ItemJson(e), "is_shaper") == Bool(e.isShaper)
    ensures Prop(ItemJson(e), "is_crusader") == Bool(e.isCrusader)
  {
  }

  lemma ItemJsonConquerors(e: EquipmentItem)
    ensures Prop(ItemJson(e), "is_hunter") == Bool(e.isHunter)
    ensures Prop(ItemJson(e), "is_redeemer") == Bool(e.isRedeemer)
    ensures Prop(ItemJson(e), "is_warlord") == Bool(e.isWarlord)
  {
  }

  /** Every key the front end reads from an item: the record's fields, and
      no socket summary. */
  lemma ItemJsonFields(e: EquipmentItem)
    ensures Prop(ItemJson(e), "total_sockets") == Undefined && Prop(ItemJson(e), "max_links") == Undefined
    ensures Prop(ItemJson(e), "slot") == Str(e.slot) && Prop(ItemJson(e), "name") == Str(e.name)
    ensures Prop(ItemJson(e), "base_type") == Str(e.baseType)
    ensures Prop(ItemJson(e), "rarity") == Str(RarityValue(e.rarity))
    ensures Prop(ItemJson(e), "item_level") == Num(e.itemLevel as real)
    ensures Prop(ItemJson(e), "quality") == Num(e.quality as real)
    ensures Prop(ItemJson(e), "sockets") == Arr(SocketGroupsJson(e.sockets))
    ensures Prop(ItemJson(e), "implicit_mods") == ModifierListJson(e.implicitMods)
    ensures Prop(ItemJson(e), "explicit_mods") == ModifierListJson(e.explicitMods)
    ensures Prop(ItemJson(e), "crafted_mods") == ModifierListJson(e.craftedMods)
    ensures Prop(ItemJson(e), "fractured_mods") == ModifierListJson(e.fracturedMods)
    ensures Prop(ItemJson(e), "enchant_mods") == ModifierListJson(e.enchantMods)
    ensures Prop(ItemJson(e), "is_corrupted") == Bool(e.isCorrupted)
    ensures Prop(ItemJson(e), "is_mirrored") == Bool(e.isMirrored)
    ensures Prop(ItemJson(e), "is_synthesised") == Bool(e.isSynthesised)
    ensures Prop(ItemJson(e), "is_elder") == Bool(e.isElder)
    ensures Prop(ItemJson(e), "is_shaper") == Bool(e.isShaper)
    ensures Prop(ItemJson(e), "is_crusader") == Bool(e.isCrusader)
    ensures Prop(ItemJson(e), "is_hunter") == Bool(e.isHunter)
    ensures Prop(ItemJson(e), "is_redeemer") == Bool(e.isRedeemer)
    ensures Prop(ItemJson(e), "is_warlord") == Bool(e.isWarlord)
  {
    ItemJsonHasNoTotalSockets(e);
    ItemJsonHasNoMaxLinks(e);
    ItemJsonNames(e);
    ItemJsonBaseType(e);
    ItemJsonLevels(e);
    ItemJsonQuality(e);
    ItemJsonSockets(e);
    ItemJsonCraftedMods(e);
    ItemJsonMods(e);
    ItemJsonCorrupted(e);
    ItemJsonMirrored(e);
    ItemJsonSynthesised(e);
    ItemJsonInfluences(e);
    ItemJsonConquerors(e);
  }

  lemma SocketGroupJsonKeys(g: SocketGroup)
    ensures Prop(SocketGroupJson(g), "colors").Arr? && |Prop(SocketGroupJson(g), "colors").items| == |g.colors|
    ensures Prop(SocketGroupJson(g), "linked") == Bool(g.linked)
  {
  }

  lemma GemJsonFlagKeys(g: GemInfo)
    ensures Prop(GemJson(g), "name") == Str(g.name)
    ensures Prop(GemJson(g), "is_support") == Bool(g.isSupport)
    ensures Prop(GemJson(g), "enabled") == Bool(g.enabled)
  {
  }

  lemma GroupJsonKeys(g: SkillGroup)
    ensures Prop(GroupJson(g), "gems") == Arr(GemListJson(g.gems))
    ensures Prop(GroupJson(g), "main_skill") == (match g.mainSkill case None => Null case Some(n) => Str(n))
  {
  }

  lemma SetupJsonKeys(s: SkillSetup)
    ensures Prop(SetupJson(s), "skill_groups") == Arr(GroupListJson(s.skillGroups))
    ensures Prop(SetupJson(s), "main_skill_group") == (match s.mainSkillGroup case None => Null case Some(g) => GroupJson(g))
  {
  }
}
