// The difference record the comparison engine emits and the summary API
// counts: a category, one of four priority tiers, and a payload that says
// what was compared.

module ComparisonDifference {
  import opened Wrappers

  /** The four priority tiers, most important first. */
  datatype Priority = Critical | High | Medium | Low
  {
    /** The tier's value as the API reports it. */
    function Value(): string {
      match this
      case Critical => "critical"
      case High => "high"
      case Medium => "medium"
      case Low => "low"
    }

    /** 0 for the most important tier, 3 for the least. */
    function Rank(): nat {
      match this
      case Critical => 0
      case High => 1
      case Medium => 2
      case Low => 3
    }
  }

  /** The categories the advanced passes emit; the base engine's own
      categories are carried by name. */
  datatype Category =
    | PassiveKeystone
    | PassiveNotable
    | EquipmentCore
    | EquipmentMods
    | GemMissing
    | SkillLinks
    | BaseCategory(name: string)

  /** A value shown as "current" or "target". */
  datatype DiffValue = NoValue | IntValue(i: int) | RealValue(r: real) | TextValue(s: string) | TextListValue(items: seq<string>)

  /** What a difference is about; messages and instructions are display text
      and are not modelled. */
  datatype Detail =
    | BaseEngineDetail(tag: string)
    | PathSuggestion(targetNodeId: int, targetNodeName: string, cost: int, path: seq<int>, efficiency: real, detourCount: nat)
    | EquipmentBase(slot: string, kind: string, current: DiffValue, target: DiffValue)
    | MissingMods(slot: string, missingCount: nat, missing: set<string>)
    | MultiplierGap(gapPercentage: real, playerMultiplier: real, targetMultiplier: real)
    | AwakenedUpgrade(baseGem: string, upgradeTo: string)
    | LinkShortfall(currentLinks: int, targetLinks: int, difficulty: string, fusings: nat, jewellers: nat)

  datatype Difference = Difference(category: Category, priority: Priority, detail: Detail)
}
