/** The equipment and gem analysers of the comparison back end: the item
    base comparison and its compatibility score, the modifier keyword and
    tier gaps, the active and support gem comparisons, the support
    multiplier formula, the gem optimisation score and the link evaluator.
    Item, modifier and gem records arrive as dictionaries; the model takes
    the keys the comparison engine always writes as plain fields. Messages
    are display text and are carried as tags. */
module EquipmentGemAnalyzer {
  import opened Wrappers
  import opened Text
  import opened ComparisonDifference
  import Seqs
  import Folds

  function MinReal(a: real, b: real): real {
    if a <= b then a else b
  }

  function MaxReal(a: real, b: real): real {
    if a >= b then a else b
  }

  // ===== Item bases =====

  /** The keys of an item record the base comparison reads. */
  datatype ItemFields = ItemFields(itemLevel: int, baseType: string, quality: int)

  datatype BaseDiffKind = ItemLevelGap | BaseTypeMismatch | QualityShortfall
  {
    /** The `type` the record reports. */
    function Name(): string {
      match this
      case ItemLevelGap => "item_level"
      case BaseTypeMismatch => "base_type"
      case QualityShortfall => "quality"
    }

    /** The order in which the comparison checks the three fields. */
    function Order(): nat {
      match this
      case ItemLevelGap => 0
      case BaseTypeMismatch => 1
      case QualityShortfall => 2
    }
  }

  datatype BaseDiff = BaseDiff(kind: BaseDiffKind, severity: string, current: DiffValue, target: DiffValue)

  datatype BaseComparison = BaseComparison(hasDifferences: bool, differences: seq<BaseDiff>, compatibilityScore: real)

  /** `d` is what the comparison reports when the check of its kind fires. */
  predicate ReportsBaseDiff(player: ItemFields, target: ItemFields, d: BaseDiff) {
    match d.kind
    case ItemLevelGap =>
      player.itemLevel < target.itemLevel
      && d.severity == (if target.itemLevel >= 86 then "high" else "medium")
      && d.current == IntValue(player.itemLevel) && d.target == IntValue(target.itemLevel)
    case BaseTypeMismatch =>
      player.baseType != target.baseType && d.severity == "critical"
      && d.current == TextValue(player.baseType) && d.target == TextValue(target.baseType)
    case QualityShortfall =>
      player.quality < target.quality && d.severity == "low"
      && d.current == IntValue(player.quality) && d.target == IntValue(target.quality)
  }

  predicate HasBaseKind(ds: seq<BaseDiff>, k: BaseDiffKind) {
    exists i :: 0 <= i < |ds| && ds[i].kind == k
  }

  /** The record for an item-level shortfall, high from item level 86 on. */
  function ItemLevelDiffs(player: ItemFields, target: ItemFields): seq<BaseDiff> {
    if player.itemLevel < target.itemLevel
    then [BaseDiff(ItemLevelGap, if target.itemLevel >= 86 then "high" else "medium",
                   IntValue(player.itemLevel), IntValue(target.itemLevel))]
    else []
  }

  /** The record for a different base type. */
  function BaseTypeDiffs(player: ItemFields, target: ItemFields): seq<BaseDiff> {
    if player.baseType != target.baseType
    then [BaseDiff(BaseTypeMismatch, "critical", TextValue(player.baseType), TextValue(target.baseType))]
    else []
  }

  /** The record for a quality shortfall. */
  function ItemQualityDiffs(player: ItemFields, target: ItemFields): seq<BaseDiff> {
    if player.quality < target.quality
    then [BaseDiff(QualityShortfall, "low", IntValue(player.quality), IntValue(target.quality))]
    else []
  }

  /** The records of the three field checks, in the order they are made. */
  function BaseDiffs(player: ItemFields, target: ItemFields): seq<BaseDiff> {
    ItemLevelDiffs(player, target) + BaseTypeDiffs(player, target) + ItemQualityDiffs(player, target)
  }

  lemma BaseDiffsPositions(player: ItemFields, target: ItemFields)
    ensures var ds := BaseDiffs(player, target);
      var n1 := |ItemLevelDiffs(player, target)|;
      var n2 := n1 + |BaseTypeDiffs(player, target)|;
      forall i :: 0 <= i < |ds| ==>
        ds[i].kind.Order() == (if i < n1 then 0 else if i < n2 then 1 else 2)
        && ReportsBaseDiff(player, target, ds[i])
  {
  }

  /** Each kind of record appears exactly when its field falls short,
      every record carries the values its kind describes, and the kinds
      come in checking order. */
  lemma BaseDiffsFacts(player: ItemFields, target: ItemFields)
    ensures var ds := BaseDiffs(player, target);
      && (HasBaseKind(ds, ItemLevelGap) <==> player.itemLevel < target.itemLevel)
      && (HasBaseKind(ds, BaseTypeMismatch) <==> player.baseType != target.baseType)
      && (HasBaseKind(ds, QualityShortfall) <==> player.quality < target.quality)
      && (forall i :: 0 <= i < |ds| ==> ReportsBaseDiff(player, target, ds[i]))
      && (forall i, j :: 0 <= i < j < |ds| ==> ds[i].kind.Order() < ds[j].kind.Order())
      && (|ds| > 0 <==> player.itemLevel < target.itemLevel || player.baseType != target.baseType || player.quality < target.quality)
  {
    var ds := BaseDiffs(player, target);
    var n1 := |ItemLevelDiffs(player, target)|;
    var n2 := n1 + |BaseTypeDiffs(player, target)|;
    BaseDiffsPositions(player, target);
    if player.itemLevel < target.itemLevel {
      assert ds[0].kind == ItemLevelGap;
    }
    if player.baseType != target.baseType {
      assert ds[n1].kind == BaseTypeMismatch;
    }
    if player.quality < target.quality {
      assert ds[n2].kind == QualityShortfall;
    }
  }

  /** The three field checks, in order: an item-level shortfall (high from
      item level 86 on), a different base type (critical) and a quality
      shortfall (low); then the compatibility score. */
  method CompareEquipmentBase(player: ItemFields, target: ItemFields) returns (r: BaseComparison)
    ensures r.differences == BaseDiffs(player, target)
    ensures r.hasDifferences <==> |r.differences| > 0
    ensures r.compatibilityScore == CompatibilityFormula(player, target)
  {
    var differences: seq<BaseDiff> := [];
    if player.itemLevel < target.itemLevel {
      differences := differences + [BaseDiff(ItemLevelGap, if target.itemLevel >= 86 then "high" else "medium",
                                             IntValue(player.itemLevel), IntValue(target.itemLevel))];
    }
    assert differences == ItemLevelDiffs(player, target);
    if player.baseType != target.baseType {
      differences := differences + [BaseDiff(BaseTypeMismatch, "critical", TextValue(player.baseType), TextValue(target.baseType))];
    }
    assert differences == ItemLevelDiffs(player, target) + BaseTypeDiffs(player, target);
    if player.quality < target.quality {
      differences := differences + [BaseDiff(QualityShortfall, "low", IntValue(player.quality), IntValue(target.quality))];
    }
    var score := BaseCompatibility(player, target);
    r := BaseComparison(|differences| > 0, differences, score);
  }

  /** A shortfall of `gap` costs `rate` points per unit, at most `cap`;
      no shortfall costs nothing. */
  function GapPenalty(gap: int, rate: real, cap: real): real {
    if gap > 0 then MinReal(gap as real * rate, cap) else 0.0
  }

  /** The compatibility score in closed form: 100, less 50 for a different
      base type, less the capped item-level and quality penalties. */
  function CompatibilityFormula(player: ItemFields, target: ItemFields): real {
    100.0
    - (if player.baseType != target.baseType then 50.0 else 0.0)
    - GapPenalty(target.itemLevel - player.itemLevel, 2.0, 30.0)
    - GapPenalty(target.quality - player.quality, 0.5, 10.0)
  }

  /** The score is deducted step by step; the final clamp at 0 never
      fires, since the deductions add up to at most 90. */
  method BaseCompatibility(player: ItemFields, target: ItemFields) returns (score: real)
    ensures score == CompatibilityFormula(player, target)
    ensures 10.0 <= score <= 100.0
  {
    score := 100.0;
    if player.baseType != target.baseType {
      score := score - 50.0;
    }
    var ilvlDiff := target.itemLevel - player.itemLevel;
    if ilvlDiff > 0 {
      score := score - MinReal((ilvlDiff * 2) as real, 30.0);
    }
    var qualityDiff := target.quality - player.quality;
    if qualityDiff > 0 {
      score := score - MinReal(qualityDiff as real * 0.5, 10.0);
    }
    score := MaxReal(score, 0.0);
  }

  /** A different base type always outweighs the level and quality gaps:
      the score is at most 50 exactly when the base types differ, and it is
      100 exactly when nothing falls short. */
  lemma CompatibilityBands(player: ItemFields, target: ItemFields)
    ensures CompatibilityFormula(player, target) <= 50.0 <==> player.baseType != target.baseType
    ensures CompatibilityFormula(player, target) == 100.0 <==>
      player.baseType == target.baseType && player.itemLevel >= target.itemLevel && player.quality >= target.quality
  {
    var lp := GapPenalty(target.itemLevel - player.itemLevel, 2.0, 30.0);
    var qp := GapPenalty(target.quality - player.quality, 0.5, 10.0);
    assert 0.0 <= lp <= 30.0 && 0.0 <= qp <= 10.0;
    assert lp == 0.0 <==> player.itemLevel >= target.itemLevel;
    assert qp == 0.0 <==> player.quality >= target.quality;
  }

  // ===== Modifier keywords =====

  /** A modifier record: its text and its tier, when the record has one. */
  datatype Mod = Mod(text: string, tier: Option<int>)

  /** The keywords the gap analysis looks for, in its order. */
  const ImportantKeywords: seq<string> := [
    "Life", "Energy Shield", "Mana",
    "Resistance", "Elemental Resistance",
    "Chaos Resistance",
    "Increased Damage", "Added Physical Damage",
    "Added Cold Damage", "Added Fire Damage", "Added Lightning Damage",
    "Critical Strike", "Attack Speed", "Cast Speed",
    "+# to Level of"
  ]

  /** Some modifier's text contains `k`, ignoring case. */
  predicate MentionedBy(mods: seq<Mod>, k: string) {
    exists i :: 0 <= i < |mods| && Contains(Lower(mods[i].text), Lower(k))
  }

  lemma MentionedStep(mods: seq<Mod>, i: nat, k: string)
    requires i < |mods|
    ensures MentionedBy(mods[..i + 1], k) <==> MentionedBy(mods[..i], k) || Contains(Lower(mods[i].text), Lower(k))
  {
    Seqs.PrefixStep(mods, i);
    if MentionedBy(mods[..i + 1], k) && !Contains(Lower(mods[i].text), Lower(k)) {
      var j :| 0 <= j < i + 1 && Contains(Lower(mods[..i + 1][j].text), Lower(k));
      assert j < i && mods[..i][j] == mods[..i + 1][j];
    }
    if MentionedBy(mods[..i], k) {
      var j :| 0 <= j < i && Contains(Lower(mods[..i][j].text), Lower(k));
      assert mods[..i + 1][j] == mods[..i][j];
    }
    if Contains(Lower(mods[i].text), Lower(k)) {
      assert mods[..i + 1][i] == mods[i];
    }
  }

  /** `found` plus the words of `words` that occur in `text` once both are
      lower-cased (`text` is already). */
  method AddMentioned(found: set<string>, text: string, words: seq<string>) returns (r: set<string>)
    ensures forall k :: k in r <==> k in found || (k in words && Contains(text, Lower(k)))
  {
    r := found;
    for j := 0 to |words|
      invariant forall k :: k in r <==> k in found || (k in words[..j] && Contains(text, Lower(k)))
    {
      if Contains(text, Lower(words[j])) {
        r := r + {words[j]};
      }
      assert words[..j + 1] == words[..j] + [words[j]];
    }
    assert words[..|words|] == words;
  }

  /** The important keywords that appear, ignoring case, in some modifier. */
  method ExtractModKeywords(mods: seq<Mod>) returns (keywords: set<string>)
    ensures forall k :: k in keywords <==> k in ImportantKeywords && MentionedBy(mods, k)
  {
    keywords := {};
    for i := 0 to |mods|
      invariant forall k :: k in keywords <==> k in ImportantKeywords && MentionedBy(mods[..i], k)
    {
      var text := Lower(mods[i].text);
      keywords := AddMentioned(keywords, text, ImportantKeywords);
      forall k
        ensures MentionedBy(mods[..i + 1], k) <==> MentionedBy(mods[..i], k) || Contains(text, Lower(k))
      {
        MentionedStep(mods, i, k);
      }
    }
    assert mods[..|mods|] == mods;
  }

  // ===== Similarity of modifiers =====

  /** A character `\w` matches, restricted to ASCII. */
  predicate IsWordChar(c: char) {
    'a' <= c <= 'z' || 'A' <= c <= 'Z' || '0' <= c <= '9' || c == '_'
  }

  /** An upper-case letter followed by one or more lower-case letters. */
  predicate IsCapitalised(w: string) {
    |w| >= 2 && 'A' <= w[0] <= 'Z' && forall i :: 1 <= i < |w| ==> 'a' <= w[i] <= 'z'
  }

  /** The maximal runs of word characters of `run + s`, where `run` is the
      run under way. */
  function WordRuns(s: string, run: string): (r: seq<string>)
    requires forall i :: 0 <= i < |run| ==> IsWordChar(run[i])
    ensures forall k :: 0 <= k < |r| ==> |r[k]| > 0 && forall i :: 0 <= i < |r[k]| ==> IsWordChar(r[k][i])
    decreases |s|
  {
    if |s| == 0 then (if run == [] then [] else [run])
    else if IsWordChar(s[0]) then WordRuns(s[1..], run + [s[0]])
    else (if run == [] then [] else [run]) + WordRuns(s[1..], [])
  }

  /** The set the pattern `\b[A-Z][a-z]+\b` finds: the word runs that are
      capitalised words. */
  function CapitalisedWords(s: string): set<string> {
    set w | w in WordRuns(s, []) && IsCapitalised(w)
  }

  lemma {:induction false} RunOfWordChars(w: string, i: nat)
    requires i <= |w| && forall k :: 0 <= k < |w| ==> IsWordChar(w[k])
    ensures WordRuns(w[i..], w[..i]) == if w == [] then [] else [w]
    decreases |w| - i
  {
    if i < |w| {
      assert w[i..][1..] == w[i + 1..] && w[..i] + [w[i..][0]] == w[..i + 1];
      RunOfWordChars(w, i + 1);
    } else {
      assert w[..i] == w;
    }
  }

  /** A lone capitalised word is the one word found in it. */
  lemma CapitalisedWordsOfWord(w: string)
    requires IsCapitalised(w)
    ensures CapitalisedWords(w) == {w}
  {
    RunOfWordChars(w, 0);
    assert w[0..] == w && w[..0] == [];
  }

  /** Two word sets are similar when both are non-empty and at least half
      of all their words are shared. */
  predicate SimilarWords(wa: set<string>, wb: set<string>) {
    wa != {} && wb != {} && (|wa * wb| as real) / (|wa + wb| as real) >= 0.5
  }

  /** Two modifiers are similar when their capitalised words are. */
  predicate Similar(a: string, b: string) {
    SimilarWords(CapitalisedWords(a), CapitalisedWords(b))
  }

  lemma SimilarWordsIff(wa: set<string>, wb: set<string>)
    ensures SimilarWords(wa, wb) <==> wa != {} && wb != {} && 2 * |wa * wb| >= |wa + wb|
  {
    if wa != {} && wb != {} {
      assert wa <= wa + wb;
      var total := |wa + wb| as real;
      var overlap := |wa * wb| as real;
      assert total > 0.0;
      assert overlap / total * total == overlap;
    }
  }

  /** The ratio test in whole numbers, and the symmetry of similarity. */
  lemma SimilarIff(a: string, b: string)
    ensures Similar(a, b) <==>
      var wa := CapitalisedWords(a); var wb := CapitalisedWords(b);
      wa != {} && wb != {} && 2 * |wa * wb| >= |wa + wb|
    ensures Similar(a, b) == Similar(b, a)
    ensures CapitalisedWords(a) != {} ==> Similar(a, a)
  {
    var wa := CapitalisedWords(a);
    var wb := CapitalisedWords(b);
    SimilarWordsIff(wa, wb);
    SimilarWordsIff(wb, wa);
    SimilarWordsIff(wa, wa);
    assert wa * wb == wb * wa && wa + wb == wb + wa;
    assert wa * wa == wa && wa + wa == wa;
  }

  // ===== Modifier categories =====

  /** The categories in the order they are tried, each with the words that
      select it (a case-sensitive substring test). */
  const ModCategories: seq<(string, seq<string>)> := [
    ("life", ["Life"]),
    ("resistance", ["Resistance"]),
    ("damage", ["Damage", "Added"]),
    ("critical", ["Critical"]),
    ("speed", ["Speed"])
  ]

  predicate MentionsAny(text: string, words: seq<string>) {
    exists k :: k in words && Contains(text, k)
  }

  /** The index of the first category whose words occur in `text`, or the
      number of categories when none does. */
  function FirstCategory(cats: seq<(string, seq<string>)>, text: string): (r: nat)
    ensures r <= |cats|
    ensures r < |cats| ==> MentionsAny(text, cats[r].1)
    ensures forall j :: 0 <= j < r ==> !MentionsAny(text, cats[j].1)
  {
    if |cats| == 0 then 0
    else if MentionsAny(text, cats[0].1) then 0
    else 1 + FirstCategory(cats[1..], text)
  }

  /** The category of a modifier, "other" when no category matches. */
  function ModCategory(text: string): (r: string)
    ensures r == "other" <==> forall j :: 0 <= j < |ModCategories| ==> !MentionsAny(text, ModCategories[j].1)
  {
    var i := FirstCategory(ModCategories, text);
    if i < |ModCategories| then ModCategories[i].0 else "other"
  }

  // ===== Tier gaps =====

  /** The tier of a modifier without one. */
  const UnknownTier: int := 99

  function TierOf(m: Mod): int {
    match m.tier
    case Some(t) => t
    case None => UnknownTier
  }

  /** One tier gap: lower tier numbers are better tiers. */
  datatype TierDiff = TierDiff(modType: string, playerTier: int, targetTier: int, playerText: string)

  /** `d` reports that player modifier `p` is similar to target modifier
      `t` but of a worse tier. */
  predicate TierGap(p: Mod, t: Mod, d: TierDiff) {
    Similar(p.text, t.text) && TierOf(p) > TierOf(t)
    && d == TierDiff(ModCategory(t.text), TierOf(p), TierOf(t), p.text)
  }

  /** The gap one (player, target) pair yields, if any. */
  function TierGapOf(p: Mod, t: Mod): seq<TierDiff> {
    if Similar(p.text, t.text) && TierOf(p) > TierOf(t)
    then [TierDiff(ModCategory(t.text), TierOf(p), TierOf(t), p.text)]
    else []
  }

  /** All gaps: target modifier by target modifier, each against the player
      modifiers in order. */
  function TierDiffs(player: seq<Mod>, target: seq<Mod>): seq<TierDiff> {
    Folds.PairResults(player, target, TierGapOf)
  }

  method CompareModTiers(player: seq<Mod>, target: seq<Mod>) returns (diffs: seq<TierDiff>)
    ensures diffs == TierDiffs(player, target)
  {
    diffs := [];
    for i := 0 to |target|
      invariant diffs == Folds.PairResults(player, target[..i], TierGapOf)
    {
      Folds.PairStep(player, target, i, TierGapOf);
      var t := target[i];
      ghost var before := diffs;
      for j := 0 to |player|
        invariant diffs == before + Folds.InnerResults(player[..j], t, TierGapOf)
      {
        Folds.InnerStep(player, j, t, TierGapOf);
        diffs := diffs + TierGapOf(player[j], t);
      }
      assert player[..|player|] == player;
    }
    assert target[..|target|] == target;
  }

  /** A gap is reported exactly for each similar (player, target) pair in
      which the player's tier number is the larger. */
  lemma TierDiffsMembers(player: seq<Mod>, target: seq<Mod>, d: TierDiff)
    ensures d in TierDiffs(player, target) <==>
      exists i, j :: 0 <= i < |target| && 0 <= j < |player| && TierGap(player[j], target[i], d)
  {
    Folds.PairMembers(player, target, TierGapOf, d);
    forall i, j | 0 <= i < |target| && 0 <= j < |player|
      ensures d in TierGapOf(player[j], target[i]) <==> TierGap(player[j], target[i], d)
    {
    }
  }

  /** Modifiers without tiers on both sides show no tier gap at all. */
  lemma UntieredModsHaveNoTierGaps(player: seq<Mod>, target: seq<Mod>)
    requires forall j :: 0 <= j < |player| ==> player[j].tier.None?
    requires forall i :: 0 <= i < |target| ==> target[i].tier.None?
    ensures TierDiffs(player, target) == []
  {
    var r := TierDiffs(player, target);
    if r != [] {
      TierDiffsMembers(player, target, r[0]);
      assert false;
    }
  }

  // ===== Modifier gap =====

  /** The advice lines: the missing keywords to add, the number of tiers
      to raise. */
  datatype ModRecommendation = AddMods(keywords: set<string>) | RaiseTiers(count: nat)

  datatype ModGap = ModGap(
    missingMods: set<string>,
    missingCount: nat,
    conflictingMods: set<string>,
    tierDifferences: seq<TierDiff>,
    recommendations: seq<ModRecommendation>)

  method GenerateModRecommendations(missing: set<string>, tierDiffs: seq<TierDiff>) returns (r: seq<ModRecommendation>)
    ensures AddMods(missing) in r <==> missing != {}
    ensures RaiseTiers(|tierDiffs|) in r <==> tierDiffs != []
    ensures forall k :: 0 <= k < |r| ==> r[k] == AddMods(missing) || r[k] == RaiseTiers(|tierDiffs|)
    ensures |r| <= 2 && (|r| == 2 ==> r[0].AddMods?)
  {
    r := [];
    if missing != {} {
      r := r + [AddMods(missing)];
    }
    if tierDiffs != [] {
      r := r + [RaiseTiers(|tierDiffs|)];
    }
  }

  /** The keyword gap between two modifier lists: the target's keywords the
      player lacks, the player's keywords the target lacks (the two are
      disjoint), the tier gaps and the advice. */
  method AnalyzeModGap(player: seq<Mod>, target: seq<Mod>) returns (r: ModGap)
    ensures forall k :: k in r.missingMods <==> k in ImportantKeywords && MentionedBy(target, k) && !MentionedBy(player, k)
    ensures forall k :: k in r.conflictingMods <==> k in ImportantKeywords && MentionedBy(player, k) && !MentionedBy(target, k)
    ensures r.missingMods !! r.conflictingMods
    ensures r.missingCount == |r.missingMods|
    ensures r.tierDifferences == TierDiffs(player, target)
    ensures AddMods(r.missingMods) in r.recommendations <==> r.missingMods != {}
    ensures RaiseTiers(|r.tierDifferences|) in r.recommendations <==> r.tierDifferences != []
    ensures forall k :: 0 <= k < |r.recommendations| ==>
      r.recommendations[k] == AddMods(r.missingMods) || r.recommendations[k] == RaiseTiers(|r.tierDifferences|)
  {
    var playerKeywords := ExtractModKeywords(player);
    var targetKeywords := ExtractModKeywords(target);
    var missing := targetKeywords - playerKeywords;
    var extra := playerKeywords - targetKeywords;
    var tierDiffs := CompareModTiers(player, target);
    var recommendations := GenerateModRecommendations(missing, tierDiffs);
    r := ModGap(missing, |missing|, extra, tierDiffs, recommendations);
  }

  // ===== Gems =====

  /** The keys of a gem record the analysers read. */
  datatype Gem = Gem(
    name: string,
    level: int,
    quality: int,
    isSupport: bool,
    isAwakened: bool,
    enabled: bool,
    qualityType: string)

  /** The active (non-support) gems, in order. */
  function Actives(gems: seq<Gem>): (r: seq<Gem>)
    ensures forall g :: g in r <==> g in gems && !g.isSupport
  {
    if |gems| == 0 then []
    else
      var last := gems[|gems| - 1];
      Actives(gems[..|gems| - 1]) + (if last.isSupport then [] else [last])
  }

  /** The support gems, in order. */
  function Supports(gems: seq<Gem>): (r: seq<Gem>)
    ensures forall g :: g in r <==> g in gems && g.isSupport
  {
    if |gems| == 0 then []
    else
      var last := gems[|gems| - 1];
      Supports(gems[..|gems| - 1]) + (if last.isSupport then [last] else [])
  }

  function NamesOf(gems: seq<Gem>): set<string> {
    set g | g in gems :: g.name
  }

  // ----- Active gems -----

  datatype GemDiffKind = DifferentSkill | LevelGap | QualityGap | QualityTypeMismatch
  {
    /** The `type` the record reports. */
    function Name(): string {
      match this
      case DifferentSkill => "different_skill"
      case LevelGap => "level_gap"
      case QualityGap => "quality_gap"
      case QualityTypeMismatch => "quality_type"
    }

    function Order(): nat {
      match this
      case DifferentSkill => 0
      case LevelGap => 1
      case QualityGap => 2
      case QualityTypeMismatch => 3
    }
  }

  datatype GemDiff = GemDiff(kind: GemDiffKind, severity: string, gap: Option<int>, current: DiffValue, target: DiffValue)

  datatype ActiveComparison = MissingData | ActiveCompared(hasDifferences: bool, differences: seq<GemDiff>)

  /** `d` is what the comparison of the first active gems `p` and `t`
      reports when the check of its kind fires. */
  predicate ReportsGemDiff(p: Gem, t: Gem, d: GemDiff) {
    match d.kind
    case DifferentSkill =>
      p.name != t.name && d.severity == "critical" && d.gap == None
      && d.current == TextValue(p.name) && d.target == TextValue(t.name)
    case LevelGap =>
      t.level - p.level > 0 && d.severity == (if t.level - p.level >= 3 then "high" else "medium")
      && d.gap == Some(t.level - p.level) && d.current == IntValue(p.level) && d.target == IntValue(t.level)
    case QualityGap =>
      t.quality - p.quality > 0 && d.severity == "medium"
      && d.gap == Some(t.quality - p.quality) && d.current == IntValue(p.quality) && d.target == IntValue(t.quality)
    case QualityTypeMismatch =>
      p.qualityType != t.qualityType && d.severity == "low" && d.gap == None
      && d.current == TextValue(p.qualityType) && d.target == TextValue(t.qualityType)
  }

  predicate HasGemKind(ds: seq<GemDiff>, k: GemDiffKind) {
    exists i :: 0 <= i < |ds| && ds[i].kind == k
  }

  /** The record for a different skill, if the names differ. */
  function SkillDiffs(p: Gem, t: Gem): seq<GemDiff> {
    if p.name != t.name then [GemDiff(DifferentSkill, "critical", None, TextValue(p.name), TextValue(t.name))] else []
  }

  /** The record for a level gap, high from three levels on. */
  function LevelDiffs(p: Gem, t: Gem): seq<GemDiff> {
    var gap := t.level - p.level;
    if gap > 0 then [GemDiff(LevelGap, if gap >= 3 then "high" else "medium", Some(gap), IntValue(p.level), IntValue(t.level))]
    else []
  }

  /** The record for a quality gap. */
  function QualityDiffs(p: Gem, t: Gem): seq<GemDiff> {
    var gap := t.quality - p.quality;
    if gap > 0 then [GemDiff(QualityGap, "medium", Some(gap), IntValue(p.quality), IntValue(t.quality))] else []
  }

  /** The record for a different quality variant. */
  function QualityTypeDiffs(p: Gem, t: Gem): seq<GemDiff> {
    if p.qualityType != t.qualityType
    then [GemDiff(QualityTypeMismatch, "low", None, TextValue(p.qualityType), TextValue(t.qualityType))]
    else []
  }

  /** The records comparing two active gems, in the order they are checked. */
  function ActiveDiffs(p: Gem, t: Gem): seq<GemDiff> {
    SkillDiffs(p, t) + LevelDiffs(p, t) + QualityDiffs(p, t) + QualityTypeDiffs(p, t)
  }

  /** The record at each position: its kind follows from which part of
      the sequence it falls in. */
  lemma ActiveDiffsPositions(p: Gem, t: Gem)
    ensures var ds := ActiveDiffs(p, t);
      var n1 := |SkillDiffs(p, t)|;
      var n2 := n1 + |LevelDiffs(p, t)|;
      var n3 := n2 + |QualityDiffs(p, t)|;
      forall i :: 0 <= i < |ds| ==>
        ds[i].kind.Order() == (if i < n1 then 0 else if i < n2 then 1 else if i < n3 then 2 else 3)
        && ReportsGemDiff(p, t, ds[i])
  {
  }

  /** Each kind of record appears exactly when its check fires, every
      record carries the values its kind describes, and the kinds come in
      checking order (so none appears twice). */
  lemma ActiveDiffsFacts(p: Gem, t: Gem)
    ensures var ds := ActiveDiffs(p, t);
      && (HasGemKind(ds, DifferentSkill) <==> p.name != t.name)
      && (HasGemKind(ds, LevelGap) <==> t.level > p.level)
      && (HasGemKind(ds, QualityGap) <==> t.quality > p.quality)
      && (HasGemKind(ds, QualityTypeMismatch) <==> p.qualityType != t.qualityType)
      && (forall i :: 0 <= i < |ds| ==> ReportsGemDiff(p, t, ds[i]))
      && (forall i, j :: 0 <= i < j < |ds| ==> ds[i].kind.Order() < ds[j].kind.Order())
  {
    var ds := ActiveDiffs(p, t);
    var n1 := |SkillDiffs(p, t)|;
    var n2 := n1 + |LevelDiffs(p, t)|;
    var n3 := n2 + |QualityDiffs(p, t)|;
    ActiveDiffsPositions(p, t);
    if p.name != t.name {
      assert ds[0].kind == DifferentSkill;
    }
    if t.level > p.level {
      assert ds[n1].kind == LevelGap;
    }
    if t.quality > p.quality {
      assert ds[n2].kind == QualityGap;
    }
    if p.qualityType != t.qualityType {
      assert ds[n3].kind == QualityTypeMismatch;
    }
  }

  /** Compares the first active gem of each side: a different skill
      (critical), a level gap (high from 3 levels on, else medium), a
      quality gap (medium) and a different quality variant (low). Without
      an active gem on either side there is nothing to compare. */
  method CompareActiveGems(playerActive: seq<Gem>, targetActive: seq<Gem>) returns (r: ActiveComparison)
    ensures r.MissingData? <==> |playerActive| == 0 || |targetActive| == 0
    ensures r.ActiveCompared? ==>
      && r.differences == ActiveDiffs(playerActive[0], targetActive[0])
      && (r.hasDifferences <==> |r.differences| > 0)
  {
    if |playerActive| == 0 || |targetActive| == 0 {
      return MissingData;
    }
    var p := playerActive[0];
    var t := targetActive[0];
    var differences: seq<GemDiff> := [];
    if p.name != t.name {
      differences := differences + [GemDiff(DifferentSkill, "critical", None, TextValue(p.name), TextValue(t.name))];
    }
    assert differences == SkillDiffs(p, t);
    var levelGap := t.level - p.level;
    if levelGap > 0 {
      differences := differences + [GemDiff(LevelGap, if levelGap >= 3 then "high" else "medium", Some(levelGap),
                                            IntValue(p.level), IntValue(t.level))];
    }
    assert differences == SkillDiffs(p, t) + LevelDiffs(p, t);
    var qualityGap := t.quality - p.quality;
    if qualityGap > 0 {
      differences := differences + [GemDiff(QualityGap, "medium", Some(qualityGap), IntValue(p.quality), IntValue(t.quality))];
    }
    assert differences == SkillDiffs(p, t) + LevelDiffs(p, t) + QualityDiffs(p, t);
    if p.qualityType != t.qualityType {
      differences := differences + [GemDiff(QualityTypeMismatch, "low", None, TextValue(p.qualityType), TextValue(t.qualityType))];
    }
    r := ActiveCompared(|differences| > 0, differences);
  }

  // ----- Support gems -----

  /** An awakened replacement for a gem the player has. */
  datatype Upgrade = Upgrade(current: string, upgradeTo: string)

  /** The gain every upgrade announces. */
  const AwakenedGain: real := 0.05

  /** The name of an awakened gem with every "Awakened " removed. */
  function BaseName(name: string): string {
    ReplaceAll(name, "Awakened ", "")
  }

  lemma {:induction false} ReplaceAllAbsent(s: string, pat: string, rep: string)
    requires pat != [] && !Contains(s, pat)
    ensures ReplaceAll(s, pat, rep) == s
    decreases |s|
  {
    if |s| >= |pat| {
      assert !(pat <= s);
      ReplaceAllAbsent(s[1..], pat, rep);
      assert [s[0]] + s[1..] == s;
    }
  }

  /** Prefixing a name with "Awakened " and stripping it again gives the
      name back. */
  lemma BaseNameOfAwakened(n: string)
    requires !Contains(n, "Awakened ")
    ensures BaseName("Awakened " + n) == n
  {
    var s := "Awakened " + n;
    assert "Awakened " <= s;
    assert s[|"Awakened "|..] == n;
    ReplaceAllAbsent(n, "Awakened ", "");
  }

  function GemNames(gems: seq<Gem>): (r: seq<string>)
    ensures |r| == |gems| && forall i :: 0 <= i < |gems| ==> r[i] == gems[i].name
  {
    seq(|gems|, i requires 0 <= i < |gems| => gems[i].name)
  }

  /** The upgrades one awakened target gem offers: one for each player gem
      named like its base gem. */
  function UpgradesFor(player: seq<Gem>, t: Gem): (r: seq<Upgrade>)
    ensures |r| == multiset(GemNames(player))[BaseName(t.name)]
    ensures forall k :: 0 <= k < |r| ==> r[k] == Upgrade(BaseName(t.name), t.name)
  {
    if |player| == 0 then []
    else
      var init := player[..|player| - 1];
      var p := player[|player| - 1];
      assert GemNames(player) == GemNames(init) + [p.name];
      UpgradesFor(init, t) + (if p.name == BaseName(t.name) then [Upgrade(BaseName(t.name), t.name)] else [])
  }

  function AwakenedUpgrades(player: seq<Gem>, target: seq<Gem>): seq<Upgrade> {
    if |target| == 0 then []
    else
      var t := target[|target| - 1];
      AwakenedUpgrades(player, target[..|target| - 1]) + (if t.isAwakened then UpgradesFor(player, t) else [])
  }

  method IdentifyAwakenedUpgrades(player: seq<Gem>, target: seq<Gem>) returns (upgrades: seq<Upgrade>)
    ensures upgrades == AwakenedUpgrades(player, target)
  {
    upgrades := [];
    for i := 0 to |target|
      invariant upgrades == AwakenedUpgrades(player, target[..i])
    {
      Seqs.PrefixStep(target, i);
      var t := target[i];
      if !t.isAwakened {
        continue;
      }
      var baseName := ReplaceAll(t.name, "Awakened ", "");
      ghost var before := upgrades;
      for j := 0 to |player|
        invariant upgrades == before + UpgradesFor(player[..j], t)
      {
        Seqs.PrefixStep(player, j);
        if player[j].name == baseName {
          upgrades := upgrades + [Upgrade(baseName, t.name)];
        }
      }
      assert player[..|player|] == player;
    }
    assert target[..|target|] == target;
  }

  predicate UpgradePair(p: Gem, t: Gem, u: Upgrade) {
    t.isAwakened && p.name == BaseName(t.name) && u == Upgrade(BaseName(t.name), t.name)
  }

  lemma {:induction false} UpgradesForMembers(player: seq<Gem>, t: Gem, u: Upgrade)
    requires t.isAwakened
    ensures u in UpgradesFor(player, t) <==> exists j :: 0 <= j < |player| && UpgradePair(player[j], t, u)
  {
    var r := UpgradesFor(player, t);
    if u in r {
      var k :| 0 <= k < |r| && r[k] == u;
      assert BaseName(t.name) in multiset(GemNames(player));
      var j :| 0 <= j < |player| && GemNames(player)[j] == BaseName(t.name);
      assert UpgradePair(player[j], t, u);
    }
    if exists j :: 0 <= j < |player| && UpgradePair(player[j], t, u) {
      var j :| 0 <= j < |player| && UpgradePair(player[j], t, u);
      assert GemNames(player)[j] == BaseName(t.name);
      assert BaseName(t.name) in multiset(GemNames(player));
      assert r[0] == u;
    }
  }

  /** An upgrade is offered exactly for each pair of an awakened target
      gem and a player gem named like its base gem. */
  lemma {:induction false} AwakenedUpgradesMembers(player: seq<Gem>, target: seq<Gem>, u: Upgrade)
    ensures u in AwakenedUpgrades(player, target) <==>
      exists i, j :: 0 <= i < |target| && 0 <= j < |player| && UpgradePair(player[j], target[i], u)
  {
    if |target| > 0 {
      var init := target[..|target| - 1];
      var t := target[|target| - 1];
      AwakenedUpgradesMembers(player, init, u);
      if t.isAwakened {
        UpgradesForMembers(player, t, u);
      }
      if exists i, j :: 0 <= i < |init| && 0 <= j < |player| && UpgradePair(player[j], init[i], u) {
        var i, j :| 0 <= i < |init| && 0 <= j < |player| && UpgradePair(player[j], init[i], u);
        assert target[i] == init[i];
      }
      if exists i, j :: 0 <= i < |target| && 0 <= j < |player| && UpgradePair(player[j], target[i], u) {
        var i, j :| 0 <= i < |target| && 0 <= j < |player| && UpgradePair(player[j], target[i], u);
        if i < |init| {
          assert init[i] == target[i];
        }
      }
    }
  }

  datatype SupportComparison = SupportComparison(
    missingSupports: set<string>,
    extraSupports: set<string>,
    awakenedUpgrades: seq<Upgrade>,
    matchRate: real)

  lemma SubsetOfSameSize(a: set<string>, b: set<string>)
    requires a <= b && |a| == |b|
    ensures a == b
  {
    assert b == a + (b - a) && a !! (b - a);
    assert |b - a| == 0;
    assert b - a == {};
  }

  /** A share `k` of `n` as a percentage lies between 0 and 100 and is 100
      exactly when the share is whole. */
  lemma PercentageBounds(k: nat, n: nat)
    requires 0 < n && k <= n
    ensures 0.0 <= (k as real) / (n as real) * 100.0 <= 100.0
    ensures (k as real) / (n as real) * 100.0 == 100.0 <==> k == n
  {
    var rate := (k as real) / (n as real) * 100.0;
    assert rate * (n as real) == (k as real) * 100.0;
  }

  /** The share of the target's names the player has, as a percentage
      (100 when the target has none). */
  function MatchRate(playerNames: set<string>, targetNames: set<string>): real {
    if targetNames != {} then (|playerNames * targetNames| as real) / (|targetNames| as real) * 100.0 else 100.0
  }

  /** The match rate lies between 0 and 100, reaches 100 exactly when the
      player has every target name, and otherwise falls with each name
      the player lacks. */
  lemma MatchRateFacts(playerNames: set<string>, targetNames: set<string>)
    ensures 0.0 <= MatchRate(playerNames, targetNames) <= 100.0
    ensures MatchRate(playerNames, targetNames) == 100.0 <==> targetNames <= playerNames
    ensures targetNames != {} ==>
      MatchRate(playerNames, targetNames)
        == ((|targetNames| - |targetNames - playerNames|) as real) / (|targetNames| as real) * 100.0
  {
    if targetNames != {} {
      var shared := playerNames * targetNames;
      var missing := targetNames - playerNames;
      assert targetNames == shared + missing && shared !! missing;
      PercentageBounds(|shared|, |targetNames|);
      if |shared| == |targetNames| {
        SubsetOfSameSize(shared, targetNames);
      }
      if targetNames <= playerNames {
        assert shared == targetNames;
      }
    }
  }

  /** The support names the player lacks and has in excess, the awakened
      upgrades, and the share of the target's support names the player
      has, as a percentage (100 for a target without supports). */
  method CompareSupportGems(player: seq<Gem>, target: seq<Gem>) returns (r: SupportComparison)
    ensures forall n :: n in r.missingSupports <==> n in NamesOf(target) && n !in NamesOf(player)
    ensures forall n :: n in r.extraSupports <==> n in NamesOf(player) && n !in NamesOf(target)
    ensures r.awakenedUpgrades == AwakenedUpgrades(player, target)
    ensures r.matchRate == MatchRate(NamesOf(player), NamesOf(target))
  {
    var playerNames := NamesOf(player);
    var targetNames := NamesOf(target);
    var missing := targetNames - playerNames;
    var extra := playerNames - targetNames;
    var upgrades := IdentifyAwakenedUpgrades(player, target);
    var matchRate: real;
    if targetNames != {} {
      matchRate := (|playerNames * targetNames| as real) / (|targetNames| as real) * 100.0;
    } else {
      matchRate := 100.0;
    }
    r := SupportComparison(missing, extra, upgrades, matchRate);
  }

  // ----- The support multiplier -----

  /** The analyser's support tables: "more" supports multiply damage,
      "increased" supports add to one another. */
  datatype SupportTables = SupportTables(more: map<string, real>, increased: map<string, real>)

  const SupportMultipliers: SupportTables := SupportTables(
    map[
      "Awakened Added Cold Damage Support" := 1.49,
      "Added Cold Damage Support" := 1.44,
      "Elemental Damage with Attacks Support" := 1.54,
      "Awakened Elemental Damage with Attacks Support" := 1.59,
      "Vicious Projectiles Support" := 1.49,
      "Hypothermia Support" := 1.39,
      "Inspiration Support" := 1.39,
      "Trinity Support" := 1.49,
      "Multistrike Support" := 1.44,
      "Melee Physical Damage Support" := 1.49
    ],
    map[
      "Increased Critical Strikes Support" := 1.35,
      "Increased Critical Damage Support" := 1.38
    ])

  /** Every table entry is a gain: at least 1. */
  predicate ValidTables(tables: SupportTables) {
    && (forall n :: n in tables.more ==> tables.more[n] >= 1.0)
    && (forall n :: n in tables.increased ==> tables.increased[n] >= 1.0)
  }

  lemma SupportMultipliersValid()
    ensures ValidTables(SupportMultipliers)
  {
  }

  /** The factor a gem contributes to the "more" product (1 if none). */
  function MoreFactorOf(tables: SupportTables): Gem -> real {
    (g: Gem) => if g.enabled && g.name in tables.more then tables.more[g.name] else 1.0
  }

  /** The amount a gem adds to the "increased" sum (0 if none). */
  function IncreasedTermOf(tables: SupportTables): Gem -> real {
    (g: Gem) => if g.enabled && g.name in tables.increased then tables.increased[g.name] - 1.0 else 0.0
  }

  function MoreProduct(tables: SupportTables, gems: seq<Gem>): real {
    Folds.Product(gems, MoreFactorOf(tables))
  }

  function IncreasedSum(tables: SupportTables, gems: seq<Gem>): real {
    Folds.Sum(gems, IncreasedTermOf(tables))
  }

  /** The "more" product times one plus the "increased" sum. */
  function Combined(more: real, increased: real): real {
    more * (1.0 + increased)
  }

  function Multiplier(tables: SupportTables, gems: seq<Gem>): real {
    Combined(MoreProduct(tables, gems), IncreasedSum(tables, gems))
  }

  method TotalMultiplier(tables: SupportTables, gems: seq<Gem>) returns (total: real)
    ensures total == Multiplier(tables, gems)
  {
    var more := 1.0;
    var increased := 0.0;
    for i := 0 to |gems|
      invariant more == Folds.Product(gems[..i], MoreFactorOf(tables))
      invariant increased == Folds.Sum(gems[..i], IncreasedTermOf(tables))
    {
      Folds.ProductStep(gems, i, MoreFactorOf(tables));
      Folds.ProductStep(gems, i, IncreasedTermOf(tables));
      var gem := gems[i];
      if !gem.enabled {
        continue;
      }
      if gem.name in tables.more {
        more := more * tables.more[gem.name];
      }
      if gem.name in tables.increased {
        increased := increased + (tables.increased[gem.name] - 1.0);
      }
    }
    assert gems[..|gems|] == gems;
    total := Combined(more, increased);
  }

  lemma {:induction false} MultiplierParts(tables: SupportTables, gems: seq<Gem>)
    requires ValidTables(tables)
    ensures MoreProduct(tables, gems) >= 1.0 && IncreasedSum(tables, gems) >= 0.0
  {
    if |gems| > 0 {
      var n := |gems| - 1;
      MultiplierParts(tables, gems[..n]);
      Folds.ProductStep(gems, n, MoreFactorOf(tables));
      Folds.ProductStep(gems, n, IncreasedTermOf(tables));
      assert gems[..n + 1] == gems;
      var p := MoreProduct(tables, gems[..n]);
      var f := MoreFactorOf(tables)(gems[n]);
      assert f >= 1.0;
      assert p * f >= p * 1.0;
    }
  }

  /** No supports give a multiplier of exactly 1, and no list of supports
      gives less. */
  lemma MultiplierAtLeastOne(tables: SupportTables, gems: seq<Gem>)
    requires ValidTables(tables)
    ensures Multiplier(tables, []) == 1.0
    ensures Multiplier(tables, gems) >= 1.0
  {
    MultiplierParts(tables, gems);
    var m := MoreProduct(tables, gems);
    var s := 1.0 + IncreasedSum(tables, gems);
    assert m * s >= 1.0 * s;
  }

  /** The multiplier does not depend on the order of the gems. */
  lemma MultiplierOrderIndependent(tables: SupportTables, a: seq<Gem>, b: seq<Gem>)
    requires multiset(a) == multiset(b)
    ensures Multiplier(tables, a) == Multiplier(tables, b)
  {
    Folds.Reordered(a, b, MoreFactorOf(tables));
    Folds.Reordered(a, b, IncreasedTermOf(tables));
  }

  /** A gem counts when it is enabled and named in one of the tables. */
  function CountedBy(tables: SupportTables): Gem -> bool {
    (g: Gem) => g.enabled && (g.name in tables.more || g.name in tables.increased)
  }

  /** The gems that count, in order. */
  function Counted(tables: SupportTables, gems: seq<Gem>): seq<Gem> {
    Folds.Filter(gems, CountedBy(tables))
  }

  /** Disabled gems and gems in neither table are ignored. */
  lemma MultiplierIgnoresOthers(tables: SupportTables, gems: seq<Gem>)
    ensures Multiplier(tables, Counted(tables, gems)) == Multiplier(tables, gems)
    ensures forall g :: g in Counted(tables, gems) <==> g in gems && g.enabled && (g.name in tables.more || g.name in tables.increased)
  {
    var c := Counted(tables, gems);
    Folds.FilterProduct(gems, CountedBy(tables), MoreFactorOf(tables));
    Folds.FilterSum(gems, CountedBy(tables), IncreasedTermOf(tables));
    assert MoreProduct(tables, c) == MoreProduct(tables, gems);
    assert IncreasedSum(tables, c) == IncreasedSum(tables, gems);
    forall g | true
      ensures g in Counted(tables, gems) <==> g in gems && g.enabled && (g.name in tables.more || g.name in tables.increased)
    {
      Folds.FilterMembers(gems, CountedBy(tables), g);
    }
  }

  // ----- The whole gem comparison -----

  /** The multiplier gap as a percentage of the player's multiplier (0 for
      a player multiplier that is not positive). */
  function GapPercentage(player: real, target: real): real {
    if player > 0.0 then (target - player) / player * 100.0 else 0.0
  }

  /** For a multiplier of at least 1, the gap percentage is positive
      exactly when the target's multiplier is larger, and above a threshold
      `p` exactly when it exceeds the player's by more than `p` percent. */
  lemma GapPercentageMeaning(player: real, target: real, p: real)
    requires player >= 1.0
    ensures GapPercentage(player, target) > 0.0 <==> target > player
    ensures GapPercentage(player, target) > p <==> target > player * (1.0 + p / 100.0)
  {
    var g := GapPercentage(player, target);
    assert g * player == (target - player) * 100.0;
  }

  datatype MultiplierComparison = MultiplierComparison(player: real, target: real, gap: real, gapPercentage: real)

  datatype GemAnalysis = GemAnalysis(
    active: ActiveComparison,
    support: SupportComparison,
    multipliers: MultiplierComparison,
    optimizationScore: real)

  /** Splits both gem lists into actives and supports, compares each part,
      compares the support multipliers and scores the whole list. */
  method AnalyzeGemCombination(player: seq<Gem>, target: seq<Gem>) returns (r: GemAnalysis)
    ensures r.active.MissingData? <==> |Actives(player)| == 0 || |Actives(target)| == 0
    ensures r.active.ActiveCompared? ==>
      r.active.differences == ActiveDiffs(Actives(player)[0], Actives(target)[0])
      && (r.active.hasDifferences <==> |r.active.differences| > 0)
    ensures forall n :: n in r.support.missingSupports <==>
      n in NamesOf(Supports(target)) && n !in NamesOf(Supports(player))
    ensures forall n :: n in r.support.extraSupports <==>
      n in NamesOf(Supports(player)) && n !in NamesOf(Supports(target))
    ensures r.support.matchRate == MatchRate(NamesOf(Supports(player)), NamesOf(Supports(target)))
    ensures r.support.awakenedUpgrades == AwakenedUpgrades(Supports(player), Supports(target))
    ensures r.multipliers.player == Multiplier(SupportMultipliers, Supports(player))
    ensures r.multipliers.target == Multiplier(SupportMultipliers, Supports(target))
    ensures r.multipliers.gap == r.multipliers.target - r.multipliers.player
    ensures r.multipliers.gapPercentage == GapPercentage(r.multipliers.player, r.multipliers.target)
    ensures r.multipliers.gapPercentage > 0.0 <==> r.multipliers.target > r.multipliers.player
    ensures r.optimizationScore == ScoreFormula(player, target)
  {
    var playerActive := Actives(player);
    var playerSupports := Supports(player);
    var targetActive := Actives(target);
    var targetSupports := Supports(target);
    var active := CompareActiveGems(playerActive, targetActive);
    var support := CompareSupportGems(playerSupports, targetSupports);
    var playerMultiplier := TotalMultiplier(SupportMultipliers, playerSupports);
    var targetMultiplier := TotalMultiplier(SupportMultipliers, targetSupports);
    SupportMultipliersValid();
    MultiplierAtLeastOne(SupportMultipliers, playerSupports);
    GapPercentageMeaning(playerMultiplier, targetMultiplier, 0.0);
    var gapPercentage := GapPercentage(playerMultiplier, targetMultiplier);
    var score := OptimizationScore(player, target);
    r := GemAnalysis(active, support,
                     MultiplierComparison(playerMultiplier, targetMultiplier, targetMultiplier - playerMultiplier, gapPercentage),
                     score);
  }

  // ----- The optimisation score -----

  /** The first gem with the given name, if any. */
  function FirstNamed(gems: seq<Gem>, name: string): (r: Option<Gem>)
    ensures r.None? <==> name !in NamesOf(gems)
    ensures r.Some? ==> r.value in gems && r.value.name == name
  {
    if |gems| == 0 then None
    else if gems[0].name == name then Some(gems[0])
    else
      var rest := FirstNamed(gems[1..], name);
      assert NamesOf(gems) == {gems[0].name} + NamesOf(gems[1..]);
      rest
  }

  /** The deduction for one target gem against its first same-named player
      gem: 2 per missing level and 0.5 per missing quality point. */
  function GemPenalty(player: seq<Gem>, t: Gem): real {
    match FirstNamed(player, t.name)
    case None => 0.0
    case Some(p) => MaxReal(((t.level - p.level) * 2) as real, 0.0) + MaxReal((t.quality - p.quality) as real * 0.5, 0.0)
  }

  function Penalties(player: seq<Gem>, target: seq<Gem>): real {
    if |target| == 0 then 0.0 else Penalties(player, target[..|target| - 1]) + GemPenalty(player, target[|target| - 1])
  }

  /** 100, less 15 per target gem name the player lacks, less the level and
      quality deductions, never below 0. */
  function ScoreFormula(player: seq<Gem>, target: seq<Gem>): real {
    MaxReal(100.0 - (15 * |NamesOf(target) - NamesOf(player)|) as real - Penalties(player, target), 0.0)
  }

  lemma {:induction false} PenaltiesNonNegative(player: seq<Gem>, target: seq<Gem>)
    ensures Penalties(player, target) >= 0.0
  {
    if |target| > 0 {
      PenaltiesNonNegative(player, target[..|target| - 1]);
    }
  }

  method OptimizationScore(player: seq<Gem>, target: seq<Gem>) returns (score: real)
    ensures score == ScoreFormula(player, target)
    ensures 0.0 <= score <= 100.0
  {
    score := 100.0;
    var playerNames := NamesOf(player);
    var targetNames := NamesOf(target);
    var missingCount := |targetNames - playerNames|;
    score := score - (missingCount * 15) as real;
    for i := 0 to |target|
      invariant score == 100.0 - (15 * missingCount) as real - Penalties(player, target[..i])
    {
      Seqs.PrefixStep(target, i);
      var t := target[i];
      var p := FirstNamed(player, t.name);
      if p.Some? {
        var levelGap := t.level - p.value.level;
        score := score - MaxReal((levelGap * 2) as real, 0.0);
        var qualityGap := t.quality - p.value.quality;
        score := score - MaxReal(qualityGap as real * 0.5, 0.0);
      }
    }
    assert target[..|target|] == target;
    PenaltiesNonNegative(player, target);
    score := MaxReal(score, 0.0);
  }

  /** A target gem whose first same-named player gem is at least as
      levelled and of at least as much quality (or has no such gem). */
  predicate NoGap(player: seq<Gem>, t: Gem) {
    match FirstNamed(player, t.name)
    case None => true
    case Some(p) => p.level >= t.level && p.quality >= t.quality
  }

  lemma {:induction false} PenaltiesZero(player: seq<Gem>, target: seq<Gem>)
    ensures Penalties(player, target) == 0.0 <==> forall i :: 0 <= i < |target| ==> NoGap(player, target[i])
  {
    if |target| > 0 {
      var init := target[..|target| - 1];
      var t := target[|target| - 1];
      PenaltiesZero(player, init);
      PenaltiesNonNegative(player, init);
      assert GemPenalty(player, t) >= 0.0;
      assert GemPenalty(player, t) == 0.0 <==> NoGap(player, t);
      if forall i :: 0 <= i < |init| ==> NoGap(player, init[i]) {
        if NoGap(player, t) {
          forall i | 0 <= i < |target| ensures NoGap(player, target[i]) {
            if i < |init| {
              assert target[i] == init[i];
            }
          }
        }
      }
      if forall i :: 0 <= i < |target| ==> NoGap(player, target[i]) {
        forall i | 0 <= i < |init| ensures NoGap(player, init[i]) {
          assert init[i] == target[i];
        }
        assert NoGap(player, target[|target| - 1]);
      }
    }
  }

  /** The score is full exactly when the player has every target gem name
      and no target gem is ahead of its first same-named player gem. */
  lemma PerfectScore(player: seq<Gem>, target: seq<Gem>)
    ensures ScoreFormula(player, target) == 100.0 <==>
      NamesOf(target) <= NamesOf(player) && forall i :: 0 <= i < |target| ==> NoGap(player, target[i])
  {
    PenaltiesNonNegative(player, target);
    PenaltiesZero(player, target);
    NothingMissing(NamesOf(target), NamesOf(player));
  }

  lemma NothingMissing(a: set<string>, b: set<string>)
    ensures |a - b| == 0 <==> a <= b
  {
    if |a - b| == 0 {
      forall x | x in a ensures x in b {
        assert x !in a - b;
      }
    }
  }

  // ===== Links =====

  function LinkDifficulty(targetLinks: int, rarity: string): string {
    if targetLinks <= 4 then "easy"
    else if targetLinks == 5 then (if rarity == "RARE" then "medium" else "hard")
    else if targetLinks == 6 then (if rarity == "RARE" then "very_hard" else "extremely_hard")
    else "impossible"
  }

  datatype LinkCost = LinkCost(fusings: nat, jewellers: nat)

  /** The currency table for 4, 5 and 6 links; nothing for other counts. */
  function LinkingCost(targetLinks: int): LinkCost {
    if targetLinks == 4 then LinkCost(10, 20)
    else if targetLinks == 5 then LinkCost(150, 50)
    else if targetLinks == 6 then LinkCost(1500, 100)
    else LinkCost(0, 0)
  }

  /** The difficulty bands, and their agreement with the cost table: every
      count the table prices is at most "very hard" (or "extremely hard"
      off rares), and every "impossible" count costs nothing. */
  lemma LinkTables(targetLinks: int, rarity: string)
    ensures LinkDifficulty(targetLinks, rarity) == "easy" <==> targetLinks <= 4
    ensures LinkDifficulty(targetLinks, rarity) in {"medium", "hard"} <==> targetLinks == 5
    ensures LinkDifficulty(targetLinks, rarity) in {"very_hard", "extremely_hard"} <==> targetLinks == 6
    ensures LinkDifficulty(targetLinks, rarity) == "impossible" <==> targetLinks > 6
    ensures LinkingCost(targetLinks) != LinkCost(0, 0) <==> 4 <= targetLinks <= 6
    ensures LinkDifficulty(targetLinks, rarity) == "impossible" ==> LinkingCost(targetLinks) == LinkCost(0, 0)
  {
  }

  datatype LinkRecommendation = TabulaRasaFirst | BuyOrBenchCraft | UseFusings(target: int)

  method LinkRecommendations(current: int, target: int, difficulty: string) returns (r: seq<LinkRecommendation>)
    ensures |r| >= 1 && r[|r| - 1] == UseFusings(target)
    ensures TabulaRasaFirst in r <==> target == 6 && current < 4
    ensures BuyOrBenchCraft in r <==> difficulty in {"very_hard", "extremely_hard"}
    ensures UseFusings(target) !in r[..|r| - 1]
  {
    r := [];
    if target == 6 && current < 4 {
      r := r + [TabulaRasaFirst];
    }
    if difficulty in ["very_hard", "extremely_hard"] {
      r := r + [BuyOrBenchCraft];
    }
    r := r + [UseFusings(target)];
  }

  datatype LinkEvaluation =
    | Satisfied
    | Unsatisfied(
        currentLinks: int,
        targetLinks: int,
        linkGap: int,
        difficulty: string,
        estimatedCost: LinkCost,
        recommendations: seq<LinkRecommendation>)

  /** Enough links need nothing; otherwise the gap, its difficulty and
      cost, and advice ending with the generic linking line. */
  method EvaluateLinkRequirement(current: int, target: int, rarity: string) returns (r: LinkEvaluation)
    ensures r.Satisfied? <==> current >= target
    ensures r.Unsatisfied? ==>
      && r.currentLinks == current && r.targetLinks == target
      && r.linkGap == target - current > 0
      && r.difficulty == LinkDifficulty(target, rarity)
      && r.estimatedCost == LinkingCost(target)
      && |r.recommendations| >= 1 && r.recommendations[|r.recommendations| - 1] == UseFusings(target)
      && (TabulaRasaFirst in r.recommendations <==> target == 6 && current < 4)
      && (BuyOrBenchCraft in r.recommendations <==> target == 6)
  {
    if current >= target {
      return Satisfied;
    }
    var linkGap := target - current;
    var difficulty := LinkDifficulty(target, rarity);
    var cost := LinkingCost(target);
    LinkTables(target, rarity);
    var recommendations := LinkRecommendations(current, target, difficulty);
    r := Unsatisfied(current, target, linkGap, difficulty, cost, recommendations);
  }
}
