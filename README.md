# poe-build-simulator core in Dafny

This project models the core of poe-build-simulator and proves properties of that model. The core is the back end's build normaliser plus its comparison analysers, and the front end's build-data transformer.

- **Build extraction.** A Path of Building (PoB) export is turned into a `StandardizedCharacter`: the character core, passive allocation, skill setup and equipment snapshot.
- **Comparison.** Two such characters are compared. The passive-tree classifier and its two breadth-first pathfinders are modelled, as are the equipment, gem and link analysers. The enhanced engine appends their findings to the differences of a base engine and re-sorts the list by priority.
- **Helpers.** The gem reference index, the cleaning and padding of a PoB code, and the comparison summary.
- **Front end.** The transformer normalises the back end's JSON into the views the UI renders.

The model has one module per source file:

| module | source |
|---|---|
| `CharacterModels` | `character_models.py` |
| `PobXmlMapper` | `pob_xml_mapper.py` |
| `PassiveTreeAnalyzer` | `passive_tree_analyzer.py` |
| `TreeService` | `passive_tree_service.py` |
| `EquipmentGemAnalyzer` | `equipment_gem_analyzer.py` |
| `EnhancedComparisonEngine` | `enhanced_comparison_engine.py` |
| `GemService` | `gem_service.py` |
| `ComparisonApi` | `comparison_api_endpoints.py` |
| `BuildDataTransformer` | `buildDataTransformer.js` |

Modules that follow the source's own style:

- Pure Python code (the records, their derived properties, the scoring rules) becomes datatypes, functions and lemmas.
- Code that builds its result in loops becomes a `method` with a loop. Its `ensures` ties the result to a specification function, and the properties are proved about that function.
- Objects the source mutates become classes with `modifies` clauses: the mapper's `version_detected` field, the gem service's tables, the tree service's node map and the engine's `differences` list.

Supporting modules:

- `Xml`: the element tree (tag, attributes, text, children) that ElementTree hands the mapper.
- `JsValues`: the JavaScript values the transformer sees, with JavaScript truthiness, `||`, `??`, `find` and `filter`.
- `BackendJson`: the JSON the back end's records serialise to.
- `Walks` and `BreadthFirst`: route predicates and the layered-queue invariant that both breadth-first searches share.
- `Sorting`: the stable sort by priority key.
- `Folds`: products, sums and nested loops over sequences.
- `Text`: lower- and upper-casing of ASCII letters only, stripping, line splitting, and an ASCII-only `int()`: no `_` separators and no non-ASCII digits.

ElementTree truthiness is modelled as the source uses it. An element is "missing" when it is absent or has no child elements, which is what `if not elem` tests.

Under the slot names the source uses, the engine's equipment pass never adds a difference. It asks for "weapon_main_hand" and "body_armour", which are field names. `get_item_by_slot` only knows the short keys ("mainhand", "body", ...). `EnhancedComparisonEngine.EquipmentPassAddsNothing` proves this. The engine still models the pass in full, so `EquipmentPass` is correct for any slot list.

## Model

| member | source | states |
|---|---|---|
| CharacterModels.NewCharacterCore | fastapi-service/app/character_models.py:43-61 | a core is accepted exactly when level is in 1..100 and ascendancy points in 0..8; a bad level is reported before bad points; an accepted core keeps every given field |
| CharacterModels.CoreDefaults | fastapi-service/app/character_models.py:43-61 | with only level and class given, the core has 0 ascendancy points, status NONE and league "Standard" |
| CharacterModels.PassivePointBudget | fastapi-service/app/character_models.py:61-72 | for a valid core, available passive points lie in 0..99 and total available points are 22 more, so within 22..121 |
| CharacterModels.NewGemInfo | fastapi-service/app/character_models.py:121-139 | a gem is accepted exactly when level is in 1..50 and quality in 0..50, and then keeps every given field |
| CharacterModels.GemDefaults | fastapi-service/app/character_models.py:121-139 | a gem given only a name has level 1, quality 0, the default variant, is enabled and has every other flag false |
| CharacterModels.MainLinkCountZero | fastapi-service/app/character_models.py:189-196 | main_link_count is the main group's link count, and is 0 exactly when there is no main group or its link count is 0 |
| CharacterModels.SocketCount | fastapi-service/app/character_models.py:270-274 | the socket total is 0 for no groups and is at least the size of every group |
| CharacterModels.SocketCountAppend | fastapi-service/app/character_models.py:270-274 | the socket total is additive over concatenated group lists |
| CharacterModels.LargestLinkedGroup | fastapi-service/app/character_models.py:275-280 | max_links bounds every linked group, is attained by some linked group unless 0, and is 0 when no group is linked |
| CharacterModels.MaxLinksAtMostTotalSockets | fastapi-service/app/character_models.py:270-280 | an item's max_links never exceeds its total_sockets |
| CharacterModels.FieldNamesDistinct | fastapi-service/app/character_models.py:283-308 | the fifteen snapshot field names are pairwise distinct and none is "jewels" |
| CharacterModels.SlotOrderIsComplete | fastapi-service/app/character_models.py:283-308 | the slot order lists every equipment slot |
| CharacterModels.EquipmentSnapshot.GetItemBySlot | fastapi-service/app/character_models.py:310-332 | a name whose lower-case form is not one of the fifteen short keys yields None; a hit is the item stored in that key's slot |
| CharacterModels.GetItemBySlotIgnoresCase | fastapi-service/app/character_models.py:310-332 | lookup by slot name ignores letter case |
| CharacterModels.FieldNamesAreNotKeys | fastapi-service/app/character_models.py:310-332 | "weapon_main_hand" and "body_armour" always yield None |
| CharacterModels.ShortKeysFindTheirSlot | fastapi-service/app/character_models.py:310-332 | every short key finds exactly the item of its slot |
| CharacterModels.EverySlotHasAKey | fastapi-service/app/character_models.py:310-332 | every equipment slot can be reached by some short key |
| CharacterModels.KeyOf | fastapi-service/app/character_models.py:310-332 | each slot's chosen key is a short key that maps back to that slot |
| PobXmlMapper.DetectPobVersion | fastapi-service/app/pob_xml_mapper.py:46-64 | the version is "community" exactly when some descendant is a Calcs element, otherwise "official" |
| PobXmlMapper.IntAttr | fastapi-service/app/pob_xml_mapper.py:125 | an absent attribute gives the default; a present one succeeds exactly when it parses as an integer |
| PobXmlMapper.SpecOf | fastapi-service/app/pob_xml_mapper.py:153-160 | a Spec that is found is never childless |
| PobXmlMapper.CountAscendancyNodes | fastapi-service/app/pob_xml_mapper.py:164-172 | the count of ascendancy nodes is at most the number of Node elements; it fails only on a non-integer id |
| PobXmlMapper.CountFailurePersists | fastapi-service/app/pob_xml_mapper.py:164-172 | once a node id fails to parse, the count of the whole list fails the same way |
| PobXmlMapper.StatusFor | fastapi-service/app/pob_xml_mapper.py:174-183 | the status is NONE for 0 nodes, PARTIAL for 1..7 and COMPLETE for 8 or more |
| PobXmlMapper.AscendancyWith | fastapi-service/app/pob_xml_mapper.py:145-185 | points are never negative, and never above 8 when capped; failures come only from non-integer ids |
| PobXmlMapper.AscendancyOutcomes | fastapi-service/app/pob_xml_mapper.py:145-193 | no ascendancy name gives (NONE, 0); no Tree/Spec gives (PARTIAL, 0); otherwise the status follows the count of ids at or above 60000 and the points are that count |
| PobXmlMapper.CountAscendancy | fastapi-service/app/pob_xml_mapper.py:164-172 | the counting loop computes the count of ascendancy nodes |
| PobXmlMapper.CalculateAscendancyStatus | fastapi-service/app/pob_xml_mapper.py:145-185 | computes status and points as the source does, with points uncapped |
| PobXmlMapper.AscendancyOverflowRejectsBuild | fastapi-service/app/pob_xml_mapper.py:130-143 | nine or more ascendancy-range nodes make the uncapped core fail validation, while the capped core is COMPLETE with 8 points |
| PobXmlMapper.CoreFailsOnlyOnBuildOrLevel | fastapi-service/app/pob_xml_mapper.py:117-143 | with the cap, extracting the core fails only for a missing Build, a non-integer attribute or a level outside 1..100, and a result is always valid |
| PobXmlMapper.ExtractCharacterCore | fastapi-service/app/pob_xml_mapper.py:117-143 | computes the capped core |
| PobXmlMapper.PositiveIds | fastapi-service/app/pob_xml_mapper.py:209-222 | no more ids are kept than there are Node elements; failure is only a non-integer id |
| PobXmlMapper.PositiveIdsArePositive | fastapi-service/app/pob_xml_mapper.py:209-222 | every kept node id is positive |
| PobXmlMapper.PositiveIdListed | fastapi-service/app/pob_xml_mapper.py:209-222 | every Node with a positive id appears among the kept ids |
| PobXmlMapper.PositiveIdsFailurePersists | fastapi-service/app/pob_xml_mapper.py:209-222 | a non-integer id anywhere makes the whole extraction fail |
| PobXmlMapper.PassiveAllocationShape | fastapi-service/app/pob_xml_mapper.py:195-230 | a missing Tree/Spec gives the empty allocation; otherwise total_points_used equals the number of allocated ids, all positive |
| PobXmlMapper.CollectNodeIds | fastapi-service/app/pob_xml_mapper.py:209-222 | the collecting loop computes the positive ids in document order |
| PobXmlMapper.ExtractPassiveAllocation | fastapi-service/app/pob_xml_mapper.py:195-230 | computes the passive allocation |
| PobXmlMapper.ParseQualityType | fastapi-service/app/pob_xml_mapper.py:367-375 | an id other than Anomalous, Divergent or Phantasmal gives the default variant |
| PobXmlMapper.SupportPrecedence | fastapi-service/app/pob_xml_mapper.py:340-365 | a reference-table hit is a support; otherwise a gemId containing "SupportGem" is; otherwise it is a support exactly when the name contains Support, support, Awakened or awakened |
| PobXmlMapper.SupportMonotone | fastapi-service/app/pob_xml_mapper.py:340-365 | a larger reference table never turns a support into a non-support |
| PobXmlMapper.GemInfoOf | fastapi-service/app/pob_xml_mapper.py:310-338 | an extracted gem is valid, takes nameSpec (default "Unknown"), is enabled unless enabled is not "true", and has its support flag from the support rule |
| PobXmlMapper.GemsOf | fastapi-service/app/pob_xml_mapper.py:256-259 | one gem is extracted per Gem element |
| PobXmlMapper.GemsFailurePersists | fastapi-service/app/pob_xml_mapper.py:256-259 | a bad Gem element makes the whole gem list fail |
| PobXmlMapper.EnabledCount | fastapi-service/app/pob_xml_mapper.py:262 | link_count is at most the number of gems, is 0 exactly when none is enabled, and is full exactly when all are |
| PobXmlMapper.SupportNamesWithinLinks | fastapi-service/app/pob_xml_mapper.py:262-275 | a group never lists more support names than its link count |
| PobXmlMapper.SupportNameListed | fastapi-service/app/pob_xml_mapper.py:268-273 | every enabled support gem's name is listed |
| PobXmlMapper.SupportNameSource | fastapi-service/app/pob_xml_mapper.py:268-273 | every listed support name comes from an enabled support gem |
| PobXmlMapper.MainSkillIsLastActive | fastapi-service/app/pob_xml_mapper.py:265-275 | main_skill is None exactly when no gem is an enabled non-support; otherwise it is the name of the last one |
| PobXmlMapper.GroupMainTest | fastapi-service/app/pob_xml_mapper.py:262-286 | an extracted group is a main skill group exactly when it has an enabled active gem and at least 4 enabled gems |
| PobXmlMapper.GroupsOf | fastapi-service/app/pob_xml_mapper.py:249-294 | one group is extracted per Skill element |
| PobXmlMapper.GroupsFailurePersists | fastapi-service/app/pob_xml_mapper.py:249-294 | a bad Skill element makes the whole group list fail |
| PobXmlMapper.AllSkillsPrefix | fastapi-service/app/pob_xml_mapper.py:249-250 | the skills of a prefix of the skill sets are among the skills of all sets |
| PobXmlMapper.BestGroup | fastapi-service/app/pob_xml_mapper.py:297-303 | the fallback is None exactly when no group has a main skill; otherwise it is the first group with a main skill and maximal link count |
| PobXmlMapper.MainGroupSelection | fastapi-service/app/pob_xml_mapper.py:244-303 | the enabled group whose 1-based index is mainSocketGroup wins, whether or not it has a main skill; otherwise the fallback applies; with no main skill anywhere the result is None |
| PobXmlMapper.SetupUsesMainGroupOf | fastapi-service/app/pob_xml_mapper.py:244-308 | the extracted setup's main group is the selection over its own groups |
| PobXmlMapper.MissingSkillsGiveEmptySetup | fastapi-service/app/pob_xml_mapper.py:234-238 | a missing or childless Skills element gives the empty setup, whose main_link_count is 0 |
| PobXmlMapper.ExtractGems | fastapi-service/app/pob_xml_mapper.py:256-259 | the gem loop computes the extracted gem list |
| PobXmlMapper.ClassifyGems | fastapi-service/app/pob_xml_mapper.py:265-275 | the classifying loop computes the main skill and the support names |
| PobXmlMapper.ExtractGroup | fastapi-service/app/pob_xml_mapper.py:251-286 | computes one skill group |
| PobXmlMapper.ExtractSetGroups | fastapi-service/app/pob_xml_mapper.py:250-294 | the group loop extends the group list and keeps the declared main group in step with the id counter |
| PobXmlMapper.ExtractSkillSetup | fastapi-service/app/pob_xml_mapper.py:232-308 | computes the skill setup |
| PobXmlMapper.AfterColon | fastapi-service/app/pob_xml_mapper.py:464 | the text after the first colon is never longer than the line |
| PobXmlMapper.RarityFromLastLine | fastapi-service/app/pob_xml_mapper.py:462-465 | the rarity is read from the last "rarity:" line |
| PobXmlMapper.RarityDefault | fastapi-service/app/pob_xml_mapper.py:459-465 | with no "rarity:" line the rarity is NORMAL |
| PobXmlMapper.ItemLevelFromLastLine | fastapi-service/app/pob_xml_mapper.py:466-470 | the item level is the value of the last "item level:" line that parses |
| PobXmlMapper.ItemLevelDefault | fastapi-service/app/pob_xml_mapper.py:460-470 | with no parseable "item level:" line the item level is 0 |
| PobXmlMapper.NonRarityLines | fastapi-service/app/pob_xml_mapper.py:473 | the filtered lines are lines of the text, none a rarity line, and non-empty when such a line exists |
| PobXmlMapper.FirstNonRarityLine | fastapi-service/app/pob_xml_mapper.py:473-474 | the name is the first line that is not a rarity line |
| PobXmlMapper.ScanHeader | fastapi-service/app/pob_xml_mapper.py:462-470 | the header loop computes rarity and item level |
| PobXmlMapper.ParseItemTextHeader | fastapi-service/app/pob_xml_mapper.py:456-476 | computes name, rarity and item level of an item text |
| PobXmlMapper.FollowingLine | fastapi-service/app/pob_xml_mapper.py:507-509 | the line after the first occurrence of the name, or None when the name occurs only last or not at all |
| PobXmlMapper.BaseTypeShortcutRedundant | fastapi-service/app/pob_xml_mapper.py:500-511 | for UNIQUE/RARE items the early return on line 504 never changes the answer: the base type is the line after the name's first occurrence, else the first line |
| PobXmlMapper.NamedItemBaseType | fastapi-service/app/pob_xml_mapper.py:472-511 | for a UNIQUE/RARE item named from its own text, the base type is the second filtered line, or the first when there is only one |
| PobXmlMapper.ExtractBaseType | fastapi-service/app/pob_xml_mapper.py:478-514 | computes the base type |
| PobXmlMapper.ItemPool | fastapi-service/app/pob_xml_mapper.py:387-391 | the pool's keys are exactly the non-empty Item ids |
| PobXmlMapper.ItemSetWithId | fastapi-service/app/pob_xml_mapper.py:415-420 | finds an ItemSet whose id is the active id, or reports that none has it |
| PobXmlMapper.ActiveItemSet | fastapi-service/app/pob_xml_mapper.py:414-424 | an item set is chosen exactly when there is at least one ItemSet |
| PobXmlMapper.EquipmentItemOf | fastapi-service/app/pob_xml_mapper.py:438-454 | the extracted item carries the PoB slot name |
| PobXmlMapper.ExtractEquipmentItem | fastapi-service/app/pob_xml_mapper.py:438-454 | computes one equipment item from its text |
| PobXmlMapper.EquippedSlotHasEntry | fastapi-service/app/pob_xml_mapper.py:426-434 | a slot whose itemId is in the pool gets an entry |
| PobXmlMapper.EntryHasEquippedSlot | fastapi-service/app/pob_xml_mapper.py:426-434 | every entry comes from a slot whose itemId is in the pool |
| PobXmlMapper.EquippedExactlyFromThePool | fastapi-service/app/pob_xml_mapper.py:377-436 | a snapshot slot is filled exactly when the active set names it with an itemId present in the pool |
| PobXmlMapper.MissingItemsGiveEmptySnapshot | fastapi-service/app/pob_xml_mapper.py:379-383 | a missing Items element, or one without ItemSet, gives the empty snapshot |
| PobXmlMapper.BuildItemPool | fastapi-service/app/pob_xml_mapper.py:387-391 | the pool loop computes the item pool |
| PobXmlMapper.FillSlots | fastapi-service/app/pob_xml_mapper.py:426-434 | the slot loop computes the equipped entries |
| PobXmlMapper.ExtractEquipmentSnapshot | fastapi-service/app/pob_xml_mapper.py:377-436 | computes the equipment snapshot |
| PobXmlMapper.MissingSectionsOutcomes | fastapi-service/app/pob_xml_mapper.py:66-115 | a missing Build fails the extraction; missing Tree/Spec, Skills or Items give empty sub-models; a result has a valid core and source "pob_import" |
| PobXmlMapper.Mapper.constructor | fastapi-service/app/pob_xml_mapper.py:41-44 | a new mapper has no detected version and mode "auto" |
| PobXmlMapper.Mapper.ExtractStandardizedCharacter | fastapi-service/app/pob_xml_mapper.py:66-115 | records the detected version and returns the standardized character built on the capped core: nine or more ascendancy-range nodes give 8 points where the source raises |
| PassiveTreeAnalyzer.WeightAtLeastNotable | fastapi-service/app/passive_tree_analyzer.py:23-30 | a node weighs at least 50 exactly when it is a keystone, notable or ascendancy node, or a cluster socket whose size bonus lifts it to 50 |
| PassiveTreeAnalyzer.ClassifyNodeType | fastapi-service/app/passive_tree_analyzer.py:131-163 | the classifier never produces the class-start type |
| PassiveTreeAnalyzer.ClassificationPrecedence | fastapi-service/app/passive_tree_analyzer.py:131-163 | keystone beats notable, which beats mastery, then jewel socket, then ascendancy (skill at least 60000), then small passive |
| PassiveTreeAnalyzer.ClusterSizeFitsPassives | fastapi-service/app/passive_tree_analyzer.py:172-186 | the size chosen for a cluster socket is the smallest that holds its number of indices |
| PassiveTreeAnalyzer.NodeMapOfDomain | fastapi-service/app/passive_tree_analyzer.py:90-129 | the node map holds exactly the entries whose key parses as an integer |
| PassiveTreeAnalyzer.NodeMapOfLast | fastapi-service/app/passive_tree_analyzer.py:90-129 | a node id maps to the record of its last entry |
| PassiveTreeAnalyzer.NodeMapOfWellFormed | fastapi-service/app/passive_tree_analyzer.py:90-129 | every node built by the classifier is stored under its own id and is not a class start |
| PassiveTreeAnalyzer.Classifier.constructor | fastapi-service/app/passive_tree_analyzer.py:79-88 | the classifier's node map is built from the tree's nodes, or is empty without them |
| PassiveTreeAnalyzer.Classifier.ClassifyNodes | fastapi-service/app/passive_tree_analyzer.py:192-216 | every type except class start gets a bucket, which holds the known ids of that type in input order |
| PassiveTreeAnalyzer.OfTypeMembers | fastapi-service/app/passive_tree_analyzer.py:192-216 | an id is in a bucket exactly when it was given, is known and has that type |
| PassiveTreeAnalyzer.NewNodesMembers | fastapi-service/app/passive_tree_analyzer.py:327-333 | the path's new nodes are exactly its nodes that are not allocated |
| PassiveTreeAnalyzer.DetoursMembers | fastapi-service/app/passive_tree_analyzer.py:334-350 | the detour nodes are exactly the path nodes that count as detours |
| PassiveTreeAnalyzer.ValuableMembers | fastapi-service/app/passive_tree_analyzer.py:334-350 | the valuable nodes are exactly the path nodes that weigh at least 50 |
| PassiveTreeAnalyzer.TotalWeightBounds | fastapi-service/app/passive_tree_analyzer.py:334-350 | total weight is at least 50 per valuable node and at most 120 per node |
| PassiveTreeAnalyzer.AnalysisMembers | fastapi-service/app/passive_tree_analyzer.py:311-367 | an analysed path keeps only unallocated nodes; detour and valuable nodes are disjoint subsets of it |
| PassiveTreeAnalyzer.AnalysisTotals | fastapi-service/app/passive_tree_analyzer.py:311-367 | cost is the number of new nodes; efficiency is total weight over cost, or 0 with weight 0 when cost is 0 |
| PassiveTreeAnalyzer.FoundAnswer | fastapi-service/app/passive_tree_analyzer.py:256-292 | a route of minimal length found by the search is a shortest route, and its analysis keeps it whole |
| PassiveTreeAnalyzer.NeighborsAreSucc | fastapi-service/app/passive_tree_analyzer.py:277 | the search follows only a node's own out-list, and a node absent from the map has no neighbours |
| PassiveTreeAnalyzer.ExpandHead | fastapi-service/app/passive_tree_analyzer.py:276-292 | expanding one queued node keeps the breadth-first invariant and reports the target exactly when it is a neighbour |
| PassiveTreeAnalyzer.Candidates | fastapi-service/app/passive_tree_analyzer.py:388-395 | the candidate list is the keystones followed by the notables, each tagged with its category |
| PassiveTreeAnalyzer.ListOfSet | fastapi-service/app/passive_tree_analyzer.py:112-121 | a list made from a set has exactly its members, once each, in an order left open |
| PassiveTreeAnalyzer.SeedsOfAll | fastapi-service/app/passive_tree_analyzer.py:262-274 | when the starts are the allocated nodes, every allocated node seeds the search |
| PassiveTreeAnalyzer.SortedSuggestions | fastapi-service/app/passive_tree_analyzer.py:414-421 | sorted suggestions are ordered by (-priority, cost, -efficiency), every keystone precedes every notable, and each stays a valid suggestion |
| PassiveTreeAnalyzer.PathFinder.constructor | fastapi-service/app/passive_tree_analyzer.py:222-229 | the path finder uses the given classifier |
| PassiveTreeAnalyzer.PathFinder.FindShortestPath | fastapi-service/app/passive_tree_analyzer.py:231-292 | an allocated target is already allocated; otherwise the target is unreachable exactly when no route from the allocated starts avoids allocated nodes; a found path is a shortest such route, analysed |
| PassiveTreeAnalyzer.PathFinder.ReconstructPath | fastapi-service/app/passive_tree_analyzer.py:294-309 | following parents back from the last node gives a route to the target whose length is its depth plus one |
| PassiveTreeAnalyzer.PathFinder.AnalyzePath | fastapi-service/app/passive_tree_analyzer.py:311-367 | the scoring loop computes the path analysis |
| PassiveTreeAnalyzer.PathFinder.SuggestOptimalPaths | fastapi-service/app/passive_tree_analyzer.py:369-421 | only the first 2*max candidates are searched; the found suggestions are exactly one valid suggestion per reachable candidate, in candidate order, and the result is their stable sort by (-priority, cost, -efficiency) cut to max, so keystones come first |
| PassiveTreeAnalyzer.PathFinder.SuggestionFor | fastapi-service/app/passive_tree_analyzer.py:395-412 | a suggestion is made exactly when the target is unallocated and reachable, and is valid for that target and category |
| PassiveTreeAnalyzer.SizeNameRoundTrip | fastapi-service/app/passive_tree_analyzer.py:33-37 | each cluster size's name reads back as that size |
| PassiveTreeAnalyzer.ClusterDatabaseConsistent | fastapi-service/app/passive_tree_analyzer.py:431-449 | each size's table entry has its maximum passives, a point-cost range ending at that maximum and 1..3 notables |
| PassiveTreeAnalyzer.MatchScore | fastapi-service/app/passive_tree_analyzer.py:495-516 | the match score lies in 50..100 |
| PassiveTreeAnalyzer.MatchScoreProperties | fastapi-service/app/passive_tree_analyzer.py:495-516 | the score is 50 exactly for a bare jewel, reaches the 100 cap with enough notables, and never drops when an enchant or notable is added |
| PassiveTreeAnalyzer.ClusterRecommendations | fastapi-service/app/passive_tree_analyzer.py:518-539 | an enchant is advised exactly when there is none; more notables are advised, last, when there are fewer than expected |
| PassiveTreeAnalyzer.AnalyzeClusterJewel | fastapi-service/app/passive_tree_analyzer.py:451-493 | size defaults to medium; point cost is the passive count, taken from the data or else from the size table (6 for unknown sizes); score and advice follow the jewel |
| PassiveTreeAnalyzer.JewelCostInRange | fastapi-service/app/passive_tree_analyzer.py:451-493 | without an explicit passive count the cost lies in the size's range, and is 6 without a size |
| TreeService.TypeOf | fastapi-service/app/passive_tree_service.py:34-74 | the service never types a loaded node as unknown |
| TreeService.TypePrecedence | fastapi-service/app/passive_tree_service.py:34-74 | keystone beats notable, then mastery, then jewel socket; anything else is "normal", agreeing with the analyzer's precedence |
| TreeService.InfoMapOfDomain | fastapi-service/app/passive_tree_service.py:34-74 | the service's node map has exactly the integer keys the analyzer's map has, each record stored under its id |
| TreeService.InfoOfProperties | fastapi-service/app/passive_tree_service.py:93-110 | node info carries the asked id, is "unknown" exactly for absent ids, and its out-list is the node's edges in the graph |
| TreeService.InfosOf | fastapi-service/app/passive_tree_service.py:112-121 | the infos of a path are the node infos of its ids, in order |
| TreeService.WalkToTarget | fastapi-service/app/passive_tree_service.py:150-161 | extending a walk by a neighbour that is the target gives a route to it one step longer |
| TreeService.AnswerBounds | fastapi-service/app/passive_tree_service.py:143-163 | no path means the target differs from the start and is unreachable; a path means no route is shorter |
| TreeService.ShortestPathFrom | fastapi-service/app/passive_tree_service.py:143-163 | returns [start] when start is the target; otherwise a shortest route along out-edges from start, or None exactly when the target is unreachable |
| TreeService.FoundIsBest | fastapi-service/app/passive_tree_service.py:165-197 | the chosen path is strictly shorter than every earlier start's and no longer than every later start's |
| TreeService.ChosenReaches | fastapi-service/app/passive_tree_service.py:165-197 | when a best path exists, some start reaches the target |
| TreeService.PriorityNodesMembers | fastapi-service/app/passive_tree_service.py:206-219 | only keystone and notable targets qualify, with priorities 10 and 5 |
| TreeService.ReachedCandidates | fastapi-service/app/passive_tree_service.py:221-236 | the reached targets are a subsequence of the candidates |
| TreeService.TargetsOfPermutation | fastapi-service/app/passive_tree_service.py:237-238 | reordering suggestions reorders their targets the same way, so sorting keeps the multiset of targets |
| TreeService.SortedServiceSuggestions | fastapi-service/app/passive_tree_service.py:237-238 | the final sort orders by (cost, -priority) and keeps every suggestion valid |
| TreeService.CandidatesQualify | fastapi-service/app/passive_tree_service.py:206-220 | every candidate kept after the priority sort and cut is a qualifying target |
| TreeService.PassiveTreeService.constructor | fastapi-service/app/passive_tree_service.py:10-15 | a new service has an empty node map and is not loaded |
| TreeService.PassiveTreeService.LoadTreeData | fastapi-service/app/passive_tree_service.py:16-91 | a loaded service with nodes is left as is; otherwise loading succeeds exactly when the fetch returned nodes, and then the map is built from them |
| TreeService.PassiveTreeService.GetNodeInfo | fastapi-service/app/passive_tree_service.py:93-110 | node info carries the asked id and is "unknown" exactly for an id not in the map |
| TreeService.PassiveTreeService.CalculatePath | fastapi-service/app/passive_tree_service.py:165-197 | no path exactly when no start is the target or reaches it; otherwise the earliest start with a shortest path wins, its start is dropped and cost is the remaining length |
| TreeService.PassiveTreeService.SuggestOptimalPaths | fastapi-service/app/passive_tree_service.py:199-238 | targets are sorted by priority and cut to max before pathing; the result is the stable sort by (cost, -priority) of one valid suggestion per reached target, so its targets are a permutation of the reached candidates |
| TreeService.PassiveTreeService.PriorityTargets | fastapi-service/app/passive_tree_service.py:206-219 | the loop collects the qualifying targets in order |
| TreeService.PassiveTreeService.PathsTo | fastapi-service/app/passive_tree_service.py:221-236 | the loop keeps a valid suggestion for exactly the candidates some allocated node reaches |
| Walks.FoundIsShortest | fastapi-service/app/passive_tree_analyzer.py:276-292 | when the target is met while expanding a queued node, no route to it is shorter than that node's depth plus one |
| Walks.ExhaustedMeansUnreachable | fastapi-service/app/passive_tree_analyzer.py:262-292 | when the queue is exhausted without meeting the target, no route reaches it |
| EquipmentGemAnalyzer.BaseDiffsFacts | fastapi-service/app/equipment_gem_analyzer.py:102-153 | an item-level difference iff the player's ilvl is lower, a base-type difference iff the bases differ, a quality difference iff the player's quality is lower, in that order; has_differences iff any holds |
| EquipmentGemAnalyzer.CompareEquipmentBase | fastapi-service/app/equipment_gem_analyzer.py:87-153 | the comparison lists exactly the base differences, flags them, and scores compatibility by the formula |
| EquipmentGemAnalyzer.BaseCompatibility | fastapi-service/app/equipment_gem_analyzer.py:155-177 | the compatibility score follows the formula and always lies in 10..100 |
| EquipmentGemAnalyzer.CompatibilityBands | fastapi-service/app/equipment_gem_analyzer.py:155-177 | the score is at most 50 exactly when the bases differ, and 100 exactly when bases match and the player has no ilvl or quality gap |
| EquipmentGemAnalyzer.AddMentioned | fastapi-service/app/equipment_gem_analyzer.py:229-237 | one mod adds exactly the keywords its lower-cased text mentions |
| EquipmentGemAnalyzer.ExtractModKeywords | fastapi-service/app/equipment_gem_analyzer.py:218-239 | a keyword is extracted exactly when some mod text contains it, ignoring case |
| EquipmentGemAnalyzer.WordRuns | fastapi-service/app/equipment_gem_analyzer.py:276-277 | the text splits into non-empty runs of word characters |
| EquipmentGemAnalyzer.CapitalisedWordsOfWord | fastapi-service/app/equipment_gem_analyzer.py:276-277 | a single capitalised word yields just itself |
| EquipmentGemAnalyzer.SimilarIff | fastapi-service/app/equipment_gem_analyzer.py:271-284 | two mods are similar iff both word sets are non-empty and the shared words are at least half of all words; similarity is symmetric |
| EquipmentGemAnalyzer.FirstCategory | fastapi-service/app/equipment_gem_analyzer.py:286-300 | picks the first category whose keywords the text mentions |
| EquipmentGemAnalyzer.ModCategory | fastapi-service/app/equipment_gem_analyzer.py:286-300 | a mod is "other" exactly when no category keyword occurs in it |
| EquipmentGemAnalyzer.CompareModTiers | fastapi-service/app/equipment_gem_analyzer.py:241-269 | the nested loop computes the tier gaps |
| EquipmentGemAnalyzer.TierDiffsMembers | fastapi-service/app/equipment_gem_analyzer.py:241-269 | a tier gap is reported exactly for a similar (target, player) pair where the player's tier is worse, an absent tier counting as 99 |
| EquipmentGemAnalyzer.UntieredModsHaveNoTierGaps | fastapi-service/app/equipment_gem_analyzer.py:257-267 | mods without tiers never produce a tier gap |
| EquipmentGemAnalyzer.GenerateModRecommendations | fastapi-service/app/equipment_gem_analyzer.py:302-320 | adding mods is advised exactly when some are missing, raising tiers exactly when there are tier gaps, in that order |
| EquipmentGemAnalyzer.AnalyzeModGap | fastapi-service/app/equipment_gem_analyzer.py:179-216 | missing = target keywords minus player keywords, conflicting = the reverse; they are disjoint and missing_count is the number missing; tier gaps and advice follow |
| EquipmentGemAnalyzer.Actives | fastapi-service/app/equipment_gem_analyzer.py:370-371 | the active gems are exactly the non-support gems |
| EquipmentGemAnalyzer.Supports | fastapi-service/app/equipment_gem_analyzer.py:372-373 | the support gems are exactly the support gems |
| EquipmentGemAnalyzer.ActiveDiffsFacts | fastapi-service/app/equipment_gem_analyzer.py:401-458 | a skill difference iff names differ, a level difference iff the target's level is higher (high from 3 levels, medium below), a quality difference iff the target's quality is higher, a variant difference iff variants differ, in that order |
| EquipmentGemAnalyzer.CompareActiveGems | fastapi-service/app/equipment_gem_analyzer.py:401-458 | missing_data exactly when either side has no active gem; otherwise the first active gems are compared |
| EquipmentGemAnalyzer.BaseNameOfAwakened | fastapi-service/app/equipment_gem_analyzer.py:496 | removing "Awakened " recovers the plain gem name |
| EquipmentGemAnalyzer.UpgradesFor | fastapi-service/app/equipment_gem_analyzer.py:492-507 | an awakened target gem gives one upgrade per player gem bearing its plain name |
| EquipmentGemAnalyzer.IdentifyAwakenedUpgrades | fastapi-service/app/equipment_gem_analyzer.py:486-509 | the nested loop computes the awakened upgrades |
| EquipmentGemAnalyzer.AwakenedUpgradesMembers | fastapi-service/app/equipment_gem_analyzer.py:486-509 | an upgrade is reported exactly for an (awakened target, player gem with its plain name) pair |
| EquipmentGemAnalyzer.MatchRateFacts | fastapi-service/app/equipment_gem_analyzer.py:474-476 | the match rate lies in 0..100, is 100 exactly when the player has every target support, and is the shared share of target names otherwise |
| EquipmentGemAnalyzer.CompareSupportGems | fastapi-service/app/equipment_gem_analyzer.py:460-484 | missing and extra supports are the two name-set differences; upgrades and match rate follow |
| EquipmentGemAnalyzer.SupportMultipliersValid | fastapi-service/app/equipment_gem_analyzer.py:330-351 | every "more" value in the support table is at least 1 and every "increased" value is at least 1 |
| EquipmentGemAnalyzer.TotalMultiplier | fastapi-service/app/equipment_gem_analyzer.py:511-533 | the accumulation loop computes the product of "more" values times one plus the summed "increased" bonuses |
| EquipmentGemAnalyzer.MultiplierAtLeastOne | fastapi-service/app/equipment_gem_analyzer.py:511-533 | the multiplier of no gems is 1, and never below 1 |
| EquipmentGemAnalyzer.MultiplierOrderIndependent | fastapi-service/app/equipment_gem_analyzer.py:511-533 | the multiplier does not depend on gem order |
| EquipmentGemAnalyzer.MultiplierIgnoresOthers | fastapi-service/app/equipment_gem_analyzer.py:517-531 | disabled gems and gems not in the table do not affect the multiplier |
| EquipmentGemAnalyzer.GapPercentageMeaning | fastapi-service/app/equipment_gem_analyzer.py:380-388 | the gap percentage is positive iff the target's multiplier is higher, and exceeds p iff the target exceeds the player by more than p percent |
| EquipmentGemAnalyzer.AnalyzeGemCombination | fastapi-service/app/equipment_gem_analyzer.py:353-399 | the first active gems are compared, with their differences and the flag set exactly when there are some; missing and extra supports are the two name-set differences of the supports, with their match rate; both multipliers, their gap and gap percentage, and the optimisation score follow |
| EquipmentGemAnalyzer.FirstNamed | fastapi-service/app/equipment_gem_analyzer.py:548-553 | finds a gem with the given name exactly when one exists |
| EquipmentGemAnalyzer.OptimizationScore | fastapi-service/app/equipment_gem_analyzer.py:535-565 | the scoring loop computes the score, which lies in 0..100 |
| EquipmentGemAnalyzer.PenaltiesZero | fastapi-service/app/equipment_gem_analyzer.py:547-563 | no penalty accrues exactly when no target gem has a level or quality gap |
| EquipmentGemAnalyzer.PerfectScore | fastapi-service/app/equipment_gem_analyzer.py:535-565 | the score is 100 exactly when the player has every target gem and none has a gap |
| EquipmentGemAnalyzer.LinkTables | fastapi-service/app/equipment_gem_analyzer.py:619-639 | difficulty is easy up to 4 links, medium or hard at 5, very hard or extremely hard at 6, impossible above; a cost is tabled exactly for 4, 5 and 6 links |
| EquipmentGemAnalyzer.LinkRecommendations | fastapi-service/app/equipment_gem_analyzer.py:641-664 | the advice always ends with the generic fusing line; Tabula Rasa is advised exactly for 6 links from below 4; buying or bench-crafting exactly for the hardest difficulties |
| EquipmentGemAnalyzer.EvaluateLinkRequirement | fastapi-service/app/equipment_gem_analyzer.py:571-617 | satisfied exactly when current reaches target; otherwise the gap, difficulty, cost and advice follow the tables |
| EnhancedComparisonEngine.MapSeverityToPriority | fastapi-service/app/enhanced_comparison_engine.py:338-346 | any severity other than critical, high, medium or low maps to MEDIUM |
| EnhancedComparisonEngine.SeverityRoundTrip | fastapi-service/app/enhanced_comparison_engine.py:338-346 | each priority's own name maps back to that priority |
| EnhancedComparisonEngine.SuggestionDifferences | fastapi-service/app/enhanced_comparison_engine.py:142-161 | one difference is made per path suggestion, in order |
| EnhancedComparisonEngine.CandidateOrigin | fastapi-service/app/enhanced_comparison_engine.py:124-140 | a keystone candidate is a missing keystone and a notable candidate a missing notable |
| EnhancedComparisonEngine.ModsOf | fastapi-service/app/enhanced_comparison_engine.py:217-225 | the analysed mods are the explicit mods followed by the implicit mods, by text |
| EnhancedComparisonEngine.BaseDifferences | fastapi-service/app/enhanced_comparison_engine.py:202-214 | one difference is made per base difference, in order |
| EnhancedComparisonEngine.SlotDifferencesFacts | fastapi-service/app/enhanced_comparison_engine.py:189-238 | for two present items, the slot's differences are its base differences with mapped priority, plus one MEDIUM mods difference exactly when keywords are missing |
| EnhancedComparisonEngine.EmptySlotAddsNothing | fastapi-service/app/enhanced_comparison_engine.py:193-194 | a slot with either item absent adds nothing |
| EnhancedComparisonEngine.UnknownSlotsAddNothing | fastapi-service/app/enhanced_comparison_engine.py:189-194 | slots whose player lookup is always None add nothing |
| EnhancedComparisonEngine.EquipmentPassAddsNothing | fastapi-service/app/enhanced_comparison_engine.py:186-194 | with the engine's two core slot names the equipment pass adds nothing for any characters |
| EnhancedComparisonEngine.GemRecords | fastapi-service/app/enhanced_comparison_engine.py:255-279 | one analyser record is made per gem, in order |
| EnhancedComparisonEngine.UpgradeDifferences | fastapi-service/app/enhanced_comparison_engine.py:305-315 | one difference is made per awakened upgrade, in order |
| EnhancedComparisonEngine.MultiplierRecordIff | fastapi-service/app/enhanced_comparison_engine.py:288-300 | a multiplier difference is added exactly when the target's multiplier exceeds the player's by more than 5 percent |
| EnhancedComparisonEngine.LinkRecordIff | fastapi-service/app/enhanced_comparison_engine.py:317-336 | one CRITICAL skill-links difference is added exactly when the player's links fall short of the target's |
| EnhancedComparisonEngine.GemDifferencesKinds | fastapi-service/app/enhanced_comparison_engine.py:240-336 | the gem pass adds only HIGH multiplier gaps, MEDIUM awakened upgrades and CRITICAL link shortfalls |
| EnhancedComparisonEngine.NoMainGroupAddsNothing | fastapi-service/app/enhanced_comparison_engine.py:248-252 | the gem pass adds nothing when either main group is missing |
| EnhancedComparisonEngine.SuggestionsAreMissing | fastapi-service/app/enhanced_comparison_engine.py:133-161 | every suggested target is unallocated and is a missing node of its category |
| EnhancedComparisonEngine.SuggestedRecords | fastapi-service/app/enhanced_comparison_engine.py:133-161 | every passive difference is HIGH, names an unallocated target and is a keystone or notable the target build has and the player lacks |
| EnhancedComparisonEngine.MissingSets | fastapi-service/app/enhanced_comparison_engine.py:112-131 | the missing nodes of a type are the target's classified nodes of that type minus the player's |
| EnhancedComparisonEngine.ComparisonEngine.constructor | fastapi-service/app/enhanced_comparison_engine.py:32-59 | the tree tools exist exactly when advanced analysis is on and truthy tree data is given; the classifier's map is built from that data |
| EnhancedComparisonEngine.ComparisonEngine.PassivePass | fastapi-service/app/enhanced_comparison_engine.py:104-164 | lists exactly the missing keystones and notables; the path finder finds one valid suggestion per reachable candidate among the first 6 (keystones first), and the pass appends one HIGH record for each of the 3 best of them by (-priority, cost, -efficiency), so nothing when nothing is missing |
| EnhancedComparisonEngine.ComparisonEngine.SuggestedDifferences | fastapi-service/app/enhanced_comparison_engine.py:133-161 | the path finder's found suggestions target exactly the reachable candidates among the first 6 and are all valid; the records are those of their stable sort cut to 3, each a HIGH record for a missing keystone or notable |
| EnhancedComparisonEngine.ComparisonEngine.MissingNodes | fastapi-service/app/enhanced_comparison_engine.py:112-131 | lists exactly the missing keystones and the missing notables |
| EnhancedComparisonEngine.ComparisonEngine.EquipmentPass | fastapi-service/app/enhanced_comparison_engine.py:178-238 | appends exactly the slot differences of the given slots, in order |
| EnhancedComparisonEngine.ComparisonEngine.SlotPass | fastapi-service/app/enhanced_comparison_engine.py:189-238 | appends exactly one slot's differences |
| EnhancedComparisonEngine.ComparisonEngine.ModGapPass | fastapi-service/app/enhanced_comparison_engine.py:216-238 | appends the mods difference exactly when the target's mods mention keywords the player's do not |
| EnhancedComparisonEngine.ComparisonEngine.AddBaseRecords | fastapi-service/app/enhanced_comparison_engine.py:202-214 | appends one difference per base difference |
| EnhancedComparisonEngine.ComparisonEngine.GemPass | fastapi-service/app/enhanced_comparison_engine.py:240-336 | appends exactly the gem differences |
| EnhancedComparisonEngine.ComparisonEngine.AddUpgradeRecords | fastapi-service/app/enhanced_comparison_engine.py:302-315 | appends one difference per awakened upgrade |
| EnhancedComparisonEngine.ComparisonEngine.AddLinkRecord | fastapi-service/app/enhanced_comparison_engine.py:317-336 | appends the link difference exactly when the links fall short |
| EnhancedComparisonEngine.ComparisonEngine.AdvancedPasses | fastapi-service/app/enhanced_comparison_engine.py:87-95 | appends the passive records (none without tree tools; otherwise the records of the 3 best suggestions the path finder found for the missing nodes), then the equipment and gem differences |
| EnhancedComparisonEngine.ComparisonEngine.CompareCharacters | fastapi-service/app/enhanced_comparison_engine.py:61-102 | returns the base list unchanged when advanced analysis is off; otherwise a priority-sorted permutation of the base list plus the passive and gem differences, the passive part being the records of the 3 best suggestions the path finder found for the missing nodes |
| GemService.TableOf | fastapi-service/app/gem_service.py:53-61 | the gem table holds exactly the keys of the loaded entries |
| GemService.SupportNamesExact | fastapi-service/app/gem_service.py:58-75 | a name is in the support set exactly when it is the lower-cased display name of a support gem, or that name with " support" stripped |
| GemService.LookupLastWriterWins | fastapi-service/app/gem_service.py:58-75 | a name maps to the key of the last entry that contributes it |
| GemService.IndexEntries | fastapi-service/app/gem_service.py:53-77 | the index loop computes the support set and the name-to-key map, skipping empty display names |
| GemService.GemService.constructor | fastapi-service/app/gem_service.py:19-23 | a new service is empty and not loaded |
| GemService.GemService.LoadGemData | fastapi-service/app/gem_service.py:25-84 | loading again is a no-op that succeeds; a missing file fails and leaves the tables empty; otherwise the tables are built from the file |
| GemService.GemService.GetGemInfo | fastapi-service/app/gem_service.py:102-120 | returns a record exactly when the lower-cased name maps to a non-empty key present in the table, and then that key's record; None for an unknown name |
| GemService.GetGemInfoFindsNamedGem | fastapi-service/app/gem_service.py:102-120 | a record found by name is the gem of an entry that contributes that name |
| GemService.TableLookup | fastapi-service/app/gem_service.py:53-61 | with distinct keys, each entry's key finds its own gem |
| GemService.IsSupportGemIgnoresCase | fastapi-service/app/gem_service.py:86-100 | the support test ignores letter case |
| GemService.SupportCountExceedsSupportGems | fastapi-service/app/gem_service.py:66-75 | a single support gem whose name ends in " support" puts two names in the support set |
| ComparisonApi.CleanCode | fastapi-service/app/comparison_api_endpoints.py:66 | the cleaned code has no spaces, newlines or carriage returns |
| ComparisonApi.CleanCodeKeepsTheRest | fastapi-service/app/comparison_api_endpoints.py:66 | cleaning keeps every other character, in order |
| ComparisonApi.CleanIdempotent | fastapi-service/app/comparison_api_endpoints.py:66 | cleaning twice is cleaning once |
| ComparisonApi.Pad | fastapi-service/app/comparison_api_endpoints.py:69-71 | padding appends at most three "=" to reach a multiple of 4, and leaves such a length unchanged (section 4 of RFC 4648) |
| ComparisonApi.PadIdempotent | fastapi-service/app/comparison_api_endpoints.py:69-71 | padding twice is padding once |
| ComparisonApi.PreparedCode | fastapi-service/app/comparison_api_endpoints.py:66-71 | the prepared code has no whitespace and a length that is a multiple of 4 |
| ComparisonApi.PriorityCountsCoverAll | fastapi-service/app/comparison_api_endpoints.py:153-160 | the four priority counts sum to the number of differences |
| ComparisonApi.CategoryCountsExact | fastapi-service/app/comparison_api_endpoints.py:162-167 | the categories map has exactly the categories that occur, each with its occurrence count |
| ComparisonApi.CategoryKeysOccur | fastapi-service/app/comparison_api_endpoints.py:162-167 | a category is a key exactly when some difference has it |
| ComparisonApi.CategoryCountsSumToTotal | fastapi-service/app/comparison_api_endpoints.py:162-167 | the category counts sum to total_issues |
| ComparisonApi.GenerateComparisonSummary | fastapi-service/app/comparison_api_endpoints.py:141-172 | total_issues is the number of differences, each priority count is its filter count, and the categories map is the counting map |
| BuildDataTransformer.FrontSlotsAreFieldNames | vue-frontend/src/services/buildDataTransformer.js:51-88 | the front end's fifteen slots are the back end's field names, in order |
| BuildDataTransformer.EmptyItem | vue-frontend/src/services/buildDataTransformer.js:93-130 | an empty item has the slot, rarity NORMAL, no data, blank text, zero levels, no sockets or mods and no influence |
| BuildDataTransformer.TransformEquipmentItemAsWritten | vue-frontend/src/services/buildDataTransformer.js:131-179 | the item view as written has data and the item's slot |
| BuildDataTransformer.TransformEquipmentItem | vue-frontend/src/services/buildDataTransformer.js:131-179 | the view equals the written one except the socket summary, which takes total_sockets and max_links when truthy |
| BuildDataTransformer.BareItemShowsNothing | vue-frontend/src/services/buildDataTransformer.js:131-179 | an item with only a slot is viewed as an empty item that has data |
| BuildDataTransformer.SocketTotalOfJson | vue-frontend/src/services/buildDataTransformer.js:131-179 | the socket total computed from the JSON socket groups equals the back end's total_sockets |
| BuildDataTransformer.MaxLinksOfJson | vue-frontend/src/services/buildDataTransformer.js:131-179 | the max links computed from the JSON socket groups equals the back end's max_links |
| BuildDataTransformer.SocketSummaryLostAsWritten | vue-frontend/src/services/buildDataTransformer.js:141-145 | for any back-end item the written view shows 0 total sockets and 0 max links |
| BuildDataTransformer.SocketSummaryLostExample | vue-frontend/src/services/buildDataTransformer.js:141-145 | a fully linked three-socket body armour is shown with 0 sockets |
| BuildDataTransformer.BackendItemView | vue-frontend/src/services/buildDataTransformer.js:131-179 | a back-end item is viewed with its own fields, mods, flags and socket summary |
| BuildDataTransformer.SlotView | vue-frontend/src/services/buildDataTransformer.js:51-75 | a slot has data exactly when the snapshot's entry is truthy, and is then the corrected item view; otherwise it is the empty item |
| BuildDataTransformer.GetEmptyEquipmentStructure | vue-frontend/src/services/buildDataTransformer.js:76-92 | the empty structure has exactly the fifteen slots, each an empty item |
| BuildDataTransformer.TransformEquipmentSnapshot | vue-frontend/src/services/buildDataTransformer.js:51-75 | the view has exactly the fifteen slots, each the slot view with the corrected socket summary; a null snapshot gives all empty slots |
| BuildDataTransformer.ViewSlots | vue-frontend/src/services/buildDataTransformer.js:61-73 | the slot loop fills exactly the given slots with their views, using the corrected item view |
| BuildDataTransformer.BackendSnapshotView | vue-frontend/src/services/buildDataTransformer.js:51-75 | with the corrected item view, a back-end slot shows data exactly when it holds an item, and then shows that item, socket summary included |
| BuildDataTransformer.BackendSnapshotViewAsWritten | vue-frontend/src/services/buildDataTransformer.js:141-145 | as written, every back-end slot holding an item shows 0 sockets and 0 links |
| BuildDataTransformer.MainGemChoice | vue-frontend/src/services/buildDataTransformer.js:197-225 | the main gem is the first non-support gem named main_skill, enabled or not; otherwise the first enabled non-support gem; otherwise none |
| BuildDataTransformer.Names | vue-frontend/src/services/buildDataTransformer.js:226-232 | the names of the gems, in order |
| BuildDataTransformer.TransformSkillGroup | vue-frontend/src/services/buildDataTransformer.js:197-266 | all_gems views every gem including disabled ones; support_gems are the enabled supports in order; the main skill is shown exactly when a main gem was chosen |
| BuildDataTransformer.GemJsonFlags | vue-frontend/src/services/buildDataTransformer.js:226-266 | the front end's enabled-support and active tests on a back-end gem agree with the back end's flags |
| BuildDataTransformer.BackendSupportsAgree | vue-frontend/src/services/buildDataTransformer.js:226-232 | the front end's support names for a back-end group are the back end's support names |
| BuildDataTransformer.BackendMainSkillAgrees | vue-frontend/src/services/buildDataTransformer.js:197-225 | for a back-end group the front end shows the same main skill, or none when the back end has none |
| BuildDataTransformer.TransformSkillSetup | vue-frontend/src/services/buildDataTransformer.js:180-196 | a null setup gives no main group and no groups; otherwise one view per group, in order, and a main group exactly when one is given |
| BuildDataTransformer.BackendSetupView | vue-frontend/src/services/buildDataTransformer.js:180-196 | a back-end setup is viewed group by group, with a main group exactly when the back end has one |
| BuildDataTransformer.Round | vue-frontend/src/services/buildDataTransformer.js:329-341 | rounding lands within one half of the value |
| BuildDataTransformer.ConfigValueIsFirstHit | vue-frontend/src/services/buildDataTransformer.js:329-341 | the config value is the rounded value of the first key that parses, and none when no key does |
| BuildDataTransformer.ExtractConfigValue | vue-frontend/src/services/buildDataTransformer.js:329-341 | the key loop computes the config value |
| BuildDataTransformer.StatsOf | vue-frontend/src/services/buildDataTransformer.js:295-320 | resistances are fixed at 75/75/75/0; life and mana use the level as JavaScript arithmetic reads it, numeric strings converted |
| BuildDataTransformer.CalculateStatsFromPoB | vue-frontend/src/services/buildDataTransformer.js:295-320 | computes the stats record, numeric strings converted as JavaScript does |
| BuildDataTransformer.StatsFallbacks | vue-frontend/src/services/buildDataTransformer.js:295-320 | with no config hits, life is 38 + 12(level - 1), mana 300 + 8 level, and energy shield and DPS 0; level defaults to 90 |
| BuildDataTransformer.StringLevel | vue-frontend/src/services/buildDataTransformer.js:296-297 | a level given as a digit string reads as the integer it spells |
| BuildDataTransformer.StringLevelStats | vue-frontend/src/services/buildDataTransformer.js:296-308 | a level given as a digit string, as XML attributes are, is converted: without config hits life is 26 + 12·level and mana 300 + 8·level |
| Text.DigitStringsConvert | vue-frontend/src/services/buildDataTransformer.js:297 | JavaScript reads a digit string as the same integer that Python's int() reads |
| Text.NegativeDigitStringsConvert | vue-frontend/src/services/buildDataTransformer.js:297 | a minus sign in front of a digit string negates the value JavaScript reads |
| BuildDataTransformer.ConfigLifeWins | vue-frontend/src/services/buildDataTransformer.js:305-306 | a non-zero configured Life overrides the fallback |
| BuildDataTransformer.MissingKeys | vue-frontend/src/services/buildDataTransformer.js:352-365 | the missing keys are exactly the required keys whose value is not truthy |
| BuildDataTransformer.ValidateBuildData | vue-frontend/src/services/buildDataTransformer.js:352-365 | build data is valid iff stats, equipment, skills and passive_tree are all truthy |
| BuildDataTransformer.IsSupportGem | vue-frontend/src/services/buildDataTransformer.js:267-294 | a gem is a support iff its lower-cased name contains some lower-cased keyword |
| BuildDataTransformer.IsSupportGemIgnoresCase | vue-frontend/src/services/buildDataTransformer.js:267-294 | the support test ignores letter case |
| BuildDataTransformer.KeywordMakesSupport | vue-frontend/src/services/buildDataTransformer.js:267-294 | a name containing any keyword as written is a support |
| BuildDataTransformer.BackendKeywordsAreFrontKeywords | vue-frontend/src/services/buildDataTransformer.js:267-294 | every name the back end's keyword fallback calls a support, the front end also calls a support |
| BackendJson.ItemJsonFields | fastapi-service/app/character_models.py:221-269 | an item serialises every declared field, but not the total_sockets and max_links properties |
| BackendJson.SnapshotJsonSlot | fastapi-service/app/character_models.py:283-308 | a snapshot serialises each slot under its field name |
| Sorting.SortBySortsAndPermutes | fastapi-service/app/enhanced_comparison_engine.py:98 | the priority sort yields a sorted permutation of its input |
| Sorting.SortByStable | fastapi-service/app/passive_tree_service.py:218-219 | the sort keeps the input order of items with equal keys |
| Sorting.TakeSorted | fastapi-service/app/passive_tree_analyzer.py:414-421 | cutting a sorted list keeps it sorted |

## Left out

- HTTP routing and the endpoint functions are not part of this model, nor are the base64 and zlib decoding and the XML parser. The model starts from the element tree, and from the cleaned and padded code.
- The network fetch and the cache in `load_tree_data` are not modelled. The fetch result is a parameter of `TreeService.PassiveTreeService.LoadTreeData`.
- The JSON file read in `load_gem_data` is not modelled. The file's contents (or their absence) are a parameter.
- The base comparison engine is not part of this model. Its differences are an input of `CompareCharacters`. Its `_sort_by_priority` is modelled as a stable sort by priority rank (`Sorting.SortBy`).
- `_analyze_cluster_jewels` does nothing, so it is not modelled.
- The engine does not model the cluster, equipment, gem and link analysers as fields. They hold no state, so the engine calls the analyser functions directly. The support-multiplier table is the constant `SupportMultipliers`.
- `get_nodes_info`, `get_node_name` and `is_loaded` are one-line lookups over the modelled node map. `TreeService.InfosOf` covers the first; the other two are left out.
- `get_gem_service`, the module-level singleton, is left out.
- Logging, `console` output, message and instruction strings, `datetime.utcnow()`, `generateDataReport`, `transformPobDataToBuild`, `estimateDpsFromSkills` and `parseTreeUrl` are left out. Messages are modelled as tagged details.
- `lazy_load` only affects logging, so it is left out.
- EquipmentGemAnalyzer.TotalMultiplier: does not apply `round(total, 2)`; multipliers are exact reals.
- BuildDataTransformer.Round: stands for `Math.round`. `parseFloat` is a function parameter.
- EquipmentGemAnalyzer.CapitalisedWordsOfWord: the `\b[A-Z][a-z]+\b` tokeniser is modelled on ASCII letters only.
- Text.Lower: lower-cases ASCII letters only; there is no Unicode case folding.
- PassiveTreeAnalyzer.ListOfSet: `list(set(...))` has an unspecified order. Each result is stated for every order.
- The deque of `find_shortest_path` is a sequence with a head index. Popping from the front advances the index.
- The dictionary `.get` defaults of the analysers' input dictionaries are not modelled. Records with typed fields replace those dictionaries, and the engine always fills them.
- The unused tables `_build_mod_database` and `_build_base_type_database` are left out.
- `jewel_data` keys are modelled as `Option` values, with `None` for an absent key. An absent enchant or notable list reads as the empty list, as `.get(key, [])` gives. A key present with the value null is not modelled; for the notable list the source would then fail at `len`.
- PobXmlMapper.IntAttr: reads an attribute with an ASCII-only `int()`. Python also accepts `_` digit separators ("1_000") and non-ASCII Unicode digits; the model reads those as a ValueError and falls back to the default.
- IntAttr's callers read every integer attribute through it: node ids, level, quality and `mainSocketGroup`. A value with `_` separators or non-ASCII digits is therefore a ValueError in the model wherever Python would read it.
- PobXmlMapper.ExtractPassiveAllocation: reads `classId` with the ASCII-only `int()` (`ClassStartOf`). A class id such as "1_0" or in full-width digits fails the allocation, where Python reads 10.
- PobXmlMapper.ClassStartOf: the same ASCII-only `int()`.
- PobXmlMapper.ParseRarity: upper-cases with `Text.Upper`, which changes ASCII letters only. Python's `.upper()` also maps other letters, so "Rarity:unıque" is UNIQUE in Python and NORMAL in the model.
- PobXmlMapper.RarityFromLastLine: the same ASCII-only upper-casing.
- PobXmlMapper.ItemLevelFromLastLine: the level is read with the ASCII-only `int()`. "Item Level: 8_6" or full-width digits keep the previous level, where Python reads 86.
- PobXmlMapper.ItemLevelDefault: for the same reason, a level line only Python can parse still leaves 0.
- PobXmlMapper.ScanHeader: the header loop inherits both gaps, the ASCII-only upper-casing and the ASCII-only `int()`.
- PobXmlMapper.ParseItemTextHeader: the rarity and item level inherit the same two gaps.
- Text.Upper: upper-cases ASCII letters only; there is no Unicode case mapping.
- Text.ParseInt: accepts ASCII digits only, with no `_` separators.
- TreeService.InfoMapOfDomain: node ids of the tree data are read with the same ASCII-only `int()`, as in the analyser's map.
- PassiveTreeAnalyzer.NodeMapOfDomain: the node ids of the tree data are read with the same ASCII-only `int()`. A key written with `_` separators or Unicode digits is dropped, where Python would accept it.
- TreeService.PassiveTreeService.GetNodeInfo: the lazy `load_tree_data()` call on an unloaded service (fastapi-service/app/passive_tree_service.py:95-96) is not modelled. An unloaded service answers from its empty node map. Loading is the separate method `LoadTreeData`.
- TreeService.InfosOf: the same lazy load (fastapi-service/app/passive_tree_service.py:114-115) is not modelled.
- TreeService.PassiveTreeService.CalculatePath: the same lazy load (fastapi-service/app/passive_tree_service.py:167-168) is not modelled.
- TreeService.PassiveTreeService.SuggestOptimalPaths: the same lazy load (fastapi-service/app/passive_tree_service.py:201-202) is not modelled.
- GemService.GemService.GetGemInfo: the lazy `load_gem_data()` call on an unloaded service (fastapi-service/app/gem_service.py:112-113) is not modelled. An unloaded service answers from its empty table.
- GemService.GemService.IsSupportGem: the same lazy load (fastapi-service/app/gem_service.py:96-97) is not modelled.
- BuildDataTransformer.StatsOf: JavaScript's string-to-number conversion is modelled for decimal forms: blanks, an optional sign, digits and an optional fraction. Exponents, `0x`/`0o`/`0b` prefixes and `Infinity` read as NaN here, where JavaScript converts them.
- BuildDataTransformer.CalculateStatsFromPoB: the same limit on string conversion applies.
- BuildDataTransformer.SlotView: built on the corrected item view, which reads the socket summary from the socket groups. The view as written shows 0 sockets and 0 links for every back-end item (`BackendSnapshotViewAsWritten`, and the finding below).
- BuildDataTransformer.ViewSlots: the same corrected item view applies.
- BuildDataTransformer.TransformEquipmentSnapshot: the same corrected item view applies.
- BuildDataTransformer.BackendSnapshotView: states the view with the corrected item view. `BackendSnapshotViewAsWritten` states what the code as written shows.
- PobXmlMapper.Mapper.ExtractStandardizedCharacter: returns the standardized character with the capped core. As written, nine or more ascendancy-range nodes make the source raise a validation error (`AscendancyOverflowRejectsBuild`).
- Pydantic validation is modelled only for the ranges the core relies on: level, ascendancy points, gem level and quality. Other field validators are left out.

## Findings

| source | as written | input that shows it | evidently intended | confidence | as-written member | corrected member |
|---|---|---|---|---|---|---|
| fastapi-service/app/pob_xml_mapper.py:130-143 | ascendancy points are the raw count of allocated ids of 60000 or more, passed unchecked to a record that accepts at most 8 | a build with an ascendancy class whose Spec lists nine such ids (cluster-jewel nodes have ids in that range): the core fails validation and the whole import raises | cap the points at 8, so the build is imported as a complete ascendancy | not executed | PobXmlMapper.AscendancyOverflowRejectsBuild | PobXmlMapper.CoreFailsOnlyOnBuildOrLevel |
| vue-frontend/src/services/buildDataTransformer.js:141-145 | the socket summary reads `total_sockets` and `max_links` from the item JSON, but the back end serialises only declared fields and these are properties | a body armour with one linked group of three sockets: the view shows 0 sockets and 0 links | compute the summary from the socket groups, or have the back end serialise it | not executed | BuildDataTransformer.SocketSummaryLostAsWritten | BuildDataTransformer.BackendItemView |
