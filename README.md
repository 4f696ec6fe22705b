# PF2e system: skill progression, two rule elements and migration 0.611, in Dafny

This project models four pieces of sequential logic from the Pathfinder
Second Edition game system for the Foundry virtual tabletop, apart from the
host application they run in, and proves their properties.

- **Skill proficiency matrix** (`SkillMatrix`, `skill_matrix.dfy`). Levels 0
  to 20 are walked in order. For every skill, the rank after a level (0 to 4)
  comes from the rank before it and the level's training and increase lists.
  The model also computes whether the skill could be trained or increased at
  that level. Each level also gets a summary of the training and increases
  it allows and how many of them are left. Both folds are methods with loops
  (`ComputeSkillData`, `GetData`). They are proved against the specification
  functions `RankAt`, `SkillDataAt` and `TrainingDataAt`, and lemmas about
  those functions prove the properties.
- **Crafting-entry rule element** (`CraftingEntry`, `crafting_entry.dfy`). It
  is a class with the element's fields. Its lifecycle hooks are methods that
  write into the shared actor-update accumulator (a class holding a `map`)
  or into the actor's roll options.
- **Description-adjustment rule element** (`AdjustDescription`,
  `adjust_description.dfy`). Before data preparation, the owning item's
  description is overwritten with the resolved value or has it appended.
- **Migration 0.611** (`Migration611`, `migration611.dfy`). On a character,
  feats with three slugs are swapped in place in the item array for the
  compendium feat. The misspelled slug is normalised first. A missing
  compendium feat stops the migration with an error.

`js_values.dfy` models the untyped JSON-like values the rule elements read,
with JavaScript truthiness and `String(...)`. `wrappers.dfy` holds `Option`
and `Outcome`.

Host machinery is passed in as parameters and not implemented:
- the outcome of the base class's `test()`, as a `bool`;
- `resolveValue`, as `Value -> Value`;
- `sluggify`, as `string -> string`;
- `PredicatePF2e.validate`, as `Value -> bool`;
- the loaded feats compendium, as a `seq<Item>`.

## Model

| member | source | states |
|---|---|---|
| `SkillMatrix.NextRank` | src/module/actor/sheet/popups/skill-matrix.ts:75-79 | the new rank is the previous rank or one more, and never exceeds 4 when the previous rank did not |
| `SkillMatrix.RankAt` | src/module/actor/sheet/popups/skill-matrix.ts:63-79 | the rank of a skill after any level of the fold lies in 0..4 |
| `SkillMatrix.ComputeSkillData` | src/module/actor/sheet/popups/skill-matrix.ts:63-90 | the loop fills 21 rows of one entry per skill, each equal to its specification; ranks lie in 0..4, rise by at most one from row to row, and `canBeTrained` in a row holds exactly when the previous row's rank is 0 |
| `SkillMatrix.FillRows` | src/module/actor/sheet/popups/skill-matrix.ts:63-90 | the loop builds 21 rows, each equal to the specification row of its level |
| `SkillMatrix.NextRowMeetsSpecification` | src/module/actor/sheet/popups/skill-matrix.ts:63-90 | the row one loop iteration maps from the previous row is, skill by skill, the specification's entry for that level |
| `SkillMatrix.NextRow` | src/module/actor/sheet/popups/skill-matrix.ts:64-88 | the row has one entry per skill; each rank is the previous rank or one more, `canBeTrained` holds exactly at previous rank 0, and `trained`/`increased` record whether the skill is in that level's lists |
| `SkillMatrix.CanBeIncreased` | src/module/actor/sheet/popups/skill-matrix.ts:68-74 | never true at rank 4, always true at rank 0, and from level 15 on true at every rank below 4 |
| `SkillMatrix.MatrixSteps` | src/module/actor/sheet/popups/skill-matrix.ts:67-84 | in any table meeting the specification, each rank is `RankAt`, consecutive rows never fall and rise by at most one, and `canBeTrained` follows the previous row's rank 0 |
| `SkillMatrix.GetData` | src/module/actor/sheet/popups/skill-matrix.ts:92-102 | one summary per level 0..20; remaining training (increases) plus the length of that level's list, or zero when absent, equals the allowance; `eligible` holds exactly when either allowance is positive; the skills are that level's row |
| `SkillMatrix.LevelZeroStartsUntrained` | src/module/actor/sheet/popups/skill-matrix.ts:67-79 | at level 0 the previous rank is 0, so the skill can be trained and increased, and its rank is 1 if listed in either list and 0 otherwise |
| `SkillMatrix.RankStepsByAtMostOne` | src/module/actor/sheet/popups/skill-matrix.ts:75-79 | from one level to the next a rank never falls and rises by at most one |
| `SkillMatrix.RankRisesIff` | src/module/actor/sheet/popups/skill-matrix.ts:75-79 | a rank rises at a level if and only if the skill is trained from rank 0 or increased below rank 4; otherwise it stays |
| `SkillMatrix.TrainedAndIncreasedFromUntrained` | src/module/actor/sheet/popups/skill-matrix.ts:76-77 | trained and increased at the same level from rank 0 gives rank 1, not 2 |
| `SkillMatrix.TrainingOnlyFromUntrained` | src/module/actor/sheet/popups/skill-matrix.ts:76-84 | `canBeTrained` holds exactly when the previous rank is 0; training alone does not change a rank above 0 |
| `SkillMatrix.CanBeIncreasedIff` | src/module/actor/sheet/popups/skill-matrix.ts:68-74 | a skill can be increased exactly when its rank is below 4 and the level reaches the rank's threshold (0, 2, 7, 15); never at rank 4 |
| `SkillMatrix.CanBeIncreasedMonotone` | src/module/actor/sheet/popups/skill-matrix.ts:68-74 | at a fixed rank, being increasable at a level carries over to every later level |
| `SkillMatrix.RankMonotone` | src/module/actor/sheet/popups/skill-matrix.ts:75-79 | a rank never decreases over any span of levels |
| `SkillMatrix.LegendaryStaysLegendary` | src/module/actor/sheet/popups/skill-matrix.ts:77-78 | once 4, a rank stays 4 at every later level whatever the lists say |
| `SkillMatrix.RankAtMostLevelPlusOne` | src/module/actor/sheet/popups/skill-matrix.ts:61-79 | after level `l` the rank is at most `l + 1` |
| `SkillMatrix.UntrainedRankCountsIncreases` | src/module/actor/sheet/popups/skill-matrix.ts:65-79 | for a skill never trained, the rank equals the number of increases so far, capped at 4 |
| `CraftingEntry.SelectorOf` | src/module/rules/rule-element/crafting/entry.ts:27-32 | a selector is accepted exactly when it is a non-empty string, and is then that string |
| `CraftingEntry.CraftingEntryRuleElement.constructor` | src/module/rules/rule-element/crafting/entry.ts:19-33 | priority is 5 whatever the source says; the name is the source name, or the label when the name is falsy; an accepted selector is recorded, otherwise the selector is "" and the missing-selector failure is recorded |
| `CraftingEntry.CraftingEntryRuleElement.OnCreate` | src/module/rules/rule-element/crafting/entry.ts:35-53 | a failed test leaves the accumulator unchanged; a passed test adds or overwrites exactly the key `system.crafting.entries.<resolved selector>`, with a record that has no prepared formulas, the resolved selector, the element's name, the copied flags and limits, and the craftable-items predicate only when it validates (else `{}`) |
| `CraftingEntry.CraftingEntryRuleElement.OnApplyActiveEffects` | src/module/rules/rule-element/crafting/entry.ts:56-63 | the roll option `crafting:entry:<sluggify(selector)>` is set to true exactly when the test passes and the actor has an entry under the selector; otherwise the roll options are unchanged; nothing else on the actor is written |
| `CraftingEntry.CraftingEntryRuleElement.OnDelete` | src/module/rules/rule-element/crafting/entry.ts:65-67 | always writes `null` at `system.crafting.entries.-=<selector>` and no other key, with no test |
| `CraftingEntry.ElementName` | src/module/rules/rule-element/crafting/entry.ts:25 | the label when the source name is falsy; a non-empty string name is taken as it is |
| `CraftingEntry.ResolvedSelector` | src/module/rules/rule-element/crafting/entry.ts:38 | when the selector resolves to a string, that string is the selector used |
| `CraftingEntry.EntryKeyInjective` | src/module/rules/rule-element/crafting/entry.ts:52 | distinct resolved selectors write distinct accumulator keys |
| `CraftingEntry.DeletionKeyDiffers` | src/module/rules/rule-element/crafting/entry.ts:66 | the deletion key of a selector is never its entry key |
| `CraftingEntry.CreatedEntryAnnounced` | src/module/rules/rule-element/crafting/entry.ts:38-59 | a self-resolving selector is written at `system.crafting.entries.<selector>` |
| `JsValues.Truthy` | src/module/rules/rule-element/crafting/entry.ts:25 | arrays and objects are truthy; `null` and `undefined` are falsy |
| `JsValues.FalsyValues` | src/module/rules/rule-element/adjust-description.ts:9 | exactly `false`, `0`, `""`, `null` and `undefined` are falsy |
| `JsValues.ToString` | src/module/rules/rule-element/crafting/entry.ts:25 | `String` of a string is the string itself; of a number, a non-empty text starting with `-` exactly when it is negative; of an empty array, ""; of anything else that is not a string or array, a non-empty text |
| `JsValues.TextOrEmpty` | src/module/rules/rule-element/adjust-description.ts:9 | a falsy resolved value gives the empty text; a string gives itself |
| `AdjustDescription.AdjustedDescription` | src/module/rules/rule-element/adjust-description.ts:9-14 | with `replace`, the text of the resolved value ("" when falsy, the string itself for a string); without it, the old description followed by exactly that text |
| `AdjustDescription.AdjustDescriptionRuleElement.BeforePrepareData` | src/module/rules/rule-element/adjust-description.ts:8-15 | the description becomes the resolved text when `replace` is truthy and the old description followed by it otherwise; only the owning item's description is written |
| `AdjustDescription.ReplaceOverwrites` | src/module/rules/rule-element/adjust-description.ts:9-11 | replacing gives the string form of the resolved value, or "" when it is falsy, whatever the old description |
| `AdjustDescription.AppendExtends` | src/module/rules/rule-element/adjust-description.ts:12-13 | appending keeps the old description as a prefix followed by exactly the resolved text |
| `AdjustDescription.AppendFalsyUnchanged` | src/module/rules/rule-element/adjust-description.ts:9-13 | appending a falsy value leaves the description unchanged |
| `AdjustDescription.ReplaceIdempotent` | src/module/rules/rule-element/adjust-description.ts:10-11 | replacing twice with the same value gives the same description as once |
| `AdjustDescription.AppendRepeats` | src/module/rules/rule-element/adjust-description.ts:12-13 | appending twice adds the resolved text twice |
| `Migration611.Find` | src/module/migrations/611-update-toughness-mountains-stoutness.ts:30-33 | `find` returns the first compendium entry with the slug (no earlier entry has it), and finds nothing exactly when no entry has it |
| `Migration611.FirstEntryShadows` | src/module/migrations/611-update-toughness-mountains-stoutness.ts:30-36 | when the first entry with the slug is not a feat, `find` returns it and there is no compendium feat, even if a feat with that slug comes later |
| `Migration611.IsOldFeat` | src/module/migrations/611-update-toughness-mountains-stoutness.ts:21-24 | an item is selected exactly when it is a feat whose slug is one of the three old slugs |
| `Migration611.Normalised` | src/module/migrations/611-update-toughness-mountains-stoutness.ts:26-28 | the misspelled slug becomes `mountains-stoutness`; no other field changes and any other item is returned as it is; an old feat stays an old feat, under `toughness` or `mountains-stoutness` |
| `Migration611.CompendiumFeat` | src/module/migrations/611-update-toughness-mountains-stoutness.ts:30-36 | the entry `find` returns when it is a feat, and nothing exactly when `find` finds nothing or finds something that is not a feat |
| `Migration611.Replacement` | src/module/migrations/611-update-toughness-mountains-stoutness.ts:30-37 | a replacement exists exactly when the compendium feat does; it is a feat under the target slug carrying the old feat's location |
| `Migration611.Migrate` | src/module/migrations/611-update-toughness-mountains-stoutness.ts:21-39 | the item list's length is preserved whatever the outcome |
| `Migration611.UpdateActor` | src/module/migrations/611-update-toughness-mountains-stoutness.ts:18-41 | a non-character is left unchanged; on a character the array afterwards and the outcome are those of `Migrate` on the old array, including the partial rewrite left when it throws |
| `Migration611.MigrateAdvances` | src/module/migrations/611-update-toughness-mountains-stoutness.ts:37-39 | keeping or replacing the item at the loop index extends the migrated prefix by one |
| `Migration611.MigrateStops` | src/module/migrations/611-update-toughness-mountains-stoutness.ts:26-36 | throwing at an old feat leaves the migrated prefix, the normalised feat and the untouched rest |
| `Migration611.FailedAt` | src/module/migrations/611-update-toughness-mountains-stoutness.ts:34-36 | the array at the throw is the processed prefix, the current item and the untouched rest |
| `Migration611.TargetOfOldFeat` | src/module/migrations/611-update-toughness-mountains-stoutness.ts:26-33 | `toughness` is replaced by the Toughness feat; both stoutness spellings by Mountain's Stoutness |
| `Migration611.ReplacementIsCompendiumFeat` | src/module/migrations/611-update-toughness-mountains-stoutness.ts:30-37 | a replacement is a feat under the target slug, equal to a compendium entry except that it carries the old feat's location |
| `Migration611.MigrateFailsIff` | src/module/migrations/611-update-toughness-mountains-stoutness.ts:34-36 | the migration fails, with the compendium error, exactly when some old feat has no compendium feat to be replaced by |
| `Migration611.OtherItemsUnchanged` | src/module/migrations/611-update-toughness-mountains-stoutness.ts:21-24 | every item that is not a feat under one of the three slugs keeps its value and position, whatever the outcome |
| `Migration611.ReplaceOldFeat` | src/module/migrations/611-update-toughness-mountains-stoutness.ts:25-39 | an old feat whose replacement exists is overwritten at its own index by the compendium feat with its location; a missing one leaves the feat with its slug normalised and reports failure; other items are left alone, as is every other slot |
| `Migration611.OldFeatsReplaced` | src/module/migrations/611-update-toughness-mountains-stoutness.ts:21-39 | on success every old feat is replaced at its own index by its compendium feat, which carries that feat's own location |
| `Migration611.ReplacementIsStable` | src/module/migrations/611-update-toughness-mountains-stoutness.ts:21-37 | a replacement is itself selected by the filter and is replaced by itself |
| `Migration611.MigrateIdempotent` | src/module/migrations/611-update-toughness-mountains-stoutness.ts:18-39 | after a successful migration, migrating again succeeds and changes nothing |
| `Migration611.MigrateAsWritten` | src/module/migrations/611-update-toughness-mountains-stoutness.ts:30-39 | the item list as the code leaves it, where one compendium object is shared across slots; same length and outcome as `Migrate` |
| `Migration611.ProcessedReplaced` | src/module/migrations/611-update-toughness-mountains-stoutness.ts:25-39 | every old feat ahead of the position where the loop throws has a replacement, and the migration puts it in that feat's slot |
| `Migration611.SharedSlotsCoincide` | src/module/migrations/611-update-toughness-mountains-stoutness.ts:30-39 | as written, any two processed slots whose old feats are replaced from the same compendium feat hold the same item, location included |
| `Migration611.SharedFeatLosesLocation` | src/module/migrations/611-update-toughness-mountains-stoutness.ts:37-39 | with two Toughness feats in different slots, as written the first slot ends with the second slot's location, while `Migrate` keeps its own |

## Left out

- skill-matrix.ts outside the two folds is not modelled: the listeners, tooltips, `actor.update` on blur, `close`, the localised `rankLabel`, `console.log`, and the fields `actor`, `manual`, `skillAbr` of the returned data. These are rendering and host I/O.
- The list of skills (`SKILL_ABBREVIATIONS`) is a parameter. src/module/actor/values.ts, where it is defined, is not part of this model.
- Allowances and ranks are integers. The case of an allowance missing for a level (JavaScript `NaN`) is excluded by requiring an entry for every level, as the record's type does.
- The base class `RuleElementPF2e` is not part of this model. This covers `test()`, `resolveValue`, `failValidation`, how it derives the label and data, and its actor-type restriction (`validActorTypes`). `failValidation` is modelled only as recording its message. The model does not claim what the base class then does with the element.
- Which hooks a data-preparation pass runs, and in what priority order, is decided by a runner that is not in these files.
- Numbers are integers. JavaScript floating point, and so `String` of fractions, is not modelled.
- The feats compendium is an input sequence. Its asynchronous loading (`getDocuments`, `await`) is left out.
- Item data in the migration is reduced to identifier, type, slug and location.
- The sharing of one compendium object across slots (see Findings) is captured only by `Migration611.MigrateAsWritten`. `UpdateActor` carries out the intended behaviour. Sharing that object across different actors in one migration run is not modelled.
- The filter and the loop over the filtered feats are fused into one loop over the array. Nothing is lost: items ahead of the loop are untouched when it reaches them, and `indexOf` of a filtered feat is the index it had.
- `onDelete` makes no test and ignores the validation failure, so an element without a selector still writes `system.crafting.entries.-=`. The model does the same.
- `onApplyActiveEffects` looks the entry up under the unresolved selector, while `onCreate` writes it under the resolved one. The model keeps both as written.
- `CraftingEntry.CraftingEntryRuleElement.OnApplyActiveEffects`: the entry lookup is modelled as membership in a map. The code tests the truthiness of a property of a plain object, so a selector such as `constructor`, `toString` or `__proto__` finds an inherited `Object.prototype` member and sets its roll option although no such entry exists. Inherited object properties are not modelled.
- skill-builder.ts, lore-dialog.ts, crit-fumble-cards.ts and item/condition/data.ts are not modelled. They are host dialogs, chat hooks and type declarations.

## Findings

| source | as written | input that shows it | evidently intended | confidence | as-written member | corrected member |
|---|---|---|---|---|---|---|
| src/module/migrations/611-update-toughness-mountains-stoutness.ts:30-39 | `find` returns the same compendium document each time. The old location is written into that one document, and its data object itself is spliced in. So every slot replaced by the same compendium feat holds one shared object, with the location written last. | A character with Toughness in two slots (`general-3` and `skill-2`), or with both spellings of Mountain's Stoutness. | Each replacement keeps the location of the feat it replaced. | medium, not executed | `Migration611.MigrateAsWritten`, with `Migration611.SharedSlotsCoincide` for all inputs and the counterexample `Migration611.SharedFeatLosesLocation` | `Migration611.Migrate`, with `Migration611.OldFeatsReplaced` proving each replacement keeps its own location; `Migration611.UpdateActor` uses it |
