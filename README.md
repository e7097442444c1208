# Wilder Wild data fixer

Wilder Wild is a Minecraft mod. Worlds saved by older releases of the mod contain
blocks, items, block entities, entities and biomes under identifiers that
later releases renamed or whose block-state properties changed shape. The mod's
data fixer (`WWDataFixer`) declares:

- the type templates for its block entities and entities, so that the fixing
  library knows which of their fields hold item stacks or mob equipment;
- its data version, 18;
- a chain of schemas 0 to 18 (there is no 12) with the fixers bound to each.
  When a record stamped with an older version is loaded, every fixer above its
  stamp runs, in registration order, and the record is restamped 18.

This project models that chain and proves what loading through it does.

- `ids.dfy`: namespaced identifiers: `wilderwild:`, `minecraft:`, and any other mod's namespace found in the same saved data.
- `fixes.dfy`: saved records (kind, identifier, properties) and the four kinds of fix the mod registers:
  - an exact-id rename for one record kind;
  - a biome rename map;
  - the block-state property rename;
  - the opaque state rewrites.
- `chains.dfy`: schemas, fixers bound to a schema version, well-formed chains, and the driver.
  - `Run` applies, in registration order, every fixer with `stamp < version <= target`.
  - `Update` loads one record: it upgrades it, keeps it, or refuses a newer one.
- `builder.dfy`: the builder the registration code feeds.
  - `addSchema` must go strictly upward.
  - `addFixer` needs a registered schema.
  - `build` needs the data version to be the last schema's.
- `stages.dfy`: the chain as a list of stages, one per `addSchema` call, each with the fixes registered against it.
  - `Replay` feeds a builder with the stages in call order and proves the build succeeds with exactly that chain.
  - Lemmas relate the flat run of fixers to a stage-by-stage run.
- `templates.dfy`: the schema registry the template callbacks fill.
- `ww_data_fixer.dfy`: the mod's own data:
  - the two template callbacks;
  - `DATA_VERSION`;
  - the eighteen stages;
  - `ApplyDataFixes`.
- `ww_properties.dfy`: what loading through the mod's chain does to particular records.

Each fixer is bound to the schema it produces. A fixer of version V therefore runs on a record stamped `s` when the upgrade goes to `t` and `s < V <= t`. The model runs the selected fixers in registration order. The mod registers its fixers in version order (`WWDataFixer.WWChainWellFormed`), so this is also their version order.

## Model

| member | source | states |
|---|---|---|
| Ids.ToStringInjective | src/main/java/net/frozenblock/wilderwild/datafix/wilderwild/WWDataFixer.java:195 | for namespaces without ':', two identifiers have the same `namespace:path` string exactly when they are equal, so the string-based block-entity renamer matches the same records as an identifier rename |
| Fixes.RenameKey | src/main/java/net/frozenblock/wilderwild/datafix/wilderwild/WWDataFixer.java:153 | the new key holds the old key's value, or the default when it was absent; the old key is gone; every other property is kept with its value |
| Fixes.ApplyFix | src/main/java/net/frozenblock/wilderwild/datafix/wilderwild/WWDataFixer.java:124-195 | a fix never changes a record's kind; a record it is about gets the rename's target, the biome map's value, the property rename or the state rewrite; a record it is not about is unchanged; renames keep the properties and property fixes keep the identifier |
| Fixes.RenameIdempotent | src/main/java/net/frozenblock/wilderwild/datafix/wilderwild/WWDataFixer.java:124-195 | an exact-id rename changes nothing when applied a second time |
| Fixes.RenameBiomesIdempotent | src/main/java/net/frozenblock/wilderwild/datafix/wilderwild/WWDataFixer.java:190 | a biome rename map whose targets are not themselves keys changes nothing when applied a second time |
| Fixes.StateKeyRenameRerunResetsValue | src/main/java/net/frozenblock/wilderwild/datafix/wilderwild/WWDataFixer.java:153 | the light-key rename is not idempotent: rerun on a fixed lantern with `display_light` 7, it resets the value to the default "0" |
| Chains.Run | src/main/java/net/frozenblock/wilderwild/datafix/wilderwild/WWDataFixer.java:197 | the upgrade driver keeps a record's kind, and a window that selects no fixer leaves the record unchanged |
| Chains.Selected | src/main/java/net/frozenblock/wilderwild/datafix/wilderwild/WWDataFixer.java:197 | the fixers of an upgrade are exactly those whose version lies in (stamp, target]; version order carries over to them |
| Chains.SelectedConcat | src/main/java/net/frozenblock/wilderwild/datafix/wilderwild/WWDataFixer.java:197 | selecting from two lists one after the other is selecting from each and concatenating, so selection keeps registration order, including among fixers of one version |
| Chains.SelectedSingle | src/main/java/net/frozenblock/wilderwild/datafix/wilderwild/WWDataFixer.java:197 | a single fixer is selected exactly when its version lies in (stamp, target] |
| Chains.RunIsApplyAllOfSelected | src/main/java/net/frozenblock/wilderwild/datafix/wilderwild/WWDataFixer.java:197 | the driver equals selecting the window's fixers and applying all of them in registration order |
| Chains.RunConcat | src/main/java/net/frozenblock/wilderwild/datafix/wilderwild/WWDataFixer.java:197 | running two registered lists one after the other is running their concatenation |
| Chains.RunIdle | src/main/java/net/frozenblock/wilderwild/datafix/wilderwild/WWDataFixer.java:197 | a record no fixer of the window is about passes through unchanged |
| Chains.RunSkipTo | src/main/java/net/frozenblock/wilderwild/datafix/wilderwild/WWDataFixer.java:197 | fixers before the first one that acts on the record can be skipped |
| Chains.RunSameWindow | src/main/java/net/frozenblock/wilderwild/datafix/wilderwild/WWDataFixer.java:197 | two windows that select the same fixers give the same result |
| Chains.RunEmptyWindow | src/main/java/net/frozenblock/wilderwild/datafix/wilderwild/WWDataFixer.java:197 | a record already at or above the target receives no fixer |
| Chains.RunAdditive | src/main/java/net/frozenblock/wilderwild/datafix/wilderwild/WWDataFixer.java:197 | with fixers in version order, upgrading from a to c equals upgrading from a to b and then from b to c |
| Chains.EffectiveVersion | src/main/java/net/frozenblock/wilderwild/datafix/wilderwild/WWDataFixer.java:121 | a stamped record's version is its stamp; an unstamped one counts as the oldest registered schema, at or below every schema and the data version |
| Chains.Update | src/main/java/net/frozenblock/wilderwild/datafix/wilderwild/WWDataFixer.java:197 | loading fails exactly for a newer record under the refusing policy; a record at or above the data version comes back as it is; an older one comes back as the run of every fixer in (stamp, data version], stamped with the data version |
| Chains.UpdateThenReload | src/main/java/net/frozenblock/wilderwild/datafix/wilderwild/WWDataFixer.java:197 | a loaded record saved with its new stamp is left alone by the next load |
| Chains.UnstampedIsOldest | src/main/java/net/frozenblock/wilderwild/datafix/wilderwild/WWDataFixer.java:121 | an unstamped record migrates as one stamped with the base schema's version, and always loads |
| FixerBuilders.FixerBuilder.constructor | src/main/java/net/frozenblock/wilderwild/datafix/wilderwild/WWDataFixer.java:120 | a new builder records the declared data version and holds no schemas and no fixers |
| FixerBuilders.FixerBuilder.AddSchema | src/main/java/net/frozenblock/wilderwild/datafix/wilderwild/WWDataFixer.java:121-123 | a schema is appended exactly when its version exceeds the last one; otherwise the error names a duplicate or an out-of-order version and nothing changes |
| FixerBuilders.FixerBuilder.AddFixer | src/main/java/net/frozenblock/wilderwild/datafix/wilderwild/WWDataFixer.java:124 | a fixer is appended, bound to its schema's version, exactly when that schema was registered; otherwise nothing changes |
| FixerBuilders.FixerBuilder.Build | src/main/java/net/frozenblock/wilderwild/datafix/wilderwild/WWDataFixer.java:197 | building succeeds exactly when the last schema's version is the declared data version; the chain built is well formed |
| Stages.FixersOfRegistered | src/main/java/net/frozenblock/wilderwild/datafix/wilderwild/WWDataFixer.java:121-195 | every fixer of a list of stages is bound to a schema of those stages |
| Stages.FixersOfInVersionOrder | src/main/java/net/frozenblock/wilderwild/datafix/wilderwild/WWDataFixer.java:121-195 | when the stages' schemas ascend, their fixers come in version order |
| Stages.RunBound | src/main/java/net/frozenblock/wilderwild/datafix/wilderwild/WWDataFixer.java:121-195 | the fixers of one stage run all together or not at all, depending on whether the stage's version is in the window |
| Stages.RunIsRunStages | src/main/java/net/frozenblock/wilderwild/datafix/wilderwild/WWDataFixer.java:121-195 | the driver over the flat list of fixers equals the stage-by-stage upgrade |
| Stages.RunStagesOnlyAt | src/main/java/net/frozenblock/wilderwild/datafix/wilderwild/WWDataFixer.java:121-195 | when only one stage changes the record, the upgrade yields that stage's result |
| Stages.Replay | src/main/java/net/frozenblock/wilderwild/datafix/wilderwild/WWDataFixer.java:120-197 | adding each stage's schema and then its fixers, in call order, builds exactly the chain of those stages |
| TypeTemplates.SchemaRegistry.Register | src/main/java/net/frozenblock/wilderwild/datafix/wilderwild/WWDataFixer.java:46-49 | registering a type maps its identifier to its template and leaves the other entries alone |
| TypeTemplates.RegisterAllContents | src/main/java/net/frozenblock/wilderwild/datafix/wilderwild/WWDataFixer.java:45-70 | after registering a table with distinct identifiers, the registry holds the old types plus the table's, each table id with its template |
| WWDataFixer.RegisterTypes | src/main/java/net/frozenblock/wilderwild/datafix/wilderwild/WWDataFixer.java:45-70 | registering a table entry by entry leaves the registry as registering the whole table |
| WWDataFixer.OnRegisterBlockEntities | src/main/java/net/frozenblock/wilderwild/datafix/wilderwild/WWDataFixer.java:45-70 | the callback registers the six block-entity types in order |
| WWDataFixer.OnRegisterEntities | src/main/java/net/frozenblock/wilderwild/datafix/wilderwild/WWDataFixer.java:72-114 | the callback registers the ten entity types in order |
| WWDataFixer.BlockEntityTypesDistinct | src/main/java/net/frozenblock/wilderwild/datafix/wilderwild/WWDataFixer.java:45-70 | no block-entity identifier is registered twice |
| WWDataFixer.EntityTypesDistinct | src/main/java/net/frozenblock/wilderwild/datafix/wilderwild/WWDataFixer.java:72-114 | no entity identifier is registered twice |
| WWDataFixer.BlockEntityTemplates | src/main/java/net/frozenblock/wilderwild/datafix/wilderwild/WWDataFixer.java:45-70 | after the callback, display_lantern and stone_chest have an item-list field, the other four are remainders, and no other type is added |
| WWDataFixer.EntityTemplates | src/main/java/net/frozenblock/wilderwild/datafix/wilderwild/WWDataFixer.java:72-114 | after the callback, the tumbleweed has one item stack plus equipment; jellyfish, ostrich, crab, firefly and scorched have equipment; ancient_horn_vibration, coconut, chest_bubbler and sculk_spreader are remainders; no other type is added |
| WWDataFixer.OnlyTumbleweedHoldsItems | src/main/java/net/frozenblock/wilderwild/datafix/wilderwild/WWDataFixer.java:90-93 | of the mod's entities, the tumbleweed is the only one with an item field |
| WWDataFixer.WWSchemasAscending | src/main/java/net/frozenblock/wilderwild/datafix/wilderwild/WWDataFixer.java:116-192 | schema versions strictly increase, version 12 is not registered, and the last schema is version 18, the data version |
| WWDataFixer.WWChainWellFormed | src/main/java/net/frozenblock/wilderwild/datafix/wilderwild/WWDataFixer.java:118-197 | the mod's chain is well formed and its fixers are in version order |
| WWDataFixer.ApplyDataFixes | src/main/java/net/frozenblock/wilderwild/datafix/wilderwild/WWDataFixer.java:118-199 | the registration code builds successfully, and the result is the mod's chain, each fixer bound to the schema created just before it |
| WWDataFixerProperties.LoadRunsFixers | src/main/java/net/frozenblock/wilderwild/datafix/wilderwild/WWDataFixer.java:116-120 | a record stamped below 18 is run through every fixer above its stamp and restamped 18 |
| WWDataFixerProperties.CurrentStampUntouched | src/main/java/net/frozenblock/wilderwild/datafix/wilderwild/WWDataFixer.java:116 | a record stamped 18 receives no fixer |
| WWDataFixerProperties.FutureStamp | src/main/java/net/frozenblock/wilderwild/datafix/wilderwild/WWDataFixer.java:116 | a record stamped above 18 is kept as it is, or refused with a downgrade error naming both versions |
| WWDataFixerProperties.DandelionChain | src/main/java/net/frozenblock/wilderwild/datafix/wilderwild/WWDataFixer.java:123-129 | a white_dandelion stamped 0 becomes seeding_dandelion with its properties, through both renames |
| WWDataFixerProperties.BloomingDandelionChain | src/main/java/net/frozenblock/wilderwild/datafix/wilderwild/WWDataFixer.java:127-129 | a blooming_dandelion stamped 1 becomes seeding_dandelion |
| WWDataFixerProperties.PottedDandelionChain | src/main/java/net/frozenblock/wilderwild/datafix/wilderwild/WWDataFixer.java:123-129 | a potted_white_dandelion stamped 0 becomes potted_seeding_dandelion |
| WWDataFixerProperties.TestOneToNullBlock | src/main/java/net/frozenblock/wilderwild/datafix/wilderwild/WWDataFixer.java:135-136 | test_1 loaded from any version before 4 becomes null_block |
| WWDataFixerProperties.SculkEchoerToNullBlock | src/main/java/net/frozenblock/wilderwild/datafix/wilderwild/WWDataFixer.java:138-140 | sculk_echoer loaded from any version before 5 becomes null_block |
| WWDataFixerProperties.SculkJawToNullBlock | src/main/java/net/frozenblock/wilderwild/datafix/wilderwild/WWDataFixer.java:138-140 | sculk_jaw loaded from any version before 5 becomes null_block |
| WWDataFixerProperties.BaobabSaplingToBaobabNut | src/main/java/net/frozenblock/wilderwild/datafix/wilderwild/WWDataFixer.java:142-144 | baobab_sapling loaded from any version before 6 becomes baobab_nut |
| WWDataFixerProperties.BaobabNutSaplingToBaobabNut | src/main/java/net/frozenblock/wilderwild/datafix/wilderwild/WWDataFixer.java:142-144 | baobab_nut_sapling loaded from any version before 6 also becomes baobab_nut |
| WWDataFixerProperties.OtherBiomesPassThrough | src/main/java/net/frozenblock/wilderwild/datafix/wilderwild/WWDataFixer.java:189-190 | every biome other than magma_caves, in any namespace (the mod's, the game's or another mod's), loads unchanged, whatever its stamp and target |
| WWDataFixerProperties.MagmaCavesToMagmaticCaves | src/main/java/net/frozenblock/wilderwild/datafix/wilderwild/WWDataFixer.java:189-190 | magma_caves stamped below 17 loads as magmatic_caves |
| WWDataFixerProperties.DrySandBlockLoad | src/main/java/net/frozenblock/wilderwild/datafix/wilderwild/WWDataFixer.java:167-179 | a dry_sand block stamped 10 loads as scorched_sand whose state went through the dry-sand fix before and after the rename, and then the version-14 fix; the proof composes the upgrade to 11 with the one from 11 |
| WWDataFixerProperties.DrySandToVersion11 | src/main/java/net/frozenblock/wilderwild/datafix/wilderwild/WWDataFixer.java:167-171 | the upgrade from 10 to 11 alone renames dry_sand and applies the dry-sand state fix twice, the second time under the new name |
| WWDataFixerProperties.ScorchedSandFrom11 | src/main/java/net/frozenblock/wilderwild/datafix/wilderwild/WWDataFixer.java:177-178 | scorched_sand stamped 11 goes through the version-14 state fix and no other fixer |
| WWDataFixerProperties.DrySandItemLoad | src/main/java/net/frozenblock/wilderwild/datafix/wilderwild/WWDataFixer.java:167-171 | the dry_sand item stamped 10 becomes the scorched_sand item with its fields unchanged |
| WWDataFixerProperties.FireflyLanternLoad | src/main/java/net/frozenblock/wilderwild/datafix/wilderwild/WWDataFixer.java:147-153 | a firefly_lantern stamped 6 becomes display_lantern with `light` moved to `display_light` ("0" if absent) |
| WWDataFixerProperties.FireflyLanternToVersion7 | src/main/java/net/frozenblock/wilderwild/datafix/wilderwild/WWDataFixer.java:147-148 | the upgrade from 6 to 7 alone renames firefly_lantern to display_lantern and keeps its state |
| WWDataFixerProperties.DisplayLanternLoad | src/main/java/net/frozenblock/wilderwild/datafix/wilderwild/WWDataFixer.java:152-153 | a display_lantern stamped 7 has `light` moved to `display_light` ("0" if absent) |
| WWDataFixerProperties.Version8OnlyDisplayLantern | src/main/java/net/frozenblock/wilderwild/datafix/wilderwild/WWDataFixer.java:152-153 | the version-8 stage changes display_lantern block states, only when 8 is in the window, and nothing else |
| WWDataFixerProperties.StoneChestToMetalChest | src/main/java/net/frozenblock/wilderwild/datafix/wilderwild/WWDataFixer.java:192-195 | the stone_chest block state, item and block entity stamped 17 all load as metal_chest with their properties |
| WWDataFixerProperties.ForeignPassThrough | src/main/java/net/frozenblock/wilderwild/datafix/wilderwild/WWDataFixer.java:121-195 | a record whose identifier is not in the `wilderwild` namespace, the game's or another mod's, is never changed by the mod's fixers, whatever the window |

## Left out

- Fixer names: the string given with each fix is only a label, so fixers are not named in the model.
- Logging: the messages at the start and end of the registration are not modelled.
- Mod registration: handing the built fixer to the mod loader for the mod container is reduced to `Build` and the driver `Run`/`Update`.
- Schema contents: the vanilla base schema, `NamespacedSchema` and `WWV18` define type universes. The model keeps only a tag for which factory built each schema.
- Type templates: the library's template DSL is reduced to whether a type has an item field, a list of items and mob equipment. The templates' references to the schema are not modelled.
- Nested data: the library's traversal of nested values is not modelled. A record is a flat value, with a kind, an identifier and properties, and the fixes act on it directly. Examples of nested values are a block state inside a chunk or an item inside a chest.
- State-fix bodies: `NematocystStateFix`, `DrySandStateFix`, `ScorchedSandStateFix2` and `OsseousSculkStateFix` are not part of this model. Their effect on a block's properties is a parameter (`Rewriter`), and every lemma holds for any such parameter.
- Block-entity renamer: line 195 builds its renamer from identifier strings. The model renames by identifier, which matches the same records (`Ids.ToStringInjective`).
- Namespace syntax: another mod's namespace is any string without ':' other than `wilderwild` and `minecraft`. The game's character set for namespaces is not enforced.
- Identifier normalisation: identifiers in saved data are taken to be already namespaced. Adding a missing `minecraft:` prefix is not modelled.
- Newer stamps: what the library does with a record stamped above the data version is not part of this model. It is a `FuturePolicy` parameter: keep the record, or refuse it.
- Unstamped records: a record without a stamp is treated as written against the base schema (version 0).
- Integer width: versions are `nat`; the source's `int` versions are small, so no overflow arises.
- Renames without their own lemma: floating_moss (version 3), potted_baobab_sapling (6), mesoglea (7), palm_sapling (10), palm_leaves (13), the music discs and the horn projectile (16) are in the chain. So are the nematocyst (9), scorched_red_sand (14) and osseous sculk (15) state fixes. No lemma follows a record through the whole chain for these. Their single-step effect is stated by `Fixes.ApplyFix`, and the general lemmas cover registration, version order and pass-through.
- Builder checks: the builder is library code, not part of this source. The model chooses to refuse a duplicate or out-of-order schema version, a fixer for an unregistered schema, and a declared data version that is not the last schema's. The mod's registration code never triggers these refusals (`Stages.Replay`).
- Type history: the model does not check that a renamed type existed in the previous schema, because schema contents are not modelled.
- Fixer failures: a fix that fails on a record is not modelled. Every fix here is total, and so is the state-rewrite parameter.
