# FraymakersMetadata plugin core, in Dafny

This project models the logic of the FrayTools plugin "FraymakersMetadata". The plugin
attaches Fraymakers-specific metadata to the assets of a FrayTools project. The model
covers four parts of its core.

- **The metadata definition request** (`onMetadataDefinitionRequest`, module
  `MetadataDefinitions`). The plugin tells the editor which metadata fields each kind of
  owner gets: sprite entities, scripts, audio, nine-slices, palette maps, and, by the
  asset's `objectType`, collision-box, point, collision-body, line-segment and container
  layers and symbols. It also gives the dropdown options and the effects. An effect is a
  field default that the editor applies when its `dependsOn` conditions hold. Conditions
  and effects are plain data here: the plugin only builds them.
  - The list grows by pushes. It is modelled as a method proved equal to a specification
    function, `MetadataDefinitions`.
  - The two collision-body loops are methods with loop invariants.
  - The collision-box colour effects read the active colour preset of the configuration,
    or the defaults when there is none.
- **The asset metadata migration** (`onAssetMetadataMigrationRequest`, module
  `AssetMigration`). A document's own plugin block records the plugin version that last
  migrated it. Five version-gated steps clone old layers, keyframes and symbols into a
  change set. They drop `objectType`, drop the `index` of shadow light points, rename
  stage containers, turn `shadowLayerIndex` into `shadowLayerIds`, and turn holdboxes into
  grab hold points. The own block then ends at the manifest version.
  - The document is a class. Its `pluginMetadata` is changed in place when the own block
    exists, because the request edits that block through an alias.
  - The steps are methods, each proved equal to a step function. The loops over nodes are
    proved against list functions.
  - Every clone is built from the document's node, never from an earlier clone. So a
    shadow light point that both the index step and the shadow-id step select appears
    twice in `layers`, and the second copy still carries `index`
    (`ShadowLightPointClonedTwice`).
- **The configuration migration** (`migrationHandler` in `main.tsx`, module
  `ConfigMigration`). Three version-gated steps change the configuration record in place,
  then the manifest version is stamped. The two configuration callbacks
  (`onCollisionBodyLayerPresetsUpdated`, `onCollisionBoxLayerPresetsUpdated`) are in
  module `ConfigUpdates`.
- **The preset editors** (modules `BoxPresetsEditor`, `BodyPresetsEditor`, with the shared
  list operations in `PresetLists`). Each editor and each list item is a class whose
  fields are its component state. Add, remove and edit by id, and the active-preset
  selector, reassign those fields. A list item's `onEdit`/`onSave` form a small mode
  machine.

Supporting modules:

- `Json`: JavaScript values, with objects as ordered entry lists. A read gives the first
  entry. An assignment replaces the entry in place or appends one. `delete` drops the key.
- `Versions`: `MAJOR.MINOR.PATCH` versions, compared by precedence as in section 11 of
  Semantic Versioning 2.0.0 (numeric identifiers only). Their text form comes with a
  parse/print round trip.
- `Types`: the plugin's records.
- `Seqs` and `Wrappers`: general helpers.

A migration gate compares the stored version text. A text that is not a version the model
can read, or a value that is not text, satisfies no gate.

## Model

| member | source | states |
|---|---|---|
| MetadataDefinitions.OnMetadataDefinitionRequest | src/ts/FraymakersMetadata.tsx:57-964 | for a readable request (a `pluginMetadata` object, and readable colour presets when a game object's colours are built), the pushed list is exactly `MetadataDefinitions`: the fixed five, then, only when the own block is truthy, the definitions of each `objectType` test that succeeds |
| MetadataDefinitions.GameObjectLayers | src/ts/FraymakersMetadata.tsx:171-505 | the four game-object pushes, with the collision-body dropdown and effects built by their loops, equal `GameObjectDefinitions` |
| MetadataDefinitions.FixedDefinitionsComeFirst | src/ts/FraymakersMetadata.tsx:62-169 | every request starts with the sprite entity, script, audio, nine-slice and palette map definitions, in this order |
| MetadataDefinitions.AbsentBlockGivesFixedOnly | src/ts/FraymakersMetadata.tsx:170 | for a `pluginMetadata` object without a truthy own block, exactly the five fixed definitions are sent |
| MetadataDefinitions.OneBranchPushed | src/ts/FraymakersMetadata.tsx:171-962 | the separate `objectType` tests push at most one branch's definitions after what was already sent (the branches' conditions exclude each other) |
| MetadataDefinitions.OneBranchContributes | src/ts/FraymakersMetadata.tsx:170-962 | with an own block, the result is the fixed five followed by the one branch of the declared `objectType` |
| MetadataDefinitions.GameObjectOwnerOrder | src/ts/FraymakersMetadata.tsx:171-505 | CHARACTER, PROJECTILE, ASSIST, CUSTOM_GAME_OBJECT and ENTITY get exactly four more definitions: collision-box layer, point layer, collision-body layer, collision-body symbol |
| MetadataDefinitions.StageOwnerOrder | src/ts/FraymakersMetadata.tsx:507-891 | a stage gets its six definitions, with the owner lists in the order the plugin pushes them |
| MetadataDefinitions.CollisionBodyPresetDropdown | src/ts/FraymakersMetadata.tsx:480-491 | the ECB preset dropdown is `None` followed by one `{name, id}` choice per body preset, in list order |
| MetadataDefinitions.CollisionBodyLayerPresetOptions | src/ts/FraymakersMetadata.tsx:1238-1252 | the loop appends one choice per preset to the given options, in list order |
| MetadataDefinitions.PresetChoices | src/ts/FraymakersMetadata.tsx:1238-1252 | choice `i` shows preset `i`'s name and stores its id |
| MetadataDefinitions.CollisionBodyLayerPresetEffects | src/ts/FraymakersMetadata.tsx:1253-1258 | the loop appends every preset's effects, preset after preset, to the given effects |
| MetadataDefinitions.PresetEffects | src/ts/FraymakersMetadata.tsx:1253-1258 | there are five effects per preset |
| MetadataDefinitions.EffectsFromCollisionBodyLayerPreset | src/ts/FraymakersMetadata.tsx:1264-1278 | exactly five effects, each gated only by the dropdown choosing the preset's id, setting head, foot, hipWidth, hipXOffset and hipYOffset from the preset, in this order |
| MetadataDefinitions.PresetEffectsBlock | src/ts/FraymakersMetadata.tsx:1253-1278 | effects `5i` to `5i+4` are preset `i`'s five effects |
| MetadataDefinitions.PresetEffectsLayout | src/ts/FraymakersMetadata.tsx:1253-1278 | the same, for every preset at once |
| MetadataDefinitions.PresetEffectsGating | src/ts/FraymakersMetadata.tsx:1253-1278 | effect `k` is gated on the id of preset `k / 5` and sets output `k % 5` |
| MetadataDefinitions.CollisionBoxLayerPresetFor | src/ts/FraymakersMetadata.tsx:1279-1304 | exactly two effects, `defaultAlpha` then `defaultColor`, both gated only on `collisionBoxType = code`, with the preset's alpha and colour for that code |
| MetadataDefinitions.PresetEffectsFor | src/ts/FraymakersMetadata.tsx:227-236 | two effects per listed box type |
| MetadataDefinitions.PresetEffectsForPair | src/ts/FraymakersMetadata.tsx:227-236 | effects `2i` and `2i+1` are box type `i`'s colour pair |
| MetadataDefinitions.PresetEffectsForLayout | src/ts/FraymakersMetadata.tsx:227-236 | the same, for every box type at once |
| MetadataDefinitions.GameColorEffects | src/ts/FraymakersMetadata.tsx:173-237 | after its index effect, the game collision-box layer carries the colour pair of each of the ten box types, in `BOX_TYPES` order |
| MetadataDefinitions.ActivePresetColors | src/ts/FraymakersMetadata.tsx:1305-1311 | with an active id that a preset carries, alpha and colour come from the first preset with that id, and a leading `#` of the colour becomes `0x` |
| MetadataDefinitions.DefaultPresetColors | src/ts/FraymakersMetadata.tsx:1305-1311 | with no active id, or one no preset carries, the alpha is 0.5 and the colour is the default `#rrggbb` with `0x` in place of `#` |
| MetadataDefinitions.ActivePreset | src/ts/FraymakersMetadata.tsx:1306 | a found preset is in the list and carries the active id |
| MetadataDefinitions.HexColor | src/ts/FraymakersMetadata.tsx:1308 | a leading `#` becomes `0x`; any other text is unchanged; the result never starts with `#` |
| MetadataDefinitions.HexColorIdempotent | src/ts/FraymakersMetadata.tsx:1308 | converting twice is converting once |
| MetadataDefinitions.GameBoxTypeChoicesAreBoxTypes | src/ts/FraymakersMetadata.tsx:177-224 | the game collision-box type dropdown is `None` and then exactly the ten box types of the colour presets |
| MetadataDefinitions.BoxNamesUsePrefixes | src/ts/FraymakersMetadata.tsx:237-347 | each name effect is gated on one box type and names the layer by that type's style prefix followed by the index template |
| MetadataDefinitions.ObjectTypeChoices | src/ts/FraymakersMetadata.tsx:62-93 | the `objectType` dropdown offers every object type except `ENTITY` |
| MetadataDefinitions.ObjectTypeOptions | src/ts/FraymakersMetadata.tsx:70-83 | the `objectType` dropdown choices, `NONE` first |
| MetadataDefinitions.GameCollisionBoxTypeOptions | src/ts/FraymakersMetadata.tsx:181-193 | the collision-box type choices of a game object's collision-box layer |
| MetadataDefinitions.StagePointLayerDefinition | src/ts/FraymakersMetadata.tsx:609-725 | the point layer definition a stage gets |
| MetadataDefinitions.LineSegmentLayerDefinition | src/ts/FraymakersMetadata.tsx:727-740 | the line-segment layer definition a stage gets |
| MetadataDefinitions.ContainerLayerDefinition | src/ts/FraymakersMetadata.tsx:743-888 | the container layer definition a stage gets |
| MetadataDefinitions.CollisionBoxSymbolStructureDefinitions | src/ts/FraymakersMetadata.tsx:966-1000 | the collision-box symbol definitions a stage gets |
| MetadataDefinitions.LineSegmentSymbolStructureDefinitions | src/ts/FraymakersMetadata.tsx:1001-1165 | the line-segment symbol definitions a stage gets |
| MetadataDefinitions.RectCollisionAreaDropdownOptions | src/ts/FraymakersMetadata.tsx:1166-1170 | the rect collision area choices |
| MetadataDefinitions.RectStructureEffects | src/ts/FraymakersMetadata.tsx:1207-1232 | the rect structure effects |
| ConfigUpdates.OnCollisionBodyLayerPresetsUpdated | src/ts/FraymakersMetadata.tsx:1547-1552 | the synced config has the new body presets, and every other field is as before |
| ConfigUpdates.OnCollisionBoxLayerPresetsUpdated | src/ts/FraymakersMetadata.tsx:1554-1560 | the synced config has the new active id and box presets, and every other field is as before |
| ConfigUpdates.UpdatesCommute | src/ts/FraymakersMetadata.tsx:1547-1560 | the two callbacks edit disjoint fields, so their order does not matter |
| ConfigUpdates.LatestUpdateWins | src/ts/FraymakersMetadata.tsx:1547-1560 | the latest update of a field wins, and re-sending the current lists changes nothing |
| AssetMigration.AssetMetadataDocument.OnAssetMetadataMigrationRequest | src/ts/FraymakersMetadata.tsx:1312-1545 | for a document whose own block, when truthy, is an object and whose walked node lists are readable at the gates that walk them (`NodesReadable`), the migration sent back is `Migrate` of the document, and the document's `pluginMetadata` afterwards is `DocumentAfter` (changed only when the request edited its own block in place) |
| AssetMigration.MigrateTo0_0_8 | src/ts/FraymakersMetadata.tsx:1326-1351 | between 0.0.1 and 0.0.6, `spriteType` is deleted from the own block, clones of the symbols declaring an `objectType` are pushed without it, and the version is bumped to 0.0.8 |
| AssetMigration.MigrateTo0_0_10 | src/ts/FraymakersMetadata.tsx:1353-1374 | between 0.0.8 and 0.0.9, clones of shadow light points without `index`, then a bump to 0.0.10 |
| AssetMigration.MigrateTo0_0_14 | src/ts/FraymakersMetadata.tsx:1376-1421 | between 0.0.10 and 0.0.13, clones of the renamed stage containers, then a bump to 0.0.14 |
| AssetMigration.MigrateTo0_0_19 | src/ts/FraymakersMetadata.tsx:1423-1448 | up to 0.0.18, point clones with `shadowLayerIds` in place of `shadowLayerIndex`, then a bump to 0.0.19 |
| AssetMigration.MigrateTo0_0_22 | src/ts/FraymakersMetadata.tsx:1450-1531 | up to 0.0.21, the holdbox layer, keyframe and symbol clones, then a bump to 0.0.22 |
| AssetMigration.Step1 | src/ts/FraymakersMetadata.tsx:1326-1351 | the first step on the running block and change set |
| AssetMigration.Step2 | src/ts/FraymakersMetadata.tsx:1353-1374 | the shadow-index step |
| AssetMigration.Step3 | src/ts/FraymakersMetadata.tsx:1376-1421 | the container rename step |
| AssetMigration.Step4 | src/ts/FraymakersMetadata.tsx:1423-1448 | the shadow-id step |
| AssetMigration.Step5 | src/ts/FraymakersMetadata.tsx:1450-1531 | the holdbox step |
| AssetMigration.StartBlock | src/ts/FraymakersMetadata.tsx:1313-1318 | the own block the steps start from, with the manifest version injected when it has none |
| AssetMigration.Current | src/ts/FraymakersMetadata.tsx:1316-1324 | whether the request answers `null` |
| AssetMigration.Migrate | src/ts/FraymakersMetadata.tsx:1312-1545 | the migration the request sends back |
| AssetMigration.DocumentAfter | src/ts/FraymakersMetadata.tsx:1313-1545 | the document's `pluginMetadata` after the request |
| AssetMigration.NodesReadable | src/ts/FraymakersMetadata.tsx:1326-1531 | which node lists the gates of the starting version walk |
| AssetMigration.Selects | src/ts/FraymakersMetadata.tsx:1335-1505 | which nodes each step clones |
| AssetMigration.HoldboxName | src/ts/FraymakersMetadata.tsx:1458 | the `/^holdbox\d+/` name test |
| AssetMigration.HoldboxBlock | src/ts/FraymakersMetadata.tsx:1466-1470 | the holdbox layer's block with `collisionBoxType` swapped for `pointType` |
| AssetMigration.ShadowLayerIds | src/ts/FraymakersMetadata.tsx:1432 | the `shadowLayerIds` computed from `shadowLayerIndex` |
| AssetMigration.AtLeastZero | src/ts/FraymakersMetadata.tsx:1432 | JavaScript's `>= 0` of the index, for every value but text and arrays |
| AssetMigration.TemplateText | src/ts/FraymakersMetadata.tsx:1432 | the template text of the index, for every value but fractional or huge numbers, arrays and objects |
| AssetMigration.PlusHalf | src/ts/FraymakersMetadata.tsx:1511-1512 | `x + w / 2` for numbers |
| AssetMigration.CentredPoint | src/ts/FraymakersMetadata.tsx:1505-1521 | the point clone of a holdbox symbol |
| AssetMigration.CollectInto | src/ts/FraymakersMetadata.tsx:1333-1346 | the push loop leaves the list as it was extended by the clones of the selected nodes, in node order; the list comes into existence with its first clone |
| AssetMigration.HoldboxLayers | src/ts/FraymakersMetadata.tsx:1456-1485 | the holdbox layer loop pushes the grab-hold-point clones and indexes exactly the keyframe ids of the holdbox layers |
| AssetMigration.HoldboxKeyframes | src/ts/FraymakersMetadata.tsx:1486-1502 | the keyframe loop pushes the point clones of the indexed collision-box keyframes and indexes exactly the symbols they show |
| AssetMigration.IndexIds | src/ts/FraymakersMetadata.tsx:1477-1479 | writing an id into the map for each listed item leaves as keys the old keys plus exactly the listed ids |
| AssetMigration.Collect | src/ts/FraymakersMetadata.tsx:1333-1526 | one clone at most per node |
| AssetMigration.CollectMembers | src/ts/FraymakersMetadata.tsx:1333-1526 | a value is among a step's clones iff it is the rewrite of a node the step selects |
| AssetMigration.HoldboxKeyframeIdsMembers | src/ts/FraymakersMetadata.tsx:1456-1479 | a keyframe id is indexed iff some holdbox layer lists it |
| AssetMigration.HoldboxSymbolIdsMembers | src/ts/FraymakersMetadata.tsx:1486-1502 | a symbol id is indexed iff some indexed collision-box keyframe shows it |
| AssetMigration.Pushed | src/ts/FraymakersMetadata.tsx:1343-1344 | `(list \|\| []).push(...)`: no list iff there was none and nothing was pushed; otherwise the old list followed by the clones |
| AssetMigration.ContainerRename | src/ts/FraymakersMetadata.tsx:1381-1415 | exactly the background, objects and foreground container types are renamed |
| AssetMigration.ReplaceFirst | src/ts/FraymakersMetadata.tsx:1464 | a text starting with the pattern has that head replaced |
| AssetMigration.ReplaceFirstAbsent | src/ts/FraymakersMetadata.tsx:1464 | a text without the pattern is left unchanged |
| AssetMigration.GrabHoldPointName | src/ts/FraymakersMetadata.tsx:1458-1464 | the renamed holdbox is `grabholdpoint` followed by the digits and whatever follows them, and it is no longer a holdbox name |
| AssetMigration.GrabHoldPointLayerFields | src/ts/FraymakersMetadata.tsx:1458-1474 | a `COLLISION_BOX` layer named `holdbox<n>` becomes a `POINT` layer named `grabholdpoint<n>`, has no default alpha or colour, its block is the swapped block, and every other field is unchanged |
| AssetMigration.HoldboxPointFields | src/ts/FraymakersMetadata.tsx:1462-1464 | the layer clone's type becomes `POINT` and its name has `holdbox` replaced by `grabholdpoint`; its block and every other field stay as they were |
| AssetMigration.SwapHoldboxBlockFields | src/ts/FraymakersMetadata.tsx:1466-1470 | the block read from the clone is replaced by its swapped form, and no field outside `pluginMetadata` changes |
| AssetMigration.WithoutDefaultsFields | src/ts/FraymakersMetadata.tsx:1472-1474 | `defaultAlpha` and `defaultColor` become `undefined`; the block and every other field stay as they were |
| AssetMigration.HoldboxBlockFields | src/ts/FraymakersMetadata.tsx:1466-1470 | when `collisionBoxType` is present it is replaced by `pointType = GRAB_HOLD_POINT`, and the rest of the block is unchanged |
| AssetMigration.GrabHoldPointKeyframes | src/ts/FraymakersMetadata.tsx:1460-1479 | the layer clone keeps the keyframe list whose ids are indexed |
| AssetMigration.ShadowIdsFields | src/ts/FraymakersMetadata.tsx:1429-1437 | `shadowLayerIds` is `[text of index]` when the index is at least 0 and `[]` otherwise: `[]` for a negative number and the decimal digits of a non-negative integer; `shadowLayerIndex` is gone; everything else is unchanged |
| AssetMigration.ShadowLayerIdsOfNumber | src/ts/FraymakersMetadata.tsx:1432 | a negative index gives `[]`, and a non-negative integer index gives the one text of its decimal digits |
| AssetMigration.RenamedContainerFields | src/ts/FraymakersMetadata.tsx:1381-1415 | a renamed container gets the new layer name and container type, and everything else is unchanged |
| AssetMigration.CentredPointFields | src/ts/FraymakersMetadata.tsx:1505-1521 | a holdbox symbol becomes a `POINT` moved by half its scale (`x + scaleX / 2` and `y + scaleY / 2` for numbers), without pivot and scale, and every other field is unchanged |
| AssetMigration.ClonesAreNotSelectedAgain | src/ts/FraymakersMetadata.tsx:1326-1528 | no step selects its own clones again, except the shadow-index step, whose clones stay shadow light points |
| AssetMigration.ShadowPointClones | src/ts/FraymakersMetadata.tsx:1353-1448 | a shadow light point with an index and a `shadowLayerIndex` is cloned by the shadow-index step and the shadow-id step, and by no other layer step |
| AssetMigration.ShadowLightPointClonedTwice | src/ts/FraymakersMetadata.tsx:1353-1448 | such a layer at 0.0.8 appears twice in `layers`, first without `index`, then with shadow ids but its `index` kept, because both clones come from the document's node |
| AssetMigration.BumpsEnterNextStep | src/ts/FraymakersMetadata.tsx:1326-1530 | 0.0.1 enters the first gate, each bump enters the next step's gate and not the first one's, and 0.0.22 is past every gate |
| AssetMigration.TextIsTruthy | src/ts/FraymakersMetadata.tsx:1316 | a stored version text is never falsy |
| AssetMigration.NothingToMigrateIffCurrent | src/ts/FraymakersMetadata.tsx:1316-1324 | the request answers `null` iff the own block is truthy and already holds the manifest version |
| AssetMigration.MissingVersionStartsAtManifest | src/ts/FraymakersMetadata.tsx:1316-1318 | a block without a version is migrated, and its gates are tested against the manifest version |
| AssetMigration.StepsKeepObject | src/ts/FraymakersMetadata.tsx:1313-1531 | the own block stays an object through the steps |
| AssetMigration.MigratedVersionIsManifest | src/ts/FraymakersMetadata.tsx:1534-1544 | a migration's own block ends with the manifest version, and every other plugin's block is passed on unchanged |
| AssetMigration.MigrationIsIdempotent | src/ts/FraymakersMetadata.tsx:1316-1324 | a document carrying a migration's `pluginMetadata` needs no further migration |
| AssetMigration.LaterVersionOnlyBumps | src/ts/FraymakersMetadata.tsx:1423-1544 | past 0.0.21, or with an unreadable version, no node is cloned and only the version becomes the manifest's |
| AssetMigration.FirstVersionRunsEveryStep | src/ts/FraymakersMetadata.tsx:1326-1531 | a 0.0.1 document runs all five steps: its layers, keyframes and symbols get the clones of every step, in step order, and it reaches 0.0.22 |
| ConfigMigration.PluginConfig.MigrationHandler | src/ts/main.tsx:20-42 | the handler leaves the record equal to `MigrateConfig` of the old record |
| ConfigMigration.PluginConfig.StripHoldboxKeys | src/ts/main.tsx:34-38 | the loop deletes `holdboxColor` and `holdboxAlpha` from every box preset and leaves every other field alone |
| ConfigMigration.Step1 | src/ts/main.tsx:22-25 | the first gate: no version or up to 0.0.11 |
| ConfigMigration.Step2 | src/ts/main.tsx:26-30 | the second gate: up to 0.0.19 |
| ConfigMigration.Step3 | src/ts/main.tsx:31-39 | the third gate: up to 0.1.0 |
| ConfigMigration.MigrateConfig | src/ts/main.tsx:20-42 | the record after the handler |
| ConfigUpdates.DefaultSettings | src/ts/FraymakersMetadata.tsx:38-45 | `getDefaultSettings()` |
| ConfigMigration.WithoutHoldbox | src/ts/main.tsx:35-37 | the preset no longer has the holdbox keys: neither key is among its style's keys; every other entry is kept and no other is added, every other key keeps its value, and the entries keep their order; id and name are unchanged |
| ConfigMigration.WithoutHoldboxAll | src/ts/main.tsx:34-38 | the same for every preset, position by position |
| ConfigMigration.WithoutHoldboxIdempotent | src/ts/main.tsx:35-37 | deleting the holdbox keys twice is deleting them once |
| ConfigMigration.BumpsLandInNextGate | src/ts/main.tsx:22-33 | 0.0.12 passes the second gate but not the first, 0.0.20 passes the third but not the second, and 0.1.1 passes none |
| ConfigMigration.MissingVersionRunsEveryStep | src/ts/main.tsx:22-41 | a config without a version ends with no presets, no active preset and the manifest version |
| ConfigMigration.UpTo0_0_11DropsAllPresets | src/ts/main.tsx:22-30 | up to 0.0.11 both preset lists and the active preset are cleared |
| ConfigMigration.UpTo0_0_19DropsBoxPresets | src/ts/main.tsx:26-30 | from 0.0.12 to 0.0.19 the box presets and the active preset are cleared, and the body presets are kept |
| ConfigMigration.UpTo0_1_0StripsHoldboxKeys | src/ts/main.tsx:31-39 | from 0.0.20 to 0.1.0 only the holdbox keys of the box presets go |
| ConfigMigration.Past0_1_0OnlyVersionChanges | src/ts/main.tsx:22-41 | past 0.1.0 only the version changes |
| ConfigMigration.MigratedVersionIsManifest | src/ts/main.tsx:41 | the version always ends as the manifest version |
| ConfigMigration.MigrationIsIdempotent | src/ts/main.tsx:20-42 | with a manifest past 0.1.0, migrating twice is migrating once |
| ConfigMigration.DefaultSettingsNeedNoMigration | src/ts/FraymakersMetadata.tsx:38-45 | the default settings are a fixed point of the handler |
| BoxPresetsEditor.CollisionBoxLayerPresetsEditor.constructor | src/ts/CollisionBoxLayerPresetsEditor.tsx:51-61 | the active id is taken as given, and a missing preset list starts empty |
| BoxPresetsEditor.CollisionBoxLayerPresetsEditor.AddCollisionBoxLayerPreset | src/ts/CollisionBoxLayerPresetsEditor.tsx:86-100 | the list becomes `Added` of the old list, and the active id is unchanged |
| BoxPresetsEditor.CollisionBoxLayerPresetsEditor.OnPresetRemoved | src/ts/CollisionBoxLayerPresetsEditor.tsx:101-110 | the presets with that id are removed, and the active id is cleared iff it was that id |
| BoxPresetsEditor.CollisionBoxLayerPresetsEditor.OnPresetEdited | src/ts/CollisionBoxLayerPresetsEditor.tsx:114-125 | every preset with the edited id is replaced, and the active id is unchanged |
| BoxPresetsEditor.CollisionBoxLayerPresetsEditor.OnActivePresetChanged | src/ts/CollisionBoxLayerPresetsEditor.tsx:126-132 | the active id is the selection or `null` for the empty one, and the list is unchanged |
| BoxPresetsEditor.ActiveAfterRemoval | src/ts/CollisionBoxLayerPresetsEditor.tsx:103 | the active id is cleared iff it was the removed id (or already none), and is otherwise kept |
| BoxPresetsEditor.Selected | src/ts/CollisionBoxLayerPresetsEditor.tsx:128 | the empty selection gives `null`; any other value is kept as it is |
| BoxPresetsEditor.CollisionBoxLayerPresetsEditorListItem.constructor | src/ts/CollisionBoxLayerPresetsEditor.tsx:199-215 | the item shows the given preset and is not in edit mode |
| BoxPresetsEditor.CollisionBoxLayerPresetsEditorListItem.OnEdit | src/ts/CollisionBoxLayerPresetsEditor.tsx:217-221 | edit mode is on, and the preset is kept |
| BoxPresetsEditor.CollisionBoxLayerPresetsEditorListItem.OnSave | src/ts/CollisionBoxLayerPresetsEditor.tsx:222-239 | the saved preset keeps its id, takes the typed name and the style of the inputs; edit mode is off; the saved value is what is handed on |
| BoxPresetsEditor.ValueMap | src/ts/CollisionBoxLayerPresetsEditor.tsx:223-227 | the value map is a `Color` then an `Alpha` entry per prefix, in order |
| BoxPresetsEditor.SavedStyleLookup | src/ts/CollisionBoxLayerPresetsEditor.tsx:223-227 | in a saved style, each prefix's colour key holds its colour input and its alpha key holds its parsed alpha |
| BoxPresetsEditor.SavedStyleWellTyped | src/ts/CollisionBoxLayerPresetsEditor.tsx:222-238 | a saved preset has a colour text for every box type |
| BoxPresetsEditor.BoxTypesMapIsBijection | src/ts/CollisionBoxLayerPresetsEditor.tsx:19-43 | `BOX_TYPES_MAP` maps its ten codes injectively onto exactly the `BOX_TYPES` prefixes |
| BoxPresetsEditor.BoxTypeCodesPrefixes | src/ts/CollisionBoxLayerPresetsEditor.tsx:19-43 | the `i`-th code maps to the `i`-th prefix |
| BoxPresetsEditor.DefaultsCoverBoxTypes | src/ts/CollisionBoxLayerPresetsEditor.tsx:62-85 | `getDefaults()` has a `Color` and an `Alpha` key for every prefix, in order, with alpha 0.5 and the default colour |
| BoxPresetsEditor.DefaultColorsAreHex | src/ts/CollisionBoxLayerPresetsEditor.tsx:62-85 | every default colour is written `#rrggbb` |
| BoxPresetsEditor.DefaultColor | src/ts/CollisionBoxLayerPresetsEditor.tsx:62-85 | the default colour of each box type |
| BoxPresetsEditor.StyleEntries | src/ts/CollisionBoxLayerPresetsEditor.tsx:223-227 | the colour and alpha entries a saved style holds |
| BoxPresetsEditor.AddEmptyNameIsNoOp | src/ts/CollisionBoxLayerPresetsEditor.tsx:87-89 | adding with an empty name changes nothing |
| BoxPresetsEditor.AddedPresetIsWellTyped | src/ts/CollisionBoxLayerPresetsEditor.tsx:90-95 | adding keeps the earlier presets and appends one with the fresh id and a readable default style |
| BoxPresetsEditor.AddThenRemoveRestores | src/ts/CollisionBoxLayerPresetsEditor.tsx:90-106 | adding with a fresh id and then removing that id restores the list |
| BoxPresetsEditor.OperationsKeepIdsUnique | src/ts/CollisionBoxLayerPresetsEditor.tsx:86-125 | add, remove and edit keep preset ids unique |
| BoxPresetsEditor.RemovalKeepsActiveValid | src/ts/CollisionBoxLayerPresetsEditor.tsx:101-106 | after a removal the active id still names a listed preset, or is cleared |
| BodyPresetsEditor.CollisionBodyLayerPresetsEditor.constructor | src/ts/CollisionBodyLayerPresetsEditor.tsx:21-29 | a missing preset list starts empty |
| BodyPresetsEditor.CollisionBodyLayerPresetsEditor.AddCollisionBodyLayerPreset | src/ts/CollisionBodyLayerPresetsEditor.tsx:31-49 | the list becomes `Added` of the old list: unchanged for an empty name, otherwise a new preset with the fresh id and default shape is appended |
| BodyPresetsEditor.CollisionBodyLayerPresetsEditor.OnPresetRemoved | src/ts/CollisionBodyLayerPresetsEditor.tsx:50-58 | the presets with that id are removed, and the others remain |
| BodyPresetsEditor.CollisionBodyLayerPresetsEditor.OnPresetEdited | src/ts/CollisionBodyLayerPresetsEditor.tsx:62-73 | every preset with the edited id is replaced |
| BodyPresetsEditor.CollisionBodyLayerPresetsEditorListItem.constructor | src/ts/CollisionBodyLayerPresetsEditor.tsx:135-149 | the item shows the given preset and is not in edit mode |
| BodyPresetsEditor.CollisionBodyLayerPresetsEditorListItem.OnEdit | src/ts/CollisionBodyLayerPresetsEditor.tsx:151-155 | edit mode is on, and the preset is kept |
| BodyPresetsEditor.CollisionBodyLayerPresetsEditorListItem.OnSave | src/ts/CollisionBodyLayerPresetsEditor.tsx:156-171 | the saved preset keeps its id and takes the typed name and numbers; edit mode is off; the saved value is what is handed on |
| BodyPresetsEditor.AddEmptyNameIsNoOp | src/ts/CollisionBodyLayerPresetsEditor.tsx:32-34 | adding with an empty name changes nothing |
| BodyPresetsEditor.AddThenRemoveRestores | src/ts/CollisionBodyLayerPresetsEditor.tsx:35-58 | adding with a fresh id and then removing that id restores the list |
| BodyPresetsEditor.RemoveAbsentIsNoOp | src/ts/CollisionBodyLayerPresetsEditor.tsx:50-58 | removing an id no preset has changes nothing |
| BodyPresetsEditor.SaveThenEditReplacesOnlyThatEntry | src/ts/CollisionBodyLayerPresetsEditor.tsx:62-73 | with unique ids, editing keeps the length, replaces exactly the entry with the saved id, and keeps all others |
| BodyPresetsEditor.OperationsKeepIdsUnique | src/ts/CollisionBodyLayerPresetsEditor.tsx:31-73 | add, remove and edit keep preset ids unique |
| PresetLists.Removed | src/ts/CollisionBoxLayerPresetsEditor.tsx:104-106 | no kept preset has the id; every preset without it is kept, as often as it occurs; the kept ones are in their original order |
| PresetLists.Edited | src/ts/CollisionBoxLayerPresetsEditor.tsx:116-121 | same length; position `i` holds the edited preset iff preset `i` had its id, and is otherwise unchanged |
| PresetLists.Find | src/ts/FraymakersMetadata.tsx:1306 | `_.find` by id: nothing iff no preset has the id, otherwise a listed preset with that id |
| PresetLists.FindFirst | src/ts/FraymakersMetadata.tsx:1306 | `_.find` picks the first preset with the id |
| PresetLists.RemovedAbsentId | src/ts/CollisionBoxLayerPresetsEditor.tsx:104-106 | removing an absent id changes nothing |
| PresetLists.AppendThenRemove | src/ts/CollisionBoxLayerPresetsEditor.tsx:90-106 | appending a preset with a fresh id and removing that id gives back the list |
| PresetLists.EditedAbsentId | src/ts/CollisionBoxLayerPresetsEditor.tsx:114-121 | editing with an unknown id changes nothing |
| PresetLists.AppendKeepsUnique | src/ts/CollisionBoxLayerPresetsEditor.tsx:90-95 | appending a fresh id keeps ids unique |
| PresetLists.RemovedKeepsUnique | src/ts/CollisionBoxLayerPresetsEditor.tsx:104-106 | removal keeps ids unique |
| PresetLists.EditedKeepsUnique | src/ts/CollisionBoxLayerPresetsEditor.tsx:114-121 | editing keeps ids unique |
| Versions.Compare | src/ts/main.tsx:22 | `semverCompare`: -1, 0 or 1; 0 iff the versions are equal; negative iff the first precedes the second |
| Versions.AtMostTransitive | src/ts/main.tsx:22-31 | precedence is transitive, so the gates nest |
| Versions.ParseText | src/ts/FraymakersMetadata.tsx:1326 | reading back a version's text gives the version |
| Versions.TextInjective | src/ts/FraymakersMetadata.tsx:1319 | distinct versions have distinct texts, so comparing texts decides equality |

## Left out

- Host transport (`sendMetadataDefinitions`, `sendAssetMetadataMigrations`, `configMetadataSync`): each is the returned value of the modelled operation.
- Rendering, `ReactDOM.render`, `onPropsUpdated`, `setupHandler`, DOM refs and styles: UI and bootstrap code with no logic of its own.
- `setState` callbacks and `onUpdated`: the editors' classes change their fields directly; the notification is the new field value.
- Evaluation of `dependsOn` conditions, field paths and `{{…}}` templates: the editor does this, and the plugin only builds them as data.
- `uuid.v4`: a fresh-id parameter, required not to be an id already in the list.
- `parseFloat` in the list items' `onSave`: the parsed numbers are parameters (a real per body input, a function from prefix to real for box alphas).
- JavaScript's coercions where the migration applies `>= 0`, a template or `+` to a value the model does not compute: `>= 0` of text or an array, the template text of a fractional or huge number, an array or an object, and `x + scaleX / 2` when either is not a number. These come from the `Coercions` parameter of the asset migration. Numbers are reals, not doubles.
- `semver-compare` internals: versions are numeric triples. A stored version that is not text, or not three numeric fields, satisfies no gate.
- lodash (`cloneDeep`, `each`, `filter`, `find`, `has`, `map`): value semantics. A clone is a value, and `_.each` is a walk over the elements of an array or the values of an object. `_.each` over a string's characters is not modelled.
- `MANIFEST_JSON`: the manifest version and plugin id are parameters of the asset migration and the config handler.
- `console.info`: left out; it has no effect on the result.
- JavaScript property-key coercion: the keyframe and symbol id maps are sets of values, so ids that JavaScript would turn into the same key, and inherited keys such as `constructor`, are not modelled.
- The order of the change set's keys (`layers`, `keyframes`, `symbols`): the change set is a record.
- NaN: numbers are reals, and NaN is not represented.
- The holdbox name test on a non-text name: `HoldboxName` is false for anything but text, while JavaScript coerces an array or number to text before testing.
- A document whose `pluginMetadata` is `undefined` or `null`: the plugin throws on it. The asset document always has the object, and the definition request requires one (`RequestReadable`).
- The definition request reads the own block under the fixed key `com.fraymakers.FraymakersMetadata`, while the migration uses the manifest id parameter: both as in the plugin.
- `label` of a dropdown option is the field `caption`, since `label` is a Dafny keyword.
- The component's collision-body preset state read by the definition request is a parameter.
- MetadataDefinitions.CollisionBoxLayerPresetFor: requires the colours it reads to be text. The plugin calls `.replace` on them and would throw otherwise; the model has no error path for that throw.
- AssetMigration.AssetMetadataDocument.OnAssetMetadataMigrationRequest: requires the own block, when truthy, to be an object (`WellFormed`), and each node list to be readable where a gate of the starting version walks it (`NodesReadable`): `layers` up to 0.0.21, `keyframes` up to 0.0.21 when there are layers, `symbols` from 0.0.1 to 0.0.6 or up to 0.0.21 when there are layers. A primitive own block or a `null` node makes the plugin throw, and the model has no error path for that throw.
- `types.ts` has declarations only: it shapes the datatypes in module `Types`.
