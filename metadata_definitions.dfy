/**
 * The metadata definitions the plugin hands to the editor when it asks for
 * them: which fields each kind of metadata owner gets, the options of each
 * dropdown and the effects (field defaults the editor fills in when the
 * listed conditions hold). Conditions and effects are data here; the editor
 * evaluates them, the plugin only builds them. What is built depends on the
 * `objectType` the asset declares in the plugin's own metadata block, on the
 * collision-body presets held in the component's state and on the
 * collision-box colour presets of the configuration.
 */
module MetadataDefinitions {
  import opened Wrappers
  import opened Seqs
  import opened Json
  import opened Types
  import opened PresetLists
  import opened BoxPresetsEditor

  /** A dropdown choice: the `label` shown (`caption`; `label` is a Dafny keyword) and the `value` stored. */
  datatype DropdownOption = DropdownOption(caption: string, value: string)

  /** A condition `inputField operator inputValue` on another field. */
  datatype Condition = Condition(inputField: string, operator: string, inputValue: Json)

  /** When every condition holds the editor sets `outputField` to `outputValue`. */
  datatype Effect = Effect(dependsOn: seq<Condition>, outputField: string, outputValue: Json)

  /** A field; `options` is present on dropdowns only. */
  datatype Field = Field(
    name: string,
    caption: string,
    fieldType: string,
    defaultValue: Json,
    options: Option<seq<DropdownOption>>,
    dependsOn: seq<Condition>)

  datatype Definition = Definition(metadataOwnerTypes: seq<string>, fields: seq<Field>, effects: seq<Effect>)

  /** The key of the plugin's own block inside an asset's `pluginMetadata`. */
  const PluginKey := "com.fraymakers.FraymakersMetadata"

  const CollisionBoxTypeField := "pluginMetadata[].collisionBoxType"
  const PointTypeField := "pluginMetadata[].pointType"
  const IndexField := "pluginMetadata[].index"
  const LineSegmentTypeOfParent := "parent.parent.pluginMetadata[].lineSegmentType"
  const StructureTypeField := "pluginMetadata[].structureType"
  const CollisionBodyPresetField := "pluginMetadata[].collisionBodyLayerPresets"
  const IndexTemplate := "{{pluginMetadata[].index}}"

  function Equals(inputField: string, value: string): Condition {
    Condition(inputField, "=", Str(value))
  }

  function Matches(inputField: string, pattern: string): Condition {
    Condition(inputField, "matches()", Str(pattern))
  }

  function Dropdown(name: string, caption: string, options: seq<DropdownOption>, dependsOn: seq<Condition>): Field {
    Field(name, caption, "DROPDOWN", Str("NONE"), Some(options), dependsOn)
  }

  function Input(name: string, caption: string, fieldType: string, defaultValue: Json, dependsOn: seq<Condition>): Field {
    Field(name, caption, fieldType, defaultValue, None, dependsOn)
  }

  function NoneOption(): DropdownOption {
    DropdownOption("None", "NONE")
  }

  // ---------------------------------------------------------------------------
  // Shared pieces
  // ---------------------------------------------------------------------------

  function RectCollisionAreaDropdownOptions(): seq<DropdownOption> {
    [DropdownOption("Rect Collision Area", "RECT_COLLISION_AREA")]
  }

  function RectStructureDropdownOptions(): seq<DropdownOption> {
    [DropdownOption("Rect Structure", "RECT_STRUCTURE")]
  }

  function LineSegmentStructureDropdownOptions(): seq<DropdownOption> {
    [DropdownOption("Line Segment Structure", "LINE_SEGMENT_STRUCTURE")]
  }

  function RectCollisionAreaEffects(): seq<Effect> {
    [
    Effect([Equals(CollisionBoxTypeField, "RECT_COLLISION_AREA")], "defaultAlpha", Num(0.5)),
    Effect([Equals(CollisionBoxTypeField, "RECT_COLLISION_AREA")], "defaultColor", Str("0xff8585"))]
  }

  function RectStructureEffects(): seq<Effect> {
    [
    Effect([Equals(CollisionBoxTypeField, "RECT_STRUCTURE")], "defaultAlpha", Num(0.5)),
    Effect([Equals(CollisionBoxTypeField, "RECT_STRUCTURE")], "defaultColor", Str("0x00ff00"))]
  }

  /** The ledge toggles of a symbol inside a rect-structure collision box. */
  function CollisionBoxSymbolStructureDefinitions(): seq<Definition> {
    [
    Definition(["COLLISION_BOX_SYMBOL_METADATA"], [
      Input("leftLedge", "Left Ledge", "BOOLEAN", Bool(true),
            [Equals("parent.parent.pluginMetadata[].collisionBoxType", "RECT_STRUCTURE")]),
      Input("rightLedge", "Right Ledge", "BOOLEAN", Bool(true),
            [Equals("parent.parent.pluginMetadata[].collisionBoxType", "RECT_STRUCTURE")])],
      [])]
  }

  function InStructureSegment(): Condition {
    Equals(LineSegmentTypeOfParent, "LINE_SEGMENT_STRUCTURE")
  }

  /** The structure kind, drop-through and ledges of a symbol inside a line-segment structure layer, and its colour. */
  function LineSegmentSymbolStructureDefinitions(): seq<Definition> {
    [
    Definition(["LINE_SEGMENT_SYMBOL_METADATA"], [
      Dropdown("structureType", "Structure Type", [
        NoneOption(),
        DropdownOption("Floor", "FLOOR"),
        DropdownOption("Left Wall", "LEFT_WALL"),
        DropdownOption("Right Wall", "RIGHT_WALL"),
        DropdownOption("Ceiling", "CEILING")], [InStructureSegment()]),
      Input("dropThrough", "Drop Through", "BOOLEAN", Bool(false), [InStructureSegment(), Equals(StructureTypeField, "FLOOR")]),
      Input("leftLedge", "Left Ledge", "BOOLEAN", Bool(true), [InStructureSegment(), Equals(StructureTypeField, "FLOOR")]),
      Input("rightLedge", "Right Ledge", "BOOLEAN", Bool(true), [InStructureSegment(), Equals(StructureTypeField, "FLOOR")])],
      [
      Effect([InStructureSegment(), Equals(StructureTypeField, "FLOOR")], "color", Str("0xeeeeee")),
      Effect([InStructureSegment(), Equals(StructureTypeField, "FLOOR"), Condition("pluginMetadata[].dropThrough", "=", Bool(true))],
             "color", Str("0x0000ff")),
      Effect([InStructureSegment(), Equals(StructureTypeField, "CEILING")], "color", Str("0xf1948a")),
      Effect([InStructureSegment(), Equals(StructureTypeField, "LEFT_WALL")], "color", Str("0x0099ff")),
      Effect([InStructureSegment(), Equals(StructureTypeField, "RIGHT_WALL")], "color", Str("0x66bb6a"))])]
  }

  /** The line-segment layer kind; the stage and the line-segment-structure assets both get it. */
  function LineSegmentLayerDefinition(): Definition {
    Definition(["LINE_SEGMENT_LAYER_METADATA"],
      [Dropdown("lineSegmentType", "Line Segment Type", [NoneOption()] + LineSegmentStructureDropdownOptions(), [])],
      [])
  }

  // ---------------------------------------------------------------------------
  // The five definitions every asset gets
  // ---------------------------------------------------------------------------

  /** The `objectType` choices (an `ITEM` choice is commented out in the plugin; `ENTITY` is not offered). */
  function ObjectTypeOptions(): seq<DropdownOption> {
    [NoneOption(),
     DropdownOption("Character", "CHARACTER"),
     DropdownOption("Projectile", "PROJECTILE"),
     DropdownOption("Assist", "ASSIST"),
     DropdownOption("Stage", "STAGE"),
     DropdownOption("Collision Area", "COLLISION_AREA")]
    + RectCollisionAreaDropdownOptions()
    + RectStructureDropdownOptions()
    + LineSegmentStructureDropdownOptions()
    + [DropdownOption("Match Rules", "MATCH_RULES"),
       DropdownOption("Custom Game Object", "CUSTOM_GAME_OBJECT")]
  }

  function ObjectTypeField(): Field {
    Dropdown("objectType", "Object Type", ObjectTypeOptions(), [])
  }

  function SpritesheetGroupField(): Field {
    Input("spritesheetGroup", "Spritesheet Group", "TEXT", Str(""), [])
  }

  function SpriteEntityDefinition(): Definition {
    Definition(["SPRITE_ENTITY_ASSET_METADATA"], [ObjectTypeField(), SpritesheetGroupField()], [])
  }

  function ScriptDefinition(): Definition {
    Definition(["SCRIPT_ASSET_METADATA"], [ObjectTypeField()], [])
  }

  function AudioDefinition(): Definition {
    Definition(["AUDIO_ASSET_METADATA"], [Input("categories", "Categories", "TAGS", Arr([]), [])], [])
  }

  function NineSliceDefinition(): Definition {
    Definition(["NINE_SLICE_ASSET_METADATA"], [SpritesheetGroupField()], [])
  }

  /** The palette-collection fields: whether a costume is the base one, and its team colour. */
  function PaletteMapDefinition(): Definition {
    Definition(["PALETTE_MAP_METADATA"], [
      Input("isBase", "Base Costume", "BOOLEAN", Bool(false), []),
      Dropdown("teamColor", "Team Color", [
        NoneOption(),
        DropdownOption("Red", "RED"),
        DropdownOption("Green", "GREEN"),
        DropdownOption("Blue", "BLUE")], [])],
      [])
  }

  function FixedDefinitions(): seq<Definition> {
    [SpriteEntityDefinition(), ScriptDefinition(), AudioDefinition(), NineSliceDefinition(), PaletteMapDefinition()]
  }

  // ---------------------------------------------------------------------------
  // Collision-box colours from the configuration
  // ---------------------------------------------------------------------------

  /** `color.replace(/^#/g, '0x')`: a leading `#` becomes `0x`. */
  function HexColor(color: string): (r: string)
    ensures |r| > 0 ==> r[0] != '#'
    ensures |color| > 0 && color[0] == '#' ==> r == "0x" + color[1..]
    ensures (|color| == 0 || color[0] != '#') ==> r == color
  {
    if |color| > 0 && color[0] == '#' then "0x" + color[1..] else color
  }

  /**
   * The preset whose colours the definitions use: the one whose id is the
   * configured active id, when that id is set (non-empty) and some preset has it.
   */
  function ActivePreset(config: Config): (r: Option<BoxPreset>)
    ensures r.Some? ==> config.activeCollisionBoxLayerPreset == Some(r.value.id) && r.value in config.collisionBoxLayerPresets
  {
    match config.activeCollisionBoxLayerPreset
    case Some(active) => if active != "" then Find(config.collisionBoxLayerPresets, active, BoxId) else None
    case None => None
  }

  /** The style the colours are read from: the active preset's, or `getDefaults()`. */
  function PresetStyle(config: Config): seq<Entry> {
    match ActivePreset(config)
    case Some(preset) => preset.style
    case None => DefaultStyle
  }

  /** Reading `.replace` on a colour that is not text is a TypeError, so the colours that are read must be text. */
  predicate ColorsReadable(config: Config) {
    WellTypedStyle(PresetStyle(config))
  }

  /** `getCollisionBoxLayerPresetValues(code).color`. */
  function PresetColor(config: Config, code: string): (color: string)
    requires code in BoxTypesMap
    requires ColorsReadable(config)
  {
    BoxTypesMapIsBijection();
    assert BoxTypesMap[code] in BoxTypes;
    HexColor(Lookup(PresetStyle(config), ColorKey(BoxTypesMap[code])).s)
  }

  /** `getCollisionBoxLayerPresetValues(code).alpha`. */
  function PresetAlpha(config: Config, code: string): Json
    requires code in BoxTypesMap
  {
    Lookup(PresetStyle(config), AlphaKey(BoxTypesMap[code]))
  }

  /** `getCollisionBoxLayerPresetFor(code)`: the box type's alpha, then its colour, both gated on the box type. */
  function CollisionBoxLayerPresetFor(config: Config, code: string): (r: seq<Effect>)
    requires code in BoxTypesMap
    requires ColorsReadable(config)
    ensures |r| == 2
    ensures r[0].outputField == "defaultAlpha" && r[1].outputField == "defaultColor"
    ensures r[0].dependsOn == r[1].dependsOn == [Equals(CollisionBoxTypeField, code)]
    ensures r[0].outputValue == PresetAlpha(config, code) && r[1].outputValue == Str(PresetColor(config, code))
  {
    [Effect([Equals(CollisionBoxTypeField, code)], "defaultAlpha", PresetAlpha(config, code)),
     Effect([Equals(CollisionBoxTypeField, code)], "defaultColor", Str(PresetColor(config, code)))]
  }

  /** The colour effects of a list of box types, one pair per type, in order. */
  function PresetEffectsFor(config: Config, codes: seq<string>): (r: seq<Effect>)
    requires forall i :: 0 <= i < |codes| ==> codes[i] in BoxTypesMap
    requires ColorsReadable(config)
    ensures |r| == 2 * |codes|
  {
    if |codes| == 0 then []
    else PresetEffectsFor(config, codes[..|codes| - 1]) + CollisionBoxLayerPresetFor(config, codes[|codes| - 1])
  }

  // ---------------------------------------------------------------------------
  // Collision-body presets
  // ---------------------------------------------------------------------------

  /** The five layer defaults a collision-body preset sets, in the order they are emitted. */
  function BodyPresetOutputs(): seq<string> {
    ["defaultHead", "defaultFoot", "defaultHipWidth", "defaultHipXOffset", "defaultHipYOffset"]
  }

  /** `getEffectsFromCollisionBodyLayerPreset`: the preset's shape, gated on the preset dropdown choosing its id. */
  function EffectsFromCollisionBodyLayerPreset(preset: BodyPreset): (r: seq<Effect>)
    ensures |r| == 5
    ensures forall j :: 0 <= j < 5 ==> r[j].dependsOn == [Equals(CollisionBodyPresetField, preset.id)]
    ensures forall j :: 0 <= j < 5 ==> r[j].outputField == BodyPresetOutputs()[j]
    ensures r[0].outputValue == Num(preset.head) && r[1].outputValue == Num(preset.foot)
    ensures r[2].outputValue == Num(preset.hipWidth) && r[3].outputValue == Num(preset.hipXOffset)
    ensures r[4].outputValue == Num(preset.hipYOffset)
  {
    var dependsOn := [Equals(CollisionBodyPresetField, preset.id)];
    [Effect(dependsOn, "defaultHead", Num(preset.head)),
     Effect(dependsOn, "defaultFoot", Num(preset.foot)),
     Effect(dependsOn, "defaultHipWidth", Num(preset.hipWidth)),
     Effect(dependsOn, "defaultHipXOffset", Num(preset.hipXOffset)),
     Effect(dependsOn, "defaultHipYOffset", Num(preset.hipYOffset))]
  }

  /** One dropdown choice per preset: its name shown, its id stored. */
  function PresetChoices(presets: seq<BodyPreset>): (r: seq<DropdownOption>)
    ensures |r| == |presets|
    ensures forall i :: 0 <= i < |presets| ==> r[i] == DropdownOption(presets[i].name, presets[i].id)
  {
    if |presets| == 0 then []
    else PresetChoices(presets[..|presets| - 1]) + [DropdownOption(presets[|presets| - 1].name, presets[|presets| - 1].id)]
  }

  /** The effects of every preset, preset after preset. */
  function PresetEffects(presets: seq<BodyPreset>): (r: seq<Effect>)
    ensures |r| == 5 * |presets|
  {
    if |presets| == 0 then []
    else PresetEffects(presets[..|presets| - 1]) + EffectsFromCollisionBodyLayerPreset(presets[|presets| - 1])
  }

  /** `getCollisionBodyLayerPresetOptions(options)`: pushes one choice per preset onto `options`. */
  method CollisionBodyLayerPresetOptions(options: seq<DropdownOption>, presets: seq<BodyPreset>) returns (r: seq<DropdownOption>)
    ensures r == options + PresetChoices(presets)
  {
    r := options;
    for i := 0 to |presets|
      invariant r == options + PresetChoices(presets[..i])
    {
      r := r + [DropdownOption(presets[i].name, presets[i].id)];
      assert presets[..i + 1][..i] == presets[..i];
    }
    assert presets[..|presets|] == presets;
  }

  /** `getCollisionBodyLayerPresetEffects(effects)`: appends each preset's five effects to `effects`. */
  method CollisionBodyLayerPresetEffects(effects: seq<Effect>, presets: seq<BodyPreset>) returns (r: seq<Effect>)
    ensures r == effects + PresetEffects(presets)
  {
    hide EffectsFromCollisionBodyLayerPreset;
    r := effects;
    for i := 0 to |presets|
      invariant r == effects + PresetEffects(presets[..i])
    {
      AppendAssoc(effects, PresetEffects(presets[..i]), EffectsFromCollisionBodyLayerPreset(presets[i]));
      r := r + EffectsFromCollisionBodyLayerPreset(presets[i]);
      assert presets[..i + 1][..i] == presets[..i];
    }
    assert presets[..|presets|] == presets;
  }

  // ---------------------------------------------------------------------------
  // Game objects: characters, projectiles, assists, custom game objects, entities
  // ---------------------------------------------------------------------------

  const HitBoxTypes := "HIT_BOX|HURT_BOX|GRAB_BOX|LEDGE_GRAB_BOX|REFLECT_BOX|ABSORB_BOX|COUNTER_BOX|CUSTOM_BOX_A|CUSTOM_BOX_B|CUSTOM_BOX_C"

  function GameCollisionBoxTypeOptions(): seq<DropdownOption> {
    [
    NoneOption(),
    DropdownOption("Hurt Box", "HURT_BOX"),
    DropdownOption("Hit Box", "HIT_BOX"),
    DropdownOption("Grab Box", "GRAB_BOX"),
    DropdownOption("Ledge Grab Box", "LEDGE_GRAB_BOX"),
    DropdownOption("Reflect Box", "REFLECT_BOX"),
    DropdownOption("Absorb Box", "ABSORB_BOX"),
    DropdownOption("Counter Box", "COUNTER_BOX"),
    DropdownOption("Custom Box A", "CUSTOM_BOX_A"),
    DropdownOption("Custom Box B", "CUSTOM_BOX_B"),
    DropdownOption("Custom Box C", "CUSTOM_BOX_C")]
  }

  /** The layer name each box type gets: its style-key prefix followed by the layer's index. */
  function BoxNameEffects(): seq<Effect> {
    [
    Effect([Equals(CollisionBoxTypeField, "HURT_BOX")], "name", Str("hurtbox" + IndexTemplate)),
    Effect([Equals(CollisionBoxTypeField, "HIT_BOX")], "name", Str("hitbox" + IndexTemplate)),
    Effect([Equals(CollisionBoxTypeField, "GRAB_BOX")], "name", Str("grabbox" + IndexTemplate)),
    Effect([Equals(CollisionBoxTypeField, "LEDGE_GRAB_BOX")], "name", Str("ledgegrabbox" + IndexTemplate)),
    Effect([Equals(CollisionBoxTypeField, "REFLECT_BOX")], "name", Str("reflectbox" + IndexTemplate)),
    Effect([Equals(CollisionBoxTypeField, "ABSORB_BOX")], "name", Str("absorbbox" + IndexTemplate)),
    Effect([Equals(CollisionBoxTypeField, "COUNTER_BOX")], "name", Str("counterbox" + IndexTemplate)),
    Effect([Equals(CollisionBoxTypeField, "CUSTOM_BOX_A")], "name", Str("customboxa" + IndexTemplate)),
    Effect([Equals(CollisionBoxTypeField, "CUSTOM_BOX_B")], "name", Str("customboxb" + IndexTemplate)),
    Effect([Equals(CollisionBoxTypeField, "CUSTOM_BOX_C")], "name", Str("customboxc" + IndexTemplate))]
  }

  /** An index of 0 for layers of the given kinds that have none yet, so the name template can use it. */
  function IndexEffect(typeField: string, pattern: string): Effect {
    Effect([Matches(typeField, pattern), Condition(IndexField, "=", Undefined)], IndexField, Num(0.0))
  }

  /**
   * The game object's collision-box layer: the box type and index fields; then
   * the index effect, the colour effects of the ten box types (in `BOX_TYPES`
   * order, the order the plugin spreads them) and the name effects.
   */
  function GameCollisionBoxLayerDefinition(config: Config): Definition
    requires ColorsReadable(config)
  {
    BoxTypeCodesPrefixes();
    Definition(["COLLISION_BOX_LAYER_METADATA"], [
      Dropdown("collisionBoxType", "Collision Box Type", GameCollisionBoxTypeOptions(), []),
      Input("index", "Index", "INTEGER", Num(0.0), [Matches(CollisionBoxTypeField, HitBoxTypes)])],
      [IndexEffect(CollisionBoxTypeField, HitBoxTypes)] + PresetEffectsFor(config, BoxTypeCodes) + BoxNameEffects())
  }

  function GamePointLayerDefinition(): Definition {
    Definition(["POINT_LAYER_METADATA"], [
      Dropdown("pointType", "Point Type", [
        NoneOption(),
        DropdownOption("Grab Hold Point", "GRAB_HOLD_POINT"),
        DropdownOption("Ledge Hold Point", "LEDGE_HOLD_POINT"),
        DropdownOption("Pivot Point", "PIVOT_POINT"),
        DropdownOption("Autolink Point", "AUTOLINK_POINT"),
        DropdownOption("Custom Box A", "CUSTOM_BOX_A"),
        DropdownOption("Custom Box B", "CUSTOM_BOX_B"),
        DropdownOption("Custom Box C", "CUSTOM_BOX_C")], []),
      Input("index", "Index", "INTEGER", Num(0.0), [Matches(PointTypeField, "CUSTOM_BOX_A|CUSTOM_BOX_B|CUSTOM_BOX_C")])],
      [
      IndexEffect(PointTypeField, "CUSTOM_BOX_A|CUSTOM_BOX_B|CUSTOM_BOX_C"),
      Effect([Equals(PointTypeField, "GRAB_HOLD_POINT")], "name", Str("grabholdpoint0")),
      Effect([Equals(PointTypeField, "LEDGE_HOLD_POINT")], "name", Str("ledgeholdpoint0")),
      Effect([Equals(PointTypeField, "PIVOT_POINT")], "name", Str("pivotpoint0")),
      Effect([Equals(PointTypeField, "AUTOLINK_POINT")], "name", Str("autolinkpoint0")),
      Effect([Equals(PointTypeField, "CUSTOM_BOX_A")], "name", Str("customboxa" + IndexTemplate)),
      Effect([Equals(PointTypeField, "CUSTOM_BOX_B")], "name", Str("customboxb" + IndexTemplate)),
      Effect([Equals(PointTypeField, "CUSTOM_BOX_C")], "name", Str("customboxc" + IndexTemplate))])
  }

  /** The collision-body layer: the preset dropdown (None, then the presets) and the presets' effects. */
  function CollisionBodyLayerDefinition(presets: seq<BodyPreset>): Definition {
    Definition(["COLLISION_BODY_LAYER_METADATA"],
      [Dropdown("collisionBodyLayerPresets", "ECB Preset", [NoneOption()] + PresetChoices(presets), [])],
      PresetEffects(presets))
  }

  /** Collision-body symbols are pinned to x = 0: the engine cannot offset them horizontally. */
  function CollisionBodySymbolDefinition(): Definition {
    Definition(["COLLISION_BODY_SYMBOL_METADATA"], [], [Effect([], "x", Num(0.0))])
  }

  function GameObjectDefinitions(presets: seq<BodyPreset>, config: Config): seq<Definition>
    requires ColorsReadable(config)
  {
    [GameCollisionBoxLayerDefinition(config), GamePointLayerDefinition(),
     CollisionBodyLayerDefinition(presets), CollisionBodySymbolDefinition()]
  }

  // ---------------------------------------------------------------------------
  // Stages
  // ---------------------------------------------------------------------------

  function StageCollisionBoxLayerDefinition(): Definition {
    Definition(["COLLISION_BOX_LAYER_METADATA"],
      [Dropdown("collisionBoxType", "Collision Box Type",
         [NoneOption(), DropdownOption("Death Box", "DEATH_BOX"), DropdownOption("Camera Box", "CAMERA_BOX")]
         + RectCollisionAreaDropdownOptions() + RectStructureDropdownOptions(), [])],
      RectCollisionAreaEffects() + RectStructureEffects() + [
      Effect([Matches(CollisionBoxTypeField, "DEATH_BOX|CAMERA_BOX|RECT_COLLISION_AREA|RECT_STRUCTURE")], "defaultAlpha", Num(0.5)),
      Effect([Equals(CollisionBoxTypeField, "RECT_COLLISION_AREA")], "defaultColor", Str("0xff8585")),
      Effect([Equals(CollisionBoxTypeField, "RECT_STRUCTURE")], "defaultColor", Str("0x00ff00")),
      Effect([Equals(CollisionBoxTypeField, "DEATH_BOX")], "name", Str("Death Box")),
      Effect([Equals(CollisionBoxTypeField, "DEATH_BOX")], "defaultColor", Str("0xd1d1d1")),
      Effect([Equals(CollisionBoxTypeField, "CAMERA_BOX")], "name", Str("Camera Box")),
      Effect([Equals(CollisionBoxTypeField, "CAMERA_BOX")], "defaultColor", Str("0xd1d1d1"))])
  }

  function ShadowLight(): Condition {
    Matches(PointTypeField, "SHADOW_LIGHT_POINT")
  }

  function StagePointLayerDefinition(): Definition {
    Definition(["POINT_LAYER_METADATA"], [
      Dropdown("pointType", "Point Type", [
        NoneOption(),
        DropdownOption("Entrance Point", "ENTRANCE_POINT"),
        DropdownOption("Respawn Point", "RESPAWN_POINT"),
        DropdownOption("Shadow Light Point", "SHADOW_LIGHT_POINT")], []),
      Input("index", "Index", "INTEGER", Num(0.0), [Matches(PointTypeField, "ENTRANCE_POINT|RESPAWN_POINT")]),
      Input("shadowLayerIds", "Shadow Layer Ids", "TAGS", Arr([]), [ShadowLight()]),
      Input("shadowHeightMultiplier", "Shadow Height Multiplier", "FLOAT", Num(0.25), [ShadowLight()]),
      Input("shadowFadeStartRadius", "Shadow Fade Start Radius", "FLOAT", Num(0.0), [ShadowLight()]),
      Input("shadowFadeEndRadius", "Shadow Fade End Radius", "FLOAT", Num(-1.0), [ShadowLight()])],
      [
      IndexEffect(PointTypeField, "ENTRANCE_POINT|RESPAWN_POINT|SHADOW_LIGHT_POINT"),
      Effect([Equals(PointTypeField, "ENTRANCE_POINT")], "name", Str("Entrance " + IndexTemplate)),
      Effect([Equals(PointTypeField, "RESPAWN_POINT")], "name", Str("Respawn " + IndexTemplate))])
  }

  /** The stage's container layers, as `(label, value)`; the option labels double as layer names. */
  function ContainerOptions(): seq<DropdownOption> {
    [
    DropdownOption("Background Behind", "BACKGROUND_BEHIND_CONTAINER"),
    DropdownOption("Background Structures", "BACKGROUND_STRUCTURES_CONTAINER"),
    DropdownOption("Background Shadows", "BACKGROUND_SHADOWS_CONTAINER"),
    DropdownOption("Background Effects", "BACKGROUND_EFFECTS_CONTAINER"),
    DropdownOption("Characters Back", "CHARACTERS_BACK_CONTAINER"),
    DropdownOption("Characters", "CHARACTERS_CONTAINER"),
    DropdownOption("Characters Front", "CHARACTERS_FRONT_CONTAINER"),
    DropdownOption("Foreground Structures", "FOREGROUND_STRUCTURES_CONTAINER"),
    DropdownOption("Foreground Shadows", "FOREGROUND_SHADOWS_CONTAINER"),
    DropdownOption("Foreground Effects", "FOREGROUND_EFFECTS_CONTAINER"),
    DropdownOption("Foreground Front", "FOREGROUND_FRONT_CONTAINER")]
  }

  /** The layer name a container type sets (the characters container is named "Characters Container"). */
  function ContainerNameEffects(): seq<Effect> {
    [
    Effect([Equals("pluginMetadata[].containerType", "BACKGROUND_BEHIND_CONTAINER")], "name", Str("Background Behind")),
    Effect([Equals("pluginMetadata[].containerType", "BACKGROUND_STRUCTURES_CONTAINER")], "name", Str("Background Structures")),
    Effect([Equals("pluginMetadata[].containerType", "BACKGROUND_SHADOWS_CONTAINER")], "name", Str("Background Shadows")),
    Effect([Equals("pluginMetadata[].containerType", "BACKGROUND_EFFECTS_CONTAINER")], "name", Str("Background Effects")),
    Effect([Equals("pluginMetadata[].containerType", "CHARACTERS_BACK_CONTAINER")], "name", Str("Characters Back")),
    Effect([Equals("pluginMetadata[].containerType", "CHARACTERS_CONTAINER")], "name", Str("Characters Container")),
    Effect([Equals("pluginMetadata[].containerType", "CHARACTERS_FRONT_CONTAINER")], "name", Str("Characters Front")),
    Effect([Equals("pluginMetadata[].containerType", "FOREGROUND_STRUCTURES_CONTAINER")], "name", Str("Foreground Structures")),
    Effect([Equals("pluginMetadata[].containerType", "FOREGROUND_SHADOWS_CONTAINER")], "name", Str("Foreground Shadows")),
    Effect([Equals("pluginMetadata[].containerType", "FOREGROUND_EFFECTS_CONTAINER")], "name", Str("Foreground Effects")),
    Effect([Equals("pluginMetadata[].containerType", "FOREGROUND_FRONT_CONTAINER")], "name", Str("Foreground Front"))]
  }

  function ContainerLayerDefinition(): Definition {
    Definition(["CONTAINER_LAYER_METADATA"],
      [Dropdown("containerType", "Container Type", [NoneOption()] + ContainerOptions(), [])],
      ContainerNameEffects())
  }

  function StageDefinitions(): seq<Definition> {
    [StageCollisionBoxLayerDefinition()] + CollisionBoxSymbolStructureDefinitions()
    + [StagePointLayerDefinition(), LineSegmentLayerDefinition()] + LineSegmentSymbolStructureDefinitions()
    + [ContainerLayerDefinition()]
  }

  // ---------------------------------------------------------------------------
  // Stand-alone rect and line-segment assets
  // ---------------------------------------------------------------------------

  function RectCollisionAreaDefinitions(): seq<Definition> {
    [
    Definition(["COLLISION_BOX_LAYER_METADATA"],
      [Dropdown("collisionBoxType", "Collision Box Type", [NoneOption()] + RectCollisionAreaDropdownOptions(), [])],
      RectCollisionAreaEffects())]
  }

  function RectStructureDefinitions(): seq<Definition> {
    [Definition(["COLLISION_BOX_LAYER_METADATA"],
       [Dropdown("collisionBoxType", "Collision Box Type", [NoneOption()] + RectStructureDropdownOptions(), [])],
       RectStructureEffects())]
    + CollisionBoxSymbolStructureDefinitions()
  }

  function LineSegmentStructureDefinitions(): seq<Definition> {
    [LineSegmentLayerDefinition()] + LineSegmentSymbolStructureDefinitions()
  }

  // ---------------------------------------------------------------------------
  // The request
  // ---------------------------------------------------------------------------

  /** The plugin's own block of an asset's `pluginMetadata`. */
  function OwnBlock(pluginMetadata: Json): Json {
    Get(pluginMetadata, PluginKey)
  }

  /** The `objectType` the asset declares. */
  function DeclaredObjectType(pluginMetadata: Json): Json {
    Get(OwnBlock(pluginMetadata), "objectType")
  }

  predicate IsGameObjectType(objectType: Json) {
    objectType == Str("CHARACTER") || objectType == Str("PROJECTILE") || objectType == Str("ASSIST")
    || objectType == Str("CUSTOM_GAME_OBJECT") || objectType == Str("ENTITY")
  }

  /**
   * What `onMetadataDefinitionRequest` needs: a `pluginMetadata` its own key can
   * be read on (`undefined` or `null` would throw), and readable colours when it
   * builds the game-object colour effects.
   */
  predicate RequestReadable(pluginMetadata: Json, config: Config) {
    Dereferenceable(pluginMetadata)
    && (Truthy(OwnBlock(pluginMetadata)) && IsGameObjectType(DeclaredObjectType(pluginMetadata)) ==> ColorsReadable(config))
  }

  /**
   * The definitions pushed after `sent` for an asset declaring `objectType`:
   * those of each `objectType` test that succeeds (the tests are separate
   * `if`s, in this order).
   */
  function ObjectTypeDefinitions(sent: seq<Definition>, objectType: Json, bodyPresets: seq<BodyPreset>, config: Config): seq<Definition>
    requires IsGameObjectType(objectType) ==> ColorsReadable(config)
  {
    var game := if IsGameObjectType(objectType) then sent + GameObjectDefinitions(bodyPresets, config) else sent;
    var stage := if objectType == Str("STAGE") then game + StageDefinitions() else game;
    var area := if objectType == Str("RECT_COLLISION_AREA") then stage + RectCollisionAreaDefinitions() else stage;
    var rect := if objectType == Str("RECT_STRUCTURE") then area + RectStructureDefinitions() else area;
    if objectType == Str("LINE_SEGMENT_STRUCTURE") then rect + LineSegmentStructureDefinitions() else rect
  }

  /** The definitions sent back: the five fixed ones, then, when the asset has an own block, those of its `objectType`. */
  function MetadataDefinitions(pluginMetadata: Json, bodyPresets: seq<BodyPreset>, config: Config): seq<Definition>
    requires RequestReadable(pluginMetadata, config)
  {
    if !Truthy(OwnBlock(pluginMetadata)) then FixedDefinitions()
    else ObjectTypeDefinitions(FixedDefinitions(), DeclaredObjectType(pluginMetadata), bodyPresets, config)
  }

  /** The two pushes every request makes add up to the fixed definitions. */
  lemma FixedPushes()
    ensures [] + [SpriteEntityDefinition(), ScriptDefinition(), AudioDefinition(), NineSliceDefinition()]
          + [PaletteMapDefinition()] == FixedDefinitions()
  {
  }

  /** The four definitions the request pushes for a game object, with the collision-body dropdown and effects built by their loops. */
  method GameObjectLayers(bodyPresets: seq<BodyPreset>, config: Config) returns (layers: seq<Definition>)
    requires ColorsReadable(config)
    ensures layers == GameObjectDefinitions(bodyPresets, config)
  {
    var options := CollisionBodyLayerPresetOptions([NoneOption()], bodyPresets);
    var effects := CollisionBodyLayerPresetEffects([], bodyPresets);
    assert effects == PresetEffects(bodyPresets);
    var collisionBody := Definition(["COLLISION_BODY_LAYER_METADATA"],
                                    [Dropdown("collisionBodyLayerPresets", "ECB Preset", options, [])], effects);
    assert collisionBody == CollisionBodyLayerDefinition(bodyPresets);
    layers := [GameCollisionBoxLayerDefinition(config), GamePointLayerDefinition(), collisionBody, CollisionBodySymbolDefinition()];
  }

  /**
   * `onMetadataDefinitionRequest`: grows the list by pushes and returns it
   * (the plugin sends it to the editor). `bodyPresets` is the component's
   * collision-body preset state; `config` its configuration.
   */
  method OnMetadataDefinitionRequest(pluginMetadata: Json, bodyPresets: seq<BodyPreset>, config: Config)
    returns (definitions: seq<Definition>)
    requires RequestReadable(pluginMetadata, config)
    ensures definitions == MetadataDefinitions(pluginMetadata, bodyPresets, config)
  {
    hide SpriteEntityDefinition, ScriptDefinition, AudioDefinition, NineSliceDefinition, PaletteMapDefinition,
         FixedDefinitions, GameObjectDefinitions, StageDefinitions, RectCollisionAreaDefinitions,
         RectStructureDefinitions, LineSegmentStructureDefinitions;
    definitions := [];
    definitions := definitions + [SpriteEntityDefinition(), ScriptDefinition(), AudioDefinition(), NineSliceDefinition()];
    definitions := definitions + [PaletteMapDefinition()];
    FixedPushes();
    var block := Get(pluginMetadata, PluginKey);
    if Truthy(block) {
      var objectType := Get(block, "objectType");
      if IsGameObjectType(objectType) {
        var layers := GameObjectLayers(bodyPresets, config);
        definitions := definitions + layers;
      }
      if objectType == Str("STAGE") {
        definitions := definitions + StageDefinitions();
      }
      if objectType == Str("RECT_COLLISION_AREA") {
        definitions := definitions + RectCollisionAreaDefinitions();
      }
      if objectType == Str("RECT_STRUCTURE") {
        definitions := definitions + RectStructureDefinitions();
      }
      if objectType == Str("LINE_SEGMENT_STRUCTURE") {
        definitions := definitions + LineSegmentStructureDefinitions();
      }
    }
  }

  // ---------------------------------------------------------------------------
  // Properties
  // ---------------------------------------------------------------------------

  function OwnerTypes(definitions: seq<Definition>): (r: seq<seq<string>>)
    ensures |r| == |definitions|
    ensures forall i :: 0 <= i < |definitions| ==> r[i] == definitions[i].metadataOwnerTypes
  {
    seq(|definitions|, i requires 0 <= i < |definitions| => definitions[i].metadataOwnerTypes)
  }

  /**
   * The reference reading of the branches: at most one `objectType` test can
   * succeed, so they act as one `if`/`else if` chain.
   */
  function BranchDefinitions(objectType: Json, bodyPresets: seq<BodyPreset>, config: Config): seq<Definition>
    requires IsGameObjectType(objectType) ==> ColorsReadable(config)
  {
    if IsGameObjectType(objectType) then GameObjectDefinitions(bodyPresets, config)
    else if objectType == Str("STAGE") then StageDefinitions()
    else if objectType == Str("RECT_COLLISION_AREA") then RectCollisionAreaDefinitions()
    else if objectType == Str("RECT_STRUCTURE") then RectStructureDefinitions()
    else if objectType == Str("LINE_SEGMENT_STRUCTURE") then LineSegmentStructureDefinitions()
    else []
  }

  lemma OwnerTypesAppend(a: seq<Definition>, b: seq<Definition>)
    ensures OwnerTypes(a + b) == OwnerTypes(a) + OwnerTypes(b)
  {
  }

  /** The separate `objectType` tests push exactly one branch's definitions (possibly none) after what was sent. */
  lemma OneBranchPushed(sent: seq<Definition>, objectType: Json, bodyPresets: seq<BodyPreset>, config: Config)
    requires IsGameObjectType(objectType) ==> ColorsReadable(config)
    ensures ObjectTypeDefinitions(sent, objectType, bodyPresets, config)
         == sent + BranchDefinitions(objectType, bodyPresets, config)
  {
    hide GameObjectDefinitions, StageDefinitions, RectCollisionAreaDefinitions, RectStructureDefinitions,
         LineSegmentStructureDefinitions;
    if !IsGameObjectType(objectType) && objectType !in
         {Str("STAGE"), Str("RECT_COLLISION_AREA"), Str("RECT_STRUCTURE"), Str("LINE_SEGMENT_STRUCTURE")} {
      assert sent + [] == sent;
    }
  }

  /** The owners of the five fixed definitions. */
  lemma FixedOwnerTypes()
    ensures |FixedDefinitions()| == 5
    ensures OwnerTypes(FixedDefinitions())
         == [["SPRITE_ENTITY_ASSET_METADATA"], ["SCRIPT_ASSET_METADATA"], ["AUDIO_ASSET_METADATA"],
             ["NINE_SLICE_ASSET_METADATA"], ["PALETTE_MAP_METADATA"]]
  {
  }

  /** What a readable request gives: a `pluginMetadata` to read, and readable colours for a game-object branch. */
  lemma BranchReadable(pluginMetadata: Json, config: Config)
    requires RequestReadable(pluginMetadata, config)
    ensures Dereferenceable(pluginMetadata)
    ensures Truthy(OwnBlock(pluginMetadata)) && IsGameObjectType(DeclaredObjectType(pluginMetadata)) ==> ColorsReadable(config)
  {
  }

  /** The five fixed definitions always come first, in this order. */
  lemma FixedDefinitionsComeFirst(pluginMetadata: Json, bodyPresets: seq<BodyPreset>, config: Config)
    requires RequestReadable(pluginMetadata, config)
    ensures |MetadataDefinitions(pluginMetadata, bodyPresets, config)| >= 5
    ensures OwnerTypes(MetadataDefinitions(pluginMetadata, bodyPresets, config)[..5])
         == [["SPRITE_ENTITY_ASSET_METADATA"], ["SCRIPT_ASSET_METADATA"], ["AUDIO_ASSET_METADATA"],
             ["NINE_SLICE_ASSET_METADATA"], ["PALETTE_MAP_METADATA"]]
  {
    hide *;
    var d := MetadataDefinitions(pluginMetadata, bodyPresets, config);
    var fixed := FixedDefinitions();
    FixedOwnerTypes();
    BranchReadable(pluginMetadata, config);
    if Truthy(OwnBlock(pluginMetadata)) {
      var branch := BranchDefinitions(DeclaredObjectType(pluginMetadata), bodyPresets, config);
      OneBranchContributes(pluginMetadata, bodyPresets, config);
      SliceOfAppendLeft(fixed, branch, 0, 5);
    } else {
      AbsentBlockGivesFixedOnly(pluginMetadata, bodyPresets, config);
    }
    assert d[..5] == fixed;
  }

  /** Without an own block (or with a falsy one) nothing but the fixed definitions is sent. */
  lemma AbsentBlockGivesFixedOnly(pluginMetadata: Json, bodyPresets: seq<BodyPreset>, config: Config)
    requires Dereferenceable(pluginMetadata) && !Truthy(OwnBlock(pluginMetadata))
    ensures MetadataDefinitions(pluginMetadata, bodyPresets, config) == FixedDefinitions()
  {
  }

  /** With an own block, exactly one branch (possibly empty) follows the fixed definitions. */
  lemma OneBranchContributes(pluginMetadata: Json, bodyPresets: seq<BodyPreset>, config: Config)
    requires RequestReadable(pluginMetadata, config)
    requires Truthy(OwnBlock(pluginMetadata))
    ensures MetadataDefinitions(pluginMetadata, bodyPresets, config)
         == FixedDefinitions() + BranchDefinitions(DeclaredObjectType(pluginMetadata), bodyPresets, config)
  {
    hide ObjectTypeDefinitions, BranchDefinitions, FixedDefinitions;
    OneBranchPushed(FixedDefinitions(), DeclaredObjectType(pluginMetadata), bodyPresets, config);
  }

  /** A game-object type selects the game-object branch. */
  lemma GameObjectBranch(objectType: Json, bodyPresets: seq<BodyPreset>, config: Config)
    requires IsGameObjectType(objectType) && ColorsReadable(config)
    ensures BranchDefinitions(objectType, bodyPresets, config) == GameObjectDefinitions(bodyPresets, config)
  {
    hide GameObjectDefinitions;
  }

  /** The owners of the four game-object definitions. */
  lemma GameObjectOwnerTypes(bodyPresets: seq<BodyPreset>, config: Config)
    requires ColorsReadable(config)
    ensures OwnerTypes(GameObjectDefinitions(bodyPresets, config))
         == [["COLLISION_BOX_LAYER_METADATA"], ["POINT_LAYER_METADATA"],
             ["COLLISION_BODY_LAYER_METADATA"], ["COLLISION_BODY_SYMBOL_METADATA"]]
  {
    hide PresetEffectsFor, BoxNameEffects, GameCollisionBoxTypeOptions, IndexEffect, PresetChoices, PresetEffects,
         NoneOption;
  }

  /** Game objects get the collision-box layer, point layer, collision-body layer and collision-body symbol, in this order. */
  lemma GameObjectOwnerOrder(pluginMetadata: Json, bodyPresets: seq<BodyPreset>, config: Config)
    requires RequestReadable(pluginMetadata, config)
    requires Truthy(OwnBlock(pluginMetadata)) && IsGameObjectType(DeclaredObjectType(pluginMetadata))
    ensures OwnerTypes(MetadataDefinitions(pluginMetadata, bodyPresets, config))
         == OwnerTypes(FixedDefinitions())
         + [["COLLISION_BOX_LAYER_METADATA"], ["POINT_LAYER_METADATA"],
            ["COLLISION_BODY_LAYER_METADATA"], ["COLLISION_BODY_SYMBOL_METADATA"]]
  {
    hide *;
    BranchReadable(pluginMetadata, config);
    OneBranchContributes(pluginMetadata, bodyPresets, config);
    GameObjectBranch(DeclaredObjectType(pluginMetadata), bodyPresets, config);
    OwnerTypesAppend(FixedDefinitions(), GameObjectDefinitions(bodyPresets, config));
    GameObjectOwnerTypes(bodyPresets, config);
  }

  /** Stages get six definitions, in this order. */
  lemma StageOwnerOrder()
    ensures OwnerTypes(StageDefinitions())
         == [["COLLISION_BOX_LAYER_METADATA"], ["COLLISION_BOX_SYMBOL_METADATA"], ["POINT_LAYER_METADATA"],
             ["LINE_SEGMENT_LAYER_METADATA"], ["LINE_SEGMENT_SYMBOL_METADATA"], ["CONTAINER_LAYER_METADATA"]]
  {
    hide RectCollisionAreaDropdownOptions, RectStructureDropdownOptions, RectCollisionAreaEffects, RectStructureEffects,
         ContainerOptions, ContainerNameEffects, ShadowLight, IndexEffect, NoneOption, LineSegmentStructureDropdownOptions,
         InStructureSegment;
  }

  /** The ECB dropdown offers None and then one choice per preset, in list order. */
  lemma {:induction false} CollisionBodyPresetDropdown(presets: seq<BodyPreset>)
    ensures CollisionBodyLayerDefinition(presets).fields[0].options.Some?
    ensures var options := CollisionBodyLayerDefinition(presets).fields[0].options.value;
            |options| == |presets| + 1 && options[0] == NoneOption()
            && forall i :: 0 <= i < |presets| ==> options[i + 1] == DropdownOption(presets[i].name, presets[i].id)
  {
  }

  /** The ECB effects are five per preset, preset after preset: effects `5 * i` to `5 * i + 4` are preset `i`'s. */
  lemma {:induction false} PresetEffectsBlock(presets: seq<BodyPreset>, i: nat)
    requires i < |presets|
    ensures PresetEffects(presets)[5 * i .. 5 * i + 5] == EffectsFromCollisionBodyLayerPreset(presets[i])
  {
    hide EffectsFromCollisionBodyLayerPreset;
    var init := presets[..|presets| - 1];
    var last := EffectsFromCollisionBodyLayerPreset(presets[|presets| - 1]);
    assert PresetEffects(presets) == PresetEffects(init) + last;
    if i < |init| {
      PresetEffectsBlock(init, i);
      assert presets[i] == init[i];
      SliceOfAppendLeft(PresetEffects(init), last, 5 * i, 5 * i + 5);
    } else {
      assert 5 * i == |PresetEffects(init)|;
      SliceOfAppendRight(PresetEffects(init), last);
    }
  }

  lemma PresetEffectsLayout(presets: seq<BodyPreset>)
    ensures forall i :: 0 <= i < |presets| ==>
              PresetEffects(presets)[5 * i .. 5 * i + 5] == EffectsFromCollisionBodyLayerPreset(presets[i])
  {
    forall i | 0 <= i < |presets|
      ensures PresetEffects(presets)[5 * i .. 5 * i + 5] == EffectsFromCollisionBodyLayerPreset(presets[i])
    {
      PresetEffectsBlock(presets, i);
    }
  }

  /** An index below `5 * n` lies in block `k / 5 < n`, at offset `k % 5` (helper for `PresetEffectsGating`). */
  lemma DivideByFive(k: nat, n: nat)
    requires k < 5 * n
    ensures k == 5 * (k / 5) + k % 5 && k / 5 < n && k % 5 < 5
  {
  }

  /** Every ECB effect is gated on the dropdown choosing the id of the preset it comes from. */
  lemma PresetEffectsGating(presets: seq<BodyPreset>, k: nat)
    requires k < |PresetEffects(presets)|
    ensures k / 5 < |presets|
    ensures PresetEffects(presets)[k].dependsOn == [Equals(CollisionBodyPresetField, presets[k / 5].id)]
    ensures PresetEffects(presets)[k].outputField == BodyPresetOutputs()[k % 5]
  {
    var i, j := k / 5, k % 5;
    hide *;
    DivideByFive(k, |presets|);
    PresetEffectsBlock(presets, i);
    SliceIndex(PresetEffects(presets), 5 * i, 5 * i + 5, j);
  }

  /** The colour pairs of a list of box types: pair `i` is the colour effects of box type `i`. */
  lemma {:induction false} PresetEffectsForPair(config: Config, codes: seq<string>, i: nat)
    requires forall i :: 0 <= i < |codes| ==> codes[i] in BoxTypesMap
    requires ColorsReadable(config)
    requires i < |codes|
    ensures PresetEffectsFor(config, codes)[2 * i .. 2 * i + 2] == CollisionBoxLayerPresetFor(config, codes[i])
  {
    hide CollisionBoxLayerPresetFor, PresetAlpha, PresetColor, PresetStyle;
    var init := codes[..|codes| - 1];
    var last := CollisionBoxLayerPresetFor(config, codes[|codes| - 1]);
    assert PresetEffectsFor(config, codes) == PresetEffectsFor(config, init) + last;
    if i < |init| {
      PresetEffectsForPair(config, init, i);
      assert codes[i] == init[i];
      SliceOfAppendLeft(PresetEffectsFor(config, init), last, 2 * i, 2 * i + 2);
    } else {
      assert 2 * i == |PresetEffectsFor(config, init)|;
      SliceOfAppendRight(PresetEffectsFor(config, init), last);
    }
  }

  lemma PresetEffectsForLayout(config: Config, codes: seq<string>)
    requires forall i :: 0 <= i < |codes| ==> codes[i] in BoxTypesMap
    requires ColorsReadable(config)
    ensures forall i :: 0 <= i < |codes| ==>
              PresetEffectsFor(config, codes)[2 * i .. 2 * i + 2] == CollisionBoxLayerPresetFor(config, codes[i])
  {
    forall i | 0 <= i < |codes|
      ensures PresetEffectsFor(config, codes)[2 * i .. 2 * i + 2] == CollisionBoxLayerPresetFor(config, codes[i])
    {
      PresetEffectsForPair(config, codes, i);
    }
  }

  /** The game collision-box layer carries, right after the index effect, the two colour effects of every box type in `BOX_TYPES` order. */
  lemma GameColorEffects(config: Config, i: nat)
    requires ColorsReadable(config)
    requires i < |BoxTypeCodes|
    ensures BoxTypeCodes[i] in BoxTypesMap
    ensures GameCollisionBoxLayerDefinition(config).effects[1 + 2 * i .. 3 + 2 * i]
         == CollisionBoxLayerPresetFor(config, BoxTypeCodes[i])
  {
    hide CollisionBoxLayerPresetFor, PresetAlpha, PresetColor, PresetStyle, PresetEffectsFor,
         BoxNameEffects, GameCollisionBoxTypeOptions, IndexEffect;
    BoxTypeCodesPrefixes();
    PresetEffectsForPair(config, BoxTypeCodes, i);
    var e := GameCollisionBoxLayerDefinition(config).effects;
    var p := PresetEffectsFor(config, BoxTypeCodes);
    assert e == [IndexEffect(CollisionBoxTypeField, HitBoxTypes)] + p + BoxNameEffects();
    assert e[1 + 2 * i .. 3 + 2 * i] == p[2 * i .. 2 * i + 2];
  }

  /** With an active preset that exists, the colours are that preset's (the first with the id), with `#` turned into `0x`. */
  lemma ActivePresetColors(config: Config, code: string, k: nat)
    requires code in BoxTypesMap
    requires config.activeCollisionBoxLayerPreset.Some? && config.activeCollisionBoxLayerPreset.value != ""
    requires k < |config.collisionBoxLayerPresets|
    requires config.collisionBoxLayerPresets[k].id == config.activeCollisionBoxLayerPreset.value
    requires forall j :: 0 <= j < k ==> config.collisionBoxLayerPresets[j].id != config.activeCollisionBoxLayerPreset.value
    requires WellTypedStyle(config.collisionBoxLayerPresets[k].style)
    ensures ColorsReadable(config)
    ensures PresetAlpha(config, code) == Lookup(config.collisionBoxLayerPresets[k].style, AlphaKey(BoxTypesMap[code]))
    ensures PresetColor(config, code) == HexColor(Lookup(config.collisionBoxLayerPresets[k].style, ColorKey(BoxTypesMap[code])).s)
  {
    FindFirst(config.collisionBoxLayerPresets, config.activeCollisionBoxLayerPreset.value, BoxId, k);
    assert PresetStyle(config) == config.collisionBoxLayerPresets[k].style;
  }

  /** Without an active preset that exists, the colours are the defaults: alpha 0.5 and the default colour with `0x` for `#`. */
  lemma DefaultPresetColors(config: Config, code: string)
    requires code in BoxTypesMap
    requires ActivePreset(config).None?
    ensures ColorsReadable(config)
    ensures PresetAlpha(config, code) == Num(0.5)
    ensures |DefaultColor(BoxTypesMap[code])| == 7 && DefaultColor(BoxTypesMap[code])[0] == '#'
    ensures PresetColor(config, code) == "0x" + DefaultColor(BoxTypesMap[code])[1..]
  {
    assert PresetStyle(config) == DefaultStyle;
    DefaultsCoverBoxTypes();
    DefaultColorsAreHex();
    BoxTypesMapIsBijection();
    assert BoxTypesMap[code] in BoxTypes;
  }

  /** A colour already in `0x` form is left alone, so converting twice is converting once. */
  lemma HexColorIdempotent(color: string)
    ensures HexColor(HexColor(color)) == HexColor(color)
  {
  }

  /** The game collision-box type choices are None and exactly the ten box types of the colour presets. */
  lemma GameBoxTypeChoicesAreBoxTypes()
    ensures GameCollisionBoxTypeOptions()[0] == NoneOption()
    ensures (set i | 1 <= i < |GameCollisionBoxTypeOptions()| :: GameCollisionBoxTypeOptions()[i].value) == BoxTypesMap.Keys
  {
    var s := set i | 1 <= i < |GameCollisionBoxTypeOptions()| :: GameCollisionBoxTypeOptions()[i].value;
    BoxTypeCodesAreKeys();
    forall c | c in BoxTypeCodes
      ensures c in s
    {
      var k :| 0 <= k < |BoxTypeCodes| && BoxTypeCodes[k] == c;
      assert GameCollisionBoxTypeOptions()[[2, 1, 3, 4, 5, 6, 7, 8, 9, 10][k]].value == c;
    }
  }

  /** Each box type's name effect names the layer by that type's style-key prefix and the index. */
  lemma BoxNamesUsePrefixes(i: nat)
    requires i < |BoxNameEffects()|
    ensures |BoxNameEffects()[i].dependsOn| == 1
    ensures BoxNameEffects()[i].dependsOn[0].inputValue.Str?
    ensures var code := BoxNameEffects()[i].dependsOn[0].inputValue.s;
            code in BoxTypesMap && BoxNameEffects()[i].outputValue == Str(BoxTypesMap[code] + IndexTemplate)
  {
    BoxTypeCodesPrefixes();
    var k := [1, 0, 2, 3, 4, 5, 6, 7, 8, 9][i];
    assert BoxNameEffects()[i] == Effect([Equals(CollisionBoxTypeField, BoxTypeCodes[k])], "name", Str(BoxTypes[k] + IndexTemplate));
  }

  /** The choices of the `objectType` dropdown are every object type except `ENTITY`. */
  lemma ObjectTypeChoices()
    ensures (set i | 0 <= i < |ObjectTypeOptions()| :: ObjectTypeOptions()[i].value)
         == (set t | t in ObjectTypes) - {"ENTITY"}
  {
    var s := set i | 0 <= i < |ObjectTypeOptions()| :: ObjectTypeOptions()[i].value;
    forall t | t in ObjectTypes && t != "ENTITY"
      ensures t in s
    {
      var k :| 0 <= k < |ObjectTypes| && ObjectTypes[k] == t;
      assert ObjectTypeOptions()[[0, 0, 1, 2, 3, 10, 4, 5, 6, 7, 8, 9][k]].value == t;
    }
  }
}
