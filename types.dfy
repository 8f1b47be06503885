/**
 * The plugin's records: collision-body (ECB) presets, collision-box colour
 * presets and the plugin configuration, plus the object types an asset can
 * declare.
 */
module Types {
  import opened Wrappers
  import opened Json

  /** A collision-body preset. The numbers are the parsed form inputs, kept as reals. */
  datatype BodyPreset = BodyPreset(
    id: string,
    name: string,
    foot: real,
    head: real,
    hipWidth: real,
    hipXOffset: real,
    hipYOffset: real)

  /**
   * A collision-box colour preset `{id, name, ...style}`. `style` holds the
   * `<prefix>Color` / `<prefix>Alpha` keys in insertion order; a preset saved by
   * an older plugin may carry further keys (such as `holdboxColor`).
   */
  datatype BoxPreset = BoxPreset(id: string, name: string, style: seq<Entry>)

  /**
   * The plugin configuration. `version == ""` stands for a missing version
   * (both are falsy); `activeCollisionBoxLayerPreset == None` is `null`.
   */
  datatype Config = Config(
    version: string,
    collisionBodyLayerPresets: seq<BodyPreset>,
    activeCollisionBoxLayerPreset: Option<string>,
    collisionBoxLayerPresets: seq<BoxPreset>)

  /** The object types an asset's plugin block can declare. */
  const ObjectTypes: seq<string> := [
    "NONE", "ENTITY", "CHARACTER", "PROJECTILE", "ASSIST", "CUSTOM_GAME_OBJECT",
    "STAGE", "COLLISION_AREA", "RECT_COLLISION_AREA", "RECT_STRUCTURE",
    "LINE_SEGMENT_STRUCTURE", "MATCH_RULES"]

  function BodyId(p: BodyPreset): string { p.id }

  function BoxId(p: BoxPreset): string { p.id }
}
