/**
 * The plugin's default configuration and the two callbacks by which the
 * preset editors write their lists back into the configuration: each copies
 * the configuration and replaces only the fields it owns.
 */
module ConfigUpdates {
  import opened Wrappers
  import opened Versions
  import opened Types

  /** `getDefaultSettings()`: the manifest version, no presets and no active box preset. */
  function DefaultSettings(manifest: Version): Config {
    Config(Text(manifest), [], None, [])
  }

  /** `onCollisionBodyLayerPresetsUpdated`: the config with a new collision-body preset list. */
  function OnCollisionBodyLayerPresetsUpdated(config: Config, presets: seq<BodyPreset>): (r: Config)
    ensures r.collisionBodyLayerPresets == presets
    ensures r.version == config.version
    ensures r.activeCollisionBoxLayerPreset == config.activeCollisionBoxLayerPreset
    ensures r.collisionBoxLayerPresets == config.collisionBoxLayerPresets
  {
    config.(collisionBodyLayerPresets := presets)
  }

  /** `onCollisionBoxLayerPresetsUpdated`: the config with a new active box preset and box preset list. */
  function OnCollisionBoxLayerPresetsUpdated(config: Config, activePreset: Option<string>, presets: seq<BoxPreset>): (r: Config)
    ensures r.activeCollisionBoxLayerPreset == activePreset
    ensures r.collisionBoxLayerPresets == presets
    ensures r.version == config.version
    ensures r.collisionBodyLayerPresets == config.collisionBodyLayerPresets
  {
    config.(activeCollisionBoxLayerPreset := activePreset, collisionBoxLayerPresets := presets)
  }

  /** The two callbacks own disjoint fields, so their order does not matter. */
  lemma UpdatesCommute(config: Config, body: seq<BodyPreset>, active: Option<string>, boxes: seq<BoxPreset>)
    ensures OnCollisionBoxLayerPresetsUpdated(OnCollisionBodyLayerPresetsUpdated(config, body), active, boxes)
         == OnCollisionBodyLayerPresetsUpdated(OnCollisionBoxLayerPresetsUpdated(config, active, boxes), body)
  {
  }

  /** Each callback overwrites: only the latest update of a field survives, and re-sending the current lists changes nothing. */
  lemma LatestUpdateWins(config: Config, b1: seq<BodyPreset>, b2: seq<BodyPreset>,
                         a1: Option<string>, a2: Option<string>, x1: seq<BoxPreset>, x2: seq<BoxPreset>)
    ensures OnCollisionBodyLayerPresetsUpdated(OnCollisionBodyLayerPresetsUpdated(config, b1), b2)
         == OnCollisionBodyLayerPresetsUpdated(config, b2)
    ensures OnCollisionBoxLayerPresetsUpdated(OnCollisionBoxLayerPresetsUpdated(config, a1, x1), a2, x2)
         == OnCollisionBoxLayerPresetsUpdated(config, a2, x2)
    ensures OnCollisionBodyLayerPresetsUpdated(config, config.collisionBodyLayerPresets) == config
    ensures OnCollisionBoxLayerPresetsUpdated(config, config.activeCollisionBoxLayerPreset, config.collisionBoxLayerPresets) == config
  {
  }
}
