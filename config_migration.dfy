/**
 * The configuration migration run when the plugin loads a stored configuration:
 * three version-gated steps, each of which bumps the version into the next
 * step's range, and finally the manifest version is stamped. A missing
 * (empty) version counts as the oldest version. The configuration record is
 * changed in place.
 */
module ConfigMigration {
  import opened Wrappers
  import opened Seqs
  import opened Json
  import opened Versions
  import opened Types
  import opened ConfigUpdates

  const V0_0_11 := Version(0, 0, 11)
  const V0_0_12 := Version(0, 0, 12)
  const V0_0_19 := Version(0, 0, 19)
  const V0_0_20 := Version(0, 0, 20)
  const V0_1_0 := Version(0, 1, 0)
  const V0_1_1 := Version(0, 1, 1)

  /** `semverCompare(text, bound) <= 0` for a stored version text. */
  predicate AtMostText(text: string, bound: Version) {
    ParseVersion(text).Some? && AtMost(ParseVersion(text).value, bound)
  }

  /** The stored version is missing or readable; `semverCompare` is not defined on other text. */
  predicate WellVersioned(config: Config) {
    config.version == "" || ParseVersion(config.version).Some?
  }

  /** A box preset with the legacy `holdboxColor` and `holdboxAlpha` keys deleted. */
  function WithoutHoldbox(preset: BoxPreset): (r: BoxPreset)
    ensures r.id == preset.id && r.name == preset.name
    ensures Lookup(r.style, "holdboxColor") == Undefined && Lookup(r.style, "holdboxAlpha") == Undefined
    ensures forall k :: k != "holdboxColor" && k != "holdboxAlpha" ==> Lookup(r.style, k) == Lookup(preset.style, k)
    ensures "holdboxColor" !in Keys(r.style) && "holdboxAlpha" !in Keys(r.style)
    ensures forall e :: e in r.style <==> e in preset.style && e.key != "holdboxColor" && e.key != "holdboxAlpha"
    ensures IsSubsequence(r.style, preset.style)
  {
    var once := Remove(preset.style, "holdboxColor");
    var twice := Remove(once, "holdboxAlpha");
    SubsequenceTransitive(twice, once, preset.style);
    preset.(style := twice)
  }

  function WithoutHoldboxAll(presets: seq<BoxPreset>): (r: seq<BoxPreset>)
    ensures |r| == |presets|
    ensures forall i :: 0 <= i < |presets| ==> r[i] == WithoutHoldbox(presets[i])
  {
    seq(|presets|, i requires 0 <= i < |presets| => WithoutHoldbox(presets[i]))
  }

  /** Up to 0.0.11 (or no version): bump to 0.0.12 and drop the collision-body presets. */
  function Step1(c: Config): Config {
    if c.version == "" || AtMostText(c.version, V0_0_11)
    then c.(version := Text(V0_0_12), collisionBodyLayerPresets := [])
    else c
  }

  /** Up to 0.0.19: bump to 0.0.20, clear the active box preset and drop the box presets. */
  function Step2(c: Config): Config {
    if AtMostText(c.version, V0_0_19)
    then c.(version := Text(V0_0_20), activeCollisionBoxLayerPreset := None, collisionBoxLayerPresets := [])
    else c
  }

  /** Up to 0.1.0: bump to 0.1.1 and delete the holdbox keys from every box preset. */
  function Step3(c: Config): Config {
    if AtMostText(c.version, V0_1_0)
    then c.(version := Text(V0_1_1), collisionBoxLayerPresets := WithoutHoldboxAll(c.collisionBoxLayerPresets))
    else c
  }

  /** The whole handler: the three steps in order, then the manifest version. */
  function MigrateConfig(c: Config, manifest: Version): Config {
    Step3(Step2(Step1(c))).(version := Text(manifest))
  }

  /** The configuration object the handler receives and changes in place. */
  class PluginConfig {
    var version: string
    var collisionBodyLayerPresets: seq<BodyPreset>
    var activeCollisionBoxLayerPreset: Option<string>
    var collisionBoxLayerPresets: seq<BoxPreset>

    constructor (c: Config)
      ensures Value() == c
    {
      version := c.version;
      collisionBodyLayerPresets := c.collisionBodyLayerPresets;
      activeCollisionBoxLayerPreset := c.activeCollisionBoxLayerPreset;
      collisionBoxLayerPresets := c.collisionBoxLayerPresets;
    }

    function Value(): Config
      reads this
    {
      Config(version, collisionBodyLayerPresets, activeCollisionBoxLayerPreset, collisionBoxLayerPresets)
    }

    /** The loop of the third step: deletes the holdbox keys from every box preset in place. */
    method StripHoldboxKeys()
      modifies this
      ensures collisionBoxLayerPresets == WithoutHoldboxAll(old(collisionBoxLayerPresets))
      ensures version == old(version)
      ensures collisionBodyLayerPresets == old(collisionBodyLayerPresets)
      ensures activeCollisionBoxLayerPreset == old(activeCollisionBoxLayerPreset)
    {
      ghost var before := collisionBoxLayerPresets;
      for i := 0 to |collisionBoxLayerPresets|
        invariant version == old(version)
        invariant collisionBodyLayerPresets == old(collisionBodyLayerPresets)
        invariant activeCollisionBoxLayerPreset == old(activeCollisionBoxLayerPreset)
        invariant |collisionBoxLayerPresets| == |before|
        invariant forall j :: 0 <= j < i ==> collisionBoxLayerPresets[j] == WithoutHoldbox(before[j])
        invariant forall j :: i <= j < |before| ==> collisionBoxLayerPresets[j] == before[j]
      {
        var preset := collisionBoxLayerPresets[i];
        preset := preset.(style := Remove(preset.style, "holdboxColor"));
        preset := preset.(style := Remove(preset.style, "holdboxAlpha"));
        collisionBoxLayerPresets := collisionBoxLayerPresets[i := preset];
      }
    }

    /** `migrationHandler`, with the manifest version as a parameter. */
    method MigrationHandler(manifest: Version)
      modifies this
      ensures Value() == MigrateConfig(old(Value()), manifest)
    {
      if version == "" || AtMostText(version, V0_0_11) {
        version := Text(V0_0_12);
        collisionBodyLayerPresets := [];
      }
      if AtMostText(version, V0_0_19) {
        version := Text(V0_0_20);
        activeCollisionBoxLayerPreset := None;
        collisionBoxLayerPresets := [];
      }
      if AtMostText(version, V0_1_0) {
        version := Text(V0_1_1);
        StripHoldboxKeys();
      }
      version := Text(manifest);
    }
  }

  /** Every bump lands inside the next step's range and above the previous step's. */
  lemma BumpsLandInNextGate()
    ensures AtMostText(Text(V0_0_12), V0_0_19) && !AtMostText(Text(V0_0_12), V0_0_11)
    ensures AtMostText(Text(V0_0_20), V0_1_0) && !AtMostText(Text(V0_0_20), V0_0_19)
    ensures !AtMostText(Text(V0_1_1), V0_1_0)
  {
    ParseText(V0_0_12);
    ParseText(V0_0_20);
    ParseText(V0_1_1);
  }

  /** After the handler the version is always the manifest version. */
  lemma MigratedVersionIsManifest(c: Config, manifest: Version)
    ensures MigrateConfig(c, manifest).version == Text(manifest)
    ensures WellVersioned(MigrateConfig(c, manifest))
  {
    ParseText(manifest);
  }

  /** A configuration without a version goes through all three steps and ends up empty. */
  lemma MissingVersionRunsEveryStep(c: Config, manifest: Version)
    requires c.version == ""
    ensures MigrateConfig(c, manifest) == Config(Text(manifest), [], None, [])
  {
    BumpsLandInNextGate();
  }

  /** Up to 0.0.11: the collision-body presets are dropped and, as the later steps follow, the box presets too. */
  lemma UpTo0_0_11DropsAllPresets(c: Config, manifest: Version)
    requires AtMostText(c.version, V0_0_11)
    ensures MigrateConfig(c, manifest) == Config(Text(manifest), [], None, [])
  {
    BumpsLandInNextGate();
  }

  /** From 0.0.12 to 0.0.19: box presets and the active box preset are dropped, body presets are kept. */
  lemma UpTo0_0_19DropsBoxPresets(c: Config, manifest: Version)
    requires AtMostText(c.version, V0_0_19) && !AtMostText(c.version, V0_0_11)
    ensures MigrateConfig(c, manifest) == Config(Text(manifest), c.collisionBodyLayerPresets, None, [])
  {
    BumpsLandInNextGate();
  }

  /** From 0.0.20 to 0.1.0: only the holdbox keys of the box presets go, and the version is stamped. */
  lemma UpTo0_1_0StripsHoldboxKeys(c: Config, manifest: Version)
    requires AtMostText(c.version, V0_1_0) && !AtMostText(c.version, V0_0_19)
    ensures MigrateConfig(c, manifest)
         == c.(version := Text(manifest), collisionBoxLayerPresets := WithoutHoldboxAll(c.collisionBoxLayerPresets))
  {
    BumpsLandInNextGate();
    assert !AtMostText(c.version, V0_0_11);
  }

  /** Past 0.1.0 only the version field changes. */
  lemma Past0_1_0OnlyVersionChanges(c: Config, manifest: Version)
    requires c.version != "" && !AtMostText(c.version, V0_1_0)
    ensures MigrateConfig(c, manifest) == c.(version := Text(manifest))
  {
    assert !AtMostText(c.version, V0_0_11) && !AtMostText(c.version, V0_0_19);
  }

  /** With a manifest past 0.1.0, migrating a migrated configuration changes nothing. */
  lemma MigrationIsIdempotent(c: Config, manifest: Version)
    requires Compare(manifest, V0_1_0) > 0
    ensures MigrateConfig(MigrateConfig(c, manifest), manifest) == MigrateConfig(c, manifest)
  {
    ParseText(manifest);
    var r := MigrateConfig(c, manifest);
    assert r.version != "";
    Past0_1_0OnlyVersionChanges(r, manifest);
  }

  /** The default settings are a fixed point of the migration, whatever the manifest version. */
  lemma DefaultSettingsNeedNoMigration(manifest: Version)
    ensures MigrateConfig(DefaultSettings(manifest), manifest) == DefaultSettings(manifest)
  {
    var d := DefaultSettings(manifest);
    ParseText(manifest);
    BumpsLandInNextGate();
    assert WithoutHoldboxAll([]) == [];
  }

  /** Deleting the holdbox keys twice is deleting them once. */
  lemma WithoutHoldboxIdempotent(preset: BoxPreset)
    ensures WithoutHoldbox(WithoutHoldbox(preset)) == WithoutHoldbox(preset)
  {
    var r := WithoutHoldbox(preset);
    var once := Remove(r.style, "holdboxColor");
    RemoveAbsent(r.style, "holdboxColor");
    RemoveAbsent(once, "holdboxAlpha");
  }
}
