/**
 * The asset metadata migration the editor requests when it opens a document:
 * the plugin's own block of the document's `pluginMetadata` carries the
 * version the document was last migrated to, and five version-gated steps
 * rewrite layers, keyframes and symbols written by older plugin versions.
 * Each rewritten node is a deep clone of the document's node (values here), so
 * the document's own nodes never change; the clones are collected into a
 * change set, and the own block ends at the manifest version.
 */
module AssetMigration {
  import opened Wrappers
  import opened Seqs
  import opened Json
  import opened Versions

  const V0_0_1 := Version(0, 0, 1)
  const V0_0_6 := Version(0, 0, 6)
  const V0_0_8 := Version(0, 0, 8)
  const V0_0_9 := Version(0, 0, 9)
  const V0_0_10 := Version(0, 0, 10)
  const V0_0_13 := Version(0, 0, 13)
  const V0_0_14 := Version(0, 0, 14)
  const V0_0_18 := Version(0, 0, 18)
  const V0_0_19 := Version(0, 0, 19)
  const V0_0_21 := Version(0, 0, 21)
  const V0_0_22 := Version(0, 0, 22)

  /** The document as the request sees it: the layer, keyframe and symbol lists are present or not. */
  datatype Asset = Asset(pluginMetadata: seq<Entry>, layers: Option<Json>, keyframes: Option<Json>, symbols: Option<Json>)

  /** `otherFieldsToUpdate`: each list exists once a first clone has been pushed onto it. */
  datatype Changes = Changes(layers: Option<seq<Json>>, keyframes: Option<seq<Json>>, symbols: Option<seq<Json>>)

  /** The migration sent back: the new `pluginMetadata` and the lists of replaced nodes. */
  datatype Migration = Migration(pluginMetadata: seq<Entry>, layers: Option<seq<Json>>, keyframes: Option<seq<Json>>,
                                 symbols: Option<seq<Json>>)

  /**
   * The JavaScript coercions the model does not compute itself: `v >= 0` for a
   * string or an array, the template text `${v}` of a fractional or very large
   * number, an array or an object, and `x + w / 2` when either is not a number.
   */
  datatype Coercions = Coercions(atLeastZero: Json -> bool, text: Json -> string, plusHalf: (Json, Json) -> Json)

  /** The migration state: the own block being edited and the change set so far. */
  datatype Progress = Progress(block: Json, changes: Changes)

  // ---------------------------------------------------------------------------
  // Version gates
  // ---------------------------------------------------------------------------

  /** `semverCompare(v, lo) >= 0 && semverCompare(v, hi) <= 0` on a stored version. */
  predicate Within(v: Json, lo: Version, hi: Version) {
    v.Str? && ParseVersion(v.s).Some? && AtMost(lo, ParseVersion(v.s).value) && AtMost(ParseVersion(v.s).value, hi)
  }

  /** `semverCompare(v, hi) <= 0` on a stored version. */
  predicate UpTo(v: Json, hi: Version) {
    v.Str? && ParseVersion(v.s).Some? && AtMost(ParseVersion(v.s).value, hi)
  }

  function VersionOf(block: Json): Json {
    Get(block, "version")
  }

  // ---------------------------------------------------------------------------
  // Nodes
  // ---------------------------------------------------------------------------

  /** A node's block of the plugin: `node.pluginMetadata[pluginId]`. */
  function BlockOf(node: Json, pluginId: string): Json {
    Get(Get(node, "pluginMetadata"), pluginId)
  }

  /** The node with its block of the plugin replaced. */
  function WithBlock(node: Json, pluginId: string, block: Json): Json {
    Set(node, "pluginMetadata", Set(Get(node, "pluginMetadata"), pluginId, block))
  }

  lemma BlockOfWithBlock(node: Json, pluginId: string, block: Json)
    requires Get(node, "pluginMetadata").Obj?
    ensures BlockOf(WithBlock(node, pluginId, block), pluginId) == block
    ensures forall k :: k != "pluginMetadata" ==> Get(WithBlock(node, pluginId, block), k) == Get(node, k)
  {
  }

  /** `/^holdbox\d+/.test(name)`. */
  predicate HoldboxName(name: Json) {
    name.Str? && |name.s| > 7 && name.s[..7] == "holdbox" && '0' <= name.s[7] <= '9'
  }

  /** `s.replace(pattern, replacement)` with a text pattern: only the first occurrence is replaced. */
  function ReplaceFirst(s: string, pattern: string, replacement: string): (r: string)
    ensures |pattern| <= |s| && s[..|pattern|] == pattern ==> r == replacement + s[|pattern|..]
  {
    if |pattern| <= |s| && s[..|pattern|] == pattern then replacement + s[|pattern|..]
    else if |s| == 0 then s
    else [s[0]] + ReplaceFirst(s[1..], pattern, replacement)
  }

  /** The pattern occurs in `s` at position `i`. */
  predicate OccursAt(s: string, pattern: string, i: nat) {
    i + |pattern| <= |s| && s[i..i + |pattern|] == pattern
  }

  /** Text that does not contain the pattern anywhere is left alone. */
  lemma {:induction false} ReplaceFirstAbsent(s: string, pattern: string, replacement: string)
    requires forall i: nat :: i <= |s| ==> !OccursAt(s, pattern, i)
    ensures ReplaceFirst(s, pattern, replacement) == s
  {
    assert !OccursAt(s, pattern, 0);
    assert |pattern| <= |s| ==> s[0..|pattern|] == s[..|pattern|];
    if |s| > 0 {
      forall i: nat | i <= |s[1..]|
        ensures !OccursAt(s[1..], pattern, i)
      {
        assert !OccursAt(s, pattern, i + 1);
        if i + |pattern| <= |s[1..]| {
          assert s[1..][i..i + |pattern|] == s[i + 1..i + 1 + |pattern|];
        }
      }
      ReplaceFirstAbsent(s[1..], pattern, replacement);
      assert [s[0]] + s[1..] == s;
    }
  }

  /** The stage containers renamed by the 0.0.14 migration: the new layer name and container type. */
  function ContainerRename(containerType: Json): (r: Option<(string, string)>)
    ensures r.Some? <==> containerType in {Str("BACKGROUND_CONTAINER"), Str("OBJECTS_CONTAINER"), Str("FOREGROUND_CONTAINER")}
  {
    if containerType == Str("BACKGROUND_CONTAINER") then Some(("Background Effects", "BACKGROUND_EFFECTS_CONTAINER"))
    else if containerType == Str("OBJECTS_CONTAINER") then Some(("Characters", "CHARACTERS_CONTAINER"))
    else if containerType == Str("FOREGROUND_CONTAINER") then Some(("Foreground Effects", "FOREGROUND_EFFECTS_CONTAINER"))
    else None
  }

  /**
   * The per-node rewrites of the steps. The holdbox keyframe and symbol rules
   * carry the ids indexed by the layer and keyframe passes before them.
   */
  datatype Rule =
    | DropObjectType
    | DropShadowIndex
    | RenameContainer
    | ShadowIds
    | HoldboxLayer
    | HoldboxKeyframe(layerKeyframeIds: set<Json>)
    | HoldboxSymbol(keyframeSymbolIds: set<Json>)

  /**
   * Whether the rule clones the node. The plugin's truthiness guards on
   * `pluginMetadata` and the block are implied: a property read on anything but
   * an object gives `undefined` here.
   */
  predicate Selects(rule: Rule, node: Json, pluginId: string) {
    var block := BlockOf(node, pluginId);
    match rule
    case DropObjectType => Truthy(Get(block, "objectType"))
    case DropShadowIndex => Get(node, "type") == Str("POINT") && Get(block, "pointType") == Str("SHADOW_LIGHT_POINT")
    case RenameContainer => Get(node, "type") == Str("CONTAINER") && ContainerRename(Get(block, "containerType")).Some?
    case ShadowIds => Get(node, "type") == Str("POINT") && Get(block, "shadowLayerIndex") != Undefined
    case HoldboxLayer => Get(node, "type") == Str("COLLISION_BOX") && HoldboxName(Get(node, "name"))
    case HoldboxKeyframe(ids) => Get(node, "type") == Str("COLLISION_BOX") && Get(node, "$id") in ids
    case HoldboxSymbol(ids) => Get(node, "type") == Str("COLLISION_BOX") && Get(node, "$id") in ids
  }

  /** The holdbox layer's block after the swap: `collisionBoxType` becomes `pointType` only when it was there. */
  function HoldboxBlock(block: Json): Json {
    if Get(block, "collisionBoxType") != Undefined
    then Set(Delete(block, "collisionBoxType"), "pointType", Str("GRAB_HOLD_POINT"))
    else block
  }

  /**
   * `v >= 0`: a number compares as itself, `null` and the booleans as 0 or 1,
   * `undefined` and a plain object as NaN; a string or an array by its numeric
   * coercion.
   */
  function AtLeastZero(v: Json, js: Coercions): bool {
    match v
    case Undefined => false
    case Null => true
    case Bool(_) => true
    case Num(r) => r >= 0.0
    case Obj(_) => false
    case _ => js.atLeastZero(v)
  }

  /** Integers below 10^21 in magnitude: JavaScript writes them in plain decimal. */
  predicate PlainInteger(r: real) {
    r.Floor as real == r && -1000000000000000000000.0 < r < 1000000000000000000000.0
  }

  /** The decimal text of an integer. */
  function IntText(i: int): string {
    if i < 0 then "-" + NatText(-i) else NatText(i)
  }

  /** The template text `${v}`. */
  function TemplateText(v: Json, js: Coercions): string {
    match v
    case Undefined => "undefined"
    case Null => "null"
    case Bool(b) => if b then "true" else "false"
    case Str(s) => s
    case Num(r) => if PlainInteger(r) then IntText(r.Floor) else js.text(v)
    case _ => js.text(v)
  }

  /** `x + w / 2` on two numbers; anything else by JavaScript's coercions. */
  function PlusHalf(x: Json, w: Json, js: Coercions): Json {
    if x.Num? && w.Num? then Num(x.n + w.n / 2.0) else js.plusHalf(x, w)
  }

  /** The shadow layer ids replacing a shadow layer index. */
  function ShadowLayerIds(index: Json, js: Coercions): Json {
    Arr(if AtLeastZero(index, js) then [Str(TemplateText(index, js))] else [])
  }

  /** The 0.0.14 container clone: the new display name and container type. */
  function RenamedContainer(node: Json, pluginId: string, rename: (string, string)): Json {
    var block := BlockOf(node, pluginId);
    WithBlock(Set(node, "name", Str(rename.0)), pluginId, Set(block, "containerType", Str(rename.1)))
  }

  /** The 0.0.19 point clone: `shadowLayerIds` in place of `shadowLayerIndex`. */
  function WithShadowIds(node: Json, pluginId: string, js: Coercions): Json {
    var block := BlockOf(node, pluginId);
    var index := Get(block, "shadowLayerIndex");
    WithBlock(node, pluginId, Delete(Set(block, "shadowLayerIds", ShadowLayerIds(index, js)), "shadowLayerIndex"))
  }

  /** The 0.0.22 layer clone: a grab hold point layer without the box's default colour. */
  function GrabHoldPointLayer(node: Json, pluginId: string): Json
    requires Get(node, "name").Str?
  {
    WithoutDefaults(SwapHoldboxBlock(HoldboxPoint(node), pluginId))
  }

  /** The holdbox layer turned into a point layer, `holdbox` in its name replaced by `grabholdpoint`. */
  function HoldboxPoint(node: Json): Json
    requires Get(node, "name").Str?
  {
    Set(Set(node, "type", Str("POINT")), "name", Str(ReplaceFirst(Get(node, "name").s, "holdbox", "grabholdpoint")))
  }

  /** The layer with its block's box type swapped for the grab hold point type, when the block has a box type. */
  function SwapHoldboxBlock(node: Json, pluginId: string): Json {
    var block := BlockOf(node, pluginId);
    if Get(block, "collisionBoxType") != Undefined then WithBlock(node, pluginId, HoldboxBlock(block)) else node
  }

  /** The layer with default alpha and colour assigned `undefined`. */
  function WithoutDefaults(node: Json): Json {
    Set(Set(node, "defaultAlpha", Undefined), "defaultColor", Undefined)
  }

  /** The 0.0.22 symbol clone: a point at the centre of the old box, without its pivot and scale. */
  function CentredPoint(node: Json, js: Coercions): Json {
    var point := Set(node, "type", Str("POINT"));
    var moved := Set(Set(point, "x", PlusHalf(Get(node, "x"), Get(node, "scaleX"), js)),
                     "y", PlusHalf(Get(node, "y"), Get(node, "scaleY"), js));
    Set(Set(Set(Set(moved, "pivotX", Undefined), "pivotY", Undefined), "scaleX", Undefined), "scaleY", Undefined)
  }

  /** The clone a rule pushes, built from the document's node. */
  function Rewrite(rule: Rule, node: Json, pluginId: string, js: Coercions): Json
    requires Selects(rule, node, pluginId)
  {
    match rule
    case DropObjectType => WithBlock(node, pluginId, Delete(BlockOf(node, pluginId), "objectType"))
    case DropShadowIndex => WithBlock(node, pluginId, Delete(BlockOf(node, pluginId), "index"))
    case RenameContainer => RenamedContainer(node, pluginId, ContainerRename(Get(BlockOf(node, pluginId), "containerType")).value)
    case ShadowIds => WithShadowIds(node, pluginId, js)
    case HoldboxLayer => GrabHoldPointLayer(node, pluginId)
    case HoldboxKeyframe(_) => Set(node, "type", Str("POINT"))
    case HoldboxSymbol(_) => CentredPoint(node, js)
  }

  /** The clones a rule makes of a node list, in list order. */
  function Collect(nodes: seq<Json>, rule: Rule, pluginId: string, js: Coercions): (r: seq<Json>)
    ensures |r| <= |nodes|
  {
    if |nodes| == 0 then []
    else
      var last := nodes[|nodes| - 1];
      Collect(nodes[..|nodes| - 1], rule, pluginId, js)
      + (if Selects(rule, last, pluginId) then [Rewrite(rule, last, pluginId, js)] else [])
  }

  /** `list || []`. */
  function OrEmpty(list: Option<seq<Json>>): seq<Json> {
    if list.Some? then list.value else []
  }

  /** A change list after pushing `clones`: it comes into existence with the first clone. */
  function Pushed(list: Option<seq<Json>>, clones: seq<Json>): (r: Option<seq<Json>>)
    ensures r.None? <==> list.None? && clones == []
    ensures r.Some? ==> r.value == OrEmpty(list) + clones
  {
    if clones == [] then list else Some(OrEmpty(list) + clones)
  }

  /** Pushing in two rounds is pushing everything at once (helper for `PushedSnoc` and `FirstVersionRunsEveryStep`). */
  lemma PushedAppend(list: Option<seq<Json>>, a: seq<Json>, b: seq<Json>)
    ensures Pushed(Pushed(list, a), b) == Pushed(list, a + b)
  {
    if a == [] {
      assert a + b == b;
    } else if b == [] {
      assert a + b == a;
    } else {
      AppendAssoc(OrEmpty(list), a, b);
    }
  }

  /** The clones of one more node (helper for the push loops' invariants, via `PushedSnoc`). */
  lemma CollectSnoc(nodes: seq<Json>, i: nat, rule: Rule, pluginId: string, js: Coercions)
    requires i < |nodes|
    ensures Collect(nodes[..i + 1], rule, pluginId, js)
            == Collect(nodes[..i], rule, pluginId, js)
               + (if Selects(rule, nodes[i], pluginId) then [Rewrite(rule, nodes[i], pluginId, js)] else [])
  {
    assert nodes[..i + 1][..i] == nodes[..i];
  }

  /** One loop iteration: pushing the clone of node `i`, if the rule selects it (helper for the push loops' invariants). */
  lemma PushedSnoc(list: Option<seq<Json>>, nodes: seq<Json>, i: nat, rule: Rule, pluginId: string, js: Coercions)
    requires i < |nodes|
    ensures Selects(rule, nodes[i], pluginId)
            ==> Pushed(list, Collect(nodes[..i + 1], rule, pluginId, js))
                == Some(OrEmpty(Pushed(list, Collect(nodes[..i], rule, pluginId, js))) + [Rewrite(rule, nodes[i], pluginId, js)])
    ensures !Selects(rule, nodes[i], pluginId)
            ==> Pushed(list, Collect(nodes[..i + 1], rule, pluginId, js)) == Pushed(list, Collect(nodes[..i], rule, pluginId, js))
  {
    CollectSnoc(nodes, i, rule, pluginId, js);
    var before := Collect(nodes[..i], rule, pluginId, js);
    if Selects(rule, nodes[i], pluginId) {
      PushedAppend(list, before, [Rewrite(rule, nodes[i], pluginId, js)]);
    } else {
      assert before + [] == before;
    }
  }

  /** The ids of the keyframes of the holdbox layers, the keys of `keyframeIdToLayerMap`. */
  function HoldboxKeyframeIds(layers: seq<Json>, pluginId: string): set<Json> {
    if |layers| == 0 then {}
    else
      var last := layers[|layers| - 1];
      HoldboxKeyframeIds(layers[..|layers| - 1], pluginId)
      + (if Selects(HoldboxLayer, last, pluginId) then ItemSet(Items(Get(last, "keyframes"))) else {})
  }

  /** The keyframe ids a holdbox layer lists. */
  function ItemSet(items: seq<Json>): (r: set<Json>)
    ensures forall x :: x in r <==> x in items
  {
    set x | x in items
  }

  /** The symbols of the holdbox keyframes, the keys of `symbolIdToKeyframeMap`. */
  function HoldboxSymbolIds(keyframes: seq<Json>, ids: set<Json>, pluginId: string): set<Json> {
    if |keyframes| == 0 then {}
    else
      var last := keyframes[|keyframes| - 1];
      HoldboxSymbolIds(keyframes[..|keyframes| - 1], ids, pluginId)
      + (if Selects(HoldboxKeyframe(ids), last, pluginId) then {Get(last, "symbol")} else {})
  }

  function ItemsOf(list: Option<Json>): seq<Json> {
    if list.Some? then Items(list.value) else []
  }

  // ---------------------------------------------------------------------------
  // The steps
  // ---------------------------------------------------------------------------

  function Bumped(block: Json, v: Version): Json {
    Set(block, "version", Str(Text(v)))
  }

  /** 0.0.1 to 0.0.6: drop the legacy `spriteType` and the symbols' `objectType`; bump to 0.0.8. */
  function Step1(p: Progress, asset: Asset, pluginId: string, js: Coercions): Progress {
    if Within(VersionOf(p.block), V0_0_1, V0_0_6) then
      var symbols := if asset.symbols.Some?
                     then Pushed(p.changes.symbols, Collect(ItemsOf(asset.symbols), DropObjectType, pluginId, js))
                     else p.changes.symbols;
      Progress(Bumped(Delete(p.block, "spriteType"), V0_0_8), p.changes.(symbols := symbols))
    else p
  }

  /** The node lists a layer step pushes onto `layers`, when the document has layers. */
  function LayerStep(p: Progress, asset: Asset, rule: Rule, pluginId: string, js: Coercions): Changes {
    if asset.layers.Some?
    then p.changes.(layers := Pushed(p.changes.layers, Collect(ItemsOf(asset.layers), rule, pluginId, js)))
    else p.changes
  }

  /** 0.0.8 to 0.0.9: drop the index of shadow light points; bump to 0.0.10. */
  function Step2(p: Progress, asset: Asset, pluginId: string, js: Coercions): Progress {
    if Within(VersionOf(p.block), V0_0_8, V0_0_9)
    then Progress(Bumped(p.block, V0_0_10), LayerStep(p, asset, DropShadowIndex, pluginId, js))
    else p
  }

  /** 0.0.10 to 0.0.13: rename the old stage containers; bump to 0.0.14. */
  function Step3(p: Progress, asset: Asset, pluginId: string, js: Coercions): Progress {
    if Within(VersionOf(p.block), V0_0_10, V0_0_13)
    then Progress(Bumped(p.block, V0_0_14), LayerStep(p, asset, RenameContainer, pluginId, js))
    else p
  }

  /** Up to 0.0.18: replace `shadowLayerIndex` by `shadowLayerIds`; bump to 0.0.19. */
  function Step4(p: Progress, asset: Asset, pluginId: string, js: Coercions): Progress {
    if UpTo(VersionOf(p.block), V0_0_18)
    then Progress(Bumped(p.block, V0_0_19), LayerStep(p, asset, ShadowIds, pluginId, js))
    else p
  }

  /** The three holdbox passes: layers, then their keyframes, then those keyframes' symbols. */
  function HoldboxChanges(changes: Changes, asset: Asset, pluginId: string, js: Coercions): Changes {
    var layers := ItemsOf(asset.layers);
    var keyframes := ItemsOf(asset.keyframes);
    var keyframeIds := HoldboxKeyframeIds(layers, pluginId);
    var symbolIds := HoldboxSymbolIds(keyframes, keyframeIds, pluginId);
    Changes(Pushed(changes.layers, Collect(layers, HoldboxLayer, pluginId, js)),
            Pushed(changes.keyframes, Collect(keyframes, HoldboxKeyframe(keyframeIds), pluginId, js)),
            Pushed(changes.symbols, Collect(ItemsOf(asset.symbols), HoldboxSymbol(symbolIds), pluginId, js)))
  }

  /** Up to 0.0.21: turn holdboxes into grab hold points; bump to 0.0.22. */
  function Step5(p: Progress, asset: Asset, pluginId: string, js: Coercions): Progress {
    if UpTo(VersionOf(p.block), V0_0_21)
    then Progress(Bumped(p.block, V0_0_22),
                  if asset.layers.Some? then HoldboxChanges(p.changes, asset, pluginId, js) else p.changes)
    else p
  }

  /** The own block the migration edits: the document's, or a fresh object when it has none. */
  function OwnBlock(asset: Asset, pluginId: string): Json {
    var own := Lookup(asset.pluginMetadata, pluginId);
    if Truthy(own) then own else Obj([])
  }

  /** The own block with a missing version replaced by the manifest version. */
  function StartBlock(asset: Asset, pluginId: string, manifest: Version): Json {
    var block := OwnBlock(asset, pluginId);
    if !Truthy(VersionOf(block)) then Bumped(block, manifest) else block
  }

  /** The state after the five steps. */
  function Steps(asset: Asset, pluginId: string, manifest: Version, js: Coercions): Progress {
    var start := Progress(StartBlock(asset, pluginId, manifest), Changes(None, None, None));
    Step5(Step4(Step3(Step2(Step1(start, asset, pluginId, js), asset, pluginId, js), asset, pluginId, js), asset, pluginId, js),
          asset, pluginId, js)
  }

  /** Whether migration is skipped: the document's own block already holds the manifest version. */
  predicate Current(asset: Asset, pluginId: string, manifest: Version) {
    Truthy(VersionOf(OwnBlock(asset, pluginId))) && VersionOf(OwnBlock(asset, pluginId)) == Str(Text(manifest))
  }

  /** `onAssetMetadataMigrationRequest`: nothing for a current document, else the migrated block and the clones. */
  function Migrate(asset: Asset, pluginId: string, manifest: Version, js: Coercions): Option<Migration> {
    if Current(asset, pluginId, manifest) then None
    else
      var p := Steps(asset, pluginId, manifest, js);
      Some(Migration(Put(asset.pluginMetadata, pluginId, Bumped(p.block, manifest)),
                     p.changes.layers, p.changes.keyframes, p.changes.symbols))
  }

  /** The document's `pluginMetadata` afterwards: its own block is the object the migration edits. */
  function DocumentAfter(asset: Asset, pluginId: string, manifest: Version, js: Coercions): seq<Entry> {
    var m := Migrate(asset, pluginId, manifest, js);
    if m.Some? && Truthy(Lookup(asset.pluginMetadata, pluginId)) then m.value.pluginMetadata else asset.pluginMetadata
  }

  /** The nodes a request walks are values a property can be read on (`null` would throw). */
  predicate Readable(list: Option<Json>) {
    forall i :: 0 <= i < |ItemsOf(list)| ==> Dereferenceable(ItemsOf(list)[i])
  }

  /** The own block, when the document has one, is an object the request can write to. */
  predicate WellFormed(asset: Asset, pluginId: string) {
    Truthy(Lookup(asset.pluginMetadata, pluginId)) ==> Lookup(asset.pluginMetadata, pluginId).Obj?
  }

  /**
   * The nodes the request walks are readable. A current document is not walked
   * at all. Otherwise, with `v` the starting version: the layers are walked when
   * `v` is at most 0.0.21; the keyframes when, in addition, the document has
   * layers; the symbols when `v` is between 0.0.1 and 0.0.6, or when it is at
   * most 0.0.21 and the document has layers.
   */
  predicate NodesReadable(asset: Asset, pluginId: string, manifest: Version) {
    var v := VersionOf(StartBlock(asset, pluginId, manifest));
    !Current(asset, pluginId, manifest) ==>
      (UpTo(v, V0_0_21) ==> Readable(asset.layers))
      && (UpTo(v, V0_0_21) && asset.layers.Some? ==> Readable(asset.keyframes))
      && (Within(v, V0_0_1, V0_0_6) || (UpTo(v, V0_0_21) && asset.layers.Some?) ==> Readable(asset.symbols))
  }

  // ---------------------------------------------------------------------------
  // The request, step by step
  // ---------------------------------------------------------------------------

  /** `_.each(nodes, ...)` pushing the clone of every node the rule selects onto `list`. */
  method CollectInto(list: Option<seq<Json>>, nodes: seq<Json>, rule: Rule, pluginId: string, js: Coercions)
    returns (r: Option<seq<Json>>)
    ensures r == Pushed(list, Collect(nodes, rule, pluginId, js))
  {
    r := list;
    for i := 0 to |nodes|
      invariant r == Pushed(list, Collect(nodes[..i], rule, pluginId, js))
    {
      PushedSnoc(list, nodes, i, rule, pluginId, js);
      if Selects(rule, nodes[i], pluginId) {
        var clone := Rewrite(rule, nodes[i], pluginId, js);
        r := Some(OrEmpty(r) + [clone]);
      }
    }
    assert nodes[..|nodes|] == nodes;
  }

  /** `_.each(ids, id => map[id] = ...)`: the keys of the map afterwards. */
  method IndexIds(keys: set<Json>, ids: seq<Json>) returns (r: set<Json>)
    ensures r == keys + ItemSet(ids)
  {
    r := keys;
    for j := 0 to |ids|
      invariant r == keys + ItemSet(ids[..j])
    {
      assert ids[..j + 1] == ids[..j] + [ids[j]];
      r := r + {ids[j]};
    }
    assert ids[..|ids|] == ids;
  }

  /** The holdbox layer clone keeps the layer's keyframe list. */
  lemma GrabHoldPointKeyframes(layer: Json, pluginId: string)
    requires Get(layer, "name").Str?
    ensures Get(GrabHoldPointLayer(layer, pluginId), "keyframes") == Get(layer, "keyframes")
  {
    hide Set, Get, Put, Lookup, Delete, Remove, HoldboxPoint, SwapHoldboxBlock, WithoutDefaults, BlockOf, WithBlock,
         HoldboxBlock, ReplaceFirst;
    var point := HoldboxPoint(layer);
    HoldboxPointFields(layer, pluginId);
    SwapHoldboxBlockFields(point, pluginId);
    WithoutDefaultsFields(SwapHoldboxBlock(point, pluginId), pluginId);
  }

  /** The keyframe ids of one more layer. */
  lemma HoldboxKeyframeIdsSnoc(layers: seq<Json>, i: nat, pluginId: string)
    requires i < |layers|
    ensures HoldboxKeyframeIds(layers[..i + 1], pluginId)
            == HoldboxKeyframeIds(layers[..i], pluginId)
               + (if Selects(HoldboxLayer, layers[i], pluginId) then ItemSet(Items(Get(layers[i], "keyframes"))) else {})
  {
    assert layers[..i + 1][..i] == layers[..i];
  }

  /** The symbol ids of one more keyframe. */
  lemma HoldboxSymbolIdsSnoc(keyframes: seq<Json>, i: nat, ids: set<Json>, pluginId: string)
    requires i < |keyframes|
    ensures HoldboxSymbolIds(keyframes[..i + 1], ids, pluginId)
            == HoldboxSymbolIds(keyframes[..i], ids, pluginId)
               + (if Selects(HoldboxKeyframe(ids), keyframes[i], pluginId) then {Get(keyframes[i], "symbol")} else {})
  {
    assert keyframes[..i + 1][..i] == keyframes[..i];
  }

  /** The holdbox layer pass: pushes the point-layer clones and indexes their keyframe ids. */
  method HoldboxLayers(list: Option<seq<Json>>, layers: seq<Json>, pluginId: string, js: Coercions)
    returns (r: Option<seq<Json>>, keyframeIds: set<Json>)
    ensures r == Pushed(list, Collect(layers, HoldboxLayer, pluginId, js))
    ensures keyframeIds == HoldboxKeyframeIds(layers, pluginId)
  {
    r := list;
    keyframeIds := {};
    for i := 0 to |layers|
      invariant r == Pushed(list, Collect(layers[..i], HoldboxLayer, pluginId, js))
      invariant keyframeIds == HoldboxKeyframeIds(layers[..i], pluginId)
    {
      PushedSnoc(list, layers, i, HoldboxLayer, pluginId, js);
      HoldboxKeyframeIdsSnoc(layers, i, pluginId);
      var layer := layers[i];
      if Selects(HoldboxLayer, layer, pluginId) {
        var clone := Rewrite(HoldboxLayer, layer, pluginId, js);
        GrabHoldPointKeyframes(layer, pluginId);
        keyframeIds := IndexIds(keyframeIds, Items(Get(clone, "keyframes")));
        r := Some(OrEmpty(r) + [clone]);
      }
    }
    assert layers[..|layers|] == layers;
  }

  /** The holdbox keyframe pass: pushes the point-keyframe clones and indexes their symbols. */
  method HoldboxKeyframes(list: Option<seq<Json>>, keyframes: seq<Json>, keyframeIds: set<Json>, pluginId: string, js: Coercions)
    returns (r: Option<seq<Json>>, symbolIds: set<Json>)
    ensures r == Pushed(list, Collect(keyframes, HoldboxKeyframe(keyframeIds), pluginId, js))
    ensures symbolIds == HoldboxSymbolIds(keyframes, keyframeIds, pluginId)
  {
    r := list;
    symbolIds := {};
    for i := 0 to |keyframes|
      invariant r == Pushed(list, Collect(keyframes[..i], HoldboxKeyframe(keyframeIds), pluginId, js))
      invariant symbolIds == HoldboxSymbolIds(keyframes[..i], keyframeIds, pluginId)
    {
      PushedSnoc(list, keyframes, i, HoldboxKeyframe(keyframeIds), pluginId, js);
      HoldboxSymbolIdsSnoc(keyframes, i, keyframeIds, pluginId);
      var keyframe := keyframes[i];
      if Selects(HoldboxKeyframe(keyframeIds), keyframe, pluginId) {
        var clone := Rewrite(HoldboxKeyframe(keyframeIds), keyframe, pluginId, js);
        symbolIds := symbolIds + {Get(keyframe, "symbol")};
        r := Some(OrEmpty(r) + [clone]);
      }
    }
    assert keyframes[..|keyframes|] == keyframes;
  }

  /** The first migration block, from 0.0.1 to 0.0.6. */
  method MigrateTo0_0_8(p: Progress, asset: Asset, pluginId: string, js: Coercions) returns (q: Progress)
    ensures q == Step1(p, asset, pluginId, js)
  {
    var local, changes := p.block, p.changes;
    if Within(Get(local, "version"), V0_0_1, V0_0_6) {
      local := Delete(local, "spriteType");
      if asset.symbols.Some? {
        var pushed := CollectInto(changes.symbols, Items(asset.symbols.value), DropObjectType, pluginId, js);
        changes := changes.(symbols := pushed);
      }
      local := Set(local, "version", Str(Text(V0_0_8)));
    }
    q := Progress(local, changes);
  }

  /** The second migration block, from 0.0.8 to 0.0.9. */
  method MigrateTo0_0_10(p: Progress, asset: Asset, pluginId: string, js: Coercions) returns (q: Progress)
    ensures q == Step2(p, asset, pluginId, js)
  {
    var local, changes := p.block, p.changes;
    if Within(Get(local, "version"), V0_0_8, V0_0_9) {
      if asset.layers.Some? {
        var pushed := CollectInto(changes.layers, Items(asset.layers.value), DropShadowIndex, pluginId, js);
        changes := changes.(layers := pushed);
      }
      local := Set(local, "version", Str(Text(V0_0_10)));
    }
    q := Progress(local, changes);
  }

  /** The third migration block, from 0.0.10 to 0.0.13. */
  method MigrateTo0_0_14(p: Progress, asset: Asset, pluginId: string, js: Coercions) returns (q: Progress)
    ensures q == Step3(p, asset, pluginId, js)
  {
    var local, changes := p.block, p.changes;
    if Within(Get(local, "version"), V0_0_10, V0_0_13) {
      if asset.layers.Some? {
        var pushed := CollectInto(changes.layers, Items(asset.layers.value), RenameContainer, pluginId, js);
        changes := changes.(layers := pushed);
      }
      local := Set(local, "version", Str(Text(V0_0_14)));
    }
    q := Progress(local, changes);
  }

  /** The fourth migration block, up to 0.0.18. */
  method MigrateTo0_0_19(p: Progress, asset: Asset, pluginId: string, js: Coercions) returns (q: Progress)
    ensures q == Step4(p, asset, pluginId, js)
  {
    var local, changes := p.block, p.changes;
    if UpTo(Get(local, "version"), V0_0_18) {
      if asset.layers.Some? {
        var pushed := CollectInto(changes.layers, Items(asset.layers.value), ShadowIds, pluginId, js);
        changes := changes.(layers := pushed);
      }
      local := Set(local, "version", Str(Text(V0_0_19)));
    }
    q := Progress(local, changes);
  }

  /** The fifth migration block, up to 0.0.21. */
  method MigrateTo0_0_22(p: Progress, asset: Asset, pluginId: string, js: Coercions) returns (q: Progress)
    ensures q == Step5(p, asset, pluginId, js)
  {
    var local, changes := p.block, p.changes;
    if UpTo(Get(local, "version"), V0_0_21) {
      if asset.layers.Some? {
        var layers, keyframeIds := HoldboxLayers(changes.layers, Items(asset.layers.value), pluginId, js);
        var keyframes, symbolIds := HoldboxKeyframes(changes.keyframes, ItemsOf(asset.keyframes), keyframeIds, pluginId, js);
        var symbols := CollectInto(changes.symbols, ItemsOf(asset.symbols), HoldboxSymbol(symbolIds), pluginId, js);
        changes := Changes(layers, keyframes, symbols);
      }
      local := Set(local, "version", Str(Text(V0_0_22)));
    }
    q := Progress(local, changes);
  }

  /** The document the request reads; its own block is the one object the request edits in place. */
  class AssetMetadataDocument {
    var pluginMetadata: seq<Entry>
    const layers: Option<Json>
    const keyframes: Option<Json>
    const symbols: Option<Json>

    constructor (asset: Asset)
      ensures Value() == asset
    {
      pluginMetadata := asset.pluginMetadata;
      layers := asset.layers;
      keyframes := asset.keyframes;
      symbols := asset.symbols;
    }

    function Value(): Asset
      reads this
    {
      Asset(pluginMetadata, layers, keyframes, symbols)
    }

    /**
     * `onAssetMetadataMigrationRequest`. `pluginId` and `manifest` are the
     * plugin manifest's id and version; the result is what the plugin sends
     * back (`None` for `null`).
     */
    method OnAssetMetadataMigrationRequest(pluginId: string, manifest: Version, js: Coercions)
      returns (migration: Option<Migration>)
      requires WellFormed(Value(), pluginId) && NodesReadable(Value(), pluginId, manifest)
      modifies this
      ensures migration == Migrate(old(Value()), pluginId, manifest, js)
      ensures pluginMetadata == DocumentAfter(old(Value()), pluginId, manifest, js)
    {
      hide Step1, Step2, Step3, Step4, Step5, Collect, Rewrite, Selects, Within, UpTo, ParseVersion, Text;
      var asset := Value();
      var own := Lookup(pluginMetadata, pluginId);
      var aliased := Truthy(own);
      var local := if aliased then own else Obj([]);
      if !Truthy(Get(local, "version")) {
        local := Set(local, "version", Str(Text(manifest)));
      } else if Get(local, "version") == Str(Text(manifest)) {
        return None;
      }
      var p := Progress(local, Changes(None, None, None));
      p := MigrateTo0_0_8(p, asset, pluginId, js);
      p := MigrateTo0_0_10(p, asset, pluginId, js);
      p := MigrateTo0_0_14(p, asset, pluginId, js);
      p := MigrateTo0_0_19(p, asset, pluginId, js);
      p := MigrateTo0_0_22(p, asset, pluginId, js);
      local := p.block;
      var changes := p.changes;
      local := Set(local, "version", Str(Text(manifest)));
      var sent := Put(pluginMetadata, pluginId, local);
      if aliased {
        // The own block was edited in place: the document now holds the migrated block.
        pluginMetadata := sent;
      }
      migration := Some(Migration(sent, changes.layers, changes.keyframes, changes.symbols));
    }
  }

  // ---------------------------------------------------------------------------
  // The clones
  // ---------------------------------------------------------------------------

  /** A holdbox name is rewritten at its head, and the new name is no longer a holdbox name. */
  lemma GrabHoldPointName(name: Json)
    requires HoldboxName(name)
    ensures ReplaceFirst(name.s, "holdbox", "grabholdpoint") == "grabholdpoint" + name.s[7..]
    ensures !HoldboxName(Str(ReplaceFirst(name.s, "holdbox", "grabholdpoint")))
  {
    var renamed := "grabholdpoint" + name.s[7..];
    assert renamed[..7] == "grabhol";
  }

  /**
   * The holdbox layer clone: a point layer named `grabholdpoint<n>`, with the
   * box type swapped for the grab hold point type when there was one, and
   * without default colour and alpha; every other field as in the document.
   */
  lemma GrabHoldPointLayerFields(layer: Json, pluginId: string)
    requires Get(layer, "type") == Str("COLLISION_BOX") && HoldboxName(Get(layer, "name"))
    ensures Get(GrabHoldPointLayer(layer, pluginId), "type") == Str("POINT")
    ensures Get(GrabHoldPointLayer(layer, pluginId), "name") == Str("grabholdpoint" + Get(layer, "name").s[7..])
    ensures Get(GrabHoldPointLayer(layer, pluginId), "defaultAlpha") == Undefined
    ensures Get(GrabHoldPointLayer(layer, pluginId), "defaultColor") == Undefined
    ensures BlockOf(GrabHoldPointLayer(layer, pluginId), pluginId) == HoldboxBlock(BlockOf(layer, pluginId))
    ensures forall k :: k !in {"type", "name", "defaultAlpha", "defaultColor", "pluginMetadata"}
                        ==> Get(GrabHoldPointLayer(layer, pluginId), k) == Get(layer, k)
  {
    hide Set, Get, Put, Lookup, Delete, Remove, HoldboxPoint, SwapHoldboxBlock, WithoutDefaults, BlockOf, WithBlock,
         HoldboxBlock, ReplaceFirst;
    GrabHoldPointName(Get(layer, "name"));
    var point := HoldboxPoint(layer);
    var swapped := SwapHoldboxBlock(point, pluginId);
    HoldboxPointFields(layer, pluginId);
    SwapHoldboxBlockFields(point, pluginId);
    WithoutDefaultsFields(swapped, pluginId);
  }

  /** The point layer: new type and name, the same block, every other field as before. */
  lemma HoldboxPointFields(node: Json, pluginId: string)
    requires Get(node, "name").Str?
    ensures Get(HoldboxPoint(node), "type") == Str("POINT")
    ensures Get(HoldboxPoint(node), "name") == Str(ReplaceFirst(Get(node, "name").s, "holdbox", "grabholdpoint"))
    ensures BlockOf(HoldboxPoint(node), pluginId) == BlockOf(node, pluginId)
    ensures forall k :: k != "type" && k != "name" ==> Get(HoldboxPoint(node), k) == Get(node, k)
  {
    hide Put, Lookup, ReplaceFirst;
  }

  /** The swap changes the block as `HoldboxBlock` does, and no other field. */
  lemma SwapHoldboxBlockFields(node: Json, pluginId: string)
    ensures BlockOf(SwapHoldboxBlock(node, pluginId), pluginId) == HoldboxBlock(BlockOf(node, pluginId))
    ensures forall k :: k != "pluginMetadata" ==> Get(SwapHoldboxBlock(node, pluginId), k) == Get(node, k)
  {
    hide Set, Get, Put, Lookup, Delete, Remove, WithBlock;
    var block := BlockOf(node, pluginId);
    if Get(block, "collisionBoxType") != Undefined {
      BlockOfWithBlock(node, pluginId, HoldboxBlock(block));
    }
  }

  /** Dropping the defaults leaves the block and every other field as they were. */
  lemma WithoutDefaultsFields(node: Json, pluginId: string)
    ensures Get(WithoutDefaults(node), "defaultAlpha") == Undefined
    ensures Get(WithoutDefaults(node), "defaultColor") == Undefined
    ensures BlockOf(WithoutDefaults(node), pluginId) == BlockOf(node, pluginId)
    ensures forall k :: k != "defaultAlpha" && k != "defaultColor" ==> Get(WithoutDefaults(node), k) == Get(node, k)
  {
    hide Put, Lookup;
  }

  /** The grab hold point block: the box type gives way to the point type, all else stays. */
  lemma HoldboxBlockFields(block: Json)
    requires Get(block, "collisionBoxType") != Undefined
    ensures Get(HoldboxBlock(block), "collisionBoxType") == Undefined
    ensures Get(HoldboxBlock(block), "pointType") == Str("GRAB_HOLD_POINT")
    ensures forall k :: k != "collisionBoxType" && k != "pointType" ==> Get(HoldboxBlock(block), k) == Get(block, k)
  {
    hide Set, Get, Put, Lookup, Delete, Remove;
    assert Delete(block, "collisionBoxType").Obj?;
  }

  /** The shadow point clone: the index gives way to a list holding its text when it is not negative. */
  lemma ShadowIdsFields(layer: Json, pluginId: string, js: Coercions)
    requires Selects(ShadowIds, layer, pluginId)
    ensures var index := Get(BlockOf(layer, pluginId), "shadowLayerIndex");
            Get(BlockOf(WithShadowIds(layer, pluginId, js), pluginId), "shadowLayerIds")
            == ShadowLayerIds(index, js)
    ensures var index := Get(BlockOf(layer, pluginId), "shadowLayerIndex");
            index.Num? && index.n < 0.0 ==> Get(BlockOf(WithShadowIds(layer, pluginId, js), pluginId), "shadowLayerIds") == Arr([])
    ensures var index := Get(BlockOf(layer, pluginId), "shadowLayerIndex");
            index.Num? && PlainInteger(index.n) && index.n >= 0.0
            ==> Get(BlockOf(WithShadowIds(layer, pluginId, js), pluginId), "shadowLayerIds") == Arr([Str(NatText(index.n.Floor))])
    ensures Get(BlockOf(WithShadowIds(layer, pluginId, js), pluginId), "shadowLayerIndex") == Undefined
    ensures forall k :: k != "shadowLayerIds" && k != "shadowLayerIndex"
                        ==> Get(BlockOf(WithShadowIds(layer, pluginId, js), pluginId), k) == Get(BlockOf(layer, pluginId), k)
    ensures forall k :: k != "pluginMetadata" ==> Get(WithShadowIds(layer, pluginId, js), k) == Get(layer, k)
  {
    hide Set, Get, Put, Lookup, Delete, Remove, ShadowLayerIds, NatText;
    var block := BlockOf(layer, pluginId);
    var updated := Delete(Set(block, "shadowLayerIds", ShadowLayerIds(Get(block, "shadowLayerIndex"), js)), "shadowLayerIndex");
    BlockOfWithBlock(layer, pluginId, updated);
    ShadowLayerIdsOfNumber(Get(block, "shadowLayerIndex"), js);
  }

  /** A number index: no ids when it is negative, its decimal text when it is a whole number. */
  lemma ShadowLayerIdsOfNumber(index: Json, js: Coercions)
    ensures index.Num? && index.n < 0.0 ==> ShadowLayerIds(index, js) == Arr([])
    ensures index.Num? && PlainInteger(index.n) && index.n >= 0.0 ==> ShadowLayerIds(index, js) == Arr([Str(NatText(index.n.Floor))])
  {
  }

  /** The container clone: the new display name and container type, all else as in the document. */
  lemma RenamedContainerFields(layer: Json, pluginId: string)
    requires Selects(RenameContainer, layer, pluginId)
    ensures var rename := ContainerRename(Get(BlockOf(layer, pluginId), "containerType")).value;
            var clone := RenamedContainer(layer, pluginId, rename);
            Get(clone, "name") == Str(rename.0)
            && Get(BlockOf(clone, pluginId), "containerType") == Str(rename.1)
            && (forall k :: k != "containerType" ==> Get(BlockOf(clone, pluginId), k) == Get(BlockOf(layer, pluginId), k))
            && (forall k :: k != "name" && k != "pluginMetadata" ==> Get(clone, k) == Get(layer, k))
  {
    hide Set, Get, Put, Lookup, Delete, Remove;
    var block := BlockOf(layer, pluginId);
    var rename := ContainerRename(Get(block, "containerType")).value;
    var named := Set(layer, "name", Str(rename.0));
    assert Get(named, "pluginMetadata") == Get(layer, "pluginMetadata");
    BlockOfWithBlock(named, pluginId, Set(block, "containerType", Str(rename.1)));
  }

  /** The holdbox symbol clone: a point moved by half the box's scale, without pivot and scale. */
  lemma CentredPointFields(symbol: Json, js: Coercions)
    requires symbol.Obj?
    ensures Get(CentredPoint(symbol, js), "type") == Str("POINT")
    ensures Get(CentredPoint(symbol, js), "x") == PlusHalf(Get(symbol, "x"), Get(symbol, "scaleX"), js)
    ensures Get(CentredPoint(symbol, js), "y") == PlusHalf(Get(symbol, "y"), Get(symbol, "scaleY"), js)
    ensures Get(symbol, "x").Num? && Get(symbol, "scaleX").Num?
            ==> Get(CentredPoint(symbol, js), "x") == Num(Get(symbol, "x").n + Get(symbol, "scaleX").n / 2.0)
    ensures Get(symbol, "y").Num? && Get(symbol, "scaleY").Num?
            ==> Get(CentredPoint(symbol, js), "y") == Num(Get(symbol, "y").n + Get(symbol, "scaleY").n / 2.0)
    ensures forall k :: k in {"pivotX", "pivotY", "scaleX", "scaleY"} ==> Get(CentredPoint(symbol, js), k) == Undefined
    ensures forall k :: k !in {"type", "x", "y", "pivotX", "pivotY", "scaleX", "scaleY"}
                        ==> Get(CentredPoint(symbol, js), k) == Get(symbol, k)
  {
    hide Set, Get, Put, Lookup;
    var point := Set(symbol, "type", Str("POINT"));
    var movedX := Set(point, "x", PlusHalf(Get(symbol, "x"), Get(symbol, "scaleX"), js));
    var moved := Set(movedX, "y", PlusHalf(Get(symbol, "y"), Get(symbol, "scaleY"), js));
    var noPivotX := Set(moved, "pivotX", Undefined);
    var noPivotY := Set(noPivotX, "pivotY", Undefined);
    var noScaleX := Set(noPivotY, "scaleX", Undefined);
    var clone := Set(noScaleX, "scaleY", Undefined);
    assert CentredPoint(symbol, js) == clone;
  }

  /**
   * Running a rule again over its own clones selects none of them, except for
   * the shadow index rule, whose clone is still a shadow light point.
   */
  lemma ClonesAreNotSelectedAgain(rule: Rule, node: Json, pluginId: string, js: Coercions)
    requires Selects(rule, node, pluginId) && !rule.DropShadowIndex?
    ensures !Selects(rule, Rewrite(rule, node, pluginId, js), pluginId)
  {
    hide Set, Get, Put, Lookup, Delete, Remove, WithBlock, RenamedContainer, WithShadowIds, GrabHoldPointLayer,
         CentredPoint, HoldboxName;
    match rule
    case DropObjectType =>
      BlockOfWithBlock(node, pluginId, Delete(BlockOf(node, pluginId), "objectType"));
    case RenameContainer =>
      RenamedContainerFields(node, pluginId);
    case ShadowIds =>
      ShadowIdsFields(node, pluginId, js);
    case HoldboxLayer =>
      GrabHoldPointLayerFields(node, pluginId);
    case HoldboxKeyframe(_) =>
    case HoldboxSymbol(_) =>
      CentredPointFields(node, js);
  }

  /** The clones are exactly the rewrites of the nodes the rule selects. */
  lemma {:induction false} CollectMembers(nodes: seq<Json>, rule: Rule, pluginId: string, js: Coercions)
    ensures forall c :: c in Collect(nodes, rule, pluginId, js)
                        <==> exists i :: 0 <= i < |nodes| && Selects(rule, nodes[i], pluginId) && c == Rewrite(rule, nodes[i], pluginId, js)
  {
    hide Rewrite, Selects, Items, Get;
    if |nodes| > 0 {
      var init := nodes[..|nodes| - 1];
      CollectMembers(init, rule, pluginId, js);
      forall c ensures c in Collect(nodes, rule, pluginId, js)
                       <==> exists i :: 0 <= i < |nodes| && Selects(rule, nodes[i], pluginId) && c == Rewrite(rule, nodes[i], pluginId, js)
      {
        if c in Collect(init, rule, pluginId, js) {
          var i :| 0 <= i < |init| && Selects(rule, init[i], pluginId) && c == Rewrite(rule, init[i], pluginId, js);
          assert nodes[i] == init[i];
        }
        if exists i :: 0 <= i < |nodes| && Selects(rule, nodes[i], pluginId) && c == Rewrite(rule, nodes[i], pluginId, js) {
          var i :| 0 <= i < |nodes| && Selects(rule, nodes[i], pluginId) && c == Rewrite(rule, nodes[i], pluginId, js);
          if i < |init| {
            assert init[i] == nodes[i];
          }
        }
      }
    }
  }

  /** A keyframe id is indexed exactly when some holdbox layer lists it. */
  lemma {:induction false} HoldboxKeyframeIdsMembers(layers: seq<Json>, pluginId: string)
    ensures forall x :: x in HoldboxKeyframeIds(layers, pluginId)
                        <==> exists i :: 0 <= i < |layers| && Selects(HoldboxLayer, layers[i], pluginId) && x in Items(Get(layers[i], "keyframes"))
  {
    hide Rewrite, Selects, Items, Get;
    if |layers| > 0 {
      var init := layers[..|layers| - 1];
      HoldboxKeyframeIdsMembers(init, pluginId);
      forall x ensures x in HoldboxKeyframeIds(layers, pluginId)
                       <==> exists i :: 0 <= i < |layers| && Selects(HoldboxLayer, layers[i], pluginId) && x in Items(Get(layers[i], "keyframes"))
      {
        if x in HoldboxKeyframeIds(init, pluginId) {
          var i :| 0 <= i < |init| && Selects(HoldboxLayer, init[i], pluginId) && x in Items(Get(init[i], "keyframes"));
          assert layers[i] == init[i];
        }
        if exists i :: 0 <= i < |layers| && Selects(HoldboxLayer, layers[i], pluginId) && x in Items(Get(layers[i], "keyframes")) {
          var i :| 0 <= i < |layers| && Selects(HoldboxLayer, layers[i], pluginId) && x in Items(Get(layers[i], "keyframes"));
          if i < |init| {
            assert init[i] == layers[i];
          }
        }
      }
    }
  }

  /** A symbol id is indexed exactly when some keyframe of a holdbox layer shows it. */
  lemma {:induction false} HoldboxSymbolIdsMembers(keyframes: seq<Json>, ids: set<Json>, pluginId: string)
    ensures forall x :: x in HoldboxSymbolIds(keyframes, ids, pluginId)
                        <==> exists i :: 0 <= i < |keyframes| && Selects(HoldboxKeyframe(ids), keyframes[i], pluginId) && x == Get(keyframes[i], "symbol")
  {
    hide Rewrite, Selects, Items, Get;
    if |keyframes| > 0 {
      var init := keyframes[..|keyframes| - 1];
      HoldboxSymbolIdsMembers(init, ids, pluginId);
      forall x ensures x in HoldboxSymbolIds(keyframes, ids, pluginId)
                       <==> exists i :: 0 <= i < |keyframes| && Selects(HoldboxKeyframe(ids), keyframes[i], pluginId) && x == Get(keyframes[i], "symbol")
      {
        if x in HoldboxSymbolIds(init, ids, pluginId) {
          var i :| 0 <= i < |init| && Selects(HoldboxKeyframe(ids), init[i], pluginId) && x == Get(init[i], "symbol");
          assert keyframes[i] == init[i];
        }
        if exists i :: 0 <= i < |keyframes| && Selects(HoldboxKeyframe(ids), keyframes[i], pluginId) && x == Get(keyframes[i], "symbol") {
          var i :| 0 <= i < |keyframes| && Selects(HoldboxKeyframe(ids), keyframes[i], pluginId) && x == Get(keyframes[i], "symbol");
          if i < |init| {
            assert init[i] == keyframes[i];
          }
        }
      }
    }
  }

  // ---------------------------------------------------------------------------
  // The request
  // ---------------------------------------------------------------------------

  /** Each bump lands inside the next step's gate, and the last one past every gate. */
  lemma BumpsEnterNextStep()
    ensures Within(Str(Text(V0_0_1)), V0_0_1, V0_0_6)
    ensures Within(Str(Text(V0_0_8)), V0_0_8, V0_0_9)
    ensures Within(Str(Text(V0_0_10)), V0_0_10, V0_0_13)
    ensures UpTo(Str(Text(V0_0_14)), V0_0_18)
    ensures UpTo(Str(Text(V0_0_19)), V0_0_21)
    ensures !UpTo(Str(Text(V0_0_22)), V0_0_21)
    ensures !Within(Str(Text(V0_0_8)), V0_0_1, V0_0_6)
  {
    ParseText(V0_0_1);
    ParseText(V0_0_8);
    ParseText(V0_0_10);
    ParseText(V0_0_14);
    ParseText(V0_0_19);
    ParseText(V0_0_22);
  }

  /** A version's text is never empty, so a stored version is truthy. */
  lemma TextIsTruthy(v: Version)
    ensures Truthy(Str(Text(v)))
  {
    assert Text(v)[|NatText(v.major)|] == '.';
  }

  /** The request answers `null` exactly when the document's own block already holds the manifest version. */
  lemma NothingToMigrateIffCurrent(asset: Asset, pluginId: string, manifest: Version, js: Coercions)
    ensures Migrate(asset, pluginId, manifest, js).None?
            <==> Truthy(Lookup(asset.pluginMetadata, pluginId))
                 && VersionOf(Lookup(asset.pluginMetadata, pluginId)) == Str(Text(manifest))
  {
    var own := Lookup(asset.pluginMetadata, pluginId);
    if VersionOf(own) == Str(Text(manifest)) {
      TextIsTruthy(manifest);
      assert Truthy(own);
    }
  }

  /** The steps edit the own block through property writes and deletes, so it stays an object. */
  lemma StepsKeepObject(asset: Asset, pluginId: string, manifest: Version, js: Coercions)
    requires WellFormed(asset, pluginId)
    ensures StartBlock(asset, pluginId, manifest).Obj?
    ensures Steps(asset, pluginId, manifest, js).block.Obj?
  {
    var start := Progress(StartBlock(asset, pluginId, manifest), Changes(None, None, None));
    var p1 := Step1(start, asset, pluginId, js);
    var p2 := Step2(p1, asset, pluginId, js);
    var p3 := Step3(p2, asset, pluginId, js);
    var p4 := Step4(p3, asset, pluginId, js);
    assert p1.block.Obj? && p2.block.Obj? && p3.block.Obj? && p4.block.Obj?;
  }

  /** A migration leaves the own block at the manifest version and every other plugin's block as it was. */
  lemma MigratedVersionIsManifest(asset: Asset, pluginId: string, manifest: Version, js: Coercions)
    requires WellFormed(asset, pluginId) && !Current(asset, pluginId, manifest)
    ensures Migrate(asset, pluginId, manifest, js).Some?
    ensures VersionOf(Lookup(Migrate(asset, pluginId, manifest, js).value.pluginMetadata, pluginId)) == Str(Text(manifest))
    ensures forall k :: k != pluginId
                        ==> Lookup(Migrate(asset, pluginId, manifest, js).value.pluginMetadata, k) == Lookup(asset.pluginMetadata, k)
  {
    StepsKeepObject(asset, pluginId, manifest, js);
  }

  /** Migrating the migrated document again answers `null`, whatever became of its nodes. */
  lemma MigrationIsIdempotent(asset: Asset, migrated: Asset, pluginId: string, manifest: Version, js: Coercions)
    requires WellFormed(asset, pluginId)
    requires Migrate(asset, pluginId, manifest, js).Some?
    requires migrated.pluginMetadata == Migrate(asset, pluginId, manifest, js).value.pluginMetadata
    ensures Migrate(migrated, pluginId, manifest, js) == None
  {
    MigratedVersionIsManifest(asset, pluginId, manifest, js);
    NothingToMigrateIffCurrent(migrated, pluginId, manifest, js);
    assert Truthy(Lookup(migrated.pluginMetadata, pluginId)) by {
      StepsKeepObject(asset, pluginId, manifest, js);
    }
  }

  /** A block without a migration version takes the manifest's and is migrated from there. */
  lemma MissingVersionStartsAtManifest(asset: Asset, pluginId: string, manifest: Version)
    requires WellFormed(asset, pluginId)
    requires !Truthy(VersionOf(OwnBlock(asset, pluginId)))
    ensures !Current(asset, pluginId, manifest)
    ensures VersionOf(StartBlock(asset, pluginId, manifest)) == Str(Text(manifest))
  {
  }

  /**
   * Past 0.0.21, or with a version the comparison cannot read, no step runs:
   * the own block only takes the manifest version and no node is cloned.
   */
  lemma LaterVersionOnlyBumps(asset: Asset, pluginId: string, manifest: Version, js: Coercions)
    requires !Current(asset, pluginId, manifest)
    requires !UpTo(VersionOf(StartBlock(asset, pluginId, manifest)), V0_0_21)
    ensures Migrate(asset, pluginId, manifest, js)
            == Some(Migration(Put(asset.pluginMetadata, pluginId, Bumped(OwnBlock(asset, pluginId), manifest)), None, None, None))
  {
    hide Lookup, Delete, Remove, Collect, Rewrite, Selects, HoldboxKeyframeIds, HoldboxSymbolIds, Text;
    var own, start := OwnBlock(asset, pluginId), StartBlock(asset, pluginId, manifest);
    var v := VersionOf(start);
    if v.Str? && ParseVersion(v.s).Some? {
      var w := ParseVersion(v.s).value;
      assert !AtMost(w, V0_0_21);
      if AtMost(w, V0_0_18) {
        AtMostTransitive(w, V0_0_18, V0_0_21);
      }
    }
    assert Steps(asset, pluginId, manifest, js) == Progress(start, Changes(None, None, None));
    if start != own && own.Obj? {
      PutTwice(own.entries, "version", Str(Text(manifest)), Str(Text(manifest)));
    }
  }

  /**
   * A document at 0.0.1 passes through every step: the layer clones of the
   * four layer steps in step order, the holdbox keyframes, and the symbols of
   * the first and last steps.
   */
  lemma FirstVersionRunsEveryStep(asset: Asset, pluginId: string, manifest: Version, js: Coercions)
    requires WellFormed(asset, pluginId) && asset.layers.Some?
    requires VersionOf(OwnBlock(asset, pluginId)) == Str(Text(V0_0_1))
    ensures var p := Steps(asset, pluginId, manifest, js);
            var layers, keyframes, symbols := ItemsOf(asset.layers), ItemsOf(asset.keyframes), ItemsOf(asset.symbols);
            var keyframeIds := HoldboxKeyframeIds(layers, pluginId);
            VersionOf(p.block) == Str(Text(V0_0_22))
            && p.changes.layers == Pushed(None, Collect(layers, DropShadowIndex, pluginId, js) + Collect(layers, RenameContainer, pluginId, js)
                                                + Collect(layers, ShadowIds, pluginId, js) + Collect(layers, HoldboxLayer, pluginId, js))
            && p.changes.keyframes == Pushed(None, Collect(keyframes, HoldboxKeyframe(keyframeIds), pluginId, js))
            && p.changes.symbols == Pushed(None, Collect(symbols, DropObjectType, pluginId, js)
                                                 + Collect(symbols, HoldboxSymbol(HoldboxSymbolIds(keyframes, keyframeIds, pluginId)), pluginId, js))
  {
    hide Set, Get, Put, Lookup, Delete, Remove, Collect, Rewrite, Selects, HoldboxKeyframeIds, HoldboxSymbolIds,
      Within, UpTo, ParseVersion, Text;
    BumpsEnterNextStep();
    TextIsTruthy(V0_0_1);
    var layers, symbols := ItemsOf(asset.layers), ItemsOf(asset.symbols);
    var start := Progress(StartBlock(asset, pluginId, manifest), Changes(None, None, None));
    assert start.block == OwnBlock(asset, pluginId) && start.block.Obj?;
    var p1 := Step1(start, asset, pluginId, js);
    assert p1.changes.symbols == Pushed(None, Collect(symbols, DropObjectType, pluginId, js));
    var p2 := Step2(p1, asset, pluginId, js);
    var p3 := Step3(p2, asset, pluginId, js);
    var p4 := Step4(p3, asset, pluginId, js);
    assert VersionOf(p4.block) == Str(Text(V0_0_19));
    var c1, c2, c3 := Collect(layers, DropShadowIndex, pluginId, js), Collect(layers, RenameContainer, pluginId, js), Collect(layers, ShadowIds, pluginId, js);
    PushedAppend(None, c1, c2);
    PushedAppend(None, c1 + c2, c3);
    PushedAppend(None, c1 + c2 + c3, Collect(layers, HoldboxLayer, pluginId, js));
    PushedAppend(None, Collect(symbols, DropObjectType, pluginId, js),
                 Collect(symbols, HoldboxSymbol(HoldboxSymbolIds(ItemsOf(asset.keyframes), HoldboxKeyframeIds(layers, pluginId), pluginId)), pluginId, js));
  }

  /** The layer steps a shadow light point with a `shadowLayerIndex` is cloned by. */
  lemma ShadowPointClones(layer: Json, pluginId: string, js: Coercions)
    requires Selects(DropShadowIndex, layer, pluginId) && Selects(ShadowIds, layer, pluginId)
    ensures Collect([layer], DropShadowIndex, pluginId, js) == [Rewrite(DropShadowIndex, layer, pluginId, js)]
    ensures Collect([layer], RenameContainer, pluginId, js) == []
    ensures Collect([layer], ShadowIds, pluginId, js) == [Rewrite(ShadowIds, layer, pluginId, js)]
    ensures Collect([layer], HoldboxLayer, pluginId, js) == []
    ensures Rewrite(ShadowIds, layer, pluginId, js) == WithShadowIds(layer, pluginId, js)
  {
    hide Set, Get, Put, Lookup, Delete, Remove, ShadowLayerIds, WithShadowIds, CentredPoint, GrabHoldPointLayer,
         RenamedContainer;
    assert [layer][..0] == [];
  }

  /**
   * A shadow light point that still has a `shadowLayerIndex` at 0.0.8 is
   * cloned twice, both times from the document's layer: the second clone, sent
   * last, carries the `index` the first clone dropped.
   */
  lemma ShadowLightPointClonedTwice(asset: Asset, pluginId: string, manifest: Version, js: Coercions, layer: Json)
    requires WellFormed(asset, pluginId) && asset.layers == Some(Arr([layer]))
    requires VersionOf(OwnBlock(asset, pluginId)) == Str(Text(V0_0_8))
    requires Selects(DropShadowIndex, layer, pluginId) && Selects(ShadowIds, layer, pluginId)
    ensures Steps(asset, pluginId, manifest, js).changes.layers
            == Some([Rewrite(DropShadowIndex, layer, pluginId, js), Rewrite(ShadowIds, layer, pluginId, js)])
    ensures Get(BlockOf(Rewrite(ShadowIds, layer, pluginId, js), pluginId), "index") == Get(BlockOf(layer, pluginId), "index")
  {
    hide Set, Get, Put, Lookup, Delete, Remove, Collect, Rewrite, Selects, HoldboxKeyframeIds, HoldboxSymbolIds,
      Within, UpTo, ParseVersion, Text, ShadowLayerIds, WithShadowIds, CentredPoint, GrabHoldPointLayer, Step1, Step2, Step3;
    BumpsEnterNextStep();
    ShadowIdsFields(layer, pluginId, js);
    ShadowPointClones(layer, pluginId, js);
    ShadowIndexStepsAtEight(asset, pluginId, manifest, js, layer);
    var start := Progress(StartBlock(asset, pluginId, manifest), Changes(None, None, None));
    var p3 := Step3(Step2(Step1(start, asset, pluginId, js), asset, pluginId, js), asset, pluginId, js);
    var dropped, renamed := Rewrite(DropShadowIndex, layer, pluginId, js), Rewrite(ShadowIds, layer, pluginId, js);
    assert ItemsOf(asset.layers) == [layer];
    assert UpTo(VersionOf(p3.block), V0_0_18);
    var p4 := Step4(p3, asset, pluginId, js);
    assert [dropped] + [renamed] == [dropped, renamed];
    assert p4.changes.layers == Some([dropped, renamed]) && VersionOf(p4.block) == Str(Text(V0_0_19));
    assert p4.block.Obj? && UpTo(VersionOf(p4.block), V0_0_21);
    assert Steps(asset, pluginId, manifest, js) == Step5(p4, asset, pluginId, js);
  }

  /** The first three steps at 0.0.8: only the shadow-index step runs and clones the layer. */
  lemma ShadowIndexStepsAtEight(asset: Asset, pluginId: string, manifest: Version, js: Coercions, layer: Json)
    requires WellFormed(asset, pluginId) && asset.layers == Some(Arr([layer]))
    requires VersionOf(OwnBlock(asset, pluginId)) == Str(Text(V0_0_8))
    requires Selects(DropShadowIndex, layer, pluginId) && Selects(ShadowIds, layer, pluginId)
    ensures var start := Progress(StartBlock(asset, pluginId, manifest), Changes(None, None, None));
            var p3 := Step3(Step2(Step1(start, asset, pluginId, js), asset, pluginId, js), asset, pluginId, js);
            p3.changes.layers == Some([Rewrite(DropShadowIndex, layer, pluginId, js)])
            && VersionOf(p3.block) == Str(Text(V0_0_14)) && p3.block.Obj?
  {
    hide Set, Get, Put, Lookup, Delete, Remove, Collect, Rewrite, Selects, HoldboxKeyframeIds, HoldboxSymbolIds,
      Within, UpTo, ParseVersion, Text, ShadowLayerIds, WithShadowIds, CentredPoint, GrabHoldPointLayer;
    BumpsEnterNextStep();
    TextIsTruthy(V0_0_8);
    var start := Progress(StartBlock(asset, pluginId, manifest), Changes(None, None, None));
    var p1 := Step1(start, asset, pluginId, js);
    assert p1 == start;
    assert VersionOf(p1.block) == Str(Text(V0_0_8)) && p1.block.Obj?;
    var dropped := Rewrite(DropShadowIndex, layer, pluginId, js);
    assert ItemsOf(asset.layers) == [layer];
    ShadowPointClones(layer, pluginId, js);
    assert OrEmpty(None) + [dropped] == [dropped];
    var p2 := Step2(p1, asset, pluginId, js);
    assert p2.changes.layers == Some([dropped]);
    assert VersionOf(p2.block) == Str(Text(V0_0_10));
  }

}
