/**
 * The collision-box colour preset editor: the box-type tables, the default
 * colours, the editor's state (the active preset id and the preset list) and
 * a list item's view/edit state.
 */
module BoxPresetsEditor {
  import opened Wrappers
  import opened Json
  import opened Types
  import opened PresetLists
  import opened Seqs

  /** `BOX_TYPES`: the style-key prefixes, in the order the list items iterate them. */
  const BoxTypes: seq<string> := [
    "hitbox", "hurtbox", "grabbox", "ledgegrabbox", "reflectbox",
    "absorbbox", "counterbox", "customboxa", "customboxb", "customboxc"]

  /** `BOX_TYPES_MAP`: collision box type code to style-key prefix. */
  const BoxTypesMap: map<string, string> := map[
    "HIT_BOX" := "hitbox",
    "HURT_BOX" := "hurtbox",
    "GRAB_BOX" := "grabbox",
    "LEDGE_GRAB_BOX" := "ledgegrabbox",
    "REFLECT_BOX" := "reflectbox",
    "ABSORB_BOX" := "absorbbox",
    "COUNTER_BOX" := "counterbox",
    "CUSTOM_BOX_A" := "customboxa",
    "CUSTOM_BOX_B" := "customboxb",
    "CUSTOM_BOX_C" := "customboxc"]

  function ColorKey(prefix: string): string { prefix + "Color" }

  function AlphaKey(prefix: string): string { prefix + "Alpha" }

  /** The colour `getDefaults()` gives each box type (other prefixes have none). */
  function DefaultColor(prefix: string): string {
    match prefix
    case "hitbox" => "#ff0000"
    case "hurtbox" => "#f5e042"
    case "grabbox" => "#ff00ff"
    case "ledgegrabbox" => "#bababa"
    case "reflectbox" => "#48f748"
    case "absorbbox" => "#d1d1d1"
    case "counterbox" => "#42ecff"
    case "customboxa" => "#d1d1d1"
    case "customboxb" => "#d1d1d1"
    case "customboxc" => "#d1d1d1"
    case _ => ""
  }

  /** The alpha `getDefaults()` gives every box type. */
  function DefaultAlpha(prefix: string): real { 0.5 }

  /**
   * `getDefaults()`: `hitboxColor`, `hitboxAlpha`, `hurtboxColor`, ... in `BOX_TYPES`
   * order, which is the order the object literal lists them in.
   */
  const DefaultStyle: seq<Entry> := StyleEntries(BoxTypes, DefaultColor, DefaultAlpha)

  /** The style keys of a list of prefixes: a `Color` then an `Alpha` key per prefix. */
  function StyleKeys(prefixes: seq<string>): seq<string> {
    if |prefixes| == 0 then []
    else StyleKeys(prefixes[..|prefixes| - 1])
         + [ColorKey(prefixes[|prefixes| - 1]), AlphaKey(prefixes[|prefixes| - 1])]
  }

  /** The style a list item saves: the colour text and parsed alpha of each prefix's inputs. */
  function StyleEntries(prefixes: seq<string>, color: string -> string, alpha: string -> real): seq<Entry> {
    if |prefixes| == 0 then []
    else
      var p := prefixes[|prefixes| - 1];
      StyleEntries(prefixes[..|prefixes| - 1], color, alpha)
      + [Entry(ColorKey(p), Str(color(p))), Entry(AlphaKey(p), Num(alpha(p)))]
  }

  /** A style whose colour for every box type is text, as reading `.replace` on it demands. */
  predicate WellTypedStyle(style: seq<Entry>) {
    forall p :: p in BoxTypes ==> Lookup(style, ColorKey(p)).Str?
  }

  /** A preset as the editor adds it: a fresh id, the typed name and the defaults. */
  function NewPreset(id: string, name: string): BoxPreset {
    BoxPreset(id, name, DefaultStyle)
  }

  /** The list after the add button: unchanged for an empty name, else one new preset at the end. */
  function Added(ps: seq<BoxPreset>, name: string, freshId: string): seq<BoxPreset> {
    if name == "" then ps else ps + [NewPreset(freshId, name)]
  }

  /** The active id after removing the preset `id`: cleared exactly when it was that preset. */
  function ActiveAfterRemoval(active: Option<string>, id: string): (r: Option<string>)
    ensures r.None? <==> (active.None? || active == Some(id))
    ensures r.Some? ==> r == active
  {
    if active == Some(id) then None else active
  }

  /** The active id after choosing `value` in the selector: the empty choice is `null`. */
  function Selected(value: string): (r: Option<string>)
    ensures r.None? <==> value == ""
    ensures r.Some? ==> r.value == value
  {
    if value != "" then Some(value) else None
  }

  /** The active id names a preset of the list, or nothing. */
  predicate ActiveValid(active: Option<string>, ps: seq<BoxPreset>) {
    active.Some? ==> active.value in Ids(ps, BoxId)
  }

  class CollisionBoxLayerPresetsEditor {
    var activePresetId: Option<string>
    var collisionBoxLayerPresets: seq<BoxPreset>

    /** A missing preset list starts empty; the active id is taken as given. */
    constructor (activePresetId: Option<string>, presets: Option<seq<BoxPreset>>)
      ensures this.activePresetId == activePresetId
      ensures collisionBoxLayerPresets == if presets.Some? then presets.value else []
    {
      this.activePresetId := activePresetId;
      collisionBoxLayerPresets := if presets.Some? then presets.value else [];
    }

    /** The add button; `freshId` is the uuid the plugin draws. */
    method AddCollisionBoxLayerPreset(name: string, freshId: string)
      requires name != "" ==> freshId !in Ids(collisionBoxLayerPresets, BoxId)
      modifies this
      ensures collisionBoxLayerPresets == Added(old(collisionBoxLayerPresets), name, freshId)
      ensures activePresetId == old(activePresetId)
    {
      if name == "" {
        return;
      }
      collisionBoxLayerPresets := collisionBoxLayerPresets + [NewPreset(freshId, name)];
    }

    method OnPresetRemoved(presetToRemove: BoxPreset)
      modifies this
      ensures activePresetId == ActiveAfterRemoval(old(activePresetId), presetToRemove.id)
      ensures collisionBoxLayerPresets == Removed(old(collisionBoxLayerPresets), presetToRemove.id, BoxId)
    {
      activePresetId := if activePresetId == Some(presetToRemove.id) then None else activePresetId;
      collisionBoxLayerPresets := Removed(collisionBoxLayerPresets, presetToRemove.id, BoxId);
    }

    method OnPresetEdited(presetToUpdate: BoxPreset)
      modifies this
      ensures collisionBoxLayerPresets == Edited(old(collisionBoxLayerPresets), presetToUpdate, BoxId)
      ensures activePresetId == old(activePresetId)
    {
      collisionBoxLayerPresets := Edited(collisionBoxLayerPresets, presetToUpdate, BoxId);
    }

    method OnActivePresetChanged(value: string)
      modifies this
      ensures activePresetId == Selected(value)
      ensures collisionBoxLayerPresets == old(collisionBoxLayerPresets)
    {
      activePresetId := if value != "" then Some(value) else None;
    }
  }

  /** One row of the preset table: the preset it shows and whether its inputs are editable. */
  class CollisionBoxLayerPresetsEditorListItem {
    var collisionBoxPreset: BoxPreset
    var editMode: bool

    constructor (collisionBoxPreset: BoxPreset)
      ensures this.collisionBoxPreset == collisionBoxPreset
      ensures !editMode
    {
      this.collisionBoxPreset := collisionBoxPreset;
      editMode := false;
    }

    method OnEdit()
      modifies this
      ensures editMode
      ensures collisionBoxPreset == old(collisionBoxPreset)
    {
      editMode := true;
    }

    /**
     * The save button. `name` is the name input; `colorInput(p)` and
     * `alphaInput(p)` are the colour input and the parsed alpha input of prefix `p`.
     * Returns the preset handed to the editor's `onPresetEdited`.
     */
    method OnSave(name: string, colorInput: string -> string, alphaInput: string -> real) returns (saved: BoxPreset)
      modifies this
      ensures collisionBoxPreset == BoxPreset(old(collisionBoxPreset).id, name, StyleEntries(BoxTypes, colorInput, alphaInput))
      ensures !editMode
      ensures saved == collisionBoxPreset
    {
      BoxTypesDistinct();
      var valueMap := ValueMap(BoxTypes, colorInput, alphaInput);
      collisionBoxPreset := BoxPreset(collisionBoxPreset.id, name, valueMap);
      editMode := false;
      saved := collisionBoxPreset;
    }
  }

  /**
   * The save button's `valueMap`: for each prefix in turn, `<prefix>Color` is set
   * to its colour input and `<prefix>Alpha` to its parsed alpha input.
   */
  method ValueMap(prefixes: seq<string>, colorInput: string -> string, alphaInput: string -> real) returns (valueMap: seq<Entry>)
    requires forall i, j :: 0 <= i < j < |prefixes| ==> prefixes[i] != prefixes[j]
    ensures valueMap == StyleEntries(prefixes, colorInput, alphaInput)
  {
    valueMap := [];
    var i := 0;
    while i < |prefixes|
      invariant 0 <= i <= |prefixes|
      invariant valueMap == StyleEntries(prefixes[..i], colorInput, alphaInput)
    {
      var key := prefixes[i];
      StyleEntriesStep(prefixes, i, colorInput, alphaInput);
      valueMap := Put(valueMap, ColorKey(key), Str(colorInput(key)));
      valueMap := Put(valueMap, AlphaKey(key), Num(alphaInput(key)));
      i := i + 1;
    }
    assert prefixes[..i] == prefixes;
  }

  /** Cancelling a common suffix. */
  lemma SuffixCancel(a: string, b: string, s: string)
    requires a + s == b + s
    ensures a == b
  {
    assert a == (a + s)[..|a|];
    assert b == (b + s)[..|b|];
  }

  /** A `Color` key is never an `Alpha` key. */
  lemma ColorAlphaDistinct(p: string, q: string)
    ensures ColorKey(p) != AlphaKey(q)
  {
    assert ColorKey(p)[|ColorKey(p)| - 1] == 'r';
    assert AlphaKey(q)[|AlphaKey(q)| - 1] == 'a';
  }

  /** Distinct prefixes have distinct `Color` keys and distinct `Alpha` keys. */
  lemma KeysInjective(p: string, q: string)
    ensures ColorKey(p) == ColorKey(q) ==> p == q
    ensures AlphaKey(p) == AlphaKey(q) ==> p == q
  {
    if ColorKey(p) == ColorKey(q) {
      SuffixCancel(p, q, "Color");
    }
    if AlphaKey(p) == AlphaKey(q) {
      SuffixCancel(p, q, "Alpha");
    }
  }

  lemma {:induction false} StyleEntriesKeys(prefixes: seq<string>, color: string -> string, alpha: string -> real)
    ensures Keys(StyleEntries(prefixes, color, alpha)) == StyleKeys(prefixes)
  {
    if |prefixes| > 0 {
      var init := prefixes[..|prefixes| - 1];
      var p := prefixes[|prefixes| - 1];
      StyleEntriesKeys(init, color, alpha);
      var e := StyleEntries(init, color, alpha);
      var tail := [Entry(ColorKey(p), Str(color(p))), Entry(AlphaKey(p), Num(alpha(p)))];
      KeysAppend(e, tail);
    }
  }

  lemma {:induction false} KeysAppend(a: seq<Entry>, b: seq<Entry>)
    ensures Keys(a + b) == Keys(a) + Keys(b)
  {
    var l := Keys(a + b);
    var r := Keys(a) + Keys(b);
    assert |l| == |r|;
    forall i | 0 <= i < |l|
      ensures l[i] == r[i]
    {
      if i < |a| {
        assert (a + b)[i] == a[i];
      } else {
        assert (a + b)[i] == b[i - |a|];
      }
    }
  }

  /** A prefix outside `prefixes` owns neither of the keys `StyleKeys(prefixes)` lists. */
  lemma {:induction false} FreshPrefixKeys(prefixes: seq<string>, p: string)
    requires p !in prefixes
    ensures ColorKey(p) !in StyleKeys(prefixes)
    ensures AlphaKey(p) !in StyleKeys(prefixes)
  {
    if |prefixes| > 0 {
      var q := prefixes[|prefixes| - 1];
      assert prefixes == prefixes[..|prefixes| - 1] + [q];
      FreshPrefixKeys(prefixes[..|prefixes| - 1], p);
      KeysInjective(p, q);
      ColorAlphaDistinct(p, q);
      ColorAlphaDistinct(q, p);
    }
  }

  /** Writing a new prefix's two keys into a saved style appends them. */
  lemma StyleEntriesPut(prefixes: seq<string>, p: string, color: string -> string, alpha: string -> real)
    requires p !in prefixes
    ensures Put(Put(StyleEntries(prefixes, color, alpha), ColorKey(p), Str(color(p))), AlphaKey(p), Num(alpha(p)))
            == StyleEntries(prefixes, color, alpha) + [Entry(ColorKey(p), Str(color(p))), Entry(AlphaKey(p), Num(alpha(p)))]
  {
    StyleEntriesKeys(prefixes, color, alpha);
    FreshPrefixKeys(prefixes, p);
    ColorAlphaDistinct(p, p);
    PutTwoNewKeys(StyleEntries(prefixes, color, alpha), ColorKey(p), Str(color(p)), AlphaKey(p), Num(alpha(p)));
  }

  lemma DistinctNotEarlier(s: seq<string>, i: nat)
    requires forall i, j :: 0 <= i < j < |s| ==> s[i] != s[j]
    requires i < |s|
    ensures s[i] !in s[..i]
  {
    forall j | 0 <= j < i
      ensures s[..i][j] != s[i]
    {
      assert s[..i][j] == s[j];
    }
  }

  /** The saved style of one more prefix: the style of the shorter list and then the new prefix's two entries. */
  lemma StyleEntriesSnoc(prefixes: seq<string>, i: nat, color: string -> string, alpha: string -> real)
    requires i < |prefixes|
    ensures StyleEntries(prefixes[..i + 1], color, alpha)
         == StyleEntries(prefixes[..i], color, alpha)
          + [Entry(ColorKey(prefixes[i]), Str(color(prefixes[i]))), Entry(AlphaKey(prefixes[i]), Num(alpha(prefixes[i])))]
  {
    assert prefixes[..i + 1][..i] == prefixes[..i];
  }

  /** One step of the save loop: writing prefix `i`'s keys extends the style of the first `i` prefixes. */
  lemma StyleEntriesStep(prefixes: seq<string>, i: nat, color: string -> string, alpha: string -> real)
    requires forall i, j :: 0 <= i < j < |prefixes| ==> prefixes[i] != prefixes[j]
    requires i < |prefixes|
    ensures Put(Put(StyleEntries(prefixes[..i], color, alpha), ColorKey(prefixes[i]), Str(color(prefixes[i]))),
                AlphaKey(prefixes[i]), Num(alpha(prefixes[i])))
            == StyleEntries(prefixes[..i + 1], color, alpha)
  {
    DistinctNotEarlier(prefixes, i);
    StyleEntriesPut(prefixes[..i], prefixes[i], color, alpha);
    StyleEntriesSnoc(prefixes, i, color, alpha);
  }

  /** No box type is listed twice. */
  lemma BoxTypesDistinct()
    ensures forall i, j :: 0 <= i < j < |BoxTypes| ==> BoxTypes[i] != BoxTypes[j]
  {
  }

  /**
   * `BOX_TYPES_MAP` sends the ten box type codes one-to-one onto exactly the
   * `BOX_TYPES` prefixes.
   */
  lemma BoxTypesMapIsBijection()
    ensures |BoxTypesMap| == |BoxTypes| == 10
    ensures forall a, b :: a in BoxTypesMap && b in BoxTypesMap && BoxTypesMap[a] == BoxTypesMap[b] ==> a == b
    ensures BoxTypesMap.Values == set p | p in BoxTypes
  {
    BoxTypesDistinct();
    BoxTypeCodesDistinct();
    BoxTypeCodesPrefixes();
    BoxTypeCodesAreKeys();
    forall a, b | a in BoxTypesMap && b in BoxTypesMap && BoxTypesMap[a] == BoxTypesMap[b]
      ensures a == b
    {
      var i :| 0 <= i < |BoxTypeCodes| && BoxTypeCodes[i] == a;
      var j :| 0 <= j < |BoxTypeCodes| && BoxTypeCodes[j] == b;
    }
    forall p | p in BoxTypes
      ensures p in BoxTypesMap.Values
    {
      var i :| 0 <= i < |BoxTypes| && BoxTypes[i] == p;
      assert BoxTypesMap[BoxTypeCodes[i]] == p;
    }
    forall p | p in BoxTypesMap.Values
      ensures p in BoxTypes
    {
      var a :| a in BoxTypesMap && BoxTypesMap[a] == p;
      var i :| 0 <= i < |BoxTypeCodes| && BoxTypeCodes[i] == a;
    }
    DistinctSetSize(BoxTypeCodes);
  }

  /** The box type codes, in `BOX_TYPES` order. */
  const BoxTypeCodes: seq<string> := [
    "HIT_BOX", "HURT_BOX", "GRAB_BOX", "LEDGE_GRAB_BOX", "REFLECT_BOX",
    "ABSORB_BOX", "COUNTER_BOX", "CUSTOM_BOX_A", "CUSTOM_BOX_B", "CUSTOM_BOX_C"]

  lemma BoxTypeCodesDistinct()
    ensures forall i, j :: 0 <= i < j < |BoxTypeCodes| ==> BoxTypeCodes[i] != BoxTypeCodes[j]
  {
  }

  /** The `i`-th code maps to the `i`-th prefix. */
  lemma BoxTypeCodesPrefixes()
    ensures forall i :: 0 <= i < |BoxTypeCodes| ==> BoxTypeCodes[i] in BoxTypesMap && BoxTypesMap[BoxTypeCodes[i]] == BoxTypes[i]
  {
  }

  lemma BoxTypeCodesAreKeys()
    ensures BoxTypesMap.Keys == set c | c in BoxTypeCodes
  {
  }

  lemma {:induction false} DistinctSetSize(s: seq<string>)
    requires forall i, j :: 0 <= i < j < |s| ==> s[i] != s[j]
    ensures |set c | c in s| == |s|
  {
    if |s| > 0 {
      var t := s[1..];
      DistinctSetSize(t);
      assert (set c | c in s) == {s[0]} + (set c | c in t);
      assert s[0] !in t;
    }
  }

  /** In a saved style each box type's colour key holds its colour input and its alpha key its alpha input. */
  lemma {:induction false} SavedStyleLookup(prefixes: seq<string>, color: string -> string, alpha: string -> real, p: string)
    requires p in prefixes
    ensures Lookup(StyleEntries(prefixes, color, alpha), ColorKey(p)) == Str(color(p))
    ensures Lookup(StyleEntries(prefixes, color, alpha), AlphaKey(p)) == Num(alpha(p))
  {
    var init := prefixes[..|prefixes| - 1];
    var q := prefixes[|prefixes| - 1];
    var e := StyleEntries(init, color, alpha);
    var tail := [Entry(ColorKey(q), Str(color(q))), Entry(AlphaKey(q), Num(alpha(q)))];
    assert StyleEntries(prefixes, color, alpha) == e + tail;
    StyleEntriesKeys(init, color, alpha);
    if p in init {
      SavedStyleLookup(init, color, alpha, p);
      LookupAppendLeft(e, tail, ColorKey(p));
      LookupAppendLeft(e, tail, AlphaKey(p));
    } else {
      assert p == q by {
        assert prefixes == init + [q];
      }
      FreshPrefixKeys(init, p);
      LookupAppendRight(e, tail, ColorKey(p));
      LookupAppendRight(e, tail, AlphaKey(p));
      ColorAlphaDistinct(p, p);
    }
  }

  lemma {:induction false} LookupAppendLeft(a: seq<Entry>, b: seq<Entry>, k: string)
    requires k in Keys(a)
    ensures Lookup(a + b, k) == Lookup(a, k)
  {
    if a[0].key != k {
      assert (a + b)[1..] == a[1..] + b;
      assert k in Keys(a[1..]);
      LookupAppendLeft(a[1..], b, k);
    }
  }

  lemma {:induction false} LookupAppendRight(a: seq<Entry>, b: seq<Entry>, k: string)
    requires k !in Keys(a)
    ensures Lookup(a + b, k) == Lookup(b, k)
  {
    if |a| == 0 {
      assert a + b == b;
    } else {
      assert (a + b)[1..] == a[1..] + b;
      assert k !in Keys(a[1..]);
      LookupAppendRight(a[1..], b, k);
    }
  }

  /** A saved preset has a colour text for every box type. */
  lemma SavedStyleWellTyped(color: string -> string, alpha: string -> real)
    ensures WellTypedStyle(StyleEntries(BoxTypes, color, alpha))
  {
    forall p | p in BoxTypes
      ensures Lookup(StyleEntries(BoxTypes, color, alpha), ColorKey(p)).Str?
    {
      SavedStyleLookup(BoxTypes, color, alpha, p);
    }
  }

  /**
   * `getDefaults()` has exactly a `Color` and an `Alpha` key per box type, in
   * the order the list items save them, every colour is text and every alpha is 0.5.
   */
  lemma DefaultsCoverBoxTypes()
    ensures Keys(DefaultStyle) == StyleKeys(BoxTypes)
    ensures WellTypedStyle(DefaultStyle)
    ensures forall p :: p in BoxTypes ==> Lookup(DefaultStyle, AlphaKey(p)) == Num(0.5)
    ensures forall p :: p in BoxTypes ==> Lookup(DefaultStyle, ColorKey(p)) == Str(DefaultColor(p))
  {
    StyleEntriesKeys(BoxTypes, DefaultColor, DefaultAlpha);
    SavedStyleWellTyped(DefaultColor, DefaultAlpha);
    forall p | p in BoxTypes
      ensures Lookup(DefaultStyle, AlphaKey(p)) == Num(0.5)
      ensures Lookup(DefaultStyle, ColorKey(p)) == Str(DefaultColor(p))
    {
      SavedStyleLookup(BoxTypes, DefaultColor, DefaultAlpha, p);
    }
  }

  /** Every default colour is written `#rrggbb`. */
  lemma DefaultColorsAreHex()
    ensures forall p :: p in BoxTypes ==> |DefaultColor(p)| == 7 && DefaultColor(p)[0] == '#'
  {
  }

  /** Adding with an empty name changes nothing. */
  lemma AddEmptyNameIsNoOp(ps: seq<BoxPreset>, freshId: string)
    ensures Added(ps, "", freshId) == ps
  {
  }

  /** Adding with a fresh id and then removing that id restores the original list. */
  lemma AddThenRemoveRestores(ps: seq<BoxPreset>, name: string, freshId: string)
    requires freshId !in Ids(ps, BoxId)
    ensures Removed(Added(ps, name, freshId), freshId, BoxId) == ps
  {
    if name == "" {
      RemovedAbsentId(ps, freshId, BoxId);
    } else {
      AppendThenRemove(ps, NewPreset(freshId, name), BoxId);
    }
  }

  /** Adding keeps earlier presets, and the new last preset has a default style every box type can read. */
  lemma AddedPresetIsWellTyped(ps: seq<BoxPreset>, name: string, freshId: string)
    requires name != ""
    ensures Added(ps, name, freshId)[..|ps|] == ps
    ensures Added(ps, name, freshId)[|ps|].id == freshId
    ensures WellTypedStyle(Added(ps, name, freshId)[|ps|].style)
  {
    DefaultsCoverBoxTypes();
  }

  /** Every editor operation keeps preset ids unique. */
  lemma OperationsKeepIdsUnique(ps: seq<BoxPreset>, name: string, freshId: string, q: BoxPreset, id: string)
    requires UniqueIds(ps, BoxId)
    requires freshId !in Ids(ps, BoxId)
    ensures UniqueIds(Added(ps, name, freshId), BoxId)
    ensures UniqueIds(Removed(ps, id, BoxId), BoxId)
    ensures UniqueIds(Edited(ps, q, BoxId), BoxId)
  {
    if name != "" {
      AppendKeepsUnique(ps, NewPreset(freshId, name), BoxId);
    }
    RemovedKeepsUnique(ps, id, BoxId);
    EditedKeepsUnique(ps, q, BoxId);
  }

  /** Removing a preset keeps the active id pointing at a listed preset, or clears it. */
  lemma RemovalKeepsActiveValid(active: Option<string>, ps: seq<BoxPreset>, id: string)
    requires ActiveValid(active, ps)
    ensures ActiveValid(ActiveAfterRemoval(active, id), Removed(ps, id, BoxId))
  {
    var r := ActiveAfterRemoval(active, id);
    if r.Some? {
      var k :| 0 <= k < |ps| && Ids(ps, BoxId)[k] == r.value;
      assert ps[k] in Removed(ps, id, BoxId);
      var m :| 0 <= m < |Removed(ps, id, BoxId)| && Removed(ps, id, BoxId)[m] == ps[k];
      assert Ids(Removed(ps, id, BoxId), BoxId)[m] == r.value;
    }
  }
}
