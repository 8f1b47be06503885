/**
 * The collision-body (ECB) preset editor: the preset list it keeps and a list
 * item's view/edit state.
 */
module BodyPresetsEditor {
  import opened Wrappers
  import opened Types
  import opened PresetLists

  /** A preset as the editor adds it: a fresh id, the typed name and the default body shape. */
  function NewPreset(id: string, name: string): BodyPreset {
    BodyPreset(id, name, 0.0, 100.0, 50.0, 0.0, 0.0)
  }

  /** The list after the add button: unchanged for an empty name, else one new preset at the end. */
  function Added(ps: seq<BodyPreset>, name: string, freshId: string): seq<BodyPreset> {
    if name == "" then ps else ps + [NewPreset(freshId, name)]
  }

  class CollisionBodyLayerPresetsEditor {
    var collisionBodyLayerPresets: seq<BodyPreset>

    /** A missing preset list starts empty. */
    constructor (presets: Option<seq<BodyPreset>>)
      ensures collisionBodyLayerPresets == if presets.Some? then presets.value else []
    {
      collisionBodyLayerPresets := if presets.Some? then presets.value else [];
    }

    /** The add button; `freshId` is the uuid the plugin draws. */
    method AddCollisionBodyLayerPreset(name: string, freshId: string)
      requires name != "" ==> freshId !in Ids(collisionBodyLayerPresets, BodyId)
      modifies this
      ensures collisionBodyLayerPresets == Added(old(collisionBodyLayerPresets), name, freshId)
    {
      if name == "" {
        return;
      }
      collisionBodyLayerPresets := collisionBodyLayerPresets + [NewPreset(freshId, name)];
    }

    method OnPresetRemoved(presetToRemove: BodyPreset)
      modifies this
      ensures collisionBodyLayerPresets == Removed(old(collisionBodyLayerPresets), presetToRemove.id, BodyId)
    {
      collisionBodyLayerPresets := Removed(collisionBodyLayerPresets, presetToRemove.id, BodyId);
    }

    method OnPresetEdited(presetToUpdate: BodyPreset)
      modifies this
      ensures collisionBodyLayerPresets == Edited(old(collisionBodyLayerPresets), presetToUpdate, BodyId)
    {
      collisionBodyLayerPresets := Edited(collisionBodyLayerPresets, presetToUpdate, BodyId);
    }
  }

  /** One row of the preset table: the preset it shows and whether its inputs are editable. */
  class CollisionBodyLayerPresetsEditorListItem {
    var collisionBodyPreset: BodyPreset
    var editMode: bool

    constructor (collisionBodyPreset: BodyPreset)
      ensures this.collisionBodyPreset == collisionBodyPreset
      ensures !editMode
    {
      this.collisionBodyPreset := collisionBodyPreset;
      editMode := false;
    }

    method OnEdit()
      modifies this
      ensures editMode
      ensures collisionBodyPreset == old(collisionBodyPreset)
    {
      editMode := true;
    }

    /**
     * The save button: the name input and the five parsed number inputs.
     * Returns the preset handed to the editor's `onPresetEdited`.
     */
    method OnSave(name: string, foot: real, head: real, hipWidth: real, hipXOffset: real, hipYOffset: real)
      returns (saved: BodyPreset)
      modifies this
      ensures collisionBodyPreset == BodyPreset(old(collisionBodyPreset).id, name, foot, head, hipWidth, hipXOffset, hipYOffset)
      ensures !editMode
      ensures saved == collisionBodyPreset
    {
      collisionBodyPreset := BodyPreset(collisionBodyPreset.id, name, foot, head, hipWidth, hipXOffset, hipYOffset);
      editMode := false;
      saved := collisionBodyPreset;
    }
  }

  /** Adding with an empty name changes nothing. */
  lemma AddEmptyNameIsNoOp(ps: seq<BodyPreset>, freshId: string)
    ensures Added(ps, "", freshId) == ps
  {
  }

  /** Adding with a fresh id and then removing that id restores the original list. */
  lemma AddThenRemoveRestores(ps: seq<BodyPreset>, name: string, freshId: string)
    requires freshId !in Ids(ps, BodyId)
    ensures Removed(Added(ps, name, freshId), freshId, BodyId) == ps
  {
    if name == "" {
      RemovedAbsentId(ps, freshId, BodyId);
    } else {
      AppendThenRemove(ps, NewPreset(freshId, name), BodyId);
    }
  }

  /** Removing an id no preset has leaves the list unchanged. */
  lemma RemoveAbsentIsNoOp(ps: seq<BodyPreset>, id: string)
    requires id !in Ids(ps, BodyId)
    ensures Removed(ps, id, BodyId) == ps
  {
    RemovedAbsentId(ps, id, BodyId);
  }

  /** Saving an edited preset into the list replaces exactly the entry with its id. */
  lemma SaveThenEditReplacesOnlyThatEntry(ps: seq<BodyPreset>, k: nat, saved: BodyPreset)
    requires UniqueIds(ps, BodyId)
    requires k < |ps| && saved.id == ps[k].id
    ensures |Edited(ps, saved, BodyId)| == |ps|
    ensures Edited(ps, saved, BodyId)[k] == saved
    ensures forall i :: 0 <= i < |ps| && i != k ==> Edited(ps, saved, BodyId)[i] == ps[i]
  {
  }

  /** Every editor operation keeps preset ids unique. */
  lemma OperationsKeepIdsUnique(ps: seq<BodyPreset>, name: string, freshId: string, q: BodyPreset, id: string)
    requires UniqueIds(ps, BodyId)
    requires freshId !in Ids(ps, BodyId)
    ensures UniqueIds(Added(ps, name, freshId), BodyId)
    ensures UniqueIds(Removed(ps, id, BodyId), BodyId)
    ensures UniqueIds(Edited(ps, q, BodyId), BodyId)
  {
    if name != "" {
      AppendKeepsUnique(ps, NewPreset(freshId, name), BodyId);
    }
    RemovedKeepsUnique(ps, id, BodyId);
    EditedKeepsUnique(ps, q, BodyId);
  }
}
