/**
 * MaterialsChange/StatusMaterialController.cs: shows a vehicle's status (normal, charging,
 * malfunction) by putting that status's material into one material slot of every child renderer.
 * At start-up each renderer gets enough slots and its materials are saved; every frame each
 * renderer gets a copy of its saved materials with the status material in the slot; on disable the
 * saved materials are put back.
 *
 * A renderer is its list of shared materials, and a null (or destroyed) renderer is None. The
 * renderers found under the vehicle are a parameter of Start.
 */
module StatusMaterials {
  import opened UnityTypes

  datatype Status = Normal | Charging | Malfunction

  /**
   * A material reference: an unassigned one, an asset, or the fresh material made from the
   * "Standard" shader that fills a new slot.
   */
  datatype Material = NoMaterial | Asset(id: nat) | StandardMaterial

  /** The Inspector default: the second material slot. */
  const DefaultMaterialSlotIndex := 1

  /** A renderer's materials once EnsureMaterialSlot has grown them until `slot` is an index. */
  function WithSlot(materials: seq<Material>, slot: int): (r: seq<Material>)
    ensures slot < |r|
    ensures |r| == if slot < |materials| then |materials| else slot + 1
    ensures r[..|materials|] == materials
    ensures forall i | |materials| <= i < |r| :: r[i] == StandardMaterial
    decreases slot - |materials|
  {
    if slot < |materials| then materials else WithSlot(materials + [StandardMaterial], slot)
  }

  /**
   * EnsureMaterialSlot: while the slot index is not an index of the renderer's materials, copy
   * them into an array one longer whose new last slot holds a Standard material. A null renderer
   * is left as it is.
   */
  method EnsureMaterialSlot(renderer: Option<seq<Material>>, materialSlotIndex: int)
    returns (grown: Option<seq<Material>>)
    ensures renderer.None? ==> grown.None?
    ensures renderer.Some? ==> grown == Some(WithSlot(renderer.value, materialSlotIndex))
  {
    if renderer.None? {
      return renderer;
    }
    var shared := renderer.value;
    var materials := new Material[|shared|](k requires 0 <= k < |shared| => shared[k]);
    while materials.Length <= materialSlotIndex
      invariant WithSlot(materials[..], materialSlotIndex) == WithSlot(shared, materialSlotIndex)
      decreases materialSlotIndex - materials.Length
    {
      var newMaterials := new Material[materials.Length + 1];
      ghost var before := materials[..];
      var k := 0;
      while k < materials.Length
        invariant 0 <= k <= materials.Length
        invariant materials[..] == before
        invariant newMaterials[..k] == materials[..k]
      {
        newMaterials[k] := materials[k];
        k := k + 1;
      }
      newMaterials[newMaterials.Length - 1] := StandardMaterial;
      assert newMaterials[..] == materials[..] + [StandardMaterial];
      assert WithSlot(newMaterials[..], materialSlotIndex) == WithSlot(materials[..], materialSlotIndex);
      materials := newMaterials;
    }
    grown := Some(materials[..]);
  }

  /** One renderer as InitializeMaterials leaves it. */
  function Prepare(renderer: Option<seq<Material>>, slot: int): (r: Option<seq<Material>>)
    ensures r.None? <==> renderer.None?
    ensures r.Some? ==> |renderer.value| <= |r.value| && slot < |r.value|
    ensures r.Some? ==> r.value[..|renderer.value|] == renderer.value
  {
    if renderer.Some? then Some(WithSlot(renderer.value, slot)) else None
  }

  function Prepared(found: seq<Option<seq<Material>>>, slot: int): (r: seq<Option<seq<Material>>>)
    ensures |r| == |found|
    ensures forall i | 0 <= i < |found| :: r[i] == Prepare(found[i], slot)
  {
    seq(|found|, i requires 0 <= i < |found| => Prepare(found[i], slot))
  }

  /** The materials InitializeMaterials saves: those of the non-null renderers, in order. */
  function Saved(renderers: seq<Option<seq<Material>>>): (r: seq<seq<Material>>)
    ensures |r| <= |renderers|
  {
    if renderers == [] then []
    else
      var last := renderers[|renderers| - 1];
      Saved(renderers[..|renderers| - 1]) + if last.Some? then [last.value] else []
  }

  /**
   * Renderer i as UpdateAllMaterials leaves it: a non-null renderer whose saved entry exists and
   * has the slot gets a copy of that entry with only the slot replaced; any other is untouched.
   */
  function Restyle(renderer: Option<seq<Material>>, i: nat, originals: seq<seq<Material>>, slot: int, m: Material)
    : (r: Option<seq<Material>>)
    ensures r.None? <==> renderer.None?
    ensures r != renderer ==>
              && i < |originals| && 0 <= slot < |r.value| == |originals[i]| && r.value[slot] == m
              && forall j | 0 <= j < |r.value| && j != slot :: r.value[j] == originals[i][j]
    ensures renderer.Some? && i < |originals| && 0 <= slot < |originals[i]| ==> r.Some? && slot < |r.value| && r.value[slot] == m
  {
    if renderer.Some? && i < |originals| && 0 <= slot < |originals[i]| then Some(originals[i][slot := m])
    else renderer
  }

  /** Renderer i as OnDisable leaves it: a non-null renderer whose saved entry exists gets that entry back. */
  function Restore(renderer: Option<seq<Material>>, i: nat, originals: seq<seq<Material>>): (r: Option<seq<Material>>)
    ensures r.None? <==> renderer.None?
    ensures renderer.Some? && i < |originals| ==> r.value == originals[i]
    ensures renderer.None? || |originals| <= i ==> r == renderer
  {
    if renderer.Some? && i < |originals| then Some(originals[i]) else renderer
  }

  /** Saving one more renderer appends its materials when it is not null. */
  lemma SavedOneMore(renderers: seq<Option<seq<Material>>>, i: nat)
    requires i < |renderers|
    ensures Saved(renderers[..i + 1]) == Saved(renderers[..i]) + if renderers[i].Some? then [renderers[i].value] else []
  {
    assert renderers[..i + 1][..i] == renderers[..i];
  }

  /**
   * The loop of InitializeMaterials over the renderers found: a null renderer is skipped; any other
   * gets its material slot and then has its materials saved.
   */
  method PrepareEach(found: seq<Option<seq<Material>>>, slot: int)
    returns (renderers: seq<Option<seq<Material>>>, saved: seq<seq<Material>>)
    ensures renderers == Prepared(found, slot)
    ensures saved == Saved(Prepared(found, slot))
  {
    ghost var prepared := Prepared(found, slot);
    renderers := found;
    saved := [];
    for i := 0 to |found|
      invariant |renderers| == |found|
      invariant forall j | 0 <= j < i :: renderers[j] == prepared[j]
      invariant forall j | i <= j < |found| :: renderers[j] == found[j]
      invariant saved == Saved(prepared[..i])
    {
      SavedOneMore(prepared, i);
      var renderer := renderers[i];
      if renderer.Some? {
        var grown := EnsureMaterialSlot(renderer, slot);
        renderers := renderers[i := grown];
        saved := saved + [grown.value];
      }
    }
    assert prepared[..|found|] == prepared;
  }

  /** Every saved entry is the materials of some non-null renderer, so without one nothing is saved. */
  lemma {:induction false} SavedComesFromRenderers(renderers: seq<Option<seq<Material>>>)
    ensures forall m | m in Saved(renderers) :: Some(m) in renderers
    ensures (forall i | 0 <= i < |renderers| :: renderers[i].None?) ==> Saved(renderers) == []
  {
    if renderers != [] {
      var n := |renderers| - 1;
      var front := renderers[..n];
      SavedComesFromRenderers(front);
      assert forall x | x in front :: x in renderers;
    }
  }

  /** Without null renderers, entry i of the saved materials belongs to renderer i. */
  lemma {:induction false} SavedWithoutNulls(renderers: seq<Option<seq<Material>>>)
    requires forall i | 0 <= i < |renderers| :: renderers[i].Some?
    ensures |Saved(renderers)| == |renderers|
    ensures forall i | 0 <= i < |renderers| :: Saved(renderers)[i] == renderers[i].value
  {
    if renderers != [] {
      var n := |renderers| - 1;
      var front := renderers[..n];
      assert forall i | 0 <= i < |front| :: front[i] == renderers[i];
      SavedWithoutNulls(front);
      assert Saved(renderers) == Saved(front) + [renderers[n].value];
    }
  }

  /**
   * With no null renderer among those found and a non-negative slot, Start saves every renderer's
   * own grown materials; a frame then gives each renderer exactly those materials with the status
   * material in the slot, and OnDisable puts back what Start saved.
   */
  lemma StartThenDisableRestores(found: seq<Option<seq<Material>>>, slot: int, m: Material)
    requires forall i | 0 <= i < |found| :: found[i].Some?
    requires 0 <= slot
    ensures forall i | 0 <= i < |found| ::
              var styled := Restyle(Prepared(found, slot)[i], i, Saved(Prepared(found, slot)), slot, m);
              && styled == Some(WithSlot(found[i].value, slot)[slot := m])
              && Restore(styled, i, Saved(Prepared(found, slot))) == Prepared(found, slot)[i]
  {
    SavedWithoutNulls(Prepared(found, slot));
  }

  /**
   * A null renderer ahead of others shifts the saved materials against the renderer list: the
   * renderer after it is styled from its neighbour's saved materials, and the last renderer has no
   * saved entry, so it is never styled and OnDisable never restores it.
   */
  lemma NullRendererMisalignsSaved()
    ensures var found := [None, Some([Asset(1), Asset(2)]), Some([Asset(3), Asset(4)])];
            var originals := Saved(Prepared(found, 1));
            && Restyle(Prepared(found, 1)[1], 1, originals, 1, Asset(9)) == Some([Asset(3), Asset(9)])
            && Restyle(Prepared(found, 1)[2], 2, originals, 1, Asset(9)) == Some([Asset(3), Asset(4)])
            && Restore(Prepared(found, 1)[2], 2, originals) == Some([Asset(3), Asset(4)])
  {
    var found := [None, Some([Asset(1), Asset(2)]), Some([Asset(3), Asset(4)])];
    var prepared := Prepared(found, 1);
    assert WithSlot([Asset(1), Asset(2)], 1) == [Asset(1), Asset(2)];
    assert WithSlot([Asset(3), Asset(4)], 1) == [Asset(3), Asset(4)];
    assert prepared == found;
    assert prepared[..2] == [None, Some([Asset(1), Asset(2)])];
    assert prepared[..2][..1] == [None];
    var none: seq<Option<seq<Material>>> := [];
    assert [None][..0] == none;
    assert Saved([None]) == [];
    assert Saved(prepared[..2]) == [[Asset(1), Asset(2)]];
    assert Saved(prepared) == [[Asset(1), Asset(2)], [Asset(3), Asset(4)]];
    assert [Asset(3), Asset(4)][1 := Asset(9)] == [Asset(3), Asset(9)];
  }

  class StatusMaterialController {
    var currentStatus: Status
    const normalMaterial: Material
    const chargingMaterial: Material
    const malfunctionMaterial: Material
    const materialSlotIndex: int

    var childRenderers: seq<Option<seq<Material>>>
    var originalMaterials: seq<seq<Material>>
    var materialsInitialized: bool

    constructor (currentStatus: Status, normalMaterial: Material, chargingMaterial: Material,
                 malfunctionMaterial: Material, materialSlotIndex: int)
      ensures this.currentStatus == currentStatus && this.normalMaterial == normalMaterial
      ensures this.chargingMaterial == chargingMaterial && this.malfunctionMaterial == malfunctionMaterial
      ensures this.materialSlotIndex == materialSlotIndex
      ensures childRenderers == [] && originalMaterials == [] && !materialsInitialized
    {
      this.currentStatus := currentStatus;
      this.normalMaterial := normalMaterial;
      this.chargingMaterial := chargingMaterial;
      this.malfunctionMaterial := malfunctionMaterial;
      this.materialSlotIndex := materialSlotIndex;
      childRenderers := [];
      originalMaterials := [];
      materialsInitialized := false;
    }

    /** Start: prepare the renderers found under the vehicle, then style them. */
    method Start(found: seq<Option<seq<Material>>>)
      modifies this
      ensures currentStatus == old(currentStatus)
      ensures materialsInitialized == (old(materialsInitialized) || |found| > 0)
      ensures originalMaterials == old(originalMaterials) + Saved(Prepared(found, materialSlotIndex))
      ensures |childRenderers| == |found|
      ensures materialsInitialized ==>
                forall i | 0 <= i < |found| ::
                  childRenderers[i] == Restyle(Prepare(found[i], materialSlotIndex), i, originalMaterials,
                                               materialSlotIndex, GetCurrentStatusMaterial())
      ensures !materialsInitialized ==> childRenderers == found
    {
      InitializeMaterials(found);
      UpdateAllMaterials();
    }

    /** Update: restyle every frame. */
    method Update()
      modifies this
      ensures currentStatus == old(currentStatus) && originalMaterials == old(originalMaterials)
      ensures materialsInitialized == old(materialsInitialized)
      ensures |childRenderers| == |old(childRenderers)|
      ensures materialsInitialized ==>
                forall i | 0 <= i < |childRenderers| ::
                  childRenderers[i] == Restyle(old(childRenderers)[i], i, originalMaterials,
                                               materialSlotIndex, GetCurrentStatusMaterial())
      ensures !materialsInitialized ==> childRenderers == old(childRenderers)
    {
      UpdateAllMaterials();
    }

    /**
     * InitializeMaterials: take the renderers found; with none, stay uninitialised. Otherwise grow
     * each non-null renderer's slots and save its materials, skipping null renderers.
     */
    method InitializeMaterials(found: seq<Option<seq<Material>>>)
      modifies this
      ensures currentStatus == old(currentStatus)
      ensures |found| == 0 ==> childRenderers == found && originalMaterials == old(originalMaterials)
                                && materialsInitialized == old(materialsInitialized)
      ensures |found| > 0 ==> childRenderers == Prepared(found, materialSlotIndex) && materialsInitialized
      ensures originalMaterials == old(originalMaterials) + Saved(Prepared(found, materialSlotIndex))
    {
      childRenderers := found;
      if |childRenderers| == 0 {
        return;
      }
      var renderers, saved := PrepareEach(childRenderers, materialSlotIndex);
      childRenderers := renderers;
      originalMaterials := originalMaterials + saved;
      materialsInitialized := true;
    }

    /**
     * UpdateAllMaterials: when initialised and there are renderers, give each non-null renderer a
     * copy of its saved materials with the status material in the slot, when the slot fits. A
     * non-null renderer with no saved entry ends the pass, as the list index fails there.
     */
    method UpdateAllMaterials()
      modifies this
      ensures currentStatus == old(currentStatus) && originalMaterials == old(originalMaterials)
      ensures materialsInitialized == old(materialsInitialized)
      ensures |childRenderers| == |old(childRenderers)|
      ensures materialsInitialized ==>
                forall i | 0 <= i < |childRenderers| ::
                  childRenderers[i] == Restyle(old(childRenderers)[i], i, originalMaterials,
                                               materialSlotIndex, GetCurrentStatusMaterial())
      ensures !materialsInitialized ==> childRenderers == old(childRenderers)
    {
      if !materialsInitialized || |childRenderers| == 0 {
        return;
      }
      var statusMaterial := GetCurrentStatusMaterial();
      var i := 0;
      while i < |childRenderers|
        invariant 0 <= i <= |childRenderers| == |old(childRenderers)|
        invariant currentStatus == old(currentStatus) && originalMaterials == old(originalMaterials)
        invariant materialsInitialized == old(materialsInitialized)
        invariant forall j | 0 <= j < i ::
                    childRenderers[j] == Restyle(old(childRenderers)[j], j, originalMaterials, materialSlotIndex, statusMaterial)
        invariant forall j | i <= j < |childRenderers| :: childRenderers[j] == old(childRenderers)[j]
      {
        if childRenderers[i].Some? {
          if i >= |originalMaterials| {
            assert forall j | i <= j < |childRenderers| ::
                     Restyle(old(childRenderers)[j], j, originalMaterials, materialSlotIndex, statusMaterial)
                     == old(childRenderers)[j];
            break;
          }
          var original := originalMaterials[i];
          var materials := new Material[|original|](k requires 0 <= k < |original| => original[k]);
          if materialSlotIndex >= 0 && materialSlotIndex < materials.Length {
            materials[materialSlotIndex] := statusMaterial;
            assert materials[..] == original[materialSlotIndex := statusMaterial];
            childRenderers := childRenderers[i := Some(materials[..])];
          }
        }
        i := i + 1;
      }
    }

    /** GetCurrentStatusMaterial: the material assigned to the current status. */
    function GetCurrentStatusMaterial(): (m: Material)
      reads this
      ensures currentStatus == Normal ==> m == normalMaterial
      ensures currentStatus == Charging ==> m == chargingMaterial
      ensures currentStatus == Malfunction ==> m == malfunctionMaterial
    {
      match currentStatus
      case Normal => normalMaterial
      case Charging => chargingMaterial
      case Malfunction => malfunctionMaterial
    }

    /** SetStatus: a new status is stored and shown at once; the current status changes nothing. */
    method SetStatus(newStatus: Status)
      modifies this
      ensures newStatus == old(currentStatus) ==> unchanged(this)
      ensures currentStatus == newStatus
      ensures originalMaterials == old(originalMaterials) && materialsInitialized == old(materialsInitialized)
      ensures |childRenderers| == |old(childRenderers)|
      ensures newStatus != old(currentStatus) && materialsInitialized ==>
                forall i | 0 <= i < |childRenderers| ::
                  childRenderers[i] == Restyle(old(childRenderers)[i], i, originalMaterials,
                                               materialSlotIndex, GetCurrentStatusMaterial())
      ensures !materialsInitialized ==> childRenderers == old(childRenderers)
    {
      if currentStatus != newStatus {
        currentStatus := newStatus;
        UpdateAllMaterials();
      }
    }

    /** SetNormal: SetStatus(Normal); every renderer then shows normalMaterial in the slot. */
    method SetNormal()
      modifies this
      ensures currentStatus == Normal && GetCurrentStatusMaterial() == normalMaterial
      ensures old(currentStatus) == Normal ==> unchanged(this)
      ensures originalMaterials == old(originalMaterials) && materialsInitialized == old(materialsInitialized)
      ensures |childRenderers| == |old(childRenderers)|
      ensures old(currentStatus) != Normal && materialsInitialized ==>
                forall i | 0 <= i < |childRenderers| ::
                  childRenderers[i] == Restyle(old(childRenderers)[i], i, originalMaterials,
                                               materialSlotIndex, normalMaterial)
      ensures !materialsInitialized ==> childRenderers == old(childRenderers)
    {
      SetStatus(Normal);
    }

    /** SetCharging: SetStatus(Charging); every renderer then shows chargingMaterial in the slot. */
    method SetCharging()
      modifies this
      ensures currentStatus == Charging && GetCurrentStatusMaterial() == chargingMaterial
      ensures old(currentStatus) == Charging ==> unchanged(this)
      ensures originalMaterials == old(originalMaterials) && materialsInitialized == old(materialsInitialized)
      ensures |childRenderers| == |old(childRenderers)|
      ensures old(currentStatus) != Charging && materialsInitialized ==>
                forall i | 0 <= i < |childRenderers| ::
                  childRenderers[i] == Restyle(old(childRenderers)[i], i, originalMaterials,
                                               materialSlotIndex, chargingMaterial)
      ensures !materialsInitialized ==> childRenderers == old(childRenderers)
    {
      SetStatus(Charging);
    }

    /** SetMalfunction: SetStatus(Malfunction); every renderer then shows malfunctionMaterial in the slot. */
    method SetMalfunction()
      modifies this
      ensures currentStatus == Malfunction && GetCurrentStatusMaterial() == malfunctionMaterial
      ensures old(currentStatus) == Malfunction ==> unchanged(this)
      ensures originalMaterials == old(originalMaterials) && materialsInitialized == old(materialsInitialized)
      ensures |childRenderers| == |old(childRenderers)|
      ensures old(currentStatus) != Malfunction && materialsInitialized ==>
                forall i | 0 <= i < |childRenderers| ::
                  childRenderers[i] == Restyle(old(childRenderers)[i], i, originalMaterials,
                                               materialSlotIndex, malfunctionMaterial)
      ensures !materialsInitialized ==> childRenderers == old(childRenderers)
    {
      SetStatus(Malfunction);
    }

    /**
     * OnDisable: when initialised, put each non-null renderer's saved materials back; a non-null
     * renderer with no saved entry ends the pass, as the list index fails there.
     */
    method OnDisable()
      modifies this
      ensures currentStatus == old(currentStatus) && originalMaterials == old(originalMaterials)
      ensures materialsInitialized == old(materialsInitialized)
      ensures |childRenderers| == |old(childRenderers)|
      ensures materialsInitialized ==>
                forall i | 0 <= i < |childRenderers| ::
                  childRenderers[i] == Restore(old(childRenderers)[i], i, originalMaterials)
      ensures !materialsInitialized ==> childRenderers == old(childRenderers)
    {
      if !materialsInitialized {
        return;
      }
      var i := 0;
      while i < |childRenderers|
        invariant 0 <= i <= |childRenderers| == |old(childRenderers)|
        invariant currentStatus == old(currentStatus) && originalMaterials == old(originalMaterials)
        invariant materialsInitialized == old(materialsInitialized)
        invariant forall j | 0 <= j < i :: childRenderers[j] == Restore(old(childRenderers)[j], j, originalMaterials)
        invariant forall j | i <= j < |childRenderers| :: childRenderers[j] == old(childRenderers)[j]
      {
        if childRenderers[i].Some? {
          if i >= |originalMaterials| {
            break;
          }
          childRenderers := childRenderers[i := Some(originalMaterials[i])];
        }
        i := i + 1;
      }
    }
  }
}
