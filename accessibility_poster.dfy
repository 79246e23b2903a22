/**
 * The per-object material selector. A poster holds a normal material and
 * one optional "fix" material per deficiency; on ApplyFix it chooses one
 * from the fix flag and the controller's published mode and assigns it to
 * its renderer's single active-material slot.
 */
module AccessibilityPosters {
  import opened Wrappers
  import opened ColourBlindMode

  /** An opaque material asset; `None` stands for a null material reference. */
  type MaterialId = nat

  /** The host renderer, reduced to its active-material slot. */
  class MeshRenderer {
    var material: Option<MaterialId>

    constructor(material: Option<MaterialId>)
      ensures this.material == material
    {
      this.material := material;
    }
  }

  /** A poster's four material slots. */
  datatype MaterialSet = MaterialSet(
    normal: Option<MaterialId>,
    protanFix: Option<MaterialId>,
    deutanFix: Option<MaterialId>,
    tritanFix: Option<MaterialId>)

  /** The fix variant configured for a mode; Normal has none. */
  function FixFor(v: MaterialSet, m: CvdMode): Option<MaterialId>
  {
    match m
    case Normal => None
    case Protanopia => v.protanFix
    case Deuteranopia => v.deutanFix
    case Tritanopia => v.tritanFix
  }

  /**
   * The selection rule: the mode's fix variant when the fix is enabled and
   * that variant is set, otherwise the normal material. The choice is
   * always one of those two, and it is never null while normal is set.
   */
  function Select(enable: bool, m: CvdMode, v: MaterialSet): (r: Option<MaterialId>)
    ensures r == v.normal || (enable && r.Some? && r == FixFor(v, m))
    ensures v.normal.Some? ==> r.Some?
  {
    if enable && FixFor(v, m).Some? then FixFor(v, m) else v.normal
  }

  /** With the fix disabled the normal material is chosen, whatever the mode. */
  lemma FixOffChoosesNormal(m: CvdMode, v: MaterialSet)
    ensures Select(false, m, v) == v.normal
  {
  }

  /** In Normal mode the normal material is chosen, whatever the flag. */
  lemma NormalModeChoosesNormal(enable: bool, v: MaterialSet)
    ensures Select(enable, Normal, v) == v.normal
  {
  }

  /** A missing variant falls back to the normal material. */
  lemma MissingVariantFallsBack(enable: bool, m: CvdMode, v: MaterialSet)
    requires FixFor(v, m).None?
    ensures Select(enable, m, v) == v.normal
  {
  }

  /** With the fix enabled, a configured variant of a deficiency mode is chosen. */
  lemma PresentVariantChosen(m: CvdMode, v: MaterialSet)
    requires FixFor(v, m).Some?
    ensures m != Normal
    ensures Select(true, m, v) == FixFor(v, m)
  {
  }

  /** The renderer's slot after assigning a choice: a null choice leaves the slot alone. */
  function SlotAfter(current: Option<MaterialId>, chosen: Option<MaterialId>): Option<MaterialId>
  {
    if chosen.Some? then chosen else current
  }

  /** Assigning the same choice twice leaves the slot of assigning it once. */
  lemma SlotAfterIdempotent(current: Option<MaterialId>, chosen: Option<MaterialId>)
    ensures SlotAfter(SlotAfter(current, chosen), chosen) == SlotAfter(current, chosen)
  {
  }

  class AccessibilityPoster {
    var targetRenderer: MeshRenderer?
    var normalMaterial: Option<MaterialId>
    var protanFixMaterial: Option<MaterialId>
    var deutanFixMaterial: Option<MaterialId>
    var tritanFixMaterial: Option<MaterialId>
    /** The controller whose published mode this poster reads. */
    const controller: ColourBlindModeController

    /** The inspector-authored fields. */
    constructor(controller: ColourBlindModeController, targetRenderer: MeshRenderer?, materials: MaterialSet)
      ensures this.controller == controller && this.targetRenderer == targetRenderer
      ensures Materials() == materials
    {
      this.controller := controller;
      this.targetRenderer := targetRenderer;
      normalMaterial := materials.normal;
      protanFixMaterial := materials.protanFix;
      deutanFixMaterial := materials.deutanFix;
      tritanFixMaterial := materials.tritanFix;
    }

    function Materials(): MaterialSet
      reads this
    {
      MaterialSet(normalMaterial, protanFixMaterial, deutanFixMaterial, tritanFixMaterial)
    }

    /** The material ApplyFix(enable) chooses under the controller's current mode. */
    function Chosen(enable: bool): Option<MaterialId>
      reads this, controller
    {
      Select(enable, controller.currentMode, Materials())
    }

    /**
     * Awake: bind the renderer (the given component when none was set),
     * default the normal material to the renderer's shared material, and
     * start with the normal material. Without a renderer only the binding
     * attempt happens.
     */
    method Awake(component: MeshRenderer?)
      modifies this`targetRenderer, this`normalMaterial
      modifies if targetRenderer != null then {targetRenderer} else {component}
      ensures targetRenderer == if old(targetRenderer) != null then old(targetRenderer) else component
      ensures targetRenderer == null ==> normalMaterial == old(normalMaterial)
      ensures var r := targetRenderer;
        r != null ==>
          && normalMaterial == (if old(normalMaterial).Some? then old(normalMaterial) else old(r.material))
          && r.material == normalMaterial
    {
      if targetRenderer == null {
        targetRenderer := component;
      }
      if targetRenderer == null {
        return;
      }
      if normalMaterial.None? {
        normalMaterial := targetRenderer.material;
      }
      targetRenderer.material := normalMaterial;
    }

    /**
     * ApplyFix: choose a material from the flag and the current mode and
     * assign it, unless there is no renderer or the choice is null.
     */
    method ApplyFix(enable: bool)
      modifies targetRenderer
      ensures targetRenderer != null ==>
                targetRenderer.material == SlotAfter(old(targetRenderer.material), Chosen(enable))
    {
      if targetRenderer == null {
        return;
      }
      var chosen := normalMaterial;
      if enable {
        match controller.currentMode
        case Protanopia =>
          if protanFixMaterial.Some? { chosen := protanFixMaterial; }
        case Deuteranopia =>
          if deutanFixMaterial.Some? { chosen := deutanFixMaterial; }
        case Tritanopia =>
          if tritanFixMaterial.Some? { chosen := tritanFixMaterial; }
        case Normal =>
          chosen := normalMaterial;
      }
      if chosen.None? {
        return;
      }
      targetRenderer.material := chosen;
    }
  }
}
