/**
 * The three components composed, on freshly created
 * objects: what a scene with one controller, one poster and one
 * broadcaster does for a few input sequences. Each method's contract is
 * proved from the contracts of the operations alone.
 */
module Scenarios {
  import opened Wrappers
  import opened Input
  import opened ColourBlindMode
  import opened AccessibilityPosters
  import opened AccessibilityBroadcast

  /** A Ready controller: a Volume whose profile holds a ColorAdjustments override. */
  method ReadyController(initial: CvdMode) returns (c: ColourBlindModeController)
    ensures fresh(c) && c.colorAdjustments.Some? && fresh(c.colorAdjustments.value)
    ensures c.mode == initial && c.currentMode == initial
    ensures c.colorAdjustments.value.Settings() == Adjustments(initial)
  {
    c := new ColourBlindModeController(initial);
    var sink := new ColorAdjustments(Neutral);
    c.Start(Some(Volume(Some(sink))));
  }

  /**
   * Key 2 selects Protanopia; a poster with only a protan variant then
   * shows it with the fix on and its normal material with the fix off.
   */
  method ProtanFixScenario() returns (fixed: Option<MaterialId>, unfixed: Option<MaterialId>, tint: Color)
    ensures fixed == Some(2) && unfixed == Some(1)
    ensures tint == Color(0.7, 1.0, 1.0)
  {
    var controller := ReadyController(Normal);
    controller.Update({Alpha2});
    tint := controller.colorAdjustments.value.colorFilter;
    var renderer := new MeshRenderer(Some(1));
    var poster := new AccessibilityPoster(controller, renderer, MaterialSet(Some(1), Some(2), None, None));
    poster.Awake(null);
    poster.ApplyFix(true);
    fixed := renderer.material;
    poster.ApplyFix(false);
    unfixed := renderer.material;
  }

  /** Under Tritanopia a poster with only a normal material falls back to it. */
  method FallbackScenario() returns (shown: Option<MaterialId>)
    ensures shown == Some(5)
  {
    var controller := ReadyController(Normal);
    controller.Update({Alpha4});
    var renderer := new MeshRenderer(Some(5));
    var poster := new AccessibilityPoster(controller, renderer, MaterialSet(None, None, None, None));
    poster.Awake(null);
    poster.ApplyFix(true);
    shown := renderer.material;
  }

  /**
   * Without a ColorAdjustments override the controller is Disabled: key 3
   * changes neither the selected nor the published mode, so the poster
   * keeps showing its normal material even with the fix on.
   */
  method DisabledScenario() returns (selected: CvdMode, published: CvdMode, shown: Option<MaterialId>)
    ensures selected == Normal && published == Normal
    ensures shown == Some(1)
  {
    var controller := new ColourBlindModeController(Normal);
    controller.Start(Some(Volume(None)));
    controller.Update({Alpha3});
    selected, published := controller.mode, controller.currentMode;
    var renderer := new MeshRenderer(Some(1));
    var poster := new AccessibilityPoster(controller, renderer, MaterialSet(Some(1), Some(2), Some(3), Some(4)));
    poster.Awake(null);
    poster.ApplyFix(true);
    shown := renderer.material;
  }

  /** The facts about the one-poster scene that every toggle keeps. */
  ghost predicate Scene(manager: AccessibilityManager, poster: AccessibilityPoster, renderer: MeshRenderer)
    reads manager, manager.posters, poster, poster.controller
  {
    && manager.posters != null && manager.posters[..] == [null, poster]
    && manager.toggleKey == F
    && poster.targetRenderer == renderer
    && poster.controller.currentMode == Tritanopia
    && poster.Materials() == MaterialSet(Some(1), Some(2), Some(3), Some(4))
  }

  /** A poster under Tritanopia whose normal material defaults to its renderer's. */
  method AwakePoster() returns (poster: AccessibilityPoster, renderer: MeshRenderer)
    ensures fresh(poster) && fresh(renderer)
    ensures poster.targetRenderer == renderer && renderer.material == Some(1)
    ensures poster.controller.currentMode == Tritanopia
    ensures poster.Materials() == MaterialSet(Some(1), Some(2), Some(3), Some(4))
  {
    var controller := ReadyController(Tritanopia);
    renderer := new MeshRenderer(Some(1));
    poster := new AccessibilityPoster(controller, renderer, MaterialSet(None, Some(2), Some(3), Some(4)));
    poster.Awake(null);
  }

  /**
   * A Tritanopia scene: one poster whose normal material comes from its
   * renderer, discovered by a broadcaster together with a null entry.
   * Start broadcasts the default flag (off).
   */
  method StartedScene() returns (manager: AccessibilityManager, poster: AccessibilityPoster, renderer: MeshRenderer)
    ensures fresh(manager) && fresh(manager.posters) && fresh(renderer)
    ensures Scene(manager, poster, renderer)
    ensures !manager.applyFix && renderer.material == Some(1)
  {
    poster, renderer := AwakePoster();
    manager := new AccessibilityManager(false, DefaultToggleKey);
    var found := new AccessibilityPoster?[2];
    found[0], found[1] := null, poster;
    assert found[..] == [null, poster];
    assert ExclusiveRenderers(found[..]);
    manager.Start(found);
    assert poster in found[..];
    BroadcastReachesOwner(found[..], false, poster, Some(1));
  }

  /** One press of the toggle key in the scene: the flag flips and the poster shows its new choice. */
  method PressToggle(manager: AccessibilityManager, poster: AccessibilityPoster, renderer: MeshRenderer)
    requires Scene(manager, poster, renderer)
    modifies manager, renderer
    ensures Scene(manager, poster, renderer)
    ensures manager.applyFix == !old(manager.applyFix)
    ensures renderer.material == if manager.applyFix then Some(4) else Some(1)
  {
    assert ExclusiveRenderers(manager.posters[..]);
    assert manager.Renderers() == {renderer};
    manager.Update({F});
    assert poster in manager.posters[..];
    BroadcastReachesOwner(manager.posters[..], manager.applyFix, poster, old(renderer.material));
  }

  /**
   * The broadcaster starts with the fix off, skips a null array entry, and
   * each press of its toggle key flips the flag and re-broadcasts it:
   * the tritan variant appears after one press and the normal material
   * returns after the second.
   */
  method BroadcastScenario() returns (atStart: Option<MaterialId>, afterOne: Option<MaterialId>, afterTwo: Option<MaterialId>, flag: bool)
    ensures atStart == Some(1) && afterOne == Some(4) && afterTwo == Some(1)
    ensures !flag
  {
    var manager, poster, renderer := StartedScene();
    atStart := renderer.material;
    PressToggle(manager, poster, renderer);
    afterOne := renderer.material;
    PressToggle(manager, poster, renderer);
    afterTwo := renderer.material;
    flag := manager.applyFix;
  }
}
