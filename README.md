# VR Accessibility Toolkit: colour-vision modes and poster fixes

This model covers three Unity components that together simulate colour-vision
deficiency (CVD) in a scene and swap materials on "posters" to compensate.
The three are modelled as one system, with the engine replaced by explicit
state and parameters:

- **ColourBlindModeController** (module `ColourBlindMode`). It keeps the
  selected mode `mode` and the published mode `currentMode`. It may hold a
  colour-adjustment sink, which stands for the post-processing ColorAdjustments
  override.
  - With a sink, the controller is *Ready*. `ApplyMode` publishes the selected
    mode and writes that mode's entry of a fixed four-way table
    (post-exposure, contrast, saturation, colour filter) into the sink.
  - With no sink, the controller is *Disabled*, and `ApplyMode` and `Update`
    change nothing.
  - `Update` maps the digit keys 1 to 4 to the four modes. Only the first
    key of the else-if chain that is down takes effect.
  - The controller's state is also described as a value, `ControllerState`.
    The pure steps `ApplyModeStep` and `UpdateStep` act on that value. Each
    method is proved to act on the object's state exactly as its step
    function acts on the value, and the laws (identity, no-op while
    Disabled, idempotence, first-key-wins) are proved as lemmas about the
    step functions.
- **AccessibilityPoster** (module `AccessibilityPosters`). A poster holds a
  normal material and an optional fix material for each deficiency.
  - `Awake` binds the renderer and defaults the normal material to the
    renderer's material.
  - `ApplyFix(enable)` chooses a material from the flag and the controller's
    published mode. It falls back to the normal material when the mode's
    fix variant is missing. It leaves the renderer alone when there is no
    renderer or the choice is null.
  - The choice itself is the pure function `Select`.
- **AccessibilityManager** (module `AccessibilityBroadcast`). The manager
  owns the global fix flag and flips it when its toggle key is pressed. It
  then calls `ApplyFix(flag)` on every non-null poster it found at start-up,
  in array order.
  - A broadcast is described by a sequence of value-level `Write(target,
    chosen)` records. `MaterialAfter` gives the material a renderer holds
    once those writes are carried out in order.
  - The loop in `UpdatePosters` is proved against `MaterialAfter`.
  - Lemmas show that when no two posters share a renderer, each poster's
    renderer ends with that poster's own choice, and that the result does
    not depend on the order in which posters were discovered.
  - `SharedRendererOrderMatters` shows that the hypothesis is needed: two
    posters sharing a renderer make the last one win.

The C# static property `CurrentMode` becomes the field `currentMode` of an
explicit controller object. Each poster holds a reference to it
(`controller`) and reads the published mode from it.

Other modelling choices:

- Null references to renderers, posters and the poster array are Dafny
  nullable references (`MeshRenderer?`, `array?<AccessibilityPoster?>`), with
  the same null checks as the C# code.
- Null materials and the missing override are `Option` values.
- Materials are opaque numbers.
- Colours are triples of `real` constants.
- The keys pressed in one frame are a `set<KeyCode>`.
- The Volume lookup in `Start` is an `Option<Volume>` parameter.
- The poster array that `FindObjectsByType` returns is a parameter of
  `AccessibilityManager.Start`.

While Disabled, `ApplyMode` returns before assigning `CurrentMode`
(Assets/Scripts/ColourBlindModeController.cs:100-103) and `Update` returns at
once (Assets/Scripts/ColourBlindModeController.cs:68), so `mode`,
`currentMode` and the sink all stay unchanged.

Module `Scenarios` drives the three components together on fresh objects:
key presses, the fallback, the Disabled controller, and a toggle pressed
twice, and proves each scenario's outcome from the operations' contracts.

## Model

| member | source | states |
|---|---|---|
| `ColourBlindMode.OrdinalInjective` | Assets/Scripts/ColourBlindModeController.cs:27-33 | The enum values 0 to 3 identify the modes: equal values mean equal modes. |
| `ColourBlindMode.Adjustments` | Assets/Scripts/ColourBlindModeController.cs:105-145 | Every table entry sets post-exposure and contrast to 0. Its saturation lies in [-100, 0] and its filter in the unit cube. The entry is neutral exactly when the mode is Normal. |
| `ColourBlindMode.AdjustmentsTable` | Assets/Scripts/ColourBlindModeController.cs:107-144 | The exact constants. Normal is (0, 0, 0, white). Protanopia is -40 with filter (0.7, 1, 1); Deuteranopia -40 with (1, 0.8, 1); Tritanopia -50 with (1, 1, 0.7). |
| `ColourBlindMode.KeyDispatch` | Assets/Scripts/ColourBlindModeController.cs:72-91 | A frame selects no mode exactly when none of keys 1 to 4 is down. Otherwise the selected mode's key is down and no lower mode's key is. |
| `ColourBlindMode.KeyDispatchSelects` | Assets/Scripts/ColourBlindModeController.cs:72-91 | The converse: a mode whose key is down, with no lower mode's key down, is the one selected. |
| `ColourBlindMode.ApplyModeReady` | Assets/Scripts/ColourBlindModeController.cs:100-145 | With a sink, ApplyMode makes the published mode equal to the selected mode and the sink equal to that mode's table entry. |
| `ColourBlindMode.DisabledIsNoop` | Assets/Scripts/ColourBlindModeController.cs:65-103 | Without a sink, ApplyMode and Update leave the selected mode, the published mode and the sink unchanged. |
| `ColourBlindMode.ApplyModeIdempotent` | Assets/Scripts/ColourBlindModeController.cs:98-146 | Applying the mode twice gives the state of applying it once. |
| `ColourBlindMode.ReadinessPreserved` | Assets/Scripts/ColourBlindModeController.cs:65-146 | Neither ApplyMode nor Update binds or unbinds the sink. |
| `ColourBlindMode.UpdateSelectsFirstKey` | Assets/Scripts/ColourBlindModeController.cs:72-91 | A Ready controller whose first pressed mode key is m's selects m, publishes it and writes its table entry. |
| `ColourBlindMode.UpdateWithoutModeKey` | Assets/Scripts/ColourBlindModeController.cs:72-91 | A frame with none of keys 1 to 4 down changes nothing. |
| `ColourBlindMode.UpdateIdempotent` | Assets/Scripts/ColourBlindModeController.cs:65-92 | Handling the same frame twice gives the state of handling it once. |
| `ColourBlindMode.ColourBlindModeController.constructor` | Assets/Scripts/ColourBlindModeController.cs:14-39 | Starts with the inspector mode, the published mode Normal (the enum default) and no sink. |
| `ColourBlindMode.ColourBlindModeController.Start` | Assets/Scripts/ColourBlindModeController.cs:41-63 | Without a Volume nothing changes. With one, the profile's lookup result is bound. When an override is found, the inspector mode is published and its table entry is in the sink. Otherwise the published mode is unchanged. |
| `ColourBlindMode.ColourBlindModeController.Update` | Assets/Scripts/ColourBlindModeController.cs:65-92 | The new (mode, published mode, sink) state is UpdateStep of the old one: no-op while Disabled, first pressed mode key wins. |
| `ColourBlindMode.ColourBlindModeController.ApplyMode` | Assets/Scripts/ColourBlindModeController.cs:98-146 | The new state is ApplyModeStep of the old one: publish and write the table entry, or nothing while Disabled. |
| `AccessibilityPosters.Select` | Assets/Scripts/AccessibilityPoster.cs:37-61 | The choice is the normal material, or else, with the fix on, the mode's non-null fix variant. It is never null while the normal material is set. |
| `AccessibilityPosters.FixOffChoosesNormal` | Assets/Scripts/AccessibilityPoster.cs:37-39 | With the fix off the normal material is chosen, whatever the mode. |
| `AccessibilityPosters.NormalModeChoosesNormal` | Assets/Scripts/AccessibilityPoster.cs:57-60 | Under Normal the normal material is chosen, whatever the flag. |
| `AccessibilityPosters.MissingVariantFallsBack` | Assets/Scripts/AccessibilityPoster.cs:43-55 | A missing fix variant falls back to the normal material. |
| `AccessibilityPosters.PresentVariantChosen` | Assets/Scripts/AccessibilityPoster.cs:45-55 | With the fix on, a configured variant is chosen, and only deficiency modes have one. |
| `AccessibilityPosters.SlotAfterIdempotent` | Assets/Scripts/AccessibilityPoster.cs:33-71 | Assigning the same choice twice leaves the slot of assigning it once, so ApplyFix(b) is idempotent while the published mode is fixed. |
| `AccessibilityPosters.AccessibilityPoster.constructor` | Assets/Scripts/AccessibilityPoster.cs:5-12 | The inspector fields: renderer, the four material slots and the controller read. |
| `AccessibilityPosters.AccessibilityPoster.Awake` | Assets/Scripts/AccessibilityPoster.cs:14-30 | The renderer is the set one, or else the component found. Without one, the normal material is unchanged. With one, the normal material keeps its value or else becomes the renderer's material, and the renderer then shows the normal material. |
| `AccessibilityPosters.AccessibilityPoster.ApplyFix` | Assets/Scripts/AccessibilityPoster.cs:33-71 | Only the poster's renderer may change. It receives Select's choice for the published mode, or keeps its material when that choice is null. |
| `AccessibilityBroadcast.WritesOf` | Assets/Scripts/AccessibilityManager.cs:34-40 | One write per array entry. |
| `AccessibilityBroadcast.WritesOfAt` | Assets/Scripts/AccessibilityManager.cs:34-40 | Write k is what ApplyFix does on entry k; a null entry writes nothing. |
| `AccessibilityBroadcast.WritesOfIs` | Assets/Scripts/AccessibilityManager.cs:34-40 | A sequence agreeing entry by entry with the array's writes is those writes. |
| `AccessibilityBroadcast.MaterialAfterStep` | Assets/Scripts/AccessibilityManager.cs:34-40 | One more loop iteration adds exactly the effect of that entry's write. |
| `AccessibilityBroadcast.ExclusiveIsConsistent` | Assets/Scripts/AccessibilityManager.cs:34-40 | Posters that share no renderer never write two different materials to one renderer. |
| `AccessibilityBroadcast.MaterialAfterUntargeted` | Assets/Scripts/AccessibilityManager.cs:34-40 | A renderer no poster targets keeps its material. |
| `AccessibilityBroadcast.MaterialAfterTargeted` | Assets/Scripts/AccessibilityManager.cs:34-40 | With consistent writes, a targeted renderer ends with the targeting write's choice, or keeps its material when the choice is null. |
| `AccessibilityBroadcast.BroadcastReachesOwner` | Assets/Scripts/AccessibilityManager.cs:34-40 | When no renderer is shared, every poster's renderer ends with that poster's own ApplyFix choice. |
| `AccessibilityBroadcast.MaterialAfterOrderIndependent` | Assets/Scripts/AccessibilityManager.cs:13-40 | Consistent write sequences with the same members leave every renderer alike, whatever their order and repetitions. |
| `AccessibilityBroadcast.BroadcastOrderIndependent` | Assets/Scripts/AccessibilityManager.cs:13-40 | Two arrays holding the same posters, none sharing a renderer, leave every renderer with the same material, so the discovery order does not matter. |
| `AccessibilityBroadcast.SharedRendererOrderMatters` | Assets/Scripts/AccessibilityManager.cs:34-40 | Two posters with different choices on one renderer: the later array entry wins, so order does matter there. |
| `AccessibilityBroadcast.AccessibilityManager.constructor` | Assets/Scripts/AccessibilityManager.cs:5-8 | The inspector flag and toggle key; no posters before Start. |
| `AccessibilityBroadcast.AccessibilityManager.Start` | Assets/Scripts/AccessibilityManager.cs:10-18 | Keeps the discovered array and broadcasts the unchanged initial flag. Every bound renderer ends as the array's writes leave it. |
| `AccessibilityBroadcast.AccessibilityManager.Update` | Assets/Scripts/AccessibilityManager.cs:20-28 | The flag is negated exactly when the toggle key is down. Without the key no renderer changes. With it, the new flag is broadcast. |
| `AccessibilityBroadcast.AccessibilityManager.UpdatePosters` | Assets/Scripts/AccessibilityManager.cs:30-41 | Only the posters' renderers may change, and nothing changes before Start. Otherwise every renderer ends as the in-order writes of the non-null entries leave it. |
| `Scenarios.ReadyController` | Assets/Scripts/ColourBlindModeController.cs:41-63 | Start with an override found makes a Ready controller publishing the inspector mode with its table entry applied. |
| `Scenarios.ProtanFixScenario` | Assets/Scripts/AccessibilityPoster.cs:33-71 | Key 2 yields the (0.7, 1, 1) filter. A poster with a protan variant shows it with the fix on and its normal material with the fix off. |
| `Scenarios.FallbackScenario` | Assets/Scripts/AccessibilityPoster.cs:14-61 | Under Tritanopia a poster with no materials set defaults to its renderer's material and keeps showing it with the fix on. |
| `Scenarios.DisabledScenario` | Assets/Scripts/ColourBlindModeController.cs:41-103 | A Volume without an override leaves the controller Disabled. Key 3 then changes neither mode, and posters keep their normal material. |
| `Scenarios.AwakePoster` | Assets/Scripts/AccessibilityPoster.cs:14-30 | A poster without a normal material takes its renderer's. |
| `Scenarios.StartedScene` | Assets/Scripts/AccessibilityManager.cs:10-18 | Start skips a null entry and broadcasts the default flag (off), so the poster shows its normal material. |
| `Scenarios.PressToggle` | Assets/Scripts/AccessibilityManager.cs:20-28 | One press flips the flag and the poster shows its tritan variant or its normal material accordingly. |
| `Scenarios.BroadcastScenario` | Assets/Scripts/AccessibilityManager.cs:5-41 | Off at start, the fix variant after one press, the normal material and the original flag after two. |

## Left out

- `GetComponent<Volume>`, `volume.profile.TryGet` and `GetComponent<MeshRenderer>` are engine lookups. Their results are parameters: `Option<Volume>` holding an `Option<ColorAdjustments>`, and `component` for the renderer.
- `FindObjectsByType` is an engine query. Its result is the `found` parameter of `AccessibilityManager.Start`; no particular order is assumed.
- `Input.GetKeyDown` polling becomes the set of keys pressed in the frame.
- `Debug.Log` and `Debug.LogError` are logging only and are not modelled.
- Rendering semantics are not modelled: what a Color or Material does, and post-processing maths. Unity's `material` property makes an instance copy while `sharedMaterial` does not. Both are one slot holding an opaque material identity here.
- Colour values use exact `real` constants, not 32-bit floats. No arithmetic is done on them.
- The MonoBehaviour lifecycle (when Awake, Start and Update run) is not modelled. These are explicit method calls; the scenarios choose an order.
- Inspector authoring is modelled only as constructor arguments.
- AccessibilityBroadcast.AccessibilityManager.UpdatePosters, Start and Update state the final material of each renderer through `MaterialAfter`. The per-poster consequence, that each poster's renderer shows its own choice, is the lemma `BroadcastReachesOwner` and its exclusive-renderer hypothesis; when posters share a renderer the last one in the array wins.
