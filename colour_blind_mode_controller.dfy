/**
 * The scene-wide colour-vision-deficiency (CVD) mode controller.
 *
 * The controller keeps the selected mode, publishes it as `currentMode`
 * for the posters to read, and writes the four colour-grading parameters
 * of the selected mode into an optional colour-adjustment sink (the
 * post-processing ColorAdjustments override). With the sink bound the
 * controller is Ready; without it the controller is Disabled and every
 * operation leaves the whole state alone.
 */
module ColourBlindMode {
  import opened Wrappers
  import opened Input

  /** The supported modes, in the order of the C# enum (0 to 3). */
  datatype CvdMode = Normal | Protanopia | Deuteranopia | Tritanopia

  /** The numeric value of a mode in the C# enum. */
  function Ordinal(m: CvdMode): nat
  {
    match m
    case Normal => 0
    case Protanopia => 1
    case Deuteranopia => 2
    case Tritanopia => 3
  }

  lemma OrdinalInjective(a: CvdMode, b: CvdMode)
    ensures Ordinal(a) == Ordinal(b) ==> a == b
  {
  }

  /** An RGB colour, kept as three constant reals (no colour arithmetic). */
  datatype Color = Color(r: real, g: real, b: real)

  const White: Color := Color(1.0, 1.0, 1.0)

  predicate InUnitRange(c: Color)
  {
    0.0 <= c.r <= 1.0 && 0.0 <= c.g <= 1.0 && 0.0 <= c.b <= 1.0
  }

  /** The four parameters the controller writes into the sink. */
  datatype ColorGrade = ColorGrade(postExposure: real, contrast: real, saturation: real, colorFilter: Color)

  /** The neutral grading: no exposure, contrast or saturation change, white filter. */
  const Neutral: ColorGrade := ColorGrade(0.0, 0.0, 0.0, White)

  /**
   * The mode-to-parameter table of ApplyMode. Every entry leaves exposure
   * and contrast alone, only desaturates (within the sink's [-100, 100]
   * range), uses a filter inside the unit cube, and only Normal is neutral.
   */
  function Adjustments(m: CvdMode): (g: ColorGrade)
    ensures g.postExposure == 0.0 && g.contrast == 0.0
    ensures -100.0 <= g.saturation <= 0.0
    ensures InUnitRange(g.colorFilter)
    ensures g == Neutral <==> m == Normal
  {
    match m
    case Normal => Neutral
    case Protanopia => ColorGrade(0.0, 0.0, -40.0, Color(0.7, 1.0, 1.0))
    case Deuteranopia => ColorGrade(0.0, 0.0, -40.0, Color(1.0, 0.8, 1.0))
    case Tritanopia => ColorGrade(0.0, 0.0, -50.0, Color(1.0, 1.0, 0.7))
  }

  /** The tuned table entries, constant by constant. */
  lemma AdjustmentsTable()
    ensures Adjustments(Normal) == ColorGrade(0.0, 0.0, 0.0, Color(1.0, 1.0, 1.0))
    ensures Adjustments(Protanopia).saturation == -40.0 && Adjustments(Protanopia).colorFilter == Color(0.7, 1.0, 1.0)
    ensures Adjustments(Deuteranopia).saturation == -40.0 && Adjustments(Deuteranopia).colorFilter == Color(1.0, 0.8, 1.0)
    ensures Adjustments(Tritanopia).saturation == -50.0 && Adjustments(Tritanopia).colorFilter == Color(1.0, 1.0, 0.7)
  {
  }

  /** The digit key that selects each mode in Update. */
  function KeyFor(m: CvdMode): KeyCode
  {
    match m
    case Normal => Alpha1
    case Protanopia => Alpha2
    case Deuteranopia => Alpha3
    case Tritanopia => Alpha4
  }

  /**
   * The else-if chain of Update: the mode selected by the keys pressed in
   * one frame. Nothing is selected when no mode key is down; otherwise the
   * mode whose key comes first (lowest enum value) wins.
   */
  function KeyDispatch(pressed: set<KeyCode>): (r: Option<CvdMode>)
    ensures r.None? <==> forall m :: KeyFor(m) !in pressed
    ensures r.Some? ==> KeyFor(r.value) in pressed
    ensures r.Some? ==> forall m :: Ordinal(m) < Ordinal(r.value) ==> KeyFor(m) !in pressed
  {
    if Alpha1 in pressed then assert KeyFor(Normal) in pressed; Some(Normal)
    else if Alpha2 in pressed then assert KeyFor(Protanopia) in pressed; Some(Protanopia)
    else if Alpha3 in pressed then assert KeyFor(Deuteranopia) in pressed; Some(Deuteranopia)
    else if Alpha4 in pressed then assert KeyFor(Tritanopia) in pressed; Some(Tritanopia)
    else None
  }

  /** A mode whose key is down, with no lower mode's key down, is the one selected. */
  lemma {:induction false} KeyDispatchSelects(pressed: set<KeyCode>, m: CvdMode)
    requires KeyFor(m) in pressed
    requires forall m' :: Ordinal(m') < Ordinal(m) ==> KeyFor(m') !in pressed
    ensures KeyDispatch(pressed) == Some(m)
  {
    var r := KeyDispatch(pressed);
    assert Ordinal(r.value) == Ordinal(m);
    OrdinalInjective(r.value, m);
  }

  /** The colour-adjustment sink: four parameters the controller writes in place. */
  class ColorAdjustments {
    var postExposure: real
    var contrast: real
    var saturation: real
    var colorFilter: Color

    constructor(initial: ColorGrade)
      ensures Settings() == initial
    {
      postExposure := initial.postExposure;
      contrast := initial.contrast;
      saturation := initial.saturation;
      colorFilter := initial.colorFilter;
    }

    /** The four parameters as one value. */
    function Settings(): ColorGrade
      reads this
    {
      ColorGrade(postExposure, contrast, saturation, colorFilter)
    }
  }

  /** The Volume component found on the controller's object, with the override its profile holds, if any. */
  datatype Volume = Volume(colorAdjustments: Option<ColorAdjustments>)

  /** The abstract state of a controller: selected mode, published mode and the sink's settings. */
  datatype ControllerState = ControllerState(mode: CvdMode, currentMode: CvdMode, sink: Option<ColorGrade>)

  /** ApplyMode on the abstract state. */
  function ApplyModeStep(s: ControllerState): ControllerState
  {
    if s.sink.None? then s
    else ControllerState(s.mode, s.mode, Some(Adjustments(s.mode)))
  }

  /** Update on the abstract state, for the keys pressed in one frame. */
  function UpdateStep(s: ControllerState, pressed: set<KeyCode>): ControllerState
  {
    if s.sink.None? then s
    else
      match KeyDispatch(pressed)
      case None => s
      case Some(m) => ApplyModeStep(s.(mode := m))
  }

  /** With a sink, ApplyMode publishes the selected mode and writes its table entry. */
  lemma ApplyModeReady(s: ControllerState)
    requires s.sink.Some?
    ensures ApplyModeStep(s) == ControllerState(s.mode, s.mode, Some(Adjustments(s.mode)))
  {
  }

  /** Without a sink, ApplyMode and Update leave everything as it was. */
  lemma DisabledIsNoop(s: ControllerState, pressed: set<KeyCode>)
    requires s.sink.None?
    ensures ApplyModeStep(s) == s
    ensures UpdateStep(s, pressed) == s
  {
  }

  /** Applying the mode twice leaves the state of applying it once. */
  lemma ApplyModeIdempotent(s: ControllerState)
    ensures ApplyModeStep(ApplyModeStep(s)) == ApplyModeStep(s)
  {
  }

  /** Neither operation binds or unbinds the sink: Ready and Disabled are both kept. */
  lemma ReadinessPreserved(s: ControllerState, pressed: set<KeyCode>)
    ensures ApplyModeStep(s).sink.Some? == s.sink.Some?
    ensures UpdateStep(s, pressed).sink.Some? == s.sink.Some?
  {
  }

  /**
   * A Ready controller given a frame in which mode m's key is the first
   * mode key down selects, publishes and applies m.
   */
  lemma UpdateSelectsFirstKey(s: ControllerState, pressed: set<KeyCode>, m: CvdMode)
    requires s.sink.Some?
    requires KeyFor(m) in pressed
    requires forall m' :: Ordinal(m') < Ordinal(m) ==> KeyFor(m') !in pressed
    ensures UpdateStep(s, pressed) == ControllerState(m, m, Some(Adjustments(m)))
  {
    KeyDispatchSelects(pressed, m);
  }

  /** A frame without mode keys changes nothing. */
  lemma UpdateWithoutModeKey(s: ControllerState, pressed: set<KeyCode>)
    requires forall m :: KeyFor(m) !in pressed
    ensures UpdateStep(s, pressed) == s
  {
  }

  /** Handling the same frame twice leaves the state of handling it once. */
  lemma UpdateIdempotent(s: ControllerState, pressed: set<KeyCode>)
    ensures UpdateStep(UpdateStep(s, pressed), pressed) == UpdateStep(s, pressed)
  {
  }

  class ColourBlindModeController {
    /** The bound ColorAdjustments override; None when the controller is Disabled. */
    var colorAdjustments: Option<ColorAdjustments>
    /** The published mode that the posters read (a static property in the C# code). */
    var currentMode: CvdMode
    /** The mode selected in the inspector or by keyboard. */
    var mode: CvdMode

    constructor(mode: CvdMode)
      ensures this.mode == mode && currentMode == Normal && colorAdjustments == None
    {
      this.mode := mode;
      currentMode := Normal;
      colorAdjustments := None;
    }

    predicate Ready()
      reads this
    {
      colorAdjustments.Some?
    }

    /** The objects the controller writes besides itself: the sink, when bound. */
    function SinkFrame(): set<object>
      reads this
    {
      if colorAdjustments.Some? then {colorAdjustments.value} else {}
    }

    function State(): ControllerState
      reads this, SinkFrame()
    {
      ControllerState(mode, currentMode, if colorAdjustments.Some? then Some(colorAdjustments.value.Settings()) else None)
    }

    /**
     * Start: look up the Volume and its ColorAdjustments override. Without a
     * Volume nothing happens; with one, the lookup's result is bound (None
     * when the profile has no override, leaving the controller Disabled)
     * and, when found, the inspector mode is applied.
     */
    method Start(volume: Option<Volume>)
      modifies this`colorAdjustments, this`currentMode
      modifies if volume.Some? && volume.value.colorAdjustments.Some? then {volume.value.colorAdjustments.value} else {}
      ensures colorAdjustments == if volume.Some? then volume.value.colorAdjustments else old(colorAdjustments)
      ensures colorAdjustments.Some? && volume.Some? ==>
                currentMode == mode && colorAdjustments.value.Settings() == Adjustments(mode)
      ensures colorAdjustments.None? ==> currentMode == old(currentMode)
      ensures volume.None? ==> currentMode == old(currentMode)
    {
      if volume.None? {
        return;
      }
      colorAdjustments := volume.value.colorAdjustments;
      if colorAdjustments.None? {
        return;
      }
      ApplyMode();
    }

    /** Update: handle the mode keys pressed in one frame; nothing at all while Disabled. */
    method Update(pressed: set<KeyCode>)
      modifies this`mode, this`currentMode, SinkFrame()
      ensures State() == UpdateStep(old(State()), pressed)
    {
      if colorAdjustments.None? {
        return;
      }
      if Alpha1 in pressed {
        mode := Normal;
        ApplyMode();
      } else if Alpha2 in pressed {
        mode := Protanopia;
        ApplyMode();
      } else if Alpha3 in pressed {
        mode := Deuteranopia;
        ApplyMode();
      } else if Alpha4 in pressed {
        mode := Tritanopia;
        ApplyMode();
      }
    }

    /** ApplyMode: publish the selected mode and write its four parameters, unless Disabled. */
    method ApplyMode()
      modifies this`currentMode, SinkFrame()
      ensures State() == ApplyModeStep(old(State()))
    {
      if colorAdjustments.None? {
        return;
      }
      var sink := colorAdjustments.value;
      currentMode := mode;
      var g := Adjustments(mode);
      sink.postExposure := g.postExposure;
      sink.contrast := g.contrast;
      sink.saturation := g.saturation;
      sink.colorFilter := g.colorFilter;
    }
  }
}
