/** The state chooser of a recipe cause or effect (RecipeCauseChooseStateScreen.js).
    The screen edits, in place, the cause or effect object handed to it by the recipe
    editor, then pops itself (and the pages it opened) off the navigation stack and
    reports the object back. Navigation and the editor's callbacks are recorded as
    events, in call order. */
module ChooseState {
  import opened Js

  const EffectsType: string := "effects"
  const CausesType: string := "causes"
  const DeviceKind: string := "device"
  const IpCamera: string := "IP Camera"
  const Engineer: string := "Engineer"

  /** An effect's output mode object `{value, duration}`. */
  class OutputMode {
    var value: int
    var duration: int

    constructor (value: int, duration: int)
      ensures this.value == value && this.duration == duration
    {
      this.value := value;
      this.duration := duration;
    }
  }

  /** The cause or effect being edited (`object_to_change`). */
  class RecipeObject {
    const kind: string
    const name: string
    const states: seq<string>
    var state: int
    var pulseTimer: int
    /** `mode`; `None` is `undefined`. */
    const mode: Option<OutputMode>

    constructor (kind: string, name: string, states: seq<string>, state: int,
                 pulseTimer: int, mode: Option<OutputMode>)
      ensures this.kind == kind && this.name == name && this.states == states
      ensures this.state == state && this.pulseTimer == pulseTimer && this.mode == mode
    {
      this.kind := kind;
      this.name := name;
      this.states := states;
      this.state := state;
      this.pulseTimer := pulseTimer;
      this.mode := mode;
    }
  }

  datatype Event =
    | Pop(screens: int)
    | OpenOutputModePage(toggle: int)
    | OpenPulseTimerPage(toggle: int)
    | Selected(kind: string, index: int, obj: RecipeObject)
    | Removed(kind: string, index: int)

  /** The switch is "on" exactly for toggle state 0. */
  predicate SwitchOn(toggle: int)
  {
    toggle == 0
  }

  /** The toggle state that a switch flipped to `on` stores. */
  function ToggleFor(on: bool): (t: int)
    ensures t == 0 || t == 1
    ensures SwitchOn(t) == on
  {
    if on then 0 else 1
  }

  /** On a two-state object the switch and the stored toggle state determine each other. */
  lemma SwitchRoundTrip(t: int, on: bool)
    requires t == 0 || t == 1
    ensures ToggleFor(SwitchOn(t)) == t
    ensures SwitchOn(ToggleFor(on)) == on
  {
  }

  /** Where "Set State" leads. */
  datatype SubmitRoute = ToOutputMode | ToPulseTimer | SaveNow

  function Route(kind: string, obj: RecipeObject, userType: string): SubmitRoute
  {
    if kind == EffectsType && obj.kind == DeviceKind && obj.name != IpCamera then ToOutputMode
    else if kind == CausesType && userType == Engineer then ToPulseTimer
    else SaveNow
  }

  /** Only device effects other than the IP camera get an output mode; only an
      engineer editing a cause gets the pulse timer; everything else is saved at once. */
  lemma RouteCases(kind: string, obj: RecipeObject, userType: string)
    ensures Route(kind, obj, userType) == ToOutputMode <==>
      kind == EffectsType && obj.kind == DeviceKind && obj.name != IpCamera
    ensures Route(kind, obj, userType) == ToPulseTimer <==> kind == CausesType && userType == Engineer
    ensures kind == CausesType ==> Route(kind, obj, userType) != ToOutputMode
  {
  }

  class ChooseStateScreen {
    /** `params.type`. */
    const kind: string
    /** `params.index`. */
    const index: int
    /** `params.object_to_change`. */
    const target: RecipeObject
    /** `params.called_from_tabnav`. */
    const calledFromTabnav: bool
    /** `params.onRemove !== null`. */
    const hasOnRemove: bool
    /** `currentUser.access.panel_user_type`. */
    const userType: string
    /** `isOnState` of the output-mode table; that table is not part of this model. */
    const isOnState: int -> bool
    var toggleState: int
    var events: seq<Event>

    constructor (kind: string, index: int, target: RecipeObject, calledFromTabnav: bool,
                 hasOnRemove: bool, userType: string, isOnState: int -> bool)
      ensures this.kind == kind && this.index == index && this.target == target
      ensures this.calledFromTabnav == calledFromTabnav && this.hasOnRemove == hasOnRemove
      ensures this.userType == userType && this.isOnState == isOnState
      ensures toggleState == 0 && events == []
    {
      this.kind := kind;
      this.index := index;
      this.target := target;
      this.calledFromTabnav := calledFromTabnav;
      this.hasOnRemove := hasOnRemove;
      this.userType := userType;
      this.isOnState := isOnState;
      toggleState := 0;
      events := [];
    }

    /** Whether the "Remove" button is offered. */
    predicate ShowRemove()
    {
      hasOnRemove
    }

    /** `componentWillMount`: a two-state object starts from its output mode (an effect
        with a mode: on for an "on" mode) or from its stored state. */
    method WillMount()
      modifies this`toggleState
      ensures |target.states| != 2 ==> toggleState == old(toggleState)
      ensures |target.states| == 2 && kind == EffectsType && target.mode.Some? ==>
        (toggleState == 0 || toggleState == 1) &&
        (SwitchOn(toggleState) <==> isOnState(target.mode.value.value))
      ensures |target.states| == 2 && !(kind == EffectsType && target.mode.Some?) ==>
        toggleState == target.state
    {
      if |target.states| == 2 {
        if kind == EffectsType && target.mode.Some? {
          toggleState := if isOnState(target.mode.value.value) then 0 else 1;
        } else {
          toggleState := target.state;
        }
      }
    }

    /** The switch's `onValueChange`. */
    method OnSwitchChange(on: bool)
      modifies this`toggleState
      ensures toggleState == ToggleFor(on) && SwitchOn(toggleState) == on
    {
      toggleState := if on then 0 else 1;
    }

    /** `goBack`: a screen opened from the tab navigator has one more screen to pop. */
    method GoBack(n: int)
      modifies this`events
      ensures events == old(events) + [Pop(if calledFromTabnav then n + 1 else n)]
    {
      if calledFromTabnav {
        events := events + [Pop(1 + n)];
      } else {
        events := events + [Pop(n)];
      }
    }

    /** `saveAndReturn`: pop, then report the (edited) object to the recipe editor. */
    method SaveAndReturn(n: int)
      modifies this`events
      ensures events == old(events) +
        [Pop(if calledFromTabnav then n + 1 else n), Selected(kind, index, target)]
    {
      GoBack(n);
      events := events + [Selected(kind, index, target)];
    }

    /** `onSubmit` ("Set State"). */
    method OnSubmit()
      modifies this`events, target
      ensures Route(kind, target, userType) == ToOutputMode ==>
        events == old(events) + [OpenOutputModePage(toggleState)] && unchanged(target)
      ensures Route(kind, target, userType) == ToPulseTimer ==>
        events == old(events) + [OpenPulseTimerPage(toggleState)] && unchanged(target)
      ensures Route(kind, target, userType) == SaveNow ==>
        target.state == toggleState &&
        target.pulseTimer == (if kind == CausesType then 0 else old(target.pulseTimer)) &&
        events == old(events) + [Pop(if calledFromTabnav then 2 else 1), Selected(kind, index, target)]
    {
      if kind == EffectsType && target.kind == DeviceKind && target.name != IpCamera {
        events := events + [OpenOutputModePage(toggleState)];
      } else if kind == CausesType {
        if userType == Engineer {
          events := events + [OpenPulseTimerPage(toggleState)];
        } else {
          target.pulseTimer := 0;
          target.state := toggleState;
          SaveAndReturn(1);
        }
      } else {
        target.state := toggleState;
        SaveAndReturn(1);
      }
    }

    /** The pulse-timer page's answer: store it and the toggle state, then return past
        both pages. */
    method OnChangeCausePulseTimer(pulseTimer: int)
      modifies this`events, target
      ensures target.pulseTimer == pulseTimer && target.state == toggleState
      ensures events == old(events) + [Pop(if calledFromTabnav then 3 else 2), Selected(kind, index, target)]
    {
      target.pulseTimer := pulseTimer;
      target.state := toggleState;
      SaveAndReturn(2);
    }

    /** The output-mode page's answer: store it in the effect's mode object, then return
        past both pages. */
    method OnChangeEffectOutputMode(modeValue: int, duration: int)
      requires target.mode.Some?
      modifies this`events, target.mode.value
      ensures target.mode.value.value == modeValue && target.mode.value.duration == duration
      ensures events == old(events) + [Pop(if calledFromTabnav then 3 else 2), Selected(kind, index, target)]
    {
      var m := target.mode.value;
      m.value := modeValue;
      m.duration := duration;
      SaveAndReturn(2);
    }

    /** `onRemove` ("Remove", only offered when the editor passed a remove callback). */
    method OnRemove()
      requires ShowRemove()
      modifies this`events
      ensures events == old(events) + [Pop(if calledFromTabnav then 2 else 1), Removed(kind, index)]
    {
      GoBack(1);
      events := events + [Removed(kind, index)];
    }
  }
}
