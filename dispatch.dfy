/** The specification of `EventProcessor::process_event`: the processor's state
    as a value, the X events it handles, and what each arm of its `match`
    makes of them, followed by the input-method tail that runs after every arm
    that does not return early. The application callback is the `events` log
    and whatever goes to the X server or the input method is the `sent` log. */
module Dispatch {
  import opened X11Types
  import opened WindowState
  import Geometry
  import Xdnd
  import Keyboard
  import Buttons
  import TouchTracker
  import Valuators
  import Devices
  import Motion
  import ImeBridge

  /** The atoms interned for the connection. */
  datatype Atoms = Atoms(
    wmDeleteWindow: Atom,
    netWmPing: Atom,
    xdndEnter: Atom,
    xdndPosition: Atom,
    xdndDrop: Atom,
    xdndLeave: Atom,
    xdndSelection: Atom,
    textUriList: Atom)

  /** What the collaborators answer while one event is processed: the server's
      key map (`query_keymap`), the source's type list (`get_type_list`), the
      selection data as read and parsed, the geometry queries, the device
      descriptions, and the input method (absent when the process has none). */
  datatype Env = Env(
    atoms: Atoms,
    pressedKeys: seq<u8>,
    typeList: Option<seq<Atom>>,
    selection: Option<Xdnd.ParseResult>,
    geometry: Geometry.GeometryEnv,
    deviceQuery: Devices.DeviceQuery,
    ime: Option<ImeBridge.ImeTurn>)

  /** The phases an XInput2 touch event can carry (TouchBegin, TouchUpdate, TouchEnd). */
  type XTouchPhase = p: TouchPhase | !p.Cancelled? witness Started

  /** The X events the processor reacts to, with the fields it reads. Pointer
      positions are the raw FP1616 values; valuator masks are given as bytes. */
  datatype XEvent =
    | ClientMessage(window: Window, messageType: Atom, data: Xdnd.Data32)
    | SelectionNotify(requestor: Window, property: Atom)
    | ConfigureNotify(configure: Geometry.ConfigureEvent)
    | ReparentNotify(window: Window)
    | MapNotify(window: Window)
    | DestroyNotify(window: Window)
    | VisibilityNotify(window: Window, fullyObscured: bool)
    | Expose(window: Window, count: u16)
    | KeyPressOrRelease(pressed: bool, keycode: u8)
    | XinputButton(pressed: bool, window: Window, device: DeviceId, detail: u32, emulated: bool)
    | XinputMotion(window: Window, device: DeviceId, source: DeviceId, position: Point, mask: seq<u8>, values: seq<AxisValue>)
    | XinputEnter(window: Window, device: DeviceId, position: Point)
    | XinputLeave(window: Window, device: DeviceId)
    | XinputFocusIn(window: Window, device: DeviceId, position: Point)
    | XinputFocusOut(window: Window)
    | XinputTouch(phase: XTouchPhase, window: Window, device: DeviceId, detail: u32, position: Point)
    | XinputRawButton(pressed: bool, device: DeviceId, detail: u32, emulated: bool)
    | XinputRawMotion(device: DeviceId, mask: seq<u8>, values: seq<AxisValue>)
    | XinputRawKey(pressed: bool, source: DeviceId, detail: u32)
    | XinputHierarchy(infos: seq<Devices.HierarchyInfo>)
    | XkbStateNotify(mods: ModifiersState)
    | Unhandled

  /** The processor's fields, the window registry it reaches through the event
      loop target, and the two logs. `repeatable` and `mods` stand for the
      keyboard state: which keys repeat and the effective modifiers. */
  datatype ProcessorState = ProcessorState(
    dnd: Xdnd.Session,
    devices: Devices.DeviceMap,
    windows: Registry,
    repeatable: set<Keycode>,
    mods: ModifiersState,
    touch: TouchTracker.Tracker,
    heldKeyPress: Option<Keycode>,
    activeWindow: Option<Window>,
    isComposing: bool,
    events: seq<Event>,
    sent: seq<Request>)

  /** How an arm ends: on to the input-method tail, by an early `return`, or by
      the panic of an `unwrap`. */
  datatype Flow = Continue | Return | Panic

  function StateOf(pressed: bool): ElementState {
    if pressed then Pressed else Released
  }

  function Emit(s: ProcessorState, events: seq<Event>): ProcessorState {
    s.(events := s.events + events)
  }

  function ApplyDnd(s: ProcessorState, o: Xdnd.Outcome): ProcessorState {
    s.(dnd := o.session, events := s.events + o.events, sent := s.sent + o.sent)
  }

  function OnClientMessage(s: ProcessorState, window: Window, messageType: Atom, data: Xdnd.Data32, env: Env): ProcessorState {
    var a := env.atoms;
    if data[0] == a.wmDeleteWindow then Emit(s, [OnWindow(window, CloseRequested)])
    // the ping goes back to the root window unchanged
    else if data[0] == a.netWmPing then s.(sent := s.sent + [PingReply(window, data)])
    else if messageType == a.xdndEnter then s.(dnd := Xdnd.Enter(s.dnd, data, env.typeList))
    else if messageType == a.xdndPosition then ApplyDnd(s, Xdnd.Position(s.dnd, window, data, a.textUriList))
    else if messageType == a.xdndDrop then ApplyDnd(s, Xdnd.Drop(s.dnd, window, data))
    else if messageType == a.xdndLeave then ApplyDnd(s, Xdnd.Leave(s.dnd, window))
    else s
  }

  function OnSelectionNotify(s: ProcessorState, requestor: Window, property: Atom, env: Env): ProcessorState {
    if property == env.atoms.xdndSelection then ApplyDnd(s, Xdnd.Selection(s.dnd, requestor, env.selection)) else s
  }

  function OnConfigureNotify(s: ProcessorState, ev: Geometry.ConfigureEvent, env: Env): ProcessorState {
    var (reg, st) := Lookup(s.windows, ev.window);
    if st.None? then s.(windows := reg)
    else
      var o := Geometry.Configure(st.value, ev, env.geometry);
      s.(windows := Store(reg, ev.window, o.state), events := s.events + o.events, sent := s.sent + o.sent)
  }

  /** The cached frame extents are dropped (`invalidate_cached_frame_extents`). */
  function OnReparentNotify(s: ProcessorState, window: Window): ProcessorState {
    var (reg, st) := Lookup(s.windows, window);
    s.(windows := if st.Some? then Store(reg, window, st.value.(frameExtents := None)) else reg)
  }

  /** The focus state is re-issued; a window that is gone counts as unfocused. */
  function OnMapNotify(s: ProcessorState, window: Window): ProcessorState {
    var (reg, st) := Lookup(s.windows, window);
    Emit(s.(windows := reg), [OnWindow(window, Focused(st.Some? && st.value.hasFocus))])
  }

  function OnDestroyNotify(s: ProcessorState, window: Window): ProcessorState {
    Emit(s.(windows := s.windows - {window}), [OnWindow(window, Destroyed)])
  }

  function OnVisibilityNotify(s: ProcessorState, window: Window, fullyObscured: bool): ProcessorState {
    var (reg, _) := Lookup(s.windows, window);
    Emit(s.(windows := reg), [OnWindow(window, Occluded(fullyObscured))])
  }

  /** Only the last Expose of a series (count 0) asks for a redraw. */
  function OnExpose(s: ProcessorState, window: Window, count: u16): ProcessorState {
    if count == 0 then Emit(s, [OnWindow(window, RedrawRequested)]) else s
  }

  function OnKey(s: ProcessorState, pressed: bool, detail: u8): (ProcessorState, Flow) {
    if s.activeWindow.None? then (s, Return)
    else
      var window := s.activeWindow.value;
      var (held, repeat) := Keyboard.RepeatStep(s.heldKeyPress, detail in s.repeatable, pressed, detail);
      (Emit(s.(heldKeyPress := held), Keyboard.KeyInput(window, detail, StateOf(pressed), repeat, s.isComposing)), Continue)
  }

  function OnButton(s: ProcessorState, pressed: bool, window: Window, device: DeviceId, detail: u32, emulated: bool): (ProcessorState, Flow) {
    (Emit(s, Buttons.ButtonEvents(window, device, StateOf(pressed), detail, emulated)), if emulated then Return else Continue)
  }

  /** The valuators of the source device: their events are buffered and
      delivered only once the whole mask is walked. */
  function SourceValuators(s: ProcessorState, window: Window, device: DeviceId, source: DeviceId,
                           mask: seq<u8>, values: seq<AxisValue>): (ProcessorState, Flow)
  {
    if source !in s.devices then (s, Return)
    else
      var w := Valuators.WalkOf(mask, values);
      var (dev, buffered) := Motion.MotionAxes(s.devices[source], window, device, w.axes);
      var s1 := s.(devices := s.devices[source := dev]);
      if w.complete then (Emit(s1, buffered), Continue) else (s1, Panic)
  }

  /** The cursor cache of the window first, then the source's valuators. */
  function OnMotion(s: ProcessorState, window: Window, device: DeviceId, source: DeviceId, position: Point,
                    mask: seq<u8>, values: seq<AxisValue>): (ProcessorState, Flow)
  {
    var (reg, st) := Lookup(s.windows, window);
    if st.None? then (s.(windows := reg), Return)
    else
      var (cache, moved) := MaybeChange(st.value.cursorPos, position);
      var s1 := Emit(s.(windows := Store(reg, window, st.value.(cursorPos := cache))),
                     if moved then [OnWindow(window, CursorMoved(device, position))] else []);
      SourceValuators(s1, window, device, source, mask, values)
  }

  function OnEnter(s: ProcessorState, window: Window, device: DeviceId, position: Point): ProcessorState {
    var (reg, st) := Lookup(s.windows, window);
    Emit(s.(windows := reg),
         if st.Some? then [OnWindow(window, CursorEntered(device)), OnWindow(window, CursorMoved(device, position))] else [])
  }

  function OnLeave(s: ProcessorState, window: Window, device: DeviceId): ProcessorState {
    var (reg, st) := Lookup(s.windows, window);
    Emit(s.(windows := reg), if st.Some? then [OnWindow(window, CursorLeft(device))] else [])
  }

  /** The events of a focus gain, in order. The cursor event names the master
      pointer the focused keyboard is attached to, or the core pointer. */
  function FocusInEvents(s: ProcessorState, window: Window, device: DeviceId, position: Point, pressedKeys: seq<u8>): seq<Event> {
    var pointer := if device in s.devices then s.devices[device].attachment else VIRTUAL_CORE_POINTER;
    [OnWindow(window, Focused(true))] +
    (if s.mods != {} then [OnWindow(window, ModifiersChanged(s.mods))] else []) +
    [OnWindow(window, CursorMoved(pointer, position))] +
    Keyboard.SyntheticKeys(window, pressedKeys, Pressed)
  }

  function OnFocusIn(s: ProcessorState, window: Window, device: DeviceId, position: Point, env: Env): ProcessorState {
    if s.activeWindow == Some(window) then s
    else
      var (reg, st) := Lookup(s.windows, window);
      var windows := if st.Some? then Store(reg, window, st.value.(hasFocus := true)) else reg;
      Emit(s.(activeWindow := Some(window), windows := windows), FocusInEvents(s, window, device, position, env.pressedKeys))
  }

  /** The events of a focus loss, in order. */
  function FocusOutEvents(window: Window, pressedKeys: seq<u8>): seq<Event> {
    Keyboard.SyntheticKeys(window, pressedKeys, Released) +
    [OnWindow(window, ModifiersChanged({})), OnWindow(window, Focused(false))]
  }

  /** A focus loss of a live window always clears the active window (`take`),
      but only the active window's loss is reported. */
  function OnFocusOut(s: ProcessorState, window: Window, env: Env): (ProcessorState, Flow) {
    var (reg, st) := Lookup(s.windows, window);
    if st.None? then (s.(windows := reg), Return)
    else if s.activeWindow != Some(window) then (s.(windows := reg, activeWindow := None), Continue)
    else
      var (reg2, st2) := Lookup(reg, window);
      var windows := if st2.Some? then Store(reg2, window, st2.value.(hasFocus := false)) else reg2;
      (Emit(s.(windows := windows, activeWindow := None, heldKeyPress := None), FocusOutEvents(window, env.pressedKeys)), Continue)
  }

  function OnTouch(s: ProcessorState, phase: XTouchPhase, window: Window, device: DeviceId, detail: u32, position: Point): ProcessorState {
    var (reg, st) := Lookup(s.windows, window);
    if st.None? then s.(windows := reg)
    else
      var (t, first) := TouchTracker.Step(s.touch, detail, phase);
      Emit(s.(windows := reg, touch := t),
           (if first then [OnWindow(window, CursorMoved(VIRTUAL_CORE_POINTER, position))] else []) +
           [OnWindow(window, Touch(device, phase, position, detail))])
  }

  /** Raw buttons are reported only for emulated pointer events. */
  function OnRawButton(s: ProcessorState, pressed: bool, device: DeviceId, detail: u32, emulated: bool): ProcessorState {
    if emulated then Emit(s, [OnDevice(device, Button(detail, StateOf(pressed)))]) else s
  }

  function OnRawMotion(s: ProcessorState, device: DeviceId, mask: seq<u8>, values: seq<AxisValue>): (ProcessorState, Flow) {
    var w := Valuators.WalkOf(mask, values);
    (Emit(s, Motion.RawMotionEvents(device, w)), if w.complete then Continue else Panic)
  }

  function OnRawKey(s: ProcessorState, pressed: bool, source: DeviceId, detail: u32): (ProcessorState, Flow) {
    if detail < Keyboard.KEYCODE_OFFSET then (s, Return)
    else (Emit(s, [OnDevice(source, Key(detail, StateOf(pressed)))]), Continue)
  }

  function OnHierarchy(s: ProcessorState, infos: seq<Devices.HierarchyInfo>, env: Env): ProcessorState {
    var (devices, events) := Devices.Hierarchy(s.devices, env.deviceQuery, infos);
    Emit(s.(devices := devices), events)
  }

  function OnXkbStateNotify(s: ProcessorState, mods: ModifiersState): ProcessorState {
    Emit(s.(mods := mods), Keyboard.ModifiersNotification(s.mods, mods, s.activeWindow))
  }

  /** The events of the core protocol and of XKB, as opposed to those of the
      XInput2 extension. */
  predicate IsCoreEvent(ev: XEvent) {
    ev.ClientMessage? || ev.SelectionNotify? || ev.ConfigureNotify? || ev.ReparentNotify? ||
    ev.MapNotify? || ev.DestroyNotify? || ev.VisibilityNotify? || ev.Expose? ||
    ev.KeyPressOrRelease? || ev.XkbStateNotify? || ev.Unhandled?
  }

  /** The `match` of `process_event`. */
  function Handle(s: ProcessorState, ev: XEvent, env: Env): (ProcessorState, Flow) {
    match ev
    case ClientMessage(window, messageType, data) => (OnClientMessage(s, window, messageType, data, env), Continue)
    case SelectionNotify(requestor, property) => (OnSelectionNotify(s, requestor, property, env), Continue)
    case ConfigureNotify(configure) => (OnConfigureNotify(s, configure, env), Continue)
    case ReparentNotify(window) => (OnReparentNotify(s, window), Continue)
    case MapNotify(window) => (OnMapNotify(s, window), Continue)
    case DestroyNotify(window) => (OnDestroyNotify(s, window), Continue)
    case VisibilityNotify(window, fullyObscured) => (OnVisibilityNotify(s, window, fullyObscured), Continue)
    case Expose(window, count) => (OnExpose(s, window, count), Continue)
    case KeyPressOrRelease(pressed, detail) => OnKey(s, pressed, detail)
    case XinputButton(pressed, window, device, detail, emulated) => OnButton(s, pressed, window, device, detail, emulated)
    case XinputMotion(window, device, source, position, mask, values) => OnMotion(s, window, device, source, position, mask, values)
    case XinputEnter(window, device, position) => (OnEnter(s, window, device, position), Continue)
    case XinputLeave(window, device) => (OnLeave(s, window, device), Continue)
    case XinputFocusIn(window, device, position) => (OnFocusIn(s, window, device, position, env), Continue)
    case XinputFocusOut(window) => OnFocusOut(s, window, env)
    case XinputTouch(phase, window, device, detail, position) => (OnTouch(s, phase, window, device, detail, position), Continue)
    case XinputRawButton(pressed, device, detail, emulated) => (OnRawButton(s, pressed, device, detail, emulated), Continue)
    case XinputRawMotion(device, mask, values) => OnRawMotion(s, device, mask, values)
    case XinputRawKey(pressed, source, detail) => OnRawKey(s, pressed, source, detail)
    case XinputHierarchy(infos) => (OnHierarchy(s, infos, env), Continue)
    case XkbStateNotify(mods) => (OnXkbStateNotify(s, mods), Continue)
    case Unhandled => (s, Continue)
  }

  /** The input-method tail. */
  function ImeTail(s: ProcessorState, ime: Option<ImeBridge.ImeTurn>): ProcessorState {
    var (composing, events, sent) := ImeBridge.Turn(s.isComposing, ime);
    s.(isComposing := composing, events := s.events + events, sent := s.sent + sent)
  }

  /** The state after one event, and whether processing it panicked. */
  function Process(s: ProcessorState, ev: XEvent, env: Env): (ProcessorState, bool) {
    var (s1, flow) := Handle(s, ev, env);
    if flow == Continue then (ImeTail(s1, env.ime), false) else (s1, flow == Panic)
  }
}
