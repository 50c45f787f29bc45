/** Properties of `process_event` as a whole: what every event leaves alone,
    the early returns that skip the input-method tail, the focus protocol and
    the one way processing can panic. */
module DispatchProperties {
  import opened X11Types
  import opened WindowState
  import opened Dispatch
  import Keyboard
  import Valuators
  import ImeBridge

  /** The window whose registry entry an event looks up, if any. */
  function Target(ev: XEvent): Option<Window> {
    match ev
    case ConfigureNotify(c) => Some(c.window)
    case ReparentNotify(w) => Some(w)
    case MapNotify(w) => Some(w)
    case DestroyNotify(w) => Some(w)
    case VisibilityNotify(w, _) => Some(w)
    case XinputMotion(w, _, _, _, _, _) => Some(w)
    case XinputEnter(w, _, _) => Some(w)
    case XinputLeave(w, _) => Some(w)
    case XinputFocusIn(w, _, _) => Some(w)
    case XinputFocusOut(w) => Some(w)
    case XinputTouch(_, w, _, _, _) => Some(w)
    case _ => None
  }

  /** Everything before the call stays in place: the callback and the server
      only ever receive more. */
  lemma LogsOnlyGrow(s: ProcessorState, ev: XEvent, env: Env)
    ensures s.events <= Process(s, ev, env).0.events
    ensures s.sent <= Process(s, ev, env).0.sent
  {
    HandleOnlyAppends(s, ev, env);
  }

  lemma HandleOnlyAppends(s: ProcessorState, ev: XEvent, env: Env)
    ensures s.events <= Handle(s, ev, env).0.events
    ensures s.sent <= Handle(s, ev, env).0.sent
  {
    if IsCoreEvent(ev) {
      CoreArmsOnlyAppend(s, ev, env);
    } else {
      XinputArmsOnlyAppend(s, ev, env);
    }
  }

  lemma CoreArmsOnlyAppend(s: ProcessorState, ev: XEvent, env: Env)
    requires IsCoreEvent(ev)
    ensures s.events <= Handle(s, ev, env).0.events
    ensures s.sent <= Handle(s, ev, env).0.sent
  {
    match ev {
      case ClientMessage(_, _, _) =>
      case SelectionNotify(_, _) =>
      case ConfigureNotify(_) =>
      case ReparentNotify(_) =>
      case MapNotify(_) =>
      case DestroyNotify(_) =>
      case VisibilityNotify(_, _) =>
      case Expose(_, _) =>
      case KeyPressOrRelease(_, _) =>
      case XkbStateNotify(_) =>
      case Unhandled =>
    }
  }

  lemma XinputArmsOnlyAppend(s: ProcessorState, ev: XEvent, env: Env)
    requires !IsCoreEvent(ev)
    ensures s.events <= Handle(s, ev, env).0.events
    ensures s.sent <= Handle(s, ev, env).0.sent
  {
    match ev {
      case XinputButton(_, _, _, _, _) =>
      case XinputMotion(w, d, src, p, mask, values) =>
        var (reg, st) := Lookup(s.windows, w);
        if st.Some? {
          var (cache, moved) := MaybeChange(st.value.cursorPos, p);
          var s2 := Emit(s.(windows := Store(reg, w, st.value.(cursorPos := cache))),
                         if moved then [OnWindow(w, CursorMoved(d, p))] else []);
          assert Handle(s, ev, env) == SourceValuators(s2, w, d, src, mask, values);
          assert s.events <= s2.events;
        }
      case XinputEnter(_, _, _) =>
      case XinputLeave(_, _) =>
      case XinputFocusIn(_, _, _) =>
      case XinputFocusOut(_) =>
      case XinputTouch(_, _, _, _, _) =>
      case XinputRawButton(_, _, _, _) =>
      case XinputRawMotion(_, _, _) =>
      case XinputRawKey(_, _, _) =>
      case XinputHierarchy(_) =>
    }
  }

  /** `after` holds no window `before` lacked, and every window but `w` keeps its entry. */
  predicate OnlyAt(before: Registry, after: Registry, w: Window) {
    after.Keys <= before.Keys &&
    forall v :: v in before && v != w ==> v in after && after[v] == before[v]
  }

  lemma LookupOnlyAt(reg: Registry, w: Window)
    ensures OnlyAt(reg, Lookup(reg, w).0, w)
    ensures Lookup(reg, w).1.Some? ==> forall st :: OnlyAt(reg, Store(Lookup(reg, w).0, w, st), w)
  {
    LookupIsLocal(reg, w);
  }

  lemma OnlyAtTwice(a: Registry, b: Registry, c: Registry, w: Window)
    requires OnlyAt(a, b, w) && OnlyAt(b, c, w)
    ensures OnlyAt(a, c, w)
  {
  }

  /** The registry after the arm of `ev`, for an event that looks up `w`. */
  lemma HandleOnlyAt(s: ProcessorState, ev: XEvent, env: Env, w: Window)
    requires Target(ev) == Some(w)
    ensures OnlyAt(s.windows, Handle(s, ev, env).0.windows, w)
  {
    LookupOnlyAt(s.windows, w);
    var (reg, st) := Lookup(s.windows, w);
    match ev {
      case ConfigureNotify(c) =>
      case ReparentNotify(_) =>
      case MapNotify(_) =>
      case DestroyNotify(_) =>
      case VisibilityNotify(_, _) =>
      case XinputMotion(_, d, src, p, mask, values) =>
        if st.Some? {
          var (cache, moved) := MaybeChange(st.value.cursorPos, p);
          var s2 := Emit(s.(windows := Store(reg, w, st.value.(cursorPos := cache))),
                         if moved then [OnWindow(w, CursorMoved(d, p))] else []);
          assert Handle(s, ev, env) == SourceValuators(s2, w, d, src, mask, values);
        }
      case XinputEnter(_, _, _) =>
      case XinputLeave(_, _) =>
      case XinputFocusIn(_, _, _) =>
      case XinputFocusOut(_) =>
        if st.Some? && s.activeWindow == Some(w) {
          LookupOnlyAt(reg, w);
          var (reg2, st2) := Lookup(reg, w);
          var windows := if st2.Some? then Store(reg2, w, st2.value.(hasFocus := false)) else reg2;
          OnlyAtTwice(s.windows, reg, windows, w);
        }
      case XinputTouch(_, _, _, _, _) =>
    }
  }

  /** The registry never gains a window, and only the event's own window can
      change or disappear from it. */
  lemma RegistryChangesOnlyAtTarget(s: ProcessorState, ev: XEvent, env: Env)
    ensures Process(s, ev, env).0.windows.Keys <= s.windows.Keys
    ensures forall v :: v in s.windows && Some(v) != Target(ev) ==>
      v in Process(s, ev, env).0.windows && Process(s, ev, env).0.windows[v] == s.windows[v]
  {
    var r := Handle(s, ev, env).0;
    assert Process(s, ev, env).0.windows == r.windows;
    if Target(ev).Some? {
      HandleOnlyAt(s, ev, env, Target(ev).value);
    } else {
      assert r.windows == s.windows by {
        match ev {
          case ClientMessage(_, _, _) =>
          case SelectionNotify(_, _) =>
          case Expose(_, _) =>
          case KeyPressOrRelease(_, _) =>
          case XinputButton(_, _, _, _, _) =>
          case XinputRawButton(_, _, _, _) =>
          case XinputRawMotion(_, _, _) =>
          case XinputRawKey(_, _, _) =>
          case XinputHierarchy(_) =>
          case XkbStateNotify(_) =>
          case Unhandled =>
        }
      }
    }
  }

  /** A key event with no focused window is dropped by an early return: nothing
      changes and the input method is not consulted. */
  lemma KeyWithoutFocusIsDropped(s: ProcessorState, pressed: bool, keycode: u8, env: Env)
    requires s.activeWindow.None?
    ensures Process(s, KeyPressOrRelease(pressed, keycode), env) == (s, false)
  {
  }

  /** With a window focused, a key event reaches the callback exactly when the
      input method is not composing and the key is not 0; it is reported as a
      repeat exactly when it is the held repeatable key pressed again. */
  lemma KeyReachesCallbackUnlessComposing(s: ProcessorState, pressed: bool, keycode: u8, env: Env)
    requires s.activeWindow.Some?
    ensures var r := Process(s, KeyPressOrRelease(pressed, keycode), env).0;
      var repeat := keycode in s.repeatable && pressed && s.heldKeyPress == Some(keycode as Keycode);
      var delivered := keycode != 0 && !s.isComposing;
      |r.events| >= |s.events| &&
      (delivered ==> (|r.events| > |s.events| &&
        r.events[|s.events|] == OnWindow(s.activeWindow.value,
          KeyboardInput(VIRTUAL_CORE_KEYBOARD, KeyEvent(keycode as Keycode, StateOf(pressed), repeat), false)))) &&
      (!delivered ==> forall e <- r.events[|s.events|..] :: !(e.OnWindow? && e.windowEvent.KeyboardInput?))
    ensures Process(s, KeyPressOrRelease(pressed, keycode), env).0.heldKeyPress ==
      Keyboard.RepeatStep(s.heldKeyPress, keycode as Keycode in s.repeatable, pressed, keycode as Keycode).0
  {
    var w := s.activeWindow.value;
    var k := keycode as Keycode;
    Keyboard.OnlyHeldKeyRepeats(s.heldKeyPress, k in s.repeatable, pressed, k);
    Keyboard.KeyInputGate(w, k, StateOf(pressed), Keyboard.RepeatStep(s.heldKeyPress, k in s.repeatable, pressed, k).1, s.isComposing);
    var (s1, _) := Handle(s, KeyPressOrRelease(pressed, keycode), env);
    var tail := ImeBridge.Turn(s1.isComposing, env.ime).1;
    var r := Process(s, KeyPressOrRelease(pressed, keycode), env).0;
    assert r.events == s1.events + tail;
    assert forall e <- tail :: e.OnWindow? && e.windowEvent.Ime?;
  }

  /** A button event the server emulated from a touch is dropped by an early
      return; the touch itself is reported instead. */
  lemma EmulatedButtonIsDropped(s: ProcessorState, pressed: bool, window: Window, device: DeviceId, detail: u32, env: Env)
    ensures Process(s, XinputButton(pressed, window, device, detail, true), env) == (s, false)
  {
    assert s.events + [] == s.events;
  }

  /** A raw key event below the keycode offset is dropped by an early return. */
  lemma RawKeyBelowOffsetIsDropped(s: ProcessorState, pressed: bool, source: DeviceId, detail: u32, env: Env)
    requires detail < Keyboard.KEYCODE_OFFSET
    ensures Process(s, XinputRawKey(pressed, source, detail), env) == (s, false)
  {
  }

  /** Processing panics only on a valuator mask that names more valuators than
      the event carries values, and a raw motion event with such a mask always
      panics. */
  lemma PanicOnlyOnValuatorShortage(s: ProcessorState, ev: XEvent, env: Env)
    ensures Process(s, ev, env).1 ==>
      (ev.XinputMotion? || ev.XinputRawMotion?) && |Valuators.SetBits(ev.mask)| > |ev.values|
    ensures ev.XinputRawMotion? && |Valuators.SetBits(ev.mask)| > |ev.values| ==> Process(s, ev, env).1
  {
    match ev
    case XinputMotion(w, d, src, p, mask, values) =>
      Valuators.WalkPairsRanks(mask, values);
      var (reg, st) := Lookup(s.windows, w);
      if st.Some? {
        var (cache, moved) := MaybeChange(st.value.cursorPos, p);
        var s2 := Emit(s.(windows := Store(reg, w, st.value.(cursorPos := cache))),
                       if moved then [OnWindow(w, CursorMoved(d, p))] else []);
        assert Handle(s, ev, env) == SourceValuators(s2, w, d, src, mask, values);
      }
    case XinputRawMotion(d, mask, values) =>
      Valuators.WalkPairsRanks(mask, values);
    case _ =>
  }

  /** A focus gain makes its window the active one; a newly active live window
      is marked focused. The active window gaining focus again leaves
      everything to the input-method tail. */
  lemma FocusInActivates(s: ProcessorState, window: Window, device: DeviceId, position: Point, env: Env)
    ensures Process(s, XinputFocusIn(window, device, position), env).0.activeWindow == Some(window)
    ensures var r := Process(s, XinputFocusIn(window, device, position), env).0;
      s.activeWindow != Some(window) && window in s.windows && s.windows[window].Alive? ==>
        window in r.windows && r.windows[window].Alive? && r.windows[window].state.hasFocus
    ensures s.activeWindow == Some(window) ==>
      Process(s, XinputFocusIn(window, device, position), env) == (ImeTail(s, env.ime), false)
  {
    if s.activeWindow != Some(window) && window in s.windows && s.windows[window].Alive? {
      LookupOfLiveWindow(s.windows, window);
    }
  }

  /** A focus gain reports, in order: the focus, the modifiers when any are
      active, the cursor position, then one synthetic press per key found down. */
  lemma FocusInReportsInOrder(s: ProcessorState, window: Window, device: DeviceId, position: Point, pressedKeys: seq<u8>)
    ensures var evs := FocusInEvents(s, window, device, position, pressedKeys);
      var m := if s.mods != {} then 1 else 0;
      |evs| == 2 + m + |Keyboard.ValidKeycodes(pressedKeys)| &&
      evs[0] == OnWindow(window, Focused(true)) &&
      (s.mods != {} ==> evs[1] == OnWindow(window, ModifiersChanged(s.mods))) &&
      evs[1 + m].windowEvent.CursorMoved? && evs[1 + m].windowEvent.position == position &&
      forall i :: 0 <= i < |Keyboard.ValidKeycodes(pressedKeys)| ==>
        evs[2 + m + i] == Keyboard.SyntheticKey(window, Keyboard.ValidKeycodes(pressedKeys)[i], Pressed)
  {
    Keyboard.SyntheticKeysAreValidKeys(window, pressedKeys, Pressed);
  }

  /** The active window losing focus: synthetic releases of the keys found
      down, the modifiers cleared, the focus loss; afterwards no window is
      active, no key is held for repeat and a live window is marked unfocused. */
  lemma FocusOutOfActiveWindow(s: ProcessorState, window: Window, env: Env)
    requires s.activeWindow == Some(window)
    requires window in s.windows && s.windows[window].Alive?
    ensures var r := Process(s, XinputFocusOut(window), env).0;
      var n := |Keyboard.ValidKeycodes(env.pressedKeys)|;
      r.activeWindow.None? && r.heldKeyPress.None? &&
      window in r.windows && r.windows[window].Alive? && !r.windows[window].state.hasFocus &&
      |r.events| >= |s.events| + n + 2 &&
      (forall i :: 0 <= i < n ==>
        r.events[|s.events| + i] == Keyboard.SyntheticKey(window, Keyboard.ValidKeycodes(env.pressedKeys)[i], Released)) &&
      r.events[|s.events| + n] == OnWindow(window, ModifiersChanged({})) &&
      r.events[|s.events| + n + 1] == OnWindow(window, Focused(false))
  {
    LookupOfLiveWindow(s.windows, window);
    Keyboard.SyntheticKeysAreValidKeys(window, env.pressedKeys, Released);
    var (s1, _) := Handle(s, XinputFocusOut(window), env);
    assert s1.events == s.events + FocusOutEvents(window, env.pressedKeys);
  }

  /** Another window losing focus leaves no window active, and reports nothing. */
  lemma FocusOutOfInactiveWindow(s: ProcessorState, window: Window, env: Env)
    requires s.activeWindow != Some(window)
    requires window in s.windows && s.windows[window].Alive?
    ensures Process(s, XinputFocusOut(window), env) == (ImeTail(s.(activeWindow := None), env.ime), false)
  {
    LookupOfLiveWindow(s.windows, window);
  }

  /** A focus loss of a window that is gone only collects its registry entry,
      by an early return: the active window stays as it was. */
  lemma FocusOutOfDeadWindow(s: ProcessorState, window: Window, env: Env)
    requires !(window in s.windows && s.windows[window].Alive?)
    ensures Process(s, XinputFocusOut(window), env) == (s.(windows := s.windows - {window}), false)
  {
    if window !in s.windows {
      assert s.windows - {window} == s.windows;
    }
  }

  /** Only the last Expose of a series (count 0) asks for a redraw; an earlier
      one adds nothing before the input-method tail. */
  lemma ExposeRedrawsOnlyLast(s: ProcessorState, window: Window, count: u16, env: Env)
    ensures var r := Process(s, Expose(window, count), env).0;
      (|r.events| > |s.events| && r.events[|s.events|] == OnWindow(window, RedrawRequested)) <==> count == 0
    ensures count != 0 ==> Process(s, Expose(window, count), env) == (ImeTail(s, env.ime), false)
  {
    var r := Process(s, Expose(window, count), env).0;
    var tail := ImeBridge.Turn(s.isComposing, env.ime).1;
    assert forall e <- tail :: e.OnWindow? && e.windowEvent.Ime?;
    if count == 0 {
      assert r.events == s.events + [OnWindow(window, RedrawRequested)] + tail;
    } else {
      assert r.events == s.events + tail;
    }
  }

  /** A destroyed window leaves the registry, and the callback hears of it first. */
  lemma DestroyForgetsWindow(s: ProcessorState, window: Window, env: Env)
    ensures var r := Process(s, DestroyNotify(window), env).0;
      window !in r.windows && |r.events| > |s.events| && r.events[|s.events|] == OnWindow(window, Destroyed)
  {
    var s1 := OnDestroyNotify(s, window);
    assert s1.events == s.events + [OnWindow(window, Destroyed)];
  }
}
