/** `EventProcessor` of the X11 backend: the struct's fields as the fields of a
    class, and `process_event` with its helpers as methods that update them in
    place. Every method is proved against the matching function of `Dispatch`. */
module X11EventProcessor {
  import opened X11Types
  import opened WindowState
  import Geometry
  import Xdnd
  import Keyboard
  import Buttons
  import TouchTracker
  import Valuators
  import Devices
  import Motion
  import ImeBridge
  import opened Dispatch

  class EventProcessor {
    var dnd: Xdnd.Session
    var devices: Devices.DeviceMap
    /** The event loop target's registry of windows (`wt.windows`). */
    var windows: Registry
    /** The keyboard state: which keys repeat and the effective modifiers. */
    var repeatable: set<Keycode>
    var mods: ModifiersState
    /** Number of touch contacts currently in progress. */
    var numTouch: nat
    var firstTouch: Option<TouchId>
    /** The last pressed repeatable key, while it is not released. */
    var heldKeyPress: Option<Keycode>
    /** The focused window of this process. */
    var activeWindow: Option<Window>
    var isComposing: bool
    /** Every event handed to the application callback, in order. */
    var events: seq<Event>
    /** Every request sent to the X server or the input method, in order. */
    var sent: seq<Request>

    ghost function State(): ProcessorState
      reads this
    {
      ProcessorState(dnd, devices, windows, repeatable, mods, TouchTracker.Tracker(firstTouch, numTouch),
                     heldKeyPress, activeWindow, isComposing, events, sent)
    }

    constructor(windows: Registry, devices: Devices.DeviceMap, repeatable: set<Keycode>)
      ensures State() == ProcessorState(Xdnd.Idle, devices, windows, repeatable, {}, TouchTracker.Idle,
                                        None, None, false, [], [])
    {
      this.dnd := Xdnd.Idle;
      this.devices := devices;
      this.windows := windows;
      this.repeatable := repeatable;
      this.mods := {};
      this.numTouch := 0;
      this.firstTouch := None;
      this.heldKeyPress := None;
      this.activeWindow := None;
      this.isComposing := false;
      this.events := [];
      this.sent := [];
    }

    /** One call of the application callback. */
    method Deliver(e: Event)
      modifies this
      ensures State() == Emit(old(State()), [e])
    {
      events := events + [e];
    }

    method Send(r: Request)
      modifies this
      ensures State() == old(State()).(sent := old(sent) + [r])
    {
      sent := sent + [r];
    }

    /** `with_window`: the shared state of a live window; an entry whose window
        is gone is removed on the way. */
    method WithWindow(w: Window) returns (st: Option<SharedState>)
      modifies this
      ensures st == Lookup(old(windows), w).1
      ensures State() == old(State()).(windows := Lookup(old(windows), w).0)
    {
      st := None;
      var deleted := false;
      if w in windows {
        match windows[w]
        case Alive(state) => st := Some(state);
        case Gone => deleted := true;
      }
      if deleted {
        windows := windows - {w};
      }
    }

    method WindowExists(w: Window) returns (b: bool)
      modifies this
      ensures b == Lookup(old(windows), w).1.Some?
      ensures State() == old(State()).(windows := Lookup(old(windows), w).0)
    {
      var st := WithWindow(w);
      b := st.Some?;
    }

    /** `is_first_touch`. */
    method IsFirstTouch(id: TouchId, phase: TouchPhase) returns (first: bool)
      modifies this
      ensures first == TouchTracker.Step(old(State()).touch, id, phase).1
      ensures State() == old(State()).(touch := TouchTracker.Step(old(State()).touch, id, phase).0)
    {
      match phase {
        case Started =>
          if numTouch == 0 {
            firstTouch := Some(id);
          }
          numTouch := numTouch + 1;
        case Ended | Cancelled =>
          if firstTouch == Some(id) {
            firstTouch := None;
          }
          numTouch := if numTouch == 0 then 0 else numTouch - 1;
        case Moved =>
      }
      first := firstTouch == Some(id);
    }

    /** `handle_pressed_keys`: one synthetic key event per key the server
        reports down, skipping keycodes below the protocol's range. */
    method HandlePressedKeys(window: Window, state: ElementState, keys: seq<u8>)
      modifies this
      ensures State() == Emit(old(State()), Keyboard.SyntheticKeys(window, keys, state))
    {
      var i := 0;
      while i < |keys|
        invariant 0 <= i <= |keys|
        invariant State() == Emit(old(State()), Keyboard.SyntheticKeys(window, keys[..i], state))
      {
        if keys[i] >= Keyboard.KEYCODE_OFFSET {
          Deliver(Keyboard.SyntheticKey(window, keys[i], state));
        }
        assert keys[..i + 1][..i] == keys[..i];
        i := i + 1;
      }
      assert keys[..|keys|] == keys;
    }

    method XdndEnter(data: Xdnd.Data32, moreTypes: Option<seq<Atom>>)
      modifies this
      ensures State() == old(State()).(dnd := Xdnd.Enter(old(dnd), data, moreTypes))
    {
      var flags := data[1];
      dnd := dnd.(version := Some(flags / 0x100_0000));
      if !Xdnd.HasMoreTypes(flags) {
        dnd := dnd.(typeList := Some([data[2], data[3], data[4]]));
      } else if moreTypes.Some? {
        dnd := dnd.(typeList := moreTypes);
      }
    }

    method XdndPosition(window: Window, data: Xdnd.Data32, textUriList: Atom)
      modifies this
      ensures State() == ApplyDnd(old(State()), Xdnd.Position(old(dnd), window, data, textUriList))
    {
      var source := data[0];
      var version := dnd.version.GetOr(5);
      var accepted := dnd.typeList.Some? && textUriList in dnd.typeList.value;
      if accepted {
        dnd := dnd.(sourceWindow := Some(source));
        if dnd.result.None? {
          var time := if version >= 1 then data[3] else Xdnd.CURRENT_TIME;
          Send(ConvertSelection(window, time));
        }
        Send(XdndStatus(window, source, Accepted));
      } else {
        Send(XdndStatus(window, source, Rejected));
        dnd := Xdnd.Idle;
      }
    }

    method XdndDrop(window: Window, data: Xdnd.Data32)
      modifies this
      ensures State() == ApplyDnd(old(State()), Xdnd.Drop(old(dnd), window, data))
    {
      var source, state;
      if dnd.sourceWindow.Some? {
        if dnd.result.Some? && dnd.result.value.Ok? {
          var paths := dnd.result.value.value;
          var i := 0;
          while i < |paths|
            invariant 0 <= i <= |paths|
            invariant State() == Emit(old(State()), Xdnd.DroppedFiles(window, paths[..i]))
          {
            Deliver(OnWindow(window, DroppedFile(paths[i])));
            assert Xdnd.DroppedFiles(window, paths[..i + 1]) ==
                   Xdnd.DroppedFiles(window, paths[..i]) + [OnWindow(window, DroppedFile(paths[i]))];
            i := i + 1;
          }
          assert paths[..|paths|] == paths;
        }
        source, state := dnd.sourceWindow.value, Accepted;
      } else {
        // a drop already rejected at XdndPosition: the message names the source
        source, state := data[0], Rejected;
      }
      Send(XdndFinished(window, source, state));
      dnd := Xdnd.Idle;
    }

    method XdndLeave(window: Window)
      modifies this
      ensures State() == ApplyDnd(old(State()), Xdnd.Leave(old(dnd), window))
    {
      dnd := Xdnd.Idle;
      Deliver(OnWindow(window, HoveredFileCancelled));
    }

    method HandleClientMessage(window: Window, messageType: Atom, data: Xdnd.Data32, env: Env)
      modifies this
      ensures State() == OnClientMessage(old(State()), window, messageType, data, env)
    {
      var a := env.atoms;
      if data[0] == a.wmDeleteWindow {
        Deliver(OnWindow(window, CloseRequested));
      } else if data[0] == a.netWmPing {
        Send(PingReply(window, data));
      } else if messageType == a.xdndEnter {
        XdndEnter(data, env.typeList);
      } else if messageType == a.xdndPosition {
        XdndPosition(window, data, a.textUriList);
      } else if messageType == a.xdndDrop {
        XdndDrop(window, data);
      } else if messageType == a.xdndLeave {
        XdndLeave(window);
      }
    }

    /** The data of a drop arrives: each parsed path is announced as hovered and
        the outcome is cached for the drop. */
    method HandleSelectionNotify(requestor: Window, property: Atom, env: Env)
      modifies this
      ensures State() == OnSelectionNotify(old(State()), requestor, property, env)
    {
      if property == env.atoms.xdndSelection {
        var result: Option<Xdnd.ParseResult> := None;
        if env.selection.Some? {
          var parsed := env.selection.value;
          if parsed.Ok? {
            var paths := parsed.value;
            var i := 0;
            while i < |paths|
              invariant 0 <= i <= |paths|
              invariant State() == Emit(old(State()), Xdnd.HoveredFiles(requestor, paths[..i]))
            {
              Deliver(OnWindow(requestor, HoveredFile(paths[i])));
              assert Xdnd.HoveredFiles(requestor, paths[..i + 1]) ==
                     Xdnd.HoveredFiles(requestor, paths[..i]) + [OnWindow(requestor, HoveredFile(paths[i]))];
              i := i + 1;
            }
            assert paths[..|paths|] == paths;
          }
          result := Some(parsed);
        }
        dnd := dnd.(result := result);
      }
    }

    method HandleConfigureNotify(ev: Geometry.ConfigureEvent, env: Env)
      modifies this
      ensures State() == OnConfigureNotify(old(State()), ev, env)
    {
      var st := WithWindow(ev.window);
      if st.Some? {
        var o := Geometry.Configure(st.value, ev, env.geometry);
        windows := Store(windows, ev.window, o.state);
        events := events + o.events;
        sent := sent + o.sent;
      }
    }

    method HandleReparentNotify(window: Window)
      modifies this
      ensures State() == OnReparentNotify(old(State()), window)
    {
      var st := WithWindow(window);
      if st.Some? {
        windows := Store(windows, window, st.value.(frameExtents := None));
      }
    }

    method HandleMapNotify(window: Window)
      modifies this
      ensures State() == OnMapNotify(old(State()), window)
    {
      var st := WithWindow(window);
      var focus := st.Some? && st.value.hasFocus;
      Deliver(OnWindow(window, Focused(focus)));
    }

    method HandleDestroyNotify(window: Window)
      modifies this
      ensures State() == OnDestroyNotify(old(State()), window)
    {
      windows := windows - {window};
      Deliver(OnWindow(window, Destroyed));
    }

    method HandleVisibilityNotify(window: Window, fullyObscured: bool)
      modifies this
      ensures State() == OnVisibilityNotify(old(State()), window, fullyObscured)
    {
      Deliver(OnWindow(window, Occluded(fullyObscured)));
      var _ := WithWindow(window);
    }

    method HandleExpose(window: Window, count: u16)
      modifies this
      ensures State() == OnExpose(old(State()), window, count)
    {
      if count == 0 {
        Deliver(OnWindow(window, RedrawRequested));
      }
    }

    method HandleKey(pressed: bool, keycode: u8) returns (flow: Flow)
      modifies this
      ensures (State(), flow) == OnKey(old(State()), pressed, keycode)
    {
      if activeWindow.None? {
        return Return;
      }
      var window := activeWindow.value;
      var repeat := false;
      if keycode in repeatable {
        var isLatestHeld := heldKeyPress == Some(keycode);
        if pressed {
          heldKeyPress := Some(keycode);
          repeat := isLatestHeld;
        } else if isLatestHeld {
          heldKeyPress := None;
        }
      }
      var state := StateOf(pressed);
      if keycode != 0 && !isComposing {
        Deliver(OnWindow(window, KeyboardInput(VIRTUAL_CORE_KEYBOARD, KeyEvent(keycode, state, repeat), false)));
      }
      assert events == old(events) + Keyboard.KeyInput(window, keycode, state, repeat, isComposing);
      return Continue;
    }

    method HandleButton(pressed: bool, window: Window, device: DeviceId, detail: u32, emulated: bool) returns (flow: Flow)
      modifies this
      ensures (State(), flow) == OnButton(old(State()), pressed, window, device, detail, emulated)
    {
      if emulated {
        // multi-touch events are delivered instead of emulated mouse events
        assert events + [] == events;
        return Return;
      }
      var state := StateOf(pressed);
      if detail == 1 {
        Deliver(OnWindow(window, MouseInput(device, state, Left)));
      } else if detail == 2 {
        Deliver(OnWindow(window, MouseInput(device, state, Middle)));
      } else if detail == 3 {
        Deliver(OnWindow(window, MouseInput(device, state, Right)));
      } else if 4 <= detail <= 7 {
        // the wheel arm tests the emulation flag again, which is clear here
      } else if detail == 8 {
        Deliver(OnWindow(window, MouseInput(device, state, Back)));
      } else if detail == 9 {
        Deliver(OnWindow(window, MouseInput(device, state, Forward)));
      } else {
        Deliver(OnWindow(window, MouseInput(device, state, Other(detail % 0x1_0000))));
      }
      assert events == old(events) + Buttons.ButtonEvents(window, device, state, detail, emulated);
      return Continue;
    }

    /** The scroll and axis events of the walked valuators, for the source device. */
    method MotionValuators(dev0: Devices.Device, window: Window, device: DeviceId, axes: seq<(nat, AxisValue)>)
      returns (dev: Devices.Device, buffered: seq<Event>)
      ensures (dev, buffered) == Motion.MotionAxes(dev0, window, device, axes)
    {
      dev, buffered := dev0, [];
      var i := 0;
      while i < |axes|
        invariant 0 <= i <= |axes|
        invariant (dev, buffered) == Motion.MotionAxes(dev0, window, device, axes[..i])
      {
        var (axis, x) := axes[i];
        match Motion.FindAxis(dev.scrollAxes, axis) {
          case Some(k) =>
            var info := dev.scrollAxes[k].1;
            dev := dev.(scrollAxes := dev.scrollAxes[k := (axis, info.(position := x))]);
            buffered := buffered + [OnWindow(window, MouseWheel(device, AxisScroll(info.orientation, info.position, x, info.increment)))];
          case None =>
            buffered := buffered + [OnWindow(window, AxisMotion(device, axis, x))];
        }
        assert axes[..i + 1][..i] == axes[..i];
        i := i + 1;
      }
      assert axes[..|axes|] == axes;
    }

    method HandleSourceValuators(window: Window, device: DeviceId, source: DeviceId,
                                 mask: seq<u8>, values: seq<AxisValue>) returns (flow: Flow)
      modifies this
      ensures (State(), flow) == SourceValuators(old(State()), window, device, source, mask, values)
    {
      if source !in devices {
        return Return;
      }
      var w := Valuators.WalkValuators(mask, values);
      var dev, buffered := MotionValuators(devices[source], window, device, w.axes);
      devices := devices[source := dev];
      if !w.complete {
        // `split_first().unwrap()` panics: the buffered events are lost
        return Panic;
      }
      ghost var before := State();
      var i := 0;
      while i < |buffered|
        invariant 0 <= i <= |buffered|
        invariant State() == Emit(before, buffered[..i])
      {
        Deliver(buffered[i]);
        assert buffered[..i + 1] == buffered[..i] + [buffered[i]];
        i := i + 1;
      }
      assert buffered[..|buffered|] == buffered;
      return Continue;
    }

    method HandleMotion(window: Window, device: DeviceId, source: DeviceId, position: Point,
                        mask: seq<u8>, values: seq<AxisValue>) returns (flow: Flow)
      modifies this
      ensures (State(), flow) == OnMotion(old(State()), window, device, source, position, mask, values)
    {
      var st := WithWindow(window);
      if st.None? {
        return Return;
      }
      var (cache, moved) := MaybeChange(st.value.cursorPos, position);
      windows := Store(windows, window, st.value.(cursorPos := cache));
      if moved {
        Deliver(OnWindow(window, CursorMoved(device, position)));
      }
      assert events == old(events) + if moved then [OnWindow(window, CursorMoved(device, position))] else [];
      flow := HandleSourceValuators(window, device, source, mask, values);
    }

    method HandleEnter(window: Window, device: DeviceId, position: Point)
      modifies this
      ensures State() == OnEnter(old(State()), window, device, position)
    {
      var alive := WindowExists(window);
      if alive {
        Deliver(OnWindow(window, CursorEntered(device)));
        Deliver(OnWindow(window, CursorMoved(device, position)));
      }
    }

    method HandleLeave(window: Window, device: DeviceId)
      modifies this
      ensures State() == OnLeave(old(State()), window, device)
    {
      var alive := WindowExists(window);
      if alive {
        Deliver(OnWindow(window, CursorLeft(device)));
      }
    }

    /** The events of a focus gain. */
    method DeliverFocusGained(window: Window, device: DeviceId, position: Point, pressedKeys: seq<u8>)
      modifies this
      ensures State() == Emit(old(State()), FocusInEvents(old(State()), window, device, position, pressedKeys))
    {
      Deliver(OnWindow(window, Focused(true)));
      if mods != {} {
        Deliver(OnWindow(window, ModifiersChanged(mods)));
      }
      // the event names a keyboard: the cursor event names its master pointer
      var pointer := if device in devices then devices[device].attachment else VIRTUAL_CORE_POINTER;
      Deliver(OnWindow(window, CursorMoved(pointer, position)));
      ghost var prefix := [OnWindow(window, Focused(true))] +
        (if mods != {} then [OnWindow(window, ModifiersChanged(mods))] else []) +
        [OnWindow(window, CursorMoved(pointer, position))];
      assert events == old(events) + prefix;
      HandlePressedKeys(window, Pressed, pressedKeys);
      assert events == old(events) + (prefix + Keyboard.SyntheticKeys(window, pressedKeys, Pressed));
    }

    method HandleFocusIn(window: Window, device: DeviceId, position: Point, env: Env)
      modifies this
      ensures State() == OnFocusIn(old(State()), window, device, position, env)
    {
      if activeWindow != Some(window) {
        activeWindow := Some(window);
        var st := WithWindow(window);
        if st.Some? {
          windows := Store(windows, window, st.value.(hasFocus := true));
        }
        DeliverFocusGained(window, device, position, env.pressedKeys);
      }
    }

    method HandleFocusOut(window: Window, env: Env) returns (flow: Flow)
      modifies this
      ensures (State(), flow) == OnFocusOut(old(State()), window, env)
    {
      var alive := WindowExists(window);
      if !alive {
        return Return;
      }
      var previous := activeWindow;
      activeWindow := None;
      if previous == Some(window) {
        HandlePressedKeys(window, Released, env.pressedKeys);
        // key repeats are detected afresh when the window regains the focus
        heldKeyPress := None;
        Deliver(OnWindow(window, ModifiersChanged({})));
        var st := WithWindow(window);
        if st.Some? {
          windows := Store(windows, window, st.value.(hasFocus := false));
        }
        Deliver(OnWindow(window, Focused(false)));
        assert events == old(events) + FocusOutEvents(window, env.pressedKeys);
      }
      return Continue;
    }

    method HandleTouch(phase: XTouchPhase, window: Window, device: DeviceId, detail: u32, position: Point)
      modifies this
      ensures State() == OnTouch(old(State()), phase, window, device, detail, position)
    {
      var alive := WindowExists(window);
      if alive {
        var first := IsFirstTouch(detail, phase);
        if first {
          // only the first contact in progress moves the cursor
          Deliver(OnWindow(window, CursorMoved(VIRTUAL_CORE_POINTER, position)));
        }
        Deliver(OnWindow(window, Touch(device, phase, position, detail)));
      }
    }

    method HandleRawButton(pressed: bool, device: DeviceId, detail: u32, emulated: bool)
      modifies this
      ensures State() == OnRawButton(old(State()), pressed, device, detail, emulated)
    {
      if emulated {
        Deliver(OnDevice(device, Button(detail, StateOf(pressed))));
      }
    }

    method HandleRawMotion(device: DeviceId, mask: seq<u8>, values: seq<AxisValue>) returns (flow: Flow)
      modifies this
      ensures (State(), flow) == OnRawMotion(old(State()), device, mask, values)
    {
      var w := Valuators.WalkValuators(mask, values);
      var dx, dy, sx, sy := 0, 0, 0, 0;
      var i := 0;
      while i < |w.axes|
        invariant 0 <= i <= |w.axes|
        invariant State() == Emit(old(State()), Motion.Motions(device, w.axes[..i]))
        invariant dx == Motion.AxisValueOf(w.axes[..i], 0) && dy == Motion.AxisValueOf(w.axes[..i], 1)
        invariant sx == Motion.AxisValueOf(w.axes[..i], 2) && sy == Motion.AxisValueOf(w.axes[..i], 3)
      {
        var (axis, x) := w.axes[i];
        if axis == 0 {
          dx := x;
        } else if axis == 1 {
          dy := x;
        } else if axis == 2 {
          sx := x;
        } else if axis == 3 {
          sy := x;
        }
        Deliver(OnDevice(device, DeviceEvent.Motion(axis, x)));
        assert w.axes[..i + 1][..i] == w.axes[..i];
        assert Motion.Motions(device, w.axes[..i + 1]) ==
               Motion.Motions(device, w.axes[..i]) + [OnDevice(device, DeviceEvent.Motion(axis, x))];
        i := i + 1;
      }
      assert w.axes[..|w.axes|] == w.axes;
      if !w.complete {
        assert events == old(events) + Motion.RawMotionEvents(device, w);
        return Panic;
      }
      ghost var walked := events;
      if dx != 0 || dy != 0 {
        Deliver(OnDevice(device, MouseMotion(dx, dy)));
      }
      if sx != 0 || sy != 0 {
        Deliver(OnDevice(device, RawMouseWheel(sx, sy)));
      }
      assert events == walked + Motion.RawSummary(device, w.axes);
      assert walked == old(events) + Motion.Motions(device, w.axes);
      assert events == old(events) + Motion.RawMotionEvents(device, w);
      return Continue;
    }

    method HandleRawKey(pressed: bool, source: DeviceId, detail: u32) returns (flow: Flow)
      modifies this
      ensures (State(), flow) == OnRawKey(old(State()), pressed, source, detail)
    {
      if detail < Keyboard.KEYCODE_OFFSET {
        return Return;
      }
      Deliver(OnDevice(source, Key(detail, StateOf(pressed))));
      return Continue;
    }

    /** `init_device`: every device the server describes for `id` is (re)inserted. */
    method InitDevice(id: DeviceId, query: Devices.DeviceQuery)
      modifies this
      ensures State() == old(State()).(devices := Devices.InitDevice(old(devices), query, id))
    {
      if id in query {
        var infos := query[id];
        var i := 0;
        while i < |infos|
          invariant 0 <= i <= |infos|
          invariant State() == old(State()).(devices := Devices.InsertAll(old(devices), infos[..i]))
        {
          devices := devices[infos[i].0 := infos[i].1];
          assert infos[..i + 1][..i] == infos[..i];
          i := i + 1;
        }
        assert infos[..|infos|] == infos;
      }
    }

    method HandleHierarchy(infos: seq<Devices.HierarchyInfo>, env: Env)
      modifies this
      ensures State() == OnHierarchy(old(State()), infos, env)
    {
      var i := 0;
      while i < |infos|
        invariant 0 <= i <= |infos|
        invariant State() == OnHierarchy(old(State()), infos[..i], env)
      {
        var info := infos[i];
        if Devices.Contains(info.flags, Devices.MASTER_ADDED | Devices.MASTER_REMOVED) {
          InitDevice(info.deviceid, env.deviceQuery);
          Deliver(OnDevice(info.deviceid, Added));
        } else if Devices.Contains(info.flags, Devices.SLAVE_ADDED | Devices.SLAVE_REMOVED) {
          Deliver(OnDevice(info.deviceid, Removed));
          devices := devices - {info.deviceid};
        }
        assert infos[..i + 1][..i] == infos[..i];
        i := i + 1;
      }
      assert infos[..|infos|] == infos;
    }

    method HandleXkbStateNotify(newMods: ModifiersState)
      modifies this
      ensures State() == OnXkbStateNotify(old(State()), newMods)
    {
      var prev := mods;
      mods := newMods;
      if prev != newMods && activeWindow.Some? {
        Deliver(OnWindow(activeWindow.value, ModifiersChanged(newMods)));
      }
    }

    /** The input-method tail of `process_event`. */
    method ImeTail(ime: Option<ImeBridge.ImeTurn>)
      modifies this
      ensures State() == Dispatch.ImeTail(old(State()), ime)
    {
      if ime.None? {
        return;
      }
      var turn := ime.value;
      if turn.request.Some? {
        match turn.request.value
        case Position(w, x, y) => Send(ImeSetSpot(w, x, y));
        case Allow(w, allowed) => Send(ImeSetAllowed(w, allowed));
      }
      if turn.next.None? {
        return;
      }
      var (window, e) := turn.next.value;
      match e
      case Enabled =>
        Deliver(OnWindow(window, Ime(Ime.Enabled)));
      case Start =>
        isComposing := true;
        Deliver(OnWindow(window, Ime(Preedit("", None))));
      case Update(text, position) =>
        if isComposing {
          var cursor := if position.Some? then Some((position.value, position.value)) else None;
          Deliver(OnWindow(window, Ime(Preedit(text, cursor))));
        }
      case Commit(text) =>
        isComposing := false;
        Deliver(OnWindow(window, Ime(Preedit("", None))));
        Deliver(OnWindow(window, Ime(Ime.Commit(text))));
      case End =>
        isComposing := false;
        Deliver(OnWindow(window, Ime(Preedit("", None))));
      case Disabled =>
        isComposing := false;
        Deliver(OnWindow(window, Ime(Ime.Disabled)));
    }

    /** The arms of the `match` of `process_event` for core and XKB events. */
    method HandleCoreEvent(ev: XEvent, env: Env) returns (flow: Flow)
      requires IsCoreEvent(ev)
      modifies this
      ensures (State(), flow) == Handle(old(State()), ev, env)
    {
      flow := Continue;
      match ev {
        case ClientMessage(window, messageType, data) => HandleClientMessage(window, messageType, data, env);
        case SelectionNotify(requestor, property) => HandleSelectionNotify(requestor, property, env);
        case ConfigureNotify(configure) => HandleConfigureNotify(configure, env);
        case ReparentNotify(window) => HandleReparentNotify(window);
        case MapNotify(window) => HandleMapNotify(window);
        case DestroyNotify(window) => HandleDestroyNotify(window);
        case VisibilityNotify(window, fullyObscured) => HandleVisibilityNotify(window, fullyObscured);
        case Expose(window, count) => HandleExpose(window, count);
        case KeyPressOrRelease(pressed, keycode) => flow := HandleKey(pressed, keycode);
        case XkbStateNotify(newMods) => HandleXkbStateNotify(newMods);
        case Unhandled =>
      }
    }

    /** The arms of the `match` of `process_event` for XInput2 events. */
    method HandleXinputEvent(ev: XEvent, env: Env) returns (flow: Flow)
      requires !IsCoreEvent(ev)
      modifies this
      ensures (State(), flow) == Handle(old(State()), ev, env)
    {
      flow := Continue;
      match ev {
        case XinputButton(pressed, window, device, detail, emulated) => flow := HandleButton(pressed, window, device, detail, emulated);
        case XinputMotion(window, device, source, position, mask, values) => flow := HandleMotion(window, device, source, position, mask, values);
        case XinputEnter(window, device, position) => HandleEnter(window, device, position);
        case XinputLeave(window, device) => HandleLeave(window, device);
        case XinputFocusIn(window, device, position) => HandleFocusIn(window, device, position, env);
        case XinputFocusOut(window) => flow := HandleFocusOut(window, env);
        case XinputTouch(phase, window, device, detail, position) => HandleTouch(phase, window, device, detail, position);
        case XinputRawButton(pressed, device, detail, emulated) => HandleRawButton(pressed, device, detail, emulated);
        case XinputRawMotion(device, mask, values) => flow := HandleRawMotion(device, mask, values);
        case XinputRawKey(pressed, source, detail) => flow := HandleRawKey(pressed, source, detail);
        case XinputHierarchy(infos) => HandleHierarchy(infos, env);
      }
    }

    /** `process_event`: the arm for the event, then the input-method tail unless
        the arm returned early. The answer says whether processing panicked. */
    method ProcessEvent(ev: XEvent, env: Env) returns (panicked: bool)
      modifies this
      ensures (State(), panicked) == Process(old(State()), ev, env)
    {
      var flow;
      if IsCoreEvent(ev) {
        flow := HandleCoreEvent(ev, env);
      } else {
        flow := HandleXinputEvent(ev, env);
      }
      if flow == Continue {
        ImeTail(env.ime);
      }
      panicked := flow == Panic;
    }
  }
}
