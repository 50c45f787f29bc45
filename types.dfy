/** Values shared by every part of the X11 event translator: protocol integers,
    the platform-independent events handed to the application callback, and the
    requests the translator sends back to the X server or the input method. */
module X11Types {

  datatype Option<+T> = None | Some(value: T) {
    function GetOr(default: T): T {
      match this
      case Some(v) => v
      case None => default
    }
  }

  datatype Result<+T, +E> = Ok(value: T) | Err(error: E)

  // Fixed-width integers of the X protocol.
  type u8 = x: int | 0 <= x < 0x100
  type u16 = x: int | 0 <= x < 0x1_0000
  type u32 = x: int | 0 <= x < 0x1_0000_0000

  /** An X window id (`xproto::Window`). */
  type Window = u32
  /** An interned X atom. */
  type Atom = u32
  /** A keycode as the keymap sees it (`u32`). */
  type Keycode = u32
  /** An XInput2 device id (`xinput::DeviceId`). */
  type DeviceId = u16
  /** A touch contact id (`xev.detail as u64`). */
  type TouchId = nat

  /** Device 2 is the X server's virtual core pointer, device 3 its virtual core keyboard. */
  const VIRTUAL_CORE_POINTER: DeviceId := 2
  const VIRTUAL_CORE_KEYBOARD: DeviceId := 3

  datatype ElementState = Pressed | Released

  datatype TouchPhase = Started | Moved | Ended | Cancelled

  datatype MouseButton = Left | Right | Middle | Back | Forward | Other(code: u16)

  datatype Modifier = Shift | Control | Alt | Super

  /** The effective modifier set; the empty set is `ModifiersState::empty()`. */
  type ModifiersState = set<Modifier>

  /** What the keymap library's `process_key_event` is asked to translate: the
      translation to a logical key and text happens in that library. */
  datatype KeyEvent = KeyEvent(keycode: Keycode, state: ElementState, repeat: bool)

  /** A position in physical pixels. Pointer coordinates stay in the protocol's
      raw FP1616 fixed-point form; the conversion to floating point is not modelled. */
  datatype Point = Point(x: int, y: int)

  datatype Size = Size(width: int, height: int)

  type Path = string

  /** A raw FP3232 valuator value, `integral * 2^32 + frac`. */
  type AxisValue = int

  datatype ScrollOrientation = Horizontal | Vertical

  datatype ScrollDelta =
      /** A step of a scroll valuator: the source reports `-(to - from) / increment`
          along `orientation`; the floating-point division is not modelled. */
    | AxisScroll(orientation: ScrollOrientation, from: AxisValue, to: AxisValue, increment: AxisValue)
      /** Whole lines, `LineDelta(x, y)`. */
    | LineDelta(x: int, y: int)

  datatype Ime =
    | Enabled
    | Preedit(text: string, cursor: Option<(nat, nat)>)
    | Commit(text: string)
    | Disabled

  datatype WindowEvent =
    | CloseRequested
    | Destroyed
    | Focused(focused: bool)
    | Occluded(occluded: bool)
    | RedrawRequested
    | Moved(position: Point)
    | Resized(size: Size)
    | ScaleFactorChanged(scaleFactor: real, suggestedSize: Size)
    | KeyboardInput(device: DeviceId, key: KeyEvent, isSynthetic: bool)
    | ModifiersChanged(modifiers: ModifiersState)
    | MouseInput(device: DeviceId, state: ElementState, button: MouseButton)
    | MouseWheel(device: DeviceId, delta: ScrollDelta)
    | AxisMotion(device: DeviceId, axis: nat, value: AxisValue)
    | CursorMoved(device: DeviceId, position: Point)
    | CursorEntered(device: DeviceId)
    | CursorLeft(device: DeviceId)
    | Touch(device: DeviceId, phase: TouchPhase, location: Point, id: TouchId)
    | DroppedFile(path: Path)
    | HoveredFile(path: Path)
    | HoveredFileCancelled
    | Ime(ime: Ime)

  datatype DeviceEvent =
    | Added
    | Removed
    | Motion(axis: nat, value: AxisValue)
    | MouseMotion(dx: AxisValue, dy: AxisValue)
    | RawMouseWheel(dx: AxisValue, dy: AxisValue)
    | Button(button: u32, state: ElementState)
    | Key(keycode: Keycode, state: ElementState)

  /** One call of the application callback. */
  datatype Event =
    | OnWindow(window: Window, windowEvent: WindowEvent)
    | OnDevice(device: DeviceId, deviceEvent: DeviceEvent)

  /** The status an XDND reply carries. */
  datatype DndState = Accepted | Rejected

  /** A request sent to the X server or to the input method. */
  datatype Request =
    | PingReply(window: Window, data: seq<u32>)
    | XdndStatus(from: Window, to: Window, state: DndState)
    | XdndFinished(from: Window, to: Window, state: DndState)
    | ConvertSelection(window: Window, time: u32)
    | RequestInnerSize(window: Window, size: Size)
    | ImeSetSpot(window: Window, x: int, y: int)
    | ImeSetAllowed(window: Window, allowed: bool)
}
