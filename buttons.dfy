/** The translation of an XInput2 button press or release into `MouseInput`. */
module Buttons {
  import opened X11Types

  /** The events of the `match xev.detail` for a button event that got past the
      early return for emulated pointer events. The wheel branch keeps its own
      test of the emulation flag, as the source does. */
  function DetailEvents(window: Window, device: DeviceId, state: ElementState, detail: u32, emulated: bool): seq<Event> {
    if detail == 1 then [OnWindow(window, MouseInput(device, state, Left))]
    else if detail == 2 then [OnWindow(window, MouseInput(device, state, Middle))]
    else if detail == 3 then [OnWindow(window, MouseInput(device, state, Right))]
    else if 4 <= detail <= 7 then
      if emulated then
        var delta :=
          if detail == 4 then LineDelta(0, 1)
          else if detail == 5 then LineDelta(0, -1)
          else if detail == 6 then LineDelta(1, 0)
          else LineDelta(-1, 0);
        [OnWindow(window, MouseWheel(device, delta))]
      else []
    else if detail == 8 then [OnWindow(window, MouseInput(device, state, Back))]
    else if detail == 9 then [OnWindow(window, MouseInput(device, state, Forward))]
    // `Other(x as u16)` keeps the low 16 bits of the detail
    else [OnWindow(window, MouseInput(device, state, Other(detail % 0x1_0000)))]
  }

  /** The whole button handler: emulated pointer events produce nothing. */
  function ButtonEvents(window: Window, device: DeviceId, state: ElementState, detail: u32, emulated: bool): seq<Event> {
    if emulated then [] else DetailEvents(window, device, state, detail, emulated)
  }

  /** The reference table of button numbers. */
  function ButtonFor(detail: u32): Option<MouseButton> {
    match detail
    case 1 => Some(Left)
    case 2 => Some(Middle)
    case 3 => Some(Right)
    case 4 => None
    case 5 => None
    case 6 => None
    case 7 => None
    case 8 => Some(Back)
    case 9 => Some(Forward)
    case _ => Some(Other(detail % 0x1_0000))
  }

  /** A real button event is one `MouseInput` with the table's button, or nothing
      for the wheel buttons 4 to 7. */
  lemma ButtonEventsFollowTable(window: Window, device: DeviceId, state: ElementState, detail: u32, emulated: bool)
    ensures ButtonEvents(window, device, state, detail, emulated) ==
      if emulated || ButtonFor(detail).None? then []
      else [OnWindow(window, MouseInput(device, state, ButtonFor(detail).value))]
  {
  }

  /** The wheel branch can never fire: the emulation flag it tests was already
      rejected by the early return. */
  lemma WheelClicksAreSilent(window: Window, device: DeviceId, state: ElementState, detail: u32, emulated: bool)
    requires 4 <= detail <= 7
    ensures ButtonEvents(window, device, state, detail, emulated) == []
  {
  }

  /** `Other` is used only outside the numbers 1 to 9, and the named buttons
      come from distinct details. */
  lemma TableIsUnambiguous(d1: u32, d2: u32)
    requires ButtonFor(d1).Some? && ButtonFor(d2).Some? && ButtonFor(d1) == ButtonFor(d2)
    requires !ButtonFor(d1).value.Other?
    ensures d1 == d2
  {
  }

  lemma OtherIsOutsideNamedRange(detail: u32)
    requires ButtonFor(detail).Some? && ButtonFor(detail).value.Other?
    ensures detail < 1 || detail > 9
    ensures ButtonFor(detail).value.code == detail % 0x1_0000
  {
  }
}
