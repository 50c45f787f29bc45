/** Key-repeat detection, the gate on `KeyboardInput`, the synthetic key events
    of a focus change, and the modifier notification. The keymap library itself
    (which keys repeat, the translation of keycodes, the modifier state) is not
    modelled: the set of repeating keys and the modifier sets are inputs. */
module Keyboard {
  import opened X11Types

  /** Keycodes of the X core protocol lie in the inclusive range [8, 255]. */
  const KEYCODE_OFFSET: Keycode := 8

  /** The held-key slot after a key event, and the repeat flag of that event.
      `repeats` is what the keymap says of `keycode` (`key_repeats`). */
  function RepeatStep(held: Option<Keycode>, repeats: bool, pressed: bool, keycode: Keycode): (Option<Keycode>, bool) {
    if repeats then
      var isLatestHeld := held == Some(keycode);
      if pressed then (Some(keycode), isLatestHeld)
      else (if isLatestHeld then None else held, false)
    else
      (held, false)
  }

  lemma PressOfRepeatingKey(held: Option<Keycode>, keycode: Keycode)
    ensures RepeatStep(held, true, true, keycode) == (Some(keycode), held == Some(keycode))
  {
  }

  lemma ReleaseOfRepeatingKey(held: Option<Keycode>, keycode: Keycode)
    ensures var (next, repeat) := RepeatStep(held, true, false, keycode);
      !repeat && next == (if held == Some(keycode) then None else held)
  {
  }

  lemma NonRepeatingKeyLeavesSlot(held: Option<Keycode>, pressed: bool, keycode: Keycode)
    ensures RepeatStep(held, false, pressed, keycode) == (held, false)
  {
  }

  /** Only a press of the key already held is flagged as a repeat. */
  lemma OnlyHeldKeyRepeats(held: Option<Keycode>, repeats: bool, pressed: bool, keycode: Keycode)
    ensures RepeatStep(held, repeats, pressed, keycode).1 <==> repeats && pressed && held == Some(keycode)
  {
  }

  /** A stream of key events: keycode and whether it is a press. */
  function RunRepeat(held: Option<Keycode>, repeatable: set<Keycode>, keys: seq<(Keycode, bool)>): Option<Keycode>
    decreases |keys|
  {
    if keys == [] then held
    else RunRepeat(RepeatStep(held, keys[0].0 in repeatable, keys[0].1, keys[0].0).0, repeatable, keys[1..])
  }

  /** The keys down after a stream of key events. */
  function KeysDown(down: set<Keycode>, keys: seq<(Keycode, bool)>): set<Keycode>
    decreases |keys|
  {
    if keys == [] then down
    else KeysDown(if keys[0].1 then down + {keys[0].0} else down - {keys[0].0}, keys[1..])
  }

  /** Whatever the stream, the held key is a repeating key that is down: pressing
      or releasing any other key never leaves a stale key in the slot. */
  lemma {:induction false} HeldKeyIsDown(held: Option<Keycode>, repeatable: set<Keycode>, down: set<Keycode>, keys: seq<(Keycode, bool)>)
    requires held.Some? ==> held.value in repeatable && held.value in down
    ensures var h := RunRepeat(held, repeatable, keys);
      h.Some? ==> h.value in repeatable && h.value in KeysDown(down, keys)
    decreases |keys|
  {
    if keys != [] {
      var (k, pressed) := keys[0];
      var next := RepeatStep(held, k in repeatable, pressed, k).0;
      var down' := if pressed then down + {k} else down - {k};
      assert next.Some? ==> next.value in repeatable && next.value in down';
      HeldKeyIsDown(next, repeatable, down', keys[1..]);
    }
  }

  /** The `KeyboardInput` a real key event produces, if any. */
  function KeyInput(window: Window, keycode: Keycode, state: ElementState, repeat: bool, composing: bool): seq<Event> {
    if keycode != 0 && !composing then
      [OnWindow(window, KeyboardInput(VIRTUAL_CORE_KEYBOARD, KeyEvent(keycode, state, repeat), false))]
    else
      []
  }

  lemma KeyInputGate(window: Window, keycode: Keycode, state: ElementState, repeat: bool, composing: bool)
    ensures |KeyInput(window, keycode, state, repeat, composing)| == (if keycode != 0 && !composing then 1 else 0)
    ensures forall e <- KeyInput(window, keycode, state, repeat, composing) ::
      e == OnWindow(window, KeyboardInput(VIRTUAL_CORE_KEYBOARD, KeyEvent(keycode, state, repeat), false))
  {
  }

  /** The synthetic event for one key found down at a focus change. */
  function SyntheticKey(window: Window, keycode: Keycode, state: ElementState): Event {
    OnWindow(window, KeyboardInput(VIRTUAL_CORE_KEYBOARD, KeyEvent(keycode, state, false), true))
  }

  /** The events `handle_pressed_keys` emits for the server's key map `keys`, in
      order; keycodes below `KEYCODE_OFFSET` are skipped. */
  function SyntheticKeys(window: Window, keys: seq<u8>, state: ElementState): seq<Event>
    decreases |keys|
  {
    if keys == [] then []
    else
      var last := keys[|keys| - 1];
      SyntheticKeys(window, keys[..|keys| - 1], state) + (if last >= KEYCODE_OFFSET then [SyntheticKey(window, last, state)] else [])
  }

  /** The keycodes of `keys` that the protocol allows. */
  function ValidKeycodes(keys: seq<u8>): seq<Keycode>
    decreases |keys|
  {
    if keys == [] then []
    else (if keys[0] >= KEYCODE_OFFSET then [keys[0] as Keycode] else []) + ValidKeycodes(keys[1..])
  }

  lemma {:induction false} ValidKeycodesAppend(keys: seq<u8>, k: u8)
    ensures ValidKeycodes(keys + [k]) == ValidKeycodes(keys) + (if k >= KEYCODE_OFFSET then [k as Keycode] else [])
    decreases |keys|
  {
    if keys == [] {
      assert [k][1..] == [];
    } else {
      var head := if keys[0] >= KEYCODE_OFFSET then [keys[0] as Keycode] else [];
      var tail := if k >= KEYCODE_OFFSET then [k as Keycode] else [];
      assert (keys + [k])[0] == keys[0];
      assert (keys + [k])[1..] == keys[1..] + [k];
      assert ValidKeycodes(keys + [k]) == head + ValidKeycodes(keys[1..] + [k]);
      ValidKeycodesAppend(keys[1..], k);
      assert ValidKeycodes(keys) == head + ValidKeycodes(keys[1..]);
      assert head + (ValidKeycodes(keys[1..]) + tail) == (head + ValidKeycodes(keys[1..])) + tail;
    }
  }

  /** One synthetic event per valid keycode, in the server's order, each flagged
      synthetic and not a repeat. */
  lemma {:induction false} SyntheticKeysAreValidKeys(window: Window, keys: seq<u8>, state: ElementState)
    ensures |SyntheticKeys(window, keys, state)| == |ValidKeycodes(keys)|
    ensures forall i :: 0 <= i < |ValidKeycodes(keys)| ==>
      SyntheticKeys(window, keys, state)[i] == SyntheticKey(window, ValidKeycodes(keys)[i], state)
    decreases |keys|
  {
    if keys != [] {
      var init := keys[..|keys| - 1];
      assert keys == init + [keys[|keys| - 1]];
      ValidKeycodesAppend(init, keys[|keys| - 1]);
      SyntheticKeysAreValidKeys(window, init, state);
    }
  }

  lemma {:induction false} ValidKeycodesInRange(keys: seq<u8>)
    ensures forall k <- ValidKeycodes(keys) :: KEYCODE_OFFSET <= k <= 255
    decreases |keys|
  {
    if keys != [] {
      ValidKeycodesInRange(keys[1..]);
    }
  }

  /** The notification of a modifier change, sent only when the modifiers really
      changed and a window of this process has the focus. */
  function ModifiersNotification(prev: ModifiersState, next: ModifiersState, active: Option<Window>): seq<Event> {
    if prev != next && active.Some? then [OnWindow(active.value, ModifiersChanged(next))] else []
  }

  lemma ModifiersNotificationGate(prev: ModifiersState, next: ModifiersState, active: Option<Window>)
    ensures ModifiersNotification(prev, next, active) != [] <==> prev != next && active.Some?
    ensures ModifiersNotification(prev, next, active) != [] ==>
      ModifiersNotification(prev, next, active) == [OnWindow(active.value, ModifiersChanged(next))]
  {
  }
}
