# winit X11 event processor, modelled in Dafny

This project models `EventProcessor::process_event` of winit's X11 backend,
together with its helpers `with_window`, `handle_pressed_keys`,
`is_first_touch` and `init_device`. The processor turns one X event at a time
into events for the application's callback. It keeps the processor's own state
as it goes:

- the drag-and-drop session;
- the XInput2 device table;
- the held repeatable key;
- the active window;
- the touch tracker;
- the input-method composing flag.

It also reaches each window's shared state through a registry of weak
references.

The model has three layers.

- **Component specifications.** These are pure functions with lemmas, one
  module per sub-protocol:
  - `TouchTracker` for `is_first_touch`;
  - `Keyboard` for key repeat, the key gate, synthetic keys and modifiers;
  - `Buttons` for button numbers;
  - `Valuators` for the valuator-mask walk;
  - `Xdnd` for the receiving side of the freedesktop.org XDND protocol,
    version 5;
  - `WindowState` for the registry and `with_window`;
  - `Geometry` for ConfigureNotify reconciliation;
  - `Devices` for `init_device` and hierarchy changes;
  - `Motion` for what motion and raw motion make of the valuators;
  - `ImeBridge` for the input-method tail.
- **`Dispatch`.** This is the whole processor state as a value
  (`ProcessorState`). There is one function per arm of the `match` in
  `process_event`. `Handle` is the `match`, and `Process` is the `match`
  followed by the input-method tail. `DispatchProperties` proves properties
  of `Process` over every event.
- **`X11EventProcessor.EventProcessor`.** This class has the processor's
  fields, and its methods update them in place, with loops where the source
  loops. Each method is proved to leave exactly the state its `Dispatch`
  function gives (`ensures State() == OnX(old(State()), …)`).

Conventions:

- The application callback is an append-only log, `events`.
- Everything sent to the X server or to the input method is a second log,
  `sent`: ping replies, XDND status and finished messages, selection
  conversions, inner-size requests, input-method spot and allowed
  requests.
- What collaborators answer during one call is an `Env` parameter:
  - the server's key map;
  - the XDND source's type list;
  - the selection data as read and parsed;
  - the geometry queries and the callback's chosen size;
  - the device descriptions;
  - the input method's pending request and next event.
- An arm that `return`s early skips the input-method tail. This is modelled by
  `Flow.Return`.
- The `unwrap` that panics when a valuator mask names more valuators than the
  event carries values is `Flow.Panic`. Events already delivered stay
  delivered.

The model follows the code as written in four places where it departs from a
standard or reads unexpectedly:

- In the XDND protocol, the accept flag of `XdndFinished` says whether the
  drop was performed. The code replies `Accepted` whenever an XdndPosition
  recorded the source window, even when no data arrived. It replies
  `Rejected` only when no source window was recorded, and then the reply goes
  to the window named in the drop message. `Xdnd.DropFinishes` states the
  code's behaviour.
- ICCCM section 4.1.5 describes synthetic ConfigureNotify events sent by the
  window manager. In the X protocol, a sent event has bit 0x80 of its
  response type set. The code's `is_synthetic` flag is true when that bit is
  clear. The model keeps the test as written (`Geometry.IsSynthetic`).
- The XInput2 hierarchy flags are independent bits. The code acts on an entry
  only when both bits of a pair are set: MASTER_ADDED together with
  MASTER_REMOVED, or SLAVE_ADDED together with SLAVE_REMOVED. This is what
  `flags.contains(A | B)` tests (`Devices.HierarchyNeedsBothBits`).
- The scroll-wheel branch for buttons 4 to 7 never fires, because emulated
  events have already returned early (`Buttons.WheelClicksAreSilent`).

## Model

| member | source | states |
|---|---|---|
| `X11EventProcessor.EventProcessor.ProcessEvent` | src/platform_impl/linux/x11/event_processor.rs:137-1354 | the new state and the panic answer are exactly `Process`: the arm for the event, then the input-method tail unless the arm returned early or panicked |
| `X11EventProcessor.EventProcessor.HandleCoreEvent` | src/platform_impl/linux/x11/event_processor.rs:144-613 | the core-protocol and XKB arms leave the state and flow `Handle` gives |
| `X11EventProcessor.EventProcessor.HandleXinputEvent` | src/platform_impl/linux/x11/event_processor.rs:615-1167 | the XInput2 arms leave the state and flow `Handle` gives |
| `X11EventProcessor.EventProcessor.constructor` | src/platform_impl/linux/x11/event_processor.rs:42-63 | a new processor has one field per field of the struct. The initial values stand for the construction site, which is not part of this model: an idle drag-and-drop session, no active window, no held key, an idle touch tracker, no composition and empty logs |
| `X11EventProcessor.EventProcessor.WithWindow` | src/platform_impl/linux/x11/event_processor.rs:76-98 | yields the shared state of a live window; an entry whose window is gone is removed on the way |
| `X11EventProcessor.EventProcessor.WindowExists` | src/platform_impl/linux/x11/event_processor.rs:100-102 | true exactly for a live window, with the same collection of a dead entry |
| `X11EventProcessor.EventProcessor.IsFirstTouch` | src/platform_impl/linux/x11/event_processor.rs:1388-1406 | updates first contact and count as `TouchTracker.Step` and answers whether the contact is the first one |
| `X11EventProcessor.EventProcessor.HandlePressedKeys` | src/platform_impl/linux/x11/event_processor.rs:1356-1385 | delivers one synthetic key event per keycode of the key map at or above the offset, in order |
| `X11EventProcessor.EventProcessor.XdndEnter` | src/platform_impl/linux/x11/event_processor.rs:166-178 | the session records the version and the type list as `Xdnd.Enter` |
| `X11EventProcessor.EventProcessor.XdndPosition` | src/platform_impl/linux/x11/event_processor.rs:179-239 | status reply, source recording, selection request and session reset as `Xdnd.Position` |
| `X11EventProcessor.EventProcessor.XdndDrop` | src/platform_impl/linux/x11/event_processor.rs:240-263 | delivers the cached paths in order, sends XdndFinished and resets the session, as `Xdnd.Drop` |
| `X11EventProcessor.EventProcessor.XdndLeave` | src/platform_impl/linux/x11/event_processor.rs:264-270 | resets the session and reports the hover cancelled |
| `X11EventProcessor.EventProcessor.HandleClientMessage` | src/platform_impl/linux/x11/event_processor.rs:145-271 | close request, ping reply to the root window, and the XDND messages, checked in the source's order |
| `X11EventProcessor.EventProcessor.HandleSelectionNotify` | src/platform_impl/linux/x11/event_processor.rs:273-299 | caches the parse result and reports each parsed path as hovered, in order |
| `X11EventProcessor.EventProcessor.HandleConfigureNotify` | src/platform_impl/linux/x11/event_processor.rs:301-474 | for a live window, the shared state, events and requests are `Geometry.Configure`; a dead entry is only collected |
| `X11EventProcessor.EventProcessor.HandleReparentNotify` | src/platform_impl/linux/x11/event_processor.rs:476-487 | drops the cached frame extents of a live window |
| `X11EventProcessor.EventProcessor.HandleMapNotify` | src/platform_impl/linux/x11/event_processor.rs:488-504 | re-issues the focus state; a window that is gone counts as unfocused |
| `X11EventProcessor.EventProcessor.HandleDestroyNotify` | src/platform_impl/linux/x11/event_processor.rs:505-525 | removes the window from the registry and reports it destroyed |
| `X11EventProcessor.EventProcessor.HandleVisibilityNotify` | src/platform_impl/linux/x11/event_processor.rs:527-536 | reports the occlusion state |
| `X11EventProcessor.EventProcessor.HandleExpose` | src/platform_impl/linux/x11/event_processor.rs:538-550 | asks for a redraw only on the last Expose of a series |
| `X11EventProcessor.EventProcessor.HandleKey` | src/platform_impl/linux/x11/event_processor.rs:553-613 | returns early with no active window; otherwise updates the held key and delivers the gated key event |
| `X11EventProcessor.EventProcessor.HandleButton` | src/platform_impl/linux/x11/event_processor.rs:615-712 | returns early on an emulated event; otherwise delivers the table's `MouseInput`, if any |
| `X11EventProcessor.EventProcessor.MotionValuators` | src/platform_impl/linux/x11/event_processor.rs:752-802 | the loop over the walked valuators gives the device and buffered events of `Motion.MotionAxes` |
| `X11EventProcessor.EventProcessor.HandleSourceValuators` | src/platform_impl/linux/x11/event_processor.rs:744-806 | an unknown source returns early; a short value list panics with nothing buffered delivered; else the buffer is delivered in order |
| `X11EventProcessor.EventProcessor.HandleMotion` | src/platform_impl/linux/x11/event_processor.rs:713-807 | the cursor cache and `CursorMoved` first (early return for a dead window), then the source's valuators |
| `X11EventProcessor.EventProcessor.HandleEnter` | src/platform_impl/linux/x11/event_processor.rs:809-854 | for a live window, reports the cursor entered and its position |
| `X11EventProcessor.EventProcessor.HandleLeave` | src/platform_impl/linux/x11/event_processor.rs:855-872 | for a live window, reports the cursor left |
| `X11EventProcessor.EventProcessor.DeliverFocusGained` | src/platform_impl/linux/x11/event_processor.rs:900-938 | delivers `FocusInEvents` in order: focus, modifiers if any, cursor position from the keyboard's master pointer, synthetic presses |
| `X11EventProcessor.EventProcessor.HandleFocusIn` | src/platform_impl/linux/x11/event_processor.rs:873-940 | a window not already active becomes active, is marked focused and gets the focus-gain events |
| `X11EventProcessor.EventProcessor.HandleFocusOut` | src/platform_impl/linux/x11/event_processor.rs:941-988 | state and flow as `OnFocusOut`: dead window returns early, inactive window clears the active one, active window gets releases, cleared modifiers and focus loss |
| `X11EventProcessor.EventProcessor.HandleTouch` | src/platform_impl/linux/x11/event_processor.rs:990-1034 | for a live window, moves the core pointer on the first contact and reports the touch |
| `X11EventProcessor.EventProcessor.HandleRawButton` | src/platform_impl/linux/x11/event_processor.rs:1036-1056 | reports a device button only for emulated events |
| `X11EventProcessor.EventProcessor.HandleRawMotion` | src/platform_impl/linux/x11/event_processor.rs:1058-1116 | the events and flow of `OnRawMotion`: one `Motion` per valuator, then the motion and wheel summary unless the walk panicked |
| `X11EventProcessor.EventProcessor.HandleRawKey` | src/platform_impl/linux/x11/event_processor.rs:1117-1141 | keycodes below the offset return early; others are reported as device keys |
| `X11EventProcessor.EventProcessor.InitDevice` | src/platform_impl/linux/x11/event_processor.rs:65-74 | the device table after the loop is `Devices.InitDevice`; a failed query leaves it unchanged |
| `X11EventProcessor.EventProcessor.HandleHierarchy` | src/platform_impl/linux/x11/event_processor.rs:1143-1167 | the table and events after the loop over entries are `Devices.Hierarchy` |
| `X11EventProcessor.EventProcessor.HandleXkbStateNotify` | src/platform_impl/linux/x11/event_processor.rs:1182-1206 | stores the new modifiers and notifies the active window only when they changed |
| `X11EventProcessor.EventProcessor.ImeTail` | src/platform_impl/linux/x11/event_processor.rs:1279-1353 | hands over the pending request and translates the next bridge event as `ImeBridge.Turn` |
| `DispatchProperties.LogsOnlyGrow` | src/platform_impl/linux/x11/event_processor.rs:137-1354 | whatever the event, earlier callback events and earlier requests stay in place as a prefix |
| `DispatchProperties.RegistryChangesOnlyAtTarget` | src/platform_impl/linux/x11/event_processor.rs:76-98 | no event adds a window to the registry, and only the event's own window can change or be removed |
| `DispatchProperties.KeyWithoutFocusIsDropped` | src/platform_impl/linux/x11/event_processor.rs:557-560 | a key event with no active window changes nothing and skips the input-method tail |
| `DispatchProperties.KeyReachesCallbackUnlessComposing` | src/platform_impl/linux/x11/event_processor.rs:577-612 | with an active window, a nonzero key is delivered first, flagged as a repeat exactly for the held repeatable key, unless composing; otherwise no key event at all. The held key is updated the same way whether or not a composition runs |
| `DispatchProperties.EmulatedButtonIsDropped` | src/platform_impl/linux/x11/event_processor.rs:622-628 | an emulated button event changes nothing and skips the tail |
| `DispatchProperties.RawKeyBelowOffsetIsDropped` | src/platform_impl/linux/x11/event_processor.rs:1117-1141 | a raw key below the keycode offset changes nothing and skips the tail |
| `DispatchProperties.PanicOnlyOnValuatorShortage` | src/platform_impl/linux/x11/event_processor.rs:752-802 | in the model, where every server and input-method request succeeds, processing panics only for motion or raw motion whose mask names more valuators than values are carried; raw motion with such a mask always panics |
| `DispatchProperties.FocusInActivates` | src/platform_impl/linux/x11/event_processor.rs:885-898 | the window is active afterwards; a newly active live window is marked focused; a repeated focus gain leaves everything to the tail |
| `DispatchProperties.FocusInReportsInOrder` | src/platform_impl/linux/x11/event_processor.rs:900-938 | focus, modifiers only when some are active, cursor at the event's position, then one synthetic press per valid keycode in order |
| `DispatchProperties.FocusOutOfActiveWindow` | src/platform_impl/linux/x11/event_processor.rs:941-988 | no active window and no held key afterwards, the window marked unfocused, and releases, cleared modifiers and focus loss reported in that order |
| `DispatchProperties.FocusOutOfInactiveWindow` | src/platform_impl/linux/x11/event_processor.rs:941-988 | another live window losing focus only clears the active window, then runs the tail |
| `DispatchProperties.FocusOutOfDeadWindow` | src/platform_impl/linux/x11/event_processor.rs:941-949 | a dead window's focus loss only collects its registry entry and skips the tail |
| `DispatchProperties.ExposeRedrawsOnlyLast` | src/platform_impl/linux/x11/event_processor.rs:538-550 | the first new event is `RedrawRequested` for the window if and only if the count is 0; with a nonzero count the arm adds nothing and only the input-method tail runs |
| `DispatchProperties.DestroyForgetsWindow` | src/platform_impl/linux/x11/event_processor.rs:505-525 | the window leaves the registry and `Destroyed` is the first new event |
| `TouchTracker.StartedRecordsFirstOnlyWhenIdle` | src/platform_impl/linux/x11/event_processor.rs:1388-1406 | a new contact is counted and becomes the first one exactly when no contact was in progress |
| `TouchTracker.EndClearsOnlyItsOwnContact` | src/platform_impl/linux/x11/event_processor.rs:1388-1406 | an ending contact is uncounted and clears the first contact only if it is that contact |
| `TouchTracker.MovedChangesNothing` | src/platform_impl/linux/x11/event_processor.rs:1388-1406 | a moving contact leaves the tracker as it was |
| `TouchTracker.AnswerIsFirstContact` | src/platform_impl/linux/x11/event_processor.rs:1388-1406 | the answer is whether the contact is the first one afterwards |
| `TouchTracker.StepTracks` | src/platform_impl/linux/x11/event_processor.rs:1388-1406 | one plausible touch event keeps the count equal to the contacts in progress, with the first contact among them |
| `TouchTracker.RunTracks` | src/platform_impl/linux/x11/event_processor.rs:1388-1406 | over any plausible stream of touch events the count never underflows and tracks the contacts in progress |
| `TouchTracker.TwoContacts` | src/platform_impl/linux/x11/event_processor.rs:1004-1034 | the first of two contacts drives the cursor; ending it leaves none in charge |
| `Keyboard.PressOfRepeatingKey` | src/platform_impl/linux/x11/event_processor.rs:577-594 | pressing a repeatable key makes it the held key and is a repeat exactly when it was held already |
| `Keyboard.ReleaseOfRepeatingKey` | src/platform_impl/linux/x11/event_processor.rs:577-594 | releasing the held key clears the slot; releasing another key leaves it |
| `Keyboard.NonRepeatingKeyLeavesSlot` | src/platform_impl/linux/x11/event_processor.rs:577-594 | a key that does not repeat leaves the held key and is never a repeat |
| `Keyboard.OnlyHeldKeyRepeats` | src/platform_impl/linux/x11/event_processor.rs:577-594 | a repeat is reported exactly for a press of the held repeatable key |
| `Keyboard.HeldKeyIsDown` | src/platform_impl/linux/x11/event_processor.rs:577-594 | over any stream of key events the held key is repeatable and down |
| `Keyboard.KeyInputGate` | src/platform_impl/linux/x11/event_processor.rs:602-612 | at most one `KeyboardInput`, present exactly when the keycode is nonzero and no composition runs |
| `Keyboard.SyntheticKeysAreValidKeys` | src/platform_impl/linux/x11/event_processor.rs:1356-1385 | one synthetic, non-repeat key event per keycode at or above the offset, in the key map's order |
| `Keyboard.ValidKeycodesInRange` | src/platform_impl/linux/x11/event_processor.rs:1356-1385 | the synthetic keycodes lie between the offset and 255 |
| `Keyboard.ModifiersNotificationGate` | src/platform_impl/linux/x11/event_processor.rs:1182-1206 | a `ModifiersChanged` goes out exactly when the modifiers changed and a window is active, and names that window |
| `Buttons.ButtonEventsFollowTable` | src/platform_impl/linux/x11/event_processor.rs:635-711 | a real button event yields the table's `MouseInput`, or nothing for the wheel numbers |
| `Buttons.WheelClicksAreSilent` | src/platform_impl/linux/x11/event_processor.rs:664-683 | buttons 4 to 7 never produce an event |
| `Buttons.TableIsUnambiguous` | src/platform_impl/linux/x11/event_processor.rs:635-711 | two numbers that map to the same named button are equal |
| `Buttons.OtherIsOutsideNamedRange` | src/platform_impl/linux/x11/event_processor.rs:703-710 | `Other` is used only outside 1 to 9 and carries the number truncated to 16 bits |
| `Valuators.SetBitsExact` | src/platform_impl/linux/x11/event_processor.rs:753-758 | the walk visits exactly the set bits of the mask, in strictly increasing order |
| `Valuators.WalkPairsRanks` | src/platform_impl/linux/x11/event_processor.rs:752-802 | the k-th value goes to the k-th set bit, and the walk completes exactly when there are enough values |
| `Valuators.WalkValuators` | src/platform_impl/linux/x11/event_processor.rs:752-802 | the loop over the mask yields `WalkOf` |
| `Xdnd.HasMoreTypesIsBitZero` | src/platform_impl/linux/x11/event_processor.rs:166-178 | the flag test as written is the test of bit 0 |
| `Xdnd.EnterRecordsVersionAndTypes` | src/platform_impl/linux/x11/event_processor.rs:166-178 | Enter records the version from the top byte, and the inline types or the queried list; source and result stay |
| `Xdnd.RejectedPositionResets` | src/platform_impl/linux/x11/event_processor.rs:179-239 | a position over types without `text/uri-list` is refused and ends the session |
| `Xdnd.AcceptedPositionRecordsSource` | src/platform_impl/linux/x11/event_processor.rs:179-239 | an accepted position records the source, requests the data only while none is cached, and replies `Accepted` |
| `Xdnd.DropFinishes` | src/platform_impl/linux/x11/event_processor.rs:240-263 | a drop ends the session with one XdndFinished: `Accepted` to the recorded source, or `Rejected` to the drop message's window |
| `Xdnd.DropDeliversCachedPaths` | src/platform_impl/linux/x11/event_processor.rs:240-263 | a drop delivers one `DroppedFile` per cached path, in order, only with a recorded source and a successful parse |
| `Xdnd.LeaveCancels` | src/platform_impl/linux/x11/event_processor.rs:264-270 | a leave resets the session and reports the hover cancelled |
| `Xdnd.SelectionCachesResult` | src/platform_impl/linux/x11/event_processor.rs:273-299 | the parse outcome is cached as it is, and each parsed path is reported hovered |
| `Xdnd.HandshakeWithoutData` | src/platform_impl/linux/x11/event_processor.rs:166-263 | Enter, Position and Drop with no data in between: one status `Accepted`, one XdndFinished `Accepted`, no file events, idle afterwards |
| `Xdnd.HandshakeWithData` | src/platform_impl/linux/x11/event_processor.rs:166-299 | with the data arriving before the drop, every parsed path is hovered and then dropped, in order |
| `WindowState.LookupOfLiveWindow` | src/platform_impl/linux/x11/event_processor.rs:76-98 | a live window's lookup yields its state and leaves the registry |
| `WindowState.LookupCollectsDeadEntry` | src/platform_impl/linux/x11/event_processor.rs:76-98 | a dead entry yields nothing and is removed |
| `WindowState.LookupIsLocal` | src/platform_impl/linux/x11/event_processor.rs:76-98 | a lookup succeeds exactly for live windows and touches no other entry |
| `WindowState.MaybeChangeStores` | src/platform_impl/linux/x11/event_processor.rs:723-740 | the cache holds the new value, the answer says whether it differed, and a repeat reports no change |
| `Geometry.ConfigureEventCounts` | src/platform_impl/linux/x11/event_processor.rs:301-474 | a notification yields at most one `Moved`, present exactly when the window moved, and at most one `Resized`, present exactly when the size changed or a scale-factor change forced a resize; with the scale factor unchanged, exactly when the size changed |
| `Geometry.ResizedIffSizeChanged` | src/platform_impl/linux/x11/event_processor.rs:319-345 | `resized` is set exactly when the cached size differs, and the cache holds the new size |
| `Geometry.SyntheticMovedIffInnerChanged` | src/platform_impl/linux/x11/event_processor.rs:319-345 | a synthetic notification moves the window exactly when the inner position changed |
| `Geometry.RealNotificationNeverMoves` | src/platform_impl/linux/x11/event_processor.rs:319-345 | a real notification never moves the window; a new parent-relative position only drops the frame extents |
| `Geometry.OuterPositionReuse` | src/platform_impl/linux/x11/event_processor.rs:350-378 | a cached outer position is reused unless the window moved; otherwise it is derived, cached and reported |
| `Geometry.ScaleForcesResizeOnlyOnChange` | src/platform_impl/linux/x11/event_processor.rs:382-447 | a forced resize comes only with a changed scale factor and a size the callback chose differently |
| `Geometry.SettleDpiClears` | src/platform_impl/linux/x11/event_processor.rs:455-462 | a pending DPI adjustment survives only on Xfwm4 while the size does not match |
| `Geometry.ReplayIsSilent` | src/platform_impl/linux/x11/event_processor.rs:301-474 | replaying a notification with the same answers reports nothing |
| `ImeBridge.StartBeginsComposition` | src/platform_impl/linux/x11/event_processor.rs:1308-1314 | Start sets composing and shows an empty preedit |
| `ImeBridge.CommitClearsPreeditThenCommits` | src/platform_impl/linux/x11/event_processor.rs:1326-1336 | Commit ends composing, clears the preedit, then commits the text |
| `ImeBridge.EndAndDisabledStopComposition` | src/platform_impl/linux/x11/event_processor.rs:1337-1351 | End and Disabled end composing |
| `ImeBridge.UpdateOnlyWhileComposing` | src/platform_impl/linux/x11/event_processor.rs:1315-1325 | an update shows the preedit with the cursor as an empty range, only while composing |
| `ImeBridge.AtMostOneOfEach` | src/platform_impl/linux/x11/event_processor.rs:1279-1353 | one call hands over at most one request and translates at most one bridge event; without an input method nothing happens |
| `ImeBridge.ComposingFollowsLastDelimiter` | src/platform_impl/linux/x11/event_processor.rs:1279-1353 | after any stream of bridge events, composing holds exactly when the last opening or closing event is Start |
| `Devices.InsertAllKeys` | src/platform_impl/linux/x11/event_processor.rs:65-74 | after `init_device` the table holds the old devices and every described one |
| `Devices.InsertAllLastWins` | src/platform_impl/linux/x11/event_processor.rs:65-74 | each described id maps to its last description |
| `Devices.InsertAllKeepsOthers` | src/platform_impl/linux/x11/event_processor.rs:65-74 | an id no description mentions keeps its device |
| `Devices.HierarchyNeedsBothBits` | src/platform_impl/linux/x11/event_processor.rs:1143-1167 | the flag tests ask for both bits of a pair; a single bit changes nothing |
| `Devices.RemovalDropsDevice` | src/platform_impl/linux/x11/event_processor.rs:1156-1165 | a removal reports the device, and the table afterwards is the old table without that device: every other entry is kept unchanged |
| `Devices.AdditionInitialisesDevice` | src/platform_impl/linux/x11/event_processor.rs:1148-1155 | an addition reports the device and adds what the server describes |
| `Devices.HierarchyEventsNameEntries` | src/platform_impl/linux/x11/event_processor.rs:1143-1167 | at most one Added or Removed per entry, each naming an entry's device |
| `Motion.MotionStepScrolls` | src/platform_impl/linux/x11/event_processor.rs:765-797 | a scroll valuator updates only its axis position and reports the move from the old value; any other valuator is an `AxisMotion` |
| `Motion.ScrollStepsChain` | src/platform_impl/linux/x11/event_processor.rs:765-797 | two reports of one scroll valuator chain up: the second starts where the first ended |
| `Motion.MotionAxesShape` | src/platform_impl/linux/x11/event_processor.rs:752-802 | one event per valuator in order, a wheel event exactly for scroll axes, and the device keeps its master and axes |
| `Motion.AxisValueOfReported` | src/platform_impl/linux/x11/event_processor.rs:1087-1093 | the summed-up axis holds the value reported for it, or 0 |
| `Motion.RawMotionReportsMouseMotion` | src/platform_impl/linux/x11/event_processor.rs:1058-1116 | every valuator is reported as `Motion`; the summary then holds mouse motion exactly when valuator 0 or 1 was nonzero, and a wheel movement exactly when valuator 2 or 3 was |
| `Motion.SummaryReportsWheel` | src/platform_impl/linux/x11/event_processor.rs:1108-1115 | the raw-motion summary holds a `MouseWheel` movement exactly when valuator 2 or 3 was reported nonzero |

## Left out

- `poll` and `poll_one_event` read from the X connection. They are I/O and are not modelled. The event arrives as a parameter.
- RandR screen-change notifications are not modelled: monitor enumeration and scale-factor recomputation for every window. XKB new-keyboard notifications are not modelled either: keymap reloading.
- The keymap library is not modelled: key translation, `process_key_event`, the keymap update of XkbStateNotify and the layout group. A key event carries only its keycode, repeat flag and state. The modifiers arrive already computed.
- Floating-point conversions are not modelled: FP1616 and FP3232 to `f64`, scroll deltas divided by the increment, and scale-factor arithmetic. Positions and axis values are integers taken as the server sends them, and a scroll event carries its start, end and increment.
- `set_timestamp` is not modelled, nor `update_listen_device_events` and `update_cached_wm_info`. They only configure the X connection.
- The input-method context calls are not modelled: focus, unfocus, `remove_context`, and the panics of their `expect`. The input method is represented only by the request and bridge event handed to one call.
- `reset_scroll_position` in XinputEnter is not modelled. It re-reads the device's scroll valuators from the server.
- Visibility tracking in the window's own `visibility_notify` is not modelled. Only the `Occluded` event is.
- Locks, reference counting, threads and re-entrancy of the callback are not modelled. The registry is a map whose entries are live states or dead references.
- `EventProcessor.events` and `sent` are two separate logs. The interleaving between callback events and server requests within one call is not recorded.
- `Device::new`, `DeviceInfo::get`, `read_data` and `parse_data` are server or system queries. Their answers come in `Env`.
- `MouseWheel` events carry no `phase` field. It is always `Moved` in the source.
- `TouchTracker.StepTracks`: the touch count is a `nat`. The source's `u32` count could wrap, but only after 2^32 contacts in progress.
- `Geometry.OuterPositionReuse`: the frame-extents heuristic and the conversion from inner to outer position are collaborator answers.
- `DispatchProperties.PanicOnlyOnValuatorShortage`: failed server and input-method requests are not modelled. In the source they panic through `expect`: the ping reply to the root window (event_processor.rs:165), `send_status` (event_processor.rs:230, 236), `send_finished` (261), `get_monitor_for_window` (396), and the input-method spot and allowed requests (1287, 1291). The model treats every request as sent: `sent` only grows, and the monitor query always answers.
