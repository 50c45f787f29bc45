/** The per-window shared state the event processor reads and updates, and the
    registry of windows through which it reaches that state. The registry holds
    weak references: an entry can outlive its window. */
module WindowState {
  import opened X11Types

  /** The window manager's frame around the client area. */
  datatype FrameExtents = FrameExtents(left: int, right: int, top: int, bottom: int)

  /** The monitor a window was last seen on; a "dummy" monitor is what the
      monitor query answers when it cannot tell. */
  datatype Monitor = Monitor(name: string, scaleFactor: real, isDummy: bool)

  /** The fields of a window's shared state that the event processor uses. */
  datatype SharedState = SharedState(
    size: Option<Size>,
    innerPosition: Option<Point>,
    innerPositionRelParent: Option<Point>,
    position: Option<Point>,
    frameExtents: Option<FrameExtents>,
    dpiAdjusted: Option<Size>,
    lastMonitor: Monitor,
    hasFocus: bool,
    cursorPos: Option<Point>)

  /** `util::maybe_change`: the cache holds `value` afterwards; the answer is
      whether it held something else before. */
  function MaybeChange<T(==)>(cache: Option<T>, value: T): (Option<T>, bool) {
    (Some(value), cache != Some(value))
  }

  /** A registry entry: the shared state of a live window, or a weak reference
      whose window has been dropped. */
  datatype WindowSlot = Alive(state: SharedState) | Gone

  type Registry = map<Window, WindowSlot>

  /** `with_window`: the shared state of `w` when it is alive. An entry whose
      window is gone is removed from the registry on the way (lazy collection). */
  function Lookup(reg: Registry, w: Window): (Registry, Option<SharedState>) {
    if w in reg then
      match reg[w]
      case Alive(st) => (reg, Some(st))
      case Gone => (reg - {w}, None)
    else (reg, None)
  }

  /** The registry after writing back the shared state of a live window. */
  function Store(reg: Registry, w: Window, st: SharedState): Registry {
    reg[w := Alive(st)]
  }

  lemma LookupOfLiveWindow(reg: Registry, w: Window)
    requires w in reg && reg[w].Alive?
    ensures Lookup(reg, w) == (reg, Some(reg[w].state))
  {
  }

  /** A present-but-dead entry is collected and the lookup yields nothing. */
  lemma LookupCollectsDeadEntry(reg: Registry, w: Window)
    requires w in reg && reg[w].Gone?
    ensures Lookup(reg, w).1 == None
    ensures w !in Lookup(reg, w).0
  {
  }

  /** A lookup touches no other entry, and finds something exactly when the
      window is alive. */
  lemma LookupIsLocal(reg: Registry, w: Window)
    ensures Lookup(reg, w).1.Some? <==> w in reg && reg[w].Alive?
    ensures forall v :: v != w ==> (v in Lookup(reg, w).0 <==> v in reg)
    ensures forall v :: v != w && v in reg ==> Lookup(reg, w).0[v] == reg[v]
  {
  }

  lemma MaybeChangeStores<T>(cache: Option<T>, value: T)
    ensures MaybeChange(cache, value).0 == Some(value)
    ensures MaybeChange(cache, value).1 <==> cache != Some(value)
    ensures !MaybeChange(MaybeChange(cache, value).0, value).1
  {
  }
}
