/** The reconciliation of a ConfigureNotify with a window's cached geometry:
    which of `Moved`, `ScaleFactorChanged` and `Resized` to emit, and what the
    caches hold afterwards. The frame-extents heuristic, `inner_pos_to_outer`,
    the monitor query, `adjust_for_dpi`, the size the `ScaleFactorChanged`
    callback writes back and the "window manager is Xfwm4" test are inputs. */
module Geometry {
  import opened X11Types
  import opened WindowState

  datatype ConfigureEvent = ConfigureEvent(window: Window, responseType: u8, x: int, y: int, width: u16, height: u16)

  /** What the collaborators answer while one notification is handled. */
  datatype GeometryEnv = GeometryEnv(
    frameExtents: FrameExtents,
    toOuter: (FrameExtents, Point) -> Point,
    monitor: Monitor,
    dpiSize: Size,
    chosenSize: Option<Size>,
    wmIsXfwm4: bool)

  datatype Outcome = Outcome(state: SharedState, events: seq<Event>, sent: seq<Request>)

  /** The flag exactly as the handler computes it: bit 0x80 of the response type
      clear. Positions of notifications with the flag are taken as relative to
      the root window, the others as relative to the parent (ICCCM section 4.1.5). */
  predicate IsSynthetic(responseType: u8) {
    (responseType / 0x80) % 2 == 0
  }

  function NewSize(ev: ConfigureEvent): Size {
    Size(ev.width, ev.height)
  }

  function NewPosition(ev: ConfigureEvent): Point {
    Point(ev.x, ev.y)
  }

  /** The size and position caches, and whether the window resized and moved. */
  function UpdateCaches(st: SharedState, ev: ConfigureEvent): (SharedState, bool, bool) {
    var (size, resized) := MaybeChange(st.size, NewSize(ev));
    var st1 := st.(size := size);
    if IsSynthetic(ev.responseType) then
      var (inner, moved) := MaybeChange(st1.innerPosition, NewPosition(ev));
      (st1.(innerPosition := inner), resized, moved)
    else
      var (relParent, changed) := MaybeChange(st1.innerPositionRelParent, NewPosition(ev));
      if changed then
        // the next synthetic notification is then taken as a move, with fresh frame extents
        (st1.(innerPositionRelParent := relParent, innerPosition := None, frameExtents := None), resized, false)
      else
        (st1, resized, false)
  }

  /** The outer position: the cached one unless the window moved (or none is
      cached), else derived from the frame extents, which are queried when none
      are cached. */
  function OuterPosition(st: SharedState, window: Window, inner: Point, moved: bool, env: GeometryEnv): (SharedState, Point, seq<Event>) {
    if st.position.Some? && !moved then
      (st, st.position.value, [])
    else
      var extents := if st.frameExtents.Some? then st.frameExtents.value else env.frameExtents;
      var outer := env.toOuter(extents, inner);
      (st.(frameExtents := Some(extents), position := Some(outer)), outer, if moved then [OnWindow(window, WindowEvent.Moved(outer))] else [])
  }

  /** A change of the monitor's scale factor (synthetic notifications only):
      the new caches, whether a resize is forced, the events and the requests. */
  function ScaleStep(st: SharedState, window: Window, newSize: Size, env: GeometryEnv): (SharedState, bool, seq<Event>, seq<Request>) {
    var current := st.dpiAdjusted.GetOr(newSize);
    var last := st.lastMonitor.scaleFactor;
    // a dummy monitor neither replaces the cached one nor changes the scale factor
    var st1 := if env.monitor.isDummy then st else st.(lastMonitor := env.monitor);
    var scale := if env.monitor.isDummy then last else env.monitor.scaleFactor;
    if last == scale then
      (st1, false, [], [])
    else
      var changed := [OnWindow(window, ScaleFactorChanged(scale, env.dpiSize))];
      var chosen := env.chosenSize.GetOr(env.dpiSize);
      if chosen != current then
        (st1.(dpiAdjusted := Some(chosen)), true, changed, [RequestInnerSize(window, chosen)])
      else
        (st1, false, changed, [])
  }

  /** A pending DPI adjustment ends, unless the window manager is Xfwm4 and the
      notified size does not match it yet, in which case the resize is asked again. */
  function SettleDpi(st: SharedState, window: Window, newSize: Size, env: GeometryEnv): (SharedState, seq<Request>) {
    match st.dpiAdjusted
    case None => (st, [])
    case Some(adjusted) =>
      if newSize == adjusted || !env.wmIsXfwm4 then (st.(dpiAdjusted := None), [])
      else (st, [RequestInnerSize(window, adjusted)])
  }

  /** The whole ConfigureNotify handler for a live window. */
  function Configure(st: SharedState, ev: ConfigureEvent, env: GeometryEnv): Outcome {
    var (st1, resized, moved) := UpdateCaches(st, ev);
    var (st2, outer, movedEvents) := OuterPosition(st1, ev.window, NewPosition(ev), moved, env);
    var (st3, forced, scaleEvents, scaleRequests) :=
      if IsSynthetic(ev.responseType) then ScaleStep(st2, ev.window, NewSize(ev), env) else (st2, false, [], []);
    var (st4, settleRequests) := SettleDpi(st3, ev.window, NewSize(ev), env);
    Outcome(st4,
            movedEvents + scaleEvents + (if resized || forced then [OnWindow(ev.window, Resized(NewSize(ev)))] else []),
            scaleRequests + settleRequests)
  }

  /** The scale factor stays what it was: the notification is not synthetic,
      or the monitor is a dummy or has the cached scale factor. */
  predicate ScaleUnchanged(st: SharedState, ev: ConfigureEvent, env: GeometryEnv) {
    !IsSynthetic(ev.responseType) || env.monitor.isDummy || env.monitor.scaleFactor == st.lastMonitor.scaleFactor
  }

  function CountResized(events: seq<Event>): nat {
    if events == [] then 0
    else (if events[0].OnWindow? && events[0].windowEvent.Resized? then 1 else 0) + CountResized(events[1..])
  }

  function CountMoved(events: seq<Event>): nat {
    if events == [] then 0
    else (if events[0].OnWindow? && events[0].windowEvent.Moved? then 1 else 0) + CountMoved(events[1..])
  }

  lemma {:induction false} CountsDistribute(a: seq<Event>, b: seq<Event>)
    ensures CountResized(a + b) == CountResized(a) + CountResized(b)
    ensures CountMoved(a + b) == CountMoved(a) + CountMoved(b)
    decreases |a|
  {
    if a != [] {
      assert (a + b)[0] == a[0];
      assert (a + b)[1..] == a[1..] + b;
      CountsDistribute(a[1..], b);
    } else {
      assert a + b == b;
    }
  }

  /** The events of a notification, taken apart: Moved events, then the scale
      change, then Resized: at most one Moved and at most one Resized. */
  lemma {:induction false} ConfigureEventCounts(st: SharedState, ev: ConfigureEvent, env: GeometryEnv)
    ensures var (st1, resized, moved) := UpdateCaches(st, ev);
      CountMoved(Configure(st, ev, env).events) == (if moved then 1 else 0) &&
      (ScaleUnchanged(st1, ev, env) ==>
        CountResized(Configure(st, ev, env).events) == (if resized then 1 else 0))
    ensures var (st1, resized, moved) := UpdateCaches(st, ev);
      var st2 := OuterPosition(st1, ev.window, NewPosition(ev), moved, env).0;
      var forced := IsSynthetic(ev.responseType) && ScaleStep(st2, ev.window, NewSize(ev), env).1;
      CountResized(Configure(st, ev, env).events) == (if resized || forced then 1 else 0)
  {
    var (st1, resized, moved) := UpdateCaches(st, ev);
    var (st2, outer, movedEvents) := OuterPosition(st1, ev.window, NewPosition(ev), moved, env);
    var (st3, forced, scaleEvents, scaleRequests) :=
      if IsSynthetic(ev.responseType) then ScaleStep(st2, ev.window, NewSize(ev), env) else (st2, false, [], []);
    var resizedEvents := if resized || forced then [OnWindow(ev.window, Resized(NewSize(ev)))] else [];
    assert st2.lastMonitor == st1.lastMonitor;
    CountsDistribute(movedEvents, scaleEvents);
    CountsDistribute(movedEvents + scaleEvents, resizedEvents);
    assert CountResized(movedEvents) == 0 && CountMoved(scaleEvents) == 0 && CountResized(scaleEvents) == 0;
    assert CountMoved(resizedEvents) == 0;
  }

  /** `resized` is set exactly when the size changed. */
  lemma ResizedIffSizeChanged(st: SharedState, ev: ConfigureEvent)
    ensures UpdateCaches(st, ev).1 <==> st.size != Some(NewSize(ev))
    ensures UpdateCaches(st, ev).0.size == Some(NewSize(ev))
  {
  }

  /** A synthetic notification moves the window exactly when its inner position
      changed, and the Moved event carries the newly derived outer position. */
  lemma SyntheticMovedIffInnerChanged(st: SharedState, ev: ConfigureEvent, env: GeometryEnv)
    requires IsSynthetic(ev.responseType)
    ensures UpdateCaches(st, ev).2 <==> st.innerPosition != Some(NewPosition(ev))
    ensures UpdateCaches(st, ev).0.innerPosition == Some(NewPosition(ev))
    ensures var (st1, _, moved) := UpdateCaches(st, ev);
      var (st2, outer, events) := OuterPosition(st1, ev.window, NewPosition(ev), moved, env);
      moved ==> events == [OnWindow(ev.window, WindowEvent.Moved(outer))] && st2.position == Some(outer)
  {
  }

  /** A real notification never moves the window; a new parent-relative position
      drops the cached inner position and frame extents. */
  lemma RealNotificationNeverMoves(st: SharedState, ev: ConfigureEvent)
    requires !IsSynthetic(ev.responseType)
    ensures !UpdateCaches(st, ev).2
    ensures UpdateCaches(st, ev).0.innerPositionRelParent == Some(NewPosition(ev))
    ensures st.innerPositionRelParent != Some(NewPosition(ev)) ==>
      UpdateCaches(st, ev).0.innerPosition == None && UpdateCaches(st, ev).0.frameExtents == None
    ensures st.innerPositionRelParent == Some(NewPosition(ev)) ==>
      UpdateCaches(st, ev).0 == st.(size := Some(NewSize(ev)))
  {
  }

  /** A cached outer position is reused unless the window moved; a derived one
      uses cached frame extents, or fresh ones that are then cached. */
  lemma OuterPositionReuse(st: SharedState, window: Window, inner: Point, moved: bool, env: GeometryEnv)
    ensures var (st2, outer, events) := OuterPosition(st, window, inner, moved, env);
      st2.position == Some(outer) &&
      (st.position.Some? && !moved ==> st2 == st && outer == st.position.value && events == []) &&
      (st.position.None? || moved ==>
        st2.frameExtents.Some? && outer == env.toOuter(st2.frameExtents.value, inner) &&
        (st.frameExtents.Some? ==> st2.frameExtents == st.frameExtents))
  {
  }

  /** A forced resize comes only with a new scale factor and a size the callback
      left different from the current one; then the new size is requested. */
  lemma ScaleForcesResizeOnlyOnChange(st: SharedState, window: Window, newSize: Size, env: GeometryEnv)
    ensures var (st1, forced, events, sent) := ScaleStep(st, window, newSize, env);
      (forced <==> !env.monitor.isDummy && env.monitor.scaleFactor != st.lastMonitor.scaleFactor &&
                   env.chosenSize.GetOr(env.dpiSize) != st.dpiAdjusted.GetOr(newSize)) &&
      (forced ==> sent == [RequestInnerSize(window, env.chosenSize.GetOr(env.dpiSize))]) &&
      (events != [] <==> !env.monitor.isDummy && env.monitor.scaleFactor != st.lastMonitor.scaleFactor)
  {
  }

  /** The pending adjustment survives only on Xfwm4 while the size does not match. */
  lemma SettleDpiClears(st: SharedState, window: Window, newSize: Size, env: GeometryEnv)
    ensures var (st1, sent) := SettleDpi(st, window, newSize, env);
      (st1.dpiAdjusted.Some? <==> st.dpiAdjusted.Some? && newSize != st.dpiAdjusted.value && env.wmIsXfwm4) &&
      (sent != [] <==> st1.dpiAdjusted.Some?) &&
      st1 == st.(dpiAdjusted := st1.dpiAdjusted)
  {
  }

  /** Replaying a notification, with the same answers from the collaborators,
      emits nothing: the caches already hold its values and the scale factor
      was recorded the first time. */
  lemma {:induction false} ReplayIsSilent(st: SharedState, ev: ConfigureEvent, env: GeometryEnv)
    ensures Configure(Configure(st, ev, env).state, ev, env).events == []
  {
    var first := Configure(st, ev, env).state;
    assert first.size == Some(NewSize(ev));
    assert first.position.Some?;
    assert IsSynthetic(ev.responseType) ==> first.innerPosition == Some(NewPosition(ev));
    assert !IsSynthetic(ev.responseType) ==> first.innerPositionRelParent == Some(NewPosition(ev));
    assert IsSynthetic(ev.responseType) && !env.monitor.isDummy ==> first.lastMonitor == env.monitor;
  }
}
