/** What the motion handlers make of the walked valuators. XI_Motion turns each
    value into a scroll step of the source device (when the valuator is one of
    its scroll axes) or into an `AxisMotion`; XI_RawMotion reports every value
    as a device `Motion`, then sums up axes 0-1 as mouse motion and 2-3 as a
    wheel movement. */
module Motion {
  import opened X11Types
  import opened Valuators
  import opened Devices

  /** The first scroll axis numbered `axis` (the iterator's `find`). */
  function FindAxis(axes: seq<(nat, ScrollAxis)>, axis: nat): (k: Option<nat>)
    ensures k.Some? ==> (k.value < |axes| && axes[k.value].0 == axis &&
      forall j :: 0 <= j < k.value ==> axes[j].0 != axis)
    ensures k.None? ==> forall j :: 0 <= j < |axes| ==> axes[j].0 != axis
    decreases |axes|
  {
    if axes == [] then None
    else if axes[0].0 == axis then Some(0)
    else
      match FindAxis(axes[1..], axis)
      case None => None
      case Some(k) => Some(k + 1)
  }

  /** One valuator of an XI_Motion event, for the source device `dev`; events
      name `device`, the event's own device. */
  function MotionStep(dev: Device, window: Window, device: DeviceId, axis: nat, x: AxisValue): (Device, Event) {
    match FindAxis(dev.scrollAxes, axis)
    case Some(k) =>
      var info := dev.scrollAxes[k].1;
      (dev.(scrollAxes := dev.scrollAxes[k := (axis, info.(position := x))]),
       OnWindow(window, MouseWheel(device, AxisScroll(info.orientation, info.position, x, info.increment))))
    case None =>
      (dev, OnWindow(window, AxisMotion(device, axis, x)))
  }

  /** The walked valuators in order: the device afterwards and the buffered events. */
  function MotionAxes(dev: Device, window: Window, device: DeviceId, axes: seq<(nat, AxisValue)>): (Device, seq<Event>)
    decreases |axes|
  {
    if axes == [] then (dev, [])
    else
      var (before, events) := MotionAxes(dev, window, device, axes[..|axes| - 1]);
      var (after, e) := MotionStep(before, window, device, axes[|axes| - 1].0, axes[|axes| - 1].1);
      (after, events + [e])
  }

  function AxisNumbers(axes: seq<(nat, ScrollAxis)>): seq<nat> {
    seq(|axes|, j requires 0 <= j < |axes| => axes[j].0)
  }

  /** A step updates only the position of the axis it scrolls: the device keeps
      its master and the numbering of its scroll axes, the axis remembers the
      new value, and the wheel event reports the move from the old one. */
  lemma MotionStepScrolls(dev: Device, window: Window, device: DeviceId, axis: nat, x: AxisValue)
    ensures var (after, e) := MotionStep(dev, window, device, axis, x);
      after.attachment == dev.attachment &&
      AxisNumbers(after.scrollAxes) == AxisNumbers(dev.scrollAxes) &&
      (axis in AxisNumbers(dev.scrollAxes) <==> e.windowEvent.MouseWheel?) &&
      (axis !in AxisNumbers(dev.scrollAxes) ==> after == dev && e == OnWindow(window, AxisMotion(device, axis, x))) &&
      (axis in AxisNumbers(dev.scrollAxes) ==>
        var k := FindAxis(dev.scrollAxes, axis).value;
        after.scrollAxes[k].1.position == x &&
        e == OnWindow(window, MouseWheel(device, AxisScroll(dev.scrollAxes[k].1.orientation, dev.scrollAxes[k].1.position, x, dev.scrollAxes[k].1.increment))))
  {
    var r := FindAxis(dev.scrollAxes, axis);
    if r.None? {
      assert axis !in AxisNumbers(dev.scrollAxes);
    } else {
      assert AxisNumbers(dev.scrollAxes)[r.value] == axis;
    }
  }

  /** Two reports of the same scroll valuator chain up: the second step starts
      where the first ended, so no scroll distance is lost or counted twice. */
  lemma ScrollStepsChain(dev: Device, window: Window, device: DeviceId, axis: nat, x: AxisValue, y: AxisValue)
    requires axis in AxisNumbers(dev.scrollAxes)
    ensures var (mid, e1) := MotionStep(dev, window, device, axis, x);
      var (_, e2) := MotionStep(mid, window, device, axis, y);
      e1.windowEvent.MouseWheel? && e2.windowEvent.MouseWheel? &&
      e2.windowEvent.delta.from == e1.windowEvent.delta.to == x &&
      e2.windowEvent.delta.to == y
  {
    MotionStepScrolls(dev, window, device, axis, x);
    var (mid, _) := MotionStep(dev, window, device, axis, x);
    MotionStepScrolls(mid, window, device, axis, y);
  }

  /** One event per walked valuator, in order; the device keeps its master and
      its scroll axes' numbering, and the k-th event is a wheel event exactly
      when the k-th valuator is a scroll axis of the device. */
  lemma {:induction false} MotionAxesShape(dev: Device, window: Window, device: DeviceId, axes: seq<(nat, AxisValue)>)
    ensures var (after, events) := MotionAxes(dev, window, device, axes);
      |events| == |axes| &&
      after.attachment == dev.attachment &&
      AxisNumbers(after.scrollAxes) == AxisNumbers(dev.scrollAxes) &&
      forall k :: 0 <= k < |axes| ==>
        events[k].OnWindow? && events[k].window == window &&
        (events[k].windowEvent.MouseWheel? <==> axes[k].0 in AxisNumbers(dev.scrollAxes)) &&
        (!events[k].windowEvent.MouseWheel? ==> events[k].windowEvent == AxisMotion(device, axes[k].0, axes[k].1))
    decreases |axes|
  {
    if axes != [] {
      var n := |axes| - 1;
      MotionAxesShape(dev, window, device, axes[..n]);
      var (before, _) := MotionAxes(dev, window, device, axes[..n]);
      MotionStepScrolls(before, window, device, axes[n].0, axes[n].1);
    }
  }

  /** The value the raw-motion loop holds for `axis` after the walk: the last
      value reported for it, 0 when none is. */
  function AxisValueOf(axes: seq<(nat, AxisValue)>, axis: nat): AxisValue
    decreases |axes|
  {
    if axes == [] then 0
    else if axes[|axes| - 1].0 == axis then axes[|axes| - 1].1
    else AxisValueOf(axes[..|axes| - 1], axis)
  }

  /** Valuator numbers strictly increasing, as the walk yields them. */
  predicate Increasing(axes: seq<(nat, AxisValue)>) {
    forall k, l :: 0 <= k < l < |axes| ==> axes[k].0 < axes[l].0
  }

  /** With each valuator reported at most once, the value held for an axis is
      the one reported for it, or 0. */
  lemma {:induction false} AxisValueOfReported(axes: seq<(nat, AxisValue)>, axis: nat)
    requires Increasing(axes)
    ensures forall k :: 0 <= k < |axes| && axes[k].0 == axis ==> AxisValueOf(axes, axis) == axes[k].1
    ensures (forall k :: 0 <= k < |axes| ==> axes[k].0 != axis) ==> AxisValueOf(axes, axis) == 0
    decreases |axes|
  {
    if axes != [] {
      var n := |axes| - 1;
      var prefix := axes[..n];
      assert Increasing(prefix) by {
        forall k, l | 0 <= k < l < |prefix| ensures prefix[k].0 < prefix[l].0 {
          assert prefix[k] == axes[k] && prefix[l] == axes[l];
        }
      }
      AxisValueOfReported(prefix, axis);
      forall k | 0 <= k < n ensures prefix[k] == axes[k] { }
    }
  }

  /** The device `Motion` events of the raw walk, one per valuator. */
  function Motions(device: DeviceId, axes: seq<(nat, AxisValue)>): seq<Event> {
    seq(|axes|, k requires 0 <= k < |axes| => OnDevice(device, DeviceEvent.Motion(axes[k].0, axes[k].1)))
  }

  /** The summary after a complete walk: mouse motion from axes 0 and 1, a wheel
      movement from axes 2 and 3, each only when not both zero. */
  function RawSummary(device: DeviceId, axes: seq<(nat, AxisValue)>): seq<Event> {
    var dx, dy := AxisValueOf(axes, 0), AxisValueOf(axes, 1);
    var sx, sy := AxisValueOf(axes, 2), AxisValueOf(axes, 3);
    (if dx != 0 || dy != 0 then [OnDevice(device, MouseMotion(dx, dy))] else []) +
    (if sx != 0 || sy != 0 then [OnDevice(device, RawMouseWheel(sx, sy))] else [])
  }

  /** Everything an XI_RawMotion event delivers; a walk cut short by a missing
      value has delivered its `Motion` events before the panic, and no summary. */
  function RawMotionEvents(device: DeviceId, w: Walk): seq<Event> {
    Motions(device, w.axes) + (if w.complete then RawSummary(device, w.axes) else [])
  }

  /** The summary holds a wheel movement exactly when valuator 2 or 3 was reported
      with a non-zero value. */
  lemma SummaryReportsWheel(device: DeviceId, axes: seq<(nat, AxisValue)>)
    requires Increasing(axes)
    ensures (exists e <- RawSummary(device, axes) :: e.deviceEvent.RawMouseWheel?) <==>
      exists k :: 0 <= k < |axes| && axes[k].0 in {2, 3} && axes[k].1 != 0
  {
    AxisValueOfReported(axes, 2);
    AxisValueOfReported(axes, 3);
  }

  /** For a complete walk: every set valuator is reported as `Motion`, then mouse
      motion exactly when valuator 0 or 1 was set to a non-zero value, and a wheel
      movement exactly when valuator 2 or 3 was. */
  lemma RawMotionReportsMouseMotion(device: DeviceId, mask: seq<u8>, values: seq<AxisValue>)
    requires |SetBits(mask)| <= |values|
    ensures var w := WalkOf(mask, values);
      var events := RawMotionEvents(device, w);
      events[..|w.axes|] == Motions(device, w.axes) &&
      (|events| > |w.axes| && events[|w.axes|].deviceEvent.MouseMotion? <==>
        exists k :: 0 <= k < |w.axes| && w.axes[k].0 in {0, 1} && w.axes[k].1 != 0)
    ensures var w := WalkOf(mask, values);
      var events := RawMotionEvents(device, w);
      (exists e <- events[|w.axes|..] :: e.deviceEvent.RawMouseWheel?) <==>
        exists k :: 0 <= k < |w.axes| && w.axes[k].0 in {2, 3} && w.axes[k].1 != 0
  {
    var w := WalkOf(mask, values);
    WalkPairsRanks(mask, values);
    SetBitsExact(mask, |mask| * 8);
    assert Increasing(w.axes);
    AxisValueOfReported(w.axes, 0);
    AxisValueOfReported(w.axes, 1);
    SummaryReportsWheel(device, w.axes);
    var events := RawMotionEvents(device, w);
    assert events[..|w.axes|] == Motions(device, w.axes);
    assert events[|w.axes|..] == RawSummary(device, w.axes);
  }
}
