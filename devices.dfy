/** The processor's table of XInput2 devices: filled by `init_device` from the
    server's device description, pruned by hierarchy events. What the server
    answers to `DeviceInfo::get`, already turned into devices (`Device::new`),
    is an input. */
module Devices {
  import opened X11Types

  /** A scroll valuator: its direction, the value of one scroll step and the
      last value seen. */
  datatype ScrollAxis = ScrollAxis(orientation: ScrollOrientation, increment: AxisValue, position: AxisValue)

  /** The parts of a device the processor reads: the master device it is
      attached to, and its scroll valuators keyed by valuator number, in the
      order the server listed them. */
  datatype Device = Device(attachment: DeviceId, scrollAxes: seq<(nat, ScrollAxis)>)

  type DeviceMap = map<DeviceId, Device>

  /** The answer of `DeviceInfo::get` for each id that can be queried: the
      devices it describes, in order. An id that is absent is a failed query. */
  type DeviceQuery = map<DeviceId, seq<(DeviceId, Device)>>

  /** The ids a list of device descriptions mentions. */
  function Ids(infos: seq<(DeviceId, Device)>): set<DeviceId> {
    set k | 0 <= k < |infos| :: infos[k].0
  }

  /** Every described device inserted in turn; a later entry for the same id replaces an earlier one. */
  function InsertAll(devices: DeviceMap, infos: seq<(DeviceId, Device)>): DeviceMap
    decreases |infos|
  {
    if infos == [] then devices
    else
      var last := infos[|infos| - 1];
      InsertAll(devices, infos[..|infos| - 1])[last.0 := last.1]
  }

  /** `init_device`. */
  function InitDevice(devices: DeviceMap, query: DeviceQuery, id: DeviceId): DeviceMap {
    if id in query then InsertAll(devices, query[id]) else devices
  }

  lemma IdsSnoc(infos: seq<(DeviceId, Device)>)
    requires infos != []
    ensures Ids(infos) == Ids(infos[..|infos| - 1]) + {infos[|infos| - 1].0}
  {
    var n := |infos| - 1;
    var prefix := infos[..n];
    forall d | d in Ids(infos) ensures d in Ids(prefix) + {infos[n].0} {
      var k :| 0 <= k < |infos| && infos[k].0 == d;
      if k < n { assert prefix[k] == infos[k]; }
    }
    forall d | d in Ids(prefix) ensures d in Ids(infos) {
      var k :| 0 <= k < |prefix| && prefix[k].0 == d;
      assert infos[k] == prefix[k];
    }
  }

  /** After the insertions the table holds the old devices and the described ones. */
  lemma {:induction false} InsertAllKeys(devices: DeviceMap, infos: seq<(DeviceId, Device)>)
    ensures InsertAll(devices, infos).Keys == devices.Keys + Ids(infos)
    decreases |infos|
  {
    if infos != [] {
      InsertAllKeys(devices, infos[..|infos| - 1]);
      IdsSnoc(infos);
    }
  }

  /** Each described id maps to its last description. */
  lemma {:induction false} InsertAllLastWins(devices: DeviceMap, infos: seq<(DeviceId, Device)>, k: nat)
    requires k < |infos|
    requires forall l :: k < l < |infos| ==> infos[l].0 != infos[k].0
    ensures infos[k].0 in InsertAll(devices, infos)
    ensures InsertAll(devices, infos)[infos[k].0] == infos[k].1
    decreases |infos|
  {
    var n := |infos| - 1;
    if k < n {
      var prefix := infos[..n];
      assert prefix[k] == infos[k];
      forall l | k < l < |prefix| ensures prefix[l].0 != prefix[k].0 {
        assert prefix[l] == infos[l];
      }
      InsertAllLastWins(devices, prefix, k);
    }
  }

  /** An id no description mentions keeps its device. */
  lemma {:induction false} InsertAllKeepsOthers(devices: DeviceMap, infos: seq<(DeviceId, Device)>, d: DeviceId)
    requires d in devices && d !in Ids(infos)
    ensures d in InsertAll(devices, infos)
    ensures InsertAll(devices, infos)[d] == devices[d]
    decreases |infos|
  {
    if infos != [] {
      IdsSnoc(infos);
      InsertAllKeys(devices, infos[..|infos| - 1]);
      InsertAllKeepsOthers(devices, infos[..|infos| - 1], d);
    }
  }

  /** The bits of `xinput::HierarchyMask`. */
  const MASTER_ADDED: bv32 := 1
  const MASTER_REMOVED: bv32 := 2
  const SLAVE_ADDED: bv32 := 4
  const SLAVE_REMOVED: bv32 := 8

  datatype HierarchyInfo = HierarchyInfo(deviceid: DeviceId, flags: u32)

  /** `flags.contains(bits)`: every bit of `bits` is set. */
  predicate Contains(flags: u32, bits: bv32) {
    (flags as bv32) & bits == bits
  }

  /** One entry of an XI_HierarchyChanged event: the table afterwards and the events. */
  function HierarchyStep(devices: DeviceMap, query: DeviceQuery, info: HierarchyInfo): (DeviceMap, seq<Event>) {
    if Contains(info.flags, MASTER_ADDED | MASTER_REMOVED) then
      (InitDevice(devices, query, info.deviceid), [OnDevice(info.deviceid, Added)])
    else if Contains(info.flags, SLAVE_ADDED | SLAVE_REMOVED) then
      // the event goes out before the device leaves the table
      (devices - {info.deviceid}, [OnDevice(info.deviceid, Removed)])
    else
      (devices, [])
  }

  /** The entries of an XI_HierarchyChanged event, in order. */
  function Hierarchy(devices: DeviceMap, query: DeviceQuery, infos: seq<HierarchyInfo>): (DeviceMap, seq<Event>)
    decreases |infos|
  {
    if infos == [] then (devices, [])
    else
      var (before, events) := Hierarchy(devices, query, infos[..|infos| - 1]);
      var (after, more) := HierarchyStep(before, query, infos[|infos| - 1]);
      (after, events + more)
  }

  /** As written, the tests ask for both bits of a pair: an entry that only
      reports a master added (or only a slave removed) changes nothing. */
  lemma HierarchyNeedsBothBits(devices: DeviceMap, query: DeviceQuery, id: DeviceId, flags: u32)
    ensures Contains(flags, MASTER_ADDED | MASTER_REMOVED) <==> (flags as bv32) & 3 == 3
    ensures Contains(flags, SLAVE_ADDED | SLAVE_REMOVED) <==> (flags as bv32) & 12 == 12
    ensures flags == 1 || flags == 2 || flags == 4 || flags == 8 ==>
      HierarchyStep(devices, query, HierarchyInfo(id, flags)) == (devices, [])
  {
  }

  /** A removal announces the device and then drops it from the table, leaving the others. */
  lemma RemovalDropsDevice(devices: DeviceMap, query: DeviceQuery, info: HierarchyInfo)
    requires !Contains(info.flags, MASTER_ADDED | MASTER_REMOVED)
    requires Contains(info.flags, SLAVE_ADDED | SLAVE_REMOVED)
    ensures HierarchyStep(devices, query, info).1 == [OnDevice(info.deviceid, Removed)]
    ensures info.deviceid !in HierarchyStep(devices, query, info).0
    ensures forall d :: d in devices && d != info.deviceid ==> d in HierarchyStep(devices, query, info).0
    ensures HierarchyStep(devices, query, info).0 == devices - {info.deviceid}
  {
  }

  /** An addition announces the device and adds what the server describes. */
  lemma AdditionInitialisesDevice(devices: DeviceMap, query: DeviceQuery, info: HierarchyInfo)
    requires Contains(info.flags, MASTER_ADDED | MASTER_REMOVED)
    ensures HierarchyStep(devices, query, info).1 == [OnDevice(info.deviceid, Added)]
    ensures info.deviceid in query ==>
      HierarchyStep(devices, query, info).0.Keys == devices.Keys + Ids(query[info.deviceid])
    ensures info.deviceid !in query ==> HierarchyStep(devices, query, info).0 == devices
  {
    if info.deviceid in query {
      InsertAllKeys(devices, query[info.deviceid]);
    }
  }

  /** At most one event per entry, each naming the device of an entry. */
  lemma {:induction false} HierarchyEventsNameEntries(devices: DeviceMap, query: DeviceQuery, infos: seq<HierarchyInfo>)
    ensures |Hierarchy(devices, query, infos).1| <= |infos|
    ensures forall e <- Hierarchy(devices, query, infos).1 ::
      e.OnDevice? && (e.deviceEvent == Added || e.deviceEvent == Removed) &&
      exists k :: 0 <= k < |infos| && infos[k].deviceid == e.device
    decreases |infos|
  {
    if infos != [] {
      var n := |infos| - 1;
      HierarchyEventsNameEntries(devices, query, infos[..n]);
      forall k | 0 <= k < n ensures infos[..n][k] == infos[k] { }
    }
  }
}
