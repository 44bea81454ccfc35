/**
 * One hotplug session driven through the monitor's operations, with concrete IORegistry
 * handles: a device already present at start-up, a noisy attach batch, and a device node
 * that disappears without a termination notification.
 */
module Session {
  import opened Wrappers
  import opened Device
  import opened Monitor

  const PathA: string := "/dev/cu.usbserial1"
  const PathB: string := "/dev/cu.usbmodem2"

  /** An FTDI adapter reporting its vendor name, and a bare CDC device. */
  const HandleA: Handle := Entry(map[CalloutDeviceKey := Str(PathA), VendorNameKey := Str("FTDI")])
  const HandleB: Handle := Entry(map[CalloutDeviceKey := Str(PathB)])

  const DeviceA: SerialDevice := SerialDevice(PathA, DefaultName, Some("FTDI"), None, None, 10)
  const DeviceB: SerialDevice := SerialDevice(PathB, DefaultName, None, None, None, 20)

  /** Both handles parse; missing name and IDs take their defaults. */
  lemma SessionParses()
    ensures ParseDevice(HandleA, 10) == Some(DeviceA)
    ensures ParseDevice(HandleA, 20).Some? && ParseDevice(HandleA, 20).value.path == PathA
    ensures ParseDevice(HandleB, 20) == Some(DeviceB)
  {
    assert CalloutPrefix <= PathA && CalloutPrefix <= PathB;
  }

  /** Seeding stops at the first empty handle, so only the first device is tracked. */
  lemma SessionSeed()
    ensures Seed(map[], Drained([HandleA, NoHandle, HandleB]), 10) == map[PathA := DeviceA]
  {
    SessionParses();
    DrainedAtExit([HandleA, NoHandle, HandleB], 1);
    assert [HandleA, NoHandle, HandleB][..1] == [HandleA];
    assert [HandleA][..0] == [];
  }

  /** A batch naming the tracked device again and the new one twice reports the new one once. */
  lemma SessionAttach()
    ensures AttachAll(map[PathA := DeviceA], Drained([HandleA, HandleB, HandleB]), 20)
         == Step(map[PathA := DeviceA, PathB := DeviceB], [Attached(DeviceB)])
  {
    SessionParses();
    var batch := [HandleA, HandleB, HandleB];
    DrainedAtExit(batch, 3);
    assert batch[..3] == batch;
    assert batch[..2] == [HandleA, HandleB] && [HandleA, HandleB][..1] == [HandleA] && [HandleA][..0] == [];
    var seeded := map[PathA := DeviceA];
    assert AttachAll(seeded, [HandleA], 20) == Step(seeded, []);
    assert AttachAll(seeded, [HandleA, HandleB], 20) == Step(seeded[PathB := DeviceB], [Attached(DeviceB)]);
  }

  /** Over a fresh snapshot of both devices, with only the second device's node on disk, the
      sweep keeps the second device and queues exactly one `Detached` event, for the first. */
  lemma SessionSweep(reg: Registry, snapshot: seq<SerialDevice>)
    requires reg == map[PathA := DeviceA, PathB := DeviceB]
    requires IsSnapshot(snapshot, reg)
    ensures SweepAll(reg, snapshot, {PathB}).devices == map[PathB := DeviceB]
    ensures SweepAll(reg, snapshot, {PathB}).events == [Detached(PathA)]
  {
    FreshSweepDevices(reg, snapshot, {PathB});
    FreshSweepEvents(reg, snapshot, {PathB});
    SessionSurvivors(reg);
    DetachedOnceSingle(SweepAll(reg, snapshot, {PathB}).events, PathA);
  }

  /** The registry left when only the second device's node exists. */
  lemma SessionSurvivors(reg: Registry)
    requires reg == map[PathA := DeviceA, PathB := DeviceB]
    ensures (map p | p in reg && p in {PathB} :: reg[p]) == map[PathB := DeviceB]
    ensures reg.Keys - {PathB} == {PathA}
  {
    assert PathA != PathB;
  }

  /** Start-up with the first device present, then the noisy attach batch. */
  method AttachedSession() returns (m: SerialMonitor)
    ensures fresh(m) && m.Valid() && m.isMonitoring && m.periodicScanScheduled
    ensures m.connectedDevices == map[PathA := DeviceA, PathB := DeviceB]
    ensures m.pending == [Attached(DeviceB)] && m.delivered == []
  {
    m := new SerialMonitor();
    m.StartMonitoring(Registered(1), Registered(2), [HandleA, NoHandle, HandleB], 10);
    SessionSeed();
    assert m.connectedDevices == map[PathA := DeviceA] && m.pending == [];
    m.DeviceAttachedCallback([HandleA, HandleB, HandleB], 20);
    SessionAttach();
  }

  /**
   * The session end to end: the consumer sees the new device attach and the vanished one
   * detach, in that order, and only the new device stays tracked.
   */
  method HotplugSession() returns (log: seq<Event>, tracked: Registry)
    ensures log == [Attached(DeviceB), Detached(PathA)]
    ensures tracked == map[PathB := DeviceB]
  {
    var m := AttachedSession();
    ghost var before := m.connectedDevices;
    m.Tick({PathB});
    SessionSurvivors(before);
    DetachedOnceSingle(m.pending[1..], PathA);
    assert m.pending == [Attached(DeviceB), Detached(PathA)];

    m.DeliverNext();
    m.DeliverNext();
    log, tracked := m.delivered, m.connectedDevices;
  }
}
