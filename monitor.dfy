/**
 * The hotplug tracker of MoPort/SerialMonitor.swift.
 *
 * IOKit is replaced by values: a device handle is the map of its registry
 * properties, an iterator batch is a sequence of handles that is drained up
 * to the first `NoHandle` (the `0` that `IOIteratorNext` returns at the end),
 * the registration results are inputs, and the filesystem is the set of
 * paths that exist. Every block sent to the main queue with
 * `DispatchQueue.main.async` is appended to `pending`; `DeliverNext` runs
 * the oldest one. The concurrent queue's `sync` reads and barrier writes are
 * immediate, in-order operations on `connectedDevices`.
 */
module Monitor {
  import opened Wrappers
  import opened Device

  // ---------------------------------------------------------------------
  // Device handles and their properties
  // ---------------------------------------------------------------------

  /** A registry property as the monitor casts it: a string (`as? String`) or an integer (`as? Int`). */
  datatype PropValue = Str(s: string) | Num(n: int)

  /** An `io_object_t`: `0`, or a registry entry with its properties. */
  datatype Handle = NoHandle | Entry(properties: map<string, PropValue>)

  const CalloutDeviceKey: string := "IOCalloutDevice"
  const TTYDeviceKey: string := "IOTTYDevice"
  const VendorNameKey: string := "USB Vendor Name"
  const VendorIDKey: string := "idVendor"
  const ProductIDKey: string := "idProduct"

  /** Only callout device nodes are serial devices to the monitor. */
  const CalloutPrefix: string := "/dev/cu."

  /** `getIOStringProperty`: nothing for handle 0, for a missing key or for a non-string value. */
  function GetIOStringProperty(h: Handle, key: string): (r: Option<string>)
    ensures r.Some? <==> h.Entry? && key in h.properties && h.properties[key].Str?
    ensures r.Some? ==> h.properties[key] == Str(r.value)
  {
    match h
    case NoHandle => None
    case Entry(props) =>
      if key !in props then None
      else match props[key]
        case Str(s) => Some(s)
        case Num(_) => None
  }

  /** `getIOIntProperty`: nothing for a missing key or a non-integer value (the registry
      has no properties for handle 0). */
  function GetIOIntProperty(h: Handle, key: string): (r: Option<int>)
    ensures r.Some? <==> h.Entry? && key in h.properties && h.properties[key].Num?
    ensures r.Some? ==> h.properties[key] == Num(r.value)
  {
    match h
    case NoHandle => None
    case Entry(props) =>
      if key !in props then None
      else match props[key]
        case Num(n) => Some(n)
        case Str(_) => None
  }

  /** The callout path test shared by `parseDevice` and the detach callback:
      the `IOCalloutDevice` string, when it starts with `/dev/cu.`. */
  function CalloutPath(h: Handle): Option<string> {
    var callout := GetIOStringProperty(h, CalloutDeviceKey);
    if callout.Some? && CalloutPrefix <= callout.value then callout else None
  }

  /**
   * `parseDevice`. The time stamp `now` stands for the `Date()` the initialiser takes.
   * The device is found exactly when the callout test passes, and carries that path.
   */
  function ParseDevice(h: Handle, now: int): (r: Option<SerialDevice>)
    ensures r.Some? <==> CalloutPath(h).Some?
    ensures r.Some? ==> CalloutPath(h) == Some(r.value.path) && r.value.connectedAt == now
  {
    match CalloutPath(h)
    case None => None
    case Some(path) =>
      Some(NewDevice(path,
                     GetIOStringProperty(h, TTYDeviceKey).GetOr(DefaultName),
                     GetIOStringProperty(h, VendorNameKey),
                     GetIOIntProperty(h, VendorIDKey),
                     GetIOIntProperty(h, ProductIDKey),
                     connectedAt := now))
  }

  /**
   * What `parseDevice` reads from the registry: a handle is a device exactly when its
   * callout property is a string starting with `/dev/cu.`, and then the path is that
   * string; the name falls back to "USB Serial", and a missing or mistyped vendor name,
   * vendor ID or product ID leaves that field empty without failing the parse.
   */
  lemma ParseDeviceReads(h: Handle, now: int)
    ensures var r := ParseDevice(h, now);
      && (r.Some? <==>
            h.Entry? && CalloutDeviceKey in h.properties && h.properties[CalloutDeviceKey].Str?
            && CalloutPrefix <= h.properties[CalloutDeviceKey].s)
      && (r.Some? ==>
            && r.value.path == h.properties[CalloutDeviceKey].s
            && r.value.name == (if TTYDeviceKey in h.properties && h.properties[TTYDeviceKey].Str?
                                then h.properties[TTYDeviceKey].s else "USB Serial")
            && (r.value.manufacturer.None? <==>
                  VendorNameKey !in h.properties || !h.properties[VendorNameKey].Str?)
            && (r.value.manufacturer.Some? ==> h.properties[VendorNameKey] == Str(r.value.manufacturer.value))
            && (r.value.vendorID.None? <==> VendorIDKey !in h.properties || !h.properties[VendorIDKey].Num?)
            && (r.value.vendorID.Some? ==> h.properties[VendorIDKey] == Num(r.value.vendorID.value))
            && (r.value.productID.None? <==> ProductIDKey !in h.properties || !h.properties[ProductIDKey].Num?)
            && (r.value.productID.Some? ==> h.properties[ProductIDKey] == Num(r.value.productID.value))
            && r.value.connectedAt == now)
  {
  }

  /** A handle that only reports a dial-in style `/dev/tty.` callout is not a device. */
  lemma TtyPathRejected(rest: string, props: map<string, PropValue>, now: int)
    ensures ParseDevice(Entry(props[CalloutDeviceKey := Str("/dev/tty." + rest)]), now).None?
  {
    var s := "/dev/tty." + rest;
    assert s[5] == 't' != CalloutPrefix[5];
  }

  // ---------------------------------------------------------------------
  // Draining an iterator
  // ---------------------------------------------------------------------

  /** The handles a `while IOIteratorNext(...) != 0` loop visits: everything before the first 0. */
  function Drained(batch: seq<Handle>): (r: seq<Handle>)
    ensures r <= batch
    ensures NoHandle !in r
    ensures |r| < |batch| ==> batch[|r|] == NoHandle
  {
    if batch == [] || batch[0] == NoHandle then []
    else [batch[0]] + Drained(batch[1..])
  }

  /** Where a drain loop stops, it has visited exactly `Drained(batch)`. */
  lemma DrainedAtExit(batch: seq<Handle>, i: nat)
    requires i <= |batch|
    requires forall j :: 0 <= j < i ==> batch[j] != NoHandle
    requires i == |batch| || batch[i] == NoHandle
    ensures batch[..i] == Drained(batch)
  {
    var r := Drained(batch);
    if |r| < i {
      assert false;
    } else if |r| > i {
      assert false;
    }
  }

  // ---------------------------------------------------------------------
  // Events and the registry
  // ---------------------------------------------------------------------

  /** What a block queued on the main queue hands to `onDeviceAttached` / `onDeviceDetached`. */
  datatype Event = Attached(device: SerialDevice) | Detached(path: string)

  function EventPath(e: Event): string {
    match e
    case Attached(d) => d.path
    case Detached(p) => p
  }

  /** `connectedDevices`: device path to device. */
  type Registry = map<string, SerialDevice>

  /** Every entry is filed under its own path, so no path has two entries. */
  ghost predicate Keyed(reg: Registry) {
    forall p :: p in reg ==> reg[p].path == p
  }

  /** The registry and the events queued after processing part of a batch. */
  datatype Step = Step(devices: Registry, events: seq<Event>)

  /** No two events name the same path. */
  ghost predicate DistinctPaths(events: seq<Event>) {
    forall i, j :: 0 <= i < j < |events| ==> EventPath(events[i]) != EventPath(events[j])
  }

  /** The callout paths of a batch. */
  function CalloutPaths(hs: seq<Handle>): set<string>
  {
    if hs == [] then {}
    else
      var front := CalloutPaths(hs[..|hs| - 1]);
      match CalloutPath(hs[|hs| - 1])
      case Some(p) => front + {p}
      case None => front
  }

  lemma {:induction false} CalloutPathsMembers(hs: seq<Handle>, p: string)
    ensures p in CalloutPaths(hs) <==> exists i :: 0 <= i < |hs| && CalloutPath(hs[i]) == Some(p)
  {
    if hs != [] {
      var front := hs[..|hs| - 1];
      CalloutPathsMembers(front, p);
      if CalloutPath(hs[|hs| - 1]) != Some(p) {
        if p in CalloutPaths(hs) {
          var i :| 0 <= i < |front| && CalloutPath(front[i]) == Some(p);
          assert hs[i] == front[i];
        }
        if exists i :: 0 <= i < |hs| && CalloutPath(hs[i]) == Some(p) {
          var i :| 0 <= i < |hs| && CalloutPath(hs[i]) == Some(p);
          assert front[i] == hs[i];
        }
      }
    }
  }

  // --- Start-up seeding -------------------------------------------------

  /** The start-up seeding `scanExistingDevices` performs: every parsable handle is
      stored under its path by subscript assignment, overwriting. */
  function Seed(reg: Registry, hs: seq<Handle>, now: int): Registry
  {
    if hs == [] then reg
    else
      var prev := Seed(reg, hs[..|hs| - 1], now);
      match ParseDevice(hs[|hs| - 1], now)
      case Some(d) => prev[d.path := d]
      case None => prev
  }

  /** Seeding adds exactly the callout paths of the batch and leaves every other entry alone. */
  lemma {:induction false} SeedKeys(reg: Registry, hs: seq<Handle>, now: int)
    requires Keyed(reg)
    ensures Keyed(Seed(reg, hs, now))
    ensures Seed(reg, hs, now).Keys == reg.Keys + CalloutPaths(hs)
    ensures forall p :: p in reg && p !in CalloutPaths(hs) ==> Seed(reg, hs, now)[p] == reg[p]
  {
    if hs != [] {
      SeedKeys(reg, hs[..|hs| - 1], now);
    }
  }

  /** A seeded path holds the parse of the LAST handle in the batch that carries it. */
  lemma {:induction false} SeedLastWins(reg: Registry, hs: seq<Handle>, now: int, p: string)
    requires Keyed(reg)
    requires p in CalloutPaths(hs)
    ensures p in Seed(reg, hs, now)
    ensures exists i :: 0 <= i < |hs| && ParseDevice(hs[i], now) == Some(Seed(reg, hs, now)[p])
                        && forall j :: i < j < |hs| ==> CalloutPath(hs[j]) != Some(p)
  {
    SeedKeys(reg, hs, now);
    var front := hs[..|hs| - 1];
    var r := Seed(reg, hs, now);
    if CalloutPath(hs[|hs| - 1]) == Some(p) {
      assert ParseDevice(hs[|hs| - 1], now) == Some(r[p]);
    } else {
      SeedLastWins(reg, front, now, p);
      var i :| 0 <= i < |front| && ParseDevice(front[i], now) == Some(Seed(reg, front, now)[p])
               && forall j :: i < j < |front| ==> CalloutPath(front[j]) != Some(p);
      assert hs[i] == front[i];
      assert forall j :: i < j < |front| ==> hs[j] == front[j];
    }
  }

  // --- Attach batches ---------------------------------------------------

  /**
   * The attach callback's work on a drained batch: a parsed device whose path is already
   * tracked is dropped; otherwise it is added and one `Attached` event is queued.
   */
  function AttachAll(reg: Registry, hs: seq<Handle>, now: int): Step
  {
    if hs == [] then Step(reg, [])
    else
      var prev := AttachAll(reg, hs[..|hs| - 1], now);
      match ParseDevice(hs[|hs| - 1], now)
      case Some(d) =>
        if d.path in prev.devices then prev
        else Step(prev.devices[d.path := d], prev.events + [Attached(d)])
      case None => prev
  }

  /** An attach batch tracks the batch's callout paths in addition, and never changes an
      entry that was already tracked. */
  lemma {:induction false} AttachDevices(reg: Registry, hs: seq<Handle>, now: int)
    requires Keyed(reg)
    ensures Keyed(AttachAll(reg, hs, now).devices)
    ensures AttachAll(reg, hs, now).devices.Keys == reg.Keys + CalloutPaths(hs)
    ensures forall p :: p in reg ==> AttachAll(reg, hs, now).devices[p] == reg[p]
  {
    if hs != [] {
      AttachDevices(reg, hs[..|hs| - 1], now);
    }
  }

  /** Every queued `Attached` event carries a device of a path that was not tracked before
      and that is now tracked with exactly that device. */
  lemma {:induction false} AttachEventStored(reg: Registry, hs: seq<Handle>, now: int, i: nat)
    requires Keyed(reg)
    requires i < |AttachAll(reg, hs, now).events|
    ensures AttachAll(reg, hs, now).events[i].Attached?
    ensures AttachAll(reg, hs, now).events[i].device.path !in reg
    ensures AttachAll(reg, hs, now).events[i].device.path in AttachAll(reg, hs, now).devices
    ensures AttachAll(reg, hs, now).devices[AttachAll(reg, hs, now).events[i].device.path]
              == AttachAll(reg, hs, now).events[i].device
  {
    var front := hs[..|hs| - 1];
    var prev := AttachAll(reg, front, now);
    var r := AttachAll(reg, hs, now);
    AttachDevices(reg, front, now);
    if i < |prev.events| {
      AttachEventStored(reg, front, now, i);
      if r != prev {
        var d := ParseDevice(hs[|hs| - 1], now).value;
        assert r.events[i] == prev.events[i];
        assert prev.events[i].device.path != d.path;
      }
    }
  }

  /** No path is announced twice, even when the batch reports a device several times. */
  lemma {:induction false} AttachEventsDistinct(reg: Registry, hs: seq<Handle>, now: int)
    requires Keyed(reg)
    ensures DistinctPaths(AttachAll(reg, hs, now).events)
  {
    if hs != [] {
      var front := hs[..|hs| - 1];
      AttachEventsDistinct(reg, front, now);
      var prev := AttachAll(reg, front, now);
      var r := AttachAll(reg, hs, now);
      match ParseDevice(hs[|hs| - 1], now)
      case None =>
      case Some(d) =>
        if d.path !in prev.devices {
          assert r.events == prev.events + [Attached(d)];
          forall i | 0 <= i < |prev.events| ensures EventPath(prev.events[i]) != d.path {
            AttachEventStored(reg, front, now, i);
          }
        }
    }
  }

  /** Every newly tracked path is announced. */
  lemma {:induction false} AttachEventsCover(reg: Registry, hs: seq<Handle>, now: int, p: string)
    requires Keyed(reg)
    requires p in AttachAll(reg, hs, now).devices && p !in reg
    ensures exists i :: 0 <= i < |AttachAll(reg, hs, now).events| &&
                        EventPath(AttachAll(reg, hs, now).events[i]) == p
  {
    var front := hs[..|hs| - 1];
    var prev := AttachAll(reg, front, now);
    var r := AttachAll(reg, hs, now);
    if p in prev.devices {
      AttachEventsCover(reg, front, now, p);
      var i :| 0 <= i < |prev.events| && EventPath(prev.events[i]) == p;
      assert r.events[i] == prev.events[i];
    } else {
      assert EventPath(r.events[|r.events| - 1]) == p;
    }
  }

  /** A newly tracked path holds the parse of the FIRST handle in the batch that carries it. */
  lemma {:induction false} AttachFirstWins(reg: Registry, hs: seq<Handle>, now: int, p: string)
    requires Keyed(reg)
    requires p in AttachAll(reg, hs, now).devices && p !in reg
    ensures exists i :: 0 <= i < |hs| && ParseDevice(hs[i], now) == Some(AttachAll(reg, hs, now).devices[p])
                        && forall j :: 0 <= j < i ==> CalloutPath(hs[j]) != Some(p)
  {
    var front := hs[..|hs| - 1];
    var prev := AttachAll(reg, front, now);
    AttachDevices(reg, front, now);
    if p in prev.devices {
      AttachFirstWins(reg, front, now, p);
      var i :| 0 <= i < |front| && ParseDevice(front[i], now) == Some(prev.devices[p])
               && forall j :: 0 <= j < i ==> CalloutPath(front[j]) != Some(p);
      assert hs[i] == front[i];
      assert forall j :: 0 <= j < i ==> hs[j] == front[j];
    } else {
      forall j | 0 <= j < |front| ensures CalloutPath(hs[j]) != Some(p) {
        assert hs[j] == front[j];
        CalloutPathsMembers(front, p);
      }
    }
  }

  /** A batch that reports one device twice queues a single `Attached` event for it. */
  lemma AttachDuplicateOnce(h: Handle, now: int)
    requires ParseDevice(h, now).Some?
    ensures AttachAll(map[], [h, h], now).events == [Attached(ParseDevice(h, now).value)]
  {
    var d := ParseDevice(h, now).value;
    assert [h, h][..1] == [h];
    assert [h][..0] == [];
    assert AttachAll(map[], [h], now) == Step(map[d.path := d], [Attached(d)]);
  }

  // --- Detach batches ---------------------------------------------------

  /**
   * The detach callback's work on a drained batch: a handle with a `/dev/cu.` callout path
   * that is tracked is removed and one `Detached` event (with the removed device's path) is
   * queued; any other handle changes nothing.
   */
  function DetachAll(reg: Registry, hs: seq<Handle>): Step
  {
    if hs == [] then Step(reg, [])
    else
      var prev := DetachAll(reg, hs[..|hs| - 1]);
      match CalloutPath(hs[|hs| - 1])
      case Some(p) =>
        if p in prev.devices then Step(prev.devices - {p}, prev.events + [Detached(prev.devices[p].path)])
        else prev
      case None => prev
  }

  /** A detach batch untracks exactly the batch's callout paths and leaves every other entry alone. */
  lemma {:induction false} DetachDevices(reg: Registry, hs: seq<Handle>)
    requires Keyed(reg)
    ensures Keyed(DetachAll(reg, hs).devices)
    ensures DetachAll(reg, hs).devices.Keys == reg.Keys - CalloutPaths(hs)
    ensures forall p :: p in DetachAll(reg, hs).devices ==> DetachAll(reg, hs).devices[p] == reg[p]
  {
    if hs != [] {
      DetachDevices(reg, hs[..|hs| - 1]);
    }
  }

  /** Every queued `Detached` event names a path that was tracked and is no longer. */
  lemma {:induction false} DetachEventsRemoved(reg: Registry, hs: seq<Handle>)
    requires Keyed(reg)
    ensures var r := DetachAll(reg, hs);
      forall i :: 0 <= i < |r.events| ==>
        r.events[i].Detached? && r.events[i].path in reg && r.events[i].path !in r.devices
  {
    if hs != [] {
      DetachEventsRemoved(reg, hs[..|hs| - 1]);
      DetachDevices(reg, hs[..|hs| - 1]);
    }
  }

  /** No path is announced twice. */
  lemma {:induction false} DetachEventsDistinct(reg: Registry, hs: seq<Handle>)
    requires Keyed(reg)
    ensures DistinctPaths(DetachAll(reg, hs).events)
  {
    if hs != [] {
      var front := hs[..|hs| - 1];
      DetachEventsDistinct(reg, front);
      DetachEventsRemoved(reg, front);
      DetachDevices(reg, front);
    }
  }

  /** Every untracked path is announced. */
  lemma {:induction false} DetachEventsCover(reg: Registry, hs: seq<Handle>, p: string)
    requires Keyed(reg)
    requires p in reg && p !in DetachAll(reg, hs).devices
    ensures exists i :: 0 <= i < |DetachAll(reg, hs).events| && EventPath(DetachAll(reg, hs).events[i]) == p
  {
    var front := hs[..|hs| - 1];
    var prev := DetachAll(reg, front);
    var r := DetachAll(reg, hs);
    DetachDevices(reg, front);
    if p !in prev.devices {
      DetachEventsCover(reg, front, p);
      var i :| 0 <= i < |prev.events| && EventPath(prev.events[i]) == p;
      assert r.events[i] == prev.events[i];
    } else {
      assert EventPath(r.events[|r.events| - 1]) == p;
    }
  }

  // --- The periodic sweep -----------------------------------------------

  /** The paths of a list of devices. */
  function Paths(s: seq<SerialDevice>): set<string>
  {
    if s == [] then {} else Paths(s[..|s| - 1]) + {s[|s| - 1].path}
  }

  lemma {:induction false} PathsMembers(s: seq<SerialDevice>, p: string)
    ensures p in Paths(s) <==> exists i :: 0 <= i < |s| && s[i].path == p
  {
    if s != [] {
      var front := s[..|s| - 1];
      PathsMembers(front, p);
      if s[|s| - 1].path != p {
        if p in Paths(s) {
          var i :| 0 <= i < |front| && front[i].path == p;
          assert s[i] == front[i];
        }
        if exists i :: 0 <= i < |s| && s[i].path == p {
          var i :| 0 <= i < |s| && s[i].path == p;
          assert front[i] == s[i];
        }
      }
    }
  }

  /** No two devices of the list share a path. */
  ghost predicate UniquePaths(s: seq<SerialDevice>) {
    forall i, j :: 0 <= i < j < |s| ==> s[i].path != s[j].path
  }

  /** A snapshot: the tracked devices, each once, in some order. */
  ghost predicate IsSnapshot(s: seq<SerialDevice>, reg: Registry) {
    && |s| == |reg|
    && (forall i :: 0 <= i < |s| ==> s[i].path in reg && reg[s[i].path] == s[i])
    && UniquePaths(s)
    && (forall p :: p in reg ==> exists i :: 0 <= i < |s| && s[i].path == p)
  }

  /**
   * `checkForRemovedDevices` over a snapshot: for every device whose path does not exist,
   * a `Detached` event is queued first and the path is then removed, whether or not the
   * removal finds it.
   */
  function SweepAll(reg: Registry, snapshot: seq<SerialDevice>, existing: set<string>): Step
  {
    if snapshot == [] then Step(reg, [])
    else
      var prev := SweepAll(reg, snapshot[..|snapshot| - 1], existing);
      var d := snapshot[|snapshot| - 1];
      if d.path !in existing then Step(prev.devices - {d.path}, prev.events + [Detached(d.path)])
      else prev
  }

  /** For any snapshot, fresh or stale, the sweep never adds an entry: it removes exactly
      the snapshot paths missing on disk and leaves every other entry alone. */
  lemma {:induction false} SweepDevices(reg: Registry, snapshot: seq<SerialDevice>, existing: set<string>)
    ensures SweepAll(reg, snapshot, existing).devices.Keys == reg.Keys - (Paths(snapshot) - existing)
    ensures forall p :: p in SweepAll(reg, snapshot, existing).devices ==>
              SweepAll(reg, snapshot, existing).devices[p] == reg[p]
  {
    if snapshot != [] {
      SweepDevices(reg, snapshot[..|snapshot| - 1], existing);
    }
  }

  /** Every event the sweep queues is a `Detached` event for a snapshot path missing on disk. */
  lemma {:induction false} SweepEventMissing(reg: Registry, snapshot: seq<SerialDevice>, existing: set<string>, i: nat)
    requires i < |SweepAll(reg, snapshot, existing).events|
    ensures SweepAll(reg, snapshot, existing).events[i].Detached?
    ensures SweepAll(reg, snapshot, existing).events[i].path !in existing
    ensures SweepAll(reg, snapshot, existing).events[i].path in Paths(snapshot)
  {
    var front := snapshot[..|snapshot| - 1];
    var prev := SweepAll(reg, front, existing).events;
    var es := SweepAll(reg, snapshot, existing).events;
    assert Paths(snapshot) == Paths(front) + {snapshot[|snapshot| - 1].path};
    if i < |prev| {
      SweepEventMissing(reg, front, existing, i);
      assert es[i] == prev[i];
    }
  }

  /** Every snapshot path missing on disk is announced, whether or not it is still tracked. */
  lemma {:induction false} SweepEventsCover(reg: Registry, snapshot: seq<SerialDevice>, existing: set<string>, p: string)
    requires p in Paths(snapshot) && p !in existing
    ensures exists i :: 0 <= i < |SweepAll(reg, snapshot, existing).events| &&
                        SweepAll(reg, snapshot, existing).events[i] == Detached(p)
  {
    var front := snapshot[..|snapshot| - 1];
    var es := SweepAll(reg, snapshot, existing).events;
    if snapshot[|snapshot| - 1].path == p {
      assert es[|es| - 1] == Detached(p);
    } else {
      SweepEventsCover(reg, front, existing, p);
      var i :| 0 <= i < |SweepAll(reg, front, existing).events| && SweepAll(reg, front, existing).events[i] == Detached(p);
      assert es[i] == Detached(p);
    }
  }

  /** A snapshot without repeated paths yields no repeated announcement. */
  lemma {:induction false} SweepEventsDistinct(reg: Registry, snapshot: seq<SerialDevice>, existing: set<string>)
    requires UniquePaths(snapshot)
    ensures DistinctPaths(SweepAll(reg, snapshot, existing).events)
  {
    if snapshot != [] {
      var front := snapshot[..|snapshot| - 1];
      var d := snapshot[|snapshot| - 1];
      assert UniquePaths(front);
      SweepEventsDistinct(reg, front, existing);
      PathsMembers(front, d.path);
      forall i | 0 <= i < |front| ensures front[i].path != d.path {
        assert snapshot[i] == front[i];
      }
      var prev := SweepAll(reg, front, existing).events;
      if d.path !in existing {
        assert SweepAll(reg, snapshot, existing).events == prev + [Detached(d.path)];
        forall i | 0 <= i < |prev| ensures EventPath(prev[i]) != d.path {
          SweepEventMissing(reg, front, existing, i);
        }
      }
    }
  }

  /** Exactly one `Detached` event for each path of `paths`, and no other event. */
  ghost predicate DetachedOnce(events: seq<Event>, paths: set<string>) {
    && (forall i :: 0 <= i < |events| ==> events[i].Detached? && events[i].path in paths)
    && DistinctPaths(events)
    && (forall p :: p in paths ==> exists i :: 0 <= i < |events| && EventPath(events[i]) == p)
  }

  /** A snapshot of a registry lists exactly the registry's paths. */
  lemma SnapshotPaths(s: seq<SerialDevice>, reg: Registry)
    requires IsSnapshot(s, reg)
    ensures Paths(s) == reg.Keys
  {
    forall p ensures p in Paths(s) <==> p in reg {
      PathsMembers(s, p);
    }
  }

  /** With a fresh snapshot the sweep keeps exactly the tracked devices whose paths exist. */
  lemma FreshSweepDevices(reg: Registry, snapshot: seq<SerialDevice>, existing: set<string>)
    requires Keyed(reg)
    requires IsSnapshot(snapshot, reg)
    ensures SweepAll(reg, snapshot, existing).devices == (map p | p in reg && p in existing :: reg[p])
    ensures Keyed(SweepAll(reg, snapshot, existing).devices)
  {
    var kept := SweepAll(reg, snapshot, existing).devices;
    var expected := map p | p in reg && p in existing :: reg[p];
    assert kept.Keys == expected.Keys by {
      SnapshotPaths(snapshot, reg);
      SweepDevices(reg, snapshot, existing);
    }
    forall p | p in kept ensures kept[p] == expected[p] {
      SweepDevices(reg, snapshot, existing);
    }
  }

  /** With a fresh snapshot the sweep queues exactly one `Detached` event for each tracked
      device whose path is missing, and no other event. */
  lemma FreshSweepEvents(reg: Registry, snapshot: seq<SerialDevice>, existing: set<string>)
    requires IsSnapshot(snapshot, reg)
    ensures DetachedOnce(SweepAll(reg, snapshot, existing).events, reg.Keys - existing)
  {
    SnapshotPaths(snapshot, reg);
    SweepEventsDistinct(reg, snapshot, existing);
    var es := SweepAll(reg, snapshot, existing).events;
    forall i | 0 <= i < |es| ensures es[i].Detached? && es[i].path in reg.Keys - existing {
      SweepEventMissing(reg, snapshot, existing, i);
    }
    forall p | p in reg.Keys - existing
      ensures exists i :: 0 <= i < |es| && EventPath(es[i]) == p
    {
      SweepEventsCover(reg, snapshot, existing, p);
      var i :| 0 <= i < |es| && es[i] == Detached(p);
      assert EventPath(es[i]) == p;
    }
  }

  /** A sweep that must report a single path queues exactly one event. */
  lemma DetachedOnceSingle(events: seq<Event>, p: string)
    requires DetachedOnce(events, {p})
    ensures events == [Detached(p)]
  {
    var i :| 0 <= i < |events| && EventPath(events[i]) == p;
    DistinctPathsBounded(events, {p});
    assert events[0] == Detached(p);
  }

  /** Events naming distinct paths drawn from a set are no more than the set's size. */
  lemma {:induction false} DistinctPathsBounded(events: seq<Event>, paths: set<string>)
    requires DistinctPaths(events)
    requires forall i :: 0 <= i < |events| ==> EventPath(events[i]) in paths
    ensures |events| <= |paths|
  {
    if events != [] {
      var front := events[..|events| - 1];
      var q := EventPath(events[|events| - 1]);
      forall i | 0 <= i < |front| ensures EventPath(front[i]) in paths - {q} {
        assert front[i] == events[i];
      }
      forall i, j | 0 <= i < j < |front| ensures EventPath(front[i]) != EventPath(front[j]) {
        assert front[i] == events[i] && front[j] == events[j];
      }
      DistinctPathsBounded(front, paths - {q});
    }
  }

  /**
   * The race the code leaves open: when the detach callback removes a device after the sweep
   * took its snapshot, the sweep still queues a `Detached` event for it, so one unplug yields
   * two `Detached` events for the same path.
   */
  lemma StaleSnapshotDetachesTwice(d: SerialDevice, props: map<string, PropValue>)
    requires CalloutPrefix <= d.path
    ensures var reg := map[d.path := d];
      var h := Entry(props[CalloutDeviceKey := Str(d.path)]);
      var byCallback := DetachAll(reg, [h]);
      var bySweep := SweepAll(byCallback.devices, [d], {});
      byCallback.events + bySweep.events == [Detached(d.path), Detached(d.path)]
  {
    var h := Entry(props[CalloutDeviceKey := Str(d.path)]);
    assert CalloutPath(h) == Some(d.path);
    assert [h][..0] == [];
    assert [d][..0] == [];
  }

  // ---------------------------------------------------------------------
  // The monitor
  // ---------------------------------------------------------------------

  /** The outcome of `IOServiceAddMatchingNotification`: the iterator it stores, or a failure. */
  datatype Registration = Registered(iteratorID: nat) | Failed

  /** Whether a queued block calls its consumer when it runs: the attach block re-checks
      `isMonitoring`; the detach and sweep blocks only check that the monitor still exists. */
  predicate Delivers(e: Event, monitoring: bool) {
    e.Detached? || monitoring
  }

  class SerialMonitor {
    var isMonitoring: bool
    var attachedIterator: nat
    var detachedIterator: nat
    var notificationPortOpen: bool
    var periodicScanScheduled: bool
    var connectedDevices: Registry
    /** Blocks queued on the main queue, oldest first. */
    var pending: seq<Event>
    /** The consumer calls the main queue has made, oldest first. */
    var delivered: seq<Event>

    ghost predicate Valid()
      reads this
    {
      && Keyed(connectedDevices)
      && (isMonitoring ==> notificationPortOpen && periodicScanScheduled)
    }

    constructor ()
      ensures Valid()
      ensures !isMonitoring && attachedIterator == 0 && detachedIterator == 0
      ensures !notificationPortOpen && !periodicScanScheduled
      ensures connectedDevices == map[] && pending == [] && delivered == []
    {
      isMonitoring := false;
      attachedIterator, detachedIterator := 0, 0;
      notificationPortOpen, periodicScanScheduled := false, false;
      connectedDevices := map[];
      pending, delivered := [], [];
    }

    /**
     * `startMonitoring`: `existing` is what the first-match iterator holds right after
     * registration. Only when both registrations succeed is monitoring switched on and the
     * tracker seeded (without events); the periodic scan is started in every case.
     */
    method StartMonitoring(attached: Registration, detached: Registration, existing: seq<Handle>, now: int)
      requires Valid()
      modifies this
      ensures Valid()
      ensures old(isMonitoring) ==> unchanged(this)
      ensures !old(isMonitoring) ==>
        && notificationPortOpen && periodicScanScheduled
        && attachedIterator == (if attached.Registered? then attached.iteratorID else old(attachedIterator))
        && detachedIterator == (if detached.Registered? then detached.iteratorID else old(detachedIterator))
        && isMonitoring == (attached.Registered? && detached.Registered?)
        && connectedDevices == (if isMonitoring then Seed(old(connectedDevices), Drained(existing), now)
                                else old(connectedDevices))
        && pending == old(pending) && delivered == old(delivered)
    {
      if isMonitoring {
        return;
      }
      notificationPortOpen := true;
      if attached.Registered? {
        attachedIterator := attached.iteratorID;
      }
      if detached.Registered? {
        detachedIterator := detached.iteratorID;
      }
      if attached.Registered? && detached.Registered? {
        isMonitoring := true;
        ScanExistingDevices(existing, now);
      }
      periodicScanScheduled := true;
    }

    /** `stopMonitoring`: releases both iterators, the port and the timer, and clears
        `isMonitoring` last; a no-op unless monitoring. */
    method StopMonitoring()
      requires Valid()
      modifies this
      ensures Valid()
      ensures !old(isMonitoring) ==> unchanged(this)
      ensures old(isMonitoring) ==>
        && !isMonitoring && attachedIterator == 0 && detachedIterator == 0
        && !notificationPortOpen && !periodicScanScheduled
        && connectedDevices == old(connectedDevices)
        && pending == old(pending) && delivered == old(delivered)
    {
      if !isMonitoring {
        return;
      }
      if attachedIterator != 0 {
        attachedIterator := 0;
      }
      if detachedIterator != 0 {
        detachedIterator := 0;
      }
      notificationPortOpen := false;
      periodicScanScheduled := false;
      isMonitoring := false;
    }

    /** `scanExistingDevices`: stores every parsable handle by subscript assignment. */
    method ScanExistingDevices(existing: seq<Handle>, now: int)
      requires Keyed(connectedDevices)
      modifies this`connectedDevices
      ensures connectedDevices == Seed(old(connectedDevices), Drained(existing), now)
      ensures Keyed(connectedDevices)
    {
      var i := 0;
      while i < |existing| && existing[i] != NoHandle
        invariant 0 <= i <= |existing|
        invariant forall j :: 0 <= j < i ==> existing[j] != NoHandle
        invariant connectedDevices == Seed(old(connectedDevices), existing[..i], now)
      {
        assert existing[..i + 1][..i] == existing[..i];
        var parsed := ParseDevice(existing[i], now);
        if parsed.Some? {
          connectedDevices := connectedDevices[parsed.value.path := parsed.value];
        }
        i := i + 1;
      }
      DrainedAtExit(existing, i);
      SeedKeys(old(connectedDevices), existing[..i], now);
    }

    /** `getTrackedDevices`: every tracked device once, in no particular order. */
    method GetTrackedDevices() returns (devices: seq<SerialDevice>)
      requires Valid()
      ensures IsSnapshot(devices, connectedDevices)
    {
      var remaining := connectedDevices.Keys;
      devices := [];
      while remaining != {}
        invariant remaining <= connectedDevices.Keys
        invariant forall i :: 0 <= i < |devices| ==>
          devices[i].path in connectedDevices && connectedDevices[devices[i].path] == devices[i]
          && devices[i].path !in remaining
        invariant forall i, j :: 0 <= i < j < |devices| ==> devices[i].path != devices[j].path
        invariant forall p :: p in connectedDevices && p !in remaining ==>
          exists i :: 0 <= i < |devices| && devices[i].path == p
        invariant |devices| + |remaining| == |connectedDevices|
        decreases remaining
      {
        var p :| p in remaining;
        ghost var before := devices;
        devices := devices + [connectedDevices[p]];
        forall q | q in connectedDevices && q !in remaining - {p}
          ensures exists i :: 0 <= i < |devices| && devices[i].path == q
        {
          if q == p {
            assert devices[|devices| - 1].path == q;
          } else {
            var i :| 0 <= i < |before| && before[i].path == q;
            assert devices[i] == before[i];
          }
        }
        remaining := remaining - {p};
      }
    }

    /** `internalAddDevice`: files the device under its path, replacing any entry there. */
    method InternalAddDevice(device: SerialDevice)
      requires Keyed(connectedDevices)
      modifies this`connectedDevices
      ensures connectedDevices == old(connectedDevices)[device.path := device]
      ensures Keyed(connectedDevices)
    {
      connectedDevices := connectedDevices[device.path := device];
    }

    /** `internalHasDevice`. */
    method InternalHasDevice(path: string) returns (tracked: bool)
      ensures tracked <==> path in connectedDevices
    {
      tracked := path in connectedDevices;
    }

    /** `internalRemoveDevice`: removes the path and returns the entry it had, if any. */
    method InternalRemoveDevice(path: string) returns (removed: Option<SerialDevice>)
      requires Keyed(connectedDevices)
      modifies this`connectedDevices
      ensures removed == if path in old(connectedDevices) then Some(old(connectedDevices)[path]) else None
      ensures connectedDevices == old(connectedDevices) - {path}
      ensures path !in connectedDevices && Keyed(connectedDevices)
    {
      if path in connectedDevices {
        removed := Some(connectedDevices[path]);
      } else {
        removed := None;
      }
      connectedDevices := connectedDevices - {path};
    }

    /** `deviceAttachedCallback`: a no-op unless monitoring; otherwise drains the batch,
        adding each untracked parsed device and queueing one `Attached` block for it. */
    method DeviceAttachedCallback(batch: seq<Handle>, now: int)
      requires Valid()
      modifies this
      ensures Valid()
      ensures !old(isMonitoring) ==> unchanged(this)
      ensures old(isMonitoring) ==>
        && connectedDevices == AttachAll(old(connectedDevices), Drained(batch), now).devices
        && pending == old(pending) + AttachAll(old(connectedDevices), Drained(batch), now).events
        && isMonitoring && delivered == old(delivered)
        && attachedIterator == old(attachedIterator) && detachedIterator == old(detachedIterator)
        && notificationPortOpen == old(notificationPortOpen) && periodicScanScheduled == old(periodicScanScheduled)
    {
      if !isMonitoring {
        return;
      }
      var i := 0;
      while i < |batch| && batch[i] != NoHandle
        modifies this`connectedDevices, this`pending
        invariant 0 <= i <= |batch|
        invariant forall j :: 0 <= j < i ==> batch[j] != NoHandle
        invariant Keyed(connectedDevices)
        invariant connectedDevices == AttachAll(old(connectedDevices), batch[..i], now).devices
        invariant pending == old(pending) + AttachAll(old(connectedDevices), batch[..i], now).events
      {
        assert batch[..i + 1][..i] == batch[..i];
        var parsed := ParseDevice(batch[i], now);
        if parsed.Some? {
          var tracked := InternalHasDevice(parsed.value.path);
          if !tracked {
            InternalAddDevice(parsed.value);
            pending := pending + [Attached(parsed.value)];
          }
        }
        i := i + 1;
      }
      DrainedAtExit(batch, i);
    }

    /** `deviceDetachedCallback`: a no-op unless monitoring; otherwise drains the batch,
        removing each tracked `/dev/cu.` path and queueing one `Detached` block for it. */
    method DeviceDetachedCallback(batch: seq<Handle>)
      requires Valid()
      modifies this
      ensures Valid()
      ensures !old(isMonitoring) ==> unchanged(this)
      ensures old(isMonitoring) ==>
        && connectedDevices == DetachAll(old(connectedDevices), Drained(batch)).devices
        && pending == old(pending) + DetachAll(old(connectedDevices), Drained(batch)).events
        && isMonitoring && delivered == old(delivered)
        && attachedIterator == old(attachedIterator) && detachedIterator == old(detachedIterator)
        && notificationPortOpen == old(notificationPortOpen) && periodicScanScheduled == old(periodicScanScheduled)
    {
      if !isMonitoring {
        return;
      }
      var i := 0;
      while i < |batch| && batch[i] != NoHandle
        modifies this`connectedDevices, this`pending
        invariant 0 <= i <= |batch|
        invariant forall j :: 0 <= j < i ==> batch[j] != NoHandle
        invariant Keyed(connectedDevices)
        invariant connectedDevices == DetachAll(old(connectedDevices), batch[..i]).devices
        invariant pending == old(pending) + DetachAll(old(connectedDevices), batch[..i]).events
      {
        assert batch[..i + 1][..i] == batch[..i];
        var path := CalloutPath(batch[i]);
        if path.Some? {
          var removed := InternalRemoveDevice(path.value);
          if removed.Some? {
            pending := pending + [Detached(removed.value.path)];
          }
        }
        i := i + 1;
      }
      DrainedAtExit(batch, i);
    }

    /** The loop of `checkForRemovedDevices` over a snapshot taken earlier. */
    method SweepSnapshot(snapshot: seq<SerialDevice>, existing: set<string>)
      requires Keyed(connectedDevices)
      modifies this`connectedDevices, this`pending
      ensures connectedDevices == SweepAll(old(connectedDevices), snapshot, existing).devices
      ensures pending == old(pending) + SweepAll(old(connectedDevices), snapshot, existing).events
      ensures Keyed(connectedDevices)
    {
      for k := 0 to |snapshot|
        invariant Keyed(connectedDevices)
        invariant connectedDevices == SweepAll(old(connectedDevices), snapshot[..k], existing).devices
        invariant pending == old(pending) + SweepAll(old(connectedDevices), snapshot[..k], existing).events
      {
        assert snapshot[..k + 1][..k] == snapshot[..k];
        var device := snapshot[k];
        if device.path !in existing {
          pending := pending + [Detached(device.path)];
          var _ := InternalRemoveDevice(device.path);
        }
      }
      assert snapshot[..|snapshot|] == snapshot;
    }

    /**
     * One firing of the periodic scan timer, given the paths that exist on disk: nothing when
     * the timer is not scheduled; otherwise the tracked devices whose paths exist are kept,
     * the others dropped, and exactly one `Detached` block is queued per dropped device.
     */
    method Tick(existing: set<string>)
      requires Valid()
      modifies this
      ensures Valid()
      ensures !old(periodicScanScheduled) ==> unchanged(this)
      ensures old(periodicScanScheduled) ==>
        && connectedDevices == (map p | p in old(connectedDevices) && p in existing :: old(connectedDevices)[p])
        && |old(pending)| <= |pending| && pending[..|old(pending)|] == old(pending)
        && DetachedOnce(pending[|old(pending)|..], old(connectedDevices).Keys - existing)
        && isMonitoring == old(isMonitoring) && delivered == old(delivered)
        && attachedIterator == old(attachedIterator) && detachedIterator == old(detachedIterator)
        && notificationPortOpen == old(notificationPortOpen) && periodicScanScheduled
    {
      if !periodicScanScheduled {
        return;
      }
      var snapshot := GetTrackedDevices();
      FreshSweepDevices(connectedDevices, snapshot, existing);
      FreshSweepEvents(connectedDevices, snapshot, existing);
      SweepSnapshot(snapshot, existing);
      assert pending[|old(pending)|..] == SweepAll(old(connectedDevices), snapshot, existing).events;
    }

    /** The main queue runs its oldest block, which calls the consumer when its guard holds. */
    method DeliverNext()
      modifies this`pending, this`delivered
      ensures old(pending) == [] ==> pending == [] && delivered == old(delivered)
      ensures old(pending) != [] ==>
        && pending == old(pending)[1..]
        && delivered == old(delivered) + (if Delivers(old(pending)[0], isMonitoring) then [old(pending)[0]] else [])
    {
      if pending == [] {
        return;
      }
      var block := pending[0];
      pending := pending[1..];
      if Delivers(block, isMonitoring) {
        delivered := delivered + [block];
      }
    }
  }

  /** After `stopMonitoring`, a queued attach block is dropped but a queued detach block
      still calls its consumer. */
  method StopThenDeliver(m: SerialMonitor, d: SerialDevice)
    requires m.Valid() && m.isMonitoring
    requires m.pending == [Attached(d), Detached(d.path)]
    modifies m
    ensures m.delivered == old(m.delivered) + [Detached(d.path)]
    ensures m.pending == []
  {
    m.StopMonitoring();
    m.DeliverNext();
    m.DeliverNext();
  }
}
