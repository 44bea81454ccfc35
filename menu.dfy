/**
 * The consumer-side device list of MoPort/MenuBarController.swift: a `Set` of devices
 * whose `==` and hash look at the path only, and the device section of the status
 * menu, rebuilt after every change.
 */
module Menu {
  import opened Device
  import opened L10n

  // ---------------------------------------------------------------------
  // A set of devices under path equality
  // ---------------------------------------------------------------------

  /** No two members share a path: what a Swift `Set<SerialDevice>` keeps, since its
      members are compared by path. */
  ghost predicate PathUnique(s: set<SerialDevice>) {
    forall a, b :: a in s && b in s && a.path == b.path ==> a == b
  }

  /** Some member has this path. */
  predicate HasPath(s: set<SerialDevice>, path: string) {
    exists m :: m in s && m.path == path
  }

  /** `insert`: when an equal member (same path) is present the set is left as it is. */
  function Inserted(s: set<SerialDevice>, d: SerialDevice): set<SerialDevice> {
    if HasPath(s, d.path) then s else s + {d}
  }

  /** `remove(SerialDevice(path: p))`: drops the member equal to the probe, i.e. the one
      with path `p`, whatever its other fields. */
  function RemovedPath(s: set<SerialDevice>, path: string): set<SerialDevice> {
    set m | m in s && m.path != path
  }

  /** Inserting a device of a new path adds exactly that device and grows the set by one. */
  lemma InsertNewPath(s: set<SerialDevice>, d: SerialDevice)
    requires !HasPath(s, d.path)
    ensures Inserted(s, d) == s + {d}
    ensures |Inserted(s, d)| == |s| + 1
  {
    assert d !in s;
  }

  /** Inserting a device of a path already present changes nothing: the member already
      there, with its own `connectedAt`, stays. */
  lemma InsertPresentPath(s: set<SerialDevice>, d: SerialDevice, m: SerialDevice)
    requires m in s && m.path == d.path
    ensures Inserted(s, d) == s
    ensures m in Inserted(s, d)
    ensures PathUnique(s) && d != m ==> d !in Inserted(s, d)
  {
  }

  /** Removing by path drops every member with that path and keeps all the others. */
  lemma RemoveByPath(s: set<SerialDevice>, path: string)
    ensures forall m :: m in RemovedPath(s, path) <==> m in s && m.path != path
    ensures !HasPath(RemovedPath(s, path), path)
    ensures !HasPath(s, path) ==> RemovedPath(s, path) == s
  {
  }

  /** In a path-unique set, removing a present path shrinks the set by exactly one. */
  lemma {:induction false} RemoveShrinksByOne(s: set<SerialDevice>, m: SerialDevice)
    requires PathUnique(s) && m in s
    ensures RemovedPath(s, m.path) == s - {m}
    ensures |RemovedPath(s, m.path)| == |s| - 1
  {
    assert RemovedPath(s, m.path) == s - {m};
  }

  /** Both operations keep the set free of two devices with one path. */
  lemma PathUniqueKept(s: set<SerialDevice>, d: SerialDevice, path: string)
    requires PathUnique(s)
    ensures PathUnique(Inserted(s, d))
    ensures PathUnique(RemovedPath(s, path))
  {
  }

  // ---------------------------------------------------------------------
  // The device section of the menu
  // ---------------------------------------------------------------------

  /** A menu entry of the device section: the disabled placeholder, or a device entry
      titled with its path, carrying the device and the "click to copy" tool tip. */
  datatype MenuItem =
    | Placeholder(title: string)
    | DeviceItem(title: string, toolTip: string, device: SerialDevice)

  /** The devices in ascending `connectedAt` order. */
  ghost predicate SortedByConnectedAt(s: seq<SerialDevice>) {
    forall i, j :: 0 <= i < j < |s| ==> s[i].connectedAt <= s[j].connectedAt
  }

  /** Every member of `devices` exactly once, in ascending `connectedAt` order; members
      with equal stamps may come in any order. */
  ghost predicate ArrangesByConnectedAt(s: seq<SerialDevice>, devices: set<SerialDevice>) {
    && |s| == |devices|
    && (forall i :: 0 <= i < |s| ==> s[i] in devices)
    && (forall d :: d in devices ==> d in s)
    && (forall i, j :: 0 <= i < j < |s| ==> s[i] != s[j])
    && SortedByConnectedAt(s)
  }

  /** A non-empty set has a member with the earliest `connectedAt`. */
  lemma {:induction false} EarliestExists(s: set<SerialDevice>)
    requires s != {}
    ensures exists m :: m in s && forall x :: x in s ==> m.connectedAt <= x.connectedAt
  {
    var y :| y in s;
    if s != {y} {
      var rest := s - {y};
      EarliestExists(rest);
      var m :| m in rest && forall x :: x in rest ==> m.connectedAt <= x.connectedAt;
      if y.connectedAt < m.connectedAt {
        assert forall x :: x in s ==> y.connectedAt <= x.connectedAt;
      } else {
        assert forall x :: x in s ==> m.connectedAt <= x.connectedAt;
      }
    }
  }

  /** `sorted(by: { $0.connectedAt < $1.connectedAt })` on the set. */
  method SortByConnectedAt(devices: set<SerialDevice>) returns (sorted: seq<SerialDevice>)
    ensures ArrangesByConnectedAt(sorted, devices)
  {
    var rest := devices;
    sorted := [];
    while rest != {}
      invariant rest <= devices
      invariant |sorted| + |rest| == |devices|
      invariant forall i :: 0 <= i < |sorted| ==> sorted[i] in devices && sorted[i] !in rest
      invariant forall d :: d in devices ==> d in sorted || d in rest
      invariant forall i, j :: 0 <= i < j < |sorted| ==> sorted[i] != sorted[j]
      invariant SortedByConnectedAt(sorted)
      invariant forall i, x :: 0 <= i < |sorted| && x in rest ==> sorted[i].connectedAt <= x.connectedAt
      decreases rest
    {
      EarliestExists(rest);
      var m :| m in rest && forall x :: x in rest ==> m.connectedAt <= x.connectedAt;
      sorted := sorted + [m];
      rest := rest - {m};
    }
  }

  /**
   * What the device section shows: the placeholder titled `placeholder` when there is no
   * device, otherwise one entry per device, titled with its path, in ascending
   * `connectedAt` order.
   */
  ghost predicate ShowsDevices(items: seq<MenuItem>, devices: set<SerialDevice>, placeholder: string, toolTip: string) {
    if devices == {} then items == [Placeholder(placeholder)]
    else
      && (forall i :: 0 <= i < |items| ==>
            items[i].DeviceItem? && items[i].title == items[i].device.path && items[i].toolTip == toolTip)
      && ArrangesByConnectedAt(seq(|items|, i requires 0 <= i < |items| => items[i].device), devices)
  }

  /** `createDeviceMenuItem`. */
  function CreateDeviceMenuItem(shared: Localization, d: SerialDevice): (item: MenuItem)
    reads shared
    ensures item.DeviceItem? && item.title == d.path && item.device == d
    ensures item.toolTip == L(shared, "clickToCopy")
  {
    DeviceItem(d.path, L(shared, "clickToCopy"), d)
  }

  class MenuBarController {
    var connectedDevices: set<SerialDevice>
    /** The device section of the menu as last built by `updateMenu`. */
    var deviceItems: seq<MenuItem>

    ghost predicate Valid()
      reads this
    {
      PathUnique(connectedDevices)
    }

    /** `init`: an empty list and a first menu. */
    constructor (shared: Localization)
      ensures Valid() && connectedDevices == {}
      ensures deviceItems == [Placeholder(L(shared, "noDevices"))]
    {
      connectedDevices := {};
      deviceItems := [Placeholder(L(shared, "noDevices"))];
    }

    /** The device part of `updateMenu`. */
    method UpdateMenu(shared: Localization)
      modifies this`deviceItems
      ensures ShowsDevices(deviceItems, connectedDevices, L(shared, "noDevices"), L(shared, "clickToCopy"))
    {
      if connectedDevices == {} {
        var emptyItem := Placeholder(L(shared, "noDevices"));
        deviceItems := [emptyItem];
        return;
      }
      var sorted := SortByConnectedAt(connectedDevices);
      var items := [];
      for k := 0 to |sorted|
        invariant |items| == k
        invariant forall i :: 0 <= i < k ==> items[i] == CreateDeviceMenuItem(shared, sorted[i])
      {
        items := items + [CreateDeviceMenuItem(shared, sorted[k])];
      }
      assert seq(|items|, i requires 0 <= i < |items| => items[i].device) == sorted;
      deviceItems := items;
    }

    /** `addDevice`: inserts under path equality, then rebuilds the menu. */
    method AddDevice(device: SerialDevice, shared: Localization)
      requires Valid()
      modifies this
      ensures Valid()
      ensures connectedDevices == Inserted(old(connectedDevices), device)
      ensures ShowsDevices(deviceItems, connectedDevices, L(shared, "noDevices"), L(shared, "clickToCopy"))
    {
      PathUniqueKept(connectedDevices, device, device.path);
      if !HasPath(connectedDevices, device.path) {
        connectedDevices := connectedDevices + {device};
      }
      UpdateMenu(shared);
    }

    /** `removeDevice(path:)`: removes the member with that path, then rebuilds the menu. */
    method RemoveDevice(path: string, shared: Localization)
      requires Valid()
      modifies this
      ensures Valid()
      ensures connectedDevices == RemovedPath(old(connectedDevices), path)
      ensures ShowsDevices(deviceItems, connectedDevices, L(shared, "noDevices"), L(shared, "clickToCopy"))
    {
      var probe := NewDevice(path, connectedAt := 0);
      PathUniqueKept(connectedDevices, probe, path);
      connectedDevices := set m | m in connectedDevices && !Same(m, probe);
      UpdateMenu(shared);
    }
  }
}
