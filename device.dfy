/** The `SerialDevice` value of MoPort/SerialDevice.swift. */
module Device {
  import opened Wrappers

  /**
   * One serial-over-USB device. `connectedAt` is the time stamp taken when
   * the value was built (a `Date` in the source, an integer here); the
   * source's random `id` is not modelled.
   */
  datatype SerialDevice = SerialDevice(
    path: string,
    name: string,
    manufacturer: Option<string>,
    vendorID: Option<int>,
    productID: Option<int>,
    connectedAt: int)

  /** The generic label used when a device reports no TTY name. */
  const DefaultName: string := "USB Serial"

  /**
   * The memberwise initialiser with the source's defaults; the clock is an
   * input, so `connectedAt` has no default.
   */
  function NewDevice(path: string, name: string := DefaultName,
                     manufacturer: Option<string> := None,
                     vendorID: Option<int> := None, productID: Option<int> := None,
                     nameonly connectedAt: int): (d: SerialDevice)
    ensures d.path == path && d.name == name && d.manufacturer == manufacturer
    ensures d.vendorID == vendorID && d.productID == productID && d.connectedAt == connectedAt
  {
    SerialDevice(path, name, manufacturer, vendorID, productID, connectedAt)
  }

  /** Built from a path and a time alone, a device carries the generic name and no vendor data. */
  lemma NewDeviceDefaults(path: string, t: int)
    ensures NewDevice(path, connectedAt := t).name == "USB Serial"
    ensures NewDevice(path, connectedAt := t).manufacturer.None?
    ensures NewDevice(path, connectedAt := t).vendorID.None?
    ensures NewDevice(path, connectedAt := t).productID.None?
  {
  }

  /** Swift's `==` on devices: the path alone decides. */
  predicate Same(a: SerialDevice, b: SerialDevice) {
    a.path == b.path
  }

  /** `==` is an equivalence relation that ignores every field but the path. */
  lemma SameIsPathEquality(a: SerialDevice, b: SerialDevice, c: SerialDevice)
    ensures Same(a, b) <==> a.path == b.path
    ensures Same(a, a)
    ensures Same(a, b) ==> Same(b, a)
    ensures Same(a, b) && Same(b, c) ==> Same(a, c)
    ensures Same(a, a.(name := b.name, manufacturer := b.manufacturer, vendorID := b.vendorID,
                       productID := b.productID, connectedAt := b.connectedAt))
  {
  }

  /** What `hash(into:)` feeds to the hasher: the path and nothing else. */
  function HashInput(d: SerialDevice): seq<string>
  {
    [d.path]
  }

  /** Whatever hash function the hasher applies, devices equal under `==` hash equally. */
  lemma SameDevicesHashEqually(a: SerialDevice, b: SerialDevice, hasher: seq<string> -> int)
    requires Same(a, b)
    ensures hasher(HashInput(a)) == hasher(HashInput(b))
  {
  }

  /** `displayName`: "<manufacturer> <name>" when a manufacturer is known, else the name. */
  function DisplayName(d: SerialDevice): (r: string)
  {
    match d.manufacturer
    case Some(m) => m + " " + d.name
    case None => d.name
  }

  /** The display name always ends with the device name, is led by the manufacturer and a
      space when there is one, and is the bare name exactly when there is none. */
  lemma DisplayNameShape(d: SerialDevice)
    ensures |DisplayName(d)| >= |d.name|
    ensures DisplayName(d)[|DisplayName(d)| - |d.name|..] == d.name
    ensures d.manufacturer.Some? ==> DisplayName(d)[..|d.manufacturer.value| + 1] == d.manufacturer.value + " "
    ensures DisplayName(d) == d.name <==> d.manufacturer.None?
  {
    if d.manufacturer.Some? {
      var m := d.manufacturer.value;
      assert DisplayName(d) == (m + " ") + d.name;
      assert |DisplayName(d)| == |m| + 1 + |d.name|;
    }
  }
}
