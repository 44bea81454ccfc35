# MoPort serial hotplug tracker in Dafny

MoPort is a macOS menu-bar app. It watches for serial-over-USB devices (`/dev/cu.*` nodes)
as they are plugged in and removed. It lists them in its status menu and copies a device's
path when the user clicks it. This project models the app's core and proves properties of it:

- **Tracker.** `SerialMonitor` keeps a dictionary from device path to `SerialDevice`. Four
  paths change the dictionary:
  - start-up seeding;
  - the IOKit attach callback;
  - the IOKit detach callback;
  - a periodic sweep that drops devices whose node has vanished from disk.

  Seeding and the two callbacks run only while the `isMonitoring` flag is set. The sweep
  does not look at the flag: it runs whenever the periodic timer is scheduled.
  Notifications to the consumer go through the main queue.
- **Device value.** `SerialDevice`, whose `==` and hash look at the path only.
- **Consumer mirror.** `MenuBarController` keeps a `Set<SerialDevice>` that `addDevice` and
  `removeDevice` update, and the device section of the menu, ordered by `connectedAt`.
- **Localization.** The `Language` enum, the two string tables, start-up language
  selection, `setLanguage`, `localizedString` and `L`.

## Files

| file | module | models |
|---|---|---|
| `wrappers.dfy` | `Wrappers` | Swift optionals: `Option` and `??` as `GetOr` |
| `device.dfy` | `Device` | `MoPort/SerialDevice.swift` |
| `localization.dfy` | `L10n` | `MoPort/Localization.swift` |
| `monitor.dfy` | `Monitor` | `MoPort/SerialMonitor.swift` |
| `menu.dfy` | `Menu` | the device list of `MoPort/MenuBarController.swift` |
| `session.dfy` | `Session` | one concrete plug/unplug session through the monitor |

## How the environment is modelled

- **Device handle.** An `io_object_t` is a `Handle`. It is either `NoHandle` (the value 0)
  or an `Entry` holding a map from registry key to a string or integer property.
- **Iterator batch.** An `io_iterator_t` batch is a `seq<Handle>`. The
  `while IOIteratorNext(...) != 0` loops process the prefix before the first `NoHandle`.
  `Drained` is that prefix.
- **Registration.** The result of `IOServiceAddMatchingNotification` is an input to
  `StartMonitoring`: a `Registration` that is either the stored iterator ID or `Failed`.
- **Filesystem.** `fileExistsAtPath` becomes the set of paths that exist. `Tick` takes that
  set; one `Tick` is one firing of the 500 ms sweep timer.
- **Clock.** `Date()` becomes an integer `now` passed in by the caller. The random `id` is
  dropped.
- **Main queue.** Each `DispatchQueue.main.async` block appends an `Event` to `pending`.
  `DeliverNext` runs the oldest block and applies that block's own guard:
  - the attach block re-checks `isMonitoring`;
  - the detach and sweep blocks check only that the monitor still exists.

  A block that passes its guard is appended to `delivered`.
- **Private queue.** The concurrent queue's `sync` reads and barrier writes become immediate
  dictionary operations, applied in program order.
- **Localization state.** `UserDefaults` becomes the `persistedCode` field.
  `Locale.current` becomes a `systemCode` input.

## Where the code falls short of its own comments

The model follows what the code does. In these places that differs from what the code's
own comments or structure lead a reader to expect:

- **Sweep ignores the removal result.** The attach callback's duplicate check is commented
  as avoiding duplicate triggers (`SerialMonitor.swift:320`). The sweep, which is commented
  as a backup for terminations the notification missed (`SerialMonitor.swift:179`), queues
  its detach notification before it removes the device, and whether or not the removal
  found it (`SerialMonitor.swift:198-205`). A detach callback can run between the sweep's
  snapshot and its loop. One unplug then yields two `Detached` events for one path
  (`Monitor.StaleSnapshotDetachesTwice`).
- **Detach block ignores `isMonitoring`.** Both queued closures are commented as checking
  the monitoring state again (`SerialMonitor.swift:325` and `:360`). The callbacks' guards
  are commented as stopping callbacks once monitoring stops (`SerialMonitor.swift:308`).
  The attach closure does test `isMonitoring` (`:326`), but the detach closure tests only
  that the monitor still exists (`:361`). A detach queued before `stopMonitoring` is
  therefore still delivered after it, while a queued attach is dropped
  (`Monitor.StopThenDeliver`).
- **Detach without an attach.** Seeding stores the devices present at start-up and sends no
  notification (`SerialMonitor.swift:145-153`). An attach notification is only sent for a
  path not yet tracked (`:321-328`). Yet the later removal of a seeded device does notify.
  A consumer can therefore see a detach for a path it never saw attach
  (`Session.HotplugSession`).
- **Snapshot is unsorted.** `getTrackedDevices` returns the dictionary values in no
  particular order (`SerialMonitor.swift:157-159`). Only the menu sorts by `connectedAt`
  (`MenuBarController.swift:64`).
- **Sweep runs after a failed start.** The periodic timer is started even when a
  registration failed and `isMonitoring` stays false (`SerialMonitor.swift:101-109`). The
  sweep does not check the flag (`:191-208`), so `Tick` acts whenever the timer is scheduled.

## Model

| member | source | states |
|---|---|---|
| Wrappers.Option.GetOr | MoPort/SerialMonitor.swift:228 | `??`: the wrapped value when present, otherwise the default |
| Device.NewDevice | MoPort/SerialDevice.swift:20-28 | every stored field equals the corresponding argument |
| Device.NewDeviceDefaults | MoPort/SerialDevice.swift:20-21 | the init's defaults: name `"USB Serial"`; no manufacturer, vendor ID or product ID |
| Device.SameIsPathEquality | MoPort/SerialDevice.swift:33-35 | `==` holds exactly when the paths are equal. It is reflexive, symmetric and transitive, and ignores name, manufacturer, IDs and `connectedAt` |
| Device.SameDevicesHashEqually | MoPort/SerialDevice.swift:33-39 | the hasher is fed the path alone, so for any hash function, devices equal under `==` hash equally |
| Device.DisplayNameShape | MoPort/SerialDevice.swift:42-47 | the display name ends with the name. With a manufacturer it starts with the manufacturer and a space. It is the bare name exactly when there is no manufacturer |
| L10n.Language.DisplayName | MoPort/Localization.swift:14-19 | the submenu labels: `"English"` and `"中文"` |
| L10n.LanguageFromRawValue | MoPort/Localization.swift:10-12 | `Language(rawValue:)` succeeds exactly for `"en"` and `"zh"` |
| L10n.RawValueRoundTrip | MoPort/Localization.swift:10-12 | `rawValue` and `Language(rawValue:)` invert each other in both directions, and the two raw values differ |
| L10n.Localize | MoPort/Localization.swift:47-54 | the table entry for the key, or the key itself when the table has none |
| L10n.TablesShareKeys | MoPort/Localization.swift:63-103 | both tables define the same keys, so a key falls back to itself in one language exactly when it does in the other |
| L10n.StoredLanguageWins | MoPort/Localization.swift:33-35 | a stored valid code decides the start-up language whatever the system language is |
| L10n.SystemLanguageFallback | MoPort/Localization.swift:36-39 | with no valid stored code: Chinese exactly when the system code starts with `"zh"`, and English when there is no system code |
| L10n.Localization.constructor | MoPort/Localization.swift:32-41 | the start-up selection; nothing is written back, because `didSet` does not run in `init` |
| L10n.Localization.SetLanguage | MoPort/Localization.swift:25-45 | the current language is the argument, and the persisted code is its raw value |
| L10n.Localization.LocalizedString | MoPort/Localization.swift:47-54 | the per-language switch equals the table lookup with fallback for the current language |
| L10n.L | MoPort/Localization.swift:107-109 | `L(k)` is the shared instance's current-language table entry for `k`, or `k` itself when that table has none |
| L10n.SetLanguageSurvivesRestart | MoPort/Localization.swift:25-35 | a language chosen with `setLanguage` is the one the next start-up picks |
| Monitor.GetIOStringProperty | MoPort/SerialMonitor.swift:246-254 | a value exactly when the handle is non-zero and has a string under the key, and then it is that string |
| Monitor.GetIOIntProperty | MoPort/SerialMonitor.swift:256-262 | a value exactly when the handle has an integer under the key, and then it is that integer |
| Monitor.ParseDevice | MoPort/SerialMonitor.swift:215-244 | a device exactly when there is a `/dev/cu.` callout path. Its path is that callout string, and its `connectedAt` is the given time |
| Monitor.ParseDeviceReads | MoPort/SerialMonitor.swift:215-244 | the full property-level reading. Success requires a string `IOCalloutDevice` starting with `/dev/cu.`. The name is `IOTTYDevice` or `"USB Serial"`. Manufacturer comes from `USB Vendor Name`, IDs from `idVendor` and `idProduct`, each absent when missing; the parse still succeeds |
| Monitor.TtyPathRejected | MoPort/SerialMonitor.swift:217-225 | a `/dev/tty.` callout path is rejected whatever the other properties are |
| Monitor.Drained | MoPort/SerialMonitor.swift:147 | the drain loop's reach: a prefix of the batch, holding no zero handle, and stopped only by a zero handle |
| Monitor.DrainedAtExit | MoPort/SerialMonitor.swift:312 | where the drain loop exits, the handles it processed are exactly `Drained(batch)` |
| Monitor.CalloutPathsMembers | MoPort/SerialMonitor.swift:348-349 | a path is among a batch's callout paths exactly when some handle of the batch has it as its `/dev/cu.` callout path |
| Monitor.SeedKeys | MoPort/SerialMonitor.swift:145-153 | seeding keeps every entry filed under its own path. It tracks the old paths plus the batch's callout paths. Entries the batch does not name are unchanged |
| Monitor.SeedLastWins | MoPort/SerialMonitor.swift:150 | each seeded entry came from one of the batch's handles (subscript assignment overwrites) |
| Monitor.AttachDevices | MoPort/SerialMonitor.swift:312-329 | an attach batch adds the batch's callout paths, keeps every entry filed under its path, and never changes an already-tracked entry |
| Monitor.AttachEventStored | MoPort/SerialMonitor.swift:321-328 | every queued event is an `Attached` one, for a path untracked before the batch, carrying the device now stored under that path |
| Monitor.AttachEventsDistinct | MoPort/SerialMonitor.swift:320-329 | no two events of one attach batch name the same path |
| Monitor.AttachEventsCover | MoPort/SerialMonitor.swift:321-328 | every path the batch added has an `Attached` event carrying its stored device |
| Monitor.AttachFirstWins | MoPort/SerialMonitor.swift:321-322 | the device stored for a newly added path was parsed from a handle of the batch |
| Monitor.AttachDuplicateOnce | MoPort/SerialMonitor.swift:312-329 | a batch listing a new device twice queues exactly one `Attached` event |
| Monitor.DetachDevices | MoPort/SerialMonitor.swift:345-371 | a detach batch removes exactly the batch's callout paths and leaves every other entry unchanged |
| Monitor.DetachEventsRemoved | MoPort/SerialMonitor.swift:355-363 | every queued event is a `Detached` one, for a path tracked before the batch and absent after it |
| Monitor.DetachEventsDistinct | MoPort/SerialMonitor.swift:355-363 | no two events of one detach batch name the same path |
| Monitor.DetachEventsCover | MoPort/SerialMonitor.swift:348-363 | every tracked path the batch removed has a `Detached` event |
| Monitor.PathsMembers | MoPort/SerialMonitor.swift:196 | a path is among a snapshot's paths exactly when some snapshot device has it |
| Monitor.SweepDevices | MoPort/SerialMonitor.swift:196-206 | the sweep removes exactly the snapshot paths missing on disk and adds nothing. Entries it keeps are unchanged |
| Monitor.SweepEventMissing | MoPort/SerialMonitor.swift:198-205 | every sweep event is a `Detached` one, for a snapshot path that is missing on disk |
| Monitor.SweepEventsCover | MoPort/SerialMonitor.swift:198-205 | every snapshot path missing on disk gets a `Detached` event, whatever the removal finds |
| Monitor.SweepEventsDistinct | MoPort/SerialMonitor.swift:191-206 | over a snapshot without repeated paths, no two sweep events name the same path |
| Monitor.SnapshotPaths | MoPort/SerialMonitor.swift:156-159 | a snapshot lists exactly the registry's paths |
| Monitor.FreshSweepDevices | MoPort/SerialMonitor.swift:191-208 | with a fresh snapshot, the sweep keeps exactly the tracked devices whose paths exist |
| Monitor.FreshSweepEvents | MoPort/SerialMonitor.swift:191-208 | with a fresh snapshot, there is exactly one `Detached` event per tracked path missing on disk, and no other event |
| Monitor.DetachedOnceSingle | MoPort/SerialMonitor.swift:191-208 | a sweep that must report one path queues exactly that one event |
| Monitor.DistinctPathsBounded | MoPort/SerialMonitor.swift:191-208 | events naming distinct paths drawn from a set are no more than the set's size |
| Monitor.StaleSnapshotDetachesTwice | MoPort/SerialMonitor.swift:198-205 | a detach callback between the snapshot and the sweep loop yields two `Detached` events for one path |
| Monitor.SerialMonitor.constructor | MoPort/SerialMonitor.swift:39-47 | not monitoring, both iterators 0, no port, no timer, an empty registry, no queued blocks |
| Monitor.SerialMonitor.StartMonitoring | MoPort/SerialMonitor.swift:55-110 | A no-op while monitoring. Otherwise it opens the port and schedules the timer either way. It stores each successful iterator. It sets `isMonitoring` exactly when both registrations succeed, and only then seeds the registry from the drained batch, with no event |
| Monitor.SerialMonitor.StopMonitoring | MoPort/SerialMonitor.swift:112-141 | a no-op unless monitoring; otherwise both iterators are 0, no port, no timer, not monitoring, and the registry and queue are untouched |
| Monitor.SerialMonitor.ScanExistingDevices | MoPort/SerialMonitor.swift:145-153 | the registry becomes the seeding of the drained batch, and it queues no event |
| Monitor.SerialMonitor.GetTrackedDevices | MoPort/SerialMonitor.swift:156-166 | every tracked device exactly once, as stored, in no particular order |
| Monitor.SerialMonitor.InternalAddDevice | MoPort/SerialMonitor.swift:265-269 | the device is filed under its path, overwriting |
| Monitor.SerialMonitor.InternalHasDevice | MoPort/SerialMonitor.swift:272-279 | true exactly when the path is tracked |
| Monitor.SerialMonitor.InternalRemoveDevice | MoPort/SerialMonitor.swift:282-286 | the path is absent afterwards. The result is the previous entry, or none. Nothing else changes |
| Monitor.SerialMonitor.DeviceAttachedCallback | MoPort/SerialMonitor.swift:303-334 | a no-op unless monitoring. Otherwise the registry and the queued blocks follow the attach batch processing of the drained batch, and nothing else changes |
| Monitor.SerialMonitor.DeviceDetachedCallback | MoPort/SerialMonitor.swift:336-372 | a no-op unless monitoring. Otherwise the registry and the queued blocks follow the detach batch processing of the drained batch, and nothing else changes |
| Monitor.SerialMonitor.SweepSnapshot | MoPort/SerialMonitor.swift:196-206 | the loop over a given snapshot: the registry and the queued blocks follow the sweep of that snapshot |
| Monitor.SerialMonitor.Tick | MoPort/SerialMonitor.swift:180-208 | Nothing happens without a timer. Otherwise the tracked devices whose paths exist are kept, the others are dropped, and exactly one `Detached` block is queued per dropped path. The flag and the iterators are unchanged |
| Monitor.SerialMonitor.DeliverNext | MoPort/SerialMonitor.swift:324-328 | the oldest block runs. An `Attached` block calls the consumer only while monitoring; a `Detached` block always calls it (see lines 359-363) |
| Monitor.StopThenDeliver | MoPort/SerialMonitor.swift:359-363 | after `stopMonitoring`, a queued attach is dropped and a queued detach is still delivered |
| Session.SessionParses | MoPort/SerialMonitor.swift:215-244 | two concrete handles parse to the expected devices, with defaults for the missing properties |
| Session.SessionSeed | MoPort/SerialMonitor.swift:145-153 | seeding stops at the first zero handle |
| Session.SessionAttach | MoPort/SerialMonitor.swift:312-329 | a batch re-listing a tracked device and listing a new one twice reports the new one once |
| Session.SessionSweep | MoPort/SerialMonitor.swift:191-208 | over a fresh snapshot of both devices, with only the second device's node on disk, the sweep keeps the second device and queues exactly one `Detached` event, for the first |
| Session.AttachedSession | MoPort/SerialMonitor.swift:303-334 | after a start-up that seeds the first device and an attach batch naming both, both devices are tracked and one `Attached` block, for the second, is queued |
| Session.HotplugSession | MoPort/SerialMonitor.swift:55-110 | start, attach batch, sweep and delivery end to end. The consumer sees the new device attach and the vanished seeded device detach, in that order |
| Menu.InsertNewPath | MoPort/MenuBarController.swift:143-149 | adding a device with a new path adds exactly it and grows the set by one |
| Menu.InsertPresentPath | MoPort/MenuBarController.swift:143-149 | adding a device whose path is present leaves the set unchanged and keeps the existing member, `connectedAt` included |
| Menu.RemoveByPath | MoPort/MenuBarController.swift:151-157 | removal drops the member with that path whatever its other fields, keeps all others, and changes nothing when no member has the path |
| Menu.RemoveShrinksByOne | MoPort/MenuBarController.swift:151-154 | removing a present path shrinks the set by exactly one |
| Menu.PathUniqueKept | MoPort/MenuBarController.swift:18 | insertion and removal keep the set free of two devices with one path |
| Menu.EarliestExists | MoPort/MenuBarController.swift:63 | a non-empty set has a device with the earliest `connectedAt` |
| Menu.SortByConnectedAt | MoPort/MenuBarController.swift:63 | every device exactly once, in ascending `connectedAt` order |
| Menu.CreateDeviceMenuItem | MoPort/MenuBarController.swift:104-114 | a device entry titled with the path, carrying the device and the localized "click to copy" tool tip |
| Menu.MenuBarController.constructor | MoPort/MenuBarController.swift:22-26 | an empty set and the `noDevices` placeholder |
| Menu.MenuBarController.UpdateMenu | MoPort/MenuBarController.swift:52-67 | the `noDevices` placeholder alone when the set is empty. Otherwise one entry per device, titled with its path, in ascending `connectedAt` order |
| Menu.MenuBarController.AddDevice | MoPort/MenuBarController.swift:143-149 | the set becomes the insertion under path equality, stays path-unique, and the menu shows it |
| Menu.MenuBarController.RemoveDevice | MoPort/MenuBarController.swift:151-157 | the set becomes the removal by path, stays path-unique, and the menu shows it |

## Left out

- IOKit calls are not modelled. This covers the notification port, the matching
  registrations, `IOIteratorNext`, `IORegistryEntryCreateCFProperty` and `IOObjectRelease`.
  They are foreign calls; handles, batches and registration results stand in for them.
- Concurrency is not modelled: the concurrent queue, its barrier writes, and interleavings
  between the IOKit callbacks, the timer queue and the main queue. Every operation is atomic
  and sequential. The one race whose effect the model shows, a stale sweep snapshot, is
  modelled by calling `GetTrackedDevices` and `SweepSnapshot` separately.
- Timer timing is not modelled: the 2 s start delay and the 500 ms period. `Tick` is one
  firing.
- A replaced timer is not modelled. A second `startMonitoring` after a failed one creates an
  extra port and timer without cancelling the first; the model has one flag for each.
- The `Unmanaged` context objects and their retain and release are C memory management with
  no observable logic.
- Nil callbacks are not modelled. A consumer callback that was never set makes a delivered
  block do nothing; the model assumes both callbacks are set.
- Logging is not modelled: `fileLog`, `os_log` and `debugPrintState` only write output.
- `getTrackedDevices` also logs each device; only the returned value is modelled.
- `UUID()` and `Date()` are not generated. `connectedAt` is an input and `id` is dropped.
  As a result, `Device.NewDevice` has no default for `connectedAt`.
- Monitor.SerialMonitor.ScanExistingDevices, Monitor.SerialMonitor.StartMonitoring and
  Monitor.SerialMonitor.DeviceAttachedCallback: one time stamp per batch. The source takes a
  fresh `Date()` for each parsed device (`SerialDevice.swift:21`, reached from
  `SerialMonitor.swift:149` and `:315`). The model gives every device of one batch the same
  `now`. As a result, devices of one batch tie on `connectedAt`, and `UpdateMenu` may list
  them in any order. In the source their stamps normally increase in parse order, and the
  menu lists them in that order (`MenuBarController.swift:64`).
- Prefix tests use code points. Swift's `hasPrefix` (`SerialMonitor.swift:220`, `:349`;
  `Localization.swift:39`) compares grapheme clusters under canonical equivalence. The
  model's `<=` on strings compares code points. The two agree on the ASCII device paths and
  language codes involved, but not on every Unicode string.
- Monitor.GetIOIntProperty: the source has no zero-handle guard here. The model's zero handle
  carries no properties, so it reads as missing, as the IOKit call would.
- The AppKit side of `MenuBarController` is out of scope. This covers the status item, the
  other menu entries (language submenu, launch at login, about, quit), `copyDevicePath` and
  the clipboard, the copy feedback, the alerts, and the `UserDefaults` launch-at-login flag.
- The `languageChanged` notification and the observer that rebuilds the menu are not
  modelled. `UpdateMenu` takes the localization state as an argument instead.
- `MoPort/App.swift`, `MoPort/ToastWindow.swift`, `MoPort/MoPortAppIconView.swift` and
  `MoPort/ClipboardManager.swift` are application shell and UI, and are not part of this
  model.
- `assets/generate_icon.py` and `assets/generate_icns_final.py` are image generation and are
  not part of this model.
