# Device manager model

A Dafny model of the device/backend manager of `hal` (`src/device.rs`). The
manager enumerates the compute devices of every backend the ArrayFire runtime
reports. It keeps that catalogue, caches the "current device", and is the only
code that switches the runtime's process-wide active (backend, device) context.
It also migrates an array between devices by staging its elements in a host
buffer.

Files:

- `wrappers.dfy` (`Wrappers`): `Option`, `Result`, `Outcome`.
- `runtime.dfy` (`AfRuntime`): the runtime as an abstract class. An `Env` value
  fixes what the machine offers: the available backends, each backend's device
  count, and which backend and device switches succeed. The class holds the
  global active (backend, device id) pair and a ghost log of every switch call
  issued. Arrays are `(dims, elements, context)` values whose element type is a
  type parameter.
- `device_spec.dfy` (`DeviceSpec`): `Device`, the panics, and the manager's
  behaviour as functions of the environment: `Catalogue`, `Startup`,
  `SwapNext`, and `SwapRun` for a run of swaps. It also holds the lemmas about
  them.
- `device.dfy` (`DeviceManager`): `SetDevice`, `CreateDevices` and the class
  `DeviceManagerFactory`, whose methods `New`, `SwapDevice` and
  `SwapArrayBackend` are proved against those functions. The catalogue is a
  `const` field, so nothing after construction can change it. The cached
  current device is a `var` field. `Valid()` says the current device is
  catalogued and equals the runtime's active pair. Every successful method
  preserves `Valid()`.

A panic of the source (`panic!`, `assert!`, `unwrap` on an error) is an
`Err`/`Fail` result carrying a `Panic`, because the process would stop there.

The guard of `swap_device` (src/device.rs:64) is kept exactly as written. A
switch happens only when the target differs from the current device in both
backend and id. A target that differs in one field is skipped silently:
nothing is switched, `current` does not change, and no membership check runs,
because the `assert!` on line 66 sits inside the guard.
`SwapSkipped` and `SwapReachesTarget` state this. `SwapArrayBackend`'s
contract shows the consequence for migration. The array is read under the
device the first swap (to the input device) lands on, and the result is built
under the device the second swap lands on. Neither need be the requested one:
`MigrationReadSkipped` and `SameBackendMigrationStaysOnInput` exhibit both.
One might expect an uncatalogued target to be fatal in every case; the code
checks membership only when the guard fires, and the model follows the code.

## Model

| member | source | states |
|---|---|---|
| `DeviceSpec.SetDeviceOutcome` | src/device.rs:20-30 | `set_device(d)` returns exactly when the backend switch and the device switch both succeed |
| `DeviceSpec.SetDeviceOrder` | src/device.rs:20-30 | the backend switch is always issued first; a failed backend switch ends the call before any device switch; success issues exactly the backend switch and then the device switch |
| `DeviceManager.SetDevice` | src/device.rs:20-30 | outcome and issued switches equal `SetDeviceOutcome`/`SetDeviceCalls`; on success the runtime's active pair is the device |
| `DeviceSpec.DevicesOf` | src/device.rs:36-38 | a backend reporting `n` devices yields `max(n, 0)` devices in id order `0..n-1`, all on that backend; a device is among them iff it is on that backend and its id is in `0..n-1` |
| `DeviceSpec.SetDeviceCalls` | src/device.rs:20-30 | `set_device` always issues the backend switch first, at most two switches, and issues the device switch iff the backend switch succeeded |
| `DeviceSpec.CreateDevicesSpec` | src/device.rs:32-40 | `create_devices(b)` succeeds iff `b` can be activated and counted, panicking on the backend switch first; on success a device is returned iff it is on `b` with id in `0..count-1` |
| `DeviceManager.CreateDevices` | src/device.rs:32-40 | activates the backend (panics if that fails), reads its count (panics if that fails), and returns `DevicesOf(backend, count)`; issues exactly one backend switch |
| `DeviceSpec.Catalogue` | src/device.rs:45-49 | a successful catalogue comes only from backends that can all be activated and counted, and every catalogued device's backend is one of the reported backends |
| `DeviceSpec.Probes` | src/device.rs:47-48 | enumeration issues one backend switch per reported backend: the i-th switch is to the i-th reported backend |
| `DeviceSpec.CatalogueSucceeds` | src/device.rs:45-49 | enumeration succeeds iff every reported backend can be activated and counted |
| `DeviceSpec.CatalogueFailureSticks` | src/device.rs:47-49 | the first backend whose enumeration panics decides the panic of `new` |
| `DeviceSpec.CatalogueAppend` | src/device.rs:45-49 | the catalogue of `xs + ys` is the catalogue of `xs` followed by that of `ys`, i.e. devices appear in the order the runtime reports the backends |
| `DeviceSpec.CatalogueMembership` | src/device.rs:32-49 | a device is catalogued iff its backend was reported and `0 <= id < count` of that backend |
| `DeviceSpec.Startup` | src/device.rs:44-58 | a successful start has a non-empty catalogue equal to `Catalogue` of the reported backends, and a current device that is its last element, is catalogued, and was accepted by the runtime |
| `DeviceSpec.StartupSucceeds` | src/device.rs:44-58 | with at least one backend, each activatable with at least one device, `new` succeeds and starts on the last backend's last device |
| `DeviceSpec.StartupRejectsEmpty` | src/device.rs:51 | when no reported backend has a device, `new` panics on the emptiness assertion |
| `DeviceManager.DeviceManagerFactory.Init` | src/device.rs:55-58 | the factory holds exactly the given runtime, catalogue and current device |
| `DeviceManager.DeviceManagerFactory.New` | src/device.rs:44-59 | succeeds iff `Startup` does and fails with the same panic; on success the catalogue and current device are `Startup`'s, the runtime is on the current device (`Valid()`), and the switches issued are one per backend, then `set_device(current)` |
| `DeviceSpec.SwapGuard` | src/device.rs:64 | the guard, kept as written with `&&`; when it fires the target differs from the current device |
| `DeviceSpec.SwapCalls` | src/device.rs:64-69 | `swap_device` issues a switch iff the guard fires and the target is catalogued, and at most two switches |
| `DeviceSpec.SwapRun` | src/device.rs:61-72 | a successful run of swaps ends on the starting device or on one of the targets |
| `DeviceSpec.SwapRunCalls` | src/device.rs:61-72 | a run of swaps issues at most two switches per swap |
| `DeviceSpec.SwapNext` | src/device.rs:61-72 | the current device changes only to the target, and only if the target is catalogued and accepted by the runtime; a panic on a catalogued target comes from the runtime |
| `DeviceSpec.SwapSkipped` | src/device.rs:63-64 | a target equal to the current device or differing in only one field leaves `current` unchanged, issues no switch and is not checked for membership |
| `DeviceSpec.SwapRejectsUnregistered` | src/device.rs:64-66 | a target differing in both fields that is not catalogued panics before any switch |
| `DeviceSpec.SwapEffective` | src/device.rs:64-71 | a catalogued target differing in both fields that the runtime accepts becomes current, after exactly one backend switch and one device switch with its fields |
| `DeviceSpec.SwapReachesTarget` | src/device.rs:63-71 | after a successful swap, the target is current iff it already was or it differed in both fields |
| `DeviceSpec.SwapIdempotent` | src/device.rs:61-72 | repeating a successful swap changes nothing and issues no switch |
| `DeviceSpec.SwapRunStaysCatalogued` | src/device.rs:61-72 | from a catalogued device, every run of swaps that succeeds ends on a catalogued device |
| `DeviceSpec.SwapRunNeverPanics` | src/device.rs:61-72 | if the runtime accepts every catalogued device, a run of swaps to catalogued targets never panics |
| `DeviceManager.DeviceManagerFactory.SwapDevice` | src/device.rs:61-72 | succeeds or panics as `SwapNext` says, sets `current` to `SwapNext`'s device, keeps `Valid()`, leaves `current` alone on a panic, and issues exactly `SwapCalls` |
| `DeviceSpec.SameDeviceMigration` | src/device.rs:79-87 | migrating from the current device to itself stays put and issues no switch |
| `DeviceSpec.RepeatedTargetMigration` | src/device.rs:79-87 | migrating from any device to itself has exactly the outcome and switches of the single swap to that device |
| `DeviceSpec.MigrationReadSkipped` | src/device.rs:79-84 | from (Cpu, 0), the swap to input device (Cuda, 0) is skipped, so the array is read while (Cpu, 0) is active |
| `DeviceSpec.SameBackendMigrationStaysOnInput` | src/device.rs:79-88 | from (Cpu, 0), migrating from (Cuda, 1) to (Cuda, 0) ends on (Cuda, 1): the result is built on the input device |
| `DeviceManager.DeviceManagerFactory.SwapArrayBackend` | src/device.rs:74-89 | swaps to the input device, copies through a host buffer, then swaps to the target. It panics only where that run of two swaps does. The array is read while the device the first swap lands on is active (`readOn`; it is the input device iff `SwapReachesTarget` says so). The result has the input's dims and element sequence, is bound to the device the run lands on (which becomes current, with `Valid()` kept), and the switches issued are those of the run |
| `AfRuntime.Runtime.AvailableBackends` | src/device.rs:46 | returns the backends the environment reports, or fails |
| `AfRuntime.Runtime.SetBackend` | src/device.rs:21 | logs the switch, succeeds iff the backend can be activated, and then makes it the active backend |
| `AfRuntime.Runtime.SetDevice` | src/device.rs:26 | logs the switch, succeeds iff the id can be activated under the active backend, and then makes it the active id |
| `AfRuntime.Runtime.DeviceCount` | src/device.rs:35 | returns the active backend's reported device count, or fails |
| `AfRuntime.Runtime.Host` | src/device.rs:83-84 | fills a buffer of exactly the array's element count with its elements; any other buffer size fails |
| `AfRuntime.Runtime.NewArray` | src/device.rs:88 | builds an array of the given dims from the buffer's first `dims.elements()` values, bound to the active context |

## Left out

- `src/loss.rs` is not part of this model. It is floating-point arithmetic on runtime arrays through foreign calls, plus a name dispatch over those results.
- ArrayFire itself is abstract. Backends are ArrayFire's four kinds (`Default`, `Cpu`, `Cuda`, `OpenCl`). The runtime keeps one device id across backend switches, whereas ArrayFire keeps an active device per backend. A switch's success is fixed by `Env`.
- AfRuntime.Runtime.Host and AfRuntime.Runtime.NewArray: they fail only on a size mismatch. Driver-level download or construction failures are not modelled. The model proves that the size checks always pass inside `SwapArrayBackend`.
- DeviceManager.DeviceManagerFactory.SwapArrayBackend: reading an array while a device other than its own is active is not an error in the model; the contract states the device the read happens under (`readOn`) but not what the driver would do then. A failure of `input.dims()` (src/device.rs:82) is not modelled: the shape is a field of the array value.
- Arrays are migrated with their element type kept abstract. The forced `F32` element type and the conversion on rebuild (src/device.rs:88) are not modelled.
- `Arc` sharing and the `Cell`: the factory is one object with a mutable field. Concurrent callers and the single-writer contract are outside a sequential model.
- DeviceManager.DeviceManagerFactory.New: after a panic, the switches already issued and the runtime's half-switched state are not stated. The process stops there.
- DeviceManager.DeviceManagerFactory.SwapDevice: after a runtime panic, `Valid()` is not promised, because the backend may already have been switched.
- Panic message texts and the commented-out logging (src/device.rs:67-68).
- `Vec::contains` is sequence membership.
