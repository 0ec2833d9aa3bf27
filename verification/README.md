# Fingerprint HAL wrapper: a verified model

The fingerprint HAL wrapper lets one Android image drive two fingerprint
sensors. It reads the sensor code from sysfs. From that code it picks a vendor
fingerprint HAL module: the FPC module, found by class, for codes 1 and 2, or
the Goodix module, found by name, for code 3. It then forwards every
fingerprint_device_t operation to that vendor's device. There is one
adaptation. A vendor module older than API version 2.1 has a pull-style
`enumerate`, and the wrapper turns its answer into one
FINGERPRINT_TEMPLATE_ENUMERATING notification per enrolled template.

This Dafny project models that routing and adaptation layer
(`fingerprint/fingerprint.c`):

- `hal_types.dfy` (module `HalTypes`): fixed-width integers, the error codes
  (`EINVAL` = 22, `ENOMEM` = 12), `HARDWARE_DEVICE_TAG`,
  `FINGERPRINT_MODULE_API_VERSION_2_1` (0x0201) and `MAX_FINGERPRINTS` (100).
  It also defines the vendor side: the module loader, the vendor module and
  the vendor device. Each is a datatype whose operations are function values,
  so the shim can call them but knows nothing about them.
- `sensor_probe.dfy` (`SensorProbe`): the result of `get_sensor_version`,
  computed from how the sysfs read ended.
- `vendor_binding.dfy` (`VendorBinding`): the sensor-code dispatch, and
  `Bind`, one binding attempt as a function. `Bind` maps the slot before the
  call to the slot after it, together with the system calls the attempt made.
- `legacy_enumeration.dfy` (`LegacyEnumeration`): `Announce`, the
  notifications owed for a pre-2.1 vendor's id list. `Collect` is a receiver
  that reads such notifications back.
- `device_handle.dfy` (`DeviceHandle`): the class `Handle`, standing for the
  `device_t` the shim allocates. It holds the public fields, the wrapped vendor
  device and a log `sent` of every call the shim makes to the stored notify
  callback. Its methods are the forwarders, `set_notify`, the two enumerate
  functions and close.
- `fingerprint_hal.dfy` (`FingerprintHal`): the class `Shim`, which holds the
  static vendor slot and a ghost `trace` of system calls. Its methods are
  `EnsureLoaded` (ensure_vendor_module_is_loaded) and `Open`
  (fingerprint_open).

Inputs of the model stand in for the outside world:

- a `ProbeOutcome` for the sysfs read;
- a `ModuleLoader` for `hw_get_module_by_class` and `hw_get_module`;
- a `bool` for whether `calloc` succeeds;
- the vendor module's `open` function for the vendor's open.

A NULL pointer is `None` (for the slot and the callback) or `null` (for the
caller's out-slot).

The legacy bridge `Handle.EnumeratePre21` has a precondition,
`BridgeReady()`, that makes two of the code's own demands explicit. The vendor
must write at most `MAX_FINGERPRINTS` ids, because the result buffer is a
100-entry stack array and nothing checks the count the vendor writes back. A
callback must be stored whenever the vendor reports at least one id, because
the code calls the stored `notify` pointer without checking it for NULL.

A failed binding is not cached. A failed probe, an unsupported code or a
failed lookup leaves the slot NULL, so the next open probes the sensor again
(`VendorBinding.FailedBindReprobes`).

## Model

| member | source | states |
|---|---|---|
| SensorProbe.SensorVersion | fingerprint/fingerprint.c:44-74 | a parsed code is returned as it is; every failure gives a negative code: -errno of the failed open, -errno of the failed read, or -EINVAL for content that is not an integer |
| VendorBinding.LookupFor | fingerprint/fingerprint.c:88-101 | codes 1 and 2 (and only they) select the class lookup ("fingerprint", "fpc"); code 3 (and only it) selects the by-name lookup "gf_fingerprint"; every other code selects no lookup |
| VendorBinding.Resolve | fingerprint/fingerprint.c:92-96 | a class lookup is answered by `hw_get_module_by_class` with the same class and instance, a by-name lookup by `hw_get_module` with the same module id |
| VendorBinding.Bind | fingerprint/fingerprint.c:76-114 | a bound slot is kept with no probe and no lookup; an empty slot is probed once, first; a lookup happens exactly when the code is supported and is the one that code selects; a lookup with status 0 fills the slot with the module the loader wrote, and only such a lookup fills it; a failed lookup leaves it empty |
| VendorBinding.FirstBindSucceeds | fingerprint/fingerprint.c:88-110 | a first attempt with code 1, 2 or 3 whose lookup answers status 0 and a module binds that module, after one probe and that one lookup |
| VendorBinding.BindIsIdempotent | fingerprint/fingerprint.c:78-85 | after a successful binding, any later attempt returns the same module without probing or looking up, whatever the sensor and loader would now report |
| VendorBinding.FailedBindReprobes | fingerprint/fingerprint.c:103-105 | failure is not cached: after an attempt that leaves the slot empty, the next attempt probes again and behaves like a first attempt |
| FingerprintHal.Shim.constructor | fingerprint/fingerprint.c:39-42 | the static vendor slot starts empty, with no system call made |
| FingerprintHal.Shim.EnsureLoaded | fingerprint/fingerprint.c:76-114 | the new slot and the calls made are those of `Bind` on the old slot; the result is true exactly when a module is now bound |
| FingerprintHal.Shim.Open | fingerprint/fingerprint.c:214-265 | errors come in a fixed order, each with no later step taken: null out-slot gives -EINVAL before any binding; no module gives -EINVAL; failed allocation gives -ENOMEM before the vendor is asked; the vendor's nonzero open status is returned unchanged. The out-slot is untouched on every failure. On success the result is 0 and the slot holds a fresh handle: tag HARDWARE_DEVICE_TAG, version copied from the vendor device, the caller's module, close entry the shim's close, notify NULL, and an enumerate entry chosen by the vendor module's API version |
| FingerprintHal.OutSlot.constructor | fingerprint/fingerprint.c:214-215 | the caller's `hw_device_t **` out-slot, holding no handle until open stores one |
| DeviceHandle.Handle.constructor | fingerprint/fingerprint.c:229 | a zero-filled handle holding the vendor device: tag, version and owner zero, the close, enumerate and notify pointers NULL, nothing sent, not closed |
| DeviceHandle.EnumerateEntryFor | fingerprint/fingerprint.c:252-256 | the direct pass-through is chosen exactly when the vendor module's API version is at least FINGERPRINT_MODULE_API_VERSION_2_1; otherwise the legacy bridge |
| DeviceHandle.Handle.PreEnroll | fingerprint/fingerprint.c:116-119 | returns the vendor's pre_enroll result unchanged |
| DeviceHandle.Handle.Enroll | fingerprint/fingerprint.c:121-127 | returns the vendor's enroll result for the same token, group and timeout |
| DeviceHandle.Handle.PostEnroll | fingerprint/fingerprint.c:129-133 | returns the vendor's post_enroll result unchanged |
| DeviceHandle.Handle.GetAuthId | fingerprint/fingerprint.c:135-138 | returns the vendor's get_authenticator_id result unchanged |
| DeviceHandle.Handle.Cancel | fingerprint/fingerprint.c:140-143 | returns the vendor's cancel result unchanged |
| DeviceHandle.Handle.EnumerateDirect | fingerprint/fingerprint.c:175-179 | returns the vendor's 2.1 enumerate result and sends no notification of its own |
| DeviceHandle.Handle.Remove | fingerprint/fingerprint.c:181-185 | returns the vendor's remove result for the same group and finger |
| DeviceHandle.Handle.SetActiveGroup | fingerprint/fingerprint.c:187-191 | returns the vendor's set_active_group result for the same group and store path |
| DeviceHandle.Handle.Authenticate | fingerprint/fingerprint.c:193-197 | returns the vendor's authenticate result for the same operation id and group |
| DeviceHandle.Handle.SetNotify | fingerprint/fingerprint.c:199-204 | the handle now holds the given callback, and the result is the vendor's set_notify result for that same callback |
| DeviceHandle.Handle.EnumeratePre21 | fingerprint/fingerprint.c:145-173 | asks the vendor with capacity MAX_FINGERPRINTS and returns its status unchanged; on status 0 it sends, through the stored callback, exactly the notifications `Announce` gives for the returned ids; on any other status it sends nothing |
| DeviceHandle.Handle.Enumerate | fingerprint/fingerprint.c:252-256 | a call through the public enumerate slot: with the direct entry, the vendor's result and no notification; with the bridge entry, the bridge's status and notifications |
| LegacyEnumeration.Announce | fingerprint/fingerprint.c:164-169 | one TEMPLATE_ENUMERATING message per id, in the vendor's order; the i-th carries id i and n - i - 1 remaining, so the counts run from n-1 down to 0 |
| LegacyEnumeration.CollectAnnounce | fingerprint/fingerprint.c:164-169 | a receiver that reads the messages until one reports zero remaining gets back exactly the vendor's id list, in order |
| LegacyEnumeration.AnnounceThreeTemplates | fingerprint/fingerprint.c:164-169 | ids 10, 11, 12 are announced in that order with 2, 1 and 0 remaining |
| DeviceHandle.Handle.CloseCallAsWritten | fingerprint/fingerprint.c:209 | as written, close calls whatever the handle's own public close slot holds, and hands it the vendor's device |
| FingerprintHal.CloseAsWrittenReenters | fingerprint/fingerprint.c:206-212 | on every handle a successful open returns, the close call as written goes to the shim's own close with the vendor's device as argument, and never to the vendor's close |
| DeviceHandle.Handle.Close | fingerprint/fingerprint.c:206-212 | corrected close: the result is the vendor device's close status, and the handle is released |

## Findings

| source | as written | input that shows it | evidently intended | confidence | as-written member | corrected member |
|---|---|---|---|---|---|---|
| fingerprint/fingerprint.c:209 | close calls through the handle's own public close slot, which line 245 set to this same function, and hands it the vendor's device | any handle from a successful open, then close | call the vendor device's own close with the vendor device, then free the handle | not executed; the call target follows from lines 209 and 245 alone | DeviceHandle.Handle.CloseCallAsWritten, FingerprintHal.CloseAsWrittenReenters | DeviceHandle.Handle.Close |

The re-entered call reads the vendor's device as if it were a shim handle. It
therefore reaches the vendor's close with whatever lies past the vendor's
fingerprint_device_t, and then frees the vendor's device. The model records
only where the call goes, not what that misread memory does.

## Left out

- Sysfs I/O, `strerror_r`, `close` of the file and the `%d` scan: a probe is given by how it ended (`ProbeOutcome`). The buffer may be unterminated or uninitialised, and that is not modelled.
- Dynamic module loading: `hw_get_module_by_class` and `hw_get_module` are the `ModuleLoader` input, which returns a status and the module pointer it wrote.
- Vendor device internals: each vendor operation is an uninterpreted function of its arguments, so the vendor's own state between calls is not modelled. The notifications a 2.1 vendor sends itself are not modelled either. `sent` holds only the ones the shim makes.
- The pre-2.1 `enumerate` shares the `enumerate` slot through a pointer cast. The model gives it its own field, `enumerateLegacy`, which takes the capacity and returns the status and the ids written.
- `calloc` and `free`: allocation is a success-or-failure input. A handle object exists in the model only after the vendor's open succeeds, so the handle freed on a vendor-open failure is not observable. The unions at lines 33-36 and 39-42 are separate typed fields.
- Release of memory is the `closed` flag of `Handle`. Using a handle after close is not modelled.
- The other fields of the static module descriptor (lines 267-283) are constant data. Only the declared API version is kept, as `FingerprintHal.DeclaredApiVersion`.
- Logging (`ALOGE`, `ALOGI`) has no effect on results and is left out.
- Concurrency: the code has none and does not serialise the first binding.
- VendorBinding.Bind: a loader answer of status 0 with no module is modelled as "nothing bound, return false". The code logs the module's name on status 0 (lines 107-109) and so dereferences NULL on that input; the model gives it a behaviour the code does not have.
- DeviceHandle.Handle.EnumeratePre21: assumes the vendor writes back at most 100 ids and that a callback is stored when ids are reported. The code has no guard for either; both are its precondition `BridgeReady()`.
