/** Fixed-width integers, error codes, constants and the shapes of the vendor
    HAL that the fingerprint shim routes to. The vendor side (module loader,
    vendor module, vendor device) is opaque to the shim: each of its
    operations is a function value that the shim calls and whose result it
    passes on. */
module HalTypes {

  type int32 = x: int | -0x8000_0000 <= x < 0x8000_0000
  type uint32 = x: int | 0 <= x < 0x1_0000_0000
  type uint64 = x: int | 0 <= x < 0x1_0000_0000_0000_0000

  /** A value of the C `errno` variable after a failed system call. */
  type Errno = x: int | 0 < x < 0x8000_0000 witness 1

  const EINVAL: int32 := 22
  const ENOMEM: int32 := 12

  /** MAKE_TAG_CONSTANT('H', 'W', 'D', 'T') of hardware/hardware.h. */
  const HARDWARE_DEVICE_TAG: uint32 := 0x4857_4454

  /** HARDWARE_MODULE_API_VERSION(2, 1): major in bits 8..15, minor in 0..7. */
  const FINGERPRINT_MODULE_API_VERSION_2_1: uint32 := 0x0201

  /** Capacity of the result buffer handed to a pre-2.1 vendor enumerate. */
  const MAX_FINGERPRINTS: uint32 := 100

  datatype Option<+T> = None | Some(value: T)

  /** fingerprint_finger_id_t: a group id and a finger id. */
  datatype FingerId = FingerId(gid: uint32, fid: uint32)

  /** The FINGERPRINT_TEMPLATE_ENUMERATING variant of fingerprint_msg_t. */
  datatype Msg = TemplateEnumerating(finger: FingerId, remainingTemplates: uint32)

  /** Identity of a fingerprint_notify_t function pointer. */
  datatype Callback = Callback(address: nat)

  /** One call of the stored notify callback with a message. */
  datatype Delivery = Delivery(callback: Callback, msg: Msg)

  /** Identity of the hw_module_t pointer the loader passes to open. */
  datatype ModuleRef = ModuleRef(address: nat)

  /** An opaque hw_auth_token_t. */
  datatype AuthToken = AuthToken(bytes: seq<bv8>)

  /** What the pre-2.1 vendor enumerate reports: its status, and the ids it
      wrote into the caller's buffer (their count is the `n` it writes back). */
  datatype LegacyEnumeration = LegacyEnumeration(status: int32, ids: seq<FingerId>)

  /** The vendor's opened fingerprint_device_t: its declared version and its
      operations, each an uninterpreted function of the call's arguments.
      `enumerateLegacy` is the same `enumerate` slot read with the pre-2.1
      signature (result buffer, capacity in and count out). */
  datatype VendorDevice = VendorDevice(
    version: uint32,
    preEnroll: () -> uint64,
    enroll: (Option<AuthToken>, uint32, uint32) -> int32,
    postEnroll: () -> int32,
    getAuthenticatorId: () -> uint64,
    cancel: () -> int32,
    enumerate: () -> int32,
    enumerateLegacy: uint32 -> LegacyEnumeration,
    remove: (uint32, uint32) -> int32,
    setActiveGroup: (uint32, string) -> int32,
    authenticate: (uint64, uint32) -> int32,
    setNotify: Option<Callback> -> int32,
    close: () -> int32)

  /** What the vendor module's methods->open reports for a device id. */
  datatype VendorOpen = VendorOpen(status: int32, device: VendorDevice)

  /** A loaded vendor fingerprint_module_t. */
  datatype VendorModule = VendorModule(
    name: string,
    moduleApiVersion: uint32,
    open: string -> VendorOpen)

  /** Status and module pointer written back by the system module loader. */
  datatype LoadResult = LoadResult(status: int32, loaded: Option<VendorModule>)

  /** The system module loader: hw_get_module_by_class and hw_get_module. */
  datatype ModuleLoader = ModuleLoader(
    byClass: (string, string) -> LoadResult,
    byName: string -> LoadResult)

  /** The two ways of asking the module loader for a vendor module. */
  datatype Lookup =
    | ByClass(className: string, instance: string)
    | ByName(moduleId: string)

  /** Calls the shim makes into the system, in order, as seen from outside. */
  datatype Effect =
    | ProbeSensor
    | LookupModule(how: Lookup)
    | Allocate
    | OpenVendor(deviceId: string)
}
