/** The shim's process-wide state, the static vendor module slot, with the
    lazy binding of that slot and the open entry point of the module. */
module FingerprintHal {
  import opened HalTypes
  import opened SensorProbe
  import opened VendorBinding
  import opened DeviceHandle

  /** The API version this module declares to the module loader: callers
      always see the 2.1 enumerate contract. */
  const DeclaredApiVersion: uint32 := FINGERPRINT_MODULE_API_VERSION_2_1

  /** The caller's `hw_device_t **` out-slot. */
  class OutSlot {
    var handle: Handle?

    constructor ()
      ensures handle == null
    {
      handle := null;
    }
  }

  /** A handle exactly as a successful open fills it in. */
  ghost predicate Opened(h: Handle, owner: ModuleRef, vendorDevice: VendorDevice, moduleApiVersion: uint32)
    reads h
  {
    && h.tag == HARDWARE_DEVICE_TAG
    && h.version == vendorDevice.version
    && h.owner == owner
    && h.closeEntry == Some(ShimClose)
    && h.enumerateEntry == Some(EnumerateEntryFor(moduleApiVersion))
    && h.vendor == vendorDevice
    && h.notify.None?
    && h.sent == []
    && !h.closed
  }

  class Shim {
    /** The static vendor module slot; None stands for NULL. */
    var vendor: Option<VendorModule>
    /** Every call the shim has made into the system, in order. */
    ghost var trace: seq<Effect>

    /** The slot as the program starts: empty, nothing called yet. */
    constructor ()
      ensures vendor.None? && trace == []
    {
      vendor := None;
      trace := [];
    }

    /** ensure_vendor_module_is_loaded: binds the slot if it is empty and
        reports whether a vendor module is now bound. */
    method EnsureLoaded(probe: ProbeOutcome, loader: ModuleLoader) returns (ok: bool)
      modifies this
      ensures vendor == Bind(old(vendor), probe, loader).slot
      ensures trace == old(trace) + Bind(old(vendor), probe, loader).effects
      ensures ok <==> vendor.Some?
    {
      if vendor.None? {
        trace := trace + [ProbeSensor];
        var sensorVersion := SensorVersion(probe);
        if sensorVersion < 0 {
          return false;
        }
        var ret: int32;
        if sensorVersion == 1 || sensorVersion == 2 {
          trace := trace + [LookupModule(ByClass("fingerprint", "fpc"))];
          var res := loader.byClass("fingerprint", "fpc");
          ret, vendor := res.status, res.loaded;
        } else if sensorVersion == 3 {
          trace := trace + [LookupModule(ByName("gf_fingerprint"))];
          var res := loader.byName("gf_fingerprint");
          ret, vendor := res.status, res.loaded;
        } else {
          return false;
        }
        if ret != 0 {
          vendor := None;
        }
      }
      ok := vendor.Some?;
    }

    /** fingerprint_open: checks the out-slot, binds the vendor module,
        allocates a handle (`allocOk` says whether the allocation succeeds),
        opens the vendor device and fills in the handle. */
    method Open(owner: ModuleRef, id: string, device: OutSlot?,
                probe: ProbeOutcome, loader: ModuleLoader, allocOk: bool) returns (r: int32)
      modifies this, device
      // a null out-slot is refused before anything else happens
      ensures device == null ==>
        r == -EINVAL && vendor == old(vendor) && trace == old(trace)
      ensures device != null ==>
        var b := Bind(old(vendor), probe, loader);
        && vendor == b.slot
        // no vendor module: invalid argument, nothing allocated
        && (b.slot.None? ==>
              r == -EINVAL && trace == old(trace) + b.effects && device.handle == old(device.handle))
        // allocation fails: out of memory, vendor not asked
        && (b.slot.Some? && !allocOk ==>
              r == -ENOMEM && trace == old(trace) + b.effects + [Allocate]
              && device.handle == old(device.handle))
        && (b.slot.Some? && allocOk ==>
              var vo := b.slot.value.open(id);
              && trace == old(trace) + b.effects + [Allocate, OpenVendor(id)]
              // the vendor's failure is passed on and the handle dropped
              && (vo.status != 0 ==> r == vo.status && device.handle == old(device.handle))
              // success: a new handle wrapping the vendor's device
              && (vo.status == 0 ==>
                    && r == 0 && device.handle != null && fresh(device.handle)
                    && Opened(device.handle, owner, vo.device, b.slot.value.moduleApiVersion)))
    {
      if device == null {
        return -EINVAL;
      }
      var loaded := EnsureLoaded(probe, loader);
      if !loaded {
        return -EINVAL;
      }
      trace := trace + [Allocate];
      if !allocOk {
        return -ENOMEM;
      }
      var bound := vendor.value;
      trace := trace + [OpenVendor(id)];
      var vo := bound.open(id);
      if vo.status != 0 {
        return vo.status;
      }
      var dev := new Handle(vo.device);
      dev.tag := HARDWARE_DEVICE_TAG;
      dev.version := vo.device.version;
      dev.owner := owner;
      dev.closeEntry := Some(ShimClose);
      if bound.moduleApiVersion >= FINGERPRINT_MODULE_API_VERSION_2_1 {
        dev.enumerateEntry := Some(DirectEnumerate);
      } else {
        dev.enumerateEntry := Some(LegacyBridge);
      }
      dev.notify := None;
      device.handle := dev;
      r := 0;
    }
  }

  /** On every handle a successful open returns, the close call as written
      re-enters the shim's own close with the vendor's device instead of
      calling the vendor's close. */
  lemma CloseAsWrittenReenters(h: Handle, owner: ModuleRef, vendorDevice: VendorDevice,
                               moduleApiVersion: uint32)
    requires Opened(h, owner, vendorDevice, moduleApiVersion)
    ensures h.CloseCallAsWritten() == CloseCall(ShimClose, VendorHandle)
    ensures h.CloseCallAsWritten().callee != VendorClose
  {
  }
}
