/** The device handle the shim hands out: its public fingerprint_device_t
    fields, the vendor device it wraps, and the operations the public table
    points at. Every operation but enumerate on a pre-2.1 vendor is a
    call-through to the same vendor operation. */
module DeviceHandle {
  import opened HalTypes
  import opened LegacyEnumeration

  /** The two functions open may install in the public enumerate slot. */
  datatype EnumerateEntry = DirectEnumerate | LegacyBridge

  /** Functions the close slot of a hw_device_t may point at. */
  datatype CloseEntry = ShimClose | VendorClose

  /** Which device object a close call is handed. */
  datatype HandleRef = ShimHandle | VendorHandle

  /** A call of a close entry with a device argument. */
  datatype CloseCall = CloseCall(callee: CloseEntry, argument: HandleRef)

  /** The handle open picks for a vendor module of the given API version. */
  function EnumerateEntryFor(moduleApiVersion: uint32): (e: EnumerateEntry)
    ensures e == DirectEnumerate <==> moduleApiVersion >= FINGERPRINT_MODULE_API_VERSION_2_1
  {
    if moduleApiVersion >= FINGERPRINT_MODULE_API_VERSION_2_1 then DirectEnumerate else LegacyBridge
  }

  /** A pre-2.1 vendor writes no more ids than the capacity it is given. */
  predicate HonoursCapacity(vendor: VendorDevice)
  {
    |vendor.enumerateLegacy(MAX_FINGERPRINTS).ids| <= MAX_FINGERPRINTS
  }

  class Handle {
    // public fingerprint_device_t fields
    var tag: uint32
    var version: uint32
    var owner: ModuleRef
    var closeEntry: Option<CloseEntry>
    var enumerateEntry: Option<EnumerateEntry>
    var notify: Option<Callback>
    // the vendor's own opened device
    const vendor: VendorDevice
    // every call of `notify` the shim itself has made, in order
    var sent: seq<Delivery>
    // whether close has released the handle
    var closed: bool

    /** A zero-filled handle, every public pointer NULL, holding the vendor
        device that the vendor's open wrote into it. */
    constructor (vendorDevice: VendorDevice)
      ensures vendor == vendorDevice
      ensures tag == 0 && version == 0 && owner == ModuleRef(0)
      ensures closeEntry.None? && enumerateEntry.None?
      ensures notify.None? && sent == [] && !closed
    {
      vendor := vendorDevice;
      tag, version, owner := 0, 0, ModuleRef(0);
      closeEntry, enumerateEntry := None, None;
      notify, sent, closed := None, [], false;
    }

    method PreEnroll() returns (r: uint64)
      ensures r == vendor.preEnroll()
    {
      r := vendor.preEnroll();
    }

    method Enroll(hat: Option<AuthToken>, gid: uint32, timeoutSec: uint32) returns (r: int32)
      ensures r == vendor.enroll(hat, gid, timeoutSec)
    {
      r := vendor.enroll(hat, gid, timeoutSec);
    }

    method PostEnroll() returns (r: int32)
      ensures r == vendor.postEnroll()
    {
      r := vendor.postEnroll();
    }

    method GetAuthId() returns (r: uint64)
      ensures r == vendor.getAuthenticatorId()
    {
      r := vendor.getAuthenticatorId();
    }

    method Cancel() returns (r: int32)
      ensures r == vendor.cancel()
    {
      r := vendor.cancel();
    }

    method Remove(gid: uint32, fid: uint32) returns (r: int32)
      ensures r == vendor.remove(gid, fid)
    {
      r := vendor.remove(gid, fid);
    }

    method SetActiveGroup(gid: uint32, storePath: string) returns (r: int32)
      ensures r == vendor.setActiveGroup(gid, storePath)
    {
      r := vendor.setActiveGroup(gid, storePath);
    }

    method Authenticate(operationId: uint64, gid: uint32) returns (r: int32)
      ensures r == vendor.authenticate(operationId, gid)
    {
      r := vendor.authenticate(operationId, gid);
    }

    /** Stores the callback in the handle, where the legacy bridge finds it,
        then registers it with the vendor. */
    method SetNotify(cb: Option<Callback>) returns (r: int32)
      modifies this`notify
      ensures notify == cb
      ensures r == vendor.setNotify(cb)
    {
      notify := cb;
      r := vendor.setNotify(cb);
    }

    /** The enumerate of a 2.1 vendor, which sends its own notifications; the
        shim sends none. */
    method EnumerateDirect() returns (r: int32)
      ensures r == vendor.enumerate()
    {
      r := vendor.enumerate();
    }

    /** The bridge can deliver what a pre-2.1 vendor reports: the vendor keeps
        to the buffer's capacity, and a callback is stored whenever there is
        something to deliver. */
    predicate BridgeReady()
      reads this`notify
    {
      var e := vendor.enumerateLegacy(MAX_FINGERPRINTS);
      HonoursCapacity(vendor) && (e.status == 0 && e.ids != [] ==> notify.Some?)
    }

    /** The notifications the bridge owes for what the vendor reports. */
    function Synthesized(): (calls: seq<Delivery>)
      reads this`notify
      requires BridgeReady()
    {
      var e := vendor.enumerateLegacy(MAX_FINGERPRINTS);
      if e.status == 0 && e.ids != [] then Deliveries(notify.value, Announce(e.ids)) else []
    }

    /** Asks a pre-2.1 vendor for at most MAX_FINGERPRINTS ids and, when it
        succeeds, reports each id through the stored callback with the count
        of ids still to come. The vendor's status is returned as it is. */
    method EnumeratePre21() returns (r: int32)
      requires BridgeReady()
      modifies this`sent
      ensures r == vendor.enumerateLegacy(MAX_FINGERPRINTS).status
      ensures sent == old(sent) + Synthesized()
      ensures r != 0 ==> sent == old(sent)
    {
      var e := vendor.enumerateLegacy(MAX_FINGERPRINTS);
      r := e.status;
      if r == 0 {
        var results := e.ids;
        var n: uint32 := |results|;
        var i: uint32 := 0;
        var msg: Msg;
        while i < n
          invariant i <= n
          invariant n > 0 ==> notify.Some?
          invariant i == 0 ==> sent == old(sent)
          invariant i > 0 ==> sent == old(sent) + Deliveries(notify.value, Announce(results)[..i])
        {
          msg := TemplateEnumerating(results[i], n - i - 1);
          assert Announce(results)[..i + 1] == Announce(results)[..i] + [msg];
          sent := sent + [Delivery(notify.value, msg)];
          i := i + 1;
        }
        assert n > 0 ==> Announce(results)[..i] == Announce(results);
      }
    }

    /** A call through the public enumerate slot. */
    method Enumerate() returns (r: int32)
      requires enumerateEntry.Some?
      requires enumerateEntry == Some(LegacyBridge) ==> BridgeReady()
      modifies this`sent
      ensures enumerateEntry == Some(DirectEnumerate) ==>
        r == vendor.enumerate() && sent == old(sent)
      ensures enumerateEntry == Some(LegacyBridge) ==>
        r == vendor.enumerateLegacy(MAX_FINGERPRINTS).status && sent == old(sent) + Synthesized()
    {
      match enumerateEntry.value
      case DirectEnumerate =>
        r := EnumerateDirect();
      case LegacyBridge =>
        r := EnumeratePre21();
    }

    /** The call fingerprint_close makes as written: through the handle's own
        public close slot, with the vendor's device as argument. */
    function CloseCallAsWritten(): (c: CloseCall)
      reads this`closeEntry
      requires closeEntry.Some?
      ensures c.callee == closeEntry.value
      ensures c.argument == VendorHandle
    {
      CloseCall(closeEntry.value, VendorHandle)
    }

    /** Closes the vendor device, releases the handle and returns the
        vendor's close status. */
    method Close() returns (r: int32)
      requires !closed
      modifies this`closed
      ensures closed
      ensures r == vendor.close()
    {
      r := vendor.close();
      closed := true;
    }
  }
}
