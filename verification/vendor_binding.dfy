/** Sensor-version dispatch and the lazy binding of the process-wide vendor
    module slot, as a function from the slot before a call to the slot after
    it and the system calls made on the way. */
module VendorBinding {
  import opened HalTypes
  import opened SensorProbe

  /** Which module lookup a sensor code selects: codes 1 and 2 are the FPC
      sensors, found by class, code 3 is the Goodix sensor, found by name;
      no other code selects a lookup. */
  function LookupFor(version: int32): (l: Option<Lookup>)
    ensures l == Some(ByClass("fingerprint", "fpc")) <==> version == 1 || version == 2
    ensures l == Some(ByName("gf_fingerprint")) <==> version == 3
    ensures l.None? <==> version != 1 && version != 2 && version != 3
  {
    if version == 1 || version == 2 then Some(ByClass("fingerprint", "fpc"))
    else if version == 3 then Some(ByName("gf_fingerprint"))
    else None
  }

  /** What the system module loader answers to a lookup. */
  function Resolve(loader: ModuleLoader, how: Lookup): (res: LoadResult)
    ensures how.ByClass? ==> res == loader.byClass(how.className, how.instance)
    ensures how.ByName? ==> res == loader.byName(how.moduleId)
  {
    match how
    case ByClass(c, i) => loader.byClass(c, i)
    case ByName(id) => loader.byName(id)
  }

  /** The vendor slot after one binding attempt, and the calls it made. */
  datatype Binding = Binding(slot: Option<VendorModule>, effects: seq<Effect>)

  /** One call of ensure_vendor_module_is_loaded starting from `slot`, with
      `probe` what the sensor attribute reads now and `loader` the system
      module loader. */
  function Bind(slot: Option<VendorModule>, probe: ProbeOutcome, loader: ModuleLoader): (b: Binding)
    // a bound slot is kept and nothing is probed or looked up
    ensures slot.Some? ==> b == Binding(slot, [])
    // an empty slot is probed exactly once, before anything else
    ensures slot.None? ==> 1 <= |b.effects| <= 2 && b.effects[0] == ProbeSensor
    // a lookup happens exactly when the probe yields a supported code
    ensures slot.None? ==> (|b.effects| == 2 <==> LookupFor(SensorVersion(probe)).Some?)
    ensures |b.effects| == 2 ==> b.effects[1] == LookupModule(LookupFor(SensorVersion(probe)).value)
    // the slot is filled only by a lookup that reported success and a module
    ensures slot.None? && b.slot.Some? ==>
      |b.effects| == 2 && Resolve(loader, b.effects[1].how) == LoadResult(0, b.slot)
    // a failed lookup leaves the slot empty
    ensures |b.effects| == 2 && Resolve(loader, b.effects[1].how).status != 0 ==> b.slot.None?
    // a successful lookup fills the slot with the module the loader wrote
    ensures |b.effects| == 2 && Resolve(loader, b.effects[1].how).status == 0 ==>
      b.slot == Resolve(loader, b.effects[1].how).loaded
  {
    if slot.Some? then Binding(slot, [])
    else
      var version := SensorVersion(probe);
      if version < 0 then Binding(None, [ProbeSensor])
      else match LookupFor(version)
        case None => Binding(None, [ProbeSensor])
        case Some(how) =>
          var res := Resolve(loader, how);
          Binding(if res.status != 0 then None else res.loaded, [ProbeSensor, LookupModule(how)])
  }

  /** A first attempt with a supported sensor code, and a loader that answers
      that code's lookup with status 0 and a module, binds that module. */
  lemma FirstBindSucceeds(probe: ProbeOutcome, loader: ModuleLoader, m: VendorModule)
    requires LookupFor(SensorVersion(probe)).Some?
    requires Resolve(loader, LookupFor(SensorVersion(probe)).value) == LoadResult(0, Some(m))
    ensures Bind(None, probe, loader).slot == Some(m)
    ensures Bind(None, probe, loader).effects
         == [ProbeSensor, LookupModule(LookupFor(SensorVersion(probe)).value)]
  {
  }

  /** Once a module is bound, later attempts reuse it without touching the
      sensor or the loader, whatever they would now report. */
  lemma BindIsIdempotent(slot: Option<VendorModule>, p1: ProbeOutcome, l1: ModuleLoader,
                         p2: ProbeOutcome, l2: ModuleLoader)
    requires Bind(slot, p1, l1).slot.Some?
    ensures Bind(Bind(slot, p1, l1).slot, p2, l2) == Binding(Bind(slot, p1, l1).slot, [])
  {
  }

  /** Failure is not cached: after an attempt that leaves the slot empty, the
      next attempt probes the sensor again and may bind. */
  lemma FailedBindReprobes(slot: Option<VendorModule>, p1: ProbeOutcome, l1: ModuleLoader,
                           p2: ProbeOutcome, l2: ModuleLoader)
    requires Bind(slot, p1, l1).slot.None?
    ensures Bind(Bind(slot, p1, l1).slot, p2, l2).effects[0] == ProbeSensor
    ensures Bind(Bind(slot, p1, l1).slot, p2, l2) == Bind(None, p2, l2)
  {
  }
}
