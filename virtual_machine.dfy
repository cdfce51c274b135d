/** `GravityVirtualMachine`: the per-VM class registry filled by `bindClass`,
    class lookup-or-create, and the process-wide list of live VMs through
    which every VM callback finds its Swift wrapper. */
module VirtualMachines {
  import opened Common
  import opened Values
  import opened HostHeap
  import opened VMCore
  import opened GSValues
  import opened ClassDescriptors
  import opened ExportEncoders

  /** A call the bridge makes on the VM's delegate. */
  datatype DelegateEvent = DidRequestFree(object: GSValue)

  /** `m` after storing `f(d)` under `d.registredName` for each `d` of `ds`,
      in order. */
  function Overlay<V>(m: map<string, V>, ds: seq<ClassDescriptor>, f: ClassDescriptor -> V): map<string, V>
  {
    if ds == [] then m
    else Overlay(m, ds[..|ds| - 1], f)[ds[|ds| - 1].registredName := f(ds[|ds| - 1])]
  }

  /** A descriptor no later one shadows is found under its name. */
  lemma {:induction false} OverlayFinds<V>(m: map<string, V>, ds: seq<ClassDescriptor>, f: ClassDescriptor -> V, k: nat)
    requires k < |ds|
    requires forall j :: k < j < |ds| ==> ds[j].registredName != ds[k].registredName
    ensures ds[k].registredName in Overlay(m, ds, f)
    ensures Overlay(m, ds, f)[ds[k].registredName] == f(ds[k])
  {
    if k < |ds| - 1 {
      OverlayFinds(m, ds[..|ds| - 1], f, k);
    }
  }

  /** A name no descriptor carries keeps its entry, or its absence. */
  lemma {:induction false} OverlayKeeps<V>(m: map<string, V>, ds: seq<ClassDescriptor>, f: ClassDescriptor -> V, nm: string)
    requires forall j :: 0 <= j < |ds| ==> ds[j].registredName != nm
    ensures nm in Overlay(m, ds, f) <==> nm in m
    ensures nm in m ==> Overlay(m, ds, f)[nm] == m[nm]
  {
    if ds != [] {
      OverlayKeeps(m, ds[..|ds| - 1], f, nm);
    }
  }

  /** The keys are the old keys plus the descriptors' names. */
  lemma {:induction false} OverlayKeys<V>(m: map<string, V>, ds: seq<ClassDescriptor>, f: ClassDescriptor -> V)
    ensures Overlay(m, ds, f).Keys == m.Keys + set k | 0 <= k < |ds| :: ds[k].registredName
  {
    if ds != [] {
      var init := ds[..|ds| - 1];
      OverlayKeys(m, init, f);
      assert (set k | 0 <= k < |ds| :: ds[k].registredName)
          == (set k | 0 <= k < |init| :: init[k].registredName) + {ds[|ds| - 1].registredName};
    }
  }

  /** The global a registered class is published as. */
  function ClassGlobal(d: ClassDescriptor): Value
  {
    ClassValue(d.gClass)
  }

  function Identity(d: ClassDescriptor): ClassDescriptor
  {
    d
  }

  class GravityVM {
    const vmPtr: Ptr
    const machine: Machine
    var bridgeClassDescriptors: map<string, ClassDescriptor>
    var delegateLog: seq<DelegateEvent>

    /** `init(settings:delegate:)`: a new VM, registered in `registry`. */
    constructor (vmPtr: Ptr, registry: VMRegistry)
      modifies registry
      ensures this.vmPtr == vmPtr && fresh(machine)
      ensures bridgeClassDescriptors == map[] && delegateLog == []
      ensures registry.machines == old(registry.machines) + [this]
    {
      this.vmPtr := vmPtr;
      machine := new Machine();
      bridgeClassDescriptors := map[];
      delegateLog := [];
      new;
      registry.Register(this);
    }

    /** `deinit`: unregisters every VM with this VM's pointer. */
    method Teardown(registry: VMRegistry)
      modifies registry
      ensures registry.machines == RemoveAllWithPtr(old(registry.machines), vmPtr)
    {
      registry.Unregister(this);
    }

    /** `getClassDescriptor(for:)`. */
    function GetClassDescriptor(name: string): (r: Option<ClassDescriptor>)
      reads this
      ensures r.Some? <==> name in bridgeClassDescriptors
      ensures r.Some? ==> r.value == bridgeClassDescriptors[name]
    {
      if name in bridgeClassDescriptors then Some(bridgeClassDescriptors[name]) else None
    }

    /** `bindClass(with:)`: with the collector off, runs the type's export;
        if it throws, returns at once and the collector stays off. Otherwise
        stores every exported class descriptor (`descriptors`, in export
        order) in `bridgeClassDescriptors` and as a global under its name,
        then turns the collector back on. The debug-build assert that no name
        is registered twice, reached only when the export returns, is the
        precondition. */
    method BindClass(script: ExportScript, host: Host) returns (thrown: bool, ghost descriptors: seq<ClassDescriptor>)
      requires !script.fails ==>
                 forall k :: 0 <= k < |script.containers| ==> script.containers[k].name !in bridgeClassDescriptors
      requires !script.fails ==>
                 forall j, k :: 0 <= j < k < |script.containers| ==> script.containers[j].name != script.containers[k].name
      modifies this`bridgeClassDescriptors, machine`gcEnabled, machine`globals
      modifies machine`classes, machine`classXdata, machine`closures, host`retains, host`nextId
      ensures thrown == script.fails
      ensures thrown ==> !machine.gcEnabled
      ensures thrown ==> bridgeClassDescriptors == old(bridgeClassDescriptors) && machine.globals == old(machine.globals)
      ensures !thrown ==> machine.gcEnabled
      ensures |descriptors| == |script.containers|
      ensures forall k :: 0 <= k < |descriptors| ==>
                fresh(descriptors[k]) && Exported(descriptors[k], machine, script.containers[k])
                && descriptors[k].gClass == |old(machine.classes)| + k && descriptors[k].id == old(host.nextId) + k
      ensures host.nextId == old(host.nextId) + |script.containers|
      ensures host.retains
              == RetainAll(old(host.retains), ScriptIds(old(host.nextId), script.containers, |script.containers|))
      ensures machine.closures
              == old(machine.closures) + ScriptClosures(|old(machine.closures)|, script.containers, |script.containers|)
      ensures machine.classes
              == old(machine.classes) + ScriptClasses(|old(machine.closures)|, script.containers, |script.containers|)
      ensures machine.classXdata
              == ScriptXdata(old(machine.classXdata), |old(machine.classes)|, old(host.nextId), |script.containers|)
      ensures !thrown ==> bridgeClassDescriptors == Overlay(old(bridgeClassDescriptors), descriptors, Identity)
      ensures !thrown ==> machine.globals == Overlay(old(machine.globals), descriptors, ClassGlobal)
    {
      machine.SetGCEnabled(false);
      var encoder := new ExportEncoder(machine);
      thrown := RunExport(encoder, script, host);
      var ds := encoder.classDescriptors;
      descriptors := ds;
      if thrown {
        return;
      }
      forall k | 0 <= k < |ds|
        ensures ds[k].registredName == script.containers[k].name
      {
        assert Exported(ds[k], machine, script.containers[k]);
      }
      RegisterAll(ds);
      machine.SetGCEnabled(true);
    }

    /** The loop of `bindClass`: each descriptor is stored in
        `bridgeClassDescriptors` and as a global under its name. */
    method RegisterAll(ds: seq<ClassDescriptor>)
      requires forall k :: 0 <= k < |ds| ==> ds[k].registredName !in bridgeClassDescriptors
      requires forall j, k :: 0 <= j < k < |ds| ==> ds[j].registredName != ds[k].registredName
      modifies this`bridgeClassDescriptors, machine`globals
      ensures bridgeClassDescriptors == Overlay(old(bridgeClassDescriptors), ds, Identity)
      ensures machine.globals == Overlay(old(machine.globals), ds, ClassGlobal)
    {
      for i := 0 to |ds|
        invariant bridgeClassDescriptors == Overlay(old(bridgeClassDescriptors), ds[..i], Identity)
        invariant machine.globals == Overlay(old(machine.globals), ds[..i], ClassGlobal)
      {
        var descriptor := ds[i];
        assert descriptor.registredName !in bridgeClassDescriptors by {
          OverlayKeeps(old(bridgeClassDescriptors), ds[..i], Identity, descriptor.registredName);
        }
        assert ds[..i + 1][..i] == ds[..i];
        machine.SetValue(descriptor.registredName, ClassGlobal(descriptor));
        bridgeClassDescriptors := bridgeClassDescriptors[descriptor.registredName := descriptor];
      }
      assert ds[..|ds|] == ds;
    }

    /** `getOrRegisterClass`: the class the global `runtimeName` holds, or a
        new class pair with no superclass and no variables. */
    method GetOrRegisterClass(runtimeName: string) returns (c: ClassId)
      modifies machine`classes
      ensures machine.GetValue(runtimeName).ClassValue? ==>
                c == machine.GetValue(runtimeName).cls && machine.classes == old(machine.classes)
      ensures !machine.GetValue(runtimeName).ClassValue? ==>
                c == |old(machine.classes)|
                && machine.classes == old(machine.classes) + [ClassRecord(runtimeName, None, 0, 0, map[])]
    {
      var clazzName := GSValue(machine.GetValue(runtimeName), vmPtr);
      if clazzName.IsClass() {
        c := clazzName.value.cls;
      } else {
        c := machine.NewClassPair(runtimeName, None, 0, 0);
      }
    }
  }

  /** `getVM`: the first VM in `vms` whose pointer is `p`. */
  function FirstWithPtr(vms: seq<GravityVM>, p: Ptr): (r: Option<GravityVM>)
    ensures r.None? <==> forall k :: 0 <= k < |vms| ==> vms[k].vmPtr != p
    ensures r.Some? ==> exists k :: 0 <= k < |vms| && vms[k] == r.value && r.value.vmPtr == p
                          && forall j :: 0 <= j < k ==> vms[j].vmPtr != p
  {
    if vms == [] then None
    else if vms[0].vmPtr == p then Some(vms[0])
    else
      var r := FirstWithPtr(vms[1..], p);
      if r.Some? then
        var k :| 0 <= k < |vms[1..]| && vms[1..][k] == r.value && r.value.vmPtr == p
                 && forall j :: 0 <= j < k ==> vms[1..][j].vmPtr != p;
        assert vms[k + 1] == r.value;
        r
      else r
  }

  /** `removeAll(where: { $0.vmPtr == p })`. */
  function RemoveAllWithPtr(vms: seq<GravityVM>, p: Ptr): (r: seq<GravityVM>)
    ensures forall k :: 0 <= k < |r| ==> r[k] in vms && r[k].vmPtr != p
    ensures forall k :: 0 <= k < |vms| && vms[k].vmPtr != p ==> vms[k] in r
    ensures |r| <= |vms|
  {
    if vms == [] then []
    else (if vms[0].vmPtr == p then [] else [vms[0]]) + RemoveAllWithPtr(vms[1..], p)
  }

  /** After `unregister`, no VM with that pointer is found. */
  lemma UnregisterForgets(vms: seq<GravityVM>, p: Ptr)
    ensures FirstWithPtr(RemoveAllWithPtr(vms, p), p) == None
  {
  }

  /** `unregister` leaves the lookup of every other pointer as it was. */
  lemma {:induction false} UnregisterKeepsOthers(vms: seq<GravityVM>, p: Ptr, q: Ptr)
    requires p != q
    ensures FirstWithPtr(RemoveAllWithPtr(vms, p), q) == FirstWithPtr(vms, q)
  {
    if vms != [] {
      UnregisterKeepsOthers(vms[1..], p, q);
      if vms[0].vmPtr == p {
        assert RemoveAllWithPtr(vms, p) == RemoveAllWithPtr(vms[1..], p);
      } else {
        var r := RemoveAllWithPtr(vms, p);
        assert r == [vms[0]] + RemoveAllWithPtr(vms[1..], p);
        assert r[1..] == RemoveAllWithPtr(vms[1..], p);
      }
    }
  }

  /** After `register`, the new VM is found under its pointer unless an
      earlier VM with the same pointer shadows it; other lookups are kept. */
  lemma {:induction false} RegisterFinds(vms: seq<GravityVM>, v: GravityVM, q: Ptr)
    ensures q == v.vmPtr && FirstWithPtr(vms, q).None? ==> FirstWithPtr(vms + [v], q) == Some(v)
    ensures FirstWithPtr(vms, q).Some? ==> FirstWithPtr(vms + [v], q) == FirstWithPtr(vms, q)
    ensures q != v.vmPtr ==> FirstWithPtr(vms + [v], q) == FirstWithPtr(vms, q)
  {
    if vms != [] {
      assert (vms + [v])[1..] == vms[1..] + [v];
      RegisterFinds(vms[1..], v, q);
    }
  }

  /** What `getVM` finds is a registered wrapper, so its VM state is one of
      the registry's. */
  lemma FoundIsRegistered(registry: VMRegistry, p: Ptr)
    requires registry.GetVM(p).Some?
    ensures registry.GetVM(p).value in registry.Wrappers()
    ensures registry.GetVM(p).value.machine in registry.Machines()
    ensures registry.GetVM(p).value.vmPtr == p
  {
    var vms := registry.machines;
    var k :| 0 <= k < |vms| && vms[k] == registry.GetVM(p).value && vms[k].vmPtr == p
             && forall j :: 0 <= j < k ==> vms[j].vmPtr != p;
    assert registry.GetVM(p).value.machine == vms[k].machine;
  }

  /** The static `virtualMachines` list. */
  class VMRegistry {
    var machines: seq<GravityVM>

    constructor ()
      ensures machines == []
    {
      machines := [];
    }

    /** `getVM(_:)`. */
    function GetVM(p: Ptr): Option<GravityVM>
      reads this
    {
      FirstWithPtr(machines, p)
    }

    /** The VM states every registered wrapper drives. */
    function Machines(): set<Machine>
      reads this
    {
      set k | 0 <= k < |machines| :: machines[k].machine
    }

    /** The registered wrappers. */
    function Wrappers(): set<GravityVM>
      reads this
    {
      set k | 0 <= k < |machines| :: machines[k]
    }

    /** `register(_:)`. */
    method Register(vm: GravityVM)
      modifies this
      ensures machines == old(machines) + [vm]
    {
      machines := machines + [vm];
    }

    /** `unregister(_:)`. */
    method Unregister(vm: GravityVM)
      modifies this
      ensures machines == RemoveAllWithPtr(old(machines), vm.vmPtr)
      ensures GetVM(vm.vmPtr) == None
    {
      machines := RemoveAllWithPtr(machines, vm.vmPtr);
      UnregisterForgets(old(machines), vm.vmPtr);
    }
  }
}
