/** `GravityExportEncoder` and its class container: creating a VM class for
    an exported host type, and binding method and property descriptors into
    that class's method table. */
module ExportEncoders {
  import opened Common
  import opened Values
  import opened HostHeap
  import opened VMCore
  import opened MethodDescriptors
  import opened PropertyDescriptors
  import opened ClassDescriptors

  /** The VM's internal constructor name, `CLASS_INTERNAL_INIT_NAME`. */
  const ClassInternalInitName: string := "$init"

  /** The key a method descriptor is bound under: a constructor binds as the
      internal init name with its arity in decimal appended (no suffix for
      arity 0); any other method binds under its own name. */
  function BindName(d: MethodDescriptor): string
  {
    if d.IsConstructor() then ClassInternalInitName + (if d.argsCount > 0 then Decimal(d.argsCount) else "")
    else d.name
  }

  /** The arity a constructor's method-table key encodes. */
  function KeyArity(key: string): nat
  {
    if |key| <= |ClassInternalInitName| then 0 else ParseDecimal(key[|ClassInternalInitName|..])
  }

  /** A constructor's key gives its arity back. */
  lemma ConstructorKeyArity(d: MethodDescriptor)
    requires d.IsConstructor()
    ensures KeyArity(BindName(d)) == d.argsCount
  {
    if d.argsCount > 0 {
      assert BindName(d)[|ClassInternalInitName|..] == Decimal(d.argsCount);
      DecimalRoundTrip(d.argsCount);
    }
  }

  /** Constructors of different arities never share a method-table key. */
  lemma ConstructorBindNamesDistinct(d: MethodDescriptor, e: MethodDescriptor)
    requires d.IsConstructor() && e.IsConstructor()
    ensures BindName(d) == BindName(e) <==> d.argsCount == e.argsCount
  {
    ConstructorKeyArity(d);
    ConstructorKeyArity(e);
  }

  /** The two constructor factories bind as `$init` and `$init1`; every
      other factory binds under the name it was given. */
  lemma FactoryBindNames(id: ObjId, fn: HostFn, arity: nat, named: string)
    requires arity <= 4
    ensures BindName(Constructor(id, fn, 0)) == "$init"
    ensures BindName(Constructor(id, fn, 1)) == "$init1"
    ensures BindName(Method(id, fn, arity, named)) == named
    ensures named != ConstructorName ==> BindName(StaticMethod1(id, fn, named)) == named
  {
    assert Decimal(1) == "1";
  }

  class Container {
    const descriptor: ClassDescriptor

    constructor (descriptor: ClassDescriptor)
      ensures this.descriptor == descriptor
    {
      this.descriptor := descriptor;
    }

    /** `bind(_: PropertyDescriptor)`: retains the descriptor, makes a bridged
        closure over it and a special getter/setter closure over that (the
        setter slot empty for a read-only property, else the getter closure
        again), binds the latter under the property's name, and records the
        descriptor. */
    method BindProperty(p: PropertyDescriptor, host: Host)
      requires descriptor.gClass < |descriptor.vm.classes|
      modifies host`retains, descriptor.vm`closures, descriptor.vm`classes, descriptor`propertyDescriptors
      ensures host.retains == Bump(old(host.retains), p.id, 1)
      ensures var g := |old(descriptor.vm.closures)|;
              descriptor.vm.closures == old(descriptor.vm.closures)
                + [BridgedClosure(p.id), SpecialClosure(g, if p.IsReadonly() then None else Some(g))]
      ensures var c := descriptor.gClass; var cls := old(descriptor.vm.classes)[c];
              descriptor.vm.classes == old(descriptor.vm.classes)[c :=
                cls.(members := cls.members[p.name := ClosureValue(|old(descriptor.vm.closures)| + 1)])]
      ensures descriptor.propertyDescriptors == old(descriptor.propertyDescriptors) + [p]
    {
      host.Retain(p.id);
      var vm := descriptor.vm;
      var fget := vm.NewClosure(BridgedClosure(p.id));
      var fset := if p.IsReadonly() then None else Some(fget);
      var closure := vm.NewClosure(SpecialClosure(fget, fset));
      vm.ClassBind(descriptor.gClass, p.name, ClosureValue(closure));
      descriptor.AddProperty(p);
    }

    /** `bind(_: MethodDescriptor)`: retains the descriptor, makes a bridged
        closure over it, binds it under `BindName(d)`, and records it. */
    method BindMethod(d: MethodDescriptor, host: Host)
      requires descriptor.gClass < |descriptor.vm.classes|
      modifies host`retains, descriptor.vm`closures, descriptor.vm`classes, descriptor`methodDescriptors
      ensures host.retains == Bump(old(host.retains), d.id, 1)
      ensures descriptor.vm.closures == old(descriptor.vm.closures) + [BridgedClosure(d.id)]
      ensures var c := descriptor.gClass; var cls := old(descriptor.vm.classes)[c];
              descriptor.vm.classes == old(descriptor.vm.classes)[c :=
                cls.(members := cls.members[BindName(d) := ClosureValue(|old(descriptor.vm.closures)|)])]
      ensures descriptor.methodDescriptors == old(descriptor.methodDescriptors) + [d]
    {
      host.Retain(d.id);
      var vm := descriptor.vm;
      var closure := vm.NewClosure(BridgedClosure(d.id));
      if d.IsConstructor() {
        var narg := if d.argsCount > 0 then Decimal(d.argsCount) else "";
        vm.ClassBind(descriptor.gClass, ClassInternalInitName + narg, ClosureValue(closure));
      } else {
        vm.ClassBind(descriptor.gClass, d.name, ClosureValue(closure));
      }
      descriptor.AddMethod(d);
    }

    /** One bind call of a type's `export(in:)`. */
    method Bind(b: Binding, host: Host)
      requires descriptor.gClass < |descriptor.vm.classes|
      modifies host`retains, descriptor.vm`closures, descriptor.vm`classes
      modifies descriptor`methodDescriptors, descriptor`propertyDescriptors
      ensures host.retains == Bump(old(host.retains), BindingId(b), 1)
      ensures descriptor.vm.closures
              == old(descriptor.vm.closures) + BindingClosures(|old(descriptor.vm.closures)|, b)
      ensures var c := descriptor.gClass; var cls := old(descriptor.vm.classes)[c];
              descriptor.vm.classes == old(descriptor.vm.classes)[c :=
                cls.(members := cls.members[BindingKey(b) := BoundClosure(|old(descriptor.vm.closures)|, b)])]
      ensures descriptor.methodDescriptors
              == old(descriptor.methodDescriptors) + (if b.MethodBinding? then [b.m] else [])
      ensures descriptor.propertyDescriptors
              == old(descriptor.propertyDescriptors) + (if b.PropertyBinding? then [b.p] else [])
    {
      match b {
        case MethodBinding(m) => BindMethod(m, host);
        case PropertyBinding(p) => BindProperty(p, host);
      }
    }
  }

  class ExportEncoder {
    const vm: Machine
    var classDescriptors: seq<ClassDescriptor>

    constructor (vm: Machine)
      ensures this.vm == vm && classDescriptors == []
    {
      this.vm := vm;
      classDescriptors := [];
    }

    /** `makeContainer(for:named:)`: a new class pair with no superclass and
        no variables, a descriptor for it whose retained reference becomes
        the class's xdata, appended to `classDescriptors`. Names are not
        checked for duplicates. */
    method MakeContainer(typeName: string, name: string, host: Host) returns (c: Container)
      modifies this`classDescriptors, vm`classes, vm`classXdata, host`retains, host`nextId
      ensures fresh(c) && fresh(c.descriptor)
      ensures c.descriptor.vm == vm && c.descriptor.registredName == name && c.descriptor.typeName == typeName
      ensures c.descriptor.methodDescriptors == [] && c.descriptor.propertyDescriptors == []
      ensures c.descriptor.gClass == |old(vm.classes)|
      ensures vm.classes == old(vm.classes) + [ClassRecord(name, None, 0, 0, map[])]
      ensures c.descriptor.id == old(host.nextId) && host.nextId == old(host.nextId) + 1
      ensures vm.classXdata == old(vm.classXdata)[c.descriptor.gClass := c.descriptor.id]
      ensures host.retains == Bump(old(host.retains), c.descriptor.id, 1)
      ensures classDescriptors == old(classDescriptors) + [c.descriptor]
    {
      var clazz := vm.NewClassPair(name, None, 0, 0);
      var id := host.Allocate();
      var classDescriptor := new ClassDescriptor(vm, name, clazz, typeName, id);
      host.Retain(id);
      vm.ClassSetXdata(clazz, id);
      classDescriptors := classDescriptors + [classDescriptor];
      c := new Container(classDescriptor);
    }
  }

  /** One call the host type's `export(in:)` makes on a container. */
  datatype Binding = MethodBinding(m: MethodDescriptor) | PropertyBinding(p: PropertyDescriptor)

  /** One `makeContainer` call followed by its binds. */
  datatype ContainerScript = ContainerScript(typeName: string, name: string, bindings: seq<Binding>)

  /** What a host type's `export(in:)` does: its containers in order, then
      whether it throws. */
  datatype ExportScript = ExportScript(containers: seq<ContainerScript>, fails: bool)

  function MethodsOf(bs: seq<Binding>): seq<MethodDescriptor>
  {
    if bs == [] then []
    else MethodsOf(bs[..|bs| - 1]) + (if bs[|bs| - 1].MethodBinding? then [bs[|bs| - 1].m] else [])
  }

  function PropertiesOf(bs: seq<Binding>): seq<PropertyDescriptor>
  {
    if bs == [] then []
    else PropertiesOf(bs[..|bs| - 1]) + (if bs[|bs| - 1].PropertyBinding? then [bs[|bs| - 1].p] else [])
  }

  /** Every bound descriptor lands in exactly one of the two lists. */
  lemma {:induction false} BindingsPartition(bs: seq<Binding>)
    ensures |MethodsOf(bs)| + |PropertiesOf(bs)| == |bs|
  {
    if bs != [] {
      BindingsPartition(bs[..|bs| - 1]);
    }
  }

  /** The host object a binding retains. */
  function BindingId(b: Binding): ObjId
  {
    match b
    case MethodBinding(m) => m.id
    case PropertyBinding(p) => p.id
  }

  /** The method-table key a binding is bound under. */
  function BindingKey(b: Binding): string
  {
    match b
    case MethodBinding(m) => BindName(m)
    case PropertyBinding(p) => p.name
  }

  /** The closures one binding adds to a VM that holds `g` closures: a
      method adds its bridged closure; a property adds its bridged getter
      and the special closure over it. */
  function BindingClosures(g: nat, b: Binding): (cs: seq<Closure>)
    ensures |cs| >= 1
  {
    match b
    case MethodBinding(m) => [BridgedClosure(m.id)]
    case PropertyBinding(p) => [BridgedClosure(p.id), SpecialClosure(g, if p.IsReadonly() then None else Some(g))]
  }

  /** The closure a binding publishes in the method table: the last it adds. */
  function BoundClosure(g: nat, b: Binding): Value
  {
    ClosureValue(g + |BindingClosures(g, b)| - 1)
  }

  /** The objects the binds retain, in order. */
  function BoundIds(bs: seq<Binding>): (ids: seq<ObjId>)
    ensures |ids| == |bs|
  {
    if bs == [] then [] else BoundIds(bs[..|bs| - 1]) + [BindingId(bs[|bs| - 1])]
  }

  /** The closures the binds add, in order, to a VM holding `g` closures. */
  function ClosuresOf(g: nat, bs: seq<Binding>): seq<Closure>
  {
    if bs == [] then []
    else
      var init := ClosuresOf(g, bs[..|bs| - 1]);
      init + BindingClosures(g + |init|, bs[|bs| - 1])
  }

  /** The method table the binds leave in a new class. */
  function MembersOf(g: nat, bs: seq<Binding>): map<string, Value>
  {
    if bs == [] then map[]
    else
      var b := bs[|bs| - 1];
      MembersOf(g, bs[..|bs| - 1])[BindingKey(b) := BoundClosure(g + |ClosuresOf(g, bs[..|bs| - 1])|, b)]
  }

  /** The class a container's `makeContainer` and binds leave. */
  function ContainerClass(g: nat, cs: ContainerScript): ClassRecord
  {
    ClassRecord(cs.name, None, 0, 0, MembersOf(g, cs.bindings))
  }

  /** The closures the first `n` containers of an export add, container after container. */
  function ScriptClosures(g: nat, css: seq<ContainerScript>, n: nat): seq<Closure>
    requires n <= |css|
  {
    if n == 0 then []
    else
      var init := ScriptClosures(g, css, n - 1);
      init + ClosuresOf(g + |init|, css[n - 1].bindings)
  }

  /** The classes the first `n` containers of an export add, one per container. */
  function ScriptClasses(g: nat, css: seq<ContainerScript>, n: nat): (r: seq<ClassRecord>)
    requires n <= |css|
    ensures |r| == n
  {
    if n == 0 then []
    else ScriptClasses(g, css, n - 1) + [ContainerClass(g + |ScriptClosures(g, css, n - 1)|, css[n - 1])]
  }

  /** The objects the first `n` containers of an export retain, in order: per
      container, its class descriptor (allocated as `next`, `next + 1`, ...)
      and then its binds. */
  function ScriptIds(next: nat, css: seq<ContainerScript>, n: nat): seq<ObjId>
    requires n <= |css|
  {
    if n == 0 then []
    else ScriptIds(next, css, n - 1) + ([next + n - 1] + BoundIds(css[n - 1].bindings))
  }

  /** Class xdata after `n` containers: class `c + k` holds descriptor `next + k`. */
  function ScriptXdata(x: map<ClassId, ObjId>, c: nat, next: nat, n: nat): map<ClassId, ObjId>
  {
    if n == 0 then x else ScriptXdata(x, c, next, n - 1)[c + n - 1 := next + n - 1]
  }

  lemma {:induction false} RetainAllSnoc(m: map<ObjId, int>, ids: seq<ObjId>, o: ObjId)
    ensures RetainAll(m, ids + [o]) == Bump(RetainAll(m, ids), o, 1)
  {
    assert (ids + [o])[..|ids|] == ids;
  }

  lemma {:induction false} RetainAllAppend(m: map<ObjId, int>, a: seq<ObjId>, b: seq<ObjId>)
    ensures RetainAll(m, a + b) == RetainAll(RetainAll(m, a), b)
  {
    if b == [] {
      assert a + b == a;
    } else {
      var init := b[..|b| - 1];
      assert a + b == (a + init) + [b[|b| - 1]];
      RetainAllAppend(m, a, init);
      RetainAllSnoc(m, a + init, b[|b| - 1]);
      RetainAllSnoc(RetainAll(m, a), init, b[|b| - 1]);
      assert b == init + [b[|b| - 1]];
    }
  }

  /** The bound descriptors are exactly the ones the class descriptor holds,
      methods and properties regrouped. */
  lemma {:induction false} BoundIdsHeld(bs: seq<Binding>)
    ensures multiset(BoundIds(bs)) == multiset(MethodIds(MethodsOf(bs)) + PropertyIds(PropertiesOf(bs)))
  {
    if bs != [] {
      var init := bs[..|bs| - 1];
      BoundIdsHeld(init);
      var last := bs[|bs| - 1];
      var ms, ps := MethodIds(MethodsOf(init)), PropertyIds(PropertiesOf(init));
      assert BoundIds(bs) == BoundIds(init) + [BindingId(last)];
      match last {
        case MethodBinding(m) =>
          assert MethodsOf(bs) == MethodsOf(init) + [m] && PropertiesOf(bs) == PropertiesOf(init);
          assert MethodIds(MethodsOf(bs)) == ms + [m.id];
          assert multiset(ms + [m.id] + ps) == multiset(ms + ps) + multiset{m.id};
        case PropertyBinding(p) =>
          assert PropertiesOf(bs) == PropertiesOf(init) + [p] && MethodsOf(bs) == MethodsOf(init);
          assert PropertyIds(PropertiesOf(bs)) == ps + [p.id];
          assert multiset(ms + (ps + [p.id])) == multiset(ms + ps) + multiset{p.id};
      }
    }
  }

  /** Export then `deinit`, per host object: the as-written `deinit` leaves
      every bind-time retain in place, while the corrected one returns each
      bound descriptor to its count before the export; only the class
      descriptor's own retain (its class xdata) remains. */
  lemma ExportThenDeinitCounts(m: map<ObjId, int>, id: ObjId, bs: seq<Binding>, o: ObjId)
    ensures var bound := RetainAll(m, [id] + BoundIds(bs));
            var held := MethodIds(MethodsOf(bs)) + PropertyIds(PropertiesOf(bs));
            Count(RetainReleaseEach(bound, held), o) == Count(m, o) + (if o == id then 1 else 0) + multiset(held)[o]
            && Count(ReleaseAll(bound, held), o) == Count(m, o) + (if o == id then 1 else 0)
  {
    var bound := RetainAll(m, [id] + BoundIds(bs));
    var held := MethodIds(MethodsOf(bs)) + PropertyIds(PropertiesOf(bs));
    RetainAllCounts(m, [id] + BoundIds(bs), o);
    BoundIdsHeld(bs);
    assert multiset([id] + BoundIds(bs)) == multiset([id]) + multiset(held);
    RetainReleaseEachNeutral(bound, held, o);
    ReleaseAllCounts(bound, held, o);
  }

  /** The parts of a container's descriptor, its VM and the host its binds change. */
  datatype BindState = BindState(methods: seq<MethodDescriptor>, properties: seq<PropertyDescriptor>,
                                 classes: seq<ClassRecord>, closures: seq<Closure>, retains: map<ObjId, int>)

  ghost function BindStateOf(d: ClassDescriptor, host: Host): BindState
    reads d, d.vm, host
  {
    BindState(d.methodDescriptors, d.propertyDescriptors, d.vm.classes, d.vm.closures, host.retains)
  }

  /** `s` is the state after `makeContainer` of a container named `name`
      (descriptor `id`) and the binds `bs`, over the classes, closures and
      retains before the container. */
  ghost predicate BoundState(s: BindState, name: string, id: ObjId, classes0: seq<ClassRecord>,
                             closures0: seq<Closure>, retains0: map<ObjId, int>, bs: seq<Binding>)
  {
    s.methods == MethodsOf(bs) && s.properties == PropertiesOf(bs)
    && s.classes == classes0 + [ClassRecord(name, None, 0, 0, MembersOf(|closures0|, bs))]
    && s.closures == closures0 + ClosuresOf(|closures0|, bs)
    && s.retains == RetainAll(retains0, [id] + BoundIds(bs))
  }

  /** `t` is what bind `b` leaves, starting from `s`, on class `gClass`. */
  ghost predicate BindEffect(s: BindState, t: BindState, gClass: nat, b: Binding)
  {
    gClass < |s.classes|
    && t.retains == Bump(s.retains, BindingId(b), 1)
    && t.closures == s.closures + BindingClosures(|s.closures|, b)
    && t.classes == s.classes[gClass := s.classes[gClass].(members :=
         s.classes[gClass].members[BindingKey(b) := BoundClosure(|s.closures|, b)])]
    && t.methods == s.methods + (if b.MethodBinding? then [b.m] else [])
    && t.properties == s.properties + (if b.PropertyBinding? then [b.p] else [])
  }

  lemma {:induction false} BoundStateStep(s: BindState, t: BindState, name: string, id: ObjId,
                                          classes0: seq<ClassRecord>, closures0: seq<Closure>,
                                          retains0: map<ObjId, int>, bs: seq<Binding>, b: Binding)
    requires BoundState(s, name, id, classes0, closures0, retains0, bs) && BindEffect(s, t, |classes0|, b)
    ensures BoundState(t, name, id, classes0, closures0, retains0, bs + [b])
  {
    var g := |closures0|;
    BindSnoc(g, retains0, id, bs, b);
    var cls := ClassRecord(name, None, 0, 0, MembersOf(g, bs));
    var bound := ClassRecord(name, None, 0, 0, MembersOf(g, bs + [b]));
    assert |s.closures| == g + |ClosuresOf(g, bs)|;
    assert cls.(members := cls.members[BindingKey(b) := BoundClosure(g + |ClosuresOf(g, bs)|, b)]) == bound;
    ReplaceLast(classes0, cls, bound);
    AppendAssoc(closures0, ClosuresOf(g, bs), BindingClosures(g + |ClosuresOf(g, bs)|, b));
  }

  /** The state after `makeContainer` and the binds `bs` of one container. */
  ghost predicate BoundSoFar(d: ClassDescriptor, host: Host, cs: ContainerScript, classes0: seq<ClassRecord>,
                             closures0: seq<Closure>, retains0: map<ObjId, int>, bs: seq<Binding>)
    reads d, d.vm, host
  {
    d.gClass == |classes0| && BoundState(BindStateOf(d, host), cs.name, d.id, classes0, closures0, retains0, bs)
  }

  /** One bind of the container's loop, on the state so far. */
  method BindNext(c: Container, b: Binding, host: Host, ghost cs: ContainerScript, ghost classes0: seq<ClassRecord>,
                  ghost closures0: seq<Closure>, ghost retains0: map<ObjId, int>, ghost bs: seq<Binding>)
    requires BoundSoFar(c.descriptor, host, cs, classes0, closures0, retains0, bs)
    modifies host`retains, c.descriptor.vm`closures, c.descriptor.vm`classes
    modifies c.descriptor`methodDescriptors, c.descriptor`propertyDescriptors
    ensures BoundSoFar(c.descriptor, host, cs, classes0, closures0, retains0, bs + [b])
  {
    var d := c.descriptor;
    ghost var s := BindStateOf(d, host);
    c.Bind(b, host);
    assert BindEffect(s, BindStateOf(d, host), d.gClass, b);
    BoundStateStep(s, BindStateOf(d, host), cs.name, d.id, classes0, closures0, retains0, bs, b);
  }

  lemma ReplaceLast<T>(s: seq<T>, x: T, y: T)
    ensures (s + [x])[|s| := y] == s + [y]
  {
  }

  lemma AppendAssoc<T>(a: seq<T>, b: seq<T>, c: seq<T>)
    ensures (a + b) + c == a + (b + c)
  {
  }

  /** The specification functions of the binds, one bind further. */
  lemma {:induction false} BindSnoc(g: nat, retains0: map<ObjId, int>, id: ObjId, bs: seq<Binding>, b: Binding)
    ensures MethodsOf(bs + [b]) == MethodsOf(bs) + (if b.MethodBinding? then [b.m] else [])
    ensures PropertiesOf(bs + [b]) == PropertiesOf(bs) + (if b.PropertyBinding? then [b.p] else [])
    ensures MembersOf(g, bs + [b]) == MembersOf(g, bs)[BindingKey(b) := BoundClosure(g + |ClosuresOf(g, bs)|, b)]
    ensures ClosuresOf(g, bs + [b]) == ClosuresOf(g, bs) + BindingClosures(g + |ClosuresOf(g, bs)|, b)
    ensures RetainAll(retains0, [id] + BoundIds(bs + [b])) == Bump(RetainAll(retains0, [id] + BoundIds(bs)), BindingId(b), 1)
  {
    var last := bs + [b];
    assert last[..|bs|] == bs;
    assert BoundIds(last) == BoundIds(bs) + [BindingId(b)];
    RetainAllSnoc(retains0, [id] + BoundIds(bs), BindingId(b));
    assert [id] + BoundIds(last) == ([id] + BoundIds(bs)) + [BindingId(b)];
  }

  /** `makeContainer` for one container of an export script, before its binds. */
  method BeginContainer(encoder: ExportEncoder, cs: ContainerScript, host: Host) returns (c: Container)
    modifies encoder`classDescriptors, encoder.vm`classes, encoder.vm`classXdata, host`retains, host`nextId
    ensures fresh(c) && fresh(c.descriptor) && c.descriptor.vm == encoder.vm
    ensures c.descriptor.registredName == cs.name && c.descriptor.typeName == cs.typeName
    ensures c.descriptor.id == old(host.nextId) && host.nextId == c.descriptor.id + 1
    ensures encoder.classDescriptors == old(encoder.classDescriptors) + [c.descriptor]
    ensures encoder.vm.classXdata == old(encoder.vm.classXdata)[c.descriptor.gClass := c.descriptor.id]
    ensures BoundSoFar(c.descriptor, host, cs, old(encoder.vm.classes), old(encoder.vm.closures), old(host.retains), [])
  {
    c := encoder.MakeContainer(cs.typeName, cs.name, host);
    RetainAllSnoc(old(host.retains), [], c.descriptor.id);
    assert encoder.vm.closures == old(encoder.vm.closures) + [];
  }

  /** Runs one container of an export script. */
  method ExportContainer(encoder: ExportEncoder, cs: ContainerScript, host: Host) returns (d: ClassDescriptor)
    modifies encoder`classDescriptors, encoder.vm`classes, encoder.vm`classXdata, encoder.vm`closures
    modifies host`retains, host`nextId
    ensures fresh(d) && d.vm == encoder.vm && d.registredName == cs.name && d.typeName == cs.typeName
    ensures d.gClass == |old(encoder.vm.classes)| && d.id == old(host.nextId) && host.nextId == d.id + 1
    ensures d.methodDescriptors == MethodsOf(cs.bindings)
    ensures d.propertyDescriptors == PropertiesOf(cs.bindings)
    ensures encoder.classDescriptors == old(encoder.classDescriptors) + [d]
    ensures encoder.vm.classes == old(encoder.vm.classes) + [ContainerClass(|old(encoder.vm.closures)|, cs)]
    ensures encoder.vm.closures == old(encoder.vm.closures) + ClosuresOf(|old(encoder.vm.closures)|, cs.bindings)
    ensures encoder.vm.classXdata == old(encoder.vm.classXdata)[d.gClass := d.id]
    ensures host.retains == RetainAll(old(host.retains), [d.id] + BoundIds(cs.bindings))
  {
    ghost var classes0, closures0, retains0 := encoder.vm.classes, encoder.vm.closures, host.retains;
    var c := BeginContainer(encoder, cs, host);
    d := c.descriptor;
    BindAll(c, host, cs, classes0, closures0, retains0);
  }

  /** The binds of one container, in order. */
  method BindAll(c: Container, host: Host, cs: ContainerScript, ghost classes0: seq<ClassRecord>,
                 ghost closures0: seq<Closure>, ghost retains0: map<ObjId, int>)
    requires BoundSoFar(c.descriptor, host, cs, classes0, closures0, retains0, [])
    modifies host`retains, c.descriptor.vm`closures, c.descriptor.vm`classes
    modifies c.descriptor`methodDescriptors, c.descriptor`propertyDescriptors
    ensures BoundSoFar(c.descriptor, host, cs, classes0, closures0, retains0, cs.bindings)
  {
    var bs := cs.bindings;
    for b := 0 to |bs|
      invariant BoundSoFar(c.descriptor, host, cs, classes0, closures0, retains0, bs[..b])
    {
      assert bs[..b + 1] == bs[..b] + [bs[b]];
      BindNext(c, bs[b], host, cs, classes0, closures0, retains0, bs[..b]);
    }
    assert bs[..|bs|] == bs;
  }

  /** The parts of the VM and the host an export changes. */
  datatype ExportState = ExportState(retains: map<ObjId, int>, nextId: nat, closures: seq<Closure>,
                                     classes: seq<ClassRecord>, xdata: map<ClassId, ObjId>)

  ghost function StateOf(encoder: ExportEncoder, host: Host): ExportState
    reads encoder, encoder.vm, host
  {
    ExportState(host.retains, host.nextId, encoder.vm.closures, encoder.vm.classes, encoder.vm.classXdata)
  }

  /** `s` is what the first `n` containers `css` leave, starting from `s0`. */
  ghost predicate ScriptState(s: ExportState, s0: ExportState, css: seq<ContainerScript>, n: nat)
    requires n <= |css|
  {
    s.nextId == s0.nextId + n
    && s.retains == RetainAll(s0.retains, ScriptIds(s0.nextId, css, n))
    && s.closures == s0.closures + ScriptClosures(|s0.closures|, css, n)
    && s.classes == s0.classes + ScriptClasses(|s0.closures|, css, n)
    && s.xdata == ScriptXdata(s0.xdata, |s0.classes|, s0.nextId, n)
  }

  /** `t` is what container `cs` leaves, starting from `s`. */
  ghost predicate ContainerStep(s: ExportState, t: ExportState, cs: ContainerScript)
  {
    t.nextId == s.nextId + 1
    && t.retains == RetainAll(s.retains, [s.nextId] + BoundIds(cs.bindings))
    && t.closures == s.closures + ClosuresOf(|s.closures|, cs.bindings)
    && t.classes == s.classes + [ContainerClass(|s.closures|, cs)]
    && t.xdata == s.xdata[|s.classes| := s.nextId]
  }

  lemma {:induction false} ScriptStateStep(s0: ExportState, s: ExportState, t: ExportState,
                                           css: seq<ContainerScript>, n: nat)
    requires n < |css| && ScriptState(s, s0, css, n) && ContainerStep(s, t, css[n])
    ensures ScriptState(t, s0, css, n + 1)
  {
    var g := |s0.closures|;
    RetainsStep(s0.retains, s.retains, t.retains, s0.nextId, s.nextId, css, n);
    ClosuresStep(s0.closures, s.closures, t.closures, css, n);
    assert |s.closures| == g + |ScriptClosures(g, css, n)|;
    ClassesStep(s0.classes, s.classes, t.classes, g, |s.closures|, css, n);
    XdataStep(s0.xdata, s.xdata, t.xdata, |s0.classes|, s0.nextId, |s.classes|, s.nextId, n);
  }

  lemma {:induction false} RetainsStep(m0: map<ObjId, int>, m: map<ObjId, int>, t: map<ObjId, int>,
                                       next: nat, k: nat, css: seq<ContainerScript>, n: nat)
    requires n < |css| && k == next + n
    requires m == RetainAll(m0, ScriptIds(next, css, n)) && t == RetainAll(m, [k] + BoundIds(css[n].bindings))
    ensures t == RetainAll(m0, ScriptIds(next, css, n + 1))
  {
    var ids := [k] + BoundIds(css[n].bindings);
    assert ScriptIds(next, css, n + 1) == ScriptIds(next, css, n) + ids;
    RetainAllAppend(m0, ScriptIds(next, css, n), ids);
  }

  lemma {:induction false} ClosuresStep(c0: seq<Closure>, c: seq<Closure>, t: seq<Closure>,
                                        css: seq<ContainerScript>, n: nat)
    requires n < |css|
    requires c == c0 + ScriptClosures(|c0|, css, n) && t == c + ClosuresOf(|c|, css[n].bindings)
    ensures t == c0 + ScriptClosures(|c0|, css, n + 1)
  {
    var before := ScriptClosures(|c0|, css, n);
    assert |c| == |c0| + |before|;
    AppendAssoc(c0, before, ClosuresOf(|c0| + |before|, css[n].bindings));
  }

  lemma {:induction false} ClassesStep(k0: seq<ClassRecord>, k: seq<ClassRecord>, t: seq<ClassRecord>,
                                       g: nat, c: nat, css: seq<ContainerScript>, n: nat)
    requires n < |css| && c == g + |ScriptClosures(g, css, n)|
    requires k == k0 + ScriptClasses(g, css, n) && t == k + [ContainerClass(c, css[n])]
    ensures t == k0 + ScriptClasses(g, css, n + 1)
  {
    AppendAssoc(k0, ScriptClasses(g, css, n), [ContainerClass(c, css[n])]);
  }

  lemma {:induction false} XdataStep(x0: map<ClassId, ObjId>, x: map<ClassId, ObjId>, t: map<ClassId, ObjId>,
                                     c: nat, next: nat, k: nat, v: nat, n: nat)
    requires x == ScriptXdata(x0, c, next, n) && k == c + n && v == next + n && t == x[k := v]
    ensures t == ScriptXdata(x0, c, next, n + 1)
  {
  }

  /** The descriptors of the first `n` containers `css` of an export. */
  ghost predicate DescriptorsSoFar(ds: seq<ClassDescriptor>, vm: Machine, c0: nat, next: nat,
                                   css: seq<ContainerScript>, n: nat)
    requires n <= |css|
    reads set k | 0 <= k < |ds| :: ds[k]
  {
    |ds| == n
    && forall k :: 0 <= k < n ==>
         Exported(ds[k], vm, css[k]) && ds[k].gClass == c0 + k && ds[k].id == next + k
  }

  /** Container `n` of the export, on the state the first `n` left. */
  method ExportNext(encoder: ExportEncoder, css: seq<ContainerScript>, n: nat, host: Host, ghost s0: ExportState)
    returns (d: ClassDescriptor)
    requires n < |css|
    requires ScriptState(StateOf(encoder, host), s0, css, n)
    requires DescriptorsSoFar(encoder.classDescriptors, encoder.vm, |s0.classes|, s0.nextId, css, n)
    modifies encoder`classDescriptors, encoder.vm`classes, encoder.vm`classXdata, encoder.vm`closures
    modifies host`retains, host`nextId
    ensures ScriptState(StateOf(encoder, host), s0, css, n + 1)
    ensures DescriptorsSoFar(encoder.classDescriptors, encoder.vm, |s0.classes|, s0.nextId, css, n + 1)
    ensures fresh(d) && encoder.classDescriptors == old(encoder.classDescriptors) + [d]
  {
    ghost var s := StateOf(encoder, host);
    ghost var before := encoder.classDescriptors;
    d := ExportContainer(encoder, css[n], host);
    assert ContainerStep(s, StateOf(encoder, host), css[n]);
    ScriptStateStep(s0, s, StateOf(encoder, host), css, n);
    var ds := encoder.classDescriptors;
    assert ds == before + [d];
    forall k | 0 <= k < n + 1
      ensures Exported(ds[k], encoder.vm, css[k]) && ds[k].gClass == |s0.classes| + k && ds[k].id == s0.nextId + k
    {
      if k < n {
        assert ds[k] == before[k];
      } else {
        assert |s.classes| == |s0.classes| + n;
      }
    }
  }

  /** The containers `css` of an export on a new encoder, in order. */
  method ExportAll(encoder: ExportEncoder, css: seq<ContainerScript>, host: Host)
    requires encoder.classDescriptors == []
    modifies encoder`classDescriptors, encoder.vm`classes, encoder.vm`classXdata, encoder.vm`closures
    modifies host`retains, host`nextId
    ensures ScriptState(StateOf(encoder, host), old(StateOf(encoder, host)), css, |css|)
    ensures DescriptorsSoFar(encoder.classDescriptors, encoder.vm, |old(encoder.vm.classes)|, old(host.nextId), css, |css|)
    ensures forall d :: d in encoder.classDescriptors ==> fresh(d)
  {
    ghost var s0 := StateOf(encoder, host);
    assert ScriptState(s0, s0, css, 0) by {
      assert s0.closures + [] == s0.closures && s0.classes + [] == s0.classes;
    }
    for i := 0 to |css|
      invariant ScriptState(StateOf(encoder, host), s0, css, i)
      invariant DescriptorsSoFar(encoder.classDescriptors, encoder.vm, |s0.classes|, s0.nextId, css, i)
      invariant forall d :: d in encoder.classDescriptors ==> fresh(d)
    {
      var d := ExportNext(encoder, css, i, host, s0);
    }
  }

  /** `type.export(in: encoder)` on a new encoder, for a type whose export
      makes the given containers in order and then throws or returns; the
      containers made before a throw stay, with their classes, closures and
      retains. */
  method RunExport(encoder: ExportEncoder, script: ExportScript, host: Host) returns (thrown: bool)
    requires encoder.classDescriptors == []
    modifies encoder`classDescriptors, encoder.vm`classes, encoder.vm`classXdata, encoder.vm`closures
    modifies host`retains, host`nextId
    ensures thrown == script.fails
    ensures |encoder.classDescriptors| == |script.containers|
    ensures forall k :: 0 <= k < |script.containers| ==>
              Exported(encoder.classDescriptors[k], encoder.vm, script.containers[k])
              && fresh(encoder.classDescriptors[k])
              && encoder.classDescriptors[k].gClass == |old(encoder.vm.classes)| + k
              && encoder.classDescriptors[k].id == old(host.nextId) + k
    ensures host.nextId == old(host.nextId) + |script.containers|
    ensures host.retains == RetainAll(old(host.retains), ScriptIds(old(host.nextId), script.containers, |script.containers|))
    ensures encoder.vm.closures == old(encoder.vm.closures)
              + ScriptClosures(|old(encoder.vm.closures)|, script.containers, |script.containers|)
    ensures encoder.vm.classes == old(encoder.vm.classes)
              + ScriptClasses(|old(encoder.vm.closures)|, script.containers, |script.containers|)
    ensures encoder.vm.classXdata
            == ScriptXdata(old(encoder.vm.classXdata), |old(encoder.vm.classes)|, old(host.nextId), |script.containers|)
  {
    ExportAll(encoder, script.containers, host);
    forall k | 0 <= k < |script.containers|
      ensures fresh(encoder.classDescriptors[k])
    {
      assert encoder.classDescriptors[k] in encoder.classDescriptors;
    }
    thrown := script.fails;
  }

  /** `d` is the descriptor of container `cs` exported into `vm`. */
  ghost predicate Exported(d: ClassDescriptor, vm: Machine, cs: ContainerScript)
    reads d
  {
    d.vm == vm && d.registredName == cs.name && d.typeName == cs.typeName
    && d.methodDescriptors == MethodsOf(cs.bindings)
    && d.propertyDescriptors == PropertiesOf(cs.bindings)
  }
}
