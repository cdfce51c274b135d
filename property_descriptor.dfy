/** `PropertyDescriptor`: an exported stored property, read and written
    through a key path of the host type. */
module PropertyDescriptors {
  import opened Common
  import opened HostHeap
  import opened GSValues

  /** The setter closure of a writable key path: it stores into `keyPath`. */
  datatype KeyPathSetter = KeyPathSetter(keyPath: string)

  /** An immutable record; `id` is the object's identity for retain counts.
      The getter always reads `keyPath`; `setter` is nil for a read-only key path. */
  datatype PropertyDescriptor = PropertyDescriptor(
    id: ObjId,
    name: string,
    keyPath: string,
    setter: Option<KeyPathSetter>)
  {
    /** `isReadonly`. */
    predicate IsReadonly()
    {
      setter.None?
    }
  }

  /** The `ReferenceWritableKeyPath` factory. */
  function WritableProperty(id: ObjId, keyPath: string, named: string): (p: PropertyDescriptor)
    ensures !p.IsReadonly() && p.setter == Some(KeyPathSetter(keyPath))
    ensures p.name == named && p.keyPath == keyPath && p.id == id
  {
    PropertyDescriptor(id, named, keyPath, Some(KeyPathSetter(keyPath)))
  }

  /** The `KeyPath` factory. */
  function ReadonlyProperty(id: ObjId, keyPath: string, named: string): (p: PropertyDescriptor)
    ensures p.IsReadonly()
    ensures p.name == named && p.keyPath == keyPath && p.id == id
  {
    PropertyDescriptor(id, named, keyPath, None)
  }

  /** The host value the getter reads: the key path of the target's object,
      or nil when the target is not an instance. */
  function ReadField(p: PropertyDescriptor, target: GSValue, view: XdataView,
                     fields: map<ObjId, map<string, HostValue>>): Outcome<HostValue>
  {
    match ToObjectOf(target, view)
    case Crashed => Crashed
    case Done(None) => Done(HostNil)
    case Done(Some(o)) => Done(Field(fields, o, p.keyPath))
  }

  /** `getValue(in:)`: the getter, converting what it reads with `init(object:)`
      in the target's VM (`built`/`newInstance` as for `FromObject`). */
  function GetValue(p: PropertyDescriptor, target: GSValue, view: XdataView,
                    fields: map<ObjId, map<string, HostValue>>,
                    built: bool, newInstance: InstanceId): (r: Outcome<GSValue>)
    ensures r.Done? ==> r.value.vm == target.vm
    ensures !target.IsInstance() ==> r == FromObject(HostNil, target.vm, built, newInstance)
    ensures target.IsInstance() && target.value.instance in view.instances ==>
              r == FromObject(Field(fields, view.instances[target.value.instance], p.keyPath),
                              target.vm, built, newInstance)
    ensures r.Crashed? <==>
              target.IsInstance() &&
              (target.value.instance !in view.instances
               || Field(fields, view.instances[target.value.instance], p.keyPath).HostMetatype?)
  {
    match ReadField(p, target, view, fields)
    case Crashed => Crashed
    case Done(h) => FromObject(h, target.vm, built, newInstance)
  }

  /** What one call of a writable setter does: trap, change nothing, or store
      one host value at one object's key path. */
  datatype Store = Store(obj: ObjId, keyPath: string, v: HostValue)

  /** The host objects' stored properties after `st`. */
  function StoreInto(fields: map<ObjId, map<string, HostValue>>, st: Store): (r: map<ObjId, map<string, HostValue>>)
    ensures Field(r, st.obj, st.keyPath) == st.v
    ensures forall o: ObjId, k: string :: (o, k) != (st.obj, st.keyPath) ==> Field(r, o, k) == Field(fields, o, k)
  {
    fields[st.obj := (if st.obj in fields then fields[st.obj] else map[])[st.keyPath := st.v]]
  }

  /** The setter's effect. The target is resolved first; when it is not an
      instance, optional chaining skips the assignment, right-hand side
      included. Otherwise the new value must resolve to an object or the
      force-unwrap traps. */
  function SetterEffect(s: KeyPathSetter, target: GSValue, newValue: GSValue, view: XdataView): (r: Outcome<Option<Store>>)
    ensures !target.IsInstance() ==> r == Done(None)
    ensures r.Done? && r.value.Some? <==>
              target.IsInstance() && target.value.instance in view.instances
              && newValue.IsInstance() && newValue.value.instance in view.instances
    ensures r.Done? && r.value.Some? ==>
              r.value.value == Store(view.instances[target.value.instance], s.keyPath,
                                     HostObject(view.instances[newValue.value.instance]))
  {
    match ToObjectOf(target, view)
    case Crashed => Crashed
    case Done(None) => Done(None)
    case Done(Some(o)) =>
      match ToObjectOf(newValue, view)
      case Done(Some(a)) => Done(Some(Store(o, s.keyPath, HostObject(a))))
      case _ => Crashed
  }

  /** A value the setter stores is what the getter then reads back, wrapped
      as a host object. */
  lemma SetThenGet(p: PropertyDescriptor, target: GSValue, newValue: GSValue, view: XdataView,
                   fields: map<ObjId, map<string, HostValue>>)
    requires !p.IsReadonly() && p.setter.value.keyPath == p.keyPath
    requires SetterEffect(p.setter.value, target, newValue, view).Done?
    requires SetterEffect(p.setter.value, target, newValue, view).value.Some?
    ensures ReadField(p, target, view, StoreInto(fields, SetterEffect(p.setter.value, target, newValue, view).value.value))
              == Done(HostObject(view.instances[newValue.value.instance]))
  {
  }

  /** `setValue(_:in:)`: the writability assert is its precondition, and the
      setter runs once. Returns whether the host trapped. */
  method SetValue(p: PropertyDescriptor, newValue: GSValue, target: GSValue, view: XdataView, host: Host)
      returns (crashed: bool)
    requires !p.IsReadonly()
    modifies host`fields
    ensures var e := SetterEffect(p.setter.value, target, newValue, view);
            crashed == e.Crashed?
            && (e.Done? && e.value.Some? ==> host.fields == StoreInto(old(host.fields), e.value.value))
            && (!(e.Done? && e.value.Some?) ==> host.fields == old(host.fields))
  {
    var e := SetterEffect(p.setter.value, target, newValue, view);
    match e {
      case Crashed =>
        crashed := true;
      case Done(None) =>
        crashed := false;
      case Done(Some(st)) =>
        host.Store(st.obj, st.keyPath, st.v);
        crashed := false;
    }
  }
}
