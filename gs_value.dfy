/** `GSValue`: a VM value paired with the VM it belongs to, how host values
    become VM values, and how VM values are read back on the host side. */
module GSValues {
  import opened Common
  import opened Values
  import opened HostHeap

  /** The xdata words the bridge reads: those of instances and of classes. */
  datatype XdataView = XdataView(instances: map<InstanceId, ObjId>, classes: map<ClassId, ObjId>)

  datatype GSValue = GSValue(value: Value, vm: Ptr) {
    predicate IsString() { IsaString(value) }
    predicate IsFunction() { IsaFunc(value) }
    predicate IsFiber() { IsaFiber(value) }
    predicate IsBool() { IsaBool(value) }
    predicate IsClass() { IsaClass(value) }
    predicate IsNull() { IsaNull(value) }
    predicate IsNullClass() { IsaNullClass(value) }
    predicate IsUndefined() { IsaUndefined(value) }
    predicate IsMap() { IsaMap(value) }
    predicate IsList() { IsaList(value) }
    predicate IsRange() { IsaRange(value) }
    predicate IsInstance() { IsaInstance(value) }
    predicate IsClosure() { IsaClosure(value) }

    /** `isInteger` as written: it tests for the float class. */
    predicate IsIntegerAsWritten() { IsaFloat(value) }
    /** `isDouble` as written: it tests for the int class. */
    predicate IsDoubleAsWritten() { IsaInt(value) }

    /** `isInteger` as evidently intended. */
    predicate IsInteger() { IsaInt(value) }
    /** `isDouble` as evidently intended. */
    predicate IsDouble() { IsaFloat(value) }
  }

  // The typed initializers. The heap-allocating ones (string, range, list,
  // map) produce a value whose object holds exactly the given contents.

  function FromString(s: string, vm: Ptr): GSValue { GSValue(StringValue(s), vm) }
  function FromInteger(i: int, vm: Ptr): GSValue { GSValue(IntValue(i), vm) }
  function FromDouble(d: FloatToken, vm: Ptr): GSValue { GSValue(FloatValue(d), vm) }
  function FromBoolean(b: bool, vm: Ptr): GSValue { GSValue(BoolValue(b), vm) }
  function NullIn(vm: Ptr): GSValue { GSValue(NullValue, vm) }
  function UndefinedIn(vm: Ptr): GSValue { GSValue(UndefinedValue, vm) }
  function NewList(list: nat, vm: Ptr): GSValue { GSValue(ListValue(list), vm) }
  function NewMap(dict: nat, vm: Ptr): GSValue { GSValue(MapValue(dict), vm) }

  /** `init(range: ClosedRange<Int>)`: a range object with `inclusive == true`. */
  function FromClosedRange(lo: int, hi: int, vm: Ptr): GSValue
    requires lo <= hi
  {
    GSValue(RangeValue(lo, hi, true), vm)
  }

  /** `init(range: Range<Int>)`: a range object with `inclusive == false`. */
  function FromRange(lo: int, hi: int, vm: Ptr): GSValue
    requires lo <= hi
  {
    GSValue(RangeValue(lo, hi, false), vm)
  }

  /** Host values that none of the typed casts of `init(object:)` accept. */
  predicate Unrecognised(h: HostValue)
  {
    !(h.HostString? || h.HostInt? || h.HostDouble? || h.HostBool? || h.HostMetatype?)
  }

  /** `init(object:)`: String, then Int, then Double, then Bool, then a
      metatype (which traps), and otherwise an instance when one can be built
      for the value (`built`, with the VM's new instance `newInstance`) or undefined. */
  function FromObject(h: HostValue, vm: Ptr, built: bool, newInstance: InstanceId): (r: Outcome<GSValue>)
    ensures r.Crashed? <==> h.HostMetatype?
    ensures r.Done? ==> r.value.vm == vm
    ensures r.Done? && IsaString(r.value.value) <==> h.HostString?
    ensures r.Done? && IsaInt(r.value.value) <==> h.HostInt?
    ensures r.Done? && IsaFloat(r.value.value) <==> h.HostDouble?
    ensures r.Done? && IsaBool(r.value.value) <==> h.HostBool?
    ensures r.Done? && IsaInstance(r.value.value) <==> Unrecognised(h) && built
    ensures r.Done? && IsaUndefined(r.value.value) <==> Unrecognised(h) && !built
    ensures h.HostInt? ==> r == Done(FromInteger(h.i, vm))
    ensures h.HostDouble? ==> r == Done(FromDouble(h.d, vm))
  {
    match h
    case HostString(s) => Done(FromString(s, vm))
    case HostInt(i) => Done(FromInteger(i, vm))
    case HostDouble(d) => Done(FromDouble(d, vm))
    case HostBool(b) => Done(FromBoolean(b, vm))
    case HostMetatype(_) => Crashed
    case _ => if built then Done(GSValue(InstanceValue(newInstance), vm)) else Done(UndefinedIn(vm))
  }

  /** `toString`: the payload of a string; otherwise the VM's own textual
      form (`convert_value2string`, here the uninterpreted `describe`). */
  function ToString(g: GSValue, describe: Value -> string): (r: string)
    ensures g.IsString() ==> r == g.value.s
    ensures !g.IsString() ==> r == describe(g.value)
  {
    if g.IsString() then g.value.s else describe(g.value)
  }

  /** `toBoolean`: the payload of a bool; otherwise the VM's truth value
      (`convert_value2bool`, here the uninterpreted `truth`). */
  function ToBoolean(g: GSValue, truth: Value -> bool): (r: bool)
    ensures g.IsBool() ==> r == g.value.b
    ensures !g.IsBool() ==> r == truth(g.value)
  {
    if g.IsBool() then g.value.b else truth(g.value)
  }

  /** `toList`: the list is cast but never read, so the result is always empty. */
  function ToList(g: GSValue): (r: seq<GSValue>)
    ensures r == []
  {
    if !g.IsList() then [] else []
  }

  /** `toRange`: `from...to` of the range object, whatever its inclusive flag;
      building the `ClosedRange` traps when `from > to`. The cast is
      unchecked, so callers must pass a range. */
  function ToRange(g: GSValue): (r: Outcome<(int, int)>)
    requires g.IsRange()
    ensures r.Done? <==> g.value.from <= g.value.to
    ensures r.Done? ==> r.value == (g.value.from, g.value.to)
  {
    if g.value.from <= g.value.to then Done((g.value.from, g.value.to)) else Crashed
  }

  /** `toObjectOf`: nil for anything but an instance; for an instance, the
      object its xdata word points to, and a trap when that word is nil. */
  function ToObjectOf(g: GSValue, view: XdataView): (r: Outcome<Option<ObjId>>)
    ensures !g.IsInstance() ==> r == Done(None)
    ensures r.Crashed? <==> g.IsInstance() && g.value.instance !in view.instances
    ensures r.Done? && r.value.Some? <==>
              g.IsInstance() && g.value.instance in view.instances
    ensures r.Done? && r.value.Some? ==> r.value.value == view.instances[g.value.instance]
  {
    if !g.IsInstance() then Done(None)
    else if g.value.instance in view.instances then Done(Some(view.instances[g.value.instance]))
    else Crashed
  }

  /** The xdata word of an instance or a class value; nil for any other value. */
  function XData(g: GSValue, view: XdataView): Option<ObjId>
  {
    match g.value
    case InstanceValue(i) => if i in view.instances then Some(view.instances[i]) else None
    case ClassValue(c) => if c in view.classes then Some(view.classes[c]) else None
    case _ => None
  }

  /** `==`: values of different VMs are never equal; within one VM the VM's
      own equality (`gravity_value_vm_equals`, here `vmEquals`) decides. */
  function Equals(lhs: GSValue, rhs: GSValue, vmEquals: (Value, Value) -> bool): (r: bool)
    ensures lhs.vm != rhs.vm ==> !r
    ensures lhs.vm == rhs.vm ==> (r <==> vmEquals(lhs.value, rhs.value))
  {
    if lhs.vm != rhs.vm then false else vmEquals(lhs.value, rhs.value)
  }

  /** Strings and bools read back to the host value they were built from,
      whatever the VM's own conversions do. */
  lemma PrimitiveRoundTrips(s: string, b: bool, vm: Ptr, built: bool, newInstance: InstanceId,
                            describe: Value -> string, truth: Value -> bool)
    ensures FromObject(HostString(s), vm, built, newInstance).Done?
    ensures ToString(FromObject(HostString(s), vm, built, newInstance).value, describe) == s
    ensures FromObject(HostBool(b), vm, built, newInstance).Done?
    ensures ToBoolean(FromObject(HostBool(b), vm, built, newInstance).value, truth) == b
  {
  }

  /** Both range initializers keep their bounds and `toRange` gives them back;
      the half-open range comes back as a closed range over the same bounds,
      since `toRange` ignores the inclusive flag. */
  lemma RangeRoundTrip(lo: int, hi: int, vm: Ptr)
    requires lo <= hi
    ensures FromClosedRange(lo, hi, vm).value.inclusive
    ensures !FromRange(lo, hi, vm).value.inclusive
    ensures ToRange(FromClosedRange(lo, hi, vm)) == Done((lo, hi))
    ensures ToRange(FromRange(lo, hi, vm)) == Done((lo, hi))
  {
  }

  /** As written, `isInteger` is false and `isDouble` true for every integer
      value, and the reverse for every double value. */
  lemma NumericPredicatesAsWritten(i: int, d: FloatToken, vm: Ptr)
    ensures !FromInteger(i, vm).IsIntegerAsWritten() && FromInteger(i, vm).IsDoubleAsWritten()
    ensures FromDouble(d, vm).IsIntegerAsWritten() && !FromDouble(d, vm).IsDoubleAsWritten()
  {
  }

  /** Corrected, `isInteger` holds exactly for values built from a host Int
      and `isDouble` exactly for those built from a host Double. */
  lemma NumericPredicatesCorrected(h: HostValue, vm: Ptr, built: bool, newInstance: InstanceId)
    requires FromObject(h, vm, built, newInstance).Done?
    ensures FromObject(h, vm, built, newInstance).value.IsInteger() <==> h.HostInt?
    ensures FromObject(h, vm, built, newInstance).value.IsDouble() <==> h.HostDouble?
  {
  }
}
