/** The VM's tagged value (`gravity_value_t`) and the side-effect-free
    "is a" helpers the bridging header exposes to Swift.

    A value's tag is the class its `isa` word points to; null and undefined
    share the null class and differ in their payload, as in the VM's own
    value layout. */
module Values {
  import opened Common

  datatype Value =
    | NullValue
    | UndefinedValue
    | BoolValue(b: bool)
    | IntValue(n: int)
    | FloatValue(f: FloatToken)
    | StringValue(s: string)
    | ListValue(list: nat)
    | MapValue(dict: nat)
    | RangeValue(from: int, to: int, inclusive: bool)
    | FunctionValue(function_: nat)
    | ClosureValue(closure: ClosureId)
    | FiberValue(fiber: nat)
    | ClassValue(cls: ClassId)
    | InstanceValue(instance: InstanceId)

  /** The VM class a value's `isa` word names. */
  datatype ClassTag =
    | NullClass | BoolClass | IntClass | FloatClass | StringClass | ListClass | MapClass
    | RangeClass | FunctionClass | ClosureClass | FiberClass | ClassClass | InstanceClass

  function Isa(v: Value): ClassTag
  {
    match v
    case NullValue => NullClass
    case UndefinedValue => NullClass
    case BoolValue(_) => BoolClass
    case IntValue(_) => IntClass
    case FloatValue(_) => FloatClass
    case StringValue(_) => StringClass
    case ListValue(_) => ListClass
    case MapValue(_) => MapClass
    case RangeValue(_, _, _) => RangeClass
    case FunctionValue(_) => FunctionClass
    case ClosureValue(_) => ClosureClass
    case FiberValue(_) => FiberClass
    case ClassValue(_) => ClassClass
    case InstanceValue(_) => InstanceClass
  }

  // gravity_value_isa_* : one tag test each, reading nothing but the value.
  predicate IsaFunc(v: Value) { Isa(v) == FunctionClass }
  predicate IsaInstance(v: Value) { Isa(v) == InstanceClass }
  predicate IsaClosure(v: Value) { Isa(v) == ClosureClass }
  predicate IsaFiber(v: Value) { Isa(v) == FiberClass }
  predicate IsaClass(v: Value) { Isa(v) == ClassClass }
  predicate IsaString(v: Value) { Isa(v) == StringClass }
  predicate IsaInt(v: Value) { Isa(v) == IntClass }
  predicate IsaFloat(v: Value) { Isa(v) == FloatClass }
  predicate IsaBool(v: Value) { Isa(v) == BoolClass }
  predicate IsaList(v: Value) { Isa(v) == ListClass }
  predicate IsaMap(v: Value) { Isa(v) == MapClass }
  predicate IsaRange(v: Value) { Isa(v) == RangeClass }
  predicate IsaNullClass(v: Value) { Isa(v) == NullClass }
  predicate IsaNull(v: Value) { IsaNullClass(v) && v.NullValue? }
  predicate IsaUndefined(v: Value) { IsaNullClass(v) && v.UndefinedValue? }

  /** Number of single-class helpers that hold of `v`. */
  function TagHits(v: Value): (n: nat)
  {
    (if IsaFunc(v) then 1 else 0) + (if IsaInstance(v) then 1 else 0)
    + (if IsaClosure(v) then 1 else 0) + (if IsaFiber(v) then 1 else 0)
    + (if IsaClass(v) then 1 else 0) + (if IsaString(v) then 1 else 0)
    + (if IsaInt(v) then 1 else 0) + (if IsaFloat(v) then 1 else 0)
    + (if IsaBool(v) then 1 else 0) + (if IsaList(v) then 1 else 0)
    + (if IsaMap(v) then 1 else 0) + (if IsaRange(v) then 1 else 0)
    + (if IsaNullClass(v) then 1 else 0)
  }

  /** The single-class helpers partition the values: exactly one holds of
      each value, and the null class splits into null and undefined. */
  lemma TagHelpersPartition(v: Value)
    ensures TagHits(v) == 1
    ensures IsaNullClass(v) <==> IsaNull(v) || IsaUndefined(v)
    ensures !(IsaNull(v) && IsaUndefined(v))
  {
  }
}
