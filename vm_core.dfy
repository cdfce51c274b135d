/** The Gravity VM core, seen as abstract state through the C calls the
    bridge makes: globals, the current fiber's result slots and error, the
    collector switch, the xdata word of instances and classes, classes with
    their method tables, and closures.

    The result-channel functions of the bridging header
    (`gravity_return_*`) are the methods that write the slots and the error. */
module VMCore {
  import opened Common
  import opened Values

  /** A class made by `gravity_class_new_pair` (its metaclass is not modelled). */
  datatype ClassRecord = ClassRecord(
    name: string,
    superclass: Option<ClassId>,
    nivar: nat,
    nsvar: nat,
    members: map<string, Value>)

  /** A closure over a bridged function (its xdata is a descriptor) or over a
      special getter/setter pair. */
  datatype Closure =
    | BridgedClosure(xdata: ObjId)
    | SpecialClosure(getter: ClosureId, setter: Option<ClosureId>)

  /** What a callback asks the result channel to do. */
  datatype Reply =
    | NoValue                             // gravity_return_no_value
    | ValueAt(value: Value, rindex: int)  // gravity_return_value
    | Error(msg: string)                  // gravity_return_error
    | ErrorAt(msg: string, rindex: int)   // gravity_return_error_for_rindex
    | Crash                               // the host trapped before replying

  /** The slots after a reply. */
  function SlotsAfter(slots: map<int, Value>, r: Reply): map<int, Value>
  {
    match r
    case ValueAt(v, i) => slots[i := v]
    case ErrorAt(_, i) => slots[i := NullValue]
    case _ => slots
  }

  /** The fiber error after a reply. */
  function ErrorAfter(fiberError: Option<string>, r: Reply): Option<string>
  {
    match r
    case Error(msg) => Some(msg)
    case ErrorAt(msg, _) => Some(msg)
    case _ => fiberError
  }

  /** What the callback returns to the VM. */
  function StatusOf(r: Reply): Status
  {
    match r
    case NoValue => Returned(true)
    case ValueAt(_, _) => Returned(true)
    case Error(_) => Returned(false)
    case ErrorAt(_, _) => Returned(false)
    case Crash => Aborted
  }

  /** Both error replies record their message as the fiber error and return
      false; only the indexed one touches a slot, and it writes null there. */
  lemma ErrorRepliesFail(slots: map<int, Value>, fiberError: Option<string>, r: Reply)
    requires r.Error? || r.ErrorAt?
    ensures StatusOf(r) == Returned(false)
    ensures ErrorAfter(fiberError, r) == Some(r.msg)
    ensures r.Error? ==> SlotsAfter(slots, r) == slots
    ensures r.ErrorAt? ==> SlotsAfter(slots, r) == slots[r.rindex := NullValue]
  {
  }

  /** Only error replies change the fiber error, and every successful reply
      returns true. */
  lemma SuccessLeavesError(slots: map<int, Value>, fiberError: Option<string>, r: Reply)
    requires r.NoValue? || r.ValueAt?
    ensures StatusOf(r) == Returned(true)
    ensures ErrorAfter(fiberError, r) == fiberError
    ensures r.NoValue? ==> SlotsAfter(slots, r) == slots
  {
  }

  class Machine {
    var globals: map<string, Value>
    var slots: map<int, Value>
    var fiberError: Option<string>
    var gcEnabled: bool
    var instanceXdata: map<InstanceId, ObjId>
    var classXdata: map<ClassId, ObjId>
    var classes: seq<ClassRecord>
    var closures: seq<Closure>

    constructor ()
      ensures globals == map[] && slots == map[] && fiberError == None && gcEnabled
      ensures instanceXdata == map[] && classXdata == map[] && classes == [] && closures == []
    {
      globals, slots, fiberError, gcEnabled := map[], map[], None, true;
      instanceXdata, classXdata, classes, closures := map[], map[], [], [];
    }

    /** `gravity_return_no_value`. */
    method ReturnNoValue() returns (ok: bool)
      ensures ok
    {
      ok := true;
    }

    /** `gravity_return_value`: the value goes to slot `rindex`. */
    method ReturnValue(v: Value, rindex: int) returns (ok: bool)
      modifies this`slots
      ensures slots == old(slots)[rindex := v] && ok
    {
      slots := slots[rindex := v];
      ok := true;
    }

    /** `gravity_return_error_for_rindex`: records `msg`, writes null into slot `rindex`, fails. */
    method ReturnErrorForRindex(rindex: int, msg: string) returns (ok: bool)
      modifies this`slots, this`fiberError
      ensures fiberError == Some(msg)
      ensures slots == old(slots)[rindex := NullValue]
      ensures !ok
    {
      fiberError := Some(msg);
      slots := slots[rindex := NullValue];
      ok := false;
    }

    /** `gravity_return_error`: records `msg`, writes no slot, fails. */
    method ReturnError(msg: string) returns (ok: bool)
      modifies this`fiberError
      ensures fiberError == Some(msg) && !ok
    {
      fiberError := Some(msg);
      ok := false;
    }

    /** Hands a callback's reply to the result channel. */
    method Deliver(r: Reply) returns (st: Status)
      modifies this`slots, this`fiberError
      ensures slots == SlotsAfter(old(slots), r)
      ensures fiberError == ErrorAfter(old(fiberError), r)
      ensures st == StatusOf(r)
    {
      match r {
        case NoValue =>
          var ok := ReturnNoValue();
          st := Returned(ok);
        case ValueAt(v, i) =>
          var ok := ReturnValue(v, i);
          st := Returned(ok);
        case Error(msg) =>
          var ok := ReturnError(msg);
          st := Returned(ok);
        case ErrorAt(msg, i) =>
          var ok := ReturnErrorForRindex(i, msg);
          st := Returned(ok);
        case Crash =>
          st := Aborted;
      }
    }

    /** `gravity_gc_setenabled`. */
    method SetGCEnabled(enabled: bool)
      modifies this`gcEnabled
      ensures gcEnabled == enabled
    {
      gcEnabled := enabled;
    }

    /** `gravity_vm_setvalue`: a global. */
    method SetValue(key: string, v: Value)
      modifies this`globals
      ensures globals == old(globals)[key := v]
    {
      globals := globals[key := v];
    }

    /** `gravity_vm_getvalue`: a missing global reads as null. */
    function GetValue(key: string): Value
      reads this
    {
      if key in globals then globals[key] else NullValue
    }

    /** `gravity_class_new_pair(vm, name, superclass, nivar, nsvar)`. */
    method NewClassPair(name: string, superclass: Option<ClassId>, nivar: nat, nsvar: nat) returns (c: ClassId)
      modifies this`classes
      ensures c == |old(classes)|
      ensures classes == old(classes) + [ClassRecord(name, superclass, nivar, nsvar, map[])]
    {
      c := |classes|;
      classes := classes + [ClassRecord(name, superclass, nivar, nsvar, map[])];
    }

    /** `gravity_class_bind`: one entry of a class's method table. */
    method ClassBind(c: ClassId, key: string, v: Value)
      requires c < |classes|
      modifies this`classes
      ensures |classes| == |old(classes)|
      ensures classes == old(classes)[c := old(classes)[c].(members := old(classes)[c].members[key := v])]
    {
      classes := classes[c := classes[c].(members := classes[c].members[key := v])];
    }

    /** `gravity_class_setxdata`. */
    method ClassSetXdata(c: ClassId, o: ObjId)
      modifies this`classXdata
      ensures classXdata == old(classXdata)[c := o]
    {
      classXdata := classXdata[c := o];
    }

    /** `gravity_instance_setxdata`. */
    method InstanceSetXdata(i: InstanceId, o: ObjId)
      modifies this`instanceXdata
      ensures instanceXdata == old(instanceXdata)[i := o]
    {
      instanceXdata := instanceXdata[i := o];
    }

    /** `gravity_closure_new`. */
    method NewClosure(f: Closure) returns (id: ClosureId)
      modifies this`closures
      ensures id == |old(closures)| && closures == old(closures) + [f]
    {
      id := |closures|;
      closures := closures + [f];
    }
  }
}
