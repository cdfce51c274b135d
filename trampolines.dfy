/** The VM-facing callbacks of `GravityVirtualMachine.swift`: each looks up
    its Swift wrapper by VM pointer (trapping when none is registered), then
    runs a short chain of guards that ends in one result-channel reply.

    Each chain is a pure decision function over the callback's inputs and
    the VM's xdata words; the `Bridge*` methods apply that decision to the
    registered VM's state and the host's retain counts and stored
    properties. */
module Trampolines {
  import opened Common
  import opened Values
  import opened HostHeap
  import opened VMCore
  import opened GSValues
  import opened MethodDescriptors
  import opened PropertyDescriptors
  import opened VirtualMachines

  const NoXdataMessage: string := "Required xdata not passed"
  const NoBridgeDataMessage: string := "Extra data for bridging not passed!"
  const NoBackingObjectMessage: string := "Instance don't have any ref to allocated object."
  const ReadonlySetterMessage: string := "Unexpected calling setter in readonly property!"
  const InitNotReferenceMessage: string := "Return value of init supports only reference types."

  /** The arity error both `bridgeInitInstance` and `bridgeExecute` report. */
  function TooManyArgumentsMessage(name: string, expected: nat, passed: nat): (msg: string)
    ensures |msg| > |name|
  {
    "Passed more arguments, then expected. Method " + name + " expected " + Decimal(expected)
      + " arguments, but passed " + Decimal(passed) + " arguments."
  }

  /** What the delegate's `didGetUndefValueFrom` does: hand back a value,
      hand back nil, or throw an error with this description. */
  datatype UndefLookup = Found(value: GSValue) | NotFound | Threw(description: string)

  /** The host code and host decisions a callback depends on but the model
      cannot see: the functions the descriptors wrap; the instance
      `GSInstance` builds, if any, for a raw VM value passed to
      `init(object:)`; whether `GSInstance` builds one (and which) for a
      returned host value; and the delegate's undefined-key lookup. */
  datatype HostEnv = HostEnv(
    apply: HostApply,
    instanceFor: Value -> Option<InstanceId>,
    built: bool,
    newInstance: InstanceId,
    undefLookup: (GSValue, string) -> UndefLookup)

  /** The xdata words the callbacks resolve instances and classes through. */
  function ViewOf(m: Machine): XdataView
    reads m
  {
    XdataView(m.instanceXdata, m.classXdata)
  }

  /** `GSValue(object: arg, in: vm)` for a raw VM value: a `gravity_value_t`
      is a C struct, so none of the typed casts of `init(object:)` match and
      the value becomes the instance `GSInstance` builds for it, or undefined. */
  function ArgumentOf(raw: Value, vm: Ptr, instanceFor: Value -> Option<InstanceId>): (g: GSValue)
    ensures g.vm == vm
    ensures g.IsInstance() <==> instanceFor(raw).Some?
    ensures g.IsInstance() ==> g.value.instance == instanceFor(raw).value
    ensures !g.IsInstance() ==> g.IsUndefined()
  {
    match instanceFor(raw)
    case Some(i) => FromObject(HostStruct(0), vm, true, i).value
    case None => FromObject(HostStruct(0), vm, false, 0).value
  }

  /** The `map` of the raw arguments through `ArgumentOf`. */
  function Arguments(raws: seq<Value>, vm: Ptr, instanceFor: Value -> Option<InstanceId>): (gs: seq<GSValue>)
    ensures |gs| == |raws|
    ensures forall k :: 0 <= k < |raws| ==> gs[k] == ArgumentOf(raws[k], vm, instanceFor)
  {
    seq(|raws|, k requires 0 <= k < |raws| => ArgumentOf(raws[k], vm, instanceFor))
  }

  /** `GravityReturn.value(v, rIndex: Int32(rIndex), vm:)`: converting the
      unsigned index traps above `Int32.max`. */
  function ValueAtIndex(v: Value, rIndex: nat): (r: Reply)
    ensures r.ValueAt? <==> rIndex <= Int32Max
    ensures r.ValueAt? ==> r.value == v && r.rindex == rIndex
    ensures !r.ValueAt? ==> r == Crash
  {
    if rIndex > Int32Max then Crash else ValueAt(v, rIndex)
  }

  // ---------------------------------------------------------------------
  // bridgeInitInstance

  /** What `bridgeInitInstance` decides: the host trapped, an error is
      reported, or this host object becomes the instance's xdata. */
  datatype Construction = Trapped | Refused(msg: string) | Built(obj: ObjId)

  /** The reply a construction ends in. */
  function InitReply(c: Construction): (r: Reply)
    ensures r.Crash? <==> c.Trapped?
    ensures r.Error? <==> c.Refused?
    ensures r.Error? ==> r.msg == c.msg
    ensures r.NoValue? <==> c.Built?
  {
    match c
    case Trapped => Crash
    case Refused(msg) => Error(msg)
    case Built(_) => NoValue
  }

  /** The constructor's arguments: slots `1..<argsCount` (slot 0 is the
      receiver), each through `init(object:)`. */
  function InitArguments(args: seq<Value>, vm: Ptr, env: HostEnv): seq<GSValue>
    requires |args| >= 1
  {
    Arguments(args[1..], vm, env.instanceFor)
  }

  /** `bridgeInitInstance` as evidently intended: the range `1..<argsCount`
      traps for no slots at all and `xdata!` traps when no descriptor is
      attached; more arguments than the descriptor declares is an error;
      the constructor then runs as a static call, and only a reference-type
      result is attached, anything else being refused. */
  function InitInstanceDecision(xdata: Option<MethodDescriptor>, args: seq<Value>, vm: Ptr,
                                view: XdataView, env: HostEnv): (c: Construction)
    ensures args == [] || xdata.None? ==> c == Trapped
    ensures |args| >= 1 && xdata.Some? && |args| - 1 > xdata.value.argsCount ==>
              c == Refused(TooManyArgumentsMessage(xdata.value.name, xdata.value.argsCount, |args| - 1))
    ensures c.Built? ==>
              |args| >= 1 && xdata.Some? && |args| - 1 <= xdata.value.argsCount
              && CallStatic(xdata.value, InitArguments(args, vm, env), view, env.apply) == Done(HostObject(c.obj))
    ensures |args| >= 1 && xdata.Some? && |args| - 1 <= xdata.value.argsCount ==>
              var result := CallStatic(xdata.value, InitArguments(args, vm, env), view, env.apply);
              (c == Trapped <==> result.Crashed?)
              && (result.Done? && result.value.HostObject? ==> c == Built(result.value.obj))
              && (result.Done? && !result.value.HostObject? ==> c == Refused(InitNotReferenceMessage))
  {
    if args == [] || xdata.None? then Trapped
    else
      var d := xdata.value;
      var arguments := InitArguments(args, vm, env);
      if |arguments| > d.argsCount then Refused(TooManyArgumentsMessage(d.name, d.argsCount, |arguments|))
      else
        match CallStatic(d, arguments, view, env.apply)
        case Crashed => Trapped
        case Done(HostObject(o)) => Built(o)
        case Done(_) => Refused(InitNotReferenceMessage)
  }

  /** `bridgeInitInstance` as written: `callStatic(with:) as? AnyObject`
      casts an `Any?`, and that cast succeeds for every non-nil value,
      boxing a value-type result into a new object (`boxFor`); only a nil
      result is refused. */
  function InitInstanceDecisionAsWritten(xdata: Option<MethodDescriptor>, args: seq<Value>, vm: Ptr,
                                         view: XdataView, env: HostEnv, boxFor: HostValue -> ObjId): (c: Construction)
    ensures c.Built? && c != InitInstanceDecision(xdata, args, vm, view, env) ==>
              |args| >= 1 && xdata.Some? && |args| - 1 <= xdata.value.argsCount &&
              var result := CallStatic(xdata.value, InitArguments(args, vm, env), view, env.apply);
              result.Done? && !result.value.HostObject? && !result.value.HostNil? && c.obj == boxFor(result.value)
    ensures !c.Built? ==> c == InitInstanceDecision(xdata, args, vm, view, env)
  {
    if args == [] || xdata.None? then Trapped
    else
      var d := xdata.value;
      var arguments := InitArguments(args, vm, env);
      if |arguments| > d.argsCount then Refused(TooManyArgumentsMessage(d.name, d.argsCount, |arguments|))
      else
        match CallStatic(d, arguments, view, env.apply)
        case Crashed => Trapped
        case Done(HostObject(o)) => Built(o)
        case Done(HostNil) => Refused(InitNotReferenceMessage)
        case Done(h) => Built(boxFor(h))
  }

  /** A constructor whose host type is a struct: as written, the struct is
      boxed and attached as the instance's object; as intended, it is
      refused with the reference-types error. */
  lemma InitAttachesValueTypeAsWritten(d: MethodDescriptor, args: seq<Value>, vm: Ptr, view: XdataView,
                                       env: HostEnv, boxFor: HostValue -> ObjId, tag: nat)
    requires |args| >= 1 && |args| - 1 <= d.argsCount
    requires CallStatic(d, InitArguments(args, vm, env), view, env.apply) == Done(HostStruct(tag))
    ensures InitInstanceDecisionAsWritten(Some(d), args, vm, view, env, boxFor) == Built(boxFor(HostStruct(tag)))
    ensures InitInstanceDecision(Some(d), args, vm, view, env) == Refused(InitNotReferenceMessage)
  {
  }

  /** One concrete input: the one-argument-free constructor of a struct type,
      called with only the receiver slot. */
  lemma InitStructConstructorExample(boxFor: HostValue -> ObjId, instanceFor: Value -> Option<InstanceId>,
                                     lookup: (GSValue, string) -> UndefLookup)
    ensures var env := HostEnv((f, r, a) => HostStruct(7), instanceFor, false, 0, lookup);
            var d := Constructor(1, 2, 0);
            InitInstanceDecisionAsWritten(Some(d), [NullValue], 3, XdataView(map[], map[]), env, boxFor)
              == Built(boxFor(HostStruct(7)))
            && InitInstanceDecision(Some(d), [NullValue], 3, XdataView(map[], map[]), env)
              == Refused(InitNotReferenceMessage)
  {
    var env := HostEnv((f, r, a) => HostStruct(7), instanceFor, false, 0, lookup);
    var d := Constructor(1, 2, 0);
    assert InitArguments([NullValue], 3, env) == [];
    InitAttachesValueTypeAsWritten(d, [NullValue], 3, XdataView(map[], map[]), env, boxFor, 7);
  }

  /** A constructor that reads an argument traps when called with only the
      receiver slot: the trampoline checks only the upper bound. */
  lemma InitWithMissingArgumentTraps(d: MethodDescriptor, args: seq<Value>, vm: Ptr, view: XdataView, env: HostEnv)
    requires |args| >= 1 && |args| - 1 < d.wrapper.arity && d.ArityMatches()
    ensures InitInstanceDecision(Some(d), args, vm, view, env) == Trapped
  {
  }

  // ---------------------------------------------------------------------
  // bridgeExecute

  /** The guards `bridgeExecute` passes before it calls the method: a
      descriptor, a callee slot, no more arguments than declared, and a
      callee carrying an xdata word. */
  predicate ExecuteReachesCall(data: Option<MethodDescriptor>, args: seq<Value>, vm: Ptr,
                               view: XdataView, env: HostEnv)
  {
    data.Some? && |args| >= 1 && |args| - 1 <= data.value.argsCount
    && XData(ArgumentOf(args[0], vm, env.instanceFor), view).Some?
  }

  /** `method.call(in: callee, with: arguments)` once the guards pass. */
  function Invoke(data: Option<MethodDescriptor>, args: seq<Value>, vm: Ptr,
                  view: XdataView, env: HostEnv): Outcome<HostValue>
    requires data.Some? && |args| >= 1
  {
    Call(data.value, Some(ArgumentOf(args[0], vm, env.instanceFor)), Arguments(args[1..], vm, env.instanceFor),
         view, env.apply)
  }

  /** `bridgeExecute`: no descriptor is an error; slot 0 is removed as the
      callee (`removeFirst` traps when there are no slots); the arity check
      comes before the check that the callee carries an object; a `Void`
      result replies no value, any other result is converted with
      `init(object:)` and written to slot `rIndex`. */
  function ExecuteReply(data: Option<MethodDescriptor>, args: seq<Value>, rIndex: nat, vm: Ptr,
                        view: XdataView, env: HostEnv): (r: Reply)
    ensures data.None? ==> r == Error(NoXdataMessage)
    ensures data.Some? && args == [] ==> r == Crash
    ensures data.Some? && |args| >= 1 && |args| - 1 > data.value.argsCount ==>
              r == Error(TooManyArgumentsMessage(data.value.name, data.value.argsCount, |args| - 1))
    ensures (data.Some? && |args| >= 1 && |args| - 1 <= data.value.argsCount
             && XData(ArgumentOf(args[0], vm, env.instanceFor), view).None?) ==> r == Error(NoBackingObjectMessage)
    ensures ExecuteReachesCall(data, args, vm, view, env) ==>
              var result := Invoke(data, args, vm, view, env);
              (r.NoValue? <==> result == Done(HostVoid))
              && (result.Crashed? ==> r == Crash)
    ensures r.ValueAt? ==>
              ExecuteReachesCall(data, args, vm, view, env)
              && Invoke(data, args, vm, view, env).Done?
              && FromObject(Invoke(data, args, vm, view, env).value, vm, env.built, env.newInstance)
                   == Done(GSValue(r.value, vm))
              && r.rindex == rIndex && rIndex <= Int32Max
  {
    if data.None? then Error(NoXdataMessage)
    else if args == [] then Crash
    else
      var d := data.value;
      var callee := ArgumentOf(args[0], vm, env.instanceFor);
      var arguments := Arguments(args[1..], vm, env.instanceFor);
      if |arguments| > d.argsCount then Error(TooManyArgumentsMessage(d.name, d.argsCount, |arguments|))
      else if XData(callee, view).None? then Error(NoBackingObjectMessage)
      else
        match Call(d, Some(callee), arguments, view, env.apply)
        case Crashed => Crash
        case Done(HostVoid) => NoValue
        case Done(h) =>
          match FromObject(h, vm, env.built, env.newInstance)
          case Crashed => Crash
          case Done(g) => ValueAtIndex(g.value, rIndex)
  }

  /** `bridgeExecute` succeeds exactly when the guards pass, every argument
      the wrapper reads is an instance carrying an object, and the result
      is `Void`, or is not a metatype and fits an `Int32` slot index. */
  lemma {:induction false} ExecuteSucceedsIff(data: Option<MethodDescriptor>, args: seq<Value>, rIndex: nat, vm: Ptr,
                                              view: XdataView, env: HostEnv)
    ensures var r := ExecuteReply(data, args, rIndex, vm, view, env);
            (r.NoValue? || r.ValueAt?) <==>
              ExecuteReachesCall(data, args, vm, view, env)
              && |args| - 1 >= data.value.wrapper.arity
              && (forall k :: 1 <= k <= data.value.wrapper.arity ==>
                    env.instanceFor(args[k]).Some? && env.instanceFor(args[k]).value in view.instances)
              && Invoke(data, args, vm, view, env).Done?
              && var h := Invoke(data, args, vm, view, env).value;
                 h.HostVoid? || (!h.HostMetatype? && rIndex <= Int32Max)
  {
    if ExecuteReachesCall(data, args, vm, view, env) {
      var d := data.value;
      var callee := ArgumentOf(args[0], vm, env.instanceFor);
      var arguments := Arguments(args[1..], vm, env.instanceFor);
      assert callee.IsInstance() && callee.value.instance in view.instances;
      assert Receiver(d, Some(callee), view).Done?;
      CallSucceedsIff(d, Some(callee), arguments, view, env.apply);
      if |arguments| >= d.wrapper.arity {
        assert forall k :: 1 <= k <= d.wrapper.arity ==> arguments[k - 1] == ArgumentOf(args[k], vm, env.instanceFor);
      }
    }
  }

  /** A method that reads more arguments than were passed traps: the
      trampoline checks only that there are not too many. */
  lemma ExecuteWithMissingArgumentTraps(data: Option<MethodDescriptor>, args: seq<Value>, rIndex: nat, vm: Ptr,
                                        view: XdataView, env: HostEnv)
    requires ExecuteReachesCall(data, args, vm, view, env)
    requires |args| - 1 < data.value.wrapper.arity
    ensures ExecuteReply(data, args, rIndex, vm, view, env) == Crash
  {
  }

  /** The no-argument `staticMethod` as written declares one argument, so a
      call passing one extra argument gets past the arity check and behaves
      as a call passing none; with the declared count corrected to zero the
      same call is the arity error. */
  lemma NoArgStaticMethodAcceptsExtraArgument(id: ObjId, fn: HostFn, named: string, args: seq<Value>,
                                               rIndex: nat, vm: Ptr, view: XdataView, env: HostEnv)
    requires |args| == 2
    ensures ExecuteReply(Some(StaticMethodNoArgsAsWritten(id, fn, named)), args, rIndex, vm, view, env)
              == ExecuteReply(Some(StaticMethodNoArgsAsWritten(id, fn, named)), args[..1], rIndex, vm, view, env)
    ensures ExecuteReply(Some(StaticMethodNoArgs(id, fn, named)), args, rIndex, vm, view, env)
              == Error(TooManyArgumentsMessage(named, 0, 1))
  {
    var d := StaticMethodNoArgsAsWritten(id, fn, named);
    var callee := ArgumentOf(args[0], vm, env.instanceFor);
    ExtraArgumentsIgnored(d, Some(callee), Arguments(args[1..], vm, env.instanceFor), view, env.apply);
    ExtraArgumentsIgnored(d, Some(callee), Arguments(args[..1][1..], vm, env.instanceFor), view, env.apply);
  }

  // ---------------------------------------------------------------------
  // bridgeSetValue and bridgeGetValue

  /** `bridgeSetValue`: no descriptor is an error; a read-only descriptor is
      an error and its setter is not called; otherwise the setter runs once
      and the reply is no value, unless the host trapped. */
  function SetValueReply(xdata: Option<PropertyDescriptor>, target: GSValue, newValue: GSValue,
                         view: XdataView): (r: Reply)
    ensures xdata.None? ==> r == Error(NoBridgeDataMessage)
    ensures xdata.Some? && xdata.value.IsReadonly() ==> r == Error(ReadonlySetterMessage)
    ensures r.NoValue? || r.Crash? <==> xdata.Some? && !xdata.value.IsReadonly()
    ensures r.Crash? <==>
              xdata.Some? && !xdata.value.IsReadonly()
              && SetterEffect(xdata.value.setter.value, target, newValue, view).Crashed?
  {
    if xdata.None? then Error(NoBridgeDataMessage)
    else if xdata.value.IsReadonly() then Error(ReadonlySetterMessage)
    else if SetterEffect(xdata.value.setter.value, target, newValue, view).Crashed? then Crash
    else NoValue
  }

  /** The stored properties after `bridgeSetValue`: changed only when the
      setter ran and stored. */
  function FieldsAfterSet(xdata: Option<PropertyDescriptor>, target: GSValue, newValue: GSValue,
                          view: XdataView, fields: map<ObjId, map<string, HostValue>>): (r: map<ObjId, map<string, HostValue>>)
    ensures !SetValueReply(xdata, target, newValue, view).NoValue? ==> r == fields
  {
    if xdata.None? || xdata.value.IsReadonly() then fields
    else match SetterEffect(xdata.value.setter.value, target, newValue, view)
      case Done(Some(st)) => StoreInto(fields, st)
      case _ => fields
  }

  /** `bridgeGetValue`: no descriptor is an error; otherwise the getter's
      converted value goes to slot `rIndex`, unless the host trapped. */
  function GetValueReply(xdata: Option<PropertyDescriptor>, target: GSValue, rIndex: nat, view: XdataView,
                         fields: map<ObjId, map<string, HostValue>>, env: HostEnv): (r: Reply)
    ensures xdata.None? ==> r == Error(NoBridgeDataMessage)
    ensures xdata.Some? ==> !r.Error? && !r.NoValue? && !r.ErrorAt?
    ensures r.ValueAt? ==>
              xdata.Some? && r.rindex == rIndex
              && GetValue(xdata.value, target, view, fields, env.built, env.newInstance) == Done(GSValue(r.value, target.vm))
    ensures xdata.Some? && GetValue(xdata.value, target, view, fields, env.built, env.newInstance).Crashed? ==> r == Crash
    ensures xdata.Some? && GetValue(xdata.value, target, view, fields, env.built, env.newInstance).Done? ==>
              r == ValueAtIndex(GetValue(xdata.value, target, view, fields, env.built, env.newInstance).value.value, rIndex)
  {
    if xdata.None? then Error(NoBridgeDataMessage)
    else match GetValue(xdata.value, target, view, fields, env.built, env.newInstance)
      case Crashed => Crash
      case Done(g) => ValueAtIndex(g.value, rIndex)
  }

  /** Through the bridge, a successful set of an instance-valued property is
      read back by the next get as the same host object, handed to the VM
      through `init(object:)`. */
  lemma BridgeSetThenGet(p: PropertyDescriptor, target: GSValue, newValue: GSValue, rIndex: nat,
                         view: XdataView, fields: map<ObjId, map<string, HostValue>>, env: HostEnv)
    requires !p.IsReadonly() && p.setter.value.keyPath == p.keyPath
    requires target.IsInstance() && target.value.instance in view.instances
    requires newValue.IsInstance() && newValue.value.instance in view.instances
    ensures SetValueReply(Some(p), target, newValue, view) == NoValue
    ensures var after := FieldsAfterSet(Some(p), target, newValue, view, fields);
            var read := FromObject(HostObject(view.instances[newValue.value.instance]), target.vm, env.built, env.newInstance);
            read.Done? && GetValueReply(Some(p), target, rIndex, view, after, env) == ValueAtIndex(read.value.value, rIndex)
  {
    SetThenGet(p, target, newValue, view, fields);
  }

  // ---------------------------------------------------------------------
  // bridgeGetUndefValue

  /** `bridgeGetUndefValue`: `key!` traps on a nil key; the delegate's value
      goes to slot `vindex`, no value replies no value, and a thrown error
      is reported for slot `vindex` (null written there). Both indexed
      replies trap when `vindex` exceeds `Int32.max`. */
  function GetUndefReply(target: Value, key: Option<string>, vindex: nat, vm: Ptr, env: HostEnv): (r: Reply)
    ensures key.None? ==> r == Crash
    ensures key.Some? ==>
              var found := env.undefLookup(ArgumentOf(target, vm, env.instanceFor), key.value);
              (found.NotFound? <==> r.NoValue?)
              && (found.Found? ==> r == ValueAtIndex(found.value.value, vindex))
              && (found.Threw? && vindex <= Int32Max ==> r == ErrorAt(found.description, vindex))
              && (found.Threw? && vindex > Int32Max ==> r == Crash)
  {
    if key.None? then Crash
    else match env.undefLookup(ArgumentOf(target, vm, env.instanceFor), key.value)
      case Found(v) => ValueAtIndex(v.value, vindex)
      case NotFound => NoValue
      case Threw(description) => if vindex > Int32Max then Crash else ErrorAt(description, vindex)
  }

  /** A thrown lookup fails the callback, records the description as the
      fiber error and nulls slot `vindex`. */
  lemma UndefThrowReported(target: Value, key: string, vindex: nat, vm: Ptr, env: HostEnv,
                           slots: map<int, Value>, fiberError: Option<string>)
    requires env.undefLookup(ArgumentOf(target, vm, env.instanceFor), key).Threw?
    requires vindex <= Int32Max
    ensures var r := GetUndefReply(target, Some(key), vindex, vm, env);
            var e := env.undefLookup(ArgumentOf(target, vm, env.instanceFor), key).description;
            StatusOf(r) == Returned(false) && ErrorAfter(fiberError, r) == Some(e)
            && SlotsAfter(slots, r) == slots[vindex := NullValue]
  {
    ErrorRepliesFail(slots, fiberError, GetUndefReply(target, Some(key), vindex, vm, env));
  }

  // ---------------------------------------------------------------------
  // bridgeFree

  /** The object `bridgeFree` releases: the xdata word of the value the
      freed object converts to, if it carries one. */
  function FreeRelease(objptr: Value, vm: Ptr, view: XdataView, instanceFor: Value -> Option<InstanceId>): (r: Option<ObjId>)
    ensures r.Some? ==> instanceFor(objptr).Some? && instanceFor(objptr).value in view.instances
                        && r.value == view.instances[instanceFor(objptr).value]
    ensures instanceFor(objptr).Some? && instanceFor(objptr).value in view.instances ==> r.Some?
  {
    XData(ArgumentOf(objptr, vm, instanceFor), view)
  }

  /** The retain counts after one `bridgeFree`. */
  function RetainsAfterFree(retains: map<ObjId, int>, release: Option<ObjId>): map<ObjId, int>
  {
    if release.Some? then Bump(retains, release.value, -1) else retains
  }

  /** The object a successful construction attaches is the one a later free
      of that instance releases, and that release balances the retain the
      construction took. Since the free leaves the xdata word in place, a
      second free of the same instance releases it once more. */
  lemma {:induction false} InitThenFreeBalances(xdata: Option<MethodDescriptor>, args: seq<Value>, vm: Ptr,
                                                view: XdataView, env: HostEnv, instance: InstanceId, objptr: Value,
                                                retains: map<ObjId, int>)
    requires InitInstanceDecision(xdata, args, vm, view, env).Built?
    requires env.instanceFor(objptr) == Some(instance)
    ensures var o := InitInstanceDecision(xdata, args, vm, view, env).obj;
            var after := XdataView(view.instances[instance := o], view.classes);
            FreeRelease(objptr, vm, after, env.instanceFor) == Some(o)
            && SameCounts(RetainsAfterFree(Bump(retains, o, 1), FreeRelease(objptr, vm, after, env.instanceFor)), retains)
            && Count(RetainsAfterFree(RetainsAfterFree(Bump(retains, o, 1), Some(o)), Some(o)), o) == Count(retains, o) - 1
  {
    var o := InitInstanceDecision(xdata, args, vm, view, env).obj;
    var after := XdataView(view.instances[instance := o], view.classes);
    assert FreeRelease(objptr, vm, after, env.instanceFor) == Some(o);
    var once := RetainsAfterFree(Bump(retains, o, 1), Some(o));
    assert forall p: ObjId :: Count(once, p) == Count(retains, p);
  }

  // ---------------------------------------------------------------------
  // The callbacks on VM state

  /** Machine `m` took reply `r` and changed nothing else but possibly its
      instance xdata. */
  twostate predicate Replied(m: Machine, r: Reply)
    reads m
  {
    m.slots == SlotsAfter(old(m.slots), r) && m.fiberError == ErrorAfter(old(m.fiberError), r)
    && m.globals == old(m.globals) && m.gcEnabled == old(m.gcEnabled)
    && m.classXdata == old(m.classXdata) && m.classes == old(m.classes) && m.closures == old(m.closures)
  }

  /** Every object of `objs` but `o` is unchanged. */
  twostate predicate OthersUnchanged(objs: set<object>, o: object)
    reads objs
  {
    forall x :: x in objs && x != o ==> unchanged(x)
  }

  /** `bridgeInitInstance` on the VM registered under `vmPtr`. */
  method BridgeInitInstance(registry: VMRegistry, vmPtr: Ptr, xdata: Option<MethodDescriptor>, instance: InstanceId,
                            args: seq<Value>, env: HostEnv, host: Host) returns (st: Status)
    modifies registry.Machines(), host`retains
    ensures registry.GetVM(vmPtr).None? ==>
              st == Aborted && unchanged(registry.Machines()) && host.retains == old(host.retains)
    ensures registry.GetVM(vmPtr).Some? ==>
              var m := registry.GetVM(vmPtr).value.machine;
              var c := InitInstanceDecision(xdata, args, vmPtr, old(ViewOf(m)), env);
              st == StatusOf(InitReply(c)) && Replied(m, InitReply(c))
              && m.instanceXdata == (if c.Built? then old(m.instanceXdata)[instance := c.obj] else old(m.instanceXdata))
              && host.retains == (if c.Built? then Bump(old(host.retains), c.obj, 1) else old(host.retains))
              && OthersUnchanged(registry.Machines(), m)
  {
    var found := registry.GetVM(vmPtr);
    if found.None? {
      st := Aborted;
      return;
    }
    FoundIsRegistered(registry, vmPtr);
    var m := found.value.machine;
    var c := InitInstanceDecision(xdata, args, vmPtr, ViewOf(m), env);
    if c.Built? {
      host.Retain(c.obj);
      m.InstanceSetXdata(instance, c.obj);
    }
    st := m.Deliver(InitReply(c));
  }

  /** `bridgeExecute` on the VM registered under `vmPtr`. */
  method BridgeExecute(registry: VMRegistry, vmPtr: Ptr, data: Option<MethodDescriptor>, args: seq<Value>,
                       rIndex: nat, env: HostEnv) returns (st: Status)
    modifies registry.Machines()
    ensures registry.GetVM(vmPtr).None? ==> st == Aborted && unchanged(registry.Machines())
    ensures registry.GetVM(vmPtr).Some? ==>
              var m := registry.GetVM(vmPtr).value.machine;
              var r := ExecuteReply(data, args, rIndex, vmPtr, old(ViewOf(m)), env);
              st == StatusOf(r) && Replied(m, r) && m.instanceXdata == old(m.instanceXdata)
              && OthersUnchanged(registry.Machines(), m)
  {
    var found := registry.GetVM(vmPtr);
    if found.None? {
      st := Aborted;
      return;
    }
    FoundIsRegistered(registry, vmPtr);
    var m := found.value.machine;
    st := m.Deliver(ExecuteReply(data, args, rIndex, vmPtr, ViewOf(m), env));
  }

  /** `bridgeSetValue` on the VM registered under `vmPtr`: target and value
      are wrapped as they are (`init(value:in:)`). */
  method BridgeSetValue(registry: VMRegistry, vmPtr: Ptr, xdata: Option<PropertyDescriptor>, target: Value,
                        value: Value, host: Host) returns (st: Status)
    modifies registry.Machines(), host`fields
    ensures registry.GetVM(vmPtr).None? ==>
              st == Aborted && unchanged(registry.Machines()) && host.fields == old(host.fields)
    ensures registry.GetVM(vmPtr).Some? ==>
              var m := registry.GetVM(vmPtr).value.machine;
              var t := GSValue(target, vmPtr);
              var v := GSValue(value, vmPtr);
              var r := SetValueReply(xdata, t, v, old(ViewOf(m)));
              st == StatusOf(r) && Replied(m, r) && m.instanceXdata == old(m.instanceXdata)
              && host.fields == FieldsAfterSet(xdata, t, v, old(ViewOf(m)), old(host.fields))
              && OthersUnchanged(registry.Machines(), m)
  {
    var found := registry.GetVM(vmPtr);
    if found.None? {
      st := Aborted;
      return;
    }
    FoundIsRegistered(registry, vmPtr);
    var m := found.value.machine;
    var t := GSValue(target, vmPtr);
    var v := GSValue(value, vmPtr);
    var view := ViewOf(m);
    if xdata.Some? && !xdata.value.IsReadonly() {
      var crashed := SetValue(xdata.value, v, t, view, host);
    }
    st := m.Deliver(SetValueReply(xdata, t, v, view));
  }

  /** `bridgeGetValue` on the VM registered under `vmPtr`. */
  method BridgeGetValue(registry: VMRegistry, vmPtr: Ptr, xdata: Option<PropertyDescriptor>, target: Value,
                        rIndex: nat, env: HostEnv, host: Host) returns (st: Status)
    modifies registry.Machines()
    ensures registry.GetVM(vmPtr).None? ==> st == Aborted && unchanged(registry.Machines())
    ensures registry.GetVM(vmPtr).Some? ==>
              var m := registry.GetVM(vmPtr).value.machine;
              var r := GetValueReply(xdata, GSValue(target, vmPtr), rIndex, old(ViewOf(m)), host.fields, env);
              st == StatusOf(r) && Replied(m, r) && m.instanceXdata == old(m.instanceXdata)
              && OthersUnchanged(registry.Machines(), m)
  {
    var found := registry.GetVM(vmPtr);
    if found.None? {
      st := Aborted;
      return;
    }
    FoundIsRegistered(registry, vmPtr);
    var m := found.value.machine;
    st := m.Deliver(GetValueReply(xdata, GSValue(target, vmPtr), rIndex, ViewOf(m), host.fields, env));
  }

  /** `bridgeGetUndefValue` on the VM registered under `vmPtr`. */
  method BridgeGetUndefValue(registry: VMRegistry, vmPtr: Ptr, target: Value, key: Option<string>,
                             vindex: nat, env: HostEnv) returns (st: Status)
    modifies registry.Machines()
    ensures registry.GetVM(vmPtr).None? ==> st == Aborted && unchanged(registry.Machines())
    ensures registry.GetVM(vmPtr).Some? ==>
              var m := registry.GetVM(vmPtr).value.machine;
              var r := GetUndefReply(target, key, vindex, vmPtr, env);
              st == StatusOf(r) && Replied(m, r) && m.instanceXdata == old(m.instanceXdata)
              && OthersUnchanged(registry.Machines(), m)
  {
    var found := registry.GetVM(vmPtr);
    if found.None? {
      st := Aborted;
      return;
    }
    FoundIsRegistered(registry, vmPtr);
    var m := found.value.machine;
    st := m.Deliver(GetUndefReply(target, key, vindex, vmPtr, env));
  }

  /** `bridgeFree` on the VM registered under `vmPtr`: releases the freed
      value's xdata object once when there is one, leaves the xdata word in
      place, and always tells the delegate. */
  method BridgeFree(registry: VMRegistry, vmPtr: Ptr, objptr: Value, env: HostEnv, host: Host)
      returns (aborted: bool)
    modifies registry.Wrappers(), host`retains
    ensures registry.GetVM(vmPtr).None? ==>
              aborted && unchanged(registry.Wrappers()) && host.retains == old(host.retains)
    ensures registry.GetVM(vmPtr).Some? ==>
              var w := registry.GetVM(vmPtr).value;
              var value := ArgumentOf(objptr, vmPtr, env.instanceFor);
              !aborted
              && host.retains == RetainsAfterFree(old(host.retains), FreeRelease(objptr, vmPtr, ViewOf(w.machine), env.instanceFor))
              && w.delegateLog == old(w.delegateLog) + [DidRequestFree(value)]
              && w.bridgeClassDescriptors == old(w.bridgeClassDescriptors)
              && OthersUnchanged(registry.Wrappers(), w)
  {
    var found := registry.GetVM(vmPtr);
    if found.None? {
      aborted := true;
      return;
    }
    FoundIsRegistered(registry, vmPtr);
    var w := found.value;
    var value := ArgumentOf(objptr, vmPtr, env.instanceFor);
    var release := XData(value, ViewOf(w.machine));
    if release.Some? {
      host.Release(release.value);
    }
    w.delegateLog := w.delegateLog + [DidRequestFree(value)];
    aborted := false;
  }
}
