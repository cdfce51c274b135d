/** `MethodDescriptor`: the immutable record of one exported method,
    constructor or static method, its factories, and what calling its
    wrapper closure does with a receiver and positional arguments. */
module MethodDescriptors {
  import opened Common
  import opened HostHeap
  import opened GSValues

  /** The reserved name every constructor descriptor carries. */
  const ConstructorName: string := "$init"

  /** Identity of a host function a wrapper closes over. */
  type HostFn = nat

  /** Host code: what the host function `fn` returns for a receiver and the
      resolved argument objects. The bridge never looks inside it. */
  type HostApply = (HostFn, Option<ObjId>, seq<ObjId>) -> HostValue

  /** The `callWrapper` closure: whether it unwraps a receiver, how many
      arguments it reads positionally (`args[0]` to `args[arity - 1]`), and
      which host function it calls. */
  datatype CallWrapper = CallWrapper(needsReceiver: bool, arity: nat, fn: HostFn)

  /** All fields are `let`: a descriptor never changes after construction.
      `id` is the object's identity, which the retain counts are kept by. */
  datatype MethodDescriptor = MethodDescriptor(
    id: ObjId,
    name: string,
    argsCount: nat,
    isStatic: bool,
    wrapper: CallWrapper)
  {
    /** `isConstrucor`. */
    predicate IsConstructor()
    {
      name == ConstructorName && isStatic
    }

    /** The declared arity is what the wrapper reads. */
    predicate ArityMatches()
    {
      wrapper.arity == argsCount
    }
  }

  /** The instance `method` factories, for 0 to 4 arguments. */
  function Method(id: ObjId, fn: HostFn, arity: nat, named: string): (d: MethodDescriptor)
    requires arity <= 4
    ensures !d.isStatic && !d.IsConstructor()
    ensures d.name == named && d.argsCount == arity && d.ArityMatches()
    ensures d.wrapper.needsReceiver && d.wrapper.fn == fn && d.id == id
  {
    MethodDescriptor(id, named, arity, false, CallWrapper(true, arity, fn))
  }

  /** The `constructor` factories, for 0 or 1 argument. */
  function Constructor(id: ObjId, fn: HostFn, arity: nat): (d: MethodDescriptor)
    requires arity <= 1
    ensures d.IsConstructor() && d.name == ConstructorName && d.isStatic
    ensures d.argsCount == arity && d.ArityMatches()
    ensures !d.wrapper.needsReceiver && d.wrapper.fn == fn && d.id == id
  {
    MethodDescriptor(id, ConstructorName, arity, true, CallWrapper(false, arity, fn))
  }

  /** The no-argument `staticMethod` factory as written: it declares one
      argument although its wrapper reads none. */
  function StaticMethodNoArgsAsWritten(id: ObjId, fn: HostFn, named: string): (d: MethodDescriptor)
    ensures d.isStatic && d.name == named && d.id == id
    ensures d.argsCount == 1 && d.wrapper.arity == 0 && !d.ArityMatches()
    ensures !d.wrapper.needsReceiver && d.wrapper.fn == fn
  {
    MethodDescriptor(id, named, 1, true, CallWrapper(false, 0, fn))
  }

  /** The no-argument `staticMethod` factory as evidently intended: it
      declares no argument. */
  function StaticMethodNoArgs(id: ObjId, fn: HostFn, named: string): (d: MethodDescriptor)
    ensures d.isStatic && d.name == named && d.id == id
    ensures d.argsCount == 0 && d.ArityMatches()
    ensures !d.wrapper.needsReceiver && d.wrapper.fn == fn
  {
    MethodDescriptor(id, named, 0, true, CallWrapper(false, 0, fn))
  }

  /** The one-argument `staticMethod` factory. */
  function StaticMethod1(id: ObjId, fn: HostFn, named: string): (d: MethodDescriptor)
    ensures d.isStatic && d.name == named && d.id == id
    ensures d.argsCount == 1 && d.ArityMatches()
    ensures !d.wrapper.needsReceiver && d.wrapper.fn == fn
  {
    MethodDescriptor(id, named, 1, true, CallWrapper(false, 1, fn))
  }

  /** A static method that happens to be named `$init` is taken for a
      constructor, whatever factory built it. */
  lemma StaticInitIsConstructor(id: ObjId, fn: HostFn)
    ensures StaticMethod1(id, fn, ConstructorName).IsConstructor()
    ensures StaticMethodNoArgsAsWritten(id, fn, ConstructorName).IsConstructor()
    ensures !Method(id, fn, 0, ConstructorName).IsConstructor()
  {
  }

  /** `args[k].toObjectOf(A.self)!` for every argument, in order: each must
      be an instance with an attached object, or the wrapper traps. */
  function ResolveArgs(args: seq<GSValue>, view: XdataView): (r: Outcome<seq<ObjId>>)
    ensures r.Done? <==> forall k :: 0 <= k < |args| ==> ToObjectOf(args[k], view).Done? && ToObjectOf(args[k], view).value.Some?
    ensures r.Done? ==> |r.value| == |args|
    ensures r.Done? ==> forall k :: 0 <= k < |args| ==> ToObjectOf(args[k], view) == Done(Some(r.value[k]))
  {
    if args == [] then Done([])
    else
      match ToObjectOf(args[0], view)
      case Done(Some(o)) =>
        (match ResolveArgs(args[1..], view)
         case Done(os) => Done([o] + os)
         case Crashed => Crashed)
      case _ => Crashed
  }

  /** `target!.toObjectOf(T.self)!` when the wrapper takes a receiver. */
  function Receiver(d: MethodDescriptor, target: Option<GSValue>, view: XdataView): Outcome<Option<ObjId>>
  {
    if !d.wrapper.needsReceiver then Done(None)
    else if target.None? then Crashed
    else match ToObjectOf(target.value, view)
      case Done(Some(o)) => Done(Some(o))
      case _ => Crashed
  }

  /** `call(in:with:)`: runs the wrapper on `target` and `args` unchanged.
      The wrapper reads its arguments by position and never checks their
      number, so fewer than `wrapper.arity` of them traps; extra ones are
      never read. */
  function Call(d: MethodDescriptor, target: Option<GSValue>, args: seq<GSValue>,
                view: XdataView, apply: HostApply): (r: Outcome<HostValue>)
    ensures |args| < d.wrapper.arity ==> r.Crashed?
    ensures Receiver(d, target, view).Crashed? ==> r.Crashed?
    ensures r.Done? ==> Receiver(d, target, view).Done? && |args| >= d.wrapper.arity
                        && ResolveArgs(args[..d.wrapper.arity], view).Done?
    ensures r.Done? ==> r.value == apply(d.wrapper.fn, Receiver(d, target, view).value,
                                         ResolveArgs(args[..d.wrapper.arity], view).value)
  {
    match Receiver(d, target, view)
    case Crashed => Crashed
    case Done(recv) =>
      if |args| < d.wrapper.arity then Crashed
      else
        match ResolveArgs(args[..d.wrapper.arity], view)
        case Crashed => Crashed
        case Done(objs) => Done(apply(d.wrapper.fn, recv, objs))
  }

  /** `callStatic(with:)`: the same wrapper with a nil target. */
  function CallStatic(d: MethodDescriptor, args: seq<GSValue>, view: XdataView, apply: HostApply): (r: Outcome<HostValue>)
    ensures d.wrapper.needsReceiver ==> r.Crashed?
    ensures !d.wrapper.needsReceiver ==> r == Call(d, None, args, view, apply)
  {
    Call(d, None, args, view, apply)
  }

  /** Arguments past the wrapper's arity are never read. */
  lemma ExtraArgumentsIgnored(d: MethodDescriptor, target: Option<GSValue>, args: seq<GSValue>,
                              view: XdataView, apply: HostApply)
    requires |args| >= d.wrapper.arity
    ensures Call(d, target, args, view, apply) == Call(d, target, args[..d.wrapper.arity], view, apply)
  {
    assert args[..d.wrapper.arity][..d.wrapper.arity] == args[..d.wrapper.arity];
  }

  /** A call succeeds exactly when the receiver resolves (if one is taken) and
      each of the first `wrapper.arity` arguments is an instance carrying an
      object: plain strings, numbers and bools cannot be passed. */
  lemma CallSucceedsIff(d: MethodDescriptor, target: Option<GSValue>, args: seq<GSValue>,
                        view: XdataView, apply: HostApply)
    ensures Call(d, target, args, view, apply).Done? <==>
              Receiver(d, target, view).Done? && |args| >= d.wrapper.arity
              && forall k :: 0 <= k < d.wrapper.arity ==>
                   args[k].IsInstance() && args[k].value.instance in view.instances
  {
    if Receiver(d, target, view).Done? && |args| >= d.wrapper.arity {
      var prefix := args[..d.wrapper.arity];
      assert forall k :: 0 <= k < d.wrapper.arity ==> prefix[k] == args[k];
    }
  }
}
