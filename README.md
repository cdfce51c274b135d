# Gravity Swift bridge — a Dafny model

This project models the Swift binding of the Gravity scripting language: the
layer that lets host (Swift) types be exported into a Gravity virtual machine
and lets the VM call back into host code. The VM core itself is a black box
reached through C calls. Here it is abstract state (`VMCore.Machine`):

- globals;
- the current fiber's result slots and error;
- the collector switch;
- the xdata word of every instance and class;
- classes with their method tables;
- closures.

The host side (`HostHeap.Host`) holds three things:

- the outstanding `Unmanaged` retains per host object, as deltas;
- the stored properties that key-path setters write;
- an allocation counter.

Modules follow the source files:

| module | models |
|---|---|
| `Common` | options, trap outcomes, identities, Swift's decimal rendering of an `Int` |
| `Values` | the VM's tagged value and the `gravity_value_isa_*` helpers |
| `HostHeap` | host values as `Any` sees them, retain counts, stored properties |
| `VMCore` | the VM state and the result channel (`gravity_return_*`) |
| `GSValues` | `GSValue`: typed initializers, `init(object:)`, the read-back conversions, `==`, the `is*` predicates |
| `MethodDescriptors` | `MethodDescriptor`, its factories, `call` / `callStatic` |
| `PropertyDescriptors` | `PropertyDescriptor`, its factories, getter and setter |
| `ClassDescriptors` | `GravityBridgeClassDescriptor` and its `deinit` |
| `ExportEncoders` | `GravityExportEncoder.makeContainer` and the container's two `bind`s |
| `VirtualMachines` | `GravityVirtualMachine`: `bindClass`, `getOrRegisterClass`, the static VM list |
| `Trampolines` | the VM-facing callbacks `bridgeInitInstance`, `bridgeExecute`, `bridgeSetValue`, `bridgeGetValue`, `bridgeGetUndefValue`, `bridgeFree` |
| `ExportMacro` | the `@GSExportable` extension macro |

A Swift runtime trap is an explicit outcome:

- `Outcome.Crashed` and `Reply.Crash` inside the model;
- `Status.Aborted` for a callback.

It covers `!` on nil, an invalid `Range`, `removeFirst` on an empty array,
`fatalError`, and `Int32(rIndex)` above `Int32.max`.

Each callback is split in two:

- a pure decision function over its inputs and the VM's xdata words, which
  carries the proved properties;
- a `Bridge*` method that looks up the VM wrapper by pointer and applies that
  decision to the registered VM's state and to the host.

Host code the bridge cannot see is a parameter. This covers the functions a
descriptor wraps (`HostApply`), the instance `GSInstance` builds for a value
(`instanceFor`, `built`/`newInstance`) and the delegate's undefined-key lookup.

The model follows the code, including where it departs from what its
comments and messages promise:

- A name registered twice is caught only by a debug-build `assert` in
  `bindClass`, and `makeContainer` does not check at all. The model makes it
  a precondition of `BindClass`.
- `bridgeFree` does not clear the xdata word it releases, so a second free of
  the same instance releases again. `InitThenFreeBalances` states this.
- Several script-reachable inputs trap the host instead of reporting a script
  error:
  - a method called with fewer arguments than its wrapper reads;
  - `bridgeExecute` with no argument slots;
  - `bridgeInitInstance` with no slots;
  - a result index above `Int32.max`.
- The class descriptor's `deinit` does not release what binding retained
  (see Findings).

## Model

| member | source | states |
|---|---|---|
| Common.DecimalRoundTrip | binding/GravitySwift/Bridging/GravityPropertyExportEncoder.swift:53 | the decimal arity suffix reads back to the arity, so the rendering loses nothing |
| Common.DecimalInjective | binding/GravitySwift/Bridging/GravityPropertyExportEncoder.swift:53 | distinct arities render to distinct suffixes |
| Values.TagHelpersPartition | src/shared/GravitySwiftCBridging.h:80-158 | exactly one single-class `isa` helper holds of each value; the null class splits into null and undefined, never both |
| VMCore.ErrorRepliesFail | src/shared/GravitySwiftCBridging.h:254-263 | both error returns record the message as the fiber error and return false; only the indexed one writes a slot, and it writes null at `rindex` |
| VMCore.SuccessLeavesError | src/shared/GravitySwiftCBridging.h:246-252 | the success returns return true and leave the fiber error alone; no-value writes no slot |
| VMCore.Machine.ReturnNoValue | src/shared/GravitySwiftCBridging.h:246-248 | returns true |
| VMCore.Machine.ReturnValue | src/shared/GravitySwiftCBridging.h:250-252 | writes the value into slot `rindex` and returns true |
| VMCore.Machine.ReturnErrorForRindex | src/shared/GravitySwiftCBridging.h:254-258 | sets the fiber error, writes null into slot `rindex`, returns false |
| VMCore.Machine.ReturnError | src/shared/GravitySwiftCBridging.h:260-263 | sets the fiber error, writes no slot, returns false |
| VMCore.Machine.Deliver | src/shared/GravitySwiftCBridging.h:246-263 | a callback's reply goes through the matching return function; slots, error and status are those of the reply |
| VMCore.Machine.SetGCEnabled | binding/GravitySwift/GravityVirtualMachine.swift:104-106 | the collector flag takes the given value |
| VMCore.Machine.SetValue | binding/GravitySwift/GravityVirtualMachine.swift:144-149 | the global `key` is set, no other global changes |
| HostHeap.Host.Retain | binding/GravitySwift/Bridging/GravityExportEncoder.swift:35 | `passRetained` adds one outstanding retain to that object only |
| HostHeap.Host.Release | binding/GravitySwift/GravityVirtualMachine.swift:251 | `release` removes one outstanding retain from that object only |
| HostHeap.Host.Store | binding/GravitySwift/Bridging/Descriptors/PropertyDescriptor.swift:34 | a key-path store changes exactly that object's key path |
| GSValues.FromObject | binding/GravitySwift/GSValue.swift:66-89 | String, Int, Double and Bool give their own tag; a metatype traps; anything else is an instance when one is built, else undefined; the value belongs to the given VM |
| GSValues.ToList | binding/GravitySwift/GSValue.swift:134-141 | the result is empty for every value |
| GSValues.ToRange | binding/GravitySwift/GSValue.swift:151-154 | gives `from...to` whatever the inclusive flag, and traps exactly when `from > to` |
| GSValues.ToObjectOf | binding/GravitySwift/GSValue.swift:157-165 | nil for every non-instance; an instance yields its xdata object, and traps when it has none |
| GSValues.ToString | binding/GravitySwift/GSValue.swift:117-124 | a string value reads as its own payload, with no VM call; any other value reads as the VM's textual conversion of it |
| GSValues.ToBoolean | binding/GravitySwift/GSValue.swift:143-149 | a bool value reads as its own payload, with no VM call; any other value reads as the VM's truth conversion of it |
| GSValues.Equals | binding/GravitySwift/GSValue.swift:204-207 | values of different VMs are unequal without asking the VM; within one VM the VM's equality decides |
| GSValues.PrimitiveRoundTrips | binding/GravitySwift/GSValue.swift:117-149 | a string or bool built by `init(object:)` reads back through `toString` / `toBoolean` unchanged |
| GSValues.RangeRoundTrip | binding/GravitySwift/GSValue.swift:38-48 | a closed range is inclusive and a half-open one is not; `toRange` gives back both bounds of either |
| GSValues.NumericPredicatesAsWritten | binding/GravitySwift/GSValue.swift:229-235 | as written, `isInteger` is false and `isDouble` true for every integer, and the reverse for every double |
| GSValues.NumericPredicatesCorrected | binding/GravitySwift/GSValue.swift:229-235 | corrected, `isInteger` holds exactly for values from a host Int and `isDouble` exactly for those from a host Double |
| MethodDescriptors.Method | binding/GravitySwift/Bridging/Descriptors/MethodDescription.swift:32-99 | instance methods are not static, not constructors, and declare the arity their wrapper reads (0 to 4) |
| MethodDescriptors.Constructor | binding/GravitySwift/Bridging/Descriptors/MethodDescription.swift:103-124 | constructors are named `$init`, static, so `isConstrucor` holds, with arity 0 or 1 matching the wrapper |
| MethodDescriptors.StaticMethodNoArgsAsWritten | binding/GravitySwift/Bridging/Descriptors/MethodDescription.swift:128-137 | the no-argument static method declares one argument while its wrapper reads none |
| MethodDescriptors.StaticMethodNoArgs | binding/GravitySwift/Bridging/Descriptors/MethodDescription.swift:128-137 | corrected, it declares zero arguments, matching its wrapper |
| MethodDescriptors.StaticMethod1 | binding/GravitySwift/Bridging/Descriptors/MethodDescription.swift:139-148 | the one-argument static method is static and declares and reads one argument |
| MethodDescriptors.StaticInitIsConstructor | binding/GravitySwift/Bridging/Descriptors/MethodDescription.swift:17-21 | `isConstrucor` is name `$init` and static: a static method named `$init` counts, an instance method so named does not |
| MethodDescriptors.ResolveArgs | binding/GravitySwift/Bridging/Descriptors/MethodDescription.swift:43-99 | the positional `toObjectOf(...)!` unwraps succeed exactly when every argument is an instance with an object, giving those objects in order |
| MethodDescriptors.Call | binding/GravitySwift/Bridging/Descriptors/MethodDescription.swift:150-152 | fewer arguments than the wrapper reads traps, as does an unresolvable receiver; on success the host function gets the receiver and the first `arity` objects |
| MethodDescriptors.CallStatic | binding/GravitySwift/Bridging/Descriptors/MethodDescription.swift:154-156 | the same wrapper with a nil target; a receiver-taking wrapper traps |
| MethodDescriptors.ExtraArgumentsIgnored | binding/GravitySwift/Bridging/Descriptors/MethodDescription.swift:43-99 | arguments past the wrapper's arity never affect a call |
| MethodDescriptors.CallSucceedsIff | binding/GravitySwift/Bridging/Descriptors/MethodDescription.swift:43-124 | a call succeeds iff the receiver resolves, enough arguments are passed, and each one read is an instance carrying an object |
| PropertyDescriptors.WritableProperty | binding/GravitySwift/Bridging/Descriptors/PropertyDescriptor.swift:25-37 | a writable key path gives a descriptor that is not read-only and whose setter stores into that key path |
| PropertyDescriptors.ReadonlyProperty | binding/GravitySwift/Bridging/Descriptors/PropertyDescriptor.swift:39-48 | a plain key path gives a read-only descriptor |
| PropertyDescriptors.GetValue | binding/GravitySwift/Bridging/Descriptors/PropertyDescriptor.swift:28-31 | a non-instance target reads nil; an instance reads its object's key path through `init(object:)`; traps exactly for an instance with no object or a metatype value |
| PropertyDescriptors.StoreInto | binding/GravitySwift/Bridging/Descriptors/PropertyDescriptor.swift:34 | the stored key path reads the new value and every other one is unchanged |
| PropertyDescriptors.SetterEffect | binding/GravitySwift/Bridging/Descriptors/PropertyDescriptor.swift:32-35 | a non-instance target changes nothing; an instance target stores the new value's object, which must resolve or the setter traps |
| PropertyDescriptors.SetThenGet | binding/GravitySwift/Bridging/Descriptors/PropertyDescriptor.swift:28-35 | what the setter stores the getter reads back as the same host object |
| PropertyDescriptors.SetValue | binding/GravitySwift/Bridging/Descriptors/PropertyDescriptor.swift:52-56 | on a writable descriptor the setter runs once: the host properties change by exactly its store, or not at all, and a trap is reported |
| ClassDescriptors.RetainAllCounts | binding/GravitySwift/Bridging/GravityPropertyExportEncoder.swift:25 | binding a list of descriptors adds, per object, its number of occurrences to its retain count |
| ClassDescriptors.ReleaseAllCounts | binding/GravitySwift/Bridging/Descriptors/GravityBridgeClassDescriptor.swift:36-46 | one release per listed descriptor lowers each count by its number of occurrences |
| ClassDescriptors.RetainReleaseEachNeutral | binding/GravitySwift/Bridging/Descriptors/GravityBridgeClassDescriptor.swift:37-45 | `passRetained(d).release()` leaves every retain count as it was |
| ClassDescriptors.DeinitAsWrittenLeaks | binding/GravitySwift/Bridging/Descriptors/GravityBridgeClassDescriptor.swift:36-46 | after bind and the `deinit` as written, each bound descriptor still holds the bind-time retain |
| ClassDescriptors.DeinitBalancesBind | binding/GravitySwift/Bridging/Descriptors/GravityBridgeClassDescriptor.swift:36-46 | with one release per descriptor, bind then `deinit` restores every count |
| ClassDescriptors.RetainReleaseEachOf | binding/GravitySwift/Bridging/Descriptors/GravityBridgeClassDescriptor.swift:38-40 | the loop performs one retain-then-release per listed object, in order |
| ClassDescriptors.ReleaseEachOf | binding/GravitySwift/Bridging/Descriptors/GravityBridgeClassDescriptor.swift:36-46 | the corrected loop performs one release per listed object, in order |
| ClassDescriptors.ClassDescriptor.constructor | binding/GravitySwift/Bridging/Descriptors/GravityBridgeClassDescriptor.swift:21-26 | name, class and type are fixed at init and both lists start empty |
| ClassDescriptors.ClassDescriptor.AddMethod | binding/GravitySwift/Bridging/Descriptors/GravityBridgeClassDescriptor.swift:28-30 | appends one method descriptor at the end; the property list is not touched |
| ClassDescriptors.ClassDescriptor.AddProperty | binding/GravitySwift/Bridging/Descriptors/GravityBridgeClassDescriptor.swift:32-34 | appends one property descriptor at the end; the method list is not touched |
| ClassDescriptors.ClassDescriptor.DeinitAsWritten | binding/GravitySwift/Bridging/Descriptors/GravityBridgeClassDescriptor.swift:36-46 | visits every method descriptor and then every property descriptor once, retaining and releasing each |
| ClassDescriptors.ClassDescriptor.Deinit | binding/GravitySwift/Bridging/Descriptors/GravityBridgeClassDescriptor.swift:36-46 | corrected, releases every held descriptor once, methods first |
| ExportEncoders.ConstructorKeyArity | binding/GravitySwift/Bridging/GravityPropertyExportEncoder.swift:52-58 | a constructor's method-table key `$init` + arity gives the arity back |
| ExportEncoders.ConstructorBindNamesDistinct | binding/GravitySwift/Bridging/GravityPropertyExportEncoder.swift:52-58 | two constructors share a key iff they have the same arity |
| ExportEncoders.FactoryBindNames | binding/GravitySwift/Bridging/GravityPropertyExportEncoder.swift:52-64 | the constructors bind as `$init` and `$init1`; other methods bind under their own name |
| ExportEncoders.Container.BindProperty | binding/GravitySwift/Bridging/GravityPropertyExportEncoder.swift:24-44 | retains the descriptor once, adds a bridged closure and a special closure whose setter is empty iff read-only, binds it under the property name, appends the descriptor |
| ExportEncoders.Container.BindMethod | binding/GravitySwift/Bridging/GravityPropertyExportEncoder.swift:46-67 | retains the descriptor once, adds one bridged closure, binds it under `$init`+arity or the method name, appends the descriptor |
| ExportEncoders.ExportEncoder.MakeContainer | binding/GravitySwift/Bridging/GravityExportEncoder.swift:21-41 | one new parentless class with no variables, a fresh descriptor with the given names, retained once and set as the class's xdata, appended with no duplicate check |
| ExportEncoders.BindingsPartition | binding/GravitySwift/Bridging/GravityPropertyExportEncoder.swift:43-66 | every bind lands in exactly one of the two descriptor lists |
| ExportEncoders.ExportContainer | binding/GravitySwift/Bridging/GravityExportEncoder.swift:21-41 | one `makeContainer` and its binds: a descriptor numbered after the existing classes and host objects whose lists are the bound methods and properties in order; one new class whose method table is the binds' closures; the binds' closures appended; the class xdata set to the descriptor; the descriptor and every bound descriptor retained once |
| ExportEncoders.RunExport | binding/GravitySwift/GravityVirtualMachine.swift:128-132 | an export leaves one exported descriptor per container, in order and numbered consecutively, and throws when the type's export throws; the VM's classes, closures and class xdata and the host's retain counts are those of every container made, also when it throws |
| ExportEncoders.Container.Bind | binding/GravitySwift/Bridging/GravityPropertyExportEncoder.swift:24-67 | one bind: retains its descriptor once, appends its closures, publishes the last of them under its key in the container's class, and appends the descriptor to the matching list |
| ExportEncoders.BindAll | binding/GravitySwift/Bridging/GravityPropertyExportEncoder.swift:24-67 | a container's binds in order leave its lists, its class's method table, the closures and the retains the bindings determine |
| ExportEncoders.ExportAll | binding/GravitySwift/Bridging/GravityExportEncoder.swift:21-41 | the containers of an export in order leave one fresh exported descriptor each and the classes, closures, xdata and retains of every container |
| ExportEncoders.ScriptStateStep | binding/GravitySwift/Bridging/GravityExportEncoder.swift:21-41 | the state after `n` containers followed by one more container is the state after `n + 1` |
| ExportEncoders.BoundIdsHeld | binding/GravitySwift/Bridging/GravityPropertyExportEncoder.swift:24-67 | the objects the binds retain are, as a multiset, exactly the descriptors the class descriptor holds |
| ExportEncoders.ExportThenDeinitCounts | binding/GravitySwift/Bridging/Descriptors/GravityBridgeClassDescriptor.swift:36-46 | after a container's export, the `deinit` as written leaves each bound descriptor one retain above its count before the export, while the corrected `deinit` leaves only the class descriptor's own retain |
| VirtualMachines.OverlayFinds | binding/GravitySwift/GravityVirtualMachine.swift:134-139 | after the loop, each unshadowed descriptor is found under its name |
| VirtualMachines.OverlayKeeps | binding/GravitySwift/GravityVirtualMachine.swift:134-139 | names no descriptor carries keep their entries |
| VirtualMachines.OverlayKeys | binding/GravitySwift/GravityVirtualMachine.swift:134-139 | the names afterwards are the old ones plus the descriptors' |
| VirtualMachines.GravityVM.constructor | binding/GravitySwift/GravityVirtualMachine.swift:37-58 | a new VM registers itself in the process-wide list |
| VirtualMachines.GravityVM.Teardown | binding/GravitySwift/GravityVirtualMachine.swift:60-63 | `deinit` removes every VM with this pointer from the list |
| VirtualMachines.GravityVM.GetClassDescriptor | binding/GravitySwift/GravityVirtualMachine.swift:168-170 | a descriptor is found iff one is stored under the name |
| VirtualMachines.GravityVM.BindClass | binding/GravitySwift/GravityVirtualMachine.swift:125-142 | collector off; the export's classes, closures, xdata and retains stay whether or not it throws; a thrown export leaves the collector off and the registry and globals untouched; otherwise every descriptor is stored and published as a global under its name and the collector is back on |
| VirtualMachines.GravityVM.RegisterAll | binding/GravitySwift/GravityVirtualMachine.swift:134-139 | the loop stores each descriptor in the registry and its class as the global of its name |
| VirtualMachines.GravityVM.GetOrRegisterClass | binding/GravitySwift/GravityVirtualMachine.swift:190-208 | an existing class-tagged global is returned unchanged; otherwise a new parentless class with no variables is created |
| VirtualMachines.FirstWithPtr | binding/GravitySwift/GravityVirtualMachine.swift:176-178 | nil iff no VM has the pointer; otherwise the first VM that has it |
| VirtualMachines.RemoveAllWithPtr | binding/GravitySwift/GravityVirtualMachine.swift:184-186 | keeps exactly the VMs with other pointers |
| VirtualMachines.UnregisterForgets | binding/GravitySwift/GravityVirtualMachine.swift:174-186 | after `unregister` no VM with that pointer is found |
| VirtualMachines.UnregisterKeepsOthers | binding/GravitySwift/GravityVirtualMachine.swift:174-186 | `unregister` leaves every other pointer's lookup unchanged |
| VirtualMachines.RegisterFinds | binding/GravitySwift/GravityVirtualMachine.swift:174-186 | after `register` the new VM is found under its pointer unless an earlier one shadows it; other lookups are unchanged |
| VirtualMachines.FoundIsRegistered | binding/GravitySwift/GravityVirtualMachine.swift:176-178 | what `getVM` finds is a registered VM with that pointer |
| VirtualMachines.VMRegistry.Register | binding/GravitySwift/GravityVirtualMachine.swift:180-182 | appends one entry |
| VirtualMachines.VMRegistry.Unregister | binding/GravitySwift/GravityVirtualMachine.swift:184-186 | removes every entry with the VM's pointer, after which lookup of that pointer finds nothing |
| Trampolines.ArgumentOf | binding/GravitySwift/GravityVirtualMachine.swift:342-345 | a raw argument slot becomes an instance exactly when one is built for it, else undefined |
| Trampolines.Arguments | binding/GravitySwift/GravityVirtualMachine.swift:307-310 | the slots are converted one by one, in order |
| Trampolines.ValueAtIndex | binding/GravitySwift/GravityVirtualMachine.swift:364 | the value goes to slot `rIndex` when it fits an `Int32`, and the conversion traps otherwise |
| Trampolines.InitReply | binding/GravitySwift/GravityVirtualMachine.swift:315-325 | a trap aborts, a refusal is an error with its message, a built object replies no value |
| Trampolines.InitInstanceDecision | binding/GravitySwift/GravityVirtualMachine.swift:296-326 | no slots or no descriptor traps; too many arguments is the arity error; the static call's trap traps; only a reference result is attached; any other result is refused |
| Trampolines.InitInstanceDecisionAsWritten | binding/GravitySwift/GravityVirtualMachine.swift:318-320 | differs from the corrected decision only by attaching a boxed value-type result |
| Trampolines.InitAttachesValueTypeAsWritten | binding/GravitySwift/GravityVirtualMachine.swift:318-320 | a struct-returning constructor is attached boxed as written, refused as intended |
| Trampolines.InitStructConstructorExample | binding/GravitySwift/GravityVirtualMachine.swift:318-320 | one concrete constructor call shows the discrepancy |
| Trampolines.InitWithMissingArgumentTraps | binding/GravitySwift/GravityVirtualMachine.swift:307-318 | a constructor passed fewer arguments than it reads traps: only the upper bound is checked |
| Trampolines.ExecuteReply | binding/GravitySwift/GravityVirtualMachine.swift:328-366 | no descriptor is an error; no slots traps; the arity error comes before the missing-object error; a `Void` result replies no value; any other result goes to slot `rIndex` |
| Trampolines.ExecuteSucceedsIff | binding/GravitySwift/GravityVirtualMachine.swift:338-365 | `bridgeExecute` succeeds iff the guards pass, every argument read is an instance with an object, and the result is `Void` or a non-metatype with an `Int32` index |
| Trampolines.ExecuteWithMissingArgumentTraps | binding/GravitySwift/GravityVirtualMachine.swift:351-359 | a method passed fewer arguments than it reads traps |
| Trampolines.NoArgStaticMethodAcceptsExtraArgument | binding/GravitySwift/GravityVirtualMachine.swift:351-359 | as written, the no-argument static method accepts one extra argument and ignores it; corrected, that call is the arity error |
| Trampolines.SetValueReply | binding/GravitySwift/GravityVirtualMachine.swift:377-392 | no descriptor and read-only are errors, the setter not called; otherwise the setter runs and the reply is no value unless it trapped |
| Trampolines.FieldsAfterSet | binding/GravitySwift/GravityVirtualMachine.swift:386-390 | the host properties change only when the setter ran |
| Trampolines.GetValueReply | binding/GravitySwift/GravityVirtualMachine.swift:419-428 | no descriptor is an error; otherwise the getter's converted value goes to slot `rIndex`, or the host traps |
| Trampolines.BridgeSetThenGet | binding/GravitySwift/GravityVirtualMachine.swift:368-429 | a successful set through the bridge is read back by the next get as the same host object |
| Trampolines.GetUndefReply | binding/GravitySwift/GravityVirtualMachine.swift:431-448 | a nil key traps; a found value goes to slot `vindex`, none replies no value, a thrown error is reported for `vindex` |
| Trampolines.UndefThrowReported | binding/GravitySwift/GravityVirtualMachine.swift:445-447 | a thrown lookup fails the callback, records its description and nulls slot `vindex` |
| Trampolines.FreeRelease | binding/GravitySwift/GravityVirtualMachine.swift:249-252 | exactly an instance carrying an object has that object released |
| Trampolines.InitThenFreeBalances | binding/GravitySwift/GravityVirtualMachine.swift:250-252 | a free balances the construction's retain; the word is not cleared, so a second free over-releases |
| Trampolines.BridgeInitInstance | binding/GravitySwift/GravityVirtualMachine.swift:296-326 | no VM aborts with nothing changed; otherwise the decision's reply is delivered and a built object is retained once and set as the instance's xdata |
| Trampolines.BridgeExecute | binding/GravitySwift/GravityVirtualMachine.swift:328-366 | no VM aborts; otherwise the reply is delivered and nothing else changes |
| Trampolines.BridgeSetValue | binding/GravitySwift/GravityVirtualMachine.swift:368-393 | no VM aborts; otherwise the reply is delivered and the host properties change by the setter's store only |
| Trampolines.BridgeGetValue | binding/GravitySwift/GravityVirtualMachine.swift:410-429 | no VM aborts; otherwise the getter's reply is delivered and nothing else changes |
| Trampolines.BridgeGetUndefValue | binding/GravitySwift/GravityVirtualMachine.swift:431-448 | no VM aborts; otherwise the delegate lookup's reply is delivered |
| Trampolines.BridgeFree | binding/GravitySwift/GravityVirtualMachine.swift:247-255 | no VM aborts; otherwise the xdata object, if any, is released once, the word stays, and the delegate is told |
| ExportMacro.ExpansionSpec | binding/GravitySwiftMacros/GSExportableMacro.swift:26-33 | throws exactly for a declaration that is not a class or struct; otherwise the extension text over the classified lines |
| ExportMacro.ExportedName | binding/GravitySwiftMacros/GSExportableMacro.swift:38-44 | the container name is the first segment of a string-literal first argument when that segment is plain text, and the type's name in every other case |
| ExportMacro.BindVariable | binding/GravitySwiftMacros/GSExportableMacro.swift:58-67 | one static or instance property line per identifier pattern, in order |
| ExportMacro.BindMember | binding/GravitySwiftMacros/GSExportableMacro.swift:53-83 | one loop pass appends the member's lines to the five lists |
| ExportMacro.Expand | binding/GravitySwiftMacros/GSExportableMacro.swift:19-100 | the loop computes the specified expansion |
| ExportMacro.ClassifyAppend | binding/GravitySwiftMacros/GSExportableMacro.swift:52-86 | classification is group-wise concatenation, so within a group lines keep source order |
| ExportMacro.PrivateMembersIgnored | binding/GravitySwiftMacros/GSExportableMacro.swift:53-75 | dropping private members changes no line |
| ExportMacro.PatternBindsRenderIdentifiers | binding/GravitySwiftMacros/GSExportableMacro.swift:58-66 | a variable declaration's lines are one per identifier binding |
| ExportMacro.MemberBindsRenderPlan | binding/GravitySwiftMacros/GSExportableMacro.swift:53-83 | one member's lines are its export plan rendered |
| ExportMacro.ClassifyRendersPlan | binding/GravitySwiftMacros/GSExportableMacro.swift:52-86 | the lines are the plan rendered: one constructor line per exposed initializer, a method line per exposed function, a property line per identifier binding, each in its group |
| ExportMacro.ConstructorLinesCount | binding/GravitySwiftMacros/GSExportableMacro.swift:68-71 | one constructor line per non-private initializer, whatever its parameters |

## Left out

- VM execution and compilation (`executeMain`, `execute`, `loadClosure`, `reset`, `getTime`, the compiler) are calls into the VM core, which is not part of this model.
- `bridgeClone` ends in `fatalError`. `bridgeString`, `bridgeSize`, `bridgeEquals` and `bridgeSetUndefValue` only forward to the delegate. The log and error callbacks only print. All of these are left out.
- The delegate is uninterpreted. `bridgeFree`'s notification is recorded as an event, and `didGetUndefValueFrom` is a parameter.
- `GSInstance`, `vm.setInstance` and `GSValue.xData` are not part of this model. Whether an instance is built for a value, and which, is a parameter. The xdata of a value is read from the instance or class xdata word.
- `GravityVM.BindClass`: the global is stored through the generic `init(object:)`, whose result for a class pointer depends on `GSInstance`. The model stores the class value, which is what `getOrRegisterClass` expects to find.
- `GravityVM.BindClass`: the debug-build `assert` against registering a name twice is modelled as a precondition. In a release build a duplicate would overwrite the earlier entry.
- `GSValues.ToObjectOf`: the model follows the intended reading, in which an instance's xdata word is the host object it was made from (`takeUnretainedValue`). Memory layout is not modelled. As written, `toObjectOf` (binding/GravitySwift/GSValue.swift:157-165) reads the word with `load(as: T.self)`. That loads a `T` from the object's memory, not the object that `passRetained(object).toOpaque()` (binding/GravitySwift/GravityVirtualMachine.swift:322) stored. The as-written reading is not stated.
- `PropertyDescriptors.SetThenGet`: "the same host object" holds only of the intended reading of `toObjectOf` above.
- `Trampolines.BridgeSetThenGet`: "the same host object" holds only of the intended reading of `toObjectOf` above.
- `PropertyDescriptors.GetValue`: "its object's key path" holds only of the intended reading of `toObjectOf` above.
- `MethodDescriptors.Call`: "the host function gets the receiver" holds only of the intended reading of `toObjectOf` above.
- `GSValues.PrimitiveRoundTrips`: the string half holds of the intended C string conversion. As written, `init(string:)` (binding/GravitySwift/GSValue.swift:25-36) passes `UInt32(string.count)`, a count of characters, as the length of a UTF-8 buffer that carries no NUL terminator, and `toString` reads the result back with `String(cString:)` (binding/GravitySwift/GSValue.swift:117-124). The two agree only for ASCII text that the VM copies with a terminator. Byte encoding is not modelled.
- `GSValues.RangeRoundTrip`: the bounds of a half-open range are those `gravity_range_new` is given. The VM may store a non-inclusive range as `from...to-1`, and the VM's range code is not part of this model, so the `toRange` of a half-open range is stated for the bounds as passed.
- `Trampolines.BridgeInitInstance`: applies the corrected decision `InitInstanceDecision`, which refuses a value that is not a class instance. The as-written boxing of such a value is `InitInstanceDecisionAsWritten` (see Findings), and the bridge entry point does not carry it.
- `GSValues.ToString`, `GSValues.ToBoolean`: the VM's `convert_value2string` and `convert_value2bool` are uninterpreted parameters, so what the conversion path returns is only named, not computed.
- `toDouble`, `toInteger`, `hasMethod`, `hasProperty` and `dynamicallyCall` are left out. They are raw union reads, VM table lookups and `fatalError`.
- Float payloads are opaque tokens, with no float arithmetic.
- The list and map initializers take the new object's identity as a parameter. Their length hint is not modelled.
- String payloads are sequences of characters. The C string conversion and its length (`UInt32(string.count)`) are not modelled.
- `argsCount` arrives as an `Int16` and is not modelled as such. Argument slots are a sequence whose length is the count, so a negative or wrapped count cannot occur. A nil `args` pointer is not modelled either.
- The constant `CLASS_INTERNAL_INIT_NAME` comes from the VM's headers, which are not part of this model. It is taken to be `$init`.
- The metaclass of a class pair is not modelled. The special getter/setter function is recorded only by its two closures, and `GRAVITY_BRIDGE_INDEX` is not recorded.
- `ExportMacro.ExpansionSpec`: the generated text is produced but not parsed back as Swift syntax, so a parse failure that would make the macro throw is not modelled. The parsed syntax is reduced to the parts the macro inspects.
- Collector timing and concurrency annotations are left out. Only the collector flag is kept, and a single thread is assumed.
- Host objects are not freed. Retain counts are deltas of outstanding `Unmanaged` retains, and ordinary ARC references are not counted.
- The older `Bridging/GravityBridgeClassDescriptor.swift` is a stale duplicate of the descriptor class and is not modelled.

## Findings

| source | as written | input that shows it | evidently intended | confidence | as-written member | corrected member |
|---|---|---|---|---|---|---|
| binding/GravitySwift/GSValue.swift:229-235 | `isInteger` tests the float class and `isDouble` the int class | any integer value, e.g. `GSValue(integer: 1)`: `isInteger` is false, `isDouble` true | `isInteger` tests int, `isDouble` tests float | high, not executed | GSValues.NumericPredicatesAsWritten | GSValues.NumericPredicatesCorrected |
| binding/GravitySwift/Bridging/Descriptors/GravityBridgeClassDescriptor.swift:36-46 | `deinit` does `passRetained(d).release()` per descriptor, which nets zero | any bound descriptor: bind takes +1, `deinit` leaves it at +1 | one `release` per descriptor, balancing the bind | high, not executed | ClassDescriptors.DeinitAsWrittenLeaks | ClassDescriptors.DeinitBalancesBind |
| binding/GravitySwift/Bridging/Descriptors/MethodDescription.swift:128-137 | the no-argument `staticMethod` declares `argsCount: 1` | a call of it with one extra argument passes the arity check and is ignored | `argsCount: 0` | high, not executed | Trampolines.NoArgStaticMethodAcceptsExtraArgument | MethodDescriptors.StaticMethodNoArgs |
| binding/GravitySwift/GravityVirtualMachine.swift:318-320 | `callStatic(with:) as? AnyObject` succeeds for every non-nil `Any`, boxing structs | a constructor of a struct type: the struct is boxed and attached instead of refused | only class instances attached; others get "Return value of init supports only reference types." | medium, not executed | Trampolines.InitInstanceDecisionAsWritten | Trampolines.InitInstanceDecision |
