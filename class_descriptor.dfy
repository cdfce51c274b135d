/** `GravityBridgeClassDescriptor`: the host-side record of one exported
    class, holding the descriptors bound into it, and the retain accounting
    of its `deinit`. */
module ClassDescriptors {
  import opened Common
  import opened HostHeap
  import opened VMCore
  import opened MethodDescriptors
  import opened PropertyDescriptors

  function MethodIds(ds: seq<MethodDescriptor>): (ids: seq<ObjId>)
    ensures |ids| == |ds| && forall k :: 0 <= k < |ds| ==> ids[k] == ds[k].id
  {
    seq(|ds|, k requires 0 <= k < |ds| => ds[k].id)
  }

  function PropertyIds(ps: seq<PropertyDescriptor>): (ids: seq<ObjId>)
    ensures |ids| == |ps| && forall k :: 0 <= k < |ps| ==> ids[k] == ps[k].id
  {
    seq(|ps|, k requires 0 <= k < |ps| => ps[k].id)
  }

  /** One `passRetained` per object of `ids`, in order. */
  function RetainAll(m: map<ObjId, int>, ids: seq<ObjId>): map<ObjId, int>
  {
    if ids == [] then m else Bump(RetainAll(m, ids[..|ids| - 1]), ids[|ids| - 1], 1)
  }

  /** One `release` per object of `ids`, in order. */
  function ReleaseAll(m: map<ObjId, int>, ids: seq<ObjId>): map<ObjId, int>
  {
    if ids == [] then m else Bump(ReleaseAll(m, ids[..|ids| - 1]), ids[|ids| - 1], -1)
  }

  /** `Unmanaged.passRetained(d).release()` per object of `ids`, in order. */
  function RetainReleaseEach(m: map<ObjId, int>, ids: seq<ObjId>): map<ObjId, int>
  {
    if ids == [] then m
    else Bump(Bump(RetainReleaseEach(m, ids[..|ids| - 1]), ids[|ids| - 1], 1), ids[|ids| - 1], -1)
  }

  lemma {:induction false} RetainAllCounts(m: map<ObjId, int>, ids: seq<ObjId>, o: ObjId)
    ensures Count(RetainAll(m, ids), o) == Count(m, o) + multiset(ids)[o]
  {
    if ids != [] {
      var init := ids[..|ids| - 1];
      assert ids == init + [ids[|ids| - 1]];
      RetainAllCounts(m, init, o);
    }
  }

  lemma {:induction false} ReleaseAllCounts(m: map<ObjId, int>, ids: seq<ObjId>, o: ObjId)
    ensures Count(ReleaseAll(m, ids), o) == Count(m, o) - multiset(ids)[o]
  {
    if ids != [] {
      var init := ids[..|ids| - 1];
      assert ids == init + [ids[|ids| - 1]];
      ReleaseAllCounts(m, init, o);
    }
  }

  /** A retain immediately released changes no count. */
  lemma {:induction false} RetainReleaseEachNeutral(m: map<ObjId, int>, ids: seq<ObjId>, o: ObjId)
    ensures Count(RetainReleaseEach(m, ids), o) == Count(m, o)
  {
    if ids != [] {
      RetainReleaseEachNeutral(m, ids[..|ids| - 1], o);
    }
  }

  /** Binding retains every descriptor once; the `deinit` as written leaves
      each of those retains outstanding, so every bound descriptor leaks. */
  lemma DeinitAsWrittenLeaks(m: map<ObjId, int>, ids: seq<ObjId>, o: ObjId)
    requires o in ids
    ensures Count(RetainReleaseEach(RetainAll(m, ids), ids), o) == Count(m, o) + multiset(ids)[o]
    ensures Count(RetainReleaseEach(RetainAll(m, ids), ids), o) > Count(m, o)
  {
    RetainReleaseEachNeutral(RetainAll(m, ids), ids, o);
    RetainAllCounts(m, ids, o);
  }

  /** A `deinit` that releases each descriptor once restores every count to
      what it was before binding. */
  lemma DeinitBalancesBind(m: map<ObjId, int>, ids: seq<ObjId>)
    ensures SameCounts(ReleaseAll(RetainAll(m, ids), ids), m)
  {
    forall o: ObjId
      ensures Count(ReleaseAll(RetainAll(m, ids), ids), o) == Count(m, o)
    {
      ReleaseAllCounts(RetainAll(m, ids), ids, o);
      RetainAllCounts(m, ids, o);
    }
  }

  lemma {:induction false} RetainReleaseEachAppend(m: map<ObjId, int>, a: seq<ObjId>, b: seq<ObjId>)
    ensures RetainReleaseEach(m, a + b) == RetainReleaseEach(RetainReleaseEach(m, a), b)
  {
    if b == [] {
      assert a + b == a;
    } else {
      assert (a + b)[..|a + b| - 1] == a + b[..|b| - 1];
      RetainReleaseEachAppend(m, a, b[..|b| - 1]);
    }
  }

  lemma {:induction false} ReleaseAllAppend(m: map<ObjId, int>, a: seq<ObjId>, b: seq<ObjId>)
    ensures ReleaseAll(m, a + b) == ReleaseAll(ReleaseAll(m, a), b)
  {
    if b == [] {
      assert a + b == a;
    } else {
      assert (a + b)[..|a + b| - 1] == a + b[..|b| - 1];
      ReleaseAllAppend(m, a, b[..|b| - 1]);
    }
  }

  /** One `passRetained(d).release()` per object of `ids`, in order. */
  method RetainReleaseEachOf(host: Host, ids: seq<ObjId>)
    modifies host`retains
    ensures host.retains == RetainReleaseEach(old(host.retains), ids)
  {
    for i := 0 to |ids|
      invariant host.retains == RetainReleaseEach(old(host.retains), ids[..i])
    {
      assert ids[..i + 1][..i] == ids[..i];
      host.Retain(ids[i]);
      host.Release(ids[i]);
    }
    assert ids[..|ids|] == ids;
  }

  /** One `release` per object of `ids`, in order. */
  method ReleaseEachOf(host: Host, ids: seq<ObjId>)
    modifies host`retains
    ensures host.retains == ReleaseAll(old(host.retains), ids)
  {
    for i := 0 to |ids|
      invariant host.retains == ReleaseAll(old(host.retains), ids[..i])
    {
      assert ids[..i + 1][..i] == ids[..i];
      host.Release(ids[i]);
    }
    assert ids[..|ids|] == ids;
  }

  class ClassDescriptor {
    const vm: Machine
    const registredName: string
    const gClass: ClassId
    const typeName: string
    const id: ObjId
    var methodDescriptors: seq<MethodDescriptor>
    var propertyDescriptors: seq<PropertyDescriptor>

    constructor (vm: Machine, registredName: string, gClass: ClassId, typeName: string, id: ObjId)
      ensures this.vm == vm && this.registredName == registredName && this.gClass == gClass
      ensures this.typeName == typeName && this.id == id
      ensures methodDescriptors == [] && propertyDescriptors == []
    {
      this.vm := vm;
      this.registredName := registredName;
      this.gClass := gClass;
      this.typeName := typeName;
      this.id := id;
      methodDescriptors := [];
      propertyDescriptors := [];
    }

    /** Every descriptor the class holds, methods first. */
    function Held(): seq<ObjId>
      reads this
    {
      MethodIds(methodDescriptors) + PropertyIds(propertyDescriptors)
    }

    method AddMethod(d: MethodDescriptor)
      modifies this`methodDescriptors
      ensures methodDescriptors == old(methodDescriptors) + [d]
    {
      methodDescriptors := methodDescriptors + [d];
    }

    method AddProperty(p: PropertyDescriptor)
      modifies this`propertyDescriptors
      ensures propertyDescriptors == old(propertyDescriptors) + [p]
    {
      propertyDescriptors := propertyDescriptors + [p];
    }

    /** `deinit` as written: one retain and one release per method
        descriptor, then per property descriptor. */
    method DeinitAsWritten(host: Host)
      modifies host`retains
      ensures host.retains == RetainReleaseEach(old(host.retains), Held())
    {
      ghost var before := host.retains;
      var ms := MethodIds(methodDescriptors);
      var ps := PropertyIds(propertyDescriptors);
      RetainReleaseEachOf(host, ms);
      RetainReleaseEachOf(host, ps);
      RetainReleaseEachAppend(before, ms, ps);
    }

    /** `deinit` as evidently intended: one release per method descriptor,
        then per property descriptor. */
    method Deinit(host: Host)
      modifies host`retains
      ensures host.retains == ReleaseAll(old(host.retains), Held())
    {
      ghost var before := host.retains;
      var ms := MethodIds(methodDescriptors);
      var ps := PropertyIds(propertyDescriptors);
      ReleaseEachOf(host, ms);
      ReleaseEachOf(host, ps);
      ReleaseAllAppend(before, ms, ps);
    }
  }
}
