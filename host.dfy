/** The host (Swift) side of the process: the values host code hands to the
    bridge, the outstanding manual retains on host objects, and the stored
    properties that key-path setters write. */
module HostHeap {
  import opened Common

  /** A host value as the generic `init(object:)` sees it (Swift `Any`). */
  datatype HostValue =
    | HostString(s: string)
    | HostInt(i: int)
    | HostDouble(d: FloatToken)
    | HostBool(b: bool)
    | HostMetatype(typeName: string)   // a value that casts to `AnyClass`
    | HostObject(obj: ObjId)           // an instance of a class (reference type)
    | HostStruct(tag: nat)             // any other value type
    | HostVoid
    | HostNil

  /** Outstanding `Unmanaged` retains of `o` (absent means none). */
  function Count(retains: map<ObjId, int>, o: ObjId): int
  {
    if o in retains then retains[o] else 0
  }

  function Bump(retains: map<ObjId, int>, o: ObjId, delta: int): (r: map<ObjId, int>)
    ensures forall p: ObjId :: Count(r, p) == Count(retains, p) + (if p == o then delta else 0)
  {
    retains[o := Count(retains, o) + delta]
  }

  /** Two retain tables that agree on every object. */
  ghost predicate SameCounts(a: map<ObjId, int>, b: map<ObjId, int>)
  {
    forall o: ObjId :: Count(a, o) == Count(b, o)
  }

  /** The stored property `keyPath` of host object `o`; `HostNil` when never set. */
  function Field(fields: map<ObjId, map<string, HostValue>>, o: ObjId, keyPath: string): HostValue
  {
    if o in fields && keyPath in fields[o] then fields[o][keyPath] else HostNil
  }

  class Host {
    var retains: map<ObjId, int>
    var fields: map<ObjId, map<string, HostValue>>
    var nextId: ObjId

    constructor ()
      ensures retains == map[] && fields == map[] && nextId == 0
    {
      retains, fields, nextId := map[], map[], 0;
    }

    /** `Unmanaged.passRetained(o)`: one more outstanding retain. */
    method Retain(o: ObjId)
      modifies this`retains
      ensures retains == Bump(old(retains), o, 1)
    {
      retains := Bump(retains, o, 1);
    }

    /** `Unmanaged.release()`: one retain fewer. A count below zero is an over-release. */
    method Release(o: ObjId)
      modifies this`retains
      ensures retains == Bump(old(retains), o, -1)
    {
      retains := Bump(retains, o, -1);
    }

    /** A newly allocated host object. */
    method Allocate() returns (o: ObjId)
      modifies this`nextId
      ensures o == old(nextId) && nextId == o + 1
    {
      o := nextId;
      nextId := nextId + 1;
    }

    /** A key-path store into host object `o`. */
    method Store(o: ObjId, keyPath: string, v: HostValue)
      modifies this`fields
      ensures fields == old(fields)[o := (if o in old(fields) then old(fields)[o] else map[])[keyPath := v]]
      ensures Field(fields, o, keyPath) == v
      ensures forall p: ObjId, k: string :: (p, k) != (o, keyPath) ==> Field(fields, p, k) == Field(old(fields), p, k)
    {
      var row := if o in fields then fields[o] else map[];
      fields := fields[o := row[keyPath := v]];
    }
  }
}
