/** Shared vocabulary of the bridge model: optional values, trap outcomes,
    identities of host objects and VM entities, and decimal rendering. */
module Common {

  datatype Option<+T> = None | Some(value: T)

  /** Result of host code that may hit a Swift runtime trap
      (`!` on nil, an index out of range, an invalid `Range`, `fatalError`). */
  datatype Outcome<+T> = Crashed | Done(value: T)

  /** What a VM-facing callback did: the process aborted, or it returned
      the Bool handed back to the VM. */
  datatype Status = Aborted | Returned(ok: bool)

  /** Identity of a host (Swift) object, as `Unmanaged.toOpaque()` exposes it. */
  type ObjId = nat
  /** Opaque `gravity_vm *` handle. */
  type Ptr = nat
  type InstanceId = nat
  type ClassId = nat
  type ClosureId = nat
  /** A float64 payload, kept as an opaque token: no float arithmetic is modelled. */
  type FloatToken = nat

  /** Largest `Int32`; `Int32(rIndex)` traps above it. */
  const Int32Max: int := 0x7fff_ffff

  function Digit(d: nat): char
    requires d < 10
  {
    ('0' as int + d) as char
  }

  function DigitValue(c: char): nat
  {
    if '0' <= c <= '9' then c as int - '0' as int else 0
  }

  /** Swift's `"\(n)"` for a non-negative integer. */
  function Decimal(n: nat): (s: string)
    ensures |s| >= 1
    decreases n
  {
    if n < 10 then [Digit(n)] else Decimal(n / 10) + [Digit(n % 10)]
  }

  function ParseDecimal(s: string): nat
  {
    if s == [] then 0 else ParseDecimal(s[..|s| - 1]) * 10 + DigitValue(s[|s| - 1])
  }

  /** Reading the digits back gives the number: decimal rendering loses nothing. */
  lemma {:induction false} DecimalRoundTrip(n: nat)
    ensures ParseDecimal(Decimal(n)) == n
    decreases n
  {
    if n < 10 {
      assert Decimal(n)[..0] == [];
    } else {
      var s := Decimal(n);
      assert s[..|s| - 1] == Decimal(n / 10);
      DecimalRoundTrip(n / 10);
    }
  }

  /** Distinct numbers render to distinct strings. */
  lemma DecimalInjective(a: nat, b: nat)
    requires Decimal(a) == Decimal(b)
    ensures a == b
  {
    DecimalRoundTrip(a);
    DecimalRoundTrip(b);
  }
}
