/** Machine integers, bytes, instants and outcome types shared by every module. */
module Prelude {

  type Byte = x: int | 0 <= x < 256

  type Bytes = seq<Byte>

  const TWO_64: int := 0x1_0000_0000_0000_0000
  const MIN_I64: int := -0x8000_0000_0000_0000
  const MAX_I64: int := 0x7FFF_FFFF_FFFF_FFFF

  type U64 = x: int | 0 <= x < TWO_64

  /** The next value of a 64-bit counter, which wraps around. */
  function Succ(x: U64): U64 {
    if x + 1 == TWO_64 then 0 else x + 1
  }

  datatype Option<+T> = None | Some(value: T) {
    predicate IsFailure() {
      None?
    }

    function PropagateFailure<U>(): Option<U>
      requires None?
    {
      None
    }

    function Extract(): T
      requires Some?
    {
      value
    }
  }

  datatype Result<+T, +E> = Ok(value: T) | Err(error: E)

  // ---- Instants -----------------------------------------------------------------------------

  /** An instant, in nanoseconds since 1970-01-01 UTC. The range is not bounded. */
  type Time = int

  /** A duration in nanoseconds. */
  type Duration = d: int | MIN_I64 <= d <= MAX_I64

  const SECOND: int := 1_000_000_000
  const MINUTE: int := 60 * SECOND

  /** The zero instant, January 1 of year 1. It lies below every int64 nanosecond count. */
  const ZERO_TIME: Time := -62_135_596_800 * SECOND

  predicate IsZero(t: Time) {
    t == ZERO_TIME
  }

  /** The difference a - b, saturating at the bounds of a Duration. */
  function Sub(a: Time, b: Time): Duration {
    var d := a - b;
    if d < MIN_I64 then MIN_I64 else if d > MAX_I64 then MAX_I64 else d
  }

  // ---- Sequences ----------------------------------------------------------------------------

  lemma ConcatAssociates<T>(a: seq<T>, b: seq<T>, c: seq<T>)
    ensures (a + b) + c == a + (b + c)
  {
  }

  lemma PrefixGrows<T>(s: seq<T>, i: nat)
    requires i < |s|
    ensures s[..i + 1] == s[..i] + [s[i]]
  {
  }

  function Without<T>(s: seq<T>, i: nat): seq<T>
    requires i < |s|
  {
    s[..i] + s[i + 1..]
  }

  lemma DropConcat<T>(a: seq<T>, b: seq<T>)
    ensures (a + b)[|a|..] == b && (a + b)[..|a|] == a
  {
  }
}
