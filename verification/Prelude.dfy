/** Failure-compatible datatypes and the machine integers shared by the other modules. */
module Prelude {

  datatype Option<+T> = None | Some(value: T)

  datatype Result<+T, +E> = Success(value: T) | Failure(error: E) {
    predicate IsFailure() {
      Failure?
    }

    function PropagateFailure<U>(): Result<U, E>
      requires Failure?
    {
      Failure(error)
    }

    function Extract(): T
      requires Success?
    {
      value
    }
  }

  const TWO_TO_THE_8: int := 0x100
  const TWO_TO_THE_16: int := 0x1_0000
  const TWO_TO_THE_31: int := 0x8000_0000
  const TWO_TO_THE_32: int := 0x1_0000_0000
  const TWO_TO_THE_63: int := 0x8000_0000_0000_0000
  const TWO_TO_THE_64: int := 0x1_0000_0000_0000_0000

  type Byte = x: int | 0 <= x < TWO_TO_THE_8
  type UInt16 = x: int | 0 <= x < TWO_TO_THE_16
  type Int32 = x: int | -TWO_TO_THE_31 <= x < TWO_TO_THE_31
  type UInt64 = x: int | 0 <= x < TWO_TO_THE_64

  predicate FitsInt32(x: int) {
    -TWO_TO_THE_31 <= x < TWO_TO_THE_31
  }

  /** Conversion to a 32-bit signed integer: the representative modulo 2^32. */
  function Narrow32(n: int): (r: Int32)
    ensures (n - r) % TWO_TO_THE_32 == 0
    ensures FitsInt32(n) ==> r == n
  {
    var m := n % TWO_TO_THE_32;
    if m < TWO_TO_THE_31 then m else m - TWO_TO_THE_32
  }

  /** Unsigned 64-bit subtraction, which wraps when the subtrahend is larger. */
  function Sub64(a: UInt64, b: UInt64): (r: UInt64)
    ensures b <= a ==> r == a - b
    ensures a < b ==> r == a - b + TWO_TO_THE_64
  {
    (a - b) % TWO_TO_THE_64
  }

  // ---------- Clock readings ----------

  function LastOf(prev: UInt64, times: seq<UInt64>): UInt64 {
    if |times| == 0 then prev else times[|times| - 1]
  }

  /** The readings never decrease. */
  predicate NonDecreasing(times: seq<UInt64>) {
    forall i, j :: 0 <= i <= j < |times| ==> times[i] <= times[j]
  }

  /** They are positive too. */
  predicate PositiveClock(times: seq<UInt64>) {
    NonDecreasing(times) && (|times| > 0 ==> 0 < times[0])
  }
}
