/** Timing for message headers.

A header's timestamp is the wall clock read in nanoseconds since the epoch
(a signed 64-bit count) and divided by one million with Go's integer
division, which truncates toward zero.  The clock reading itself is an input
to every operation that stamps a header.
 */
module Clock {

  /** Go's `int64`. */
  newtype int64 = x: int | -0x8000_0000_0000_0000 <= x < 0x8000_0000_0000_0000

  /** Milliseconds since the epoch for a clock reading in nanoseconds: the
      whole milliseconds that have elapsed, rounded toward zero as Go's
      integer division rounds. */
  function UnixMilli(nanos: int64): (ms: int64)
    ensures 0 <= nanos ==> 0 <= ms as int * 1_000_000 <= nanos as int < ms as int * 1_000_000 + 1_000_000
    ensures nanos < 0 ==> ms as int * 1_000_000 - 1_000_000 < nanos as int <= ms as int * 1_000_000 <= 0
  {
    var n := nanos as int;
    (if n >= 0 then n / 1_000_000 else -((-n) / 1_000_000)) as int64
  }

  /** A clock that does not run backwards gives timestamps that do not run
      backwards. */
  lemma UnixMilliMonotone(earlier: int64, later: int64)
    requires earlier <= later
    ensures UnixMilli(earlier) <= UnixMilli(later)
  {
  }

  /** One nanosecond before the epoch still stamps millisecond zero: the
      division truncates rather than rounding down. */
  lemma UnixMilliTruncatesTowardZero()
    ensures UnixMilli(-1) == 0
    ensures UnixMilli(-1_000_001) == -1
  {
  }
}
