/**
 * Units of time as .NET represents them: a DateTime is a count of 100-nanosecond
 * ticks and a TimeSpan a difference of ticks. Timer intervals are 32-bit counts
 * of milliseconds computed with C#'s unchecked `int` arithmetic.
 */
module Time {
  const TicksPerSecond: int := 10_000_000
  const MillisecondsPerSecond: int := 1000

  const Int32Min: int := -0x8000_0000
  const Int32Max: int := 0x7FFF_FFFF
  const Int32Modulus: int := 0x1_0000_0000

  /** The value a C# `int` holds after an unchecked computation whose exact result is `x`. */
  function Int32(x: int): (r: int)
    ensures Int32Min <= r <= Int32Max
    ensures (x - r) % Int32Modulus == 0
    ensures Int32Min <= x <= Int32Max ==> r == x
  {
    (x - Int32Min) % Int32Modulus + Int32Min
  }

  /** `seconds * 1000` as the forms compute a timer interval from a setting. */
  function IntervalMs(seconds: int): int
  {
    Int32(seconds * MillisecondsPerSecond)
  }

  /**
   * A setting of 1 to 2147483 seconds gives exactly that many milliseconds; a
   * non-positive setting gives an interval the timer refuses (below 1).
   */
  lemma IntervalMsOfSetting(seconds: int)
    ensures 1 <= seconds <= Int32Max / MillisecondsPerSecond ==> IntervalMs(seconds) == seconds * 1000 >= 1000
    ensures -(Int32Max / MillisecondsPerSecond) <= seconds <= 0 ==> IntervalMs(seconds) < 1
  {
  }

  /** TimeSpan.TotalSeconds of a span of `ticks`, as an exact rational. */
  function TotalSeconds(ticks: int): (r: real)
    ensures r * TicksPerSecond as real == ticks as real
    ensures 0 <= ticks ==> 0.0 <= r
  {
    ticks as real / TicksPerSecond as real
  }
}
