/** Millisecond spans and their conversion to whole seconds, as the Joda-Time
    calls in the item's timer use them. */
module Millis {

  const MillisPerSecond: int := 1000

  /** Whole seconds in a signed span of `ms` milliseconds. The fraction is
      dropped toward zero, as Java's `long` division does, so a negative span
      gives a non-positive count of seconds. */
  function StandardSeconds(ms: int): (r: int)
    ensures ms >= 0 ==> 0 <= r * MillisPerSecond <= ms < (r + 1) * MillisPerSecond
    ensures ms <= 0 ==> (r - 1) * MillisPerSecond < ms <= r * MillisPerSecond <= 0
  {
    if ms >= 0 then ms / MillisPerSecond else -((-ms) / MillisPerSecond)
  }

  /** Truncation toward zero is symmetric: reversing a span negates its seconds. */
  lemma StandardSecondsNegate(ms: int)
    ensures StandardSeconds(-ms) == -StandardSeconds(ms)
  {
  }

  /** A longer span never holds fewer whole seconds. */
  lemma StandardSecondsMonotone(a: int, b: int)
    requires a <= b
    ensures StandardSeconds(a) <= StandardSeconds(b)
  {
  }
}
