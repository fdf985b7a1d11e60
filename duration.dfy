/** The millisecond difference helper (src/getMillisecondsDiff.ts).
    Instants are integers counting milliseconds; the `moment` wrapping and
    `Date` objects of the source are not modelled. */
module Duration {

  /** `Math.abs(moment(d1).diff(moment(d2), 'milliseconds'))`: the distance
      between two instants, whichever comes first. */
  function MillisecondsDiff(d1: int, d2: int): (r: nat)
    ensures r == d1 - d2 || r == d2 - d1
    ensures r >= d1 - d2 && r >= d2 - d1
  {
    if d1 >= d2 then d1 - d2 else d2 - d1
  }

  /** The argument order does not matter. */
  lemma DiffSymmetric(d1: int, d2: int)
    ensures MillisecondsDiff(d1, d2) == MillisecondsDiff(d2, d1)
  {
  }

  /** The difference is zero exactly for equal instants. */
  lemma DiffZeroIff(d1: int, d2: int)
    ensures MillisecondsDiff(d1, d2) == 0 <==> d1 == d2
  {
  }

  /** When the second instant is `k` ms after the first, the result is `k`. */
  lemma DiffOfLater(d1: int, k: nat)
    ensures MillisecondsDiff(d1, d1 + k) == k
    ensures MillisecondsDiff(d1 + k, d1) == k
  {
  }

  /** The difference obeys the triangle inequality, so the duration of a
      span never exceeds the sum of the durations of two spans covering it. */
  lemma DiffTriangle(d1: int, d2: int, d3: int)
    ensures MillisecondsDiff(d1, d3) <= MillisecondsDiff(d1, d2) + MillisecondsDiff(d2, d3)
  {
  }
}
