/** Times, and sequences of them. */
module Clock {

  /** Nanoseconds on a clock that never runs backwards. */
  type Time = int

  predicate Clocked(times: seq<Time>) {
    forall i, j :: 0 <= i < j < |times| ==> times[i] <= times[j]
  }
}
