/**
 * Elapsed time as a whole number of seconds. Only the part of Duration the
 * results store relies on is modelled: the `totalSeconds` count, construction
 * from a count, and `plus` as the sum of the two counts.
 */
module Durations {
  /** A duration; `Duration(0)` is the zero duration the store folds from. */
  datatype Duration = Duration(totalSeconds: int)

  /** `a.plus(b)`: a new duration; neither operand changes. */
  function Plus(a: Duration, b: Duration): Duration
  {
    Duration(a.totalSeconds + b.totalSeconds)
  }
}
