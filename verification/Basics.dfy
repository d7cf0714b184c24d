/** What every module shares. */
module Basics {

  datatype Option<+T> = None | Some(value: T)

  /** Names a pair of positions; quantifiers over pairs of positions are
      instantiated by mentioning it. */
  predicate Differ(i: int, j: int) {
    i != j
  }

  /** Instants and durations are nanoseconds; Go's zero time is 0001-01-01. */
  type Time = int

  const SECOND: Time := 1_000_000_000
  const ZERO_TIME: Time := -62_135_596_800 * SECOND

  /** Well after Go's zero time. */
  predicate Modern(t: Time) {
    ZERO_TIME + SECOND < t
  }

  /** What a running clock shows. */
  type Instant = t: Time | Modern(t) witness 0
}
