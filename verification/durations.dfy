/** Go's `time.Duration` as the calculation core uses it: a signed count of nanoseconds,
    read out in hours or minutes, and produced from text by `time.ParseDuration`. */
module Durations {
  import opened Wrappers

  type Duration = int

  const Second: Duration := 1_000_000_000
  const Minute: Duration := 60 * Second
  const Hour: Duration := 60 * Minute

  /** `time.ParseDuration`, left uninterpreted: the model holds for every parser of this
      shape. `None` stands for its error. */
  type DurationParser = string -> Option<Duration>

  /** `Duration.Hours()` over the reals. */
  function Hours(d: Duration): (h: real)
    ensures h * Hour as real == d as real
    ensures h > 0.0 <==> d > 0
  {
    d as real / Hour as real
  }

  /** `Duration.Minutes()` over the reals. */
  function Minutes(d: Duration): (m: real)
    ensures m * Minute as real == d as real
    ensures m > 0.0 <==> d > 0
  {
    d as real / Minute as real
  }

  /** The same span read in minutes is sixty times its reading in hours. */
  lemma MinutesAreSixtyHours(d: Duration)
    ensures Minutes(d) == 60.0 * Hours(d)
  {
  }
}
