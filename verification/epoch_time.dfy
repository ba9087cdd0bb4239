/** Integer arithmetic behind `Time.at(millis / 1000)` and `Date#-`.
    Calendar and time-zone conversion is not modelled: a day number is
    whatever the caller's `dayOf` function says, and `UtcDay` is the
    UTC instance of it. */
module EpochTime {
  import opened Outcomes

  const MillisPerSecond := 1000
  const SecondsPerDay := 86400

  /** `secs` is the whole number of seconds in `millis`, rounded down, which
      is what Ruby's Integer `/` gives for a positive divisor. */
  ghost predicate WholeSecondsOf(millis: int, secs: int) {
    secs * MillisPerSecond <= millis < secs * MillisPerSecond + MillisPerSecond
  }

  /** Ruby's `millis / 1000` on an Integer, lifted over nil (where Ruby
      raises `NoMethodError`, the model gives `None`). */
  function EpochSeconds(millis: Option<int>): (secs: Option<int>)
    ensures secs.Some? <==> millis.Some?
    ensures secs.Some? ==> WholeSecondsOf(millis.value, secs.value)
  {
    match millis
    case None => None
    case Some(m) => Some(m / MillisPerSecond)
  }

  /** The rounding is unique: only one second count fits a millisecond value. */
  lemma WholeSecondsUnique(millis: int, a: int, b: int)
    requires WholeSecondsOf(millis, a) && WholeSecondsOf(millis, b)
    ensures a == b
  {
  }

  /** The UTC day number of an epoch second (day 0 is 1970-01-01). */
  function UtcDay(secs: int): (day: int)
    ensures day * SecondsPerDay <= secs < day * SecondsPerDay + SecondsPerDay
  {
    secs / SecondsPerDay
  }
}
