/** FeedCachePolicy.swift: when a cached feed is still fresh. */
module FeedCachePolicy {
  import opened Wrappers
  import opened FeedFeature

  /** `maxCacheDays`. */
  const MaxCacheDays: int := 7

  const SecondsPerDay: int := 86400

  /** How old a cache may be, in seconds, when every day is 86400 seconds long. */
  const MaxCacheAge: int := MaxCacheDays * SecondsPerDay

  /**
   * `calendar.date(byAdding: .day, value: days, to: date)`: the calendar is a
   * library the model cannot see, so it is a parameter; `None` is the `nil`
   * the calendar answers when it cannot form the date.
   */
  type DayAdder = (int, Timestamp) -> Option<Timestamp>

  /** The calendar the rest of the model uses: days of a fixed 86400 seconds. */
  function FixedLengthDays(days: int, date: Timestamp): Option<Timestamp>
  {
    Some(date + days * SecondsPerDay)
  }

  /** `validate(_:against:)` with the calendar given explicitly. */
  function ValidateUsing(addDays: DayAdder, timestamp: Timestamp, date: Timestamp): (valid: bool)
    ensures addDays(-MaxCacheDays, date).None? ==> !valid
    ensures valid <==> addDays(-MaxCacheDays, date).Some? && timestamp > addDays(-MaxCacheDays, date).value
  {
    match addDays(-MaxCacheDays, date)
    case None => false
    case Some(minCacheAge) => timestamp > minCacheAge
  }

  /** `validate(_:against:)`: a timestamp is fresh when it is strictly later than seven days before `date`. */
  function Validate(timestamp: Timestamp, date: Timestamp): (valid: bool)
    ensures valid <==> timestamp > date - MaxCacheAge
  {
    ValidateUsing(FixedLengthDays, timestamp, date)
  }

  /** Exactly seven days old is already stale. */
  lemma BoundaryIsInvalid(date: Timestamp)
    ensures !Validate(date - MaxCacheAge, date)
  {
  }

  /** One second either side of the boundary. */
  lemma OneSecondFromBoundary(date: Timestamp)
    ensures Validate(date - MaxCacheAge + 1, date)
    ensures !Validate(date - MaxCacheAge - 1, date)
  {
  }

  /** A later timestamp is at least as fresh, against any calendar. */
  lemma ValidateMonotone(addDays: DayAdder, t: Timestamp, t': Timestamp, date: Timestamp)
    requires ValidateUsing(addDays, t, date) && t < t'
    ensures ValidateUsing(addDays, t', date)
  {
  }

  /** A cache written at the moment it is checked is fresh. */
  lemma NowIsValid(date: Timestamp)
    ensures Validate(date, date)
  {
  }
}
