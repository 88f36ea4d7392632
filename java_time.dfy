/** The parts of `java.time` the sleep path uses, on whole seconds. */
module JavaTime {

  /** A point on the time line, in seconds since the epoch. */
  type Instant = int

  /** A calendar date, as a count of days since 1970-01-01. */
  type LocalDate = int

  /** A zone-less date and time, as seconds since 1970-01-01T00:00.
      A local date-time has no zone, so every local day is 86400 seconds long. */
  type LocalDateTime = int

  const SecondsPerDay: int := 86400
  const SecondsPerHour: int := 3600
  const SecondsPerMinute: int := 60

  /** `LocalDate.atStartOfDay()` */
  function AtStartOfDay(date: LocalDate): LocalDateTime {
    date * SecondsPerDay
  }

  /** `LocalDate.plusDays(n)` */
  function PlusDays(date: LocalDate, n: int): LocalDate {
    date + n
  }

  /** `LocalDateTime.toLocalDate()`: the date the moment falls on
      (a floor division, also before the epoch). */
  function ToLocalDate(t: LocalDateTime): LocalDate {
    t / SecondsPerDay
  }

  /** A non-negative `java.time.Duration`, in whole seconds. */
  datatype Duration = Duration(seconds: nat) {

    /** `Duration.toHours()`: whole hours, the rest truncated. */
    function ToHours(): nat {
      seconds / SecondsPerHour
    }

    /** `Duration.toMinutes()`: whole minutes, the rest truncated. */
    function ToMinutes(): nat {
      seconds / SecondsPerMinute
    }

    /** `Duration.minusHours(h)`, for an `h` that keeps the duration non-negative. */
    function MinusHours(h: nat): Duration
      requires h * SecondsPerHour <= seconds
    {
      Duration(seconds - h * SecondsPerHour)
    }
  }

  /** `Duration.ZERO` */
  const Zero: Duration := Duration(0)
}
