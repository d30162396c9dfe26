/** The two calendar views that the consolidation takes of a scheduled instant:
    chrono's `DateTime<Utc>::time()` (a time of day) and `DateTime<Utc>::weekday()`.
    Instants arrive as whole Unix seconds (`ts_seconds_option`), so both are
    integer arithmetic on a count of seconds since 1970-01-01T00:00:00Z. */
module Clock {

  const SecondsPerDay: int := 86400

  /** A time of day in UTC with whole-second precision (chrono's `NaiveTime`
      with zero nanoseconds), as seconds since midnight. */
  type TimeOfDay = s: int | 0 <= s < SecondsPerDay

  /** chrono's `Weekday`, in its own order. */
  datatype Weekday = Mon | Tue | Wed | Thu | Fri | Sat | Sun

  function NumDaysFromMonday(w: Weekday): (n: nat)
    ensures n < 7
  {
    match w
    case Mon => 0
    case Tue => 1
    case Wed => 2
    case Thu => 3
    case Fri => 4
    case Sat => 5
    case Sun => 6
  }

  function WeekdayFromMonday(n: int): (w: Weekday)
    requires 0 <= n < 7
    ensures NumDaysFromMonday(w) == n
  {
    if n == 0 then Mon
    else if n == 1 then Tue
    else if n == 2 then Wed
    else if n == 3 then Thu
    else if n == 4 then Fri
    else if n == 5 then Sat
    else Sun
  }

  /** chrono's `Weekday::succ`: the day after `w`, Sunday wrapping to Monday. */
  function Succ(w: Weekday): Weekday
  {
    match w
    case Mon => Tue
    case Tue => Wed
    case Wed => Thu
    case Thu => Fri
    case Fri => Sat
    case Sat => Sun
    case Sun => Mon
  }

  /** Days since the epoch of the UTC civil date of instant `t`; instants before
      the epoch fall on negative days (chrono splits with `div_euclid`). */
  function DayNumber(t: int): int
  {
    t / SecondsPerDay
  }

  /** `dt.time()` for the instant `t`: the UTC time of day. */
  function TimeOf(t: int): (r: TimeOfDay)
    ensures (t - r) % SecondsPerDay == 0
    ensures t == DayNumber(t) * SecondsPerDay + r
  {
    t % SecondsPerDay
  }

  /** `dt.weekday()` for the instant `t`: the weekday of its UTC civil date.
      1970-01-01 was a Thursday, three days after a Monday. */
  function WeekdayOf(t: int): Weekday
  {
    WeekdayFromMonday((DayNumber(t) + 3) % 7)
  }

  lemma EpochIsThursday()
    ensures WeekdayOf(0) == Thu && TimeOf(0) == 0
  {
  }

  /** Two instants on the same civil day share their weekday, and the time of
      day tells them apart. */
  lemma SameDay(t: int, u: int)
    requires DayNumber(t) == DayNumber(u)
    ensures WeekdayOf(t) == WeekdayOf(u)
    ensures TimeOf(t) == TimeOf(u) <==> t == u
  {
  }

  /** One day later is the next weekday at the same time of day. */
  lemma NextDay(t: int)
    ensures DayNumber(t + SecondsPerDay) == DayNumber(t) + 1
    ensures WeekdayOf(t + SecondsPerDay) == Succ(WeekdayOf(t))
    ensures TimeOf(t + SecondsPerDay) == TimeOf(t)
  {
    var d, r := DayNumber(t), TimeOf(t);
    assert t + SecondsPerDay == (d + 1) * SecondsPerDay + r;
    DivideExact(t + SecondsPerDay, d + 1, r);
    var n := (d + 3) % 7;
    assert (d + 1 + 3) % 7 == (n + 1) % 7;
  }

  /** Seven days later is the same weekday at the same time of day. */
  lemma NextWeek(t: int)
    ensures WeekdayOf(t + 7 * SecondsPerDay) == WeekdayOf(t)
    ensures TimeOf(t + 7 * SecondsPerDay) == TimeOf(t)
  {
    var d, r := DayNumber(t), TimeOf(t);
    assert t + 7 * SecondsPerDay == (d + 7) * SecondsPerDay + r;
    DivideExact(t + 7 * SecondsPerDay, d + 7, r);
    assert (d + 7 + 3) % 7 == (d + 3) % 7;
  }

  /** The decomposition into day and time of day is unique. */
  lemma DivideExact(t: int, d: int, r: int)
    requires 0 <= r < SecondsPerDay
    requires t == d * SecondsPerDay + r
    ensures DayNumber(t) == d && TimeOf(t) == r
  {
    var d', r' := DayNumber(t), TimeOf(t);
    assert (d - d') * SecondsPerDay == r' - r;
  }
}
