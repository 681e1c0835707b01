/**
  Python `datetime` values as the bot uses them: compared with `<` and `<=`,
  moved to the first of the month with `replace(day=1)`, and cut to whole
  minutes when written to the sheet as "%Y-%m-%d %H:%M".
*/
module Clock {

  datatype DateTime = DateTime(year: int, month: int, day: int,
                               hour: int, minute: int, second: int, micro: int)

  /** Python's `a < b` on datetimes: lexicographic on the fields. */
  predicate Before(a: DateTime, b: DateTime) {
    if a.year != b.year then a.year < b.year
    else if a.month != b.month then a.month < b.month
    else if a.day != b.day then a.day < b.day
    else if a.hour != b.hour then a.hour < b.hour
    else if a.minute != b.minute then a.minute < b.minute
    else if a.second != b.second then a.second < b.second
    else a.micro < b.micro
  }

  /** Python's `a <= b`. */
  predicate AtOrBefore(a: DateTime, b: DateTime)
    ensures AtOrBefore(a, b) <==> Before(a, b) || a == b
  {
    !Before(b, a)
  }

  lemma BeforeIsStrictTotalOrder(a: DateTime, b: DateTime, c: DateTime)
    ensures !Before(a, a)
    ensures Before(a, b) && Before(b, c) ==> Before(a, c)
    ensures a != b ==> Before(a, b) || Before(b, a)
    ensures AtOrBefore(a, b) <==> Before(a, b) || a == b
  {
  }

  /** `now.replace(day=1)`: the day becomes 1, the time of day is kept. */
  function MonthStart(now: DateTime): (r: DateTime)
    ensures r.year == now.year && r.month == now.month && r.day == 1
    ensures r.hour == now.hour && r.minute == now.minute
    ensures r.second == now.second && r.micro == now.micro
    ensures now.day >= 1 ==> AtOrBefore(r, now)
  {
    now.(day := 1)
  }

  /** What survives a round trip through "%Y-%m-%d %H:%M": seconds and microseconds are dropped. */
  function Minute(t: DateTime): (r: DateTime)
    ensures AtOrBefore(r, t)
    ensures Before(r, t) <==> t.second > 0 || (t.second == 0 && t.micro > 0)
    requires t.second >= 0 && t.micro >= 0
  {
    t.(second := 0, micro := 0)
  }

  /**
    Because the month start keeps the current time of day, a moment on the first
    of the current month that is earlier in the day than `now` falls before it.
  */
  lemma FirstDayEarlierInDayIsBeforeMonthStart(t: DateTime, now: DateTime)
    requires t.year == now.year && t.month == now.month && t.day == 1
    requires Before(t.(year := 0, month := 0, day := 0), now.(year := 0, month := 0, day := 0))
    ensures Before(t, MonthStart(now))
  {
  }
}
