/** Calendar instants as the dashboard uses them: a day number and the milliseconds
    elapsed since local midnight. Daylight-saving shifts are not modelled, so every
    day has exactly MS_PER_DAY milliseconds. */
module Dates {

  const MS_PER_DAY: int := 86_400_000

  /** Milliseconds after local midnight. */
  type TimeOfDay = t: int | 0 <= t < MS_PER_DAY

  datatype DateTime = DateTime(day: int, time: TimeOfDay)

  /** 23:59:00.000, the time `setHours(23, 59, 0, 0)` sets. */
  const END_OF_DAY: TimeOfDay := (23 * 60 + 59) * 60_000

  /** Milliseconds since the epoch's local midnight. */
  function Timestamp(d: DateTime): int {
    d.day * MS_PER_DAY + d.time
  }

  /** `a < b` on JavaScript dates: comparison of timestamps. */
  predicate Before(a: DateTime, b: DateTime) {
    Timestamp(a) < Timestamp(b)
  }

  /** date-fns `differenceInDays(later, earlier)`: the number of full days between the
      two instants, negative when `later` is earlier, truncated toward zero. */
  function DifferenceInDays(later: DateTime, earlier: DateTime): (r: int)
    ensures Timestamp(earlier) <= Timestamp(later) ==>
              0 <= r && r * MS_PER_DAY <= Timestamp(later) - Timestamp(earlier) < (r + 1) * MS_PER_DAY
    ensures Timestamp(later) < Timestamp(earlier) ==>
              r <= 0 && -r * MS_PER_DAY <= Timestamp(earlier) - Timestamp(later) < (-r + 1) * MS_PER_DAY
  {
    var delta := Timestamp(later) - Timestamp(earlier);
    if delta >= 0 then delta / MS_PER_DAY else -((-delta) / MS_PER_DAY)
  }

  /** Swapping the arguments only flips the sign. */
  lemma DifferenceInDaysAntisymmetric(a: DateTime, b: DateTime)
    ensures DifferenceInDays(a, b) == -DifferenceInDays(b, a)
  {
  }

  /** At equal times of day the difference is the difference of the day numbers. */
  lemma DifferenceInDaysSameTime(a: DateTime, b: DateTime)
    requires a.time == b.time
    ensures DifferenceInDays(a, b) == a.day - b.day
  {
    var delta := Timestamp(a) - Timestamp(b);
    assert delta == (a.day - b.day) * MS_PER_DAY;
    if delta < 0 {
      assert -delta == (b.day - a.day) * MS_PER_DAY;
    }
  }

  /** `new Date(d).setHours(23, 59, 0, 0)`: the same day at 23:59:00.000. */
  function EndOfDay(d: DateTime): (r: DateTime)
    ensures r.day == d.day
    ensures Timestamp(r) - d.day * MS_PER_DAY == END_OF_DAY
  {
    DateTime(d.day, END_OF_DAY)
  }

  /** End-of-day normalisation is idempotent and never moves an instant to an earlier day. */
  lemma EndOfDayIdempotent(d: DateTime)
    ensures EndOfDay(EndOfDay(d)) == EndOfDay(d)
    ensures !Before(EndOfDay(d), DateTime(d.day, 0))
  {
  }
}
