/** Dates as integer instants (seconds on one timeline), whole-day
    differences, and the property the model needs of calendar month
    addition. */
module Dates {

  const SecondsPerDay: int := 86400

  /** Whole days from `from` to `to`, as the day component of a date
      difference: partial days are dropped, so the count rounds toward zero
      on both sides of zero. */
  function DaysBetween(from: int, to: int): (d: int)
    ensures d > 0 <==> to - from >= SecondsPerDay
    ensures d < 0 <==> from - to >= SecondsPerDay
    ensures to >= from ==> d * SecondsPerDay <= to - from < (d + 1) * SecondsPerDay
    ensures to <= from ==> (d - 1) * SecondsPerDay < to - from <= d * SecondsPerDay
  {
    var diff := to - from;
    if diff >= 0 then diff / SecondsPerDay else -((-diff) / SecondsPerDay)
  }

  /** Adding a positive number of months moves a date strictly later. Calendar
      month addition is a parameter of the model; this is all it relies on. */
  ghost predicate Advances(addMonths: (int, nat) -> int)
  {
    forall d: int, n: nat :: n > 0 ==> addMonths(d, n) > d
  }
}
