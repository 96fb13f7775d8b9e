/**
 * Calendar dates and instants, as the date-of-birth rules compare them.
 *
 * A date is a (year, month, day) triple read from the date input; dates compare
 * in calendar order, which for real dates is lexicographic order on the triple.
 * An instant is a date together with the milliseconds elapsed since its midnight.
 */
module Dates {

  datatype Date = Date(year: int, month: int, day: int)

  /** `a` is an earlier calendar date than `b`. */
  predicate Before(a: Date, b: Date) {
    a.year < b.year || (a.year == b.year && (a.month < b.month || (a.month == b.month && a.day < b.day)))
  }

  /** Whether (month, day) of `t` comes before (month, day) of `b` within a year. */
  predicate EarlierInYear(t: Date, b: Date) {
    t.month < b.month || (t.month == b.month && t.day < b.day)
  }

  /**
   * Age in whole years on `today` of someone born on `birth`: the difference of the
   * years, one less when the birthday has not yet come round this year.
   */
  function Age(birth: Date, today: Date): int {
    today.year - birth.year - (if EarlierInYear(today, birth) then 1 else 0)
  }

  /** The `n`-th anniversary of `d` (same month and day, `n` years later). */
  function AddYears(d: Date, n: int): Date {
    Date(d.year + n, d.month, d.day)
  }

  /** Someone is at least `n` years old exactly when their `n`-th birthday is not after today. */
  lemma AgeAtLeastIff(birth: Date, today: Date, n: int)
    ensures Age(birth, today) >= n <==> !Before(today, AddYears(birth, n))
  {
  }

  /** Born after today means a negative age. */
  lemma FutureBirthNegativeAge(birth: Date, today: Date)
    ensures Before(today, birth) ==> Age(birth, today) < 0
  {
  }

  /** Age never decreases as today moves forward. */
  lemma AgeMonotone(birth: Date, t1: Date, t2: Date)
    requires !Before(t2, t1)
    ensures Age(birth, t1) <= Age(birth, t2)
  {
  }

  /** A moment in time, read in UTC: the UTC calendar date and the milliseconds since its midnight. */
  datatype Instant = Instant(date: Date, millis: int)

  /** The first moment of a date: `new Date("YYYY-MM-DD")` is the UTC midnight of that date. */
  function Midnight(d: Date): Instant {
    Instant(d, 0)
  }

  /** `a` is strictly earlier than `b`. */
  predicate InstantBefore(a: Instant, b: Instant) {
    Before(a.date, b.date) || (a.date == b.date && a.millis < b.millis)
  }
}
