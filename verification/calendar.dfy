/** Calendar dates as (year, month, day) triples, in place of JavaScript `Date` objects. */
module Calendar {

  datatype Date = Date(year: int, month: int, day: int)

  /** Month 1..12 and day 1..31; the ordering facts below hold for such dates. */
  predicate ValidDate(d: Date) {
    1 <= d.month <= 12 && 1 <= d.day <= 31
  }

  /** `a` is the same day as `b` or an earlier one: the comparison `new Date(a) <= new Date(b)`. */
  predicate OnOrBefore(a: Date, b: Date) {
    a.year < b.year
    || (a.year == b.year && (a.month < b.month || (a.month == b.month && a.day <= b.day)))
  }

  /** A day number whose differences order dates as `new Date(b) - new Date(a)` does. */
  function DayKey(d: Date): int {
    372 * d.year + 31 * (d.month - 1) + (d.day - 1)
  }

  /** Comparing day numbers is comparing dates. */
  lemma {:induction false} DayKeyOrder(a: Date, b: Date)
    requires ValidDate(a) && ValidDate(b)
    ensures DayKey(a) <= DayKey(b) <==> OnOrBefore(a, b)
  {
    if a.year < b.year {
      assert DayKey(a) <= 372 * a.year + 371;
      assert 372 * (a.year + 1) <= 372 * b.year;
    } else if a.year > b.year {
      assert DayKey(b) <= 372 * b.year + 371;
      assert 372 * (b.year + 1) <= 372 * a.year;
    }
  }
}
