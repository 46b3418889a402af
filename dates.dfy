/** Calendar dates as (year, month, day) triples. The loan tables store due
 *  and payment dates as `YYYY-MM-DD` text and compare them as strings; for
 *  four-digit years that order is the lexicographic order on the triple,
 *  which `Before` states. */
module Dates {

  datatype Date = Date(y: int, m: int, d: int)

  predicate IsLeap(y: int)
  {
    (y % 4 == 0 && y % 100 != 0) || y % 400 == 0
  }

  function DaysIn(y: int, m: int): (n: int)
    ensures 28 <= n <= 31
    ensures m == 12 ==> n == 31
  {
    if m == 2 then (if IsLeap(y) then 29 else 28)
    else if m == 4 || m == 6 || m == 9 || m == 11 then 30
    else 31
  }

  predicate ValidDate(t: Date)
  {
    1 <= t.m <= 12 && 1 <= t.d <= DaysIn(t.y, t.m)
  }

  /** `a < b` on the `YYYY-MM-DD` texts. */
  predicate Before(a: Date, b: Date)
  {
    a.y < b.y || (a.y == b.y && (a.m < b.m || (a.m == b.m && a.d < b.d)))
  }

  /** Months counted from year 0, so that consecutive months differ by one. */
  function MonthIndex(t: Date): int
  {
    t.y * 12 + t.m - 1
  }

  /** JavaScript's `date.setMonth(date.getMonth() + k)` on a date-only value:
   *  the month moves by `k`, carrying into the year, and a day the target
   *  month does not have overflows into the following month. */
  function AddMonths(s: Date, k: nat): Date
  {
    var total := s.m - 1 + k;
    var y := s.y + total / 12;
    var m := total % 12 + 1;
    if s.d <= DaysIn(y, m) then Date(y, m, s.d)
    else Date(y, m + 1, s.d - DaysIn(y, m))
  }

  /** Adding months to a real date gives a real date; the month index moves by
   *  exactly `k`, or by `k + 1` when the day overflowed into the next month,
   *  which only a day after the 28th can do. */
  lemma AddMonthsShape(s: Date, k: nat)
    requires ValidDate(s)
    ensures ValidDate(AddMonths(s, k))
    ensures AddMonths(s, k).d == s.d ==> MonthIndex(AddMonths(s, k)) == MonthIndex(s) + k
    ensures AddMonths(s, k).d != s.d ==>
      MonthIndex(AddMonths(s, k)) == MonthIndex(s) + k + 1 && AddMonths(s, k).d <= 3 && s.d > 28
    ensures s.d <= 28 ==> AddMonths(s, k).d == s.d
  {
    var total := s.m - 1 + k;
    var y := s.y + total / 12;
    var m := total % 12 + 1;
    assert y * 12 + m - 1 == s.y * 12 + total;
  }

  lemma BeforeByMonthIndex(a: Date, b: Date)
    requires ValidDate(a) && ValidDate(b)
    requires MonthIndex(a) < MonthIndex(b) || (MonthIndex(a) == MonthIndex(b) && a.d < b.d)
    ensures Before(a, b)
  {
    assert MonthIndex(a) - MonthIndex(b) == (a.y - b.y) * 12 + (a.m - b.m);
  }

  /** Each installment falls strictly after the previous one, even when the
   *  start day overflows short months. */
  lemma {:induction false} AddMonthsIncreasing(s: Date, k: nat)
    requires ValidDate(s)
    ensures Before(AddMonths(s, k), AddMonths(s, k + 1))
  {
    AddMonthsShape(s, k);
    AddMonthsShape(s, k + 1);
    BeforeByMonthIndex(AddMonths(s, k), AddMonths(s, k + 1));
  }

  /** Installment dates are ordered by their month offsets. */
  lemma {:induction false} AddMonthsMonotone(s: Date, a: nat, b: nat)
    requires ValidDate(s) && a < b
    ensures Before(AddMonths(s, a), AddMonths(s, b))
    decreases b - a
  {
    AddMonthsIncreasing(s, a);
    if a + 1 < b {
      AddMonthsMonotone(s, a + 1, b);
      BeforeTransitive(AddMonths(s, a), AddMonths(s, a + 1), AddMonths(s, b));
    }
  }

  lemma BeforeTransitive(a: Date, b: Date, c: Date)
    requires Before(a, b) && Before(b, c)
    ensures Before(a, c)
  {
  }

  lemma BeforeIrreflexive(a: Date)
    ensures !Before(a, a)
  {
  }

  /** The calendar day after `t`. */
  function NextDay(t: Date): Date
  {
    if t.d < DaysIn(t.y, t.m) then Date(t.y, t.m, t.d + 1)
    else if t.m < 12 then Date(t.y, t.m + 1, 1)
    else Date(t.y + 1, 1, 1)
  }

  /** The day `n` calendar days after `t`, as JavaScript's `Date` carries a
   *  day past the end of a month. */
  function AddDays(t: Date, n: nat): Date
    decreases n
  {
    if n == 0 then t else AddDays(NextDay(t), n - 1)
  }

  /** Adding days to a real date moves forward to a real date. */
  lemma {:induction false} AddDaysForward(t: Date, n: nat)
    requires ValidDate(t)
    ensures ValidDate(AddDays(t, n))
    ensures n > 0 ==> Before(t, AddDays(t, n))
    decreases n
  {
    if n > 0 {
      assert ValidDate(NextDay(t)) && Before(t, NextDay(t));
      AddDaysForward(NextDay(t), n - 1);
      if n > 1 {
        BeforeTransitive(t, NextDay(t), AddDays(NextDay(t), n - 1));
      }
    }
  }

  /** Adding `a + b` days is adding `a`, then `b`. */
  lemma {:induction false} AddDaysAdd(t: Date, a: nat, b: nat)
    ensures AddDays(t, a + b) == AddDays(AddDays(t, a), b)
    decreases a
  {
    if a > 0 {
      AddDaysAdd(NextDay(t), a - 1, b);
    }
  }

  /** Counting days from the first of a month reaches each of its days. */
  lemma {:induction false} AddDaysWithinMonth(y: int, m: int, d: nat)
    requires 1 <= m <= 12 && 1 <= d <= DaysIn(y, m)
    ensures AddDays(Date(y, m, 1), d - 1) == Date(y, m, d)
  {
    if d > 1 {
      AddDaysWithinMonth(y, m, d - 1);
      AddDaysAdd(Date(y, m, 1), d - 2, 1);
    }
  }

  /** The numbers of a `YYYY-MM-DD` text that the non-strict ISO 8601 check
   *  accepts: a month from 01 to 12 and a day from 01 to 31, whatever the
   *  month's length. */
  predicate IsoDay(t: Date)
  {
    1 <= t.m <= 12 && 1 <= t.d <= 31
  }

  /** `new Date(text)` on such a text: a day the month does not have carries
   *  into the next month. */
  function FromIso(t: Date): (r: Date)
    requires IsoDay(t)
    ensures ValidDate(r)
    ensures ValidDate(t) ==> r == t
  {
    if t.d <= DaysIn(t.y, t.m) then t
    else Date(t.y, t.m + 1, t.d - DaysIn(t.y, t.m))
  }

  /** The parsed date is the day `d - 1` days after the first of the month
   *  written, the way the `Date` object counts days. */
  lemma FromIsoCountsDays(t: Date)
    requires IsoDay(t)
    ensures FromIso(t) == AddDays(Date(t.y, t.m, 1), t.d - 1)
  {
    var n := DaysIn(t.y, t.m);
    if t.d <= n {
      AddDaysWithinMonth(t.y, t.m, t.d);
    } else {
      AddDaysWithinMonth(t.y, t.m, n);
      AddDaysAdd(Date(t.y, t.m, 1), n - 1, t.d - n);
      assert NextDay(Date(t.y, t.m, n)) == Date(t.y, t.m + 1, 1);
      AddDaysWithinMonth(t.y, t.m + 1, t.d - n);
    }
  }

  /** The 30th of February 2025 is read as the 2nd of March. */
  lemma FromIsoExample()
    ensures IsoDay(Date(2025, 2, 30)) && FromIso(Date(2025, 2, 30)) == Date(2025, 3, 2)
    ensures IsoDay(Date(2024, 2, 30)) && FromIso(Date(2024, 2, 30)) == Date(2024, 3, 1)
  {
  }

  /** A start on the 31st of January 2023 is due on the 3rd of March, the
   *  31st of March and the 1st of May: the overflow of `setMonth`. */
  lemma OverflowExample()
    ensures AddMonths(Date(2023, 1, 31), 1) == Date(2023, 3, 3)
    ensures AddMonths(Date(2023, 1, 31), 2) == Date(2023, 3, 31)
    ensures AddMonths(Date(2023, 1, 31), 3) == Date(2023, 5, 1)
    ensures AddMonths(Date(2024, 11, 15), 3) == Date(2025, 2, 15)
  {
  }
}
