/**
 * The proleptic Gregorian calendar as Python's `datetime.date` computes it:
 * day counts, ordinals (`date.toordinal()`), weekdays (`date.weekday()`,
 * Monday = 0), day arithmetic (`date + timedelta(days=n)`) and the ISO
 * rendering `YYYY-MM-DD` with its strict parser (`strptime('%Y-%m-%d')`).
 */
module Calendar {
  import opened Text

  datatype Date = Date(year: int, month: int, day: int)

  predicate IsLeapYear(y: int) { y % 4 == 0 && (y % 100 != 0 || y % 400 == 0) }

  function DaysInMonth(y: int, m: int): (n: int)
    requires 1 <= m <= 12
    ensures 28 <= n <= 31
  {
    if m == 2 then (if IsLeapYear(y) then 29 else 28)
    else if m == 4 || m == 6 || m == 9 || m == 11 then 30
    else 31
  }

  predicate Valid(d: Date) { 1 <= d.month <= 12 && 1 <= d.day <= DaysInMonth(d.year, d.month) }

  /** The dates Python's `date` type can hold. */
  predicate InRange(d: Date) { Valid(d) && 1 <= d.year <= 9999 }

  /** Days in the years before `y` (year 1 starts at 0). */
  function DaysBeforeYear(y: int): int
  {
    var p := y - 1;
    365 * p + p / 4 - p / 100 + p / 400
  }

  function DaysBeforeMonth(y: int, m: int): int
    requires 1 <= m <= 12
  {
    if m == 1 then 0 else DaysBeforeMonth(y, m - 1) + DaysInMonth(y, m - 1)
  }

  /** `date.toordinal()`: 0001-01-01 is day 1. */
  function Ordinal(d: Date): int
    requires Valid(d)
  {
    DaysBeforeYear(d.year) + DaysBeforeMonth(d.year, d.month) + d.day
  }

  /** `date.weekday()`: Monday is 0 and Sunday is 6. */
  function Weekday(d: Date): (w: int)
    requires Valid(d)
    ensures 0 <= w < 7
  {
    (Ordinal(d) + 6) % 7
  }

  function NextDay(d: Date): (r: Date)
    requires Valid(d)
    ensures Valid(r)
  {
    if d.day < DaysInMonth(d.year, d.month) then d.(day := d.day + 1)
    else if d.month < 12 then Date(d.year, d.month + 1, 1)
    else Date(d.year + 1, 1, 1)
  }

  function PrevDay(d: Date): (r: Date)
    requires Valid(d)
    ensures Valid(r)
  {
    if d.day > 1 then d.(day := d.day - 1)
    else if d.month > 1 then Date(d.year, d.month - 1, DaysInMonth(d.year, d.month - 1))
    else Date(d.year - 1, 12, 31)
  }

  /** `d + timedelta(days=n)`. */
  function AddDays(d: Date, n: int): (r: Date)
    requires Valid(d)
    ensures Valid(r)
    decreases if n < 0 then -n else n
  {
    if n == 0 then d
    else if n > 0 then AddDays(NextDay(d), n - 1)
    else AddDays(PrevDay(d), n + 1)
  }

  lemma Step4(p: int) ensures (p + 1) / 4 - p / 4 == if (p + 1) % 4 == 0 then 1 else 0 { }
  lemma Step100(p: int) ensures (p + 1) / 100 - p / 100 == if (p + 1) % 100 == 0 then 1 else 0 { }
  lemma Step400(p: int) ensures (p + 1) / 400 - p / 400 == if (p + 1) % 400 == 0 then 1 else 0 { }

  lemma YearLength(y: int)
    ensures DaysBeforeYear(y + 1) - DaysBeforeYear(y) == if IsLeapYear(y) then 366 else 365
  {
    Step4(y - 1);
    Step100(y - 1);
    Step400(y - 1);
  }

  lemma YearEnd(y: int)
    ensures DaysBeforeMonth(y, 12) + 31 == if IsLeapYear(y) then 366 else 365
  {
    var feb := DaysInMonth(y, 2);
    assert DaysBeforeMonth(y, 2) == 31;
    assert DaysBeforeMonth(y, 3) == 31 + feb;
    assert DaysBeforeMonth(y, 4) == 62 + feb;
    assert DaysBeforeMonth(y, 5) == 92 + feb;
    assert DaysBeforeMonth(y, 6) == 123 + feb;
    assert DaysBeforeMonth(y, 7) == 153 + feb;
    assert DaysBeforeMonth(y, 8) == 184 + feb;
    assert DaysBeforeMonth(y, 9) == 215 + feb;
    assert DaysBeforeMonth(y, 10) == 245 + feb;
    assert DaysBeforeMonth(y, 11) == 276 + feb;
    assert DaysBeforeMonth(y, 12) == 306 + feb;
  }

  /** The day after `d` has the next ordinal. */
  lemma NextDayOrdinal(d: Date)
    requires Valid(d)
    ensures Ordinal(NextDay(d)) == Ordinal(d) + 1
  {
    if d.day == DaysInMonth(d.year, d.month) && d.month == 12 {
      YearLength(d.year);
      YearEnd(d.year);
    }
  }

  lemma PrevDayOrdinal(d: Date)
    requires Valid(d)
    ensures Ordinal(PrevDay(d)) == Ordinal(d) - 1
  {
    if d.day == 1 && d.month == 1 {
      YearLength(d.year - 1);
      YearEnd(d.year - 1);
    }
  }

  /** Adding `n` days moves the ordinal by exactly `n`. */
  lemma {:induction false} AddDaysOrdinal(d: Date, n: int)
    requires Valid(d)
    ensures Ordinal(AddDays(d, n)) == Ordinal(d) + n
    decreases if n < 0 then -n else n
  {
    if n > 0 {
      NextDayOrdinal(d);
      AddDaysOrdinal(NextDay(d), n - 1);
    } else if n < 0 {
      PrevDayOrdinal(d);
      AddDaysOrdinal(PrevDay(d), n + 1);
    }
  }

  /** Adding `n` days advances the weekday by `n` modulo 7. */
  lemma AddDaysWeekday(d: Date, n: int)
    requires Valid(d)
    ensures Weekday(AddDays(d, n)) == (Weekday(d) + n) % 7
  {
    AddDaysOrdinal(d, n);
    ModShift(Ordinal(d) + 6, n);
  }

  lemma ModShift(a: int, n: int)
    ensures (a + n) % 7 == (a % 7 + n) % 7
  {
    var q := a / 7;
    assert a == 7 * q + a % 7;
    assert (a + n) - (a % 7 + n) == 7 * q;
  }

  lemma {:induction false} AddDaysCompose(d: Date, m: int, n: int)
    requires Valid(d)
    ensures AddDays(AddDays(d, m), n) == AddDays(d, m + n)
  {
    AddDaysOrdinal(d, m);
    AddDaysOrdinal(AddDays(d, m), n);
    AddDaysOrdinal(d, m + n);
    OrdinalInjective(AddDays(AddDays(d, m), n), AddDays(d, m + n));
  }

  /** Calendar order: `a < b` on Python dates. */
  predicate Before(a: Date, b: Date)
  {
    a.year < b.year || (a.year == b.year && (a.month < b.month || (a.month == b.month && a.day < b.day)))
  }

  lemma {:induction false} DaysBeforeMonthMonotone(y: int, m1: int, m2: int)
    requires 1 <= m1 < m2 <= 12
    ensures DaysBeforeMonth(y, m1) + DaysInMonth(y, m1) <= DaysBeforeMonth(y, m2)
    decreases m2 - m1
  {
    if m1 + 1 < m2 { DaysBeforeMonthMonotone(y, m1 + 1, m2); }
  }

  lemma {:induction false} YearsMonotone(y1: int, y2: int)
    requires y1 < y2
    ensures DaysBeforeYear(y1 + 1) <= DaysBeforeYear(y2)
    decreases y2 - y1
  {
    if y1 + 1 < y2 {
      YearLength(y1 + 1);
      YearsMonotone(y1 + 1, y2);
    }
  }

  lemma EarlierYear(a: Date, b: Date)
    requires Valid(a) && Valid(b) && a.year < b.year
    ensures Ordinal(a) < Ordinal(b)
  {
    YearsMonotone(a.year, b.year);
    if a.month < 12 { DaysBeforeMonthMonotone(a.year, a.month, 12); }
    YearEnd(a.year);
    YearLength(a.year);
    assert Ordinal(a) <= DaysBeforeYear(a.year) + DaysBeforeMonth(a.year, 12) + 31;
    assert DaysBeforeMonth(b.year, b.month) >= 0 by { DaysBeforeMonthNonNeg(b.year, b.month); }
  }

  lemma {:induction false} DaysBeforeMonthNonNeg(y: int, m: int)
    requires 1 <= m <= 12
    ensures DaysBeforeMonth(y, m) >= 0
  {
    if m > 1 { DaysBeforeMonthNonNeg(y, m - 1); }
  }

  lemma EarlierMonth(a: Date, b: Date)
    requires Valid(a) && Valid(b) && a.year == b.year && a.month < b.month
    ensures Ordinal(a) < Ordinal(b)
  {
    DaysBeforeMonthMonotone(a.year, a.month, b.month);
  }

  /** Calendar order and ordinal order agree. */
  lemma BeforeOrdinal(a: Date, b: Date)
    requires Valid(a) && Valid(b)
    ensures Before(a, b) <==> Ordinal(a) < Ordinal(b)
  {
    if a.year < b.year {
      EarlierYear(a, b);
    } else if b.year < a.year {
      EarlierYear(b, a);
    } else if a.month < b.month {
      EarlierMonth(a, b);
    } else if b.month < a.month {
      EarlierMonth(b, a);
    }
  }

  lemma OrdinalInjective(a: Date, b: Date)
    requires Valid(a) && Valid(b) && Ordinal(a) == Ordinal(b)
    ensures a == b
  {
    BeforeOrdinal(a, b);
    BeforeOrdinal(b, a);
  }

  /** `date.isoformat()`: `%04d-%02d-%02d`. */
  function IsoFormat(d: Date): string
    requires InRange(d)
  {
    Pad4(d.year) + ("-" + (Pad2(d.month) + ("-" + Pad2(d.day))))
  }

  /** `%m` of `strptime`: `1[0-2]|0[1-9]|[1-9]`, read from a one- or two-digit field. */
  predicate MonthField(s: string)
  {
    (|s| == 2 && ((s[0] == '1' && '0' <= s[1] <= '2') || (s[0] == '0' && '1' <= s[1] <= '9')))
    || (|s| == 1 && '1' <= s[0] <= '9')
  }

  /** `%d` of `strptime`: `3[01]|[12]\d|0[1-9]|[1-9]`, read from a one- or two-digit field. */
  predicate DayField(s: string)
  {
    (|s| == 2 && ((s[0] == '3' && '0' <= s[1] <= '1') || ('1' <= s[0] <= '2' && IsDigit(s[1]))
                   || (s[0] == '0' && '1' <= s[1] <= '9')))
    || (|s| == 1 && '1' <= s[0] <= '9')
  }

  lemma FieldsValue(y: string, m: string, d: string)
    requires |y| == 4 && AllDigits(y) && MonthField(m) && DayField(d)
    ensures DigitsValue(y) < 10000
    ensures AllDigits(m) && 1 <= DigitsValue(m) <= 12
    ensures AllDigits(d) && 1 <= DigitsValue(d) <= 31
  {
    DigitsValueBound(y);
    if |m| == 1 { DigitsValueOne(m); } else { DigitsValueTwo(m); }
    if |d| == 1 { DigitsValueOne(d); } else { DigitsValueTwo(d); }
  }

  lemma MonthFieldPad2(n: nat)
    requires 1 <= n <= 12
    ensures MonthField(Pad2(n))
  {
    if n >= 10 { assert NatToString(n) == NatToString(n / 10) + [DigitChar(n % 10)]; }
  }

  lemma DayFieldPad2(n: nat)
    requires 1 <= n <= 31
    ensures DayField(Pad2(n))
  {
    if n >= 10 { assert NatToString(n) == NatToString(n / 10) + [DigitChar(n % 10)]; }
  }

  /** Dates between `d` and `d + n` days have years between theirs. */
  lemma AddDaysBetween(d: Date, i: int, n: int)
    requires Valid(d) && 0 <= i <= n
    ensures d.year <= AddDays(d, i).year <= AddDays(d, n).year
  {
    AddDaysOrdinal(d, i);
    AddDaysOrdinal(d, n);
    BeforeOrdinal(AddDays(d, n), AddDays(d, i));
    BeforeOrdinal(AddDays(d, i), d);
  }
}
