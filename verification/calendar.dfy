/** Calendar days as the pages see them through `Date`: the year, the
    0-based month of `getMonth()` and the day of the month. Times of day and
    time zones are not part of this model. */
module Calendar {
  import opened JsStrings

  datatype Date = Date(year: int, month: int, day: int)

  predicate IsLeap(y: int)
  {
    y % 4 == 0 && (y % 100 != 0 || y % 400 == 0)
  }

  /** Days in month `m` (0-based) of year `y`, Gregorian calendar. */
  function DaysInMonth(y: int, m: int): int
    requires 0 <= m < 12
  {
    if m == 1 then (if IsLeap(y) then 29 else 28)
    else if m == 3 || m == 5 || m == 8 || m == 10 then 30
    else 31
  }

  predicate Valid(d: Date)
  {
    0 <= d.month < 12 && 1 <= d.day <= DaysInMonth(d.year, d.month)
  }

  /** A day that exists in the calendar: what a `Date` always denotes. */
  type Day = d: Date | Valid(d) witness Date(1970, 0, 1)

  /** `a <= b` on the `Date` objects of two calendar days. */
  predicate LessEq(a: Date, b: Date)
  {
    a.year < b.year || (a.year == b.year && (a.month < b.month || (a.month == b.month && a.day <= b.day)))
  }

  /** `lo <= d && d <= hi`. */
  predicate InRange(d: Date, lo: Date, hi: Date)
  {
    LessEq(lo, d) && LessEq(d, hi)
  }

  /** `new Date(y, monthIndex, day)` for a day between 0 and the length of
      the month: a month index outside 0..11 moves into the neighbouring
      years, and day 0 is the last day of the month before. */
  function JsDate(y: int, monthIndex: int, day: int): (r: Day)
    requires 0 <= day <= DaysInMonth(y + monthIndex / 12, monthIndex % 12)
    ensures day > 0 ==> r.day == day && 12 * r.year + r.month == 12 * y + monthIndex
    ensures day == 0 ==> 12 * r.year + r.month == 12 * y + monthIndex - 1
                         && r.day == DaysInMonth(r.year, r.month)
  {
    var year := y + monthIndex / 12;
    var month := monthIndex % 12;
    if day > 0 then Date(year, month, day)
    else if month == 0 then Date(year - 1, 11, 31)
    else Date(year, month - 1, DaysInMonth(year, month - 1))
  }

  /** `String(y)` of a year. */
  function YearText(y: int): string
  {
    if y < 0 then "-" + NatText(-y) else NatText(y)
  }

  /** The report's month key `${getFullYear()}-${padStart(getMonth() + 1)}`. */
  function MonthKey(d: Date): string
    requires 0 <= d.month < 12
  {
    YearText(d.year) + "-" + Pad2(d.month + 1)
  }

  /** The stored text `YYYY-MM-DD` of a date column. */
  function DateText(d: Date): string
    requires Valid(d)
  {
    YearText(d.year) + "-" + Pad2(d.month + 1) + "-" + Pad2(d.day)
  }

  /** The years whose month keys all have the form `YYYY-MM`. */
  predicate FourDigitYear(d: Date)
  {
    1000 <= d.year <= 9999
  }

  lemma MonthKeyDigits(d: Date)
    requires 0 <= d.month < 12 && FourDigitYear(d)
    ensures MonthKey(d) == Digits(d.year, 4) + ("-" + Digits(d.month + 1, 2))
  {
    assert Pow10(3) == 1000 && Pow10(4) == 10000;
    NatTextDigits(d.year, 4);
    Pad2Digits(d.month + 1);
  }

  /** Keys made of a four-digit year, a dash and a two-digit month compare
      as the (year, month) pairs they spell. */
  lemma KeyTextOrder(y1: nat, m1: nat, y2: nat, m2: nat)
    requires y1 < 10000 && y2 < 10000 && m1 < 100 && m2 < 100
    ensures StrLess(Digits(y1, 4) + ("-" + Digits(m1, 2)), Digits(y2, 4) + ("-" + Digits(m2, 2)))
            <==> y1 < y2 || (y1 == y2 && m1 < m2)
    ensures Digits(y1, 4) + ("-" + Digits(m1, 2)) == Digits(y2, 4) + ("-" + Digits(m2, 2))
            <==> y1 == y2 && m1 == m2
  {
    assert Pow10(2) == 100 && Pow10(4) == 10000;
    var ya, yb := Digits(y1, 4), Digits(y2, 4);
    var ma, mb := Digits(m1, 2), Digits(m2, 2);
    StrLessConcat(ya, yb, "-" + ma, "-" + mb);
    StrLessConcat("-", "-", ma, mb);
    DigitsOrder(y1, y2, 4);
    DigitsOrder(m1, m2, 2);
    if ya == yb {
      DigitsInjective(y1, y2, 4);
    }
    if ma == mb {
      DigitsInjective(m1, m2, 2);
    }
    if ya + ("-" + ma) == yb + ("-" + mb) {
      assert ya == (ya + ("-" + ma))[..4] && yb == (yb + ("-" + mb))[..4];
      assert ma == (ya + ("-" + ma))[5..] && mb == (yb + ("-" + mb))[5..];
    }
  }

  /** For four-digit years, ordering month keys as strings (what `sort()`
      does) is ordering the months chronologically, and two keys are equal
      exactly for the same month of the same year. */
  lemma MonthKeyOrder(a: Date, b: Date)
    requires 0 <= a.month < 12 && 0 <= b.month < 12
    requires FourDigitYear(a) && FourDigitYear(b)
    ensures StrLess(MonthKey(a), MonthKey(b))
            <==> a.year < b.year || (a.year == b.year && a.month < b.month)
    ensures MonthKey(a) == MonthKey(b) <==> a.year == b.year && a.month == b.month
  {
    MonthKeyDigits(a);
    MonthKeyDigits(b);
    SpelledKeyOrder(MonthKey(a), MonthKey(b), a, b);
  }

  /** `MonthKeyOrder` for keys already spelled out as digits. */
  lemma SpelledKeyOrder(ka: string, kb: string, a: Date, b: Date)
    requires 0 <= a.month < 12 && 0 <= b.month < 12
    requires FourDigitYear(a) && FourDigitYear(b)
    requires ka == Digits(a.year, 4) + ("-" + Digits(a.month + 1, 2))
    requires kb == Digits(b.year, 4) + ("-" + Digits(b.month + 1, 2))
    ensures StrLess(ka, kb) <==> a.year < b.year || (a.year == b.year && a.month < b.month)
    ensures ka == kb <==> a.year == b.year && a.month == b.month
  {
    KeyTextOrder(a.year, a.month + 1, b.year, b.month + 1);
  }

  /** A stored date text holds no `T`, so cutting it at the first `T` keeps
      it whole. */
  lemma DateTextHasNoT(d: Date)
    requires Valid(d)
    ensures BeforeFirst(DateText(d), 'T') == DateText(d)
  {
    NatTextDigitsOnly(if d.year < 0 then -d.year else d.year);
    NatTextDigitsOnly(d.month + 1);
    NatTextDigitsOnly(d.day);
    assert 'T' !in YearText(d.year);
    assert 'T' !in Pad2(d.month + 1);
    assert 'T' !in Pad2(d.day);
    BeforeFirstAbsent(DateText(d), 'T');
  }
}
