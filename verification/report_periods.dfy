/** The period selector of the reports page: which fetched transactions a
    report covers. The page compares each transaction's date with the two
    ends of an inclusive interval built with `new Date(y, m, d)`. */
module ReportPeriods {
  import opened Values
  import opened Seqs
  import opened Calendar
  import opened Records

  /** The `period` options of the select: current_month, last_month,
      current_year and custom. */
  datatype Period = CurrentMonth | LastMonth | CurrentYear | Custom

  /** The page's `filter` state; an empty date input is `None`. */
  datatype PeriodFilter = PeriodFilter(period: Period, startDate: Option<Day>, endDate: Option<Day>)

  datatype Interval = Interval(lo: Day, hi: Day)

  /** The interval the page builds for a period, or `None` when it filters
      nothing (custom with a date left empty). */
  function PeriodInterval(f: PeriodFilter, now: Day): (r: Option<Interval>)
    ensures r.None? <==> f.period == Custom && (f.startDate.None? || f.endDate.None?)
  {
    match f.period
    case Custom =>
      if f.startDate.Some? && f.endDate.Some? then Some(Interval(f.startDate.value, f.endDate.value)) else None
    case CurrentMonth =>
      Some(Interval(JsDate(now.year, now.month, 1), JsDate(now.year, now.month + 1, 0)))
    case LastMonth =>
      Some(Interval(JsDate(now.year, now.month - 1, 1), JsDate(now.year, now.month, 0)))
    case CurrentYear =>
      Some(Interval(JsDate(now.year, 0, 1), JsDate(now.year, 11, 31)))
  }

  function Within(iv: Interval): Transaction -> bool
  {
    (t: Transaction) => InRange(t.date, iv.lo, iv.hi)
  }

  /** The transactions the report covers. */
  function FilterByPeriod(txs: seq<Transaction>, f: PeriodFilter, now: Day): (r: seq<Transaction>)
    ensures |r| <= |txs|
    ensures forall t :: t in r <==> t in txs && Covers(f, now, t.date)
    ensures f.period == Custom && (f.startDate.None? || f.endDate.None?) ==> r == txs
  {
    match PeriodInterval(f, now)
    case None => txs
    case Some(iv) =>
      forall d: Day ensures InRange(d, iv.lo, iv.hi) <==> Covers(f, now, d) {
        IntervalMeaning(f, now, d);
      }
      Filter(txs, Within(iv))
  }

  /** The month before the month of `now`, as (year, 0-based month). */
  function MonthBefore(now: Day): (int, int)
  {
    if now.month == 0 then (now.year - 1, 11) else (now.year, now.month - 1)
  }

  /** What each period means on the calendar, independently of how the page
      computes its bounds. */
  predicate Covers(f: PeriodFilter, now: Day, d: Day)
  {
    match f.period
    case Custom =>
      f.startDate.None? || f.endDate.None? || (LessEq(f.startDate.value, d) && LessEq(d, f.endDate.value))
    case CurrentMonth => d.year == now.year && d.month == now.month
    case LastMonth => (d.year, d.month) == MonthBefore(now)
    case CurrentYear => d.year == now.year
  }

  /** Two month numbers counted from year 0 are equal only for the same year
      and month. */
  lemma MonthIndexUnique(y1: int, m1: int, y2: int, m2: int)
    requires 0 <= m1 < 12 && 0 <= m2 < 12
    requires 12 * y1 + m1 == 12 * y2 + m2
    ensures y1 == y2 && m1 == m2
  {
  }

  /** The interval from the first to the last day of a month holds exactly
      the days of that month. */
  lemma WholeMonth(iv: Interval, d: Day)
    requires iv.lo.year == iv.hi.year && iv.lo.month == iv.hi.month
    requires iv.lo.day == 1 && iv.hi.day == DaysInMonth(iv.hi.year, iv.hi.month)
    ensures InRange(d, iv.lo, iv.hi) <==> d.year == iv.lo.year && d.month == iv.lo.month
  {
  }

  /** The bounds the page builds cover exactly the days `Covers` names. */
  lemma IntervalMeaning(f: PeriodFilter, now: Day, d: Day)
    requires PeriodInterval(f, now).Some?
    ensures InRange(d, PeriodInterval(f, now).value.lo, PeriodInterval(f, now).value.hi) <==> Covers(f, now, d)
  {
    var iv := PeriodInterval(f, now).value;
    match f.period
    case Custom =>
    case CurrentMonth =>
      MonthIndexUnique(iv.lo.year, iv.lo.month, now.year, now.month);
      MonthIndexUnique(iv.hi.year, iv.hi.month, now.year, now.month);
      WholeMonth(iv, d);
    case LastMonth =>
      var (py, pm) := MonthBefore(now);
      MonthIndexUnique(iv.lo.year, iv.lo.month, py, pm);
      MonthIndexUnique(iv.hi.year, iv.hi.month, py, pm);
      WholeMonth(iv, d);
    case CurrentYear =>
  }
}
