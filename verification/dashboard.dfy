/** The dashboard: the month selector, the summary cards computed over the
    selected month, the per-source income and expense, and the guarded
    ratios shown on the cards. */
module Dashboard {
  import opened Values
  import opened Seqs
  import opened Calendar
  import opened Records
  import ReportPeriods
  import ReportTotals

  /** The options of the month select. */
  datatype Selector = Current | LastMonth | Last3Months | Last6Months | AllTime

  /** The (year, month) the selector narrows to, as the page computes it;
      the other options narrow nothing. */
  function TargetMonth(sel: Selector, now: Day): (r: Option<(int, int)>)
    ensures r.Some? <==> sel == Current || sel == LastMonth
    ensures sel == Current ==> r == Some((now.year, now.month))
    ensures sel == LastMonth ==> r.Some? && 0 <= r.value.1 < 12
                                 && 12 * r.value.0 + r.value.1 == 12 * now.year + now.month - 1
  {
    match sel
    case Current => Some((now.year, now.month))
    case LastMonth =>
      var lastMonth := if now.month == 0 then 11 else now.month - 1;
      var lastMonthYear := if now.month == 0 then now.year - 1 else now.year;
      Some((lastMonthYear, lastMonth))
    case _ => None
  }

  /** Whether a transaction belongs to the selected month. */
  predicate InPeriod(sel: Selector, now: Day, t: Transaction)
  {
    match TargetMonth(sel, now)
    case None => true
    case Some(target) => t.date.month == target.1 && t.date.year == target.0
  }

  function InPeriodFn(sel: Selector, now: Day): Transaction -> bool
  {
    (t: Transaction) => InPeriod(sel, now, t)
  }

  /** The transactions stored for display: narrowed to the month for
      `current` and `last_month`, all of them for any other option. */
  function Displayed(txs: seq<Transaction>, sel: Selector, now: Day): (r: seq<Transaction>)
    ensures |r| <= |txs|
    ensures forall t :: t in r <==> t in txs && InPeriod(sel, now, t)
    ensures TargetMonth(sel, now).None? ==> r == txs
  {
    if sel == AllTime || TargetMonth(sel, now).None? then txs else Filter(txs, InPeriodFn(sel, now))
  }

  /** The narrowing the summary applies before summing one type. */
  function OfTypeIn(sel: Selector, now: Day, kind: string): Transaction -> bool
  {
    (t: Transaction) => t.kind == kind && InPeriod(sel, now, t)
  }

  /** The truthy `source_id`s of the list, in order. */
  function SourceIds(txs: seq<Transaction>): (r: seq<string>)
    ensures forall id :: id in r ==> id != "" && exists t :: t in txs && t.sourceId == Some(id)
    ensures forall t :: t in txs && Truthy(t.sourceId) ==> t.sourceId.value in r
  {
    if |txs| == 0 then []
    else
      var rest := SourceIds(txs[1..]);
      assert forall t :: t in txs <==> t == txs[0] || t in txs[1..];
      (if Truthy(txs[0].sourceId) then [txs[0].sourceId.value] else []) + rest
  }

  datatype SourceName = SourceName(id: string, name: string)

  /** The value of one `sourcesSummary` key; the sums are JavaScript numbers. */
  datatype SourceTotals = SourceTotals(name: string, income: Num, expense: Num)

  /** `sourcesSummary`: a JavaScript object from source id to totals, kept as
      its keys in insertion order and its values. */
  datatype SourceTable = SourceTable(keys: seq<string>, vals: map<string, SourceTotals>)

  predicate WellFormed(tb: SourceTable)
  {
    NoDups(tb.keys) && (forall k :: k in tb.keys ==> k in tb.vals) && (forall k :: k in tb.vals ==> k in tb.keys)
  }

  const EMPTY_TABLE := SourceTable([], map[])

  /** `obj[k] = v`: a new key goes to the end, an existing one keeps its place. */
  function Assign(tb: SourceTable, k: string, v: SourceTotals): (r: SourceTable)
    requires WellFormed(tb)
    ensures WellFormed(r)
    ensures r.vals == tb.vals[k := v]
    ensures |tb.keys| <= |r.keys| && r.keys[..|tb.keys|] == tb.keys
  {
    if k in tb.vals then SourceTable(tb.keys, tb.vals[k := v])
    else
      var keys := tb.keys + [k];
      assert forall j :: 0 <= j < |tb.keys| ==> keys[j] == tb.keys[j];
      SourceTable(keys, tb.vals[k := v])
  }

  /** The name the lookup gives last for `id`: later rows overwrite earlier
      ones. */
  function LastNameFor(data: seq<SourceName>, id: string): (r: Option<string>)
    ensures r.Some? <==> exists s :: s in data && s.id == id
  {
    if |data| == 0 then None
    else
      var later := LastNameFor(data[1..], id);
      assert forall s :: s in data <==> s == data[0] || s in data[1..];
      if later.Some? then later else if data[0].id == id then Some(data[0].name) else None
  }

  function Seeded(name: string): SourceTotals
  {
    SourceTotals(name, Finite(0.0), Finite(0.0))
  }

  /** The `forEach` over the lookup's rows that starts every source at zero. */
  function SeedFrom(tb: SourceTable, data: seq<SourceName>): SourceTable
    requires WellFormed(tb)
    decreases |data|
  {
    if |data| == 0 then tb else SeedFrom(Assign(tb, data[0].id, Seeded(data[0].name)), data[1..])
  }

  lemma SeedFromMeaning(tb: SourceTable, data: seq<SourceName>)
    requires WellFormed(tb)
    ensures WellFormed(SeedFrom(tb, data))
    ensures forall k :: k in SeedFrom(tb, data).vals <==> k in tb.vals || LastNameFor(data, k).Some?
    ensures forall k :: LastNameFor(data, k).Some? ==> SeedFrom(tb, data).vals[k] == Seeded(LastNameFor(data, k).value)
    ensures forall k :: k in tb.vals && LastNameFor(data, k).None? ==> SeedFrom(tb, data).vals[k] == tb.vals[k]
  {
    SeedFromWellFormed(tb, data);
    forall k ensures (k in SeedFrom(tb, data).vals <==> k in tb.vals || LastNameFor(data, k).Some?)
                     && (LastNameFor(data, k).Some? ==> SeedFrom(tb, data).vals[k] == Seeded(LastNameFor(data, k).value))
                     && (k in tb.vals && LastNameFor(data, k).None? ==> SeedFrom(tb, data).vals[k] == tb.vals[k]) {
      SeedFromAt(tb, data, k);
    }
  }

  lemma {:induction false} SeedFromWellFormed(tb: SourceTable, data: seq<SourceName>)
    requires WellFormed(tb)
    ensures WellFormed(SeedFrom(tb, data))
    decreases |data|
  {
    if |data| > 0 {
      SeedFromWellFormed(Assign(tb, data[0].id, Seeded(data[0].name)), data[1..]);
    }
  }

  lemma {:induction false} SeedFromAt(tb: SourceTable, data: seq<SourceName>, k: string)
    requires WellFormed(tb)
    ensures k in SeedFrom(tb, data).vals <==> k in tb.vals || LastNameFor(data, k).Some?
    ensures LastNameFor(data, k).Some? ==> SeedFrom(tb, data).vals[k] == Seeded(LastNameFor(data, k).value)
    ensures k in tb.vals && LastNameFor(data, k).None? ==> SeedFrom(tb, data).vals[k] == tb.vals[k]
    decreases |data|
  {
    if |data| > 0 {
      SeedFromAt(Assign(tb, data[0].id, Seeded(data[0].name)), data[1..], k);
    }
  }

  /** The table of every source the lookup returns, each at zero income and
      zero expense, under the last name the lookup gives it. */
  function Seed(data: seq<SourceName>): (r: SourceTable)
    ensures WellFormed(r)
    ensures forall k :: k in r.vals <==> exists s :: s in data && s.id == k
    ensures forall k :: k in r.vals ==> r.vals[k] == Seeded(LastNameFor(data, k).value)
  {
    SeedFromMeaning(EMPTY_TABLE, data);
    SeedFrom(EMPTY_TABLE, data)
  }

  function FromSource(id: string): Transaction -> bool
  {
    (t: Transaction) => Truthy(t.sourceId) && t.sourceId == Some(id)
  }

  /** One `sourcesSummary[t.source_id].income += parseFloat(t.amount)` (or
      `.expense`), done only when `t.source_id && sourcesSummary[t.source_id]`. */
  function Credit(tb: SourceTable, t: Transaction, toIncome: bool): (r: SourceTable)
    ensures r.keys == tb.keys && r.vals.Keys == tb.vals.Keys
    ensures forall k :: k in tb.vals && !FromSource(k)(t) ==> r.vals[k] == tb.vals[k]
    ensures forall k :: k in tb.vals && FromSource(k)(t) ==>
              r.vals[k] == if toIncome then tb.vals[k].(income := Add(tb.vals[k].income, ParseAmount(t.amount)))
                           else tb.vals[k].(expense := Add(tb.vals[k].expense, ParseAmount(t.amount)))
  {
    if Truthy(t.sourceId) && t.sourceId.value in tb.vals then
      var id := t.sourceId.value;
      var v := tb.vals[id];
      var x := ParseAmount(t.amount);
      SourceTable(tb.keys, tb.vals[id := if toIncome then v.(income := Add(v.income, x)) else v.(expense := Add(v.expense, x))])
    else tb
  }

  /** The `forEach` that credits every transaction of the list in turn. */
  function Accumulate(tb: SourceTable, txs: seq<Transaction>, toIncome: bool): (r: SourceTable)
    ensures r.keys == tb.keys && r.vals.Keys == tb.vals.Keys
    decreases |txs|
  {
    if |txs| == 0 then tb else Accumulate(Credit(tb, txs[0], toIncome), txs[1..], toIncome)
  }

  /** Crediting leaves the keys alone and adds to each source, starting from
      its value, the amounts of the transactions that name it. */
  lemma AccumulateMeaning(tb: SourceTable, txs: seq<Transaction>, toIncome: bool)
    ensures Accumulate(tb, txs, toIncome).keys == tb.keys
    ensures Accumulate(tb, txs, toIncome).vals.Keys == tb.vals.Keys
    ensures forall k :: k in tb.vals ==>
              Accumulate(tb, txs, toIncome).vals[k].name == tb.vals[k].name
              && Accumulate(tb, txs, toIncome).vals[k].income
                 == (if toIncome then JsSumFrom(tb.vals[k].income, AmountsOf(Filter(txs, FromSource(k)))) else tb.vals[k].income)
              && Accumulate(tb, txs, toIncome).vals[k].expense
                 == (if toIncome then tb.vals[k].expense else JsSumFrom(tb.vals[k].expense, AmountsOf(Filter(txs, FromSource(k)))))
  {
    forall k | k in tb.vals
      ensures Accumulate(tb, txs, toIncome).vals[k] == Credited(tb.vals[k], txs, k, toIncome)
    {
      AccumulateAt(tb, txs, toIncome, k);
    }
  }

  /** A source's totals after every transaction naming it is credited. */
  function Credited(v: SourceTotals, txs: seq<Transaction>, k: string, toIncome: bool): SourceTotals
  {
    if toIncome then v.(income := JsSumFrom(v.income, AmountsOf(Filter(txs, FromSource(k)))))
    else v.(expense := JsSumFrom(v.expense, AmountsOf(Filter(txs, FromSource(k)))))
  }

  lemma {:induction false} AccumulateAt(tb: SourceTable, txs: seq<Transaction>, toIncome: bool, k: string)
    requires k in tb.vals
    ensures k in Accumulate(tb, txs, toIncome).vals
    ensures Accumulate(tb, txs, toIncome).vals[k] == Credited(tb.vals[k], txs, k, toIncome)
    decreases |txs|
  {
    if |txs| > 0 {
      var next := Credit(tb, txs[0], toIncome);
      assert k in next.vals;
      AccumulateAt(next, txs[1..], toIncome, k);
      if toIncome {
        AmountsStep(txs, k, tb.vals[k].income);
      } else {
        AmountsStep(txs, k, tb.vals[k].expense);
      }
    }
  }

  /** The amounts credited to source `k`: the first row's, if it names `k`,
      then the rest's. */
  lemma AmountsStep(txs: seq<Transaction>, k: string, acc: Num)
    requires |txs| > 0
    ensures JsSumFrom(acc, AmountsOf(Filter(txs, FromSource(k))))
            == JsSumFrom(if FromSource(k)(txs[0]) then Add(acc, ParseAmount(txs[0].amount)) else acc,
                         AmountsOf(Filter(txs[1..], FromSource(k))))
  {
    var t := txs[0];
    var head := if FromSource(k)(t) then [t] else [];
    var rest := Filter(txs[1..], FromSource(k));
    assert Filter(txs, FromSource(k)) == head + rest;
    AmountsOfAppend(head, rest);
    var xs := AmountsOf(rest);
    if FromSource(k)(t) {
      assert AmountsOf(head) == [t.amount];
      assert ([t.amount] + xs)[1..] == xs;
    } else {
      assert AmountsOf(head) + xs == xs;
    }
  }

  function IncomeFrom(id: string): Transaction -> bool
  {
    (t: Transaction) => IsIncome(t) && FromSource(id)(t)
  }

  function ExpenseFrom(id: string): Transaction -> bool
  {
    (t: Transaction) => IsExpense(t) && FromSource(id)(t)
  }

  /** `allSourceIds`: the truthy source ids of the income rows, then of the
      expense rows. */
  function AllSourceIds(txs: seq<Transaction>): seq<string>
  {
    SourceIds(Filter(txs, IsIncome)) + SourceIds(Filter(txs, IsExpense))
  }

  /** The ids the page asks the lookup for: each source named by an income or
      expense row of the list, once. */
  lemma LookupRequest(txs: seq<Transaction>)
    ensures NoDups(Dedupe(AllSourceIds(txs)))
    ensures forall id :: id in Dedupe(AllSourceIds(txs)) <==>
              id != "" && exists t :: t in txs && (IsIncome(t) || IsExpense(t)) && t.sourceId == Some(id)
  {
    var ids := AllSourceIds(txs);
    forall id ensures id in ids <==> id != "" && exists t :: t in txs && (IsIncome(t) || IsExpense(t)) && t.sourceId == Some(id) {
      if id != "" && exists t :: t in txs && (IsIncome(t) || IsExpense(t)) && t.sourceId == Some(id) {
        var t :| t in txs && (IsIncome(t) || IsExpense(t)) && t.sourceId == Some(id);
        if IsIncome(t) {
          assert t in Filter(txs, IsIncome);
        } else {
          assert t in Filter(txs, IsExpense);
        }
      }
    }
  }

  /** The sources table before any amount is added: the lookup's sources,
      asked for only when some row names a source, and nothing if the lookup
      fails. */
  function SeedFor(txs: seq<Transaction>, lookup: seq<string> -> Result<seq<SourceName>>): (r: SourceTable)
    ensures WellFormed(r)
    ensures |AllSourceIds(txs)| == 0 ==> r == EMPTY_TABLE
  {
    var ids := AllSourceIds(txs);
    if |ids| > 0 then
      match lookup(Dedupe(ids))
      case Ok(data) => Seed(data)
      case Err(_) => EMPTY_TABLE
    else EMPTY_TABLE
  }

  /** `sourcesSummary` of a list: seeded from the lookup, then credited with
      the income rows and the expense rows. */
  function SourcesSummary(txs: seq<Transaction>, lookup: seq<string> -> Result<seq<SourceName>>): (r: SourceTable)
    ensures WellFormed(r)
    ensures r.keys == SeedFor(txs, lookup).keys
    ensures forall k :: k in r.vals ==>
              r.vals[k].name == SeedFor(txs, lookup).vals[k].name
              && r.vals[k].income == JsSum(AmountsOf(Filter(txs, IncomeFrom(k))))
              && r.vals[k].expense == JsSum(AmountsOf(Filter(txs, ExpenseFrom(k))))
  {
    var seeded := SeedFor(txs, lookup);
    var withIncome := Accumulate(seeded, Filter(txs, IsIncome), true);
    var r := Accumulate(withIncome, Filter(txs, IsExpense), false);
    AccumulateMeaning(seeded, Filter(txs, IsIncome), true);
    AccumulateMeaning(withIncome, Filter(txs, IsExpense), false);
    forall k ensures Filter(Filter(txs, IsIncome), FromSource(k)) == Filter(txs, IncomeFrom(k))
                  && Filter(Filter(txs, IsExpense), FromSource(k)) == Filter(txs, ExpenseFrom(k)) {
      FilterFilter(txs, FromSource(k), IsIncome, IncomeFrom(k));
      FilterFilter(txs, FromSource(k), IsExpense, ExpenseFrom(k));
    }
    r
  }

  /** A source's income on the dashboard is NaN as soon as one of its income
      rows lacks an amount (it is shown as 0); otherwise it is the sum of
      those rows' amounts. The same holds for expense. */
  lemma SourceTotalsMeaning(txs: seq<Transaction>, lookup: seq<string> -> Result<seq<SourceName>>, k: string)
    requires k in SourcesSummary(txs, lookup).vals
    ensures SourcesSummary(txs, lookup).vals[k].income.Finite?
            <==> forall t :: t in txs && IncomeFrom(k)(t) ==> t.amount.Some?
    ensures SourcesSummary(txs, lookup).vals[k].income.Finite?
            ==> SourcesSummary(txs, lookup).vals[k].income.v == SumWhere(txs, IncomeFrom(k), Amount)
    ensures SourcesSummary(txs, lookup).vals[k].expense.Finite?
            <==> forall t :: t in txs && ExpenseFrom(k)(t) ==> t.amount.Some?
    ensures SourcesSummary(txs, lookup).vals[k].expense.Finite?
            ==> SourcesSummary(txs, lookup).vals[k].expense.v == SumWhere(txs, ExpenseFrom(k), Amount)
  {
    ReportTotals.SelectionSum(txs, IncomeFrom(k));
    ReportTotals.SelectionSum(txs, ExpenseFrom(k));
  }

  datatype DashSummary = DashSummary(totalIncome: real, totalExpense: real, balance: real,
                                     transactionCount: nat, sources: SourceTable)

  /** The summary the page falls back to when the summary fetch fails. */
  const ZERO_SUMMARY := DashSummary(0.0, 0.0, 0.0, 0, EMPTY_TABLE)

  /** The page's summary: over the selected month (or everything) unless the
      summary fetch failed, in which case all zero and no sources. */
  function Summarize(fetched: seq<Transaction>, sel: Selector, now: Day, summaryFailed: bool,
                     lookup: seq<string> -> Result<seq<SourceName>>): (r: DashSummary)
    ensures summaryFailed ==> r == ZERO_SUMMARY
    ensures !summaryFailed ==>
              r.totalIncome == ReportTotals.ReportSummary(Displayed(fetched, sel, now)).totalIncome
              && r.totalExpense == ReportTotals.ReportSummary(Displayed(fetched, sel, now)).totalExpense
              && r.transactionCount == |Displayed(fetched, sel, now)|
              && r.sources == SourcesSummary(Displayed(fetched, sel, now), lookup)
    ensures r.balance == r.totalIncome - r.totalExpense
  {
    if summaryFailed then ZERO_SUMMARY
    else
      var income := Total(Filter(fetched, OfTypeIn(sel, now, INCOME)));
      var expense := Total(Filter(fetched, OfTypeIn(sel, now, EXPENSE)));
      var inPeriod := Filter(fetched, InPeriodFn(sel, now));
      SameAsDisplayed(fetched, sel, now);
      ReportTotals.TotalIsSumWhere(Filter(fetched, OfTypeIn(sel, now, INCOME)));
      ReportTotals.TotalIsSumWhere(Filter(fetched, OfTypeIn(sel, now, EXPENSE)));
      SumOfFilter(fetched, OfTypeIn(sel, now, INCOME), ReportTotals.Everything, Amount);
      SumOfFilter(fetched, OfTypeIn(sel, now, EXPENSE), ReportTotals.Everything, Amount);
      SumWhereOfFilter(fetched, InPeriodFn(sel, now), IsIncome, OfTypeIn(sel, now, INCOME), Amount);
      SumWhereOfFilter(fetched, InPeriodFn(sel, now), IsExpense, OfTypeIn(sel, now, EXPENSE), Amount);
      DashSummary(income, expense, income - expense, |inPeriod|, SourcesSummary(inPeriod, lookup))
  }

  /** The list the summary filters for its count and its sources is the list
      stored for display. */
  lemma SameAsDisplayed(txs: seq<Transaction>, sel: Selector, now: Day)
    ensures Filter(txs, InPeriodFn(sel, now)) == Displayed(txs, sel, now)
  {
    if TargetMonth(sel, now).None? {
      FilterKeepsAll(txs, InPeriodFn(sel, now));
    }
  }

  /** `current` and `last_month` narrow the list exactly as the reports
      page's `current_month` and `last_month` periods do. */
  lemma DisplayedAgreesWithReports(txs: seq<Transaction>, now: Day)
    ensures Displayed(txs, Current, now)
            == ReportPeriods.FilterByPeriod(txs, ReportPeriods.PeriodFilter(ReportPeriods.CurrentMonth, None, None), now)
    ensures Displayed(txs, LastMonth, now)
            == ReportPeriods.FilterByPeriod(txs, ReportPeriods.PeriodFilter(ReportPeriods.LastMonth, None, None), now)
  {
    var cur := ReportPeriods.PeriodFilter(ReportPeriods.CurrentMonth, None, None);
    var last := ReportPeriods.PeriodFilter(ReportPeriods.LastMonth, None, None);
    var ivCur := ReportPeriods.PeriodInterval(cur, now).value;
    var ivLast := ReportPeriods.PeriodInterval(last, now).value;
    forall t: Transaction
      ensures InPeriod(Current, now, t) <==> ReportPeriods.Within(ivCur)(t)
      ensures InPeriod(LastMonth, now, t) <==> ReportPeriods.Within(ivLast)(t)
    {
      ReportPeriods.IntervalMeaning(cur, now, t.date);
      ReportPeriods.IntervalMeaning(last, now, t.date);
      var target := TargetMonth(LastMonth, now).value;
      ReportPeriods.MonthIndexUnique(target.0, target.1, ReportPeriods.MonthBefore(now).0, ReportPeriods.MonthBefore(now).1);
    }
    FilterSame(txs, InPeriodFn(Current, now), ReportPeriods.Within(ivCur));
    FilterSame(txs, InPeriodFn(LastMonth, now), ReportPeriods.Within(ivLast));
  }

  /** `Math.max(0, (income || 0) - (expense || 0))`: a source's displayed
      net, never negative. */
  function SourceNet(v: SourceTotals): (r: real)
    ensures r >= 0.0 && r >= OrZero(v.income) - OrZero(v.expense)
    ensures r == 0.0 || r == OrZero(v.income) - OrZero(v.expense)
  {
    var d := OrZero(v.income) - OrZero(v.expense);
    if d > 0.0 then d else 0.0
  }

  /** `Object.entries(sourcesSummary)`. */
  function Entries(tb: SourceTable): (r: seq<(string, SourceTotals)>)
    requires WellFormed(tb)
    ensures |r| == |tb.keys|
    ensures forall i :: 0 <= i < |r| ==> r[i].0 == tb.keys[i] && r[i].1 == tb.vals[tb.keys[i]]
  {
    EntriesOf(tb.keys, tb.vals)
  }

  function EntriesOf(keys: seq<string>, vals: map<string, SourceTotals>): (r: seq<(string, SourceTotals)>)
    requires forall k :: k in keys ==> k in vals
    ensures |r| == |keys|
    ensures forall i :: 0 <= i < |r| ==> r[i] == (keys[i], vals[keys[i]])
  {
    if |keys| == 0 then [] else [(keys[0], vals[keys[0]])] + EntriesOf(keys[1..], vals)
  }

  /** The distribution panel: the first five entries. */
  function Distribution(tb: SourceTable): (r: seq<(string, SourceTotals)>)
    requires WellFormed(tb)
    ensures |r| <= 5
    ensures |r| == if |tb.keys| <= 5 then |tb.keys| else 5
    ensures forall i :: 0 <= i < |r| ==> r[i] == (tb.keys[i], tb.vals[tb.keys[i]])
  {
    Take(Entries(tb), 5)
  }

  /** The savings rate card in percent, `None` standing for the literal "0%"
      shown when there is no income. */
  function SavingsRate(income: real, expense: real): (r: Option<real>)
    ensures r.None? <==> income <= 0.0
    ensures r.Some? ==> r.value * income == 100.0 * (if income - expense > 0.0 then income - expense else 0.0)
    ensures r.Some? ==> r.value >= 0.0
    ensures r.Some? && expense >= 0.0 ==> r.value <= 100.0
  {
    if income > 0.0 then
      var saved := if income - expense > 0.0 then income - expense else 0.0;
      Some(saved / income * 100.0)
    else None
  }

  /** The "of Budget" figure: expense as a percentage of income, under the
      same guard. */
  function BudgetRatio(income: real, expense: real): (r: Option<real>)
    ensures r.None? <==> income <= 0.0
    ensures r.Some? ==> r.value * income == 100.0 * expense
    ensures r.Some? && expense >= 0.0 ==> r.value >= 0.0
  {
    if income > 0.0 then Some(expense / income * 100.0) else None
  }

  const CIRCUMFERENCE: real := 376.99

  /** The ring's `stroke-dashoffset`: the circumference less the share of it
      the budget ratio covers, or the whole circumference without income. */
  function RingOffset(income: real, expense: real): (r: real)
    ensures BudgetRatio(income, expense).None? ==> r == CIRCUMFERENCE
    ensures BudgetRatio(income, expense).Some? ==>
              r == CIRCUMFERENCE - CIRCUMFERENCE * BudgetRatio(income, expense).value / 100.0
  {
    if income > 0.0 then CIRCUMFERENCE - (CIRCUMFERENCE * expense / income) else CIRCUMFERENCE
  }
}
