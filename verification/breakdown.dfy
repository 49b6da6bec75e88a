/** The dashboard's account breakdown doughnut: income and expense
    categories with the totals of their matching transactions, one slice per
    category with a positive total, and the three-entry legends. */
module Breakdown {
  import opened Values
  import opened Seqs
  import opened Records
  import ReportTotals

  /** The chart's own `filterType` select: all, income or expense. */
  datatype ChartFilter = Both | IncomeOnly | ExpenseOnly

  function CategoryOf(kind: string): Category -> bool
  {
    (c: Category) => c.kind == kind
  }

  /** `filteredCategories`: the income categories, the expense categories,
      or both lists one after the other. */
  function ChartCategories(cats: seq<Category>, f: ChartFilter): (r: seq<Category>)
    ensures f == IncomeOnly ==> forall c :: c in r <==> c in cats && c.kind == INCOME
    ensures f == ExpenseOnly ==> forall c :: c in r <==> c in cats && c.kind == EXPENSE
    ensures f == Both ==> forall c :: c in r <==> c in cats && (c.kind == INCOME || c.kind == EXPENSE)
    ensures forall i, j :: 0 <= i < j < |r| && r[j].kind == INCOME ==> r[i].kind == INCOME
  {
    var incomes := Filter(cats, CategoryOf(INCOME));
    var expenses := Filter(cats, CategoryOf(EXPENSE));
    match f
    case IncomeOnly => incomes
    case ExpenseOnly => expenses
    case Both =>
      var r := incomes + expenses;
      assert forall i :: |incomes| <= i < |r| ==> r[i] in expenses;
      r
  }

  /** The transactions counted for a category: its id and its type. */
  function Counted(c: Category): Transaction -> bool
  {
    (t: Transaction) => t.categoryId == Some(c.id) && t.kind == c.kind
  }

  datatype Share = Share(category: Category, total: real)

  function ShareOf(txs: seq<Transaction>, c: Category): (r: Share)
    ensures r.category == c && r.total == SumWhere(txs, Counted(c), Amount)
  {
    var rows := Filter(txs, Counted(c));
    ReportTotals.TotalIsSumWhere(rows);
    SumOfFilter(txs, Counted(c), ReportTotals.Everything, Amount);
    Share(c, Total(rows))
  }

  function SharesOf(txs: seq<Transaction>, cats: seq<Category>): (r: seq<Share>)
    ensures |r| == |cats|
    ensures forall i :: 0 <= i < |cats| ==> r[i] == ShareOf(txs, cats[i])
  {
    if |cats| == 0 then [] else [ShareOf(txs, cats[0])] + SharesOf(txs, cats[1..])
  }

  function PositiveShare(s: Share): bool
  {
    s.total > 0.0
  }

  /** The chart's `categoryTotals`: the shown categories, in order, whose
      counted transactions add up to more than zero. */
  function ChartShares(txs: seq<Transaction>, cats: seq<Category>, f: ChartFilter): (r: seq<Share>)
    ensures forall s :: s in r ==> s.total > 0.0 && s.category in ChartCategories(cats, f)
                                   && s.total == SumWhere(txs, Counted(s.category), Amount)
    ensures forall c :: c in ChartCategories(cats, f) && SumWhere(txs, Counted(c), Amount) > 0.0
                        ==> ShareOf(txs, c) in r
    ensures r == SharesOf(txs, Filter(ChartCategories(cats, f), Drawn(txs)))
  {
    var shown := ChartCategories(cats, f);
    var r := Filter(SharesOf(txs, shown), PositiveShare);
    PositiveShareMembers(txs, shown, r);
    PositiveSharesInOrder(txs, shown);
    r
  }

  /** The positive shares are those of the categories with a positive sum. */
  lemma PositiveShareMembers(txs: seq<Transaction>, shown: seq<Category>, r: seq<Share>)
    requires r == Filter(SharesOf(txs, shown), PositiveShare)
    ensures forall s :: s in r ==> s.total > 0.0 && s.category in shown
                                   && s.total == SumWhere(txs, Counted(s.category), Amount)
    ensures forall c :: c in shown && SumWhere(txs, Counted(c), Amount) > 0.0 ==> ShareOf(txs, c) in r
  {
    var all := SharesOf(txs, shown);
    forall s | s in r ensures s.category in shown && s.total == SumWhere(txs, Counted(s.category), Amount) {
      var i :| 0 <= i < |all| && all[i] == s;
      assert s == ShareOf(txs, shown[i]);
    }
    forall c | c in shown && SumWhere(txs, Counted(c), Amount) > 0.0 ensures ShareOf(txs, c) in r {
      var i :| 0 <= i < |shown| && shown[i] == c;
      assert all[i] == ShareOf(txs, c);
    }
  }

  /** A category with a slice: its counted transactions add up to more than
      zero. */
  function Drawn(txs: seq<Transaction>): Category -> bool
  {
    (c: Category) => SumWhere(txs, Counted(c), Amount) > 0.0
  }

  /** Keeping the positive shares is taking the shares of the drawn
      categories, in their order: one slice per drawn category. */
  lemma {:induction false} PositiveSharesInOrder(txs: seq<Transaction>, cats: seq<Category>)
    ensures Filter(SharesOf(txs, cats), PositiveShare) == SharesOf(txs, Filter(cats, Drawn(txs)))
  {
    if |cats| > 0 {
      var all := SharesOf(txs, cats);
      var kept := Filter(cats, Drawn(txs));
      PositiveSharesInOrder(txs, cats[1..]);
      assert all[0] == ShareOf(txs, cats[0]) && all[1..] == SharesOf(txs, cats[1..]);
      assert PositiveShare(all[0]) == Drawn(txs)(cats[0]);
      if Drawn(txs)(cats[0]) {
        assert kept[0] == cats[0] && kept[1..] == Filter(cats[1..], Drawn(txs));
      } else {
        assert kept == Filter(cats[1..], Drawn(txs));
      }
    }
  }

  /** When every transaction has the type of the category it names, a
      category's slice total is the total the reports page lists for it. */
  lemma SharesAgreeWithReports(txs: seq<Transaction>, c: Category)
    requires forall t :: t in txs && t.categoryId == Some(c.id) ==> t.kind == c.kind
    ensures ShareOf(txs, c).total == ReportTotals.TotalFor(txs, c).total
  {
    SumWhereSame(txs, Counted(c), HasCategory(c.id), Amount, Amount);
  }

  /** `categoryTotals.reduce((sum, cat) => sum + cat.total, 0)`. */
  function TotalAmount(shares: seq<Share>): real
  {
    if |shares| == 0 then 0.0 else shares[0].total + TotalAmount(shares[1..])
  }

  lemma {:induction false} TotalAmountPositive(shares: seq<Share>)
    requires |shares| > 0
    requires forall s :: s in shares ==> s.total > 0.0
    ensures TotalAmount(shares) > 0.0
  {
    assert shares[0] in shares;
    if |shares| > 1 {
      assert forall s :: s in shares[1..] ==> s in shares;
      TotalAmountPositive(shares[1..]);
    }
  }

  /** One drawn slice: the angles where it starts and ends, its sweep and
      whether the SVG arc takes the large-arc route. */
  datatype Arc = Arc(start: real, end: real, sweep: real, largeArc: bool)

  function EndAngle(arcs: seq<Arc>, start: real): real
  {
    if |arcs| == 0 then start else arcs[|arcs| - 1].end
  }

  /** Degrees of a circle a share of `whole` takes. */
  function SweepOf(part: real, whole: real): (r: real)
    requires whole > 0.0
    ensures r * whole == part * 360.0
    ensures r > 180.0 <==> 2.0 * part > whole
    ensures part > 0.0 ==> r > 0.0
  {
    var r := part / whole * 360.0;
    assert r * whole == part * 360.0;
    SweepFacts(r, part, whole);
    r
  }

  lemma MulDistrib(x: real, y: real, w: real)
    ensures (x + y) * w == x * w + y * w
  {
  }

  /** A sweep proportional to a part of a positive whole has the part's sign,
      and passes 180 degrees exactly when the part is over half the whole. */
  lemma SweepFacts(sweep: real, part: real, whole: real)
    requires whole > 0.0 && sweep * whole == part * 360.0
    ensures part > 0.0 ==> sweep > 0.0
    ensures sweep > 180.0 <==> 2.0 * part > whole
  {
    if sweep <= 0.0 {
      assert sweep * whole <= 0.0;
    }
    assert sweep > 180.0 <==> sweep * whole > 180.0 * whole;
  }

  /** A sweep that is the whole of the whole is a full turn. */
  lemma FullTurn(x: real, whole: real, total: real)
    requires whole > 0.0 && whole == total && x * whole == total * 360.0
    ensures x == 360.0
  {
    assert (x - 360.0) * whole == 0.0;
  }

  /** The `map` that draws the slices: each starts where the one before
      ended (`currentAngle`), sweeps its share of 360 degrees, and takes the
      large arc when the sweep is over 180. */
  function ArcsFrom(shares: seq<Share>, whole: real, start: real): (r: seq<Arc>)
    requires whole > 0.0
    ensures |r| == |shares|
    ensures |r| > 0 ==> r[0].start == start
    ensures forall i :: 0 <= i < |r| - 1 ==> r[i + 1].start == r[i].end
    ensures forall i :: 0 <= i < |r| ==>
              r[i].end == r[i].start + r[i].sweep
              && r[i].sweep == SweepOf(shares[i].total, whole)
              && (r[i].largeArc <==> r[i].sweep > 180.0)
  {
    if |shares| == 0 then []
    else
      var sweep := SweepOf(shares[0].total, whole);
      var rest := ArcsFrom(shares[1..], whole, start + sweep);
      var r := [Arc(start, start + sweep, sweep, sweep > 180.0)] + rest;
      assert forall i :: 1 <= i < |r| ==> r[i] == rest[i - 1];
      r
  }

  /** The sweeps of all the shares, added up. */
  function SumSweeps(shares: seq<Share>, whole: real): real
    requires whole > 0.0
  {
    if |shares| == 0 then 0.0 else SweepOf(shares[0].total, whole) + SumSweeps(shares[1..], whole)
  }

  /** The last slice ends where the sweeps, added up, lead. */
  lemma {:induction false} ArcsEnd(shares: seq<Share>, whole: real, start: real)
    requires whole > 0.0
    ensures EndAngle(ArcsFrom(shares, whole, start), start) == start + SumSweeps(shares, whole)
  {
    if |shares| > 0 {
      var sweep := SweepOf(shares[0].total, whole);
      ArcsEnd(shares[1..], whole, start + sweep);
      assert EndAngle(ArcsFrom(shares, whole, start), start)
             == EndAngle(ArcsFrom(shares[1..], whole, start + sweep), start + sweep);
    }
  }

  /** The sweeps of shares add up to the shares' total as a part of the whole. */
  lemma {:induction false} SumSweepsScale(shares: seq<Share>, whole: real)
    requires whole > 0.0
    ensures SumSweeps(shares, whole) * whole == TotalAmount(shares) * 360.0
  {
    if |shares| > 0 {
      var sweep := SweepOf(shares[0].total, whole);
      var rest := SumSweeps(shares[1..], whole);
      SumSweepsScale(shares[1..], whole);
      MulDistrib(sweep, rest, whole);
    }
  }

  /** Slices of positive shares, drawn from the top, go once around. */
  lemma DrawnArcs(shares: seq<Share>)
    requires |shares| > 0
    requires forall s :: s in shares ==> s.total > 0.0
    ensures TotalAmount(shares) > 0.0
    ensures var r := ArcsFrom(shares, TotalAmount(shares), -90.0);
            r[|r| - 1].end == 270.0 && forall i :: 0 <= i < |r| ==> r[i].sweep > 0.0
  {
    TotalAmountPositive(shares);
    var whole := TotalAmount(shares);
    var r := ArcsFrom(shares, whole, -90.0);
    forall i | 0 <= i < |r| ensures r[i].sweep > 0.0 {
      assert shares[i] in shares;
    }
    ArcsEnd(shares, whole, -90.0);
    SweepsFullTurn(shares);
  }

  /** The sweeps of shares of their own total add up to 360 degrees. */
  lemma SweepsFullTurn(shares: seq<Share>)
    requires TotalAmount(shares) > 0.0
    ensures SumSweeps(shares, TotalAmount(shares)) == 360.0
  {
    SumSweepsScale(shares, TotalAmount(shares));
    FullTurn(SumSweeps(shares, TotalAmount(shares)), TotalAmount(shares), TotalAmount(shares));
  }

  /** The chart drawn when there is something to draw: slice i sweeps the
      share of 360 degrees that charted category i has of the charted
      total; the first slice starts at -90 degrees (the top), and together
      the slices go once around the circle, so the last ends at 270. */
  function Chart(txs: seq<Transaction>, cats: seq<Category>, f: ChartFilter): (r: seq<Arc>)
    ensures |r| == |ChartShares(txs, cats, f)|
    ensures |r| > 0 ==> r[0].start == -90.0 && r[|r| - 1].end == 270.0
    ensures forall i :: 0 <= i < |r| - 1 ==> r[i + 1].start == r[i].end
    ensures forall i :: 0 <= i < |r| ==>
              r[i].sweep > 0.0 && (r[i].largeArc <==> r[i].sweep > 180.0)
    ensures |r| > 0 ==>
              TotalAmount(ChartShares(txs, cats, f)) > 0.0
              && forall i :: 0 <= i < |r| ==>
                   r[i].sweep == SweepOf(ChartShares(txs, cats, f)[i].total, TotalAmount(ChartShares(txs, cats, f)))
  {
    var shares := ChartShares(txs, cats, f);
    if |shares| == 0 then []
    else
      DrawnArcs(shares);
      ArcsFrom(shares, TotalAmount(shares), -90.0)
  }

  /** A legend line: the category and its amount text. */
  datatype LegendItem = LegendItem(category: Category, text: string)

  /** The legend amount: "Rp" and the formatted total when positive, "Rp0"
      otherwise; `format` stands for `toLocaleString`. */
  function LegendLabel(total: real, format: real -> string): (r: string)
    ensures total <= 0.0 ==> r == "Rp0"
    ensures total > 0.0 ==> r == "Rp" + format(total)
  {
    if total > 0.0 then "Rp" + format(total) else "Rp0"
  }

  function LegendItems(txs: seq<Transaction>, cats: seq<Category>, format: real -> string): (r: seq<LegendItem>)
    ensures |r| == |cats|
    ensures forall i :: 0 <= i < |r| ==>
              r[i].category == cats[i] && r[i].text == LegendLabel(SumWhere(txs, Counted(cats[i]), Amount), format)
  {
    if |cats| == 0 then []
    else [LegendItem(cats[0], LegendLabel(ShareOf(txs, cats[0]).total, format))] + LegendItems(txs, cats[1..], format)
  }

  function Min3(n: nat): nat
  {
    if n <= 3 then n else 3
  }

  /** The two legends under the chart: the first three income categories
      unless the filter is expense, the first three expense categories
      unless it is income, listed whether or not they have a slice. */
  function Legend(txs: seq<Transaction>, cats: seq<Category>, f: ChartFilter, format: real -> string)
    : (r: (seq<LegendItem>, seq<LegendItem>))
    ensures |r.0| <= 3 && |r.1| <= 3
    ensures f == ExpenseOnly ==> |r.0| == 0
    ensures f != ExpenseOnly ==> |r.0| == Min3(|Filter(cats, CategoryOf(INCOME))|)
    ensures f == IncomeOnly ==> |r.1| == 0
    ensures f != IncomeOnly ==> |r.1| == Min3(|Filter(cats, CategoryOf(EXPENSE))|)
    ensures forall i :: 0 <= i < |r.0| ==> r.0[i].category == Filter(cats, CategoryOf(INCOME))[i]
    ensures forall i :: 0 <= i < |r.1| ==> r.1[i].category == Filter(cats, CategoryOf(EXPENSE))[i]
    ensures forall item :: item in r.0 || item in r.1 ==>
              item.category in cats && item.text == LegendLabel(SumWhere(txs, Counted(item.category), Amount), format)
  {
    var incomes := Take(Filter(cats, CategoryOf(INCOME)), 3);
    var expenses := Take(Filter(cats, CategoryOf(EXPENSE)), 3);
    (if f != ExpenseOnly then LegendItems(txs, incomes, format) else [],
     if f != IncomeOnly then LegendItems(txs, expenses, format) else [])
  }
}
