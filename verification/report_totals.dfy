/** The totals of the reports page: the four-figure summary of the covered
    transactions and the per-category totals. */
module ReportTotals {
  import opened Values
  import opened Seqs
  import opened Records

  datatype Summary = Summary(totalIncome: real, totalExpense: real, balance: real, transactionCount: nat)

  function Everything(t: Transaction): bool
  {
    true
  }

  function IsOther(t: Transaction): bool
  {
    !IsIncome(t) && !IsExpense(t)
  }

  /** A sum of amounts over the whole list is the selection of every element. */
  lemma {:induction false} TotalIsSumWhere(txs: seq<Transaction>)
    ensures Total(txs) == SumWhere(txs, Everything, Amount)
  {
    if |txs| > 0 {
      TotalIsSumWhere(txs[1..]);
    }
  }

  /** A JavaScript sum of the amounts of a selection is a number exactly
      when every selected row has an amount, and then it is the sum of those
      amounts. */
  lemma SelectionSum(txs: seq<Transaction>, p: Transaction -> bool)
    ensures JsSum(AmountsOf(Filter(txs, p))).Finite? <==> forall t :: t in txs && p(t) ==> t.amount.Some?
    ensures JsSum(AmountsOf(Filter(txs, p))).Finite? ==> JsSum(AmountsOf(Filter(txs, p))).v == SumWhere(txs, p, Amount)
  {
    var rows := Filter(txs, p);
    JsSumMeaning(AmountsOf(rows));
    RealSumOfAmounts(rows);
    TotalIsSumWhere(rows);
    SumOfFilter(txs, p, Everything, Amount);
    assert AllPresent(AmountsOf(rows)) <==> forall t :: t in rows ==> t.amount.Some? by {
      forall t | t in rows && AllPresent(AmountsOf(rows)) ensures t.amount.Some? {
        var i :| 0 <= i < |rows| && rows[i] == t;
        assert AmountsOf(rows)[i] == t.amount;
      }
    }
  }

  /** The summary of the covered transactions: income and expense filtered
      by type and summed with a missing amount as 0. */
  function ReportSummary(txs: seq<Transaction>): (r: Summary)
    ensures r.totalIncome == SumWhere(txs, IsIncome, Amount)
    ensures r.totalExpense == SumWhere(txs, IsExpense, Amount)
    ensures r.balance == r.totalIncome - r.totalExpense
    ensures r.transactionCount == |txs|
  {
    var incomeRows := Filter(txs, IsIncome);
    var expenseRows := Filter(txs, IsExpense);
    TotalIsSumWhere(incomeRows);
    TotalIsSumWhere(expenseRows);
    SumOfFilter(txs, IsIncome, Everything, Amount);
    SumOfFilter(txs, IsExpense, Everything, Amount);
    var income := Total(incomeRows);
    var expense := Total(expenseRows);
    Summary(income, expense, income - expense, |txs|)
  }

  /** Income, expense and the rows of any other type together make up the
      total of every amount: the summary partitions the list by type. */
  lemma SummaryPartition(txs: seq<Transaction>)
    ensures ReportSummary(txs).totalIncome + ReportSummary(txs).totalExpense
            + SumWhere(txs, IsOther, Amount) == Total(txs)
  {
    TotalIsSumWhere(txs);
    var either := (t: Transaction) => IsIncome(t) || IsExpense(t);
    SumWhereSplit(txs, IsIncome, IsExpense, either, Amount);
    SumWhereSplit(txs, either, IsOther, Everything, Amount);
  }

  /** The summary does not depend on the order of the transactions. */
  lemma SummaryPermutation(txs: seq<Transaction>, ys: seq<Transaction>)
    requires multiset(txs) == multiset(ys)
    ensures ReportSummary(txs) == ReportSummary(ys)
  {
    SumWherePermutation(txs, ys, IsIncome, Amount);
    SumWherePermutation(txs, ys, IsExpense, Amount);
    assert |txs| == |multiset(txs)| == |multiset(ys)| == |ys|;
  }

  /** The summary of two lists put together adds their summaries. */
  lemma SummaryAppend(a: seq<Transaction>, b: seq<Transaction>)
    ensures ReportSummary(a + b).totalIncome == ReportSummary(a).totalIncome + ReportSummary(b).totalIncome
    ensures ReportSummary(a + b).totalExpense == ReportSummary(a).totalExpense + ReportSummary(b).totalExpense
    ensures ReportSummary(a + b).transactionCount == ReportSummary(a).transactionCount + ReportSummary(b).transactionCount
  {
    SumWhereAppend(a, b, IsIncome, Amount);
    SumWhereAppend(a, b, IsExpense, Amount);
  }

  /** One entry of `categoryTotals`: the category with its total and count. */
  datatype CategoryTotal = CategoryTotal(category: Category, total: real, transactionCount: nat)

  /** A category with the transactions that carry its id, of any type. */
  function TotalFor(txs: seq<Transaction>, c: Category): (r: CategoryTotal)
    ensures r.category == c
    ensures r.total == SumWhere(txs, HasCategory(c.id), Amount)
    ensures r.transactionCount == CountWhere(txs, HasCategory(c.id))
  {
    var rows := Filter(txs, HasCategory(c.id));
    TotalIsSumWhere(rows);
    SumOfFilter(txs, HasCategory(c.id), Everything, Amount);
    FilterLength(txs, HasCategory(c.id));
    CategoryTotal(c, Total(rows), |rows|)
  }

  function TotalsOf(txs: seq<Transaction>, cats: seq<Category>): (r: seq<CategoryTotal>)
    ensures |r| == |cats|
    ensures forall i :: 0 <= i < |cats| ==> r[i] == TotalFor(txs, cats[i])
  {
    if |cats| == 0 then [] else [TotalFor(txs, cats[0])] + TotalsOf(txs, cats[1..])
  }

  function Positive(ct: CategoryTotal): bool
  {
    ct.total > 0.0
  }

  /** `categoryTotals`: the categories, in their order, whose transactions
      add up to more than zero. */
  function CategoryTotals(txs: seq<Transaction>, cats: seq<Category>): (r: seq<CategoryTotal>)
    ensures |r| <= |cats|
    ensures forall ct :: ct in r ==> ct.category in cats && ct.total > 0.0
    ensures forall ct :: ct in r ==>
              ct.total == SumWhere(txs, HasCategory(ct.category.id), Amount)
              && ct.transactionCount == CountWhere(txs, HasCategory(ct.category.id))
    ensures forall c :: c in cats && SumWhere(txs, HasCategory(c.id), Amount) > 0.0
                        ==> TotalFor(txs, c) in r
    ensures r == TotalsOf(txs, Filter(cats, Charged(txs)))
  {
    var r := Filter(TotalsOf(txs, cats), Positive);
    PositiveMembers(txs, cats, r);
    PositiveTotalsInOrder(txs, cats);
    r
  }

  /** The totals list holds exactly one total per category. */
  lemma TotalsOfMembers(txs: seq<Transaction>, cats: seq<Category>)
    ensures forall ct :: ct in TotalsOf(txs, cats) ==> exists i :: 0 <= i < |cats| && ct == TotalFor(txs, cats[i])
    ensures forall c :: c in cats ==> TotalFor(txs, c) in TotalsOf(txs, cats)
  {
    var all := TotalsOf(txs, cats);
    forall c | c in cats ensures TotalFor(txs, c) in all {
      var i :| 0 <= i < |cats| && cats[i] == c;
      assert all[i] == TotalFor(txs, c);
    }
  }

  /** The positive totals are those of the categories with a positive sum. */
  lemma PositiveMembers(txs: seq<Transaction>, cats: seq<Category>, r: seq<CategoryTotal>)
    requires r == Filter(TotalsOf(txs, cats), Positive)
    ensures forall ct :: ct in r ==> ct.category in cats && ct.total > 0.0
    ensures forall ct :: ct in r ==>
              ct.total == SumWhere(txs, HasCategory(ct.category.id), Amount)
              && ct.transactionCount == CountWhere(txs, HasCategory(ct.category.id))
    ensures forall c :: c in cats && SumWhere(txs, HasCategory(c.id), Amount) > 0.0
                        ==> TotalFor(txs, c) in r
  {
    TotalsOfMembers(txs, cats);
    forall ct | ct in r
      ensures ct.category in cats && ct.total > 0.0
      ensures ct.total == SumWhere(txs, HasCategory(ct.category.id), Amount)
      ensures ct.transactionCount == CountWhere(txs, HasCategory(ct.category.id))
    {
      var i :| 0 <= i < |cats| && ct == TotalFor(txs, cats[i]);
    }
  }

  /** A category whose transactions add up to more than zero. */
  function Charged(txs: seq<Transaction>): Category -> bool
  {
    (c: Category) => SumWhere(txs, HasCategory(c.id), Amount) > 0.0
  }

  /** Keeping the positive totals is taking the totals of the charged
      categories, in their order. */
  lemma {:induction false} PositiveTotalsInOrder(txs: seq<Transaction>, cats: seq<Category>)
    ensures Filter(TotalsOf(txs, cats), Positive) == TotalsOf(txs, Filter(cats, Charged(txs)))
  {
    if |cats| > 0 {
      var all := TotalsOf(txs, cats);
      var kept := Filter(cats, Charged(txs));
      PositiveTotalsInOrder(txs, cats[1..]);
      assert all[0] == TotalFor(txs, cats[0]) && all[1..] == TotalsOf(txs, cats[1..]);
      assert Positive(all[0]) == Charged(txs)(cats[0]);
      if Charged(txs)(cats[0]) {
        assert kept[0] == cats[0] && kept[1..] == Filter(cats[1..], Charged(txs));
      } else {
        assert kept == Filter(cats[1..], Charged(txs));
      }
    }
  }

  /** A transaction whose amount is positive and whose category is listed
      makes that category appear, whatever its type. */
  lemma CategoryTotalsCountEveryType(txs: seq<Transaction>, cats: seq<Category>, c: Category)
    requires c in cats
    requires forall t :: t in txs ==> Amount(t) >= 0.0
    requires exists t :: t in txs && HasCategory(c.id)(t) && Amount(t) > 0.0
    ensures TotalFor(txs, c) in CategoryTotals(txs, cats)
  {
    var t :| t in txs && HasCategory(c.id)(t) && Amount(t) > 0.0;
    PositiveSum(txs, HasCategory(c.id), t);
  }

  /** A sum of non-negative amounts that includes a positive one is positive. */
  lemma {:induction false} PositiveSum(txs: seq<Transaction>, p: Transaction -> bool, t: Transaction)
    requires forall u :: u in txs ==> Amount(u) >= 0.0
    requires t in txs && p(t) && Amount(t) > 0.0
    ensures SumWhere(txs, p, Amount) > 0.0
  {
    assert txs[0] in txs;
    if txs[0] != t {
      assert forall u :: u in txs[1..] ==> u in txs;
      PositiveSum(txs[1..], p, t);
    }
    NonNegativeSum(txs[1..], p);
  }

  lemma {:induction false} NonNegativeSum(txs: seq<Transaction>, p: Transaction -> bool)
    requires forall u :: u in txs ==> Amount(u) >= 0.0
    ensures SumWhere(txs, p, Amount) >= 0.0
  {
    if |txs| > 0 {
      assert txs[0] in txs;
      assert forall u :: u in txs[1..] ==> u in txs;
      NonNegativeSum(txs[1..], p);
    }
  }

  function OfKind(kind: string): CategoryTotal -> bool
  {
    (ct: CategoryTotal) => ct.category.kind == kind
  }

  /** The income and expense sections under the summary: the totals of each
      category type, in order. */
  function CategorySection(totals: seq<CategoryTotal>, kind: string): (r: seq<CategoryTotal>)
    ensures forall ct :: ct in r <==> ct in totals && ct.category.kind == kind
  {
    Filter(totals, OfKind(kind))
  }
}
