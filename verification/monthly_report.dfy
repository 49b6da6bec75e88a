/** The monthly chart data of the reports page: covered transactions bucketed
    by their `YYYY-MM` month key, income apart from everything else, keeping
    the last twelve months in key order. */
module MonthlyReport {
  import opened Values
  import opened Seqs
  import opened JsStrings
  import opened Calendar
  import opened Records
  import opened ReportTotals

  /** The month key of a transaction's date. */
  function KeyOf(t: Transaction): string
  {
    MonthKey(t.date)
  }

  /** The chart's expense side takes every transaction that is not income. */
  function NotIncome(t: Transaction): bool
  {
    !IsIncome(t)
  }

  /** `m[k] || 0` on a map of month totals. */
  function Lookup(m: map<string, real>, k: string): real
  {
    if k in m then m[k] else 0.0
  }

  /** The `forEach` that adds each selected transaction's amount to the total
      of its month in `acc`. */
  function Bucket(txs: seq<Transaction>, acc: map<string, real>, sel: Transaction -> bool): map<string, real>
  {
    if |txs| == 0 then acc
    else
      var t := txs[0];
      Bucket(txs[1..], if sel(t) then acc[KeyOf(t) := Lookup(acc, KeyOf(t)) + Amount(t)] else acc, sel)
  }

  function InMonth(sel: Transaction -> bool, k: string): Transaction -> bool
  {
    (t: Transaction) => sel(t) && KeyOf(t) == k
  }

  /** A month has a bucket exactly when a selected transaction falls in it,
      and the bucket holds the sum of those transactions' amounts. */
  lemma BucketMeaning(txs: seq<Transaction>, acc: map<string, real>, sel: Transaction -> bool, k: string)
    ensures k in Bucket(txs, acc, sel) <==> k in acc || exists t :: t in txs && sel(t) && KeyOf(t) == k
    ensures Lookup(Bucket(txs, acc, sel), k) == Lookup(acc, k) + SumWhere(txs, InMonth(sel, k), Amount)
  {
    BucketKeys(txs, acc, sel, k);
    BucketValue(txs, acc, sel, k);
  }

  lemma {:induction false} BucketKeys(txs: seq<Transaction>, acc: map<string, real>, sel: Transaction -> bool, k: string)
    ensures k in Bucket(txs, acc, sel) <==> k in acc || exists t :: t in txs && sel(t) && KeyOf(t) == k
  {
    if |txs| > 0 {
      var t := txs[0];
      var next := if sel(t) then acc[KeyOf(t) := Lookup(acc, KeyOf(t)) + Amount(t)] else acc;
      BucketKeys(txs[1..], next, sel, k);
      assert forall u :: u in txs <==> u == t || u in txs[1..];
    }
  }

  lemma {:induction false} BucketValue(txs: seq<Transaction>, acc: map<string, real>, sel: Transaction -> bool, k: string)
    ensures Lookup(Bucket(txs, acc, sel), k) == Lookup(acc, k) + SumWhere(txs, InMonth(sel, k), Amount)
  {
    if |txs| > 0 {
      var t := txs[0];
      var next := if sel(t) then acc[KeyOf(t) := Lookup(acc, KeyOf(t)) + Amount(t)] else acc;
      BucketValue(txs[1..], next, sel, k);
      assert Lookup(next, k) == Lookup(acc, k) + (if InMonth(sel, k)(t) then Amount(t) else 0.0);
    }
  }

  /** The last `n` of an ascending list are ascending and come after every
      element left out. */
  lemma TakeLastIncreasing(xs: seq<string>, n: nat)
    requires Increasing(xs)
    ensures Increasing(TakeLast(xs, n))
    ensures forall x, y :: x in xs && x !in TakeLast(xs, n) && y in TakeLast(xs, n) ==> StrLess(x, y)
  {
    var r := TakeLast(xs, n);
    var s := |xs| - |r|;
    assert forall k :: s <= k < |xs| ==> xs[k] in r by {
      forall k | s <= k < |xs| ensures xs[k] in r {
        assert r[k - s] == xs[k];
      }
    }
    forall x, y | x in xs && x !in r && y in r ensures StrLess(x, y) {
      var i :| 0 <= i < |xs| && xs[i] == x;
      var j :| 0 <= j < |r| && r[j] == y;
      assert r[j] == xs[s + j];
      assert i < s;
      assert StrLess(xs[i], xs[s + j]);
    }
  }

  /** The last `n` of a list are elements of it. */
  lemma TakeLastWithin<T>(xs: seq<T>, n: nat)
    ensures forall y :: y in TakeLast(xs, n) ==> y in xs
  {
    var r := TakeLast(xs, n);
    forall y | y in r ensures y in xs {
      var i :| 0 <= i < |r| && r[i] == y;
      assert r[i] == xs[|xs| - |r| + i];
    }
  }

  /** `Object.keys({...monthlyIncome, ...monthlyExpense}).sort().slice(-12)`:
      the months that hold a transaction, ascending, at most twelve and the
      latest ones. */
  function Months(txs: seq<Transaction>): (r: seq<string>)
    ensures |r| <= 12
    ensures Increasing(r)
    ensures forall k :: k in r ==> exists t :: t in txs && KeyOf(t) == k
    ensures forall t, k :: t in txs && KeyOf(t) !in r && k in r ==> StrLess(KeyOf(t), k)
    ensures |r| < 12 ==> forall t :: t in txs ==> KeyOf(t) in r
  {
    var sorted := Sort(Map(txs, KeyOf));
    MonthsFacts(txs, sorted);
    TakeLast(sorted, 12)
  }

  /** The facts `Months` states, about the sorted keys of the
      transactions. */
  lemma MonthsFacts(txs: seq<Transaction>, sorted: seq<string>)
    requires sorted == Sort(Map(txs, KeyOf))
    ensures Increasing(TakeLast(sorted, 12))
    ensures forall k :: k in TakeLast(sorted, 12) ==> exists t :: t in txs && KeyOf(t) == k
    ensures forall t, k :: t in txs && KeyOf(t) !in TakeLast(sorted, 12) && k in TakeLast(sorted, 12)
                           ==> StrLess(KeyOf(t), k)
    ensures |TakeLast(sorted, 12)| < 12 ==> forall t :: t in txs ==> KeyOf(t) in TakeLast(sorted, 12)
  {
    var r := TakeLast(sorted, 12);
    MapMembership(txs, KeyOf);
    assert forall t :: t in txs ==> KeyOf(t) in sorted;
    TakeLastIncreasing(sorted, 12);
    TakeLastWithin(sorted, 12);
    assert forall k :: k in r ==> k in Map(txs, KeyOf);
    assert |r| < 12 ==> r == sorted;
  }

  /** The keys of the merged month maps, in whatever order they are listed,
      sort and truncate to `Months`. */
  lemma MonthsAreObjectKeys(txs: seq<Transaction>, keys: seq<string>)
    requires forall k :: k in keys <==> k in Bucket(txs, map[], IsIncome) || k in Bucket(txs, map[], NotIncome)
    ensures TakeLast(Sort(keys), 12) == Months(txs)
  {
    MapMembership(txs, KeyOf);
    forall k ensures k in keys <==> k in Map(txs, KeyOf) {
      BucketMeaning(txs, map[], IsIncome, k);
      BucketMeaning(txs, map[], NotIncome, k);
    }
    IncreasingUnique(Sort(keys), Sort(Map(txs, KeyOf)));
  }

  datatype MonthRow = MonthRow(month: string, income: real, expense: real, balance: real)

  function RowFor(income: map<string, real>, expense: map<string, real>, m: string): MonthRow
  {
    MonthRow(m, Lookup(income, m), Lookup(expense, m), Lookup(income, m) - Lookup(expense, m))
  }

  /** `monthlyData`: one row per month of `Months`, with the month's income,
      its other amounts as expense, and their difference. */
  function MonthlyData(txs: seq<Transaction>): (r: seq<MonthRow>)
    ensures |r| == |Months(txs)|
    ensures forall i :: 0 <= i < |r| ==> r[i].month == Months(txs)[i]
    ensures forall i :: 0 <= i < |r| ==>
              r[i].income == SumWhere(txs, InMonth(IsIncome, r[i].month), Amount)
              && r[i].expense == SumWhere(txs, InMonth(NotIncome, r[i].month), Amount)
              && r[i].balance == r[i].income - r[i].expense
  {
    var income := Bucket(txs, map[], IsIncome);
    var expense := Bucket(txs, map[], NotIncome);
    assert forall k :: Lookup(income, k) == SumWhere(txs, InMonth(IsIncome, k), Amount)
                       && Lookup(expense, k) == SumWhere(txs, InMonth(NotIncome, k), Amount) by {
      forall k ensures Lookup(income, k) == SumWhere(txs, InMonth(IsIncome, k), Amount)
                       && Lookup(expense, k) == SumWhere(txs, InMonth(NotIncome, k), Amount) {
        BucketMeaning(txs, map[], IsIncome, k);
        BucketMeaning(txs, map[], NotIncome, k);
      }
    }
    Map(Months(txs), (m: string) => RowFor(income, expense, m))
  }

  /** The chart does not depend on the order the transactions arrive in. */
  lemma MonthlyPermutation(txs: seq<Transaction>, ys: seq<Transaction>)
    requires multiset(txs) == multiset(ys)
    ensures MonthlyData(txs) == MonthlyData(ys)
  {
    MonthsPermutation(txs, ys);
    var a, b := MonthlyData(txs), MonthlyData(ys);
    forall i | 0 <= i < |a| ensures a[i] == b[i] {
      SumWherePermutation(txs, ys, InMonth(IsIncome, a[i].month), Amount);
      SumWherePermutation(txs, ys, InMonth(NotIncome, a[i].month), Amount);
    }
  }

  /** Reordering the transactions leaves the months alone. */
  lemma MonthsPermutation(txs: seq<Transaction>, ys: seq<Transaction>)
    requires multiset(txs) == multiset(ys)
    ensures Months(txs) == Months(ys)
  {
    MapMembership(txs, KeyOf);
    MapMembership(ys, KeyOf);
    assert forall t :: t in txs <==> t in ys by {
      forall t ensures t in txs <==> t in ys {
        assert t in txs <==> t in multiset(txs);
        assert t in ys <==> t in multiset(ys);
      }
    }
    IncreasingUnique(Sort(Map(txs, KeyOf)), Sort(Map(ys, KeyOf)));
  }

  /** For four-digit years the rows run in calendar order. */
  lemma MonthlyChronological(txs: seq<Transaction>, i: nat, j: nat, t: Transaction, u: Transaction)
    requires forall x :: x in txs ==> FourDigitYear(x.date)
    requires i < j < |MonthlyData(txs)|
    requires t in txs && KeyOf(t) == MonthlyData(txs)[i].month
    requires u in txs && KeyOf(u) == MonthlyData(txs)[j].month
    ensures t.date.year < u.date.year || (t.date.year == u.date.year && t.date.month < u.date.month)
  {
    MonthKeyOrder(t.date, u.date);
  }

  function SumRows(rows: seq<MonthRow>, pick: MonthRow -> real): real
  {
    if |rows| == 0 then 0.0 else pick(rows[0]) + SumRows(rows[1..], pick)
  }

  function InAny(sel: Transaction -> bool, keys: seq<string>): Transaction -> bool
  {
    (t: Transaction) => sel(t) && KeyOf(t) in keys
  }

  /** Rows of distinct months add up to the selection of those months. */
  lemma {:induction false} RowsAddUp(txs: seq<Transaction>, rows: seq<MonthRow>, keys: seq<string>,
                                     sel: Transaction -> bool, pick: MonthRow -> real)
    requires NoDups(keys) && |rows| == |keys|
    requires forall i :: 0 <= i < |rows| ==> pick(rows[i]) == SumWhere(txs, InMonth(sel, keys[i]), Amount)
    ensures SumRows(rows, pick) == SumWhere(txs, InAny(sel, keys), Amount)
  {
    if |rows| == 0 {
      SumWhereNone(txs, InAny(sel, keys), Amount);
    } else {
      var rest := keys[1..];
      assert NoDups(rest) by {
        forall i, j | 0 <= i < j < |rest| ensures rest[i] != rest[j] {
          assert rest[i] == keys[i + 1] && rest[j] == keys[j + 1];
        }
      }
      assert keys[0] !in rest by {
        forall i | 0 <= i < |rest| ensures rest[i] != keys[0] {
          assert rest[i] == keys[i + 1];
        }
      }
      assert forall k :: k in keys <==> k == keys[0] || k in rest by {
        assert keys == [keys[0]] + rest;
      }
      RowsAddUp(txs, rows[1..], rest, sel, pick);
      SumWhereSplit(txs, InMonth(sel, keys[0]), InAny(sel, rest), InAny(sel, keys), Amount);
    }
  }

  function RowIncome(row: MonthRow): real
  {
    row.income
  }

  function RowExpense(row: MonthRow): real
  {
    row.expense
  }

  lemma IncreasingNoDups(xs: seq<string>)
    requires Increasing(xs)
    ensures NoDups(xs)
  {
    forall i, j | 0 <= i < j < |xs| ensures xs[i] != xs[j] {
      StrLessIrreflexive(xs[i]);
    }
  }

  /** When the transactions span at most twelve months, the chart's income
      adds up to the summary's income, and its expense to the summary's
      expense plus the amounts of every type other than income and expense. */
  lemma MonthlyMatchesSummary(txs: seq<Transaction>)
    requires |Sort(Map(txs, KeyOf))| <= 12
    ensures SumRows(MonthlyData(txs), RowIncome) == ReportSummary(txs).totalIncome
    ensures SumRows(MonthlyData(txs), RowExpense)
            == ReportSummary(txs).totalExpense + SumWhere(txs, IsOther, Amount)
  {
    var keys := Months(txs);
    var rows := MonthlyData(txs);
    MapMembership(txs, KeyOf);
    assert forall t :: t in txs ==> KeyOf(t) in keys;
    IncreasingNoDups(keys);
    RowsAddUp(txs, rows, keys, IsIncome, RowIncome);
    RowsAddUp(txs, rows, keys, NotIncome, RowExpense);
    SumWhereSame(txs, InAny(IsIncome, keys), IsIncome, Amount, Amount);
    SumWhereSame(txs, InAny(NotIncome, keys), NotIncome, Amount, Amount);
    SumWhereSplit(txs, IsExpense, IsOther, NotIncome, Amount);
  }
}
