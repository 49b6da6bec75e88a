/** The three kinds of row the application stores for a user: categories,
    payment sources and transactions, as the pages receive them. */
module Records {
  import opened Values
  import opened Calendar
  import opened Seqs

  const INCOME := "income"
  const EXPENSE := "expense"

  /** A stored transaction. `kind` is the `type` column: by convention
      "income" or "expense", but nothing enforces it. `amount` is absent when
      the column is null. */
  datatype Transaction = Transaction(
    id: string,
    userId: string,
    kind: string,
    amount: Option<real>,
    description: Option<string>,
    date: Day,
    categoryId: Option<string>,
    sourceId: Option<string>)

  datatype Category = Category(id: string, userId: string, name: string, kind: string, color: string)

  datatype Source = Source(id: string, userId: string, name: string, kind: string, color: string, icon: string)

  predicate IsIncome(t: Transaction)
  {
    t.kind == INCOME
  }

  predicate IsExpense(t: Transaction)
  {
    t.kind == EXPENSE
  }

  /** `parseFloat(t.amount || 0)`. */
  function Amount(t: Transaction): real
  {
    AmountOrZero(t.amount)
  }

  /** `txs.reduce((sum, t) => sum + parseFloat(t.amount || 0), 0)`. */
  function Total(txs: seq<Transaction>): real
  {
    if |txs| == 0 then 0.0 else Amount(txs[0]) + Total(txs[1..])
  }

  /** `t => t.category_id === id`. */
  function HasCategory(id: string): Transaction -> bool
  {
    (t: Transaction) => t.categoryId == Some(id)
  }

  function AmountsOf(txs: seq<Transaction>): (r: seq<Option<real>>)
    ensures |r| == |txs|
    ensures forall i :: 0 <= i < |txs| ==> r[i] == txs[i].amount
  {
    if |txs| == 0 then [] else [txs[0].amount] + AmountsOf(txs[1..])
  }

  lemma {:induction false} AmountsOfAppend(a: seq<Transaction>, b: seq<Transaction>)
    ensures AmountsOf(a + b) == AmountsOf(a) + AmountsOf(b)
  {
    assert forall i :: 0 <= i < |a| ==> (a + b)[i] == a[i];
    assert forall i :: |a| <= i < |a| + |b| ==> (a + b)[i] == b[i - |a|];
  }

  /** Summing the amounts with a missing one as 0 is `Total`. */
  lemma {:induction false} RealSumOfAmounts(txs: seq<Transaction>)
    ensures RealSum(AmountsOf(txs)) == Total(txs)
  {
    if |txs| > 0 {
      RealSumOfAmounts(txs[1..]);
      assert AmountsOf(txs)[1..] == AmountsOf(txs[1..]);
    }
  }

  function CategoryIdOf(c: Category): string
  {
    c.id
  }

  /** `categories.find(cat => cat.id === id)`. */
  function FindCategory(cats: seq<Category>, id: Option<string>): Option<Category>
  {
    FindById(cats, CategoryIdOf, id)
  }

  /** `find` gives the first category carrying the id. */
  lemma FindCategoryFirst(cats: seq<Category>, id: Option<string>)
    ensures forall i :: 0 <= i < |cats| && Some(cats[i].id) == id
                        && (forall j :: 0 <= j < i ==> Some(cats[j].id) != id)
                        ==> FindCategory(cats, id) == Some(cats[i])
  {
    forall i | 0 <= i < |cats| && Some(cats[i].id) == id && (forall j :: 0 <= j < i ==> Some(cats[j].id) != id)
      ensures FindCategory(cats, id) == Some(cats[i])
    {
      FindByIdFirst(cats, CategoryIdOf, id, i);
    }
  }
}
