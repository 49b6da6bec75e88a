/** The transaction service. Every call first asks for the signed-in user and
    gives up without one. What the store answers (the fetched rows, the
    categories table, the reply to a write) is a parameter; the service's own
    logic is the joining, stamping and summing around those answers. */
module TransactionService {
  import opened Values
  import opened Seqs
  import opened Records
  import ReportTotals

  const NO_USER := "No user"

  /** The `id, name, color` columns of a category, as joined onto a row. */
  datatype CategoryRef = CategoryRef(id: string, name: string, color: string)

  function RefOf(c: Category): CategoryRef
  {
    CategoryRef(c.id, c.name, c.color)
  }

  /** A fetched row with the `categories` field the service adds. */
  datatype Joined = Joined(row: Transaction, categories: Option<CategoryRef>)

  datatype ListReply = ListReply(data: seq<Joined>, error: Option<string>)

  datatype ItemReply = ItemReply(data: Option<Joined>, error: Option<string>)

  /** The truthy `category_id`s of the rows, in order. */
  function TruthyCategoryIds(rows: seq<Transaction>): (r: seq<string>)
    ensures forall id :: id in r <==> id != "" && exists t :: t in rows && t.categoryId == Some(id)
  {
    if |rows| == 0 then []
    else
      var rest := TruthyCategoryIds(rows[1..]);
      assert forall t :: t in rows <==> t == rows[0] || t in rows[1..];
      (if Truthy(rows[0].categoryId) then [rows[0].categoryId.value] else []) + rest
  }

  /** The ids the category lookup asks for:
      `[...new Set(data.map(t => t.category_id).filter(id => id))]`. */
  function CategoryIds(rows: seq<Transaction>): (r: seq<string>)
    ensures NoDups(r)
    ensures forall id :: id in r <==> id != "" && exists t :: t in rows && t.categoryId == Some(id)
  {
    Dedupe(TruthyCategoryIds(rows))
  }

  /** The categories the lookup selects: the user's, with an asked-for id. */
  function Asked(ids: seq<string>, user: string): Category -> bool
  {
    (c: Category) => c.id in ids && c.userId == user
  }

  /** `.in('id', ids).eq('user_id', user)` on the categories table. */
  function CategoryQuery(table: seq<Category>, ids: seq<string>, user: string): seq<CategoryRef>
  {
    Map(Filter(table, Asked(ids, user)), RefOf)
  }

  /** `categories.find(cat => cat.id === id)` on the fetched categories. */
  function FindRef(refs: seq<CategoryRef>, id: Option<string>): Option<CategoryRef>
  {
    FindById(refs, (c: CategoryRef) => c.id, id)
  }

  /** The `data.map(...)` that gives every row the category it names. */
  function Attach(rows: seq<Transaction>, refs: seq<CategoryRef>): (r: seq<Joined>)
    ensures |r| == |rows|
    ensures forall i :: 0 <= i < |rows| ==> r[i] == Joined(rows[i], FindRef(refs, rows[i].categoryId))
  {
    Map(rows, (t: Transaction) => Joined(t, FindRef(refs, t.categoryId)))
  }

  /** Category `c` is the one a row of `user` names. */
  predicate Joins(c: Category, user: string, t: Transaction)
  {
    c.userId == user && c.id != "" && t.categoryId == Some(c.id)
  }

  /** `getTransactions`: no user gives no rows and "No user"; a failed fetch
      gives no rows and its error; otherwise every fetched row comes back,
      in order, carrying the user's category it names, or null when there is
      none or the category lookup failed. */
  function GetTransactions(user: Option<string>, fetched: Result<seq<Transaction>>,
                           table: Result<seq<Category>>): (r: ListReply)
    ensures user.None? ==> r == ListReply([], Some(NO_USER))
    ensures user.Some? && fetched.Err? ==> r == ListReply([], Some(fetched.error))
    ensures user.Some? && fetched.Ok? ==>
              r.error.None? && |r.data| == |fetched.value|
              && forall i :: 0 <= i < |r.data| ==> r.data[i].row == fetched.value[i]
    ensures user.Some? && fetched.Ok? ==>
              forall i :: 0 <= i < |r.data| ==>
                (r.data[i].categories.Some? <==>
                   table.Ok? && exists c :: c in table.value && Joins(c, user.value, fetched.value[i]))
    ensures user.Some? && fetched.Ok? ==>
              forall i :: 0 <= i < |r.data| && r.data[i].categories.Some? ==>
                exists c :: c in table.value && Joins(c, user.value, fetched.value[i])
                            && r.data[i].categories.value == RefOf(c)
  {
    match user
    case None => ListReply([], Some(NO_USER))
    case Some(u) =>
      match fetched
      case Err(e) => ListReply([], Some(e))
      case Ok(rows) =>
        if |rows| == 0 then ListReply([], None)
        else
          var ids := CategoryIds(rows);
          var refs := if |ids| > 0 && table.Ok? then CategoryQuery(table.value, ids, u) else [];
          AttachMeaning(rows, table, u);
          ListReply(Attach(rows, refs), None)
  }

  /** What the joined category of each row means, in terms of the table. */
  lemma AttachMeaning(rows: seq<Transaction>, table: Result<seq<Category>>, u: string)
    ensures var ids := CategoryIds(rows);
            var refs := if |ids| > 0 && table.Ok? then CategoryQuery(table.value, ids, u) else [];
            forall i :: 0 <= i < |rows| ==>
              (FindRef(refs, rows[i].categoryId).Some? <==>
                 table.Ok? && exists c :: c in table.value && Joins(c, u, rows[i]))
              && (FindRef(refs, rows[i].categoryId).Some? ==>
                    exists c :: c in table.value && Joins(c, u, rows[i])
                                && FindRef(refs, rows[i].categoryId).value == RefOf(c))
  {
    var ids := CategoryIds(rows);
    var refs := if |ids| > 0 && table.Ok? then CategoryQuery(table.value, ids, u) else [];
    forall i | 0 <= i < |rows|
      ensures FindRef(refs, rows[i].categoryId).Some? <==>
                table.Ok? && exists c :: c in table.value && Joins(c, u, rows[i])
      ensures FindRef(refs, rows[i].categoryId).Some? ==>
                exists c :: c in table.value && Joins(c, u, rows[i])
                            && FindRef(refs, rows[i].categoryId).value == RefOf(c)
    {
      var t := rows[i];
      assert t in rows;
      var found := FindRef(refs, t.categoryId);
      if found.Some? {
        assert |ids| > 0 && table.Ok?;
        var kept := Filter(table.value, Asked(ids, u));
        MapMembership(kept, RefOf);
        var c :| c in kept && RefOf(c) == found.value;
        assert Joins(c, u, t);
      }
      if table.Ok? && exists c :: c in table.value && Joins(c, u, t) {
        var c :| c in table.value && Joins(c, u, t);
        assert c.id in ids;
        var kept := Filter(table.value, Asked(ids, u));
        assert c in kept;
        MapMembership(kept, RefOf);
        assert RefOf(c) in refs;
      }
    }
  }

  /** `.eq('id', id).eq('user_id', user).single()` on the categories table:
      the one matching category, or an error when there is none or more. */
  function SingleCategory(table: Result<seq<Category>>, t: Transaction, u: string): (r: Option<CategoryRef>)
    ensures r.Some? <==> table.Ok? && CountWhere(table.value, JoinsFn(u, t)) == 1
    ensures r.Some? ==> exists c :: c in table.value && Joins(c, u, t) && r.value == RefOf(c)
  {
    match table
    case Err(_) => None
    case Ok(cats) =>
      var matches := Filter(cats, JoinsFn(u, t));
      FilterLength(cats, JoinsFn(u, t));
      if |matches| == 1 then
        assert matches[0] in matches;
        Some(RefOf(matches[0]))
      else None
  }

  function JoinsFn(u: string, t: Transaction): Category -> bool
  {
    (c: Category) => Joins(c, u, t)
  }

  /** `getTransaction`: no user or a failed fetch gives null data; a row
      with a truthy `category_id` carries its single matching category of
      the user, and null when that lookup fails; any other row carries
      null. */
  function GetTransaction(user: Option<string>, fetched: Result<Transaction>,
                          table: Result<seq<Category>>): (r: ItemReply)
    ensures user.None? ==> r == ItemReply(None, Some(NO_USER))
    ensures user.Some? && fetched.Err? ==> r == ItemReply(None, Some(fetched.error))
    ensures user.Some? && fetched.Ok? ==>
              r.error.None? && r.data.Some? && r.data.value.row == fetched.value
              && (r.data.value.categories.Some? <==>
                    table.Ok? && CountWhere(table.value, JoinsFn(user.value, fetched.value)) == 1)
    ensures user.Some? && fetched.Ok? && r.data.value.categories.Some? ==>
              exists c :: c in table.value && Joins(c, user.value, fetched.value)
                          && r.data.value.categories.value == RefOf(c)
  {
    match user
    case None => ItemReply(None, Some(NO_USER))
    case Some(u) =>
      match fetched
      case Err(e) => ItemReply(None, Some(e))
      case Ok(t) =>
        if Truthy(t.categoryId) then ItemReply(Some(Joined(t, SingleCategory(table, t, u))), None)
        else
          NoJoinWithoutId(table, t, u);
          ItemReply(Some(Joined(t, None)), None)
  }

  lemma NoJoinWithoutId(table: Result<seq<Category>>, t: Transaction, u: string)
    requires !Truthy(t.categoryId)
    ensures table.Ok? ==> CountWhere(table.value, JoinsFn(u, t)) == 0
  {
    if table.Ok? {
      CountWhereNone(table.value, JoinsFn(u, t));
    }
  }

  /** Categories of a user whose ids are distinct, as a primary key keeps
      them. */
  predicate DistinctIds(cats: seq<Category>)
  {
    forall i, j :: 0 <= i < j < |cats| ==> cats[i].id != cats[j].id
  }

  /** When the table keys categories by id, reading one row attaches the
      same category as listing the rows does. */
  lemma ItemAgreesWithList(u: string, rows: seq<Transaction>, cats: seq<Category>, i: nat)
    requires DistinctIds(cats) && i < |rows|
    ensures GetTransaction(Some(u), Ok(rows[i]), Ok(cats)).data.value
            == GetTransactions(Some(u), Ok(rows), Ok(cats)).data[i]
  {
    var t := rows[i];
    var item := GetTransaction(Some(u), Ok(t), Ok(cats)).data.value;
    var listed := GetTransactions(Some(u), Ok(rows), Ok(cats)).data[i];
    JoinCount(cats, u, t);
    if listed.categories.Some? {
      var c :| c in cats && Joins(c, u, t) && listed.categories.value == RefOf(c);
      var c' :| c' in cats && Joins(c', u, t) && item.categories.value == RefOf(c');
      OneJoin(cats, u, t, c, c');
    }
  }

  /** With ids distinct, a row names one category of the table or none. */
  lemma JoinCount(cats: seq<Category>, u: string, t: Transaction)
    requires DistinctIds(cats)
    ensures CountWhere(cats, JoinsFn(u, t)) == 1 <==> exists c :: c in cats && Joins(c, u, t)
  {
    AtMostOneJoin(cats, u, t);
    FilterLength(cats, JoinsFn(u, t));
    var m := Filter(cats, JoinsFn(u, t));
    if |m| > 0 {
      assert m[0] in m;
    }
    if exists c :: c in cats && Joins(c, u, t) {
      var c :| c in cats && Joins(c, u, t);
      assert c in m;
    }
  }

  lemma {:induction false} AtMostOneJoin(cats: seq<Category>, u: string, t: Transaction)
    requires DistinctIds(cats)
    ensures CountWhere(cats, JoinsFn(u, t)) <= 1
  {
    if |cats| > 0 {
      var rest := cats[1..];
      assert DistinctIds(rest) by {
        forall i, j | 0 <= i < j < |rest| ensures rest[i].id != rest[j].id {
          assert rest[i] == cats[i + 1] && rest[j] == cats[j + 1];
        }
      }
      AtMostOneJoin(rest, u, t);
      if Joins(cats[0], u, t) {
        forall c | c in rest ensures !JoinsFn(u, t)(c) {
          var k :| 0 <= k < |rest| && rest[k] == c;
          assert cats[k + 1] == c;
        }
        CountWhereNone(rest, JoinsFn(u, t));
      }
    }
  }

  /** Two categories of a table keyed by id that a row both names are the
      same category. */
  lemma OneJoin(cats: seq<Category>, u: string, t: Transaction, a: Category, b: Category)
    requires DistinctIds(cats) && a in cats && b in cats
    requires Joins(a, u, t) && Joins(b, u, t)
    ensures a == b
  {
    var i :| 0 <= i < |cats| && cats[i] == a;
    var j :| 0 <= j < |cats| && cats[j] == b;
    assert i == j;
  }

  /** A write the service sends to the store. */
  datatype Request =
    | Insert(row: Record)
    | Update(id: string, userId: string, changes: Record)
    | Delete(id: string, userId: string)

  /** The store's reply to a write: the written row, or its error. */
  datatype Reply = Reply(data: Option<Record>, error: Option<string>)

  /** `{ ...transaction, user_id: user.id }`. */
  function Stamped(tx: Record, userId: string): (r: Record)
    ensures r.Keys == tx.Keys + {"user_id"}
    ensures r["user_id"] == Text(userId)
    ensures forall k :: k in tx && k != "user_id" ==> r[k] == tx[k]
  {
    tx["user_id" := Text(userId)]
  }

  /** `createTransaction`: without a user nothing is sent and the reply is
      null data with "No user"; otherwise the caller's row goes to the store
      owned by the current user, whatever `user_id` it carried. */
  function CreateTransaction(user: Option<string>, tx: Record, store: Request -> Reply)
    : (r: (Reply, Option<Request>))
    ensures user.None? ==> r == (Reply(None, Some(NO_USER)), None)
    ensures user.Some? ==>
              r.1.Some? && r.1.value.Insert? && r.0 == store(r.1.value)
              && "user_id" in r.1.value.row && r.1.value.row["user_id"] == Text(user.value)
              && r.1.value.row.Keys == tx.Keys + {"user_id"}
              && forall k :: k in tx && k != "user_id" ==> r.1.value.row[k] == tx[k]
  {
    match user
    case None => (Reply(None, Some(NO_USER)), None)
    case Some(u) =>
      var req := Insert(Stamped(tx, u));
      (store(req), Some(req))
  }

  /** `updateTransaction`: without a user nothing is sent; otherwise the
      change is sent for the row with that id owned by the current user. */
  function UpdateTransaction(user: Option<string>, id: string, changes: Record, store: Request -> Reply)
    : (r: (Reply, Option<Request>))
    ensures user.None? ==> r == (Reply(None, Some(NO_USER)), None)
    ensures user.Some? ==> r.1 == Some(Update(id, user.value, changes)) && r.0 == store(r.1.value)
  {
    match user
    case None => (Reply(None, Some(NO_USER)), None)
    case Some(u) =>
      var req := Update(id, u, changes);
      (store(req), Some(req))
  }

  /** `deleteTransaction`: answers only with an error; without a user that
      is "No user" and nothing is sent. */
  function DeleteTransaction(user: Option<string>, id: string, store: Request -> Reply)
    : (r: (Option<string>, Option<Request>))
    ensures user.None? ==> r == (Some(NO_USER), None)
    ensures user.Some? ==> r.1 == Some(Delete(id, user.value)) && r.0 == store(r.1.value).error
  {
    match user
    case None => (Some(NO_USER), None)
    case Some(u) =>
      var req := Delete(id, u);
      (store(req).error, Some(req))
  }

  datatype SummaryReply = SummaryReply(data: Option<ReportTotals.Summary>, error: Option<string>)

  /** `data?.reduce((sum, t) => sum + parseFloat(t.amount), 0) || 0`. */
  function ServiceTotal(amounts: seq<Option<real>>): real
  {
    OrZero(JsSum(amounts))
  }

  /** `getSummary` from the answers to its two queries (the amounts of the
      user's income rows and of their expense rows): a missing user or a
      failed query gives null data with the error; otherwise each total is
      the sum of its amounts, collapsing to 0 when one amount is missing,
      the balance is their difference and the count is the number of rows
      of both queries. */
  function GetSummary(user: Option<string>, incomeData: Result<seq<Option<real>>>,
                      expenseData: Result<seq<Option<real>>>): (r: SummaryReply)
    ensures user.None? ==> r == SummaryReply(None, Some(NO_USER))
    ensures user.Some? && incomeData.Err? ==> r == SummaryReply(None, Some(incomeData.error))
    ensures user.Some? && incomeData.Ok? && expenseData.Err? ==> r == SummaryReply(None, Some(expenseData.error))
    ensures user.Some? && incomeData.Ok? && expenseData.Ok? ==>
              r.error.None? && r.data.Some?
              && r.data.value.totalIncome == (if AllPresent(incomeData.value) then RealSum(incomeData.value) else 0.0)
              && r.data.value.totalExpense == (if AllPresent(expenseData.value) then RealSum(expenseData.value) else 0.0)
              && r.data.value.balance == r.data.value.totalIncome - r.data.value.totalExpense
              && r.data.value.transactionCount == |incomeData.value| + |expenseData.value|
  {
    match user
    case None => SummaryReply(None, Some(NO_USER))
    case Some(_) =>
      match incomeData
      case Err(e) => SummaryReply(None, Some(e))
      case Ok(incomes) =>
        match expenseData
        case Err(e) => SummaryReply(None, Some(e))
        case Ok(expenses) =>
          JsSumMeaning(incomes);
          JsSumMeaning(expenses);
          var totalIncome := ServiceTotal(incomes);
          var totalExpense := ServiceTotal(expenses);
          SummaryReply(Some(ReportTotals.Summary(totalIncome, totalExpense, totalIncome - totalExpense,
                                                 |incomes| + |expenses|)), None)
  }

  /** When the two queries answer with the amounts of a user's income rows
      and expense rows, and every such row has an amount, the service's
      summary is the reports page's summary of those rows, with the count
      taken over income and expense rows only. */
  lemma SummaryOfRows(u: string, rows: seq<Transaction>)
    requires forall t :: t in rows && (IsIncome(t) || IsExpense(t)) ==> t.amount.Some?
    ensures var r := GetSummary(Some(u), Ok(AmountsOf(Filter(rows, IsIncome))),
                                Ok(AmountsOf(Filter(rows, IsExpense))));
            var s := ReportTotals.ReportSummary(rows);
            r.data.Some?
            && r.data.value.totalIncome == s.totalIncome
            && r.data.value.totalExpense == s.totalExpense
            && r.data.value.balance == s.balance
            && r.data.value.transactionCount == CountWhere(rows, IsIncome) + CountWhere(rows, IsExpense)
  {
    ReportTotals.SelectionSum(rows, IsIncome);
    ReportTotals.SelectionSum(rows, IsExpense);
    JsSumMeaning(AmountsOf(Filter(rows, IsIncome)));
    JsSumMeaning(AmountsOf(Filter(rows, IsExpense)));
    FilterLength(rows, IsIncome);
    FilterLength(rows, IsExpense);
  }

  /** One income row without an amount makes the service report a total
      income of 0, whatever the other rows hold. */
  lemma MissingAmountZeroesIncome(u: string, rows: seq<Transaction>, t: Transaction)
    requires t in rows && IsIncome(t) && t.amount.None?
    ensures var r := GetSummary(Some(u), Ok(AmountsOf(Filter(rows, IsIncome))),
                                Ok(AmountsOf(Filter(rows, IsExpense))));
            r.data.Some? && r.data.value.totalIncome == 0.0
  {
    ReportTotals.SelectionSum(rows, IsIncome);
    JsSumMeaning(AmountsOf(Filter(rows, IsIncome)));
  }
}
