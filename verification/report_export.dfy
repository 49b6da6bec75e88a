/** The recent-transactions table of the reports page and its CSV export:
    the covered transactions narrowed by type and category, the first ten,
    one row each with placeholder texts for what is missing. */
module ReportExport {
  import opened Values
  import opened Seqs
  import opened JsStrings
  import opened Calendar
  import opened Records

  const ALL := "all"
  const NO_CATEGORY := "Tanpa kategori"
  const NO_DESCRIPTION := "Tanpa deskripsi"
  const INCOME_LABEL := "Pemasukan"
  const EXPENSE_LABEL := "Pengeluaran"
  const HEADER := "Tanggal,Deskripsi,Kategori,Jumlah,Tipe\n"
  const LIMIT := 10

  /** `transactionFilter`: a type ("all", "income" or "expense") and a
      category id, empty for any category. */
  datatype TxFilter = TxFilter(kind: string, categoryId: string)

  /** What a row must satisfy to be listed. */
  predicate Matches(f: TxFilter, t: Transaction)
  {
    (f.kind == ALL || t.kind == f.kind) && (f.categoryId == "" || t.categoryId == Some(f.categoryId))
  }

  function OfType(kind: string): Transaction -> bool
  {
    (t: Transaction) => t.kind == kind
  }

  function MatchesFn(f: TxFilter): Transaction -> bool
  {
    (t: Transaction) => Matches(f, t)
  }

  /** The two `filter` steps: by type unless "all", then by category id
      unless empty. */
  function Selected(txs: seq<Transaction>, f: TxFilter): (r: seq<Transaction>)
    ensures |r| <= |txs|
    ensures forall t :: t in r <==> t in txs && Matches(f, t)
    ensures f.kind == ALL && f.categoryId == "" ==> r == txs
  {
    var byType := if f.kind != ALL then Filter(txs, OfType(f.kind)) else txs;
    if f.categoryId != "" then Filter(byType, HasCategory(f.categoryId)) else byType
  }

  /** Filtering in two steps is one filter by `Matches`, so the listed rows
      keep the order of the covered transactions. */
  lemma SelectedIsOneFilter(txs: seq<Transaction>, f: TxFilter)
    ensures Selected(txs, f) == Filter(txs, MatchesFn(f))
  {
    if f.kind != ALL && f.categoryId != "" {
      FilterFilter(txs, HasCategory(f.categoryId), OfType(f.kind), MatchesFn(f));
    } else if f.kind != ALL {
      FilterSame(txs, OfType(f.kind), MatchesFn(f));
    } else if f.categoryId != "" {
      FilterSame(txs, HasCategory(f.categoryId), MatchesFn(f));
    } else {
      FilterSame(txs, Everything, MatchesFn(f));
      FilterAll(txs);
    }
  }

  function Everything(t: Transaction): bool
  {
    true
  }

  lemma {:induction false} FilterAll(txs: seq<Transaction>)
    ensures Filter(txs, Everything) == txs
  {
    if |txs| > 0 {
      FilterAll(txs[1..]);
      assert txs == [txs[0]] + txs[1..];
    }
  }

  /** `slice(0, 10)` of the selection: what the table lists and the export
      writes. */
  function Shown(txs: seq<Transaction>, f: TxFilter): (r: seq<Transaction>)
    ensures |r| == if |Selected(txs, f)| <= LIMIT then |Selected(txs, f)| else LIMIT
    ensures r == Selected(txs, f)[..|r|]
  {
    Take(Selected(txs, f), LIMIT)
  }

  /** `transaction.description || 'Tanpa deskripsi'`. */
  function DescriptionText(t: Transaction): (r: string)
    ensures r == NO_DESCRIPTION <==> t.description.None? || t.description.value == "" || t.description.value == NO_DESCRIPTION
    ensures t.description.Some? && t.description.value != "" ==> r == t.description.value
  {
    match t.description
    case None => NO_DESCRIPTION
    case Some(d) => if d == "" then NO_DESCRIPTION else d
  }

  /** The category name shown for a row: that of the first category with the
      row's id, or the placeholder. */
  function CategoryName(cats: seq<Category>, t: Transaction): (r: string)
    ensures (forall c :: c in cats ==> Some(c.id) != t.categoryId) ==> r == NO_CATEGORY
    ensures (exists c :: c in cats && Some(c.id) == t.categoryId) ==> exists c :: c in cats && Some(c.id) == t.categoryId && r == c.name
    ensures forall i :: 0 <= i < |cats| && Some(cats[i].id) == t.categoryId
                        && (forall j :: 0 <= j < i ==> Some(cats[j].id) != t.categoryId)
                        ==> r == cats[i].name
  {
    FindCategoryFirst(cats, t.categoryId);
    match FindCategory(cats, t.categoryId)
    case None => NO_CATEGORY
    case Some(c) => c.name
  }

  /** The five quoted fields of one export line. */
  datatype ExportRow = ExportRow(date: string, description: string, category: string, amount: string, kind: string)

  /** One export row; `formatDate` and `formatNumber` stand for the locale
      formatting of the date and of the amount. */
  function RowOf(t: Transaction, cats: seq<Category>, formatDate: Day -> string, formatNumber: real -> string): (r: ExportRow)
    ensures r.date == formatDate(t.date)
    ensures r.description == DescriptionText(t)
    ensures r.category == CategoryName(cats, t)
    ensures r.amount == (if IsIncome(t) then "Rp" else "-Rp") + formatNumber(Amount(t))
    ensures r.kind == INCOME_LABEL <==> IsIncome(t)
    ensures r.kind == INCOME_LABEL || r.kind == EXPENSE_LABEL
  {
    ExportRow(
      formatDate(t.date),
      DescriptionText(t),
      CategoryName(cats, t),
      (if IsIncome(t) then "Rp" else "-Rp") + formatNumber(Amount(t)),
      if IsIncome(t) then INCOME_LABEL else EXPENSE_LABEL)
  }

  function Line(r: ExportRow): string
  {
    "\"" + r.date + "\",\"" + r.description + "\",\"" + r.category + "\",\"" + r.amount + "\",\"" + r.kind + "\"\n"
  }

  /** The texts `f` gives the elements, one after another. */
  function JoinAll<T>(xs: seq<T>, f: T -> string): string
  {
    if |xs| == 0 then "" else f(xs[0]) + JoinAll(xs[1..], f)
  }

  function Lines(rows: seq<ExportRow>): string
  {
    JoinAll(rows, Line)
  }

  function ExportRows(txs: seq<Transaction>, cats: seq<Category>, f: TxFilter,
                      formatDate: Day -> string, formatNumber: real -> string): (r: seq<ExportRow>)
    ensures |r| <= LIMIT
    ensures |r| == if |Selected(txs, f)| <= LIMIT then |Selected(txs, f)| else LIMIT
    ensures forall i :: 0 <= i < |r| ==> r[i] == RowOf(Selected(txs, f)[i], cats, formatDate, formatNumber)
  {
    Map(Shown(txs, f), (t: Transaction) => RowOf(t, cats, formatDate, formatNumber))
  }

  /** `csvContent`: the header line, then one line per listed row. */
  function ExportCsv(txs: seq<Transaction>, cats: seq<Category>, f: TxFilter,
                     formatDate: Day -> string, formatNumber: real -> string): (r: string)
    ensures |r| >= |HEADER| && r[..|HEADER|] == HEADER
  {
    HEADER + Lines(ExportRows(txs, cats, f, formatDate, formatNumber))
  }

  lemma {:induction false} JoinAllAppend<T>(a: seq<T>, b: seq<T>, f: T -> string)
    ensures JoinAll(a + b, f) == JoinAll(a, f) + JoinAll(b, f)
  {
    if |a| > 0 {
      assert (a + b)[0] == a[0] && (a + b)[1..] == a[1..] + b;
      JoinAllAppend(a[1..], b, f);
    } else {
      assert a + b == b;
    }
  }

  /** Element `i`'s text follows the texts of the elements before it. */
  lemma JoinAllSplit<T>(xs: seq<T>, f: T -> string, i: nat)
    requires i < |xs|
    ensures JoinAll(xs, f) == JoinAll(xs[..i], f) + f(xs[i]) + JoinAll(xs[i + 1..], f)
  {
    assert xs == xs[..i] + xs[i..];
    JoinAllAppend(xs[..i], xs[i..], f);
    assert xs[i..][0] == xs[i] && xs[i..][1..] == xs[i + 1..];
  }

  /** After a `head`, element `i`'s text starts where the texts of the
      elements before it end. */
  lemma JoinAllAt<T>(head: string, xs: seq<T>, f: T -> string, i: nat)
    requires i < |xs|
    ensures |head| + |JoinAll(xs[..i], f)| + |f(xs[i])| <= |head + JoinAll(xs, f)|
    ensures (head + JoinAll(xs, f))[|head| + |JoinAll(xs[..i], f)|..|head| + |JoinAll(xs[..i], f)| + |f(xs[i])|] == f(xs[i])
  {
    JoinAllSplit(xs, f, i);
    var before := head + JoinAll(xs[..i], f);
    var piece := f(xs[i]);
    var after := JoinAll(xs[i + 1..], f);
    assert head + JoinAll(xs, f) == before + piece + after;
    assert (before + piece + after)[|before|..|before| + |piece|] == piece;
  }

  /** The file is the header and then, in order, one line per listed row:
      row `i`'s line starts right after the header and the lines of the
      rows before it, and the file ends with the last row's line. */
  lemma ExportLayout(txs: seq<Transaction>, cats: seq<Category>, f: TxFilter,
                     formatDate: Day -> string, formatNumber: real -> string)
    ensures forall i :: 0 <= i < |ExportRows(txs, cats, f, formatDate, formatNumber)| ==>
              LineAt(ExportCsv(txs, cats, f, formatDate, formatNumber), ExportRows(txs, cats, f, formatDate, formatNumber), i)
    ensures |ExportCsv(txs, cats, f, formatDate, formatNumber)|
            == |HEADER| + |Lines(ExportRows(txs, cats, f, formatDate, formatNumber))|
  {
    var rows := ExportRows(txs, cats, f, formatDate, formatNumber);
    var csv := ExportCsv(txs, cats, f, formatDate, formatNumber);
    assert csv == HEADER + Lines(rows);
    forall i | 0 <= i < |rows| ensures LineAt(csv, rows, i) {
      RowLineAt(rows, i);
    }
  }

  lemma RowLineAt(rows: seq<ExportRow>, i: nat)
    requires i < |rows|
    ensures LineAt(HEADER + Lines(rows), rows, i)
  {
    JoinAllAt(HEADER, rows, Line, i);
  }

  /** Row `i`'s line sits in `csv` right after the header and the lines of
      the rows before it. */
  predicate LineAt(csv: string, rows: seq<ExportRow>, i: nat)
    requires i < |rows|
  {
    var at := |HEADER| + |Lines(rows[..i])|;
    at + |Line(rows[i])| <= |csv| && csv[at..at + |Line(rows[i])|] == Line(rows[i])
  }

  /** No field of the row holds a line break. */
  predicate SingleLine(r: ExportRow)
  {
    '\n' !in r.date && '\n' !in r.description && '\n' !in r.category && '\n' !in r.amount && '\n' !in r.kind
  }

  lemma LineBreaks(r: ExportRow)
    requires SingleLine(r)
    ensures CountChar(Line(r), '\n') == 1
  {
    CountCharAbsent(r.date, '\n');
    CountCharAbsent(r.description, '\n');
    CountCharAbsent(r.category, '\n');
    CountCharAbsent(r.amount, '\n');
    CountCharAbsent(r.kind, '\n');
    var q := "\"";
    var sep := "\",\"";
    var tail := "\"\n";
    assert Line(r) == q + r.date + sep + r.description + sep + r.category + sep + r.amount + sep + r.kind + tail;
    CountCharAppend(q, r.date, '\n');
    CountCharAppend(q + r.date, sep, '\n');
    CountCharAppend(q + r.date + sep, r.description, '\n');
    CountCharAppend(q + r.date + sep + r.description, sep, '\n');
    CountCharAppend(q + r.date + sep + r.description + sep, r.category, '\n');
    CountCharAppend(q + r.date + sep + r.description + sep + r.category, sep, '\n');
    CountCharAppend(q + r.date + sep + r.description + sep + r.category + sep, r.amount, '\n');
    CountCharAppend(q + r.date + sep + r.description + sep + r.category + sep + r.amount, sep, '\n');
    CountCharAppend(q + r.date + sep + r.description + sep + r.category + sep + r.amount + sep, r.kind, '\n');
    CountCharAppend(q + r.date + sep + r.description + sep + r.category + sep + r.amount + sep + r.kind, tail, '\n');
  }

  lemma {:induction false} LinesBreaks(rows: seq<ExportRow>)
    requires forall i :: 0 <= i < |rows| ==> SingleLine(rows[i])
    ensures CountChar(Lines(rows), '\n') == |rows|
  {
    if |rows| > 0 {
      LineBreaks(rows[0]);
      LinesBreaks(rows[1..]);
      CountCharAppend(Line(rows[0]), Lines(rows[1..]), '\n');
    }
  }

  lemma RowSingleLine(t: Transaction, cats: seq<Category>, formatDate: Day -> string, formatNumber: real -> string)
    requires t.description.None? || '\n' !in t.description.value
    requires forall c :: c in cats ==> '\n' !in c.name
    requires '\n' !in formatDate(t.date) && '\n' !in formatNumber(Amount(t))
    ensures SingleLine(RowOf(t, cats, formatDate, formatNumber))
  {
    var sign := if IsIncome(t) then "Rp" else "-Rp";
    assert '\n' !in sign + formatNumber(Amount(t));
    assert '\n' !in DescriptionText(t) by {
      assert '\n' !in NO_DESCRIPTION;
    }
    assert '\n' !in CategoryName(cats, t) by {
      assert '\n' !in NO_CATEGORY;
    }
    assert '\n' !in INCOME_LABEL && '\n' !in EXPENSE_LABEL;
  }

  /** When no date text, description, category name or amount text holds a
      line break, the export is the header and min(10, n) lines for the n
      selected transactions. */
  lemma ExportLineCount(txs: seq<Transaction>, cats: seq<Category>, f: TxFilter,
                        formatDate: Day -> string, formatNumber: real -> string)
    requires forall t :: t in txs ==> t.description.None? || '\n' !in t.description.value
    requires forall c :: c in cats ==> '\n' !in c.name
    requires forall d :: '\n' !in formatDate(d)
    requires forall x :: '\n' !in formatNumber(x)
    ensures CountChar(ExportCsv(txs, cats, f, formatDate, formatNumber), '\n')
            == 1 + (if |Selected(txs, f)| <= LIMIT then |Selected(txs, f)| else LIMIT)
  {
    var rows := ExportRows(txs, cats, f, formatDate, formatNumber);
    RowsSingleLine(txs, cats, f, formatDate, formatNumber);
    LinesBreaks(rows);
    HeaderBreaks();
    CountCharAppend(HEADER, Lines(rows), '\n');
  }

  lemma RowsSingleLine(txs: seq<Transaction>, cats: seq<Category>, f: TxFilter,
                       formatDate: Day -> string, formatNumber: real -> string)
    requires forall t :: t in txs ==> t.description.None? || '\n' !in t.description.value
    requires forall c :: c in cats ==> '\n' !in c.name
    requires forall d :: '\n' !in formatDate(d)
    requires forall x :: '\n' !in formatNumber(x)
    ensures forall i :: 0 <= i < |ExportRows(txs, cats, f, formatDate, formatNumber)| ==>
              SingleLine(ExportRows(txs, cats, f, formatDate, formatNumber)[i])
  {
    var rows := ExportRows(txs, cats, f, formatDate, formatNumber);
    var sel := Selected(txs, f);
    forall i | 0 <= i < |rows| ensures SingleLine(rows[i]) {
      assert sel[i] in txs;
      RowSingleLine(sel[i], cats, formatDate, formatNumber);
    }
  }

  lemma HeaderBreaks()
    ensures CountChar(HEADER, '\n') == 1
  {
    var title := "Tanggal,Deskripsi,Kategori,Jumlah,Tipe";
    assert HEADER == title + "\n";
    assert '\n' !in title;
    CountCharAbsent(title, '\n');
    CountCharAppend(title, "\n", '\n');
  }

  /** One row of the on-screen table. */
  datatype TableRow = TableRow(id: string, date: string, description: string, category: Option<Category>,
                               positive: bool, amount: real)

  function TableRows(txs: seq<Transaction>, cats: seq<Category>, f: TxFilter, formatDate: Day -> string): (r: seq<TableRow>)
    ensures |r| == |Shown(txs, f)|
    ensures forall i :: 0 <= i < |r| ==> r[i].id == Shown(txs, f)[i].id
  {
    Map(Shown(txs, f), (t: Transaction) =>
      TableRow(t.id, formatDate(t.date), DescriptionText(t), FindCategory(cats, t.categoryId), IsIncome(t), Amount(t)))
  }

  /** The export writes the rows the table shows: the same transactions in
      the same order, with the same date, description and category text and
      the same sign. */
  lemma ExportMatchesTable(txs: seq<Transaction>, cats: seq<Category>, f: TxFilter,
                           formatDate: Day -> string, formatNumber: real -> string)
    ensures |ExportRows(txs, cats, f, formatDate, formatNumber)| == |TableRows(txs, cats, f, formatDate)|
    ensures forall i :: 0 <= i < |TableRows(txs, cats, f, formatDate)| ==>
              var e := ExportRows(txs, cats, f, formatDate, formatNumber)[i];
              var t := TableRows(txs, cats, f, formatDate)[i];
              e.date == t.date && e.description == t.description
              && e.category == (if t.category.Some? then t.category.value.name else NO_CATEGORY)
              && (e.kind == INCOME_LABEL <==> t.positive)
              && e.amount == (if t.positive then "Rp" else "-Rp") + formatNumber(t.amount)
  {
  }

  function CategoryAllowed(kind: string): Category -> bool
  {
    (c: Category) => kind == ALL || c.kind == kind
  }

  /** The category choices of the table filter: every category for "all",
      otherwise those of the chosen type. */
  function CategoryChoices(cats: seq<Category>, kind: string): (r: seq<Category>)
    ensures forall c :: c in r <==> c in cats && (kind == ALL || c.kind == kind)
  {
    Filter(cats, CategoryAllowed(kind))
  }
}
