# finance-app-react: a Dafny model of its reporting and form logic

This project models the part of the personal-finance web app that computes
over lists it already holds:

- the report page's period filter, summary, monthly buckets, per-category
  totals and CSV export;
- the dashboard's month selector, summary and per-source totals, and its
  guarded ratios;
- the account breakdown doughnut's slices and legends;
- the transaction service's client-side category join, its `getSummary`
  arithmetic, its `user_id` stamping and its "No user" short-circuits;
- the submit payloads, edit forms and form-state transitions of the
  transaction, add-transaction, registration, source and category pages.

Rows are immutable datatypes (`Records.Transaction`, `Records.Category`,
`Records.Source`). Dates are calendar triples with a 0-based month, as
JavaScript's `Date` reports them. "Now" is a parameter.

Amounts are `Option<real>`, where `None` is a null column. JavaScript's
`parseFloat(null)` is NaN and NaN poisons a sum, so `Values.Num` keeps NaN
explicitly. `x || 0` turns it back into 0 (`Values.OrZero`), and
`parseFloat(x || 0)` is `Values.AmountOrZero`.

Everything that crosses the network is an input:

- the fetched rows and the categories table are `Result` values;
- the store is a function from a request to its reply;
- the source-name lookup is a function from the requested ids to a `Result`;
- a sign-up or save is a function from the call to its error.

Locale formatting (`toLocaleString`, `Intl.NumberFormat`,
`toLocaleDateString`) and `parseFloat` of typed text are function
parameters too.

Modules follow the program:

- `Values`, `Seqs`, `JsStrings` and `Calendar` hold JavaScript semantics and
  the list and string toolkit.
- `Records` holds the rows.
- `ReportPeriods`, `ReportTotals`, `MonthlyReport` and `ReportExport` model
  the reports page.
- `Dashboard` and `Breakdown` model the dashboard and its chart.
- `TransactionService` models the service.
- `Forms` holds the state shared by the list pages.
- `TransactionManager`, `AddTransaction`, `Register`, `SourceManager` and
  `CategoryManager` model one page or component each.

## Model

| member | source | states |
|---|---|---|
| ReportPeriods.PeriodInterval | src/pages/Reports.jsx:50-81 | the page filters by an interval exactly when the period is not a custom one with a date missing |
| ReportPeriods.FilterByPeriod | src/pages/Reports.jsx:50-81 | a row is kept iff it is in the list and its date, read as a calendar day, lies in the period's calendar meaning; a custom period with either date empty keeps the whole list |
| ReportPeriods.IntervalMeaning | src/pages/Reports.jsx:57-81 | the bounds built with `new Date(y, m, d)` (day 0 and month overflow included) cover exactly the current month, the previous month (December of last year in January), or the current year, with dates read as calendar days (the program's behaviour at UTC) |
| ReportTotals.SelectionSum | src/pages/Dashboard.jsx:221-232 | a JavaScript sum of `parseFloat(amount)` over selected rows is a number iff every selected row has an amount, and it is then their real sum |
| ReportTotals.ReportSummary | src/pages/Reports.jsx:93-106 | total income is the sum over income rows and total expense over expense rows, a missing amount counting 0; balance is their difference; the count is the list length |
| ReportTotals.SummaryPartition | src/pages/Reports.jsx:93-106 | income, expense and the amounts of rows of any other type add up to the total of every amount: the summary partitions the list by type (exact reals; see Floating-point rounding) |
| ReportTotals.SummaryPermutation | src/pages/Reports.jsx:93-106 | the summary does not depend on the order of the fetched rows (exact reals; see Floating-point rounding) |
| ReportTotals.SummaryAppend | src/pages/Reports.jsx:93-106 | the summary of two lists joined is the sum of their summaries (exact reals; see Floating-point rounding) |
| ReportTotals.TotalFor | src/pages/Reports.jsx:199-206 | a category's total sums the rows whose `category_id` matches it, whatever their type, and its count is the number of those rows |
| ReportTotals.CategoryTotals | src/pages/Reports.jsx:199-207 | the list is the totals of exactly the categories whose rows add up to more than zero, one per such category in category order, each with its total and count |
| ReportTotals.PositiveTotalsInOrder | src/pages/Reports.jsx:199-207 | dropping the non-positive totals of all categories gives the totals of the charged categories, in their order |
| ReportTotals.CategoryTotalsCountEveryType | src/pages/Reports.jsx:199-207 | with non-negative amounts, one positive row in a category puts the category on the list |
| ReportTotals.CategorySection | src/pages/Reports.jsx:436-440 | the income section lists exactly the category totals of income categories, and the expense section (lines 466-470) those of expense categories |
| MonthlyReport.BucketMeaning | src/pages/Reports.jsx:112-121 | a month key is in a bucket iff some selected row falls in that month, and its value is the sum of those rows' amounts |
| MonthlyReport.Months | src/pages/Reports.jsx:123-125 | the months are increasing, at most 12 and each the month of some row; a month left out is earlier than every month kept; with fewer than 12 every month with a row is kept |
| MonthlyReport.MonthsAreObjectKeys | src/pages/Reports.jsx:123-125 | sorting the keys of the two merged bucket objects and taking the last 12 gives those months, whatever order the keys come in |
| MonthlyReport.MonthlyData | src/pages/Reports.jsx:127-132 | one row per month in that order; income sums the income rows of the month, expense all other rows of the month, and balance is their difference |
| MonthlyReport.MonthlyPermutation | src/pages/Reports.jsx:109-132 | the monthly table does not depend on the order of the rows (exact reals; see Floating-point rounding) |
| MonthlyReport.MonthlyChronological | src/pages/Reports.jsx:112-125 | for four-digit years, an earlier table row holds a strictly earlier calendar month |
| MonthlyReport.MonthlyMatchesSummary | src/pages/Reports.jsx:93-132 | with at most 12 months, the rows' incomes add up to the summary's income, and their expenses to the summary's expense plus the amounts of rows of any other type |
| ReportExport.Selected | src/pages/Reports.jsx:163-169 | a row is exported iff it matches the type and the category filter; type `all` with no category keeps the list as it is |
| ReportExport.Shown | src/pages/Reports.jsx:171 | the first min(10, n) selected rows |
| ReportExport.DescriptionText | src/pages/Reports.jsx:184 | a null or empty description prints as `Tanpa deskripsi`, any other as itself |
| ReportExport.CategoryName | src/pages/Reports.jsx:177-178 | the name of the first category with the row's id, or `Tanpa kategori` when none has it |
| ReportExport.RowOf | src/pages/Reports.jsx:177-184 | the fields are the formatted date, the description or `Tanpa deskripsi`, the category name or `Tanpa kategori`, the amount with `Rp` for an income row and `-Rp` for any other, and the label `Pemasukan` iff income, else `Pengeluaran` |
| ReportExport.ExportRows | src/pages/Reports.jsx:171-185 | at most 10 rows, in order, one per shown transaction |
| ReportExport.ExportCsv | src/pages/Reports.jsx:174-185 | the file starts with the header `Tanggal,Deskripsi,Kategori,Jumlah,Tipe` |
| ReportExport.ExportLayout | src/pages/Reports.jsx:174-185 | after the header come the rows' lines in order: row i's line starts right after the header and the lines of rows 0..i-1, and the file ends with the last row's line |
| ReportExport.ExportLineCount | src/pages/Reports.jsx:174-185 | when no field contains a line break, the file has exactly 1 + min(10, n) lines |
| ReportExport.ExportMatchesTable | src/pages/Reports.jsx:540-557 | the exported rows are the transactions of the on-screen table, one for one |
| ReportExport.CategoryChoices | src/pages/Reports.jsx:514-519 | the category select lists the categories of the chosen type, or all of them for `all` |
| Dashboard.TargetMonth | src/pages/Dashboard.jsx:51-72 | `current` targets now's month; `last_month` targets the previous month, rolling January over to December of the previous year; every other selector targets nothing |
| Dashboard.Displayed | src/pages/Dashboard.jsx:49-75 | a row is shown iff it is fetched and falls in the targeted month; with no target the list is unfiltered |
| Dashboard.SameAsDisplayed | src/pages/Dashboard.jsx:151-171 | the filter behind the summary count selects the same list as the one stored for display |
| Dashboard.DisplayedAgreesWithReports | src/pages/Dashboard.jsx:51-72 | the dashboard's `current` and `last_month` keep the same rows as the report page's `current_month` and `last_month` |
| Dashboard.Seed | src/pages/Dashboard.jsx:209-216 | the table has an entry exactly for each source the lookup returned, named as its last occurrence and starting at zero |
| Dashboard.LookupRequest | src/pages/Dashboard.jsx:196-206 | the ids asked for have no duplicates and are exactly the truthy source ids of the period's income and expense rows |
| Dashboard.SourcesSummary | src/pages/Dashboard.jsx:196-232 | the keys are those the lookup seeded, in insertion order; a source's income and expense are the JavaScript sums over its income and expense rows; rows with no or an unknown source are ignored |
| Dashboard.Credit | src/pages/Dashboard.jsx:221-225 | one row credits only the entry of the source it names, when that source is in the table, adding its parsed amount to income or expense; the keys and every other entry are unchanged |
| Dashboard.Accumulate | src/pages/Dashboard.jsx:221-232 | crediting a list keeps the table's keys and their insertion order |
| Dashboard.AccumulateMeaning | src/pages/Dashboard.jsx:221-232 | after the list, each source's income (or expense) is the JavaScript sum, from its starting value, of the amounts of the rows naming it; names and the other column are unchanged |
| Dashboard.SourceTotalsMeaning | src/pages/Dashboard.jsx:221-232 | a source's income is a number iff every income row of that source has an amount, and then it is their sum; likewise for expense |
| Dashboard.Summarize | src/pages/Dashboard.jsx:87-171 | on a failed summary fetch, all zero with no sources; otherwise the income, expense and count of the displayed rows and their per-source table; balance is income minus expense |
| Dashboard.SourceNet | src/pages/Dashboard.jsx:465 | the net shown for a source is never negative and is either 0 or income minus expense, NaN reading as 0 |
| Dashboard.Distribution | src/pages/Dashboard.jsx:652 | the first min(5, n) sources in insertion order |
| Dashboard.SavingsRate | src/pages/Dashboard.jsx:542-544 | defined iff income is positive; then it is max(0, income - expense) as a percentage of income, between 0 and 100 for non-negative expense |
| Dashboard.BudgetRatio | src/pages/Dashboard.jsx:617 | defined iff income is positive; then it is expense as a percentage of income |
| Dashboard.RingOffset | src/pages/Dashboard.jsx:587-596 | the ring is empty without income, and otherwise offset by the budget ratio's share of its circumference |
| Breakdown.ChartCategories | src/components/AccountBreakdownChart.jsx:7-18 | income or expense filters keep the categories of that type; otherwise every income category comes before every expense category |
| Breakdown.ShareOf | src/components/AccountBreakdownChart.jsx:21-27 | a category's total counts only rows with its id and its own type |
| Breakdown.SharesAgreeWithReports | src/components/AccountBreakdownChart.jsx:21-23 | when every row of a category has the category's type, the chart's total equals the report page's category total |
| Breakdown.ChartShares | src/components/AccountBreakdownChart.jsx:21-28 | the shares are those of exactly the filtered categories whose counted rows add up to more than zero, one per such category in list order |
| Breakdown.PositiveSharesInOrder | src/components/AccountBreakdownChart.jsx:21-28 | dropping the non-positive shares of all categories gives the shares of the drawn categories, in their order |
| Breakdown.SweepOf | src/components/AccountBreakdownChart.jsx:87-102 | a slice's angle is its share of 360 degrees; the large-arc flag is set iff the slice is more than half the total |
| Breakdown.DrawnArcs | src/components/AccountBreakdownChart.jsx:86-109 | for positive shares the total is positive, every slice has positive sweep, and the last slice ends at 270 degrees |
| Breakdown.ArcsFrom | src/components/AccountBreakdownChart.jsx:86-109 | one slice per share; each starts where the one before ended, sweeps its share's part of 360 degrees and takes the large arc iff its sweep exceeds 180 |
| Breakdown.Chart | src/components/AccountBreakdownChart.jsx:34-109 | slice i sweeps charted category i's total as a part of the charted total times 360 degrees; the first slice starts at -90 degrees, each starts where the previous ended, and together they go once around |
| Breakdown.LegendLabel | src/components/AccountBreakdownChart.jsx:155 | a zero total shows `Rp0`, a positive one `Rp` and its formatted amount, in both legends (line 173 too) |
| Breakdown.Legend | src/components/AccountBreakdownChart.jsx:143-178 | at most three income categories unless the filter is expense and at most three expense categories unless it is income, the first ones in list order |
| TransactionService.CategoryIds | src/services/transactionService.js:25 | the ids looked up have no duplicates and are exactly the truthy category ids of the rows |
| TransactionService.GetTransactions | src/services/transactionService.js:5-56 | no user gives no rows and `No user`; a failed fetch gives no rows and its error; otherwise every row comes back in order, unchanged, with a category iff the lookup succeeded and one of the user's categories has the row's id, and then that category |
| TransactionService.GetTransaction | src/services/transactionService.js:59-94 | no user or a failed fetch gives null data; otherwise the row comes back with a category iff exactly one of the user's categories has its truthy id |
| TransactionService.ItemAgreesWithList | src/services/transactionService.js:76-93 | with category ids unique, reading one row attaches the same category as listing all of them |
| TransactionService.Stamped | src/services/transactionService.js:103-106 | the inserted row is the caller's with `user_id` set to the current user, overriding any caller value |
| TransactionService.CreateTransaction | src/services/transactionService.js:97-111 | no user gives null data and `No user` and sends nothing; otherwise the stamped row is inserted and the store's reply returned |
| TransactionService.UpdateTransaction | src/services/transactionService.js:114-127 | no user sends nothing; otherwise the update is scoped to that id and the current user |
| TransactionService.DeleteTransaction | src/services/transactionService.js:130-141 | the reply is only an error; no user sends nothing |
| TransactionService.GetSummary | src/services/transactionService.js:144-185 | errors in order (no user, income query, expense query); otherwise each total is the sum of its amounts, or 0 as soon as one is missing; balance is the difference and the count is the number of rows of both queries |
| TransactionService.SummaryOfRows | src/services/transactionService.js:173-182 | when every income and expense row has an amount, the service's totals and balance equal the report page's over the same rows |
| TransactionService.MissingAmountZeroesIncome | src/services/transactionService.js:173 | one income row without an amount makes the reported total income 0 |
| Forms.CategoryOptions | src/pages/TransactionManager.jsx:183-184 | an income form offers exactly the income categories and an expense form the expense ones, as many as there are; any other type offers none |
| Forms.WriteFor | src/components/SourceManager.jsx:53-57 | submit updates the edited row by its id when editing, and creates otherwise, with the form as data |
| Forms.AfterSave | src/components/SourceManager.jsx:58-66 | an error keeps the form and the edit and shows the prefixed message; success hides a blank form and forgets the edit |
| TransactionManager.Change | src/pages/TransactionManager.jsx:73-79 | only the named field changes |
| TransactionManager.Payload | src/pages/TransactionManager.jsx:88-101 | exactly the six columns; type, description and date copied; amount parsed; an empty category or source id sent as null and any other kept |
| TransactionManager.EditForm | src/pages/TransactionManager.jsx:126-134 | the form copies type and amount, turns a null description or id into '', and keeps the whole stored date |
| TransactionManager.EditRoundTrip | src/pages/TransactionManager.jsx:88-134 | for ids that are null or non-empty, submitting the edit form unchanged sends back the row's own ids, type, amount and date |
| TransactionManager.EmptyIdComesBackNull | src/pages/TransactionManager.jsx:92-93 | an id stored as '' comes back null |
| TransactionManager.SubmitCall | src/pages/TransactionManager.jsx:88-102 | an update keyed by the edited row's id when editing, a create otherwise, each carrying the payload |
| TransactionManager.AfterSubmit | src/pages/TransactionManager.jsx:104-116 | an error keeps the form, the edit and the visibility and shows the message; success gives the blank expense form, no edit, hidden, no error |
| TransactionManager.SubmitSuccessIsCancel | src/pages/TransactionManager.jsx:107-116 | a successful submit and a cancel leave the same page, apart from the cleared error |
| TransactionManager.StartEdit | src/pages/TransactionManager.jsx:126-137 | the form becomes the row's edit form, the row is the one being edited, and the form shows |
| TransactionManager.CancelEdit | src/pages/TransactionManager.jsx:154-165 | cancel restores the blank form, forgets the edit and hides the form |
| TransactionManager.Options | src/pages/TransactionManager.jsx:269-278 | the options are exactly the categories of the form's type |
| AddTransaction.Change | src/pages/AddTransaction.jsx:41-47 | only the named field changes |
| AddTransaction.Initial | src/pages/AddTransaction.jsx:11-18 | an expense dated today with every other field empty |
| AddTransaction.Payload | src/pages/AddTransaction.jsx:55-59 | amount parsed, an empty category id sent as null, every other field passed through, the free-text source included |
| AddTransaction.AfterSubmit | src/pages/AddTransaction.jsx:63-67 | success navigates to `/`; an error stays and shows its message |
| AddTransaction.CancelAdd | src/pages/AddTransaction.jsx:75-77 | cancel navigates to `/` |
| AddTransaction.Options | src/pages/AddTransaction.jsx:145-154 | the options are exactly the categories of the form's type |
| AddTransaction.TypeSwitch | src/pages/AddTransaction.jsx:41-47 | switching the type changes the options to that type's categories and leaves every other field, amount and category id included, as it was |
| Register.Change | src/pages/Register.jsx:43-48 | only the named field changes |
| Register.Validate | src/pages/Register.jsx:23-28 | a mismatch gives `Password tidak cocok` whatever the length; matching passwords under 6 characters give `Password minimal 6 karakter`; no error iff they match and are long enough |
| Register.FailureText | src/pages/Register.jsx:37 | the failure's own message when it has one, `Pendaftaran gagal` otherwise |
| Register.Submit | src/pages/Register.jsx:18-41 | sign-up is called iff validation passes, with the form's email, password and username; the page navigates to `/` iff it succeeds and otherwise shows the error |
| SourceManager.FormatSourceType | src/components/SourceManager.jsx:105-115 | the six type codes get their six labels and any other code is returned unchanged |
| SourceManager.FormatSourceTypeFacts | src/components/SourceManager.jsx:105-115 | a code is shown as itself iff it is unknown; distinct known codes get distinct labels |
| SourceManager.Glyph | src/components/SourceManager.jsx:242-246 | each known icon gets its glyph; `credit_card` and `payment` share one; an unknown icon gets none |
| SourceManager.SharedGlyph | src/components/SourceManager.jsx:242-246 | two different icons with the same glyph are `credit_card` and `payment`, or have no glyph |
| SourceManager.Change | src/components/SourceManager.jsx:41-47 | only the named field changes |
| SourceManager.StartEdit | src/components/SourceManager.jsx:73-82 | name, type, color and icon are copied, the source is being edited and the form shows |
| SourceManager.NewSource | src/components/SourceManager.jsx:99-103 | a blank cash form with the default color and wallet icon, nothing being edited, shown |
| SourceManager.CancelSource | src/components/SourceManager.jsx:217-221 | the blank form, nothing being edited, hidden |
| SourceManager.Submit | src/components/SourceManager.jsx:49-71 | an update when editing and a create otherwise; an error keeps the form and prefixes the message; success resets, forgets the edit and hides |
| SourceManager.ResetsAgree | src/components/SourceManager.jsx:63 | the reset after a successful save is the cancel state, and the add button opens the same blank form |
| CategoryManager.FormatCategoryType | src/components/CategoryManager.jsx:103-109 | income shows as `Pemasukan`, expense as `Pengeluaran`, anything else unchanged |
| CategoryManager.FormatCategoryTypeFixed | src/components/CategoryManager.jsx:103-109 | a code is shown as itself iff it is neither income nor expense |
| CategoryManager.Sections | src/components/CategoryManager.jsx:212-213 | the income section holds exactly the income categories and the expense section the expense ones |
| CategoryManager.SectionsPartition | src/components/CategoryManager.jsx:212-213 | no category is in both sections, one of another type is in neither, and the two sections and the others add up to the list |
| CategoryManager.Change | src/components/CategoryManager.jsx:40-46 | only the named field changes |
| CategoryManager.StartEdit | src/components/CategoryManager.jsx:72-80 | name, type and color are copied, the category is being edited and the form shows |
| CategoryManager.NewCategory | src/components/CategoryManager.jsx:97-101 | a blank expense form with the default color, nothing being edited, shown |
| CategoryManager.CancelCategory | src/components/CategoryManager.jsx:191-195 | the blank form, nothing being edited, hidden |
| CategoryManager.Submit | src/components/CategoryManager.jsx:48-70 | an update when editing and a create otherwise; an error keeps the form and prefixes the message; success resets, forgets the edit and hides |
| CategoryManager.ResetsAgree | src/components/CategoryManager.jsx:62 | the reset after a successful save is the cancel state, and the add button opens the same blank form |

## Left out

- Time zones: every date is read as a calendar day, which is what the program does only in a zone at UTC. `new Date('YYYY-MM-DD')` is UTC midnight, but the period bounds `new Date(y, m, d)` and `getMonth`/`getFullYear` are local time, so other zones differ:
  - East of UTC (UTC+7, say), a row dated the last day of `current_month`, `last_month` or `current_year` parses after that period's end bound. The end bound is local midnight at the start of the last day (Reports.jsx lines 60, 68 and 76), so the report drops the row.
  - West of UTC, a row dated the first day of such a period parses to the evening before, so the report drops it.
  - West of UTC, the dashboard's month filter and the report's month keys count a first-of-month row in the previous month.
  - A custom range parses both ends the same way as the rows and is not shifted.
- ReportPeriods.IntervalMeaning: "covers exactly" holds only at UTC; see Time zones.
- ReportPeriods.FilterByPeriod: keeps a row by its calendar day, as the program does only at UTC; see Time zones.
- Time of day: stored dates are `YYYY-MM-DD` without a time, so cutting at `T` is the identity (proved, not assumed).
- Typed amount text: `parseFloat` of a form field is a parameter, because number parsing is library code.
- Stored amounts: a null amount is kept as NaN where the code reads it with `parseFloat` and no `|| 0`. This is deliberate, because NaN changes what the dashboard's per-source totals and the service's totals show.
- Locale formatting: `toLocaleString`, `Intl.NumberFormat`, `toLocaleDateString` and `toFixed(1)` are parameters, or are left to the displayed real.
- Async and effects: async sequencing, loading flags, `fetchAllData`/`fetchCategories` refreshes, `setTimeout` redraws and the `catch` paths of thrown exceptions.
- Deletes on the pages: `window.confirm` and the pages' delete handlers. The service's delete is modelled.
- Export file: the Blob download and the file name with today's date.
- Floating-point rounding: amounts, totals, percentages and angles are exact reals, while JavaScript computes with IEEE-754 doubles. Double addition is not associative: (0.1 + 0.2) + 0.3 is 0.6000000000000001, but 0.1 + (0.2 + 0.3) is 0.6. The totals therefore match the program only while every partial sum is exact. That holds for whole amounts with totals below 2^53, and the amount inputs of both transaction forms are `type="number"` with the default step of 1, so they accept whole rupiah only. Amounts stored by other means are not covered.
- ReportTotals.SummaryPermutation: order-independence holds for the program's doubles only under the whole-amount condition of Floating-point rounding.
- ReportTotals.SummaryAppend: additivity holds for the program's doubles only under the whole-amount condition of Floating-point rounding.
- ReportTotals.SummaryPartition: the partition identity holds for the program's doubles only under the whole-amount condition of Floating-point rounding.
- MonthlyReport.MonthlyPermutation: order-independence holds for the program's doubles only under the whole-amount condition of Floating-point rounding.
- Drawing: the canvas pie of the dashboard and the cos/sin coordinates of the SVG arcs, which are floating-point graphics. The angles are kept as reals.
- CSV quoting: each field is wrapped in quotes and embedded quotes are not doubled, as section 2 of RFC 4180 would require. The model states the emitted text, not a parse of it.
- Object key order: `sourcesSummary` keeps JavaScript's insertion order. Integer-like ids would be listed first in numeric order, which is not modelled because source ids are UUIDs.
- Password length: it is counted in characters, whereas JavaScript counts UTF-16 code units; the two differ only for characters outside the Basic Multilingual Plane.
- Null data: `data || []` is modelled as an empty list.
- Query limit and ordering: the store's ordering by date and its `limit(50)`/`limit(100)` are the store's. The fetched rows are taken as given.
- Query scoping: the `.eq('user_id', …)` and `.eq('type', …)` scoping of `getSummary`'s queries is the store's. The model receives the amounts those queries return.
- `typeMap` lookups: an inherited key such as `toString` would find an `Object.prototype` member. Only own keys are modelled.
- Error objects: errors are strings. `error.message || error` and the `Error fetching …` prefixes of page-level messages are not modelled.
- Theme and routing: `Layout.jsx`, `App.jsx`, `ErrorBoundary.jsx` and the auth context. The backend wrappers `supabase.js`, `categoryService.js` and `sourceService.js` are not part of this model.
- MonthlyReport.MonthlyMatchesSummary: stated only when there are at most 12 months, because older months are cut from the table but stay in the summary.
- TransactionService.GetTransaction: the single-row category query is modelled as a filter of the table that succeeds only for exactly one match, as `.single()` does.
