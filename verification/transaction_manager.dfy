/** The transaction manager page: its form, the payload it submits, the form
    it derives from a row being edited, and what submit and cancel do to the
    page. `parseFloat` of typed text is a parameter. */
module TransactionManager {
  import opened Values
  import opened JsStrings
  import opened Calendar
  import opened Records
  import opened Forms

  /** The amount field: text typed into the input, or the stored amount
      that `handleEdit` copied (a number, or null). */
  datatype AmountField = Typed(text: string) | Stored(amount: Option<real>)

  datatype TxForm = TxForm(
    kind: string,
    amount: AmountField,
    description: string,
    date: string,
    sourceId: string,
    categoryId: string)

  /** The fields `handleInputChange` can set, by their input `name`. */
  datatype Field = KindField | AmountInput | DescriptionField | DateField | SourceField | CategoryField

  function Get(form: TxForm, f: Field): AmountField
  {
    match f
    case KindField => Typed(form.kind)
    case AmountInput => form.amount
    case DescriptionField => Typed(form.description)
    case DateField => Typed(form.date)
    case SourceField => Typed(form.sourceId)
    case CategoryField => Typed(form.categoryId)
  }

  /** `setFormData(prev => ({ ...prev, [name]: value }))`. */
  function Change(form: TxForm, f: Field, value: string): (r: TxForm)
    ensures Get(r, f) == Typed(value)
    ensures forall g :: g != f ==> Get(r, g) == Get(form, g)
  {
    match f
    case KindField => form.(kind := value)
    case AmountInput => form.(amount := Typed(value))
    case DescriptionField => form.(description := value)
    case DateField => form.(date := value)
    case SourceField => form.(sourceId := value)
    case CategoryField => form.(categoryId := value)
  }

  /** The blank form: an expense dated `today` (the ISO date of now). */
  function Blank(today: string): TxForm
  {
    TxForm(EXPENSE, Typed(""), "", today, "", "")
  }

  /** `parseFloat(formData.amount)`: typed text goes through `parse`, a
      copied number is itself and a copied null is NaN. */
  function ParsedAmount(a: AmountField, parse: string -> Num): (r: Num)
    ensures a.Stored? ==> r == ParseAmount(a.amount)
  {
    match a
    case Typed(text) => parse(text)
    case Stored(amount) => ParseAmount(amount)
  }

  const PAYLOAD_KEYS: set<string> := {"type", "amount", "description", "date", "source_id", "category_id"}

  /** The submitted object: the form's fields with the amount parsed and an
      empty category or source id sent as null. */
  function Payload(form: TxForm, parse: string -> Num): (r: Record)
    ensures r.Keys == PAYLOAD_KEYS
    ensures r["type"] == Text(form.kind) && r["description"] == Text(form.description)
            && r["date"] == Text(form.date)
    ensures r["amount"] == Number(ParsedAmount(form.amount, parse))
    ensures r["category_id"] == Null <==> form.categoryId == ""
    ensures form.categoryId != "" ==> r["category_id"] == Text(form.categoryId)
    ensures r["source_id"] == Null <==> form.sourceId == ""
    ensures form.sourceId != "" ==> r["source_id"] == Text(form.sourceId)
  {
    map["type" := Text(form.kind),
        "amount" := Number(ParsedAmount(form.amount, parse)),
        "description" := Text(form.description),
        "date" := Text(form.date),
        "source_id" := IdValue(IdOrNull(form.sourceId)),
        "category_id" := IdValue(IdOrNull(form.categoryId))]
  }

  /** `x || ''` on an optional text column. */
  function OrEmpty(x: Option<string>): (r: string)
    ensures r == "" <==> !Truthy(x)
    ensures Truthy(x) ==> r == x.value
  {
    match x
    case Some(s) => s
    case None => ""
  }

  /** `handleEdit`'s form: the row's type and amount, a null description or
      id as '', and the stored date text cut at the first `T`, which leaves
      the stored `YYYY-MM-DD` whole. */
  function EditForm(t: Transaction): (r: TxForm)
    ensures r.kind == t.kind && r.amount == Stored(t.amount)
    ensures r.description == OrEmpty(t.description)
    ensures r.date == DateText(t.date)
    ensures r.sourceId == OrEmpty(t.sourceId) && r.categoryId == OrEmpty(t.categoryId)
  {
    DateTextHasNoT(t.date);
    TxForm(t.kind, Stored(t.amount), OrEmpty(t.description), BeforeFirst(DateText(t.date), 'T'),
           OrEmpty(t.sourceId), OrEmpty(t.categoryId))
  }

  /** An id column that is null or names something, never ''. */
  predicate CleanId(x: Option<string>)
  {
    x.None? || x.value != ""
  }

  /** Editing a row and submitting the form unchanged sends the row's own
      type, amount, date and ids back; only a null description comes back
      as ''. */
  lemma EditRoundTrip(t: Transaction, parse: string -> Num)
    requires CleanId(t.categoryId) && CleanId(t.sourceId)
    ensures var p := Payload(EditForm(t), parse);
            p["category_id"] == IdValue(t.categoryId) && p["source_id"] == IdValue(t.sourceId)
            && p["amount"] == Number(ParseAmount(t.amount))
            && p["type"] == Text(t.kind) && p["date"] == Text(DateText(t.date))
            && p["description"] == Text(OrEmpty(t.description))
  {
    var p := Payload(EditForm(t), parse);
    assert p["category_id"] == IdValue(t.categoryId) by {
      if t.categoryId.Some? {
        assert Truthy(t.categoryId);
      }
    }
    assert p["source_id"] == IdValue(t.sourceId) by {
      if t.sourceId.Some? {
        assert Truthy(t.sourceId);
      }
    }
  }

  /** An id stored as '' does not survive the round trip: it comes back
      null. */
  lemma EmptyIdComesBackNull(t: Transaction, parse: string -> Num)
    requires t.categoryId == Some("")
    ensures Payload(EditForm(t), parse)["category_id"] == Null != IdValue(t.categoryId)
  {
  }

  type Page = Editor<TxForm, Transaction>

  /** The write a submit issues: an update of the edited row's id, or a
      create, carrying the payload of the form. */
  datatype Call = UpdateCall(id: string, changes: Record) | CreateCall(row: Record)

  function SubmitCall(page: Page, parse: string -> Num): (r: Call)
    ensures r.UpdateCall? <==> page.editing.Some?
    ensures r.UpdateCall? ==> r.id == page.editing.value.id && r.changes == Payload(page.form, parse)
    ensures r.CreateCall? ==> r.row == Payload(page.form, parse)
  {
    match page.editing
    case Some(t) => UpdateCall(t.id, Payload(page.form, parse))
    case None => CreateCall(Payload(page.form, parse))
  }

  /** The page after the service answers a submit: the error is cleared
      first; an error result shows its message and keeps the form and the
      edit; success resets the form, forgets the edit and hides the form. */
  function AfterSubmit(page: Page, error: Option<string>, today: string): (r: Page)
    ensures error.Some? ==>
              r.form == page.form && r.editing == page.editing && r.showForm == page.showForm
              && r.error == error
    ensures error.None? ==> r.form == Blank(today) && r.editing.None? && !r.showForm && r.error.None?
  {
    match error
    case Some(message) => page.(error := Some(message))
    case None => Editor(Blank(today), None, false, None)
  }

  /** `handleEdit` on this page. */
  function StartEdit(page: Page, t: Transaction): (r: Page)
    ensures r.form == EditForm(t) && r.editing == Some(t) && r.showForm && r.error == page.error
  {
    Edit(page, t, EditForm)
  }

  /** `handleCancel`. */
  function CancelEdit(page: Page, today: string): (r: Page)
    ensures r.form == Blank(today) && r.editing.None? && !r.showForm && r.error == page.error
  {
    Cancel(page, Blank(today))
  }

  /** A successful submit and a cancel leave the same form behind; they
      differ only in that submit clears the error. */
  lemma SubmitSuccessIsCancel(page: Page, today: string)
    ensures AfterSubmit(page, None, today) == CancelEdit(page, today).(error := None)
  {
  }

  /** Submitting straight after `handleEdit` updates that row with the
      payload of the form derived from it. */
  lemma EditThenSubmit(page: Page, t: Transaction, parse: string -> Num)
    ensures SubmitCall(StartEdit(page, t), parse) == UpdateCall(t.id, Payload(EditForm(t), parse))
  {
  }

  /** The category select of the form. */
  function Options(page: Page, cats: seq<Category>): (r: seq<Category>)
    ensures forall c :: c in r <==>
              c in cats && c.kind == page.form.kind && (page.form.kind == INCOME || page.form.kind == EXPENSE)
  {
    CategoryOptions(cats, page.form.kind)
  }
}
