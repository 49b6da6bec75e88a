/** The add-transaction page: a form of text fields, the object it sends to
    the service, and where the page goes after the service answers. */
module AddTransaction {
  import opened Values
  import opened Records
  import opened Forms

  datatype AddForm = AddForm(
    kind: string,
    amount: string,
    description: string,
    date: string,
    source: string,
    categoryId: string)

  /** The inputs, by their `name`. */
  datatype Field = KindField | AmountField | DescriptionField | DateField | SourceField | CategoryField

  function Get(form: AddForm, f: Field): string
  {
    match f
    case KindField => form.kind
    case AmountField => form.amount
    case DescriptionField => form.description
    case DateField => form.date
    case SourceField => form.source
    case CategoryField => form.categoryId
  }

  /** `handleChange`: the named field takes the value, the others keep
      theirs. */
  function Change(form: AddForm, f: Field, value: string): (r: AddForm)
    ensures Get(r, f) == value
    ensures forall g :: g != f ==> Get(r, g) == Get(form, g)
  {
    match f
    case KindField => form.(kind := value)
    case AmountField => form.(amount := value)
    case DescriptionField => form.(description := value)
    case DateField => form.(date := value)
    case SourceField => form.(source := value)
    case CategoryField => form.(categoryId := value)
  }

  /** The form the page opens with: an expense dated `today`, every other
      field empty. */
  function Initial(today: string): (r: AddForm)
    ensures r.kind == EXPENSE && r.date == today
    ensures forall f :: f != KindField && f != DateField ==> Get(r, f) == ""
  {
    AddForm(EXPENSE, "", "", today, "", "")
  }

  const PAYLOAD_KEYS: set<string> := {"type", "amount", "description", "date", "source", "category_id"}

  /** `{ ...formData, amount: parseFloat(formData.amount), category_id:
      formData.category_id || null }`; `parse` stands for `parseFloat`. */
  function Payload(form: AddForm, parse: string -> Num): (r: Record)
    ensures r.Keys == PAYLOAD_KEYS
    ensures r["amount"] == Number(parse(form.amount))
    ensures r["category_id"] == Null <==> form.categoryId == ""
    ensures form.categoryId != "" ==> r["category_id"] == Text(form.categoryId)
    ensures r["type"] == Text(form.kind) && r["description"] == Text(form.description)
            && r["date"] == Text(form.date) && r["source"] == Text(form.source)
  {
    map["type" := Text(form.kind),
        "amount" := Number(parse(form.amount)),
        "description" := Text(form.description),
        "date" := Text(form.date),
        "source" := Text(form.source),
        "category_id" := IdValue(IdOrNull(form.categoryId))]
  }

  /** Where the page is after a submit or a cancel. */
  datatype Outcome = Navigate(path: string) | Stay(error: string)

  /** Success goes to the dashboard; an error keeps the page and shows its
      message. */
  function AfterSubmit(error: Option<string>): (r: Outcome)
    ensures r.Navigate? <==> error.None?
    ensures r.Navigate? ==> r.path == "/"
    ensures error.Some? ==> r == Stay(error.value)
  {
    match error
    case Some(message) => Stay(message)
    case None => Navigate("/")
  }

  /** `handleCancel`. */
  function CancelAdd(): (r: Outcome)
    ensures r == Navigate("/")
  {
    Navigate("/")
  }

  /** The category select: the categories of the form's type. */
  function Options(form: AddForm, cats: seq<Category>): (r: seq<Category>)
    ensures forall c :: c in r <==>
              c in cats && c.kind == form.kind && (form.kind == INCOME || form.kind == EXPENSE)
  {
    CategoryOptions(cats, form.kind)
  }

  /** Switching the type replaces the category choices by those of the new
      type, leaving what was typed elsewhere alone. */
  lemma TypeSwitch(form: AddForm, cats: seq<Category>, kind: string)
    requires kind == INCOME || kind == EXPENSE
    ensures var after := Change(form, KindField, kind);
            (forall c :: c in Options(after, cats) <==> c in cats && c.kind == kind)
            && after.amount == form.amount && after.categoryId == form.categoryId
            && (forall g :: g != KindField ==> Get(after, g) == Get(form, g))
  {
    var after := Change(form, KindField, kind);
    assert Get(after, AmountField) == Get(form, AmountField);
    assert Get(after, CategoryField) == Get(form, CategoryField);
  }
}
