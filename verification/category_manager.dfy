/** The category manager: the labels of the two category types, the split
    of the list into an income and an expense section, and the form
    transitions of the page. */
module CategoryManager {
  import opened Values
  import opened Seqs
  import opened Records
  import opened Forms

  datatype CategoryForm = CategoryForm(name: string, kind: string, color: string)

  /** `{ name: '', type: 'expense', color: '#EF4444' }`, the form every reset
      restores. */
  const BLANK := CategoryForm("", EXPENSE, "#EF4444")

  const INCOME_LABEL := "Pemasukan"
  const EXPENSE_LABEL := "Pengeluaran"

  /** `typeMap[type] || type`. */
  function FormatCategoryType(code: string): (r: string)
    ensures code == INCOME ==> r == INCOME_LABEL
    ensures code == EXPENSE ==> r == EXPENSE_LABEL
    ensures code != INCOME && code != EXPENSE ==> r == code
  {
    if code == INCOME then INCOME_LABEL else if code == EXPENSE then EXPENSE_LABEL else code
  }

  /** A type is shown unchanged exactly when it is neither of the two. */
  lemma FormatCategoryTypeFixed(code: string)
    ensures FormatCategoryType(code) == code <==> code != INCOME && code != EXPENSE
  {
  }

  /** The two sections of the list, each in list order. */
  function Sections(cats: seq<Category>): (r: (seq<Category>, seq<Category>))
    ensures forall c :: c in r.0 <==> c in cats && c.kind == INCOME
    ensures forall c :: c in r.1 <==> c in cats && c.kind == EXPENSE
  {
    (Filter(cats, KindIs(INCOME)), Filter(cats, KindIs(EXPENSE)))
  }

  function OtherKind(c: Category): bool
  {
    c.kind != INCOME && c.kind != EXPENSE
  }

  /** The sections never share a category, and together with the categories
      of any other type, which neither shows, they account for the whole
      list. */
  lemma {:induction false} SectionsPartition(cats: seq<Category>)
    ensures forall c :: !(c in Sections(cats).0 && c in Sections(cats).1)
    ensures forall c :: c in cats && OtherKind(c) ==> c !in Sections(cats).0 && c !in Sections(cats).1
    ensures |Sections(cats).0| + |Sections(cats).1| + CountWhere(cats, OtherKind) == |cats|
  {
    FilterLength(cats, KindIs(INCOME));
    FilterLength(cats, KindIs(EXPENSE));
    KindCounts(cats);
  }

  lemma {:induction false} KindCounts(cats: seq<Category>)
    ensures CountWhere(cats, KindIs(INCOME)) + CountWhere(cats, KindIs(EXPENSE)) + CountWhere(cats, OtherKind)
            == |cats|
  {
    if |cats| > 0 {
      KindCounts(cats[1..]);
    }
  }

  datatype Field = NameField | KindField | ColorField

  function Get(form: CategoryForm, f: Field): string
  {
    match f
    case NameField => form.name
    case KindField => form.kind
    case ColorField => form.color
  }

  /** `handleInputChange`: the named field takes the value. */
  function Change(form: CategoryForm, f: Field, value: string): (r: CategoryForm)
    ensures Get(r, f) == value
    ensures forall g :: g != f ==> Get(r, g) == Get(form, g)
  {
    match f
    case NameField => form.(name := value)
    case KindField => form.(kind := value)
    case ColorField => form.(color := value)
  }

  function FormOf(c: Category): CategoryForm
  {
    CategoryForm(c.name, c.kind, c.color)
  }

  function IdOf(c: Category): string
  {
    c.id
  }

  type Page = Editor<CategoryForm, Category>

  /** `handleEdit`: the form holds the category's name, type and colour, the
      category is the one being edited, and the form shows. */
  function StartEdit(page: Page, c: Category): (r: Page)
    ensures Get(r.form, NameField) == c.name && Get(r.form, KindField) == c.kind
            && Get(r.form, ColorField) == c.color
    ensures r.editing == Some(c) && r.showForm && r.error == page.error
  {
    Edit(page, c, FormOf)
  }

  /** `handleNewCategory`. */
  function NewCategory(page: Page): (r: Page)
    ensures r.form == BLANK && r.editing.None? && r.showForm
  {
    OpenNew(page, BLANK)
  }

  /** The cancel button. */
  function CancelCategory(page: Page): (r: Page)
    ensures r.form == BLANK && r.editing.None? && !r.showForm
  {
    Cancel(page, BLANK)
  }

  /** `handleSubmit`: the write, then the page after the store's answer. */
  function Submit(page: Page, answer: Write<CategoryForm> -> Option<string>): (r: (Page, Write<CategoryForm>))
    ensures r.1.Update? <==> page.editing.Some?
    ensures r.1.Update? ==> r.1.id == page.editing.value.id
    ensures r.1.data == page.form
    ensures answer(r.1).Some? ==>
              r.0.form == page.form && r.0.editing == page.editing && r.0.showForm == page.showForm
              && r.0.error == Some("Error saving category: " + answer(r.1).value)
    ensures answer(r.1).None? ==> r.0.form == BLANK && r.0.editing.None? && !r.0.showForm
  {
    var w := WriteFor(page, IdOf);
    (AfterSave(page, answer(w), BLANK, "Error saving category: "), w)
  }

  /** Every reset path restores the same blank form. */
  lemma ResetsAgree(page: Page, answer: Write<CategoryForm> -> Option<string>)
    ensures NewCategory(page).form == CancelCategory(page).form == BLANK
    ensures answer(Submit(page, answer).1).None? ==> Submit(page, answer).0 == CancelCategory(page)
  {
  }
}
