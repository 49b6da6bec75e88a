/** What the editing pages have in common: the category select of the
    transaction forms, and the state of a list page with an inline form
    (the form, the row being edited, whether the form shows, the error). */
module Forms {
  import opened Values
  import opened Seqs
  import opened Records

  function KindIs(kind: string): Category -> bool
  {
    (c: Category) => c.kind == kind
  }

  /** The `<option>`s of the category select: the income categories for an
      income form, the expense categories for an expense form, in list
      order, and none for any other type. */
  function CategoryOptions(cats: seq<Category>, kind: string): (r: seq<Category>)
    ensures forall c :: c in r <==> c in cats && c.kind == kind && (kind == INCOME || kind == EXPENSE)
    ensures kind == INCOME || kind == EXPENSE ==> |r| == CountWhere(cats, KindIs(kind))
    ensures kind != INCOME && kind != EXPENSE ==> r == []
  {
    if kind == INCOME || kind == EXPENSE then
      FilterLength(cats, KindIs(kind));
      Filter(cats, KindIs(kind))
    else []
  }

  /** A list page's form state. */
  datatype Editor<F, R> = Editor(form: F, editing: Option<R>, showForm: bool, error: Option<string>)

  /** The write a submit issues: an update of the row being edited, or a
      create. */
  datatype Write<F> = Create(data: F) | Update(id: string, data: F)

  /** `handleEdit`: the form is filled from the row, which becomes the one
      being edited, and the form shows. */
  function Edit<F, R>(e: Editor<F, R>, row: R, formOf: R -> F): (r: Editor<F, R>)
    ensures r.form == formOf(row) && r.editing == Some(row) && r.showForm
    ensures r.error == e.error
  {
    Editor(formOf(row), Some(row), true, e.error)
  }

  /** The "add" button: a blank form, nothing being edited, form shown. */
  function OpenNew<F, R>(e: Editor<F, R>, blank: F): (r: Editor<F, R>)
    ensures r.form == blank && r.editing.None? && r.showForm
    ensures r.error == e.error
  {
    Editor(blank, None, true, e.error)
  }

  /** The cancel button: the form hides, nothing is being edited and the
      form is blank again. */
  function Cancel<F, R>(e: Editor<F, R>, blank: F): (r: Editor<F, R>)
    ensures r.form == blank && r.editing.None? && !r.showForm
    ensures r.error == e.error
  {
    Editor(blank, None, false, e.error)
  }

  /** `editing ? update(editing.id, formData) : create(formData)`. */
  function WriteFor<F, R>(e: Editor<F, R>, idOf: R -> string): (w: Write<F>)
    ensures w.Update? <==> e.editing.Some?
    ensures w.data == e.form
    ensures w.Update? ==> w.id == idOf(e.editing.value)
  {
    match e.editing
    case Some(row) => Update(idOf(row), e.form)
    case None => Create(e.form)
  }

  /** Submitting right after `handleEdit` updates that row with the form
      derived from it. */
  lemma EditThenWrite<F, R>(e: Editor<F, R>, row: R, formOf: R -> F, idOf: R -> string)
    ensures WriteFor(Edit(e, row, formOf), idOf) == Update(idOf(row), formOf(row))
  {
  }

  /** Cancelling an edit leaves no trace of it. */
  lemma CancelForgetsEdit<F, R>(e: Editor<F, R>, row: R, formOf: R -> F, blank: F)
    ensures Cancel(Edit(e, row, formOf), blank) == Cancel(e, blank)
  {
  }

  /** What a list page does with the store's answer to a write: an error is
      shown after the page's `prefix` ("Error saving source: ", say) and the
      form stays as it was; success hides a blank form and forgets the
      edit. */
  function AfterSave<F, R>(e: Editor<F, R>, error: Option<string>, blank: F, prefix: string): (r: Editor<F, R>)
    ensures error.Some? ==> r == e.(error := Some(prefix + error.value))
    ensures error.None? ==> r == Cancel(e, blank)
  {
    match error
    case Some(message) => e.(error := Some(prefix + message))
    case None => Editor(blank, None, false, e.error)
  }
}
