/** The payment-source manager: the labels of the source types, the icon
    glyphs, and the form transitions of the page. */
module SourceManager {
  import opened Values
  import opened Records
  import opened Forms

  datatype SourceForm = SourceForm(name: string, kind: string, color: string, icon: string)

  /** `{ name: '', type: 'cash', color: '#3B82F6', icon: 'wallet' }`, the form
      every reset restores. */
  const BLANK := SourceForm("", "cash", "#3B82F6", "wallet")

  /** The type codes the page knows, each with its label. */
  const TYPE_LABELS: map<string, string> :=
    map["cash" := "Cash", "debit" := "Debit Card", "credit" := "Credit Card",
        "e-wallet" := "E-Wallet", "bank" := "Bank Transfer", "other" := "Other"]

  /** `typeMap[type] || type`. */
  function FormatSourceType(code: string): (r: string)
    ensures code == "cash" ==> r == "Cash"
    ensures code == "debit" ==> r == "Debit Card"
    ensures code == "credit" ==> r == "Credit Card"
    ensures code == "e-wallet" ==> r == "E-Wallet"
    ensures code == "bank" ==> r == "Bank Transfer"
    ensures code == "other" ==> r == "Other"
    ensures code !in TYPE_LABELS ==> r == code
  {
    if code in TYPE_LABELS && TYPE_LABELS[code] != "" then TYPE_LABELS[code] else code
  }

  /** A label never spells a type code, so a type is shown unchanged exactly
      when the page does not know it, and known types keep distinct
      labels. */
  lemma FormatSourceTypeFacts(a: string, b: string)
    ensures FormatSourceType(a) == a <==> a !in TYPE_LABELS
    ensures a in TYPE_LABELS && b in TYPE_LABELS && a != b ==> FormatSourceType(a) != FormatSourceType(b)
  {
  }

  const WALLET := "\U{1F4B0}"
  const CARD := "\U{1F4B3}"
  const BANK := "\U{1F3E6}"
  const BRIEFCASE := "\U{1F4BC}"

  /** The glyph inside a source's badge: the five `icon === … && glyph`
      expressions side by side, of which at most one renders. */
  function Glyph(icon: string): (r: string)
    ensures icon == "wallet" ==> r == WALLET
    ensures icon == "credit_card" || icon == "payment" ==> r == CARD
    ensures icon == "account_balance" ==> r == BANK
    ensures icon == "account_balance_wallet" ==> r == BRIEFCASE
    ensures icon !in {"wallet", "credit_card", "account_balance", "payment", "account_balance_wallet"} ==> r == ""
  {
    (if icon == "wallet" then WALLET else "")
    + (if icon == "credit_card" then CARD else "")
    + (if icon == "account_balance" then BANK else "")
    + (if icon == "payment" then CARD else "")
    + (if icon == "account_balance_wallet" then BRIEFCASE else "")
  }

  /** Two different icons share a glyph only when they are `credit_card` and
      `payment`, or when neither renders one. */
  lemma SharedGlyph(a: string, b: string)
    requires a != b && Glyph(a) == Glyph(b)
    ensures ({a, b} == {"credit_card", "payment"}) || Glyph(a) == ""
  {
    var known := {"wallet", "credit_card", "account_balance", "payment", "account_balance_wallet"};
    if a in known && b in known {
      assert WALLET != CARD && WALLET != BANK && WALLET != BRIEFCASE;
      assert CARD != BANK && CARD != BRIEFCASE && BANK != BRIEFCASE;
    } else if a in known {
      assert Glyph(a) != "";
    }
  }

  datatype Field = NameField | KindField | ColorField | IconField

  function Get(form: SourceForm, f: Field): string
  {
    match f
    case NameField => form.name
    case KindField => form.kind
    case ColorField => form.color
    case IconField => form.icon
  }

  /** `handleInputChange`: the named field takes the value. */
  function Change(form: SourceForm, f: Field, value: string): (r: SourceForm)
    ensures Get(r, f) == value
    ensures forall g :: g != f ==> Get(r, g) == Get(form, g)
  {
    match f
    case NameField => form.(name := value)
    case KindField => form.(kind := value)
    case ColorField => form.(color := value)
    case IconField => form.(icon := value)
  }

  function FormOf(s: Source): SourceForm
  {
    SourceForm(s.name, s.kind, s.color, s.icon)
  }

  function IdOf(s: Source): string
  {
    s.id
  }

  type Page = Editor<SourceForm, Source>

  /** `handleEdit`: the form holds the source's name, type, colour and icon,
      the source is the one being edited, and the form shows. */
  function StartEdit(page: Page, s: Source): (r: Page)
    ensures Get(r.form, NameField) == s.name && Get(r.form, KindField) == s.kind
            && Get(r.form, ColorField) == s.color && Get(r.form, IconField) == s.icon
    ensures r.editing == Some(s) && r.showForm && r.error == page.error
  {
    Edit(page, s, FormOf)
  }

  /** `handleNewSource`. */
  function NewSource(page: Page): (r: Page)
    ensures r.form == BLANK && r.editing.None? && r.showForm
  {
    OpenNew(page, BLANK)
  }

  /** The cancel button. */
  function CancelSource(page: Page): (r: Page)
    ensures r.form == BLANK && r.editing.None? && !r.showForm
  {
    Cancel(page, BLANK)
  }

  /** `handleSubmit`: the write, then the page after the store's answer. */
  function Submit(page: Page, answer: Write<SourceForm> -> Option<string>): (r: (Page, Write<SourceForm>))
    ensures r.1.Update? <==> page.editing.Some?
    ensures r.1.Update? ==> r.1.id == page.editing.value.id
    ensures r.1.data == page.form
    ensures answer(r.1).Some? ==>
              r.0.form == page.form && r.0.editing == page.editing && r.0.showForm == page.showForm
              && r.0.error == Some("Error saving source: " + answer(r.1).value)
    ensures answer(r.1).None? ==> r.0.form == BLANK && r.0.editing.None? && !r.0.showForm
  {
    var w := WriteFor(page, IdOf);
    (AfterSave(page, answer(w), BLANK, "Error saving source: "), w)
  }

  /** Every way out of the form (cancel, a successful save) and every way
      into a new one restore the same blank form. */
  lemma ResetsAgree(page: Page, answer: Write<SourceForm> -> Option<string>)
    ensures NewSource(page).form == CancelSource(page).form == BLANK
    ensures answer(Submit(page, answer).1).None? ==> Submit(page, answer).0 == CancelSource(page)
  {
  }
}
