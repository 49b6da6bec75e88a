/** Values shared by the whole model: optional values, the result of a remote
    call, JavaScript numbers with NaN, and the loosely typed records that the
    pages hand to the transaction service. */
module Values {

  /** `null` / absent versus present. */
  datatype Option<+T> = None | Some(value: T)

  /** What a remote call hands back: rows, or the error it reported. */
  datatype Result<+T> = Ok(value: T) | Err(error: string)

  /** A JavaScript number as the code meets it: a finite value, or NaN, which
      is what `parseFloat` yields for a missing amount. */
  datatype Num = Finite(v: real) | NaN

  /** `a + b` on JavaScript numbers: NaN absorbs every sum it enters. */
  function Add(a: Num, b: Num): Num
  {
    if a.Finite? && b.Finite? then Finite(a.v + b.v) else NaN
  }

  /** `x || 0` on a number: NaN and 0 are falsy and both give 0. */
  function OrZero(x: Num): real
  {
    match x
    case Finite(v) => v
    case NaN => 0.0
  }

  /** `parseFloat(t.amount || 0)`: a missing amount counts as 0. */
  function AmountOrZero(amount: Option<real>): real
  {
    match amount
    case Some(v) => v
    case None => 0.0
  }

  /** `parseFloat(t.amount)`: a missing amount is NaN. */
  function ParseAmount(amount: Option<real>): Num
  {
    match amount
    case Some(v) => Finite(v)
    case None => NaN
  }

  /** JavaScript truthiness of an optional id: null and '' are falsy. */
  predicate Truthy(id: Option<string>)
  {
    id.Some? && id.value != ""
  }

  /** `s || null` for a form field that holds an id. */
  function IdOrNull(s: string): Option<string>
  {
    if s == "" then None else Some(s)
  }

  /** A field of a JavaScript object sent to or read from the store. */
  datatype Value = Text(s: string) | Number(n: Num) | Null

  type Record = map<string, Value>

  /** The store value of an optional id column. */
  function IdValue(id: Option<string>): Value
  {
    match id
    case Some(s) => Text(s)
    case None => Null
  }

  /** Adding `parseFloat` of each amount in turn to `acc`, as a `reduce` or
      a `+=` loop does. */
  function JsSumFrom(acc: Num, xs: seq<Option<real>>): Num
    decreases |xs|
  {
    if |xs| == 0 then acc else JsSumFrom(Add(acc, ParseAmount(xs[0])), xs[1..])
  }

  /** `xs.reduce((sum, x) => sum + parseFloat(x), 0)`. */
  function JsSum(xs: seq<Option<real>>): Num
  {
    JsSumFrom(Finite(0.0), xs)
  }

  /** The plain sum of the amounts, a missing one counting as 0. */
  function RealSum(xs: seq<Option<real>>): real
  {
    if |xs| == 0 then 0.0 else AmountOrZero(xs[0]) + RealSum(xs[1..])
  }

  predicate AllPresent(xs: seq<Option<real>>)
  {
    forall i :: 0 <= i < |xs| ==> xs[i].Some?
  }

  /** A running JavaScript sum stays a number exactly while it starts from a
      number and no amount is missing, and then it is the plain sum. */
  lemma {:induction false} JsSumFromMeaning(acc: Num, xs: seq<Option<real>>)
    ensures JsSumFrom(acc, xs).Finite? <==> acc.Finite? && AllPresent(xs)
    ensures JsSumFrom(acc, xs).Finite? ==> JsSumFrom(acc, xs).v == acc.v + RealSum(xs)
    decreases |xs|
  {
    if |xs| > 0 {
      var rest := xs[1..];
      JsSumFromMeaning(Add(acc, ParseAmount(xs[0])), rest);
      assert AllPresent(xs) <==> xs[0].Some? && AllPresent(rest) by {
        if xs[0].Some? && AllPresent(rest) {
          forall i | 0 <= i < |xs| ensures xs[i].Some? {
            if i > 0 { assert xs[i] == rest[i - 1]; }
          }
        }
      }
    }
  }

  /** A JavaScript sum of amounts is NaN exactly when one amount is missing,
      and otherwise it is the plain sum. */
  lemma JsSumMeaning(xs: seq<Option<real>>)
    ensures JsSum(xs).Finite? <==> AllPresent(xs)
    ensures JsSum(xs).Finite? ==> JsSum(xs).v == RealSum(xs)
  {
    JsSumFromMeaning(Finite(0.0), xs);
  }
}
