/** The transaction record as the dashboard and report pages read it, and the
    classification rule the dashboard applies to its `type` property. */
module Records {

  datatype Option<+T> = None | Some(value: T)

  /** A month of the year as `Date.prototype.getMonth` numbers it: 0 is January. */
  type Month = m: int | 0 <= m < 12

  /** One stored transaction, as the client sees it after parsing.
      `kind` is the `type` property (None when it is absent),
      `amount` is the parsed amount (None when parsing gives NaN),
      `date` is the month of `new Date(date)` (None when the date is invalid). */
  datatype Transaction = Transaction(
    kind: Option<string>,
    category: string,
    amount: Option<real>,
    date: Option<Month>)

  /** `parseFloat(t.amount) || 0`: NaN (and -0) become 0. */
  function AmountOrZero(t: Transaction): real {
    match t.amount
    case Some(a) => a
    case None => 0.0
  }

  function LowerChar(c: char): char {
    if 'A' <= c <= 'Z' then (c as int + 32) as char else c
  }

  /** `String.prototype.toLowerCase`, restricted to the ASCII letters (the only
      characters whose lower case can be one of the letters of "income" or
      "expense"); every other character is kept. */
  function Lower(s: string): (r: string)
    ensures |r| == |s|
    ensures forall i :: 0 <= i < |s| ==> r[i] == LowerChar(s[i])
  {
    if s == [] then [] else [LowerChar(s[0])] + Lower(s[1..])
  }

  datatype Class = Income | Expense | Unclassified

  /** The dashboard's rule: a record is income or expense when its type,
      lower-cased, is exactly "income" or "expense"; anything else, including
      a missing type, is unclassified. */
  function Classify(t: Transaction): (c: Class)
    ensures c == Income <==> t.kind.Some? && Lower(t.kind.value) == "income"
    ensures c == Expense <==> t.kind.Some? && Lower(t.kind.value) == "expense"
  {
    match t.kind
    case None => Unclassified
    case Some(k) =>
      if Lower(k) == "income" then Income
      else if Lower(k) == "expense" then Expense
      else Unclassified
  }

  /** The type is matched without regard to case. */
  lemma ClassifyIgnoresCase(t: Transaction, k: string)
    requires t.kind.Some? && Lower(t.kind.value) == Lower(k)
    ensures Classify(t) == Classify(t.(kind := Some(k)))
  {
  }

  /** The two spellings the add-transaction form produces classify as expected. */
  lemma FormTypesClassify(t: Transaction)
    ensures t.kind == Some("Expense") ==> Classify(t) == Expense
    ensures t.kind == Some("Income") ==> Classify(t) == Income
  {
  }
}
