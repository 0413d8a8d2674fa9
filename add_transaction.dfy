/** The add-transaction form: its fields, the category choices that depend on
    the selected type, the type change that clears the category, and the
    submit step that checks the user and the required fields, builds the new
    record, and resets the form once the server has accepted it. */
module AddTransaction {
  import opened Records

  const ExpenseList: seq<string> := [
    "Home", "Food", "Transportation", "Health", "Personal", "Education",
    "Technology", "Entertainment", "Family", "Others"]

  const IncomeList: seq<string> := ["Salary", "Pocket Money", "Business", "Tutoring"]

  /** The signed-in user; either property may be missing. */
  datatype User = User(email: Option<string>, displayName: Option<string>)

  /** The record the form sends to the server. `amount` is the parsed amount
      (None when `parseFloat` gives NaN). */
  datatype NewTransaction = NewTransaction(
    kind: string,
    category: string,
    amount: Option<real>,
    description: string,
    date: string,
    createdAt: string,
    userEmail: string,
    userName: string)

  datatype SubmitError = NotLoggedIn | MissingFields | RequestFailed

  datatype Result<+T> = Success(value: T) | Failure(error: SubmitError)

  /** `x || ""` for an optional string: a missing or empty value becomes "". */
  function OrEmpty(o: Option<string>): (s: string)
    ensures o.Some? ==> s == o.value
    ensures o.None? ==> s == ""
  {
    match o
    case Some(v) => v
    case None => ""
  }

  /** The checks of the submit handler and the record it builds: no user is
      rejected first, then an empty category, amount or date; otherwise the
      record copies the form's fields, parses the amount and takes the
      user's email and name (or ""). */
  function Prepare(user: Option<User>, kind: string, category: string, amount: string,
                   description: string, date: string,
                   parseAmount: string -> Option<real>, createdAt: string): (r: Result<NewTransaction>)
    ensures r == Failure(NotLoggedIn) <==> user.None?
    ensures r == Failure(MissingFields) <==> user.Some? && (category == "" || amount == "" || date == "")
    ensures r.Success? <==> user.Some? && category != "" && amount != "" && date != ""
    ensures r.Success? ==>
      && r.value.kind == kind && r.value.category == category
      && r.value.description == description && r.value.date == date
      && r.value.amount == parseAmount(amount) && r.value.createdAt == createdAt
      && r.value.userEmail == OrEmpty(user.value.email)
      && r.value.userName == OrEmpty(user.value.displayName)
  {
    if user.None? then Failure(NotLoggedIn)
    else if category == "" || amount == "" || date == "" then Failure(MissingFields)
    else Success(NewTransaction(kind, category, parseAmount(amount), description, date, createdAt,
                                OrEmpty(user.value.email), OrEmpty(user.value.displayName)))
  }

  /** An amount of "0" is a filled-in field: only the empty string is missing. */
  lemma ZeroAmountIsPresent(user: User, kind: string, category: string, description: string, date: string,
                            parseAmount: string -> Option<real>, createdAt: string)
    requires category != "" && date != ""
    ensures Prepare(Some(user), kind, category, "0", description, date, parseAmount, createdAt).Success?
  {
  }

  /** A user without an email or display name still gets a record, with "" in
      those fields. */
  lemma AnonymousFieldsDefaultToEmpty(kind: string, category: string, amount: string, description: string,
                                      date: string, parseAmount: string -> Option<real>, createdAt: string)
    requires category != "" && amount != "" && date != ""
    ensures var r := Prepare(Some(User(None, None)), kind, category, amount, description, date, parseAmount, createdAt);
            r.Success? && r.value.userEmail == "" && r.value.userName == ""
  {
  }

  /** The category choices for a type: the expense list for "Expense", the
      income list for anything else. */
  function CategoryChoices(kind: string): (r: seq<string>)
    ensures kind == "Expense" ==> r == ExpenseList && |r| == 10
    ensures kind != "Expense" ==> r == IncomeList && |r| == 4
  {
    if kind == "Expense" then ExpenseList else IncomeList
  }

  /** No category is offered for both types, which is why a type change has to
      clear the selected category. */
  lemma {:induction false} ChoicesDisjoint(c: string)
    ensures !(c in CategoryChoices("Expense") && c in CategoryChoices("Income"))
  {
  }

  /** The form's state. */
  class TransactionForm {
    var kind: string
    var category: string
    var amount: string
    var description: string
    var date: string
    var loading: bool

    /** The state the form starts in and returns to after a successful submit. */
    predicate IsInitial()
      reads this
    {
      kind == "Expense" && category == "" && amount == "" && description == "" && date == "" && !loading
    }

    constructor ()
      ensures IsInitial()
    {
      kind, category, amount, description, date := "Expense", "", "", "", "";
      loading := false;
    }

    /** The type select's handler: set the type and clear the category. */
    method ChangeType(newKind: string)
      modifies this
      ensures kind == newKind && category == ""
      ensures amount == old(amount) && description == old(description)
      ensures date == old(date) && loading == old(loading)
    {
      kind := newKind;
      category := "";
    }

    /** The submit handler. `parseAmount` stands for `parseFloat`, `createdAt`
        for the current time, and `accepted` for whether the request step ran
        to the end: the ID token was obtained, the POST returned an ok status
        and its body parsed as JSON. The form is reset only when the record was
        built and accepted; on every path the loading flag ends cleared. */
    method Submit(user: Option<User>, parseAmount: string -> Option<real>, createdAt: string, accepted: bool)
      returns (outcome: Result<NewTransaction>)
      modifies this
      ensures var p := Prepare(user, old(kind), old(category), old(amount), old(description), old(date),
                               parseAmount, createdAt);
              outcome == (if p.Failure? then p else if accepted then p else Failure(RequestFailed))
      ensures !loading
      ensures outcome.Success? ==> IsInitial()
      ensures outcome.Failure? ==>
        kind == old(kind) && category == old(category) && amount == old(amount)
        && description == old(description) && date == old(date)
    {
      loading := true;
      if user.None? {
        loading := false;
        return Failure(NotLoggedIn);
      }
      if category == "" || amount == "" || date == "" {
        loading := false;
        return Failure(MissingFields);
      }
      var record := NewTransaction(kind, category, parseAmount(amount), description, date, createdAt,
                                   OrEmpty(user.value.email), OrEmpty(user.value.displayName));
      if accepted {
        kind, category, amount, description, date := "Expense", "", "", "", "";
        outcome := Success(record);
      } else {
        outcome := Failure(RequestFailed);
      }
      loading := false;
    }
  }

  /** A record the form builds, once stored and read back, is classified by
      the dashboard as the expense or income the form's type select says. */
  lemma StoredRecordClassifies(r: NewTransaction, month: Option<Month>)
    requires r.kind == "Expense" || r.kind == "Income"
    ensures var t := Transaction(Some(r.kind), r.category, r.amount, month);
            Classify(t) == (if r.kind == "Expense" then Expense else Income)
  {
    FormTypesClassify(Transaction(Some(r.kind), r.category, r.amount, month));
  }
}
