# FinEase client bookkeeping, modelled in Dafny

This project models the client-side bookkeeping of the FinEase personal
finance tracker. That is the part that turns a user's list of income and
expense records into the figures the dashboard and the report page show. It
also models the two input guards of the application: the add-transaction form
and the sign-up password rule.

- `records.dfy` (module `Records`): the transaction record as the pages read
  it. The record's `type` may be missing. Its amount is the parsed value, or
  None where `parseFloat` gives NaN. Its date is the month of the year, or None
  where `new Date(...)` is invalid. The module also holds the dashboard's
  case-insensitive classification into income, expense or unclassified.
- `overview.dfy` (module `Overview`): the dashboard. The totals effect is a
  loop with two accumulators, proved equal to a total function. The counts,
  balance, savings rate, expense ratio and net-worth label are functions, with
  lemmas about how unparsable amounts and unrecognised types are treated.
- `tally.dfy` (module `Tally`): a JavaScript object used as a dictionary of
  running sums (`acc[k] = (acc[k] || 0) + a`). It is kept as a list of entries
  in first-insertion order.
- `reports.dfy` (module `Reports`): the report page. It covers the month and
  category filters (applied one after the other), the per-category expense
  table of the filtered records, the twelve-slot monthly expense series over
  all records, and the list of distinct categories.
- `add_transaction.dfy` (module `AddTransaction`): the form as a class with
  its fields. It has the type change that clears the category, the category
  choices for each type, and the submit handler. The handler checks, in
  order, that a user is signed in and that the required fields are filled in.
  It then builds the record and resets the form once the server accepts it.
- `sign_up.dfy` (module `SignUp`): the password regular expression, written
  out as its three lookaheads and its anchored `.{6,}`. It is proved
  equivalent to "six or more characters on one line, with a lower-case
  letter, an upper-case letter and a digit".

Three behaviours of the code are worth stating outright:

- The code never rejects a negative amount. Only the input's `min="0"` hint
  stands in its way.
- The type is compared as a string at each use, not turned into an
  enumeration once. The dashboard lowers the case first. The report compares
  with `"Expense"` exactly (`Reports.LowerCaseExpenseDiverges`).
- The lifetime category total of the detail page is computed by the server,
  so it has no local algorithm.

Calls to things outside the client become parameters of the model:

- The `accepted` argument of `Submit` is whether the whole request step succeeded: the ID token was obtained, the POST returned an ok status, and its body parsed as JSON. A failure in any of these takes the error path without a reset.
- `parseFloat` on the typed amount is the `parseAmount` argument.
- The current time is the `createdAt` argument.

## Model

| member | source | states |
|---|---|---|
| Records.Classify | src/components/Overview/Overview.jsx:57-58 | a record is income (expense) exactly when its type is present and lower-cases to "income" ("expense"); otherwise it is unclassified |
| Records.ClassifyIgnoresCase | src/components/Overview/Overview.jsx:57-58 | two types that lower-case alike classify alike |
| Records.FormTypesClassify | src/components/Overview/Overview.jsx:57-58 | the form's spellings "Expense" and "Income" classify as expense and income |
| Overview.ComputeTotals | src/components/Overview/Overview.jsx:51-63 | the loop's income and expense accumulators end equal to the parse-or-zero sums over the records classified income and expense |
| Overview.UnparsedAmountAddsNothing | src/components/Overview/Overview.jsx:56 | inserting a record whose amount does not parse anywhere in the list changes neither total |
| Overview.UnclassifiedAddsNothing | src/components/Overview/Overview.jsx:55-59 | a record with a missing or unrecognised type changes neither total, yet adds one to the record count |
| Overview.Where | src/components/Overview/Overview.jsx:202 | the filtered list holds exactly the records of the given class and is no longer than the input |
| Overview.WhereKeepsCopies | src/components/Overview/Overview.jsx:202-208 | every copy of a record of the class is kept, and no copy of any other record, so equal records are counted separately |
| Overview.ClassCount | src/components/Overview/Overview.jsx:202-208 | the income or expense count shown is the number of positions in the list holding a record of that class |
| Overview.WhereCountsPositions | src/components/Overview/Overview.jsx:202-208 | the class count of a list prefix is the number of positions in it holding a record of that class |
| Overview.CountsPartition | src/components/Overview/Overview.jsx:196-209 | income, expense and unclassified counts add up to the total count, so income plus expense count never exceeds it |
| Overview.SavingsRate | src/components/Overview/Overview.jsx:224 | with positive income the rate times income is balance times 100; otherwise the rate is 0 (no division by zero) |
| Overview.ExpenseRatio | src/components/Overview/Overview.jsx:230 | with positive income the ratio times income is expense times 100; otherwise the ratio is 0 |
| Overview.RatesMakeHundred | src/components/Overview/Overview.jsx:220-231 | with positive income, savings rate plus expense ratio is exactly 100 |
| Overview.RatesArePercentages | src/components/Overview/Overview.jsx:220-231 | with positive income and 0 <= expense <= income, both figures lie between 0 and 100 |
| Overview.NetWorthLabel | src/components/Overview/Overview.jsx:236-238 | the label is "Positive" iff the balance is positive, "Negative" iff negative, "Neutral" iff zero |
| Overview.Render | src/components/Overview/Overview.jsx:65-238 | balance is income minus expense exactly; the record count is the list length; the income and expense counts are the numbers of positions holding income and expense records, and together they do not exceed the record count; with positive income the savings rate times income is the balance times 100 and the expense ratio times income is the expense times 100, so the two sum to 100; without positive income both are 0; the label is Positive, Negative or Neutral exactly when income is greater than, less than or equal to expense |
| Overview.SalaryAndFoodScenario | src/components/Overview/Overview.jsx:51-65 | income 1000 and a food expense of 300 give balance 700 and savings rate 70 |
| Reports.Select | src/pages/Reports/Reports.jsx:61-69 | the filtered list holds exactly the records whose date parses to the selected month (if any) and whose category equals the selected one (if any), case-sensitively |
| Reports.SelectKeepsCopies | src/pages/Reports/Reports.jsx:61-69 | every copy of a passing record is kept, and no copy of a record that fails the filter |
| Reports.ApplyFilters | src/pages/Reports/Reports.jsx:58-72 | narrowing by month and then by category gives the records that pass both criteria at once |
| Reports.SelectEverything | src/pages/Reports/Reports.jsx:59-71 | with both filters empty the result is the full list |
| Reports.SelectSelect | src/pages/Reports/Reports.jsx:61-69 | two filters in a row equal one filter whose criterion is their conjunction |
| Reports.SelectIdempotent | src/pages/Reports/Reports.jsx:61-69 | filtering twice equals filtering once |
| Reports.SelectCommutes | src/pages/Reports/Reports.jsx:61-69 | the order of two filters does not matter |
| Reports.SelectKeepsOrder | src/pages/Reports/Reports.jsx:61-69 | the result is a subsequence of the input: records are only removed, the rest keep their order |
| Reports.AbsentCategorySelectsNothing | src/pages/Reports/Reports.jsx:67-69 | a selected category no record has yields the empty list |
| Tally.GetBump | src/pages/Reports/Reports.jsx:77 | adding a under key k (missing keys read as 0) raises the value under k by a and leaves all other keys' values alone |
| Tally.KeysBump | src/pages/Reports/Reports.jsx:77 | an existing key keeps the key order; a new key is appended |
| Tally.SumValuesBump | src/pages/Reports/Reports.jsx:77 | the sum of all values grows by exactly a |
| Reports.CategoryTotals | src/pages/Reports/Reports.jsx:74-80 | the table's keys are the categories of the records typed exactly "Expense", each once, in first-appearance order; each key holds its category's expense total; the values add up to the expense total of the filtered records |
| Reports.Distinct | src/pages/Reports/Reports.jsx:154 | the result has exactly the input's values and no duplicates |
| Reports.DistinctFirstOccurrenceOrder | src/pages/Reports/Reports.jsx:154 | the values appear in the order of their first occurrences in the input |
| Reports.AllCategories | src/pages/Reports/Reports.jsx:154 | the category list holds every category that occurs among the records, once each, in order of first appearance |
| Reports.MonthlyExpenseData | src/pages/Reports/Reports.jsx:82-88 | the value under each month key (the "NaN" key included) is the expense total of the records dated in that month, over all years |
| Reports.MonthlySeries | src/pages/Reports/Reports.jsx:104-106 | the series has exactly twelve slots |
| Reports.MonthlyExpenses | src/pages/Reports/Reports.jsx:82-106 | twelve slots; slot i is the expense total of month i across all years of the unfiltered list; the slots add up to the expense total of the records whose date parses |
| Reports.SlotsCoverDatedExpenses | src/pages/Reports/Reports.jsx:104-106 | the twelve month totals add up to the expense total of the validly dated records |
| Reports.UndatedExpensesInNoSlot | src/pages/Reports/Reports.jsx:84-85 | the dated expense total plus the "NaN"-key total is the whole expense total, so invalid-date expenses reach no slot |
| Reports.LowerCaseExpenseDiverges | src/pages/Reports/Reports.jsx:76 | a record typed "expense" in lower case counts as an expense on the dashboard but adds nothing in the report |
| Reports.ReportAgreesWithDashboard | src/pages/Reports/Reports.jsx:76-77 | for records typed "Expense" or "Income", the report's expense total equals the dashboard's |
| AddTransaction.OrEmpty | src/pages/AddTransaction/AddTransaction.jsx:57-58 | a present value is kept and a missing one becomes "" |
| AddTransaction.Prepare | src/pages/AddTransaction/AddTransaction.jsx:29-59 | "Not Logged In" iff there is no user, checked before any field; "Missing Fields" iff a user is present and category, amount or date is empty; otherwise the record copies type, category, description and date, holds the parsed amount, and takes the user's email and name or "" |
| AddTransaction.ZeroAmountIsPresent | src/pages/AddTransaction/AddTransaction.jsx:40 | an amount of "0" is not a missing field |
| AddTransaction.AnonymousFieldsDefaultToEmpty | src/pages/AddTransaction/AddTransaction.jsx:57-58 | a user without email or display name gets "" in both record fields |
| AddTransaction.CategoryChoices | src/pages/AddTransaction/AddTransaction.jsx:181 | the ten-item expense list for type "Expense", the four-item income list for any other type |
| AddTransaction.ChoicesDisjoint | src/pages/AddTransaction/AddTransaction.jsx:18-23 | no category is offered under both types |
| AddTransaction.TransactionForm.constructor | src/pages/AddTransaction/AddTransaction.jsx:11-16 | the form starts with type "Expense", every other field empty, not loading |
| AddTransaction.TransactionForm.ChangeType | src/pages/AddTransaction/AddTransaction.jsx:147-150 | the type becomes the new value, the category is cleared, every other field is unchanged |
| AddTransaction.TransactionForm.Submit | src/pages/AddTransaction/AddTransaction.jsx:25-100 | the outcome is the validation result of the old fields, or a request failure when the request step (token, POST with ok status, JSON body) does not complete; an accepted record returns the form to its initial state; every failure leaves the fields as they were; loading always ends cleared |
| AddTransaction.StoredRecordClassifies | src/pages/AddTransaction/AddTransaction.jsx:50-59 | a record built with type "Expense" or "Income" is classified by the dashboard as that type |
| SignUp.AcceptedMeetsRules | src/auth/SignUp/SignUp.jsx:39 | an accepted password has at least six characters, no line terminator, and an a-z, an A-Z and a 0-9 character |
| SignUp.RulesMeanAccepted | src/auth/SignUp/SignUp.jsx:39 | any one-line string of six or more characters with an a-z, an A-Z and a 0-9 is accepted, whatever its other characters |
| SignUp.Register | src/auth/SignUp/SignUp.jsx:38-46 | account creation is requested, with the given email and password, iff the password is accepted; otherwise registration stops with the error message |
| SignUp.Examples | src/auth/SignUp/SignUp.jsx:39 | "abcDE1" is accepted; the five-character "abDE1" and a string with a line break are not |

## Left out

- Fetching the records, token retrieval, and the loading and error states of the dashboard and the report page: network I/O and asynchronous effects. The model starts from the fetched list.
- Number and date parsing are not modelled. Records carry their parsed amount and month, and `parseFloat` on the form's amount is a function parameter. `parseInt` of the month select is the selected month itself, since the select offers only 0 to 11.
- Records.Lower: lower-cases only A to Z. It is not all of Unicode. No other character lower-cases to one of the ASCII letters of "income" or "expense" in a single code unit, so classification is unaffected.
- Reports.Spent: uses the parse-or-zero amount. The page adds the raw `t.amount`. For the numbers or nulls that the form stores, the two agree, because adding null adds 0. String amounts, which the page would concatenate, are not modelled.
- The ordering JavaScript objects give to integer-like keys is not modelled (such keys are listed first, in ascending order). The tables keep insertion order for every key.
- A record without a `category` property is not modelled. Every modelled record has a string category.
- A `type` property that is present but not a string is not modelled: `t.type?.toLowerCase()` would throw on it, and `kind` is an optional string. The form always stores a string.
- Reading `acc[t.category] || 0` on a plain object is not modelled for category names that are properties of `Object.prototype`: "toString" or "constructor" would read an inherited value, and "__proto__" would not be stored as a key. `Tally.Get` reads 0 for every absent key. The form offers none of these names.
- Amounts are exact reals. `toFixed` display rounding and IEEE-754 arithmetic are not modelled.
- AddTransaction.TransactionForm.Submit: states only the final value of `loading`. Its value while the request is in flight is concurrency.
- The plain setters of the category, amount, description and date inputs are not modelled. They are direct assignments to the form's public fields.
- The alert and toast dialogs are not modelled. Their kinds are the `SubmitError` values, and only the sign-up error text is kept.
- SignUp.PasswordAccepted: counts characters, not UTF-16 code units. A character outside the Basic Multilingual Plane counts once here but twice for the regular expression's `{6,}`.
- The sign-up steps after `createUser` and the Google sign-in flow are not modelled. They are calls into the authentication provider and the server.
- `AuthProvider.jsx` and `TransactionDetails.jsx` are not part of this model. They hold only wrappers around authentication calls, and values fetched and computed by the server.
- Chart registration, dataset styling, colours and theme selection: presentation.
