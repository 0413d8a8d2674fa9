/** The report page: the month and category filters over the user's records,
    the per-category expense table of the filtered records, the twelve-slot
    monthly expense series of all records, and the list of categories. */
module Reports {
  import opened Records
  import opened Tally
  import Overview

  // ---------------------------------------------------------------------------
  // The filter pipeline

  /** The report's filter state: a selected month (None for "All Months") and
      a selected category ("" for "All Categories"). */
  datatype ReportFilter = ReportFilter(month: Option<Month>, category: string)

  /** A record passes when its date parses to the selected month and its
      category is, character for character, the selected one. */
  predicate Passes(f: ReportFilter, t: Transaction) {
    && (f.month.Some? ==> t.date == f.month)
    && (f.category != "" ==> t.category == f.category)
  }

  /** `Array.prototype.filter` with the report's predicate. */
  function Select(ts: seq<Transaction>, f: ReportFilter): (r: seq<Transaction>)
    ensures |r| <= |ts|
    ensures forall t :: t in r <==> t in ts && Passes(f, t)
  {
    if ts == [] then []
    else (if Passes(f, ts[0]) then [ts[0]] else []) + Select(ts[1..], f)
  }

  /** Every copy of a passing record is kept, and no copy of any other. */
  lemma {:induction false} SelectKeepsCopies(ts: seq<Transaction>, f: ReportFilter)
    ensures forall t :: multiset(Select(ts, f))[t] == if Passes(f, t) then multiset(ts)[t] else 0
  {
    if ts != [] {
      assert ts == [ts[0]] + ts[1..];
      SelectKeepsCopies(ts[1..], f);
    }
  }

  /** `a` is `b` with some elements removed, the rest in their order. */
  predicate IsSubsequence(a: seq<Transaction>, b: seq<Transaction>)
    decreases |b|
  {
    if a == [] then true
    else if b == [] then false
    else (a[0] == b[0] && IsSubsequence(a[1..], b[1..])) || IsSubsequence(a, b[1..])
  }

  /** The filter effect: start from all records, narrow by month when one is
      selected, then by category when one is selected. The result is the
      records that pass both criteria at once. */
  method ApplyFilters(transactions: seq<Transaction>, filterMonth: Option<Month>, filterCategory: string)
    returns (data: seq<Transaction>)
    ensures data == Select(transactions, ReportFilter(filterMonth, filterCategory))
  {
    var both := ReportFilter(filterMonth, filterCategory);
    var byMonth := ReportFilter(filterMonth, "");
    var byCategory := ReportFilter(None, filterCategory);
    data := transactions;
    if filterMonth.Some? {
      data := Select(data, byMonth);
    }
    if filterCategory != "" {
      data := Select(data, byCategory);
    }
    if filterMonth.None? && filterCategory == "" {
      SelectEverything(transactions);
    } else if filterMonth.Some? && filterCategory != "" {
      SelectSelect(transactions, byMonth, byCategory, both);
    }
  }

  /** With neither filter set every record is kept, in order. */
  lemma {:induction false} SelectEverything(ts: seq<Transaction>)
    ensures Select(ts, ReportFilter(None, "")) == ts
  {
    if ts != [] {
      SelectEverything(ts[1..]);
    }
  }

  /** Filtering twice decides the first record once, on both criteria. */
  lemma SelectTwice(ts: seq<Transaction>, f: ReportFilter, g: ReportFilter)
    requires ts != []
    ensures Select(Select(ts, f), g)
         == (if Passes(f, ts[0]) && Passes(g, ts[0]) then [ts[0]] else []) + Select(Select(ts[1..], f), g)
  {
    var t, rest := ts[0], ts[1..];
    if Passes(f, t) {
      var sf := Select(ts, f);
      assert sf == [t] + Select(rest, f);
      assert sf[0] == t && sf[1..] == Select(rest, f);
    } else {
      assert Select(ts, f) == Select(rest, f);
    }
  }

  /** Filtering by `f` and then by `g` is filtering once by a criterion that
      asks for both. */
  lemma {:induction false} SelectSelect(ts: seq<Transaction>, f: ReportFilter, g: ReportFilter, h: ReportFilter)
    requires forall t :: Passes(h, t) <==> Passes(f, t) && Passes(g, t)
    ensures Select(Select(ts, f), g) == Select(ts, h)
  {
    if ts != [] {
      SelectSelect(ts[1..], f, g, h);
      SelectTwice(ts, f, g);
    }
  }

  /** Applying the same filter twice is applying it once. */
  lemma SelectIdempotent(ts: seq<Transaction>, f: ReportFilter)
    ensures Select(Select(ts, f), f) == Select(ts, f)
  {
    SelectSelect(ts, f, f, f);
  }

  /** The order in which two filters are applied does not matter. */
  lemma {:induction false} SelectCommutes(ts: seq<Transaction>, f: ReportFilter, g: ReportFilter)
    ensures Select(Select(ts, f), g) == Select(Select(ts, g), f)
  {
    if ts != [] {
      SelectCommutes(ts[1..], f, g);
      SelectTwice(ts, f, g);
      SelectTwice(ts, g, f);
    }
  }

  /** Filtering only removes records; those it keeps stay in their order. */
  lemma {:induction false} SelectKeepsOrder(ts: seq<Transaction>, f: ReportFilter)
    ensures IsSubsequence(Select(ts, f), ts)
  {
    if ts != [] {
      SelectKeepsOrder(ts[1..], f);
      var r := Select(ts, f);
      if Passes(f, ts[0]) {
        assert r[0] == ts[0] && r[1..] == Select(ts[1..], f);
      } else {
        assert r == Select(ts[1..], f);
      }
    }
  }

  /** A category that no record has selects nothing. */
  lemma AbsentCategorySelectsNothing(ts: seq<Transaction>, m: Option<Month>, c: string)
    requires c != "" && forall t :: t in ts ==> t.category != c
    ensures Select(ts, ReportFilter(m, c)) == []
  {
  }

  // ---------------------------------------------------------------------------
  // Expense sums. The report compares the type with "Expense" exactly, unlike
  // the dashboard, which lower-cases it first.

  predicate IsReportExpense(t: Transaction) {
    t.kind == Some("Expense")
  }

  /** What a record adds to any expense sum of the report. */
  function Spent(t: Transaction): real {
    if IsReportExpense(t) then AmountOrZero(t) else 0.0
  }

  /** The expense total of a list of records, as the report counts expenses. */
  function ExpenseTotal(ts: seq<Transaction>): real
    decreases |ts|
  {
    if ts == [] then 0.0 else ExpenseTotal(ts[..|ts| - 1]) + Spent(ts[|ts| - 1])
  }

  /** The expense total of the records of category `c`. */
  function CategorySum(ts: seq<Transaction>, c: string): real
    decreases |ts|
  {
    if ts == [] then 0.0
    else CategorySum(ts[..|ts| - 1], c) + (if ts[|ts| - 1].category == c then Spent(ts[|ts| - 1]) else 0.0)
  }

  /** The categories of the expense records, one per record, in order. */
  function ExpenseCategories(ts: seq<Transaction>): seq<string>
    decreases |ts|
  {
    if ts == [] then []
    else ExpenseCategories(ts[..|ts| - 1]) + (if IsReportExpense(ts[|ts| - 1]) then [ts[|ts| - 1].category] else [])
  }

  // ---------------------------------------------------------------------------
  // Distinct values in order of first appearance (`[...new Set(xs)]`)

  predicate NoDuplicates<T(==)>(s: seq<T>) {
    forall i, j :: 0 <= i < j < |s| ==> s[i] != s[j]
  }

  /** The values of `s`, each once, where it first appears. */
  function Distinct(s: seq<string>): (r: seq<string>)
    ensures forall x :: x in r <==> x in s
    ensures NoDuplicates(r)
    decreases |s|
  {
    if s == [] then []
    else
      var p := Distinct(s[..|s| - 1]);
      var x := s[|s| - 1];
      assert s == s[..|s| - 1] + [x];
      if x in p then p else p + [x]
  }

  /** The position where `x` first occurs in `s`. */
  function FirstIndex<T(==)>(s: seq<T>, x: T): (i: nat)
    requires x in s
    ensures i < |s| && s[i] == x
    ensures forall j :: 0 <= j < i ==> s[j] != x
  {
    if s[0] == x then 0 else 1 + FirstIndex(s[1..], x)
  }

  lemma {:induction false} FirstIndexExtend<T>(s: seq<T>, y: T, x: T)
    requires x in s
    ensures FirstIndex(s + [y], x) == FirstIndex(s, x)
  {
    if s[0] != x {
      assert (s + [y])[1..] == s[1..] + [y];
      FirstIndexExtend(s[1..], y, x);
    }
  }

  /** `Distinct` lists the values in the order of their first occurrences. */
  lemma {:induction false} DistinctFirstOccurrenceOrder(s: seq<string>)
    ensures forall i, j :: 0 <= i < j < |Distinct(s)| ==>
      FirstIndex(s, Distinct(s)[i]) < FirstIndex(s, Distinct(s)[j])
  {
    if s != [] {
      var s' := s[..|s| - 1];
      var x := s[|s| - 1];
      assert s == s' + [x];
      DistinctFirstOccurrenceOrder(s');
      var p := Distinct(s');
      forall y | y in s' ensures FirstIndex(s, y) == FirstIndex(s', y) {
        FirstIndexExtend(s', x, y);
      }
      if x !in p {
        assert FirstIndex(s, x) == |s'|;
      }
    }
  }

  // ---------------------------------------------------------------------------
  // The category table (`categoryData`)

  /** What the category table of a prefix of the records must be. */
  ghost predicate TableOfCategories(acc: Table<string>, ts: seq<Transaction>) {
    && Keys(acc) == Distinct(ExpenseCategories(ts))
    && (forall c :: Get(acc, c) == CategorySum(ts, c))
    && SumValues(acc) == ExpenseTotal(ts)
  }

  /** The empty table is right for no records. */
  lemma CategoryStart()
    ensures TableOfCategories([], [])
  {
  }

  /** One step of the reduce keeps the table right for one more record. */
  lemma CategoryStep(acc: Table<string>, ts: seq<Transaction>, t: Transaction)
    requires TableOfCategories(acc, ts)
    ensures TableOfCategories(if IsReportExpense(t) then Bump(acc, t.category, AmountOrZero(t)) else acc, ts + [t])
  {
    var ts' := ts + [t];
    assert ts'[..|ts|] == ts;
    if IsReportExpense(t) {
      var amt := AmountOrZero(t);
      KeysBump(acc, t.category, amt);
      SumValuesBump(acc, t.category, amt);
      forall c ensures Get(Bump(acc, t.category, amt), c) == CategorySum(ts', c) {
        GetBump(acc, t.category, amt, c);
      }
      var ec := ExpenseCategories(ts);
      assert ExpenseCategories(ts') == ec + [t.category];
      assert (ec + [t.category])[..|ec|] == ec;
    } else {
      assert ExpenseCategories(ts') == ExpenseCategories(ts);
    }
  }

  /** `CategoryStep` for the record at index `i` of `data`. */
  lemma CategoryStepAt(acc: Table<string>, data: seq<Transaction>, i: nat)
    requires i < |data| && TableOfCategories(acc, data[..i])
    ensures TableOfCategories(if IsReportExpense(data[i]) then Bump(acc, data[i].category, AmountOrZero(data[i])) else acc,
                              data[..i + 1])
  {
    assert data[..i + 1] == data[..i] + [data[i]];
    CategoryStep(acc, data[..i], data[i]);
  }

  /** The pie chart's reduce over the filtered records: for each expense record,
      add its amount under its category. The keys are the expense categories
      in order of first appearance, each key holds the expense total of its
      category, and the values add up to the expense total of the records. */
  method CategoryTotals(data: seq<Transaction>) returns (acc: Table<string>)
    ensures Keys(acc) == Distinct(ExpenseCategories(data))
    ensures forall c :: Get(acc, c) == CategorySum(data, c)
    ensures SumValues(acc) == ExpenseTotal(data)
  {
    acc := [];
    var i := 0;
    CategoryStart();
    assert data[..0] == [];
    while i < |data|
      invariant 0 <= i <= |data|
      invariant TableOfCategories(acc, data[..i])
    {
      CategoryStepAt(acc, data, i);
      var t := data[i];
      if IsReportExpense(t) {
        acc := Bump(acc, t.category, AmountOrZero(t));
      }
      i := i + 1;
    }
    assert data[..|data|] == data;
  }

  // ---------------------------------------------------------------------------
  // The monthly series (`monthlyExpenseData`, `monthlyExpenses`)

  /** The expense total of the records dated in month `k`; `k` = None collects
      the records whose date does not parse (the "NaN" key). */
  function MonthSum(ts: seq<Transaction>, k: Option<Month>): real
    decreases |ts|
  {
    if ts == [] then 0.0
    else MonthSum(ts[..|ts| - 1], k) + (if ts[|ts| - 1].date == k then Spent(ts[|ts| - 1]) else 0.0)
  }

  /** The expense total of the records whose date parses. */
  function DatedExpenseTotal(ts: seq<Transaction>): real
    decreases |ts|
  {
    if ts == [] then 0.0
    else DatedExpenseTotal(ts[..|ts| - 1]) + (if ts[|ts| - 1].date.Some? then Spent(ts[|ts| - 1]) else 0.0)
  }

  /** The bar chart's reduce over all records (not the filtered ones): for each
      expense record, add its amount under its month. */
  method MonthlyExpenseData(transactions: seq<Transaction>) returns (acc: Table<Option<Month>>)
    ensures forall k :: Get(acc, k) == MonthSum(transactions, k)
  {
    acc := [];
    var i := 0;
    while i < |transactions|
      invariant 0 <= i <= |transactions|
      invariant forall k :: Get(acc, k) == MonthSum(transactions[..i], k)
    {
      var t := transactions[i];
      assert transactions[..i + 1][..i] == transactions[..i];
      if t.kind == Some("Expense") {
        var amt := AmountOrZero(t);
        forall k ensures Get(Bump(acc, t.date, amt), k) == MonthSum(transactions[..i + 1], k) {
          GetBump(acc, t.date, amt, k);
        }
        acc := Bump(acc, t.date, amt);
      }
      i := i + 1;
    }
    assert transactions[..|transactions|] == transactions;
  }

  function SumSeq(s: seq<real>): real {
    if s == [] then 0.0 else SumSeq(s[..|s| - 1]) + s[|s| - 1]
  }

  /** The sum of the first `n` monthly slots. */
  function SlotSum(ts: seq<Transaction>, n: nat): real
    requires n <= 12
  {
    if n == 0 then 0.0 else SlotSum(ts, n - 1) + MonthSum(ts, Some(n - 1))
  }

  /** One more record raises the first `n` slots by its amount exactly when it
      is an expense dated in one of those months. */
  lemma {:induction false} SlotSumExtend(ts: seq<Transaction>, t: Transaction, n: nat)
    requires n <= 12
    ensures SlotSum(ts + [t], n) == SlotSum(ts, n) + (if t.date.Some? && t.date.value < n then Spent(t) else 0.0)
  {
    if n > 0 {
      SlotSumExtend(ts, t, n - 1);
      assert (ts + [t])[..|ts|] == ts;
    }
  }

  lemma {:induction false} SlotSumOfNothing(n: nat)
    requires n <= 12
    ensures SlotSum([], n) == 0.0
  {
    if n > 0 {
      SlotSumOfNothing(n - 1);
    }
  }

  /** The twelve slots together hold every expense whose date parses. */
  lemma {:induction false} SlotsCoverDatedExpenses(ts: seq<Transaction>)
    ensures SlotSum(ts, 12) == DatedExpenseTotal(ts)
    decreases |ts|
  {
    if ts == [] {
      SlotSumOfNothing(12);
    } else {
      var ts' := ts[..|ts| - 1];
      assert ts == ts' + [ts[|ts| - 1]];
      SlotsCoverDatedExpenses(ts');
      SlotSumExtend(ts', ts[|ts| - 1], 12);
      assert DatedExpenseTotal(ts) == DatedExpenseTotal(ts') + (if ts[|ts| - 1].date.Some? then Spent(ts[|ts| - 1]) else 0.0);
      assert SlotSum(ts, 12) == SlotSum(ts', 12) + (if ts[|ts| - 1].date.Some? then Spent(ts[|ts| - 1]) else 0.0);
    }
  }

  /** Expenses whose date does not parse reach no slot: they are exactly what
      separates the dated total from the whole expense total. */
  lemma {:induction false} UndatedExpensesInNoSlot(ts: seq<Transaction>)
    ensures DatedExpenseTotal(ts) + MonthSum(ts, None) == ExpenseTotal(ts)
    decreases |ts|
  {
    if ts != [] {
      UndatedExpensesInNoSlot(ts[..|ts| - 1]);
    }
  }

  lemma {:induction false} SeriesSum(ts: seq<Transaction>, s: seq<real>)
    requires |s| <= 12
    requires forall i :: 0 <= i < |s| ==> s[i] == MonthSum(ts, Some(i))
    ensures SumSeq(s) == SlotSum(ts, |s|)
    decreases |s|
  {
    if s != [] {
      SeriesSum(ts, s[..|s| - 1]);
    }
  }

  /** `monthlyLabels.map((label, index) => monthlyExpenseData[index] || 0)`. */
  function MonthlySeries(acc: Table<Option<Month>>): (r: seq<real>)
    ensures |r| == 12
  {
    seq(12, i requires 0 <= i < 12 => Get(acc, Some(i)))
  }

  /** The bar chart's data: always twelve slots, slot `i` holding the expenses
      of month `i` of any year; together the slots hold every expense whose
      date parses. */
  method MonthlyExpenses(transactions: seq<Transaction>) returns (series: seq<real>)
    ensures |series| == 12
    ensures forall i :: 0 <= i < 12 ==> series[i] == MonthSum(transactions, Some(i))
    ensures SumSeq(series) == DatedExpenseTotal(transactions)
  {
    var acc := MonthlyExpenseData(transactions);
    series := MonthlySeries(acc);
    SeriesSum(transactions, series);
    SlotsCoverDatedExpenses(transactions);
  }

  // ---------------------------------------------------------------------------
  // The category list (`allCategories`)

  function Categories(ts: seq<Transaction>): (r: seq<string>)
    ensures |r| == |ts| && forall i :: 0 <= i < |ts| ==> r[i] == ts[i].category
  {
    if ts == [] then [] else [ts[0].category] + Categories(ts[1..])
  }

  /** The category choices of the report: every category that occurs among
      all records, once each, in order of first appearance. */
  function AllCategories(ts: seq<Transaction>): (r: seq<string>)
    ensures forall c :: c in r <==> exists t :: t in ts && t.category == c
    ensures forall c :: c in r <==> c in Categories(ts)
    ensures NoDuplicates(r)
    ensures forall i, j :: 0 <= i < j < |r| ==>
      FirstIndex(Categories(ts), r[i]) < FirstIndex(Categories(ts), r[j])
  {
    var cs := Categories(ts);
    DistinctFirstOccurrenceOrder(cs);
    assert forall c :: c in cs <==> exists t :: t in ts && t.category == c by {
      forall c ensures c in cs <==> exists t :: t in ts && t.category == c {
        if c in cs {
          var i :| 0 <= i < |cs| && cs[i] == c;
          assert ts[i] in ts;
        }
      }
    }
    Distinct(cs)
  }

  // ---------------------------------------------------------------------------
  // Agreement with the dashboard

  /** A type spelled "expense" in lower case is an expense on the dashboard but
      not in the report. */
  lemma LowerCaseExpenseDiverges(t: Transaction)
    requires t.kind == Some("expense") && AmountOrZero(t) != 0.0
    ensures Classify(t) == Expense && Spent(t) == 0.0 && Spent(t) != Overview.Contribution(t, Expense)
  {
  }

  /** For records whose type is "Expense" or "Income", as the add-transaction
      form writes them, the report and the dashboard agree on the expense total. */
  lemma {:induction false} ReportAgreesWithDashboard(ts: seq<Transaction>)
    requires forall t :: t in ts ==> t.kind == Some("Expense") || t.kind == Some("Income")
    ensures ExpenseTotal(ts) == Overview.Total(ts, Expense)
    decreases |ts|
  {
    if ts != [] {
      var last := ts[|ts| - 1];
      assert last in ts;
      ReportAgreesWithDashboard(ts[..|ts| - 1]);
      FormTypesClassify(last);
    }
  }
}
