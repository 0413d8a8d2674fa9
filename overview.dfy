/** The dashboard overview: income and expense totals accumulated over the
    user's records, the balance, the per-type counts, and the derived savings
    rate, expense ratio and net-worth label. */
module Overview {
  import opened Records

  /** Sum of the parse-or-zero amounts of the records of class `c`
      (defined from the last record, the order the accumulating loop adds them). */
  function Total(ts: seq<Transaction>, c: Class): real
    decreases |ts|
  {
    if ts == [] then 0.0
    else Total(ts[..|ts| - 1], c) + Contribution(ts[|ts| - 1], c)
  }

  /** What one record adds to the total of class `c`. */
  function Contribution(t: Transaction, c: Class): real {
    if Classify(t) == c then AmountOrZero(t) else 0.0
  }

  /** The records of class `c`, in their original order
      (`transactions.filter(t => t.type?.toLowerCase() === ...)`). */
  function Where(ts: seq<Transaction>, c: Class): (r: seq<Transaction>)
    ensures |r| <= |ts|
    ensures forall t :: t in r <==> t in ts && Classify(t) == c
  {
    if ts == [] then []
    else (if Classify(ts[0]) == c then [ts[0]] else []) + Where(ts[1..], c)
  }

  /** Records carry no identity, so two equal records are two entries: every
      copy of a record of class `c` is kept, and no other record. */
  lemma {:induction false} WhereKeepsCopies(ts: seq<Transaction>, c: Class)
    ensures forall t :: multiset(Where(ts, c))[t] == if Classify(t) == c then multiset(ts)[t] else 0
  {
    if ts != [] {
      assert ts == [ts[0]] + ts[1..];
      WhereKeepsCopies(ts[1..], c);
    }
  }

  /** The totals effect: one pass over the records, adding each amount to the
      income or the expense accumulator according to its lower-cased type. */
  method ComputeTotals(ts: seq<Transaction>) returns (income: real, expense: real)
    ensures income == Total(ts, Income)
    ensures expense == Total(ts, Expense)
  {
    income, expense := 0.0, 0.0;
    var i := 0;
    while i < |ts|
      invariant 0 <= i <= |ts|
      invariant income == Total(ts[..i], Income)
      invariant expense == Total(ts[..i], Expense)
    {
      var t := ts[i];
      var amt := AmountOrZero(t);
      var kind := Classify(t);
      if kind == Income { income := income + amt; }
      if kind == Expense { expense := expense + amt; }
      assert ts[..i + 1][..i] == ts[..i];
      i := i + 1;
    }
    assert ts[..|ts|] == ts;
  }

  lemma {:induction false} TotalAppend(a: seq<Transaction>, b: seq<Transaction>, c: Class)
    ensures Total(a + b, c) == Total(a, c) + Total(b, c)
    decreases |b|
  {
    if b == [] {
      assert a + b == a;
    } else {
      var b' := b[..|b| - 1];
      assert (a + b)[..|a + b| - 1] == a + b';
      TotalAppend(a, b', c);
    }
  }

  /** A record whose amount does not parse contributes nothing to either sum,
      wherever it stands in the list. */
  lemma UnparsedAmountAddsNothing(a: seq<Transaction>, t: Transaction, b: seq<Transaction>, c: Class)
    requires t.amount.None?
    ensures Total(a + [t] + b, c) == Total(a + b, c)
  {
    TotalAppend(a + [t], b, c);
    TotalAppend(a, [t], c);
    TotalAppend(a, b, c);
    assert [t][..0] == [];
  }

  /** A record with a missing or unrecognised type changes neither the income
      nor the expense total, but it is one more record in the count. */
  lemma UnclassifiedAddsNothing(a: seq<Transaction>, t: Transaction, b: seq<Transaction>)
    requires Classify(t) == Unclassified
    ensures Total(a + [t] + b, Income) == Total(a + b, Income)
    ensures Total(a + [t] + b, Expense) == Total(a + b, Expense)
    ensures |a + [t] + b| == |a + b| + 1
  {
    forall c | c == Income || c == Expense
      ensures Total(a + [t] + b, c) == Total(a + b, c)
    {
      TotalAppend(a + [t], b, c);
      TotalAppend(a, [t], c);
      TotalAppend(a, b, c);
      assert [t][..0] == [];
    }
  }

  /** Every record falls in exactly one class, so the three counts add up to
      the number of records; in particular the income and expense counts
      together never exceed the total count. */
  lemma {:induction false} CountsPartition(ts: seq<Transaction>)
    ensures |Where(ts, Income)| + |Where(ts, Expense)| + |Where(ts, Unclassified)| == |ts|
  {
    if ts != [] {
      CountsPartition(ts[1..]);
    }
  }

  /** The positions below `n` of the records of class `c`. */
  ghost function Positions(ts: seq<Transaction>, c: Class, n: nat): set<nat>
    requires n <= |ts|
  {
    set i: nat | i < n && Classify(ts[i]) == c
  }

  lemma {:induction false} WhereAppend(a: seq<Transaction>, b: seq<Transaction>, c: Class)
    ensures Where(a + b, c) == Where(a, c) + Where(b, c)
  {
    if a == [] {
      assert a + b == b;
    } else {
      assert (a + b)[1..] == a[1..] + b;
      WhereAppend(a[1..], b, c);
    }
  }

  lemma PositionsStep(ts: seq<Transaction>, c: Class, n: nat)
    requires 0 < n <= |ts|
    ensures Positions(ts, c, n) == Positions(ts, c, n - 1) + (if Classify(ts[n - 1]) == c then {n - 1} else {})
  {
  }

  /** The count of class `c` among the first `n` records is the number of
      positions below `n` holding a record of that class. */
  lemma {:induction false} WhereCountsPositions(ts: seq<Transaction>, c: Class, n: nat)
    requires n <= |ts|
    ensures |Where(ts[..n], c)| == |Positions(ts, c, n)|
  {
    if n == 0 {
      assert ts[..0] == [];
      assert Positions(ts, c, 0) == {};
    } else {
      var p, t := ts[..n - 1], ts[n - 1];
      assert ts[..n] == p + [t];
      WhereAppend(p, [t], c);
      WhereCountsPositions(ts, c, n - 1);
      assert |Where([t], c)| == (if Classify(t) == c then 1 else 0) by {
        assert [t][1..] == [];
      }
      PositionsStep(ts, c, n);
      var before := Positions(ts, c, n - 1);
      assert |Where(ts[..n], c)| == |before| + |Where([t], c)|;
      if Classify(t) == c {
        assert n - 1 !in before;
        assert |before + {n - 1}| == |before| + 1;
      } else {
        assert before + {} == before;
      }
    }
  }

  /** The number of records of class `c`
      (`transactions.filter(...).length`). */
  function ClassCount(ts: seq<Transaction>, c: Class): (n: nat)
    ensures n == |Positions(ts, c, |ts|)|
  {
    assert ts[..|ts|] == ts;
    WhereCountsPositions(ts, c, |ts|);
    |Where(ts, c)|
  }

  /** `savingsRate`: balance over income, in percent, and 0 when there is no
      positive income (so there is never a division by zero). */
  function SavingsRate(income: real, expense: real): (r: real)
    ensures income > 0.0 ==> r * income == (income - expense) * 100.0
    ensures income <= 0.0 ==> r == 0.0
  {
    if income > 0.0 then (income - expense) / income * 100.0 else 0.0
  }

  /** `expenseRatio`: expense over income, in percent, and 0 when there is no
      positive income. */
  function ExpenseRatio(income: real, expense: real): (r: real)
    ensures income > 0.0 ==> r * income == expense * 100.0
    ensures income <= 0.0 ==> r == 0.0
  {
    if income > 0.0 then expense / income * 100.0 else 0.0
  }

  /** With positive income, what is saved and what is spent make up the whole. */
  lemma RatesMakeHundred(income: real, expense: real)
    requires income > 0.0
    ensures SavingsRate(income, expense) + ExpenseRatio(income, expense) == 100.0
  {
  }

  /** With non-negative totals and expenses within income, the rates are
      percentages between 0 and 100. */
  lemma RatesArePercentages(income: real, expense: real)
    requires income > 0.0 && 0.0 <= expense <= income
    ensures 0.0 <= SavingsRate(income, expense) <= 100.0
    ensures 0.0 <= ExpenseRatio(income, expense) <= 100.0
  {
  }

  /** The net-worth label shows the sign of the balance. */
  function NetWorthLabel(balance: real): (sign: string)
    ensures sign == "Positive" <==> balance > 0.0
    ensures sign == "Negative" <==> balance < 0.0
    ensures sign == "Neutral" <==> balance == 0.0
  {
    if balance > 0.0 then "Positive" else if balance < 0.0 then "Negative" else "Neutral"
  }

  /** The figures the overview renders from its state. */
  datatype Dashboard = Dashboard(
    income: real,
    expense: real,
    balance: real,
    transactionCount: nat,
    incomeCount: nat,
    expenseCount: nat,
    savingsRate: real,
    expenseRatio: real,
    netWorth: string)

  /** The render step: from the record list and the stored totals, every
      figure of the dashboard. */
  function Render(ts: seq<Transaction>, income: real, expense: real): (d: Dashboard)
    ensures d.balance == d.income - d.expense && d.income == income && d.expense == expense
    ensures d.transactionCount == |ts|
    ensures d.incomeCount == |Positions(ts, Income, |ts|)|
    ensures d.expenseCount == |Positions(ts, Expense, |ts|)|
    ensures d.incomeCount + d.expenseCount <= d.transactionCount
    ensures income > 0.0 ==> d.savingsRate * income == d.balance * 100.0
    ensures income > 0.0 ==> d.expenseRatio * income == d.expense * 100.0
    ensures income > 0.0 ==> d.savingsRate + d.expenseRatio == 100.0
    ensures income <= 0.0 ==> d.savingsRate == 0.0 && d.expenseRatio == 0.0
    ensures d.netWorth == "Positive" <==> income > expense
    ensures d.netWorth == "Negative" <==> income < expense
    ensures d.netWorth == "Neutral" <==> income == expense
  {
    CountsPartition(ts);
    assert income > 0.0 ==> SavingsRate(income, expense) + ExpenseRatio(income, expense) == 100.0 by {
      if income > 0.0 { RatesMakeHundred(income, expense); }
    }
    var balance := income - expense;
    Dashboard(
      income, expense, balance,
      |ts|, ClassCount(ts, Income), ClassCount(ts, Expense),
      SavingsRate(income, expense), ExpenseRatio(income, expense),
      NetWorthLabel(balance))
  }

  /** A salary of 1000 and a food expense of 300 give a balance of 700 and a
      savings rate of 70 percent. */
  lemma SalaryAndFoodScenario()
    ensures var ts := [Transaction(Some("Income"), "Salary", Some(1000.0), Some(0)),
                       Transaction(Some("Expense"), "Food", Some(300.0), Some(0))];
            var d := Render(ts, Total(ts, Income), Total(ts, Expense));
            d.income == 1000.0 && d.expense == 300.0 && d.balance == 700.0 && d.savingsRate == 70.0
  {
    var inc := Transaction(Some("Income"), "Salary", Some(1000.0), Some(0));
    var exp := Transaction(Some("Expense"), "Food", Some(300.0), Some(0));
    FormTypesClassify(inc);
    FormTypesClassify(exp);
    var ts := [inc, exp];
    assert ts[..1] == [inc];
    assert [inc][..0] == [];
    assert Total([inc], Income) == 1000.0 && Total([inc], Expense) == 0.0;
    assert Total(ts, Income) == Total([inc], Income) + Contribution(exp, Income);
    assert Total(ts, Expense) == Total([inc], Expense) + Contribution(exp, Expense);
    assert Total(ts, Income) == 1000.0;
    assert Total(ts, Expense) == 300.0;
  }
}
