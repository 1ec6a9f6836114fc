/**
 * The budget panel of src/components/dashboard/BudgetOverview.tsx: the current
 * month's expenses, their totals per category, the demonstration budgets used
 * when the user has none, and the three-tier status of each budget.
 */
module Budgets {
  import opened Types
  import opened Seqs
  import opened Aggregation

  // ---------------------------------------------------------------------------
  // The month's expenses

  function IsExpenseInP(p: Period): Transaction -> bool
  {
    (t: Transaction) => t.kind == Expense && PeriodOf(t.date) == p
  }

  /** The expense records of period `p`, in stored order. */
  function CurrentMonthExpenses(ts: seq<Transaction>, p: Period): (r: seq<Transaction>)
    ensures forall t :: multiset(r)[t] ==
                        if t.kind == Expense && PeriodOf(t.date) == p then multiset(ts)[t] else 0
    ensures IsSubsequence(r, ts)
  {
    FilterMultiset(ts, IsExpenseInP(p));
    Filter(ts, IsExpenseInP(p))
  }

  /**
   * Filtering by type and period at once is filtering by period and then by
   * type, so these records total the dashboard's expenses for the month.
   */
  lemma {:induction false} CurrentMonthExpensesTotal(ts: seq<Transaction>, p: Period)
    ensures Sum(CurrentMonthExpenses(ts, p)) == MonthTotals(ts, p).expenses
  {
    if ts != [] {
      CurrentMonthExpensesTotal(ts[1..], p);
      SumFilterCons(ts, IsExpenseInP(p));
      FilterCons(ts, InPeriodP(p));
      var rest := MonthTransactions(ts[1..], p);
      if PeriodOf(ts[0].date) == p {
        assert MonthTransactions(ts, p) == [ts[0]] + rest;
        assert ([ts[0]] + rest)[1..] == rest;
        TotalOfTypeCons([ts[0]] + rest, Expense);
      } else {
        assert MonthTransactions(ts, p) == rest;
      }
    }
  }

  // ---------------------------------------------------------------------------
  // Totals per category

  /**
   * A JavaScript object used as a dictionary from category name to amount. Its
   * keys keep insertion order, which `Object.keys` and `Object.values` report,
   * so it is an association list here.
   */
  type Tally = seq<(string, real)>

  function Keys(m: Tally): (r: seq<string>)
    ensures |r| == |m| && forall i :: 0 <= i < |m| ==> r[i] == m[i].0
  {
    if m == [] then [] else [m[0].0] + Keys(m[1..])
  }

  function Values(m: Tally): (r: seq<real>)
    ensures |r| == |m| && forall i :: 0 <= i < |m| ==> r[i] == m[i].1
  {
    if m == [] then [] else [m[0].1] + Values(m[1..])
  }

  predicate DistinctKeys(m: Tally)
  {
    forall i, j :: 0 <= i < j < |m| ==> m[i].0 != m[j].0
  }

  /** `m[c] || 0`: the amount stored under `c`, or 0 when there is none. */
  function Lookup(m: Tally, c: string): real
  {
    if m == [] then 0.0 else if m[0].0 == c then m[0].1 else Lookup(m[1..], c)
  }

  function SumReals(xs: seq<real>): real
  {
    if xs == [] then 0.0 else xs[0] + SumReals(xs[1..])
  }

  /** `acc[c] = (acc[c] || 0) + a`: add to an existing key in place, or add the key last. */
  function AddTo(m: Tally, c: string, a: real): (r: Tally)
    ensures Keys(r) == if c in Keys(m) then Keys(m) else Keys(m) + [c]
  {
    if m == [] then [(c, a)]
    else if m[0].0 == c then [(c, m[0].1 + a)] + m[1..]
    else [m[0]] + AddTo(m[1..], c, a)
  }

  lemma {:induction false} AddToLookup(m: Tally, c: string, a: real, x: string)
    ensures Lookup(AddTo(m, c, a), x) == Lookup(m, x) + (if x == c then a else 0.0)
  {
    if m != [] && m[0].0 != c {
      AddToLookup(m[1..], c, a, x);
    }
  }

  lemma {:induction false} AddToSum(m: Tally, c: string, a: real)
    ensures SumReals(Values(AddTo(m, c, a))) == SumReals(Values(m)) + a
  {
    if m != [] && m[0].0 != c {
      AddToSum(m[1..], c, a);
    }
  }

  lemma AddToDistinct(m: Tally, c: string, a: real)
    requires DistinctKeys(m)
    ensures DistinctKeys(AddTo(m, c, a))
  {
    var r := AddTo(m, c, a);
    forall i, j | 0 <= i < j < |r| ensures r[i].0 != r[j].0 {
      assert Keys(r)[i] == r[i].0 && Keys(r)[j] == r[j].0;
      if c !in Keys(m) && j == |m| {
        assert Keys(m)[i] == r[i].0;
      } else {
        assert Keys(m)[i] == r[i].0 && Keys(m)[j] == r[j].0;
      }
    }
  }

  /** Every stored amount is non-negative. */
  predicate NonNegative(m: Tally)
  {
    forall i :: 0 <= i < |m| ==> m[i].1 >= 0.0
  }

  lemma {:induction false} AddToNonNegative(m: Tally, c: string, a: real)
    requires a >= 0.0 && NonNegative(m)
    ensures NonNegative(AddTo(m, c, a))
  {
    if m != [] && m[0].0 != c {
      AddToNonNegative(m[1..], c, a);
      assert AddTo(m, c, a) == [m[0]] + AddTo(m[1..], c, a);
    }
  }

  /** The reduce over the transactions, left to right, starting from `acc`. */
  function Accumulate(acc: Tally, ts: seq<Transaction>): Tally
    decreases |ts|
  {
    if ts == [] then acc else Accumulate(AddTo(acc, ts[0].category, ts[0].amount), ts[1..])
  }

  function InCategoryP(c: string): Transaction -> bool
  {
    (t: Transaction) => t.category == c
  }

  /** The total amount of the records filed under category `c`. */
  function CategorySum(ts: seq<Transaction>, c: string): real
  {
    Sum(Filter(ts, InCategoryP(c)))
  }

  lemma {:induction false} AccumulateLookup(acc: Tally, ts: seq<Transaction>, x: string)
    ensures Lookup(Accumulate(acc, ts), x) == Lookup(acc, x) + CategorySum(ts, x)
    decreases |ts|
  {
    if ts != [] {
      AddToLookup(acc, ts[0].category, ts[0].amount, x);
      AccumulateLookup(AddTo(acc, ts[0].category, ts[0].amount), ts[1..], x);
      SumFilterCons(ts, InCategoryP(x));
    }
  }

  lemma {:induction false} AccumulateSum(acc: Tally, ts: seq<Transaction>)
    ensures SumReals(Values(Accumulate(acc, ts))) == SumReals(Values(acc)) + Sum(ts)
    decreases |ts|
  {
    if ts != [] {
      AddToSum(acc, ts[0].category, ts[0].amount);
      AccumulateSum(AddTo(acc, ts[0].category, ts[0].amount), ts[1..]);
    }
  }

  /** Some record is filed under category `c`. */
  predicate SomeInCategory(ts: seq<Transaction>, c: string)
  {
    exists t :: t in ts && t.category == c
  }

  lemma SomeInCategoryCons(ts: seq<Transaction>, c: string)
    requires ts != []
    ensures SomeInCategory(ts, c) <==> ts[0].category == c || SomeInCategory(ts[1..], c)
  {
    assert ts[0] in ts;
    if t :| t in ts[1..] && t.category == c {
      assert t in ts;
    }
    if t :| t in ts && t.category == c && t != ts[0] {
      assert ts == [ts[0]] + ts[1..];
      assert t in ts[1..];
    }
  }

  lemma {:induction false} AccumulateKeys(acc: Tally, ts: seq<Transaction>, x: string)
    ensures x in Keys(Accumulate(acc, ts)) <==> x in Keys(acc) || SomeInCategory(ts, x)
    decreases |ts|
  {
    if ts != [] {
      AccumulateKeys(AddTo(acc, ts[0].category, ts[0].amount), ts[1..], x);
      SomeInCategoryCons(ts, x);
    }
  }

  lemma {:induction false} AccumulateDistinct(acc: Tally, ts: seq<Transaction>)
    requires DistinctKeys(acc)
    ensures DistinctKeys(Accumulate(acc, ts))
    decreases |ts|
  {
    if ts != [] {
      AddToDistinct(acc, ts[0].category, ts[0].amount);
      AccumulateDistinct(AddTo(acc, ts[0].category, ts[0].amount), ts[1..]);
    }
  }

  lemma {:induction false} AccumulateNonNegative(acc: Tally, ts: seq<Transaction>)
    requires NonNegative(acc)
    requires forall t :: t in ts ==> t.amount >= 0.0
    ensures NonNegative(Accumulate(acc, ts))
    decreases |ts|
  {
    if ts != [] {
      assert ts[0] in ts;
      AddToNonNegative(acc, ts[0].category, ts[0].amount);
      AccumulateNonNegative(AddTo(acc, ts[0].category, ts[0].amount), ts[1..]);
    }
  }

  /**
   * spendingByCategory (and expensesByCategory in the chart): one key per
   * category that occurs, holding that category's total; absent categories are
   * not keys; and the values add up to the total of all the records.
   */
  function SpendingByCategory(ts: seq<Transaction>): (r: Tally)
    ensures DistinctKeys(r)
    ensures forall c :: c in Keys(r) <==> exists t :: t in ts && t.category == c
    ensures forall c :: Lookup(r, c) == CategorySum(ts, c)
    ensures SumReals(Values(r)) == Sum(ts)
    ensures (forall t :: t in ts ==> t.amount >= 0.0) ==> NonNegative(r)
  {
    AccumulateFromEmpty(ts);
    Accumulate([], ts)
  }

  /** The facts SpendingByCategory states, for the fold started from the empty object. */
  lemma AccumulateFromEmpty(ts: seq<Transaction>)
    ensures DistinctKeys(Accumulate([], ts))
    ensures forall c :: c in Keys(Accumulate([], ts)) <==> exists t :: t in ts && t.category == c
    ensures forall c :: Lookup(Accumulate([], ts), c) == CategorySum(ts, c)
    ensures SumReals(Values(Accumulate([], ts))) == Sum(ts)
    ensures (forall t :: t in ts ==> t.amount >= 0.0) ==> NonNegative(Accumulate([], ts))
  {
    AccumulateDistinct([], ts);
    forall c ensures c in Keys(Accumulate([], ts)) <==> exists t :: t in ts && t.category == c {
      AccumulateKeys([], ts, c);
    }
    forall c ensures Lookup(Accumulate([], ts), c) == CategorySum(ts, c) {
      AccumulateLookup([], ts, c);
    }
    AccumulateSum([], ts);
    if forall t :: t in ts ==> t.amount >= 0.0 {
      AccumulateNonNegative([], ts);
    }
  }

  /** With distinct keys, looking a key up finds the value stored beside it. */
  lemma {:induction false} LookupAt(m: Tally, i: int)
    requires DistinctKeys(m) && 0 <= i < |m|
    ensures Lookup(m, m[i].0) == m[i].1
  {
    if i > 0 {
      assert DistinctKeys(m[1..]);
      LookupAt(m[1..], i - 1);
    }
  }

  // ---------------------------------------------------------------------------
  // Budgets shown

  /**
   * mockBudgets: four demonstration budgets for the current period whose `spent`
   * is the category's spending, or 0 when it has none.
   */
  function MockBudgets(spending: Tally, p: Period): (r: seq<Budget>)
    ensures |r| == 4
    ensures forall i :: 0 <= i < 4 ==>
      r[i].spent == Lookup(spending, r[i].category) && r[i].month == p.month && r[i].year == p.year
    ensures forall i :: 0 <= i < 4 ==> r[i].limit > 0.0
  {
    [ Budget("1", "1", "Food & Dining", 25000.0, Lookup(spending, "Food & Dining"), p.month, p.year),
      Budget("2", "1", "Transportation", 15000.0, Lookup(spending, "Transportation"), p.month, p.year),
      Budget("3", "1", "Entertainment", 10000.0, Lookup(spending, "Entertainment"), p.month, p.year),
      Budget("4", "1", "Bills & Utilities", 30000.0, Lookup(spending, "Bills & Utilities"), p.month, p.year) ]
  }

  /**
   * currentBudgets: the user's budgets when there are any; otherwise the demonstration
   * budgets, each of which has spent what the month's expenses in its category add up to.
   */
  function CurrentBudgets(budgets: seq<Budget>, ts: seq<Transaction>, p: Period): (r: seq<Budget>)
    ensures |budgets| > 0 ==> r == budgets
    ensures |budgets| == 0 ==> |r| == 4 && forall i :: 0 <= i < 4 ==>
      r[i].spent == CategorySum(CurrentMonthExpenses(ts, p), r[i].category)
  {
    if |budgets| > 0 then budgets else MockBudgets(SpendingByCategory(CurrentMonthExpenses(ts, p)), p)
  }

  /** A demonstration budget whose category had no expense this month shows 0 spent. */
  lemma MockSpentZero(ts: seq<Transaction>, p: Period, i: int)
    requires 0 <= i < 4
    requires forall t :: t in CurrentMonthExpenses(ts, p) ==> t.category != CurrentBudgets([], ts, p)[i].category
    ensures CurrentBudgets([], ts, p)[i].spent == 0.0
  {
    var m := SpendingByCategory(CurrentMonthExpenses(ts, p));
    var c := CurrentBudgets([], ts, p)[i].category;
    assert c !in Keys(m);
    LookupAbsent(m, c);
  }

  lemma {:induction false} LookupAbsent(m: Tally, c: string)
    requires c !in Keys(m)
    ensures Lookup(m, c) == 0.0
  {
    if m != [] {
      assert Keys(m) == [m[0].0] + Keys(m[1..]);
      LookupAbsent(m[1..], c);
    }
  }

  // ---------------------------------------------------------------------------
  // Status of a budget

  /**
   * A JavaScript number that arises from a division: finite, infinite, or NaN
   * (0 / 0). Division by a zero limit is not an error in the source.
   */
  datatype Number = Finite(value: real) | PlusInfinity | MinusInfinity | NaN

  /** `x / y` with IEEE rules for a zero divisor. */
  function Divide(x: real, y: real): (r: Number)
    ensures y != 0.0 ==> r.Finite? && r.value * y == x
    ensures y == 0.0 ==> !r.Finite?
  {
    if y != 0.0 then Finite(x / y)
    else if x > 0.0 then PlusInfinity
    else if x < 0.0 then MinusInfinity
    else NaN
  }

  /** `n * 100`. */
  function Times100(n: Number): Number
  {
    match n
    case Finite(v) => Finite(v * 100.0)
    case _ => n
  }

  /** `(spent / limit) * 100`. */
  function Percentage(spent: real, limit: real): (r: Number)
    ensures limit > 0.0 ==> r.Finite? && r.value * limit == spent * 100.0
  {
    Times100(Divide(spent, limit))
  }

  /** `n >= t`; every comparison with NaN is false. */
  predicate AtLeast(n: Number, t: real)
  {
    match n
    case Finite(v) => v >= t
    case PlusInfinity => true
    case MinusInfinity => false
    case NaN => false
  }

  datatype Status = Over | Warning | Good

  /** getBudgetStatus: first match of percentage >= 90, then >= 70, else good. */
  function Classify(pct: Number): (r: Status)
    ensures r == Good <==> !AtLeast(pct, 70.0)
  {
    if AtLeast(pct, 90.0) then Over else if AtLeast(pct, 70.0) then Warning else Good
  }

  function BudgetStatus(spent: real, limit: real): Status
  {
    Classify(Percentage(spent, limit))
  }

  /**
   * For a positive limit the three tiers are spending of at least 90% of the
   * limit, between 70% (inclusive) and 90%, and below 70%.
   */
  lemma StatusThresholds(spent: real, limit: real)
    requires limit > 0.0
    ensures BudgetStatus(spent, limit) == Over <==> spent * 100.0 >= 90.0 * limit
    ensures BudgetStatus(spent, limit) == Warning <==>
      70.0 * limit <= spent * 100.0 < 90.0 * limit
    ensures BudgetStatus(spent, limit) == Good <==> spent * 100.0 < 70.0 * limit
  {
    PercentageAtLeast(spent, limit, 90.0);
    PercentageAtLeast(spent, limit, 70.0);
  }

  /** For a positive limit, the percentage reaches `t` exactly when spending reaches `t`% of the limit. */
  lemma PercentageAtLeast(spent: real, limit: real, t: real)
    requires limit > 0.0
    ensures AtLeast(Percentage(spent, limit), t) <==> spent * 100.0 >= t * limit
  {
    var v := Percentage(spent, limit).value;
    ScaleCompare(v, t, limit);
  }

  /** Multiplying by a positive factor keeps the order. */
  lemma ScaleCompare(v: real, t: real, k: real)
    requires k > 0.0
    ensures v >= t <==> v * k >= t * k
  {
    assert v * k - t * k == (v - t) * k;
    if v >= t {
      assert (v - t) * k >= 0.0;
    } else {
      assert (v - t) * k < 0.0;
    }
  }

  /** Exactly 90% is over and exactly 70% is a warning. */
  lemma StatusBoundaries(limit: real)
    requires limit > 0.0
    ensures BudgetStatus(0.9 * limit, limit) == Over
    ensures BudgetStatus(0.7 * limit, limit) == Warning
    ensures BudgetStatus(0.899999 * limit, limit) == Warning
    ensures BudgetStatus(0.699999 * limit, limit) == Good
  {
    StatusThresholds(0.9 * limit, limit);
    StatusThresholds(0.7 * limit, limit);
    StatusThresholds(0.899999 * limit, limit);
    StatusThresholds(0.699999 * limit, limit);
  }

  /** A zero limit: any spending is over (infinite percentage); spending nothing is good (NaN). */
  lemma ZeroLimit(spent: real)
    ensures spent > 0.0 ==> BudgetStatus(spent, 0.0) == Over
    ensures spent <= 0.0 ==> BudgetStatus(spent, 0.0) == Good
  {
  }

  datatype BarColor = Red | Yellow | Green

  /** The progress bar's colour: `>= 90` red, `>= 70` yellow, else green. */
  function ProgressColor(pct: Number): BarColor
  {
    if AtLeast(pct, 90.0) then Red else if AtLeast(pct, 70.0) then Yellow else Green
  }

  function StatusColor(s: Status): BarColor
  {
    match s
    case Over => Red
    case Warning => Yellow
    case Good => Green
  }

  /** The bar and the status use the same thresholds, so their colours always agree. */
  lemma ProgressColorMatchesStatus(spent: real, limit: real)
    ensures ProgressColor(Percentage(spent, limit)) == StatusColor(BudgetStatus(spent, limit))
  {
  }

  /** `Math.min(pct, 100)`: the bar width, never above 100 (NaN stays NaN). */
  function BarWidth(pct: Number): (w: Number)
    ensures !w.PlusInfinity?
    ensures w.Finite? ==> w.value <= 100.0
    ensures pct.Finite? && pct.value <= 100.0 ==> w == pct
    ensures AtLeast(pct, 100.0) ==> w == Finite(100.0)
    ensures pct.NaN? ==> w.NaN?
  {
    match pct
    case Finite(v) => Finite(if v <= 100.0 then v else 100.0)
    case PlusInfinity => Finite(100.0)
    case _ => pct
  }

  /** The over-budget notice: shown when spending strictly exceeds the limit. */
  predicate OverBudget(spent: real, limit: real)
  {
    spent > limit
  }

  /** The amount the notice reports, which is positive whenever it is shown. */
  function Overage(spent: real, limit: real): (r: real)
    requires OverBudget(spent, limit)
    ensures r > 0.0 && limit + r == spent
  {
    spent - limit
  }

  /** Over budget with a non-negative limit is always the over status. */
  lemma OverBudgetIsOver(spent: real, limit: real)
    requires limit >= 0.0 && OverBudget(spent, limit)
    ensures BudgetStatus(spent, limit) == Over
  {
    if limit > 0.0 {
      StatusThresholds(spent, limit);
    }
  }

  /** The status can be over while the notice is not shown: 95 spent of 100. */
  lemma OverWithoutOverBudget()
    ensures BudgetStatus(95.0, 100.0) == Over && !OverBudget(95.0, 100.0)
  {
    StatusThresholds(95.0, 100.0);
  }

  /** Two budgets: 2,500 of 25,000 is 10% and good; 12,000 of 10,000 is 120%, over and over budget. */
  lemma StatusExamples()
    ensures Percentage(2500.0, 25000.0) == Finite(10.0) && BudgetStatus(2500.0, 25000.0) == Good
    ensures !OverBudget(2500.0, 25000.0)
    ensures Percentage(12000.0, 10000.0) == Finite(120.0) && BudgetStatus(12000.0, 10000.0) == Over
    ensures OverBudget(12000.0, 10000.0) && Overage(12000.0, 10000.0) == 2000.0
  {
  }
}
