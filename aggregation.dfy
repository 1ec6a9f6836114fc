/**
 * The monthly figures of src/components/dashboard/Dashboard.tsx: the
 * transactions of a (month, year) period, income and expense totals, the
 * balance, the previous period, period-over-period change with its zero-baseline
 * rule, and the savings rate. The current period, which the source reads from
 * `new Date()`, is a parameter.
 */
module Aggregation {
  import opened Types
  import opened Seqs

  // ---------------------------------------------------------------------------
  // Sums

  /** `reduce((sum, t) => sum + t.amount, 0)`. */
  function Sum(ts: seq<Transaction>): real
  {
    if ts == [] then 0.0 else ts[0].amount + Sum(ts[1..])
  }

  lemma {:induction false} SumAppend(a: seq<Transaction>, b: seq<Transaction>)
    ensures Sum(a + b) == Sum(a) + Sum(b)
  {
    if a == [] {
      assert a + b == b;
    } else {
      assert (a + b)[1..] == a[1..] + b;
      SumAppend(a[1..], b);
    }
  }

  /** A sum of non-negative amounts is non-negative. */
  lemma {:induction false} SumNonNegative(ts: seq<Transaction>)
    requires forall t :: t in ts ==> t.amount >= 0.0
    ensures Sum(ts) >= 0.0
  {
    if ts != [] {
      assert ts[0] in ts;
      SumNonNegative(ts[1..]);
    }
  }

  /** The sum of a filtered sequence, unfolded by one element. */
  lemma SumFilterCons(ts: seq<Transaction>, p: Transaction -> bool)
    requires ts != []
    ensures Sum(Filter(ts, p)) == (if p(ts[0]) then ts[0].amount else 0.0) + Sum(Filter(ts[1..], p))
  {
    FilterCons(ts, p);
    SumAppend(if p(ts[0]) then [ts[0]] else [], Filter(ts[1..], p));
  }

  // ---------------------------------------------------------------------------
  // Periods

  function InPeriodP(p: Period): Transaction -> bool
  {
    (t: Transaction) => PeriodOf(t.date) == p
  }

  /** The transactions dated in period `p`, in stored order. */
  function MonthTransactions(ts: seq<Transaction>, p: Period): (r: seq<Transaction>)
    ensures forall t :: multiset(r)[t] == if PeriodOf(t.date) == p then multiset(ts)[t] else 0
    ensures forall t :: t in r <==> t in ts && t.date.month == p.month && t.date.year == p.year
    ensures IsSubsequence(r, ts)
  {
    FilterMultiset(ts, InPeriodP(p));
    var r := Filter(ts, InPeriodP(p));
    assert forall t :: t in r <==> multiset(r)[t] > 0;
    assert forall t :: t in ts <==> multiset(ts)[t] > 0;
    r
  }

  function OfTypeP(k: TxType): Transaction -> bool
  {
    (t: Transaction) => t.kind == k
  }

  /** The transactions of one type, in order. */
  function OfType(ts: seq<Transaction>, k: TxType): (r: seq<Transaction>)
    ensures forall t :: multiset(r)[t] == if t.kind == k then multiset(ts)[t] else 0
    ensures IsSubsequence(r, ts)
  {
    FilterMultiset(ts, OfTypeP(k));
    Filter(ts, OfTypeP(k))
  }

  /** `filter(t => t.type === k).reduce(...)`: the total amount of one type. */
  function TotalOfType(ts: seq<Transaction>, k: TxType): real
  {
    Sum(OfType(ts, k))
  }

  /** Nothing of any type in an empty list. */
  lemma TotalOfEmpty(k: TxType)
    ensures TotalOfType([], k) == 0.0
  {
  }

  /** The total of one type, unfolded by one element. */
  lemma TotalOfTypeCons(ts: seq<Transaction>, k: TxType)
    requires ts != []
    ensures TotalOfType(ts, k) == (if ts[0].kind == k then ts[0].amount else 0.0) + TotalOfType(ts[1..], k)
  {
    SumFilterCons(ts, OfTypeP(k));
  }

  /**
   * Every transaction is either income or expense, so the two totals together
   * are the sum of all amounts.
   */
  lemma {:induction false} TypePartition(ts: seq<Transaction>)
    ensures TotalOfType(ts, Income) + TotalOfType(ts, Expense) == Sum(ts)
  {
    if ts != [] {
      TotalOfTypeCons(ts, Income);
      TotalOfTypeCons(ts, Expense);
      TypePartition(ts[1..]);
    }
  }

  /** With non-negative amounts, each type's total lies between 0 and the overall sum. */
  lemma TotalOfTypeBounds(ts: seq<Transaction>, k: TxType)
    requires forall t :: t in ts ==> t.amount >= 0.0
    ensures 0.0 <= TotalOfType(ts, k) <= Sum(ts)
  {
    forall t | t in OfType(ts, k) ensures t.amount >= 0.0 {
      assert multiset(OfType(ts, k))[t] > 0;
    }
    SumNonNegative(OfType(ts, k));
    SumNonNegative(OfType(ts, if k == Income then Expense else Income));
    TypePartition(ts);
  }

  /** Months counted from year 0: consecutive periods differ by one. */
  function PeriodIndex(p: Period): int
  {
    p.year * 12 + p.month
  }

  /** On valid periods the index is one-to-one. */
  lemma PeriodIndexInjective(a: Period, b: Period)
    requires ValidPeriod(a) && ValidPeriod(b) && PeriodIndex(a) == PeriodIndex(b)
    ensures a == b
  {
    assert (a.year - b.year) * 12 == b.month - a.month;
  }

  /** `currentMonth === 0 ? 11 : currentMonth - 1`, with the year rolled back for January. */
  function PrevPeriod(p: Period): (r: Period)
    ensures ValidPeriod(p) ==> ValidPeriod(r) && PeriodIndex(r) == PeriodIndex(p) - 1
  {
    if p.month == 0 then Period(11, p.year - 1) else Period(p.month - 1, p.year)
  }

  /** The period after `p`, rolling the year over after December. */
  function NextPeriod(p: Period): (r: Period)
    ensures ValidPeriod(p) ==> ValidPeriod(r) && PeriodIndex(r) == PeriodIndex(p) + 1
  {
    if p.month == 11 then Period(0, p.year + 1) else Period(p.month + 1, p.year)
  }

  /** The previous period is the one whose next period is the current one, and back. */
  lemma PrevNextRoundTrip(p: Period)
    requires ValidPeriod(p)
    ensures NextPeriod(PrevPeriod(p)) == p && PrevPeriod(NextPeriod(p)) == p
  {
    PeriodIndexInjective(NextPeriod(PrevPeriod(p)), p);
    PeriodIndexInjective(PrevPeriod(NextPeriod(p)), p);
  }

  // ---------------------------------------------------------------------------
  // Changes and rates

  /**
   * incomeChange / expenseChange: the percentage change from `prev` to `cur`,
   * defined as 0 when the baseline is 0.
   */
  function Change(cur: real, prev: real): (r: real)
    ensures prev == 0.0 ==> r == 0.0
    ensures prev != 0.0 ==> cur == prev + prev * r / 100.0
  {
    if prev == 0.0 then 0.0 else (cur - prev) / prev * 100.0
  }

  /** With a positive baseline, the change is non-negative exactly when the value did not fall. */
  lemma ChangeSign(cur: real, prev: real)
    requires prev > 0.0
    ensures Change(cur, prev) >= 0.0 <==> cur >= prev
  {
    var r := Change(cur, prev);
    assert prev * r / 100.0 == prev * (r / 100.0);
    if r < 0.0 {
      assert prev * (r / 100.0) < 0.0;
    }
    if r >= 0.0 {
      assert prev * (r / 100.0) >= 0.0;
    }
  }

  /** The arrow shown on a stats card. */
  datatype Trend = Positive | Negative | Neutral

  /** Balance and income: more is good. */
  function GainTrend(change: real): (r: Trend)
    ensures r == Positive <==> change >= 0.0
    ensures r != Neutral
  {
    if change >= 0.0 then Positive else Negative
  }

  /** Expenses: the label is inverted, so a rise is shown as negative. */
  function CostTrend(change: real): (r: Trend)
    ensures r == Negative <==> change >= 0.0
    ensures r != Neutral
  {
    if change >= 0.0 then Negative else Positive
  }

  /** The two labellings are opposite for every change. */
  lemma TrendsOpposite(change: real)
    ensures GainTrend(change) != CostTrend(change)
  {
  }

  /**
   * `whole > 0 ? part / whole * 100 : 0`: a part as a percentage of a positive
   * whole, and 0 otherwise. The savings rate is the balance as a percentage of
   * income; the chart's category breakdown uses the same expression for shares.
   */
  function Percent(part: real, whole: real): (r: real)
    ensures whole <= 0.0 ==> r == 0.0
    ensures whole > 0.0 ==> r * whole == part * 100.0
  {
    if whole > 0.0 then part / whole * 100.0 else 0.0
  }

  /**
   * With positive income and non-negative expenses, the savings rate is at most
   * 100, and it is non-negative exactly when expenses do not exceed income.
   */
  lemma SavingsRateBounds(income: real, expenses: real)
    requires income > 0.0 && expenses >= 0.0
    ensures Percent(income - expenses, income) <= 100.0
    ensures Percent(income - expenses, income) >= 0.0 <==> expenses <= income
  {
    var r := Percent(income - expenses, income);
    assert r * income == (income - expenses) * 100.0;
    assert (income - expenses) * 100.0 <= income * 100.0;
    if r < 0.0 {
      assert r * income < 0.0;
    }
    if r >= 0.0 {
      assert r * income >= 0.0;
    }
  }

  // ---------------------------------------------------------------------------
  // The dashboard

  /** Income and expense totals of one period. */
  datatype Totals = Totals(income: real, expenses: real)

  /**
   * The type-filtered sums over the transactions of period `p`; together they
   * account for every amount in the period.
   */
  function MonthTotals(ts: seq<Transaction>, p: Period): (m: Totals)
    ensures m.income + m.expenses == Sum(MonthTransactions(ts, p))
    ensures m.income == TotalOfType(MonthTransactions(ts, p), Income)
    ensures m.expenses == TotalOfType(MonthTransactions(ts, p), Expense)
  {
    var month := MonthTransactions(ts, p);
    TypePartition(month);
    Totals(TotalOfType(month, Income), TotalOfType(month, Expense))
  }

  datatype Stats = Stats(
    totalIncome: real,
    totalExpenses: real,
    balance: real,
    prevTotalIncome: real,
    prevTotalExpenses: real,
    incomeChange: real,
    expenseChange: real,
    balanceChange: real,
    savingsRate: real,
    balanceTrend: Trend,
    incomeTrend: Trend,
    expenseTrend: Trend)

  /** The four stats cards, for the transactions `ts` and the current period `now`. */
  function DashboardStats(ts: seq<Transaction>, now: Period): (s: Stats)
    ensures Totals(s.totalIncome, s.totalExpenses) == MonthTotals(ts, now)
    ensures Totals(s.prevTotalIncome, s.prevTotalExpenses) == MonthTotals(ts, PrevPeriod(now))
    ensures s.balance == s.totalIncome - s.totalExpenses
    ensures s.incomeChange == Change(s.totalIncome, s.prevTotalIncome)
    ensures s.expenseChange == Change(s.totalExpenses, s.prevTotalExpenses)
    ensures s.balanceChange == s.balance - (s.prevTotalIncome - s.prevTotalExpenses)
    ensures s.balanceTrend == Positive <==> s.balanceChange >= 0.0
    ensures s.incomeTrend == Positive <==> s.incomeChange >= 0.0
    ensures s.expenseTrend == Negative <==> s.expenseChange >= 0.0
    ensures s.savingsRate == Percent(s.balance, s.totalIncome)
  {
    var cur := MonthTotals(ts, now);
    var prev := MonthTotals(ts, PrevPeriod(now));
    var balance := cur.income - cur.expenses;
    var balanceChange := balance - (prev.income - prev.expenses);
    var incomeChange := Change(cur.income, prev.income);
    var expenseChange := Change(cur.expenses, prev.expenses);
    Stats(cur.income, cur.expenses, balance, prev.income, prev.expenses, incomeChange, expenseChange,
          balanceChange, Percent(balance, cur.income),
          GainTrend(balanceChange), GainTrend(incomeChange), CostTrend(expenseChange))
  }

  /** The month's income and expenses add up to every amount dated in it. */
  lemma StatsAccountForMonth(ts: seq<Transaction>, now: Period)
    ensures DashboardStats(ts, now).totalIncome + DashboardStats(ts, now).totalExpenses
         == Sum(MonthTransactions(ts, now))
  {
  }
}
