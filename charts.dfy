/**
 * The data behind the charts of src/components/dashboard/ExpenseChart.tsx: the
 * colour of a category, each category's share of the month's expenses, the
 * trailing six-month window and its income and expense series.
 */
module Charts {
  import opened Types
  import opened Aggregation
  import opened Budgets

  // ---------------------------------------------------------------------------
  // Category colours

  /** The grey used for a category that is not in the list. */
  const FallbackColor: string := "#6b7280"

  /** Slot `k` is the first category called `name`. */
  predicate FirstNamed(cs: seq<Category>, name: string, k: int)
  {
    0 <= k < |cs| && cs[k].name == name && forall j :: 0 <= j < k ==> cs[j].name != name
  }

  lemma FirstNamedUnique(cs: seq<Category>, name: string, k: int, k': int)
    requires FirstNamed(cs, name, k) && FirstNamed(cs, name, k')
    ensures k == k'
  {
  }

  /** `categories.find(c => c.name === name)`. */
  function FindCategory(cs: seq<Category>, name: string): (r: Option<Category>)
    ensures r.None? <==> forall c :: c in cs ==> c.name != name
    ensures r.Some? ==> exists k :: FirstNamed(cs, name, k) && cs[k] == r.value
  {
    if cs == [] then None
    else if cs[0].name == name then Some(cs[0])
    else
      var r := FindCategory(cs[1..], name);
      assert cs == [cs[0]] + cs[1..];
      if r.Some? then
        var k :| FirstNamed(cs[1..], name, k) && cs[1..][k] == r.value;
        assert FirstNamed(cs, name, k + 1) && cs[k + 1] == r.value;
        r
      else r
  }

  /**
   * getCategoryColor: the colour of the first category with that name, or the
   * grey fallback when no category has the name or its colour is the empty string.
   */
  function CategoryColor(cs: seq<Category>, name: string): (r: string)
    ensures forall k :: FirstNamed(cs, name, k) ==> r == if cs[k].color != "" then cs[k].color else FallbackColor
    ensures (forall c :: c in cs ==> c.name != name) ==> r == FallbackColor
  {
    var f := FindCategory(cs, name);
    if f.Some? then
      var k :| FirstNamed(cs, name, k) && cs[k] == f.value;
      assert forall k' :: FirstNamed(cs, name, k') ==> k' == k;
      if f.value.color != "" then f.value.color else FallbackColor
    else FallbackColor
  }

  // ---------------------------------------------------------------------------
  // Shares of the month's expenses

  /** Each amount's share of the same total. */
  function Shares(amounts: seq<real>, total: real): (r: seq<real>)
    ensures |r| == |amounts| && forall i :: 0 <= i < |amounts| ==> r[i] == Percent(amounts[i], total)
  {
    if amounts == [] then [] else [Percent(amounts[0], total)] + Shares(amounts[1..], total)
  }

  /** The shares add up to the sum of the amounts as a percentage of the total. */
  lemma {:induction false} SharesSum(amounts: seq<real>, total: real)
    requires total > 0.0
    ensures SumReals(Shares(amounts, total)) * total == SumReals(amounts) * 100.0
  {
    if amounts != [] {
      SharesSum(amounts[1..], total);
      var s0 := Percent(amounts[0], total);
      var rest := SumReals(Shares(amounts[1..], total));
      assert SumReals(Shares(amounts, total)) == s0 + rest;
      assert (s0 + rest) * total == s0 * total + rest * total;
    }
  }

  /** Shares of the amounts' own sum add up to 100. */
  lemma SharesOfWhole(amounts: seq<real>)
    requires SumReals(amounts) > 0.0
    ensures SumReals(Shares(amounts, SumReals(amounts))) == 100.0
  {
    var total := SumReals(amounts);
    SharesSum(amounts, total);
    var s := SumReals(Shares(amounts, total));
    ScaleCompare(s, 100.0, total);
    ScaleCompare(100.0, s, total);
  }

  /** A non-negative amount is at most the sum it is part of. */
  lemma {:induction false} PartAtMostSum(amounts: seq<real>, i: int)
    requires forall j :: 0 <= j < |amounts| ==> amounts[j] >= 0.0
    requires 0 <= i < |amounts|
    ensures 0.0 <= amounts[i] <= SumReals(amounts)
  {
    if i > 0 {
      PartAtMostSum(amounts[1..], i - 1);
    } else {
      SumNonNegativeReals(amounts[1..]);
    }
  }

  lemma {:induction false} SumNonNegativeReals(amounts: seq<real>)
    requires forall j :: 0 <= j < |amounts| ==> amounts[j] >= 0.0
    ensures SumReals(amounts) >= 0.0
  {
    if amounts != [] {
      SumNonNegativeReals(amounts[1..]);
    }
  }

  /** A share of a part that lies between 0 and the total lies between 0 and 100. */
  lemma ShareBounds(amount: real, total: real)
    requires total > 0.0 && 0.0 <= amount <= total
    ensures 0.0 <= Percent(amount, total) <= 100.0
  {
    var r := Percent(amount, total);
    ScaleCompare(r, 0.0, total);
    ScaleCompare(100.0, r, total);
  }

  /** The category breakdown: each value of the per-category tally with its share of their total. */
  function CategoryShares(m: Tally): (r: seq<real>)
    ensures |r| == |m|
    ensures forall i :: 0 <= i < |m| ==> r[i] == Percent(m[i].1, SumReals(Values(m)))
  {
    Shares(Values(m), SumReals(Values(m)))
  }

  /**
   * For the month's expenses, with non-negative amounts and a positive total,
   * every category's share lies in [0, 100] and the shares add up to 100.
   */
  lemma BreakdownShares(ts: seq<Transaction>, p: Period)
    requires forall t :: t in ts ==> t.amount >= 0.0
    requires Sum(CurrentMonthExpenses(ts, p)) > 0.0
    ensures var r := CategoryShares(SpendingByCategory(CurrentMonthExpenses(ts, p)));
      && (forall i :: 0 <= i < |r| ==> 0.0 <= r[i] <= 100.0)
      && SumReals(r) == 100.0
  {
    var month := CurrentMonthExpenses(ts, p);
    forall t | t in month ensures t.amount >= 0.0 {
      assert multiset(month)[t] > 0;
    }
    var m := SpendingByCategory(month);
    var vs := Values(m);
    var total := SumReals(vs);
    assert total == Sum(month);
    forall i | 0 <= i < |vs| ensures 0.0 <= Shares(vs, total)[i] <= 100.0 {
      PartAtMostSum(vs, i);
      ShareBounds(vs[i], total);
    }
    SharesOfWhole(vs);
  }

  // ---------------------------------------------------------------------------
  // The six-month window

  /** The period `i` months before `p`. */
  function MonthsBack(p: Period, i: nat): Period
  {
    if i == 0 then p else PrevPeriod(MonthsBack(p, i - 1))
  }

  lemma {:induction false} MonthsBackIndex(p: Period, i: nat)
    requires ValidPeriod(p)
    ensures ValidPeriod(MonthsBack(p, i)) && PeriodIndex(MonthsBack(p, i)) == PeriodIndex(p) - i
  {
    if i > 0 {
      MonthsBackIndex(p, i - 1);
    }
  }

  /** `.reverse()`. */
  function Reversed<T>(s: seq<T>): (r: seq<T>)
    ensures |r| == |s| && forall k :: 0 <= k < |s| ==> r[k] == s[|s| - 1 - k]
  {
    if s == [] then [] else Reversed(s[1..]) + [s[0]]
  }

  /**
   * last6Months: entry `i` of `Array.from` is `i` months back from now; reversed,
   * the list runs oldest first and ends at the current period.
   */
  function Last6Months(now: Period): (w: seq<Period>)
    ensures |w| == 6 && w[5] == now
  {
    Reversed(seq(6, (i: int) requires 0 <= i < 6 => MonthsBack(now, i)))
  }

  /**
   * The window is six consecutive valid periods ending at `now`: entry `k` is
   * 5 - k months back, each entry is followed by the next month with the year
   * rolled over, and the next-to-last entry is the dashboard's previous period.
   */
  lemma WindowShape(now: Period)
    requires ValidPeriod(now)
    ensures forall k :: 0 <= k < 6 ==>
      ValidPeriod(Last6Months(now)[k]) && PeriodIndex(Last6Months(now)[k]) == PeriodIndex(now) - (5 - k)
    ensures forall k :: 0 <= k < 5 ==> NextPeriod(Last6Months(now)[k]) == Last6Months(now)[k + 1]
    ensures Last6Months(now)[4] == PrevPeriod(now)
  {
    var w := Last6Months(now);
    forall k | 0 <= k < 6
      ensures w[k] == MonthsBack(now, 5 - k)
      ensures ValidPeriod(w[k]) && PeriodIndex(w[k]) == PeriodIndex(now) - (5 - k)
    {
      MonthsBackIndex(now, 5 - k);
    }
    forall k | 0 <= k < 5 ensures NextPeriod(w[k]) == w[k + 1] {
      assert w[k] == PrevPeriod(w[k + 1]);
      PrevNextRoundTrip(w[k + 1]);
    }
  }

  /** Anchored at January 2025, the window runs from August 2024 to January 2025. */
  lemma JanuaryWindow()
    ensures Last6Months(Period(0, 2025)) ==
      [Period(7, 2024), Period(8, 2024), Period(9, 2024), Period(10, 2024), Period(11, 2024), Period(0, 2025)]
  {
  }

  // ---------------------------------------------------------------------------
  // The monthly series

  /** monthlyData: the income and expense totals of each period of the window. */
  function MonthlyData(ts: seq<Transaction>, window: seq<Period>): (r: seq<Totals>)
    ensures |r| == |window|
    ensures forall k :: 0 <= k < |window| ==> r[k] == MonthTotals(ts, window[k])
  {
    if window == [] then [] else [MonthTotals(ts, window[0])] + MonthlyData(ts, window[1..])
  }

  /**
   * The chart agrees with the stats cards: its last bar is the current month's
   * income and expenses and the one before it is the previous month's.
   */
  lemma ChartMatchesDashboard(ts: seq<Transaction>, now: Period)
    requires ValidPeriod(now)
    ensures var d := MonthlyData(ts, Last6Months(now)); var s := DashboardStats(ts, now);
      && d[5] == Totals(s.totalIncome, s.totalExpenses)
      && d[4] == Totals(s.prevTotalIncome, s.prevTotalExpenses)
  {
    WindowShape(now);
  }
}
