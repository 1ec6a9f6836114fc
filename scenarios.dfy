/**
 * The seeded store contents worked through the dashboard: the three January 2025
 * transactions and the ten default categories.
 */
module Scenarios {
  import opened Types
  import opened Seqs
  import opened Store
  import opened Aggregation
  import opened Budgets
  import opened Charts
  import opened Lists

  /** All three seeded transactions are dated January 2025. */
  lemma SeededJanuaryRecords()
    ensures MonthTransactions(MockTransactions(), Period(0, 2025)) == MockTransactions()
  {
    FilterAll(MockTransactions(), InPeriodP(Period(0, 2025)));
  }

  /** None is dated December 2024. */
  lemma SeededDecemberEmpty()
    ensures MonthTransactions(MockTransactions(), Period(11, 2024)) == []
  {
    FilterNone(MockTransactions(), InPeriodP(Period(11, 2024)));
  }

  function AmountIf(t: Transaction, k: TxType): real
  {
    if t.kind == k then t.amount else 0.0
  }

  /** The total of one type over three records. */
  lemma TotalOfThree(a: Transaction, b: Transaction, c: Transaction, k: TxType)
    ensures TotalOfType([a, b, c], k) == AmountIf(a, k) + AmountIf(b, k) + AmountIf(c, k)
  {
    var s := [a, b, c];
    assert s[1..] == [b, c] && s[1..][1..] == [c] && [c][1..] == [];
    TotalOfTypeCons(s, k);
    TotalOfTypeCons([b, c], k);
    TotalOfTypeCons([c], k);
  }

  /** The seeded totals by type. */
  lemma SeededTotals()
    ensures TotalOfType(MockTransactions(), Income) == 150000.0
    ensures TotalOfType(MockTransactions(), Expense) == 17500.0
  {
    var ts := MockTransactions();
    assert ts == [ts[0], ts[1], ts[2]];
    TotalOfThree(ts[0], ts[1], ts[2], Income);
    TotalOfThree(ts[0], ts[1], ts[2], Expense);
  }

  /** January 2025 on the seeded data: income 150,000, expenses 17,500, balance 132,500. */
  lemma SeededJanuary()
    ensures var s := DashboardStats(MockTransactions(), Period(0, 2025));
      && s.totalIncome == 150000.0 && s.totalExpenses == 17500.0 && s.balance == 132500.0
      && s.prevTotalIncome == 0.0 && s.incomeChange == 0.0 && s.expenseChange == 0.0
  {
    SeededJanuaryRecords();
    SeededDecemberEmpty();
    SeededTotals();
  }

  /** An income followed by two expenses of the month: the month's expenses are the two. */
  lemma ExpensesOfThree(a: Transaction, b: Transaction, c: Transaction, p: Period)
    requires a.kind == Income && b.kind == Expense && c.kind == Expense
    requires PeriodOf(b.date) == p && PeriodOf(c.date) == p
    ensures CurrentMonthExpenses([a, b, c], p) == [b, c]
  {
    var q := IsExpenseInP(p);
    assert !q(a) && q(b) && q(c);
    FilterOfThree(a, b, c, q);
    assert [] + [b] + [c] == [b, c];
  }

  /** The seeded expenses of January 2025: the second and third record. */
  lemma SeededJanuaryExpenses()
    ensures var ts := MockTransactions(); CurrentMonthExpenses(ts, Period(0, 2025)) == [ts[1], ts[2]]
  {
    var ts := MockTransactions();
    ExpensesOfThree(ts[0], ts[1], ts[2], Period(0, 2025));
    assert ts == [ts[0], ts[1], ts[2]];
  }

  /** Of those, only the second record is filed under food, for 2,500. */
  lemma SeededFoodSpending()
    ensures var ts := MockTransactions(); CategorySum([ts[1], ts[2]], "Food & Dining") == 2500.0
  {
    var ts := MockTransactions();
    var e := [ts[1], ts[2]];
    var food := InCategoryP("Food & Dining");
    FilterCons(e, food);
    FilterCons(e[1..], food);
    assert e[1..][1..] == [];
    assert Filter(e, food) == [ts[1]];
    assert Sum([ts[1]]) == ts[1].amount + Sum([]);
  }

  /** In January 2025 the demonstration budget for food has 2,500 spent of 25,000: 10%, good. */
  lemma SeededFoodBudget()
    ensures var b := CurrentBudgets([], MockTransactions(), Period(0, 2025))[0];
      && b.category == "Food & Dining" && b.spent == 2500.0 && b.limit == 25000.0
      && BudgetStatus(b.spent, b.limit) == Good && !OverBudget(b.spent, b.limit)
  {
    SeededJanuaryExpenses();
    SeededFoodSpending();
    StatusExamples();
  }

  /** Colours of the default categories, and the grey for a name that is not one of them. */
  lemma DefaultColors()
    ensures CategoryColor(DefaultCategories(), "Food & Dining") == "#ef4444"
    ensures CategoryColor(DefaultCategories(), "Salary") == "#22c55e"
    ensures CategoryColor(DefaultCategories(), "Pets") == FallbackColor
  {
    assert FirstNamed(DefaultCategories(), "Food & Dining", 0);
    var cs := DefaultCategories();
    assert FirstNamed(cs, "Salary", 7) by {
      assert forall j :: 0 <= j < 7 ==> cs[j].name != "Salary";
    }
    assert forall c :: c in cs ==> c.name != "Pets";
  }

  /** Two records with increasing dates sort into the reverse order. */
  lemma SortTwoAscending(b: Transaction, c: Transaction)
    requires Before(b.date, c.date)
    ensures SortNewestFirst([b, c]) == [c, b]
  {
    assert [b, c][1..] == [c] && [c][1..] == [];
    assert SortNewestFirst([c]) == [c];
    InsertOldest(b, [c]);
  }

  /** Three records with strictly increasing dates sort into the reverse order. */
  lemma SortThreeAscending(a: Transaction, b: Transaction, c: Transaction)
    requires Before(a.date, b.date) && Before(b.date, c.date)
    ensures SortNewestFirst([a, b, c]) == [c, b, a]
  {
    var s := [a, b, c];
    assert s[1..] == [b, c];
    SortTwoAscending(b, c);
    AtOrBeforeTransitive(a.date, b.date, c.date);
    InsertOldest(a, [c, b]);
    assert [c, b] + [a] == [c, b, a];
  }

  /** The seeded transactions as the dashboard's recent list shows them: latest date first. */
  lemma SeededRecent()
    ensures var ts := MockTransactions(); RecentTransactions(ts) == [ts[2], ts[1], ts[0]]
  {
    var ts := MockTransactions();
    assert ts[..3] == ts == [ts[0], ts[1], ts[2]];
    SortThreeAscending(ts[0], ts[1], ts[2]);
  }
}
