/**
 * The application store of src/context/AppContext.tsx: the transaction,
 * category and budget lists, the operations that replace them, and the two
 * queries over the transaction list. The id (`Date.now().toString()`) and the
 * clock (`new Date()`) that the source reads are parameters here.
 */
module Store {
  import opened Types
  import opened Seqs
  import opened Text

  // ---------------------------------------------------------------------------
  // Inputs of the operations

  /** `Omit<Transaction, 'id' | 'createdAt'>`: what the caller supplies to addTransaction. */
  datatype TransactionDraft = TransactionDraft(
    userId: string,
    kind: TxType,
    amount: real,
    category: string,
    description: string,
    date: Date)

  /** `Partial<Transaction>`: each field is either given or left out. */
  datatype TransactionPatch = TransactionPatch(
    id: Option<string>,
    userId: Option<string>,
    kind: Option<TxType>,
    amount: Option<real>,
    category: Option<string>,
    description: Option<string>,
    date: Option<Date>,
    createdAt: Option<Instant>)

  /** `Omit<Category, 'id'>`. */
  datatype CategoryDraft = CategoryDraft(name: string, kind: TxType, color: string, icon: string)

  /** `Omit<Budget, 'id'>`. */
  datatype BudgetDraft = BudgetDraft(
    userId: string,
    category: string,
    limit: real,
    spent: real,
    month: int,
    year: int)

  // ---------------------------------------------------------------------------
  // Transactions

  /** The record addTransaction stores: the draft's fields plus the new id and creation time. */
  function NewTransaction(d: TransactionDraft, id: string, now: Instant): (t: Transaction)
    ensures t.id == id && t.createdAt == now
    ensures t.userId == d.userId && t.kind == d.kind && t.amount == d.amount
    ensures t.category == d.category && t.description == d.description && t.date == d.date
  {
    Transaction(id, d.userId, d.kind, d.amount, d.category, d.description, d.date, now)
  }

  function Pick<T>(o: Option<T>, otherwise: T): T
  {
    match o
    case Some(v) => v
    case None => otherwise
  }

  /** `{ ...t, ...u }`: every field given in the patch replaces the record's own. */
  function Apply(t: Transaction, u: TransactionPatch): (r: Transaction)
    ensures r.id == Pick(u.id, t.id) && r.userId == Pick(u.userId, t.userId)
    ensures r.kind == Pick(u.kind, t.kind) && r.amount == Pick(u.amount, t.amount)
    ensures r.category == Pick(u.category, t.category)
    ensures r.description == Pick(u.description, t.description)
    ensures r.date == Pick(u.date, t.date) && r.createdAt == Pick(u.createdAt, t.createdAt)
  {
    Transaction(
      Pick(u.id, t.id), Pick(u.userId, t.userId), Pick(u.kind, t.kind), Pick(u.amount, t.amount),
      Pick(u.category, t.category), Pick(u.description, t.description), Pick(u.date, t.date),
      Pick(u.createdAt, t.createdAt))
  }

  /** Applying the same patch twice is applying it once. */
  lemma ApplyIdempotent(t: Transaction, u: TransactionPatch)
    ensures Apply(Apply(t, u), u) == Apply(t, u)
  {
  }

  /** The patch that gives no field changes nothing. */
  lemma ApplyEmpty(t: Transaction)
    ensures Apply(t, TransactionPatch(None, None, None, None, None, None, None, None)) == t
  {
  }

  /** updateTransaction's `prev.map(...)`: patches every record carrying the id, in place. */
  function UpdateById(ts: seq<Transaction>, id: string, u: TransactionPatch): (r: seq<Transaction>)
    ensures |r| == |ts|
    ensures forall i :: 0 <= i < |ts| ==> r[i] == if ts[i].id == id then Apply(ts[i], u) else ts[i]
  {
    if ts == [] then []
    else [if ts[0].id == id then Apply(ts[0], u) else ts[0]] + UpdateById(ts[1..], id, u)
  }

  /** Updating an id no record carries leaves the list as it was. */
  lemma UpdateAbsent(ts: seq<Transaction>, id: string, u: TransactionPatch)
    requires forall t :: t in ts ==> t.id != id
    ensures UpdateById(ts, id, u) == ts
  {
  }

  /**
   * Repeating an update changes nothing more, even when the patch rewrites the
   * id: the patched records then carry the new id and are not matched again, or
   * carry the same id and are patched to what they already are.
   */
  lemma UpdateIdempotent(ts: seq<Transaction>, id: string, u: TransactionPatch)
    ensures UpdateById(UpdateById(ts, id, u), id, u) == UpdateById(ts, id, u)
  {
    var once := UpdateById(ts, id, u);
    var twice := UpdateById(once, id, u);
    forall i | 0 <= i < |ts| ensures twice[i] == once[i] {
      if ts[i].id == id {
        ApplyIdempotent(ts[i], u);
      }
    }
  }

  function IdIsNot(id: string): Transaction -> bool
  {
    (t: Transaction) => t.id != id
  }

  /** deleteTransaction's filter: every record with another id, in order. */
  function DeleteById(ts: seq<Transaction>, id: string): (r: seq<Transaction>)
    ensures forall t :: t in r ==> t.id != id
    ensures forall t: Transaction :: t.id != id ==> multiset(r)[t] == multiset(ts)[t]
    ensures IsSubsequence(r, ts)
  {
    FilterMultiset(ts, IdIsNot(id));
    var r := Filter(ts, IdIsNot(id));
    assert forall t :: t in r ==> multiset(r)[t] > 0;
    r
  }

  /** Deleting an id no record carries is a no-op. */
  lemma DeleteAbsent(ts: seq<Transaction>, id: string)
    requires forall t :: t in ts ==> t.id != id
    ensures DeleteById(ts, id) == ts
  {
    FilterAll(ts, IdIsNot(id));
  }

  /** Deleting is idempotent. */
  lemma DeleteIdempotent(ts: seq<Transaction>, id: string)
    ensures DeleteById(DeleteById(ts, id), id) == DeleteById(ts, id)
  {
    FilterIdempotent(ts, IdIsNot(id));
  }

  /** Ids are pairwise distinct. */
  predicate UniqueTransactionIds(ts: seq<Transaction>)
  {
    forall i, j :: 0 <= i < j < |ts| ==> ts[i].id != ts[j].id
  }

  /** Deleting from a list with distinct ids removes at most one record. */
  lemma DeleteRemovesAtMostOne(ts: seq<Transaction>, id: string)
    requires UniqueTransactionIds(ts)
    ensures |ts| - 1 <= |DeleteById(ts, id)| <= |ts|
  {
    var p := IdIsNot(id);
    forall i, j | 0 <= i < j < |ts| ensures p(ts[i]) || p(ts[j]) {
      assert ts[i].id != ts[j].id;
    }
    FilterDropsAtMostOne(ts, p);
  }

  // ---------------------------------------------------------------------------
  // Categories

  function NewCategory(d: CategoryDraft, id: string): (c: Category)
    ensures c.id == id && c.name == d.name && c.kind == d.kind && c.color == d.color && c.icon == d.icon
  {
    Category(id, d.name, d.kind, d.color, d.icon)
  }

  // ---------------------------------------------------------------------------
  // Budgets

  function NewBudget(d: BudgetDraft, id: string): (b: Budget)
    ensures b.id == id && b.userId == d.userId && b.category == d.category
    ensures b.limit == d.limit && b.spent == d.spent && b.month == d.month && b.year == d.year
  {
    Budget(id, d.userId, d.category, d.limit, d.spent, d.month, d.year)
  }

  /** The key budgets are upserted by: (category, month, year). */
  predicate SameKey(a: Budget, b: Budget)
  {
    a.category == b.category && a.month == b.month && a.year == b.year
  }

  /** Slot `k` is the first budget with the key of `nb`. */
  predicate FirstWithKey(bs: seq<Budget>, nb: Budget, k: int)
  {
    0 <= k < |bs| && SameKey(bs[k], nb) && forall j :: 0 <= j < k ==> !SameKey(bs[j], nb)
  }

  /** `prev.find(...)`: the first budget with the key of `nb`, if any. */
  function FindByKey(bs: seq<Budget>, nb: Budget): (r: Option<Budget>)
    ensures r.None? <==> forall b :: b in bs ==> !SameKey(b, nb)
    ensures r.Some? ==> exists k :: FirstWithKey(bs, nb, k) && bs[k] == r.value
  {
    if bs == [] then None
    else if SameKey(bs[0], nb) then Some(bs[0])
    else
      var r := FindByKey(bs[1..], nb);
      assert bs == [bs[0]] + bs[1..];
      if r.Some? then
        var k :| FirstWithKey(bs[1..], nb, k) && bs[1..][k] == r.value;
        assert FirstWithKey(bs, nb, k + 1) && bs[k + 1] == r.value;
        r
      else r
  }

  /** `prev.map(b => b.id === id ? nb : b)`. */
  function ReplaceById(bs: seq<Budget>, id: string, nb: Budget): (r: seq<Budget>)
    ensures |r| == |bs|
    ensures forall i :: 0 <= i < |bs| ==> r[i] == if bs[i].id == id then nb else bs[i]
  {
    if bs == [] then [] else [if bs[0].id == id then nb else bs[0]] + ReplaceById(bs[1..], id, nb)
  }

  /** setBudget's update of the list: replace the budget with the same key, or append. */
  function Upsert(bs: seq<Budget>, nb: Budget): (r: seq<Budget>)
    ensures nb in r
    ensures forall b :: b in r ==> b == nb || b in bs
    ensures |bs| <= |r| <= |bs| + 1
  {
    match FindByKey(bs, nb)
    case Some(existing) =>
      var k :| FirstWithKey(bs, nb, k) && bs[k] == existing;
      assert ReplaceById(bs, existing.id, nb)[k] == nb;
      ReplaceById(bs, existing.id, nb)
    case None => bs + [nb]
  }

  predicate UniqueBudgetIds(bs: seq<Budget>)
  {
    forall i, j :: 0 <= i < j < |bs| ==> bs[i].id != bs[j].id
  }

  /** At most one budget per (category, month, year). */
  predicate UniqueKeys(bs: seq<Budget>)
  {
    forall i, j :: 0 <= i < j < |bs| ==> !SameKey(bs[i], bs[j])
  }

  predicate FreshBudgetId(bs: seq<Budget>, id: string)
  {
    forall b :: b in bs ==> b.id != id
  }

  /** With distinct ids, replacing by the id of slot `k` replaces that slot alone. */
  lemma ReplaceSlot(bs: seq<Budget>, k: int, nb: Budget)
    requires UniqueBudgetIds(bs) && 0 <= k < |bs|
    ensures ReplaceById(bs, bs[k].id, nb) == bs[k := nb]
  {
  }

  /**
   * With distinct ids and at most one budget per key, a budget whose key is
   * already present at slot `k` takes exactly that slot: the length stays, slot
   * `k` holds the new budget and no other slot changes.
   */
  lemma UpsertExisting(bs: seq<Budget>, nb: Budget, k: int)
    requires UniqueBudgetIds(bs) && UniqueKeys(bs)
    requires 0 <= k < |bs| && SameKey(bs[k], nb)
    ensures Upsert(bs, nb) == bs[k := nb]
    ensures |Upsert(bs, nb)| == |bs| && Upsert(bs, nb)[k] == nb
    ensures forall i :: 0 <= i < |bs| && i != k ==> Upsert(bs, nb)[i] == bs[i]
  {
    var f := FindByKey(bs, nb);
    var k' :| FirstWithKey(bs, nb, k') && bs[k'] == f.value;
    assert k' == k by {
      if k' < k { assert SameKey(bs[k'], bs[k]); }
    }
    ReplaceSlot(bs, k, nb);
  }

  /** A budget whose key is not present is appended. */
  lemma UpsertAbsent(bs: seq<Budget>, nb: Budget)
    requires forall b :: b in bs ==> !SameKey(b, nb)
    ensures Upsert(bs, nb) == bs + [nb]
  {
  }

  /** Replacing a slot by a budget of the same key and a fresh id keeps both invariants. */
  lemma SlotKeepsInvariants(bs: seq<Budget>, k: int, nb: Budget)
    requires UniqueBudgetIds(bs) && UniqueKeys(bs) && FreshBudgetId(bs, nb.id)
    requires 0 <= k < |bs| && SameKey(bs[k], nb)
    ensures UniqueBudgetIds(bs[k := nb]) && UniqueKeys(bs[k := nb])
  {
    var r := bs[k := nb];
    forall i, j | 0 <= i < j < |r| ensures r[i].id != r[j].id && !SameKey(r[i], r[j]) {
      assert SameKey(r[i], bs[i]) && SameKey(r[j], bs[j]);
      assert bs[i] in bs && bs[j] in bs;
    }
  }

  /** Appending a budget of a new key and a fresh id keeps both invariants. */
  lemma AppendKeepsInvariants(bs: seq<Budget>, nb: Budget)
    requires UniqueBudgetIds(bs) && UniqueKeys(bs) && FreshBudgetId(bs, nb.id)
    requires forall b :: b in bs ==> !SameKey(b, nb)
    ensures UniqueBudgetIds(bs + [nb]) && UniqueKeys(bs + [nb])
  {
    var r := bs + [nb];
    forall i, j | 0 <= i < j < |r| ensures r[i].id != r[j].id && !SameKey(r[i], r[j]) {
      assert r[i] == bs[i] && bs[i] in bs;
      if j < |bs| { assert r[j] == bs[j]; } else { assert r[j] == nb; }
    }
  }

  /**
   * Upserting under distinct ids with a fresh id keeps both invariants: ids stay
   * distinct and there is still at most one budget per key; afterwards the new
   * budget is the one found for its key, and every budget of another key is still there.
   */
  lemma UpsertKeepsInvariants(bs: seq<Budget>, nb: Budget)
    requires UniqueBudgetIds(bs) && UniqueKeys(bs) && FreshBudgetId(bs, nb.id)
    ensures UniqueBudgetIds(Upsert(bs, nb)) && UniqueKeys(Upsert(bs, nb))
    ensures FindByKey(Upsert(bs, nb), nb) == Some(nb)
    ensures forall b :: b in bs && !SameKey(b, nb) ==> b in Upsert(bs, nb)
  {
    match FindByKey(bs, nb)
    case Some(e) =>
      var k :| FirstWithKey(bs, nb, k) && bs[k] == e;
      UpsertSlotCase(bs, nb, k);
    case None =>
      UpsertAppendCase(bs, nb);
  }

  /** The position `k` that FirstWithKey names is the one the search finds. */
  lemma FindFirst(bs: seq<Budget>, nb: Budget, k: int)
    requires FirstWithKey(bs, nb, k)
    ensures FindByKey(bs, nb) == Some(bs[k])
  {
    assert bs[k] in bs;
    var r := FindByKey(bs, nb);
    var k' :| FirstWithKey(bs, nb, k') && bs[k'] == r.value;
  }

  lemma UpsertSlotCase(bs: seq<Budget>, nb: Budget, k: int)
    requires UniqueBudgetIds(bs) && UniqueKeys(bs) && FreshBudgetId(bs, nb.id)
    requires FirstWithKey(bs, nb, k) && FindByKey(bs, nb) == Some(bs[k])
    ensures UniqueBudgetIds(Upsert(bs, nb)) && UniqueKeys(Upsert(bs, nb))
    ensures FindByKey(Upsert(bs, nb), nb) == Some(nb)
    ensures forall b :: b in bs && !SameKey(b, nb) ==> b in Upsert(bs, nb)
  {
    var r := Upsert(bs, nb);
    UpsertExisting(bs, nb, k);
    SlotKeepsInvariants(bs, k, nb);
    assert FirstWithKey(r, nb, k) by {
      forall j | 0 <= j < k ensures !SameKey(r[j], nb) {
        assert r[j] == bs[j];
      }
    }
    FindFirst(r, nb, k);
    forall b | b in bs && !SameKey(b, nb) ensures b in r {
      var i :| 0 <= i < |bs| && bs[i] == b;
      assert r[i] == b;
    }
  }

  lemma UpsertAppendCase(bs: seq<Budget>, nb: Budget)
    requires UniqueBudgetIds(bs) && UniqueKeys(bs) && FreshBudgetId(bs, nb.id)
    requires FindByKey(bs, nb) == None
    ensures UniqueBudgetIds(Upsert(bs, nb)) && UniqueKeys(Upsert(bs, nb))
    ensures FindByKey(Upsert(bs, nb), nb) == Some(nb)
    ensures forall b :: b in bs ==> b in Upsert(bs, nb)
  {
    var r := Upsert(bs, nb);
    UpsertAbsent(bs, nb);
    AppendKeepsInvariants(bs, nb);
    assert FirstWithKey(r, nb, |bs|) by {
      forall j | 0 <= j < |bs| ensures !SameKey(r[j], nb) {
        assert r[j] == bs[j] && bs[j] in bs;
      }
    }
    FindFirst(r, nb, |bs|);
  }

  // ---------------------------------------------------------------------------
  // Queries

  /**
   * The search test: the lower-cased query occurs in the lower-cased description
   * or in the lower-cased category name.
   */
  predicate MatchesQuery(t: Transaction, query: string)
  {
    Contains(Lower(t.description), Lower(query)) || Contains(Lower(t.category), Lower(query))
  }

  function MatchesQueryP(query: string): Transaction -> bool
  {
    (t: Transaction) => MatchesQuery(t, query)
  }

  /** searchTransactions: the matching records, in their stored order. */
  function SearchTransactions(ts: seq<Transaction>, query: string): (r: seq<Transaction>)
    ensures forall t :: multiset(r)[t] == if MatchesQuery(t, query) then multiset(ts)[t] else 0
    ensures IsSubsequence(r, ts)
  {
    FilterMultiset(ts, MatchesQueryP(query));
    Filter(ts, MatchesQueryP(query))
  }

  /** The empty query matches every record, so searching for it returns the whole list. */
  lemma EmptySearch(ts: seq<Transaction>)
    ensures SearchTransactions(ts, "") == ts
  {
    forall t | t in ts ensures MatchesQueryP("")(t) {
      EmptyNeedle(Lower(t.description));
    }
    FilterAll(ts, MatchesQueryP(""));
  }

  /** An inclusive range of dates. */
  datatype DateRange = DateRange(start: Date, end: Date)

  /**
   * The filters object: a type, a category name and a date range, each of which
   * may be unset. The category is a string and, as in JavaScript, the empty
   * string counts as unset.
   */
  datatype Filters = Filters(kind: Option<TxType>, category: string, dateRange: Option<DateRange>)

  predicate PassesFilters(t: Transaction, f: Filters)
  {
    && (f.kind.Some? ==> t.kind == f.kind.value)
    && (f.category != "" ==> t.category == f.category)
    && (f.dateRange.Some? ==>
          !Before(t.date, f.dateRange.value.start) && !Before(f.dateRange.value.end, t.date))
  }

  function PassesFiltersP(f: Filters): Transaction -> bool
  {
    (t: Transaction) => PassesFilters(t, f)
  }

  /** filterTransactions: the records that pass every filter that is set, in stored order. */
  function FilterTransactions(ts: seq<Transaction>, f: Filters): (r: seq<Transaction>)
    ensures forall t :: t in r ==> t in ts
    ensures forall t :: t in r && f.kind.Some? ==> t.kind == f.kind.value
    ensures forall t :: t in r && f.category != "" ==> t.category == f.category
    ensures forall t :: t in r && f.dateRange.Some? ==>
      AtOrBefore(f.dateRange.value.start, t.date) && AtOrBefore(t.date, f.dateRange.value.end)
    ensures forall t :: multiset(r)[t] == if PassesFilters(t, f) then multiset(ts)[t] else 0
    ensures IsSubsequence(r, ts)
  {
    FilterMultiset(ts, PassesFiltersP(f));
    var r := Filter(ts, PassesFiltersP(f));
    forall t | t in r ensures t in ts && PassesFilters(t, f) {
      FilterMember(ts, PassesFiltersP(f), t);
    }
    r
  }

  // ---------------------------------------------------------------------------
  // Initial contents

  /** defaultCategories: the ten seed categories. */
  function DefaultCategories(): (r: seq<Category>)
    ensures |r| == 10
    ensures forall i, j :: 0 <= i < j < |r| ==> r[i].id != r[j].id && r[i].name != r[j].name
  {
    [ Category("1", "Food & Dining", Expense, "#ef4444", "utensils"),
      Category("2", "Transportation", Expense, "#3b82f6", "car"),
      Category("3", "Bills & Utilities", Expense, "#f59e0b", "receipt"),
      Category("4", "Entertainment", Expense, "#8b5cf6", "film"),
      Category("5", "Shopping", Expense, "#ec4899", "shopping-bag"),
      Category("6", "Healthcare", Expense, "#10b981", "heart"),
      Category("7", "Travel", Expense, "#06b6d4", "plane"),
      Category("8", "Salary", Income, "#22c55e", "banknote"),
      Category("9", "Business", Income, "#f97316", "briefcase"),
      Category("10", "Investments", Income, "#6366f1", "trending-up") ]
  }

  /** mockTransactions: the three transactions of January 2025 (createdAt at UTC midnight). */
  function MockTransactions(): (r: seq<Transaction>)
    ensures |r| == 3 && UniqueTransactionIds(r)
    ensures forall i :: 0 <= i < |r| ==> r[i].amount > 0.0
  {
    [ Transaction("1", "1", Income, 150000.0, "Salary", "Monthly salary",
                  Date(2025, 0, 1), 1735689600000),
      Transaction("2", "1", Expense, 2500.0, "Food & Dining", "Lunch at restaurant",
                  Date(2025, 0, 2), 1735776000000),
      Transaction("3", "1", Expense, 15000.0, "Bills & Utilities", "Electricity bill",
                  Date(2025, 0, 3), 1735862400000) ]
  }

  // ---------------------------------------------------------------------------
  // The store

  /**
   * The provider's three pieces of state. Each operation replaces one list with
   * a new one computed from the old, as the setState updaters do.
   */
  class AppStore {
    var transactions: seq<Transaction>
    var categories: seq<Category>
    var budgets: seq<Budget>

    /** At most one budget per key, and distinct budget ids. */
    ghost predicate BudgetsValid()
      reads this
    {
      UniqueBudgetIds(budgets) && UniqueKeys(budgets)
    }

    constructor ()
      ensures transactions == MockTransactions()
      ensures categories == DefaultCategories()
      ensures budgets == []
      ensures BudgetsValid()
    {
      transactions := MockTransactions();
      categories := DefaultCategories();
      budgets := [];
    }

    /** addTransaction: the new record goes first and the old list follows it unchanged. */
    method AddTransaction(d: TransactionDraft, id: string, now: Instant)
      modifies this
      ensures transactions == [NewTransaction(d, id, now)] + old(transactions)
      ensures |transactions| == |old(transactions)| + 1
      ensures transactions[0].id == id && transactions[0].createdAt == now
      ensures transactions[1..] == old(transactions)
      ensures UniqueTransactionIds(old(transactions)) && (forall t :: t in old(transactions) ==> t.id != id)
        ==> UniqueTransactionIds(transactions)
      ensures categories == old(categories) && budgets == old(budgets)
    {
      transactions := [NewTransaction(d, id, now)] + transactions;
    }

    /** updateTransaction: same length and order; records with the id are patched, others kept. */
    method UpdateTransaction(id: string, u: TransactionPatch)
      modifies this
      ensures transactions == UpdateById(old(transactions), id, u)
      ensures |transactions| == |old(transactions)|
      ensures forall i :: 0 <= i < |transactions| ==>
        transactions[i] == if old(transactions)[i].id == id then Apply(old(transactions)[i], u)
                           else old(transactions)[i]
      ensures categories == old(categories) && budgets == old(budgets)
    {
      transactions := UpdateById(transactions, id, u);
    }

    /** deleteTransaction: no record with the id remains; the others keep their order. */
    method DeleteTransaction(id: string)
      modifies this
      ensures transactions == DeleteById(old(transactions), id)
      ensures forall t :: t in transactions ==> t.id != id
      ensures IsSubsequence(transactions, old(transactions))
      ensures (forall t :: t in old(transactions) ==> t.id != id) ==> transactions == old(transactions)
      ensures categories == old(categories) && budgets == old(budgets)
    {
      ghost var absent := forall t :: t in transactions ==> t.id != id;
      if absent {
        DeleteAbsent(transactions, id);
      }
      transactions := DeleteById(transactions, id);
    }

    /** addCategory: the new category goes last; the existing ones are unchanged. */
    method AddCategory(d: CategoryDraft, id: string)
      modifies this
      ensures categories == old(categories) + [NewCategory(d, id)]
      ensures categories[..|old(categories)|] == old(categories)
      ensures transactions == old(transactions) && budgets == old(budgets)
    {
      categories := categories + [NewCategory(d, id)];
    }

    /**
     * setBudget: upsert by (category, month, year). With distinct ids and a fresh
     * id the store keeps at most one budget per key.
     */
    method SetBudget(d: BudgetDraft, id: string)
      modifies this
      ensures budgets == Upsert(old(budgets), NewBudget(d, id))
      ensures old(BudgetsValid()) && FreshBudgetId(old(budgets), id) ==>
        BudgetsValid() && FindByKey(budgets, NewBudget(d, id)) == Some(NewBudget(d, id))
      ensures (forall b :: b in old(budgets) ==> !SameKey(b, NewBudget(d, id))) ==>
        budgets == old(budgets) + [NewBudget(d, id)]
      ensures transactions == old(transactions) && categories == old(categories)
    {
      var nb := NewBudget(d, id);
      if BudgetsValid() && FreshBudgetId(budgets, id) {
        UpsertKeepsInvariants(budgets, nb);
      }
      budgets := Upsert(budgets, nb);
    }
  }
}
