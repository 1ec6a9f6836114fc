/**
 * The transaction lists of src/components/transactions/TransactionList.tsx and
 * src/components/dashboard/RecentTransactions.tsx: the four-part filter of the
 * transactions page, the newest-date-first ordering, and the dashboard's short
 * list of the first eight stored records.
 */
module Lists {
  import opened Types
  import opened Seqs
  import opened Text
  import opened Store

  // ---------------------------------------------------------------------------
  // Newest date first

  /** Dates never increase along the list. */
  predicate NewestFirst(s: seq<Transaction>)
  {
    forall i, j :: 0 <= i < j < |s| ==> AtOrBefore(s[j].date, s[i].date)
  }

  /**
   * Insert `x` into a newest-first list ahead of the first record that is not
   * later than it, so that records of equal date keep their relative order.
   */
  function Insert(x: Transaction, s: seq<Transaction>): (r: seq<Transaction>)
    requires NewestFirst(s)
    ensures NewestFirst(r)
    ensures multiset(r) == multiset(s) + multiset{x}
    ensures |r| == |s| + 1 && (r[0] == x || (s != [] && r[0] == s[0]))
  {
    if s == [] then [x]
    else if AtOrBefore(s[0].date, x.date) then
      AheadOfAll(x, s);
      [x] + s
    else
      var rest := Insert(x, s[1..]);
      assert s == [s[0]] + s[1..];
      BelowHead(s[0], x, s[1..], rest);
      [s[0]] + rest
  }

  /** A record no earlier than the head of a newest-first list can go in front of it. */
  lemma AheadOfAll(x: Transaction, s: seq<Transaction>)
    requires NewestFirst(s) && s != [] && AtOrBefore(s[0].date, x.date)
    ensures NewestFirst([x] + s)
  {
    var r := [x] + s;
    forall i, j | 0 <= i < j < |r| ensures AtOrBefore(r[j].date, r[i].date) {
      if i == 0 {
        assert r[j] == s[j - 1];
        assert AtOrBefore(s[j - 1].date, s[0].date);
        AtOrBeforeTransitive(s[j - 1].date, s[0].date, x.date);
      } else {
        assert r[i] == s[i - 1] && r[j] == s[j - 1];
      }
    }
  }

  /** Putting `h` ahead of records no later than it keeps the list newest first. */
  lemma BelowHead(h: Transaction, x: Transaction, tail: seq<Transaction>, rest: seq<Transaction>)
    requires NewestFirst([h] + tail) && !AtOrBefore(h.date, x.date)
    requires NewestFirst(rest) && multiset(rest) == multiset(tail) + multiset{x}
    ensures NewestFirst([h] + rest)
  {
    forall k | 0 <= k < |rest| ensures AtOrBefore(rest[k].date, h.date) {
      assert rest[k] in multiset(rest);
      if rest[k] == x {
        assert Before(x.date, h.date);
      } else {
        assert rest[k] in multiset(tail);
        var m :| 0 <= m < |tail| && tail[m] == rest[k];
        var ht := [h] + tail;
        assert ht[0] == h && ht[m + 1] == rest[k];
        assert AtOrBefore(ht[m + 1].date, ht[0].date);
      }
    }
    var r := [h] + rest;
    forall i, j | 0 <= i < j < |r| ensures AtOrBefore(r[j].date, r[i].date) {
      if i == 0 {
        assert r[j] == rest[j - 1];
      } else {
        assert r[i] == rest[i - 1] && r[j] == rest[j - 1];
      }
    }
  }

  /** A record older than every record of the list is inserted last. */
  lemma {:induction false} InsertOldest(x: Transaction, s: seq<Transaction>)
    requires NewestFirst(s) && forall i :: 0 <= i < |s| ==> Before(x.date, s[i].date)
    ensures Insert(x, s) == s + [x]
  {
    if s != [] {
      assert !AtOrBefore(s[0].date, x.date);
      assert NewestFirst(s[1..]);
      InsertOldest(x, s[1..]);
      assert s == [s[0]] + s[1..];
    }
  }

  /**
   * `sort((a, b) => b.date - a.date)`: the same records, newest date first.
   * JavaScript's sort is stable and so is this insertion sort.
   */
  function SortNewestFirst(s: seq<Transaction>): (r: seq<Transaction>)
    ensures NewestFirst(r)
    ensures multiset(r) == multiset(s)
  {
    if s == [] then []
    else
      assert s == [s[0]] + s[1..];
      Insert(s[0], SortNewestFirst(s[1..]))
  }

  /** A list that is already newest first is left as it is. */
  lemma {:induction false} SortSorted(s: seq<Transaction>)
    requires NewestFirst(s)
    ensures SortNewestFirst(s) == s
  {
    if s != [] {
      assert NewestFirst(s[1..]);
      SortSorted(s[1..]);
      if |s| > 1 {
        assert AtOrBefore(s[1].date, s[0].date);
      }
    }
  }

  function DatedP(d: Date): Transaction -> bool
  {
    (t: Transaction) => t.date == d
  }

  /** Inserting puts `x` ahead of every record of its own date and leaves the others in order. */
  lemma {:induction false} InsertStable(x: Transaction, s: seq<Transaction>, d: Date)
    requires NewestFirst(s)
    ensures Filter(Insert(x, s), DatedP(d)) == (if x.date == d then [x] else []) + Filter(s, DatedP(d))
  {
    var p := DatedP(d);
    if s == [] {
      FilterCons([x], p);
      assert [x][1..] == [];
    } else if AtOrBefore(s[0].date, x.date) {
      FilterCons([x] + s, p);
      assert ([x] + s)[1..] == s;
    } else {
      assert NewestFirst(s[1..]);
      InsertStable(x, s[1..], d);
      FilterPastHead(s[0], x, Insert(x, s[1..]), s, DatedP(d));
    }
  }

  /**
   * The sort is stable: for every date, the records of that date appear in the
   * same relative order as before.
   */
  lemma {:induction false} SortStable(s: seq<Transaction>, d: Date)
    ensures Filter(SortNewestFirst(s), DatedP(d)) == Filter(s, DatedP(d))
  {
    if s != [] {
      SortStable(s[1..], d);
      InsertStable(s[0], SortNewestFirst(s[1..]), d);
      FilterCons(s, DatedP(d));
    }
  }

  // ---------------------------------------------------------------------------
  // The transactions page

  datatype TypeFilter = AllTypes | OnlyType(kind: TxType)

  /**
   * The page's filter inputs: search text, type, category name (the empty string
   * is "all categories") and the two ends of the date range, each possibly unset.
   */
  datatype ListFilters = ListFilters(
    search: string,
    kind: TypeFilter,
    category: string,
    start: Option<Date>,
    end: Option<Date>)

  predicate MatchesType(t: Transaction, f: TypeFilter)
  {
    f.AllTypes? || t.kind == f.kind
  }

  predicate MatchesCategory(t: Transaction, category: string)
  {
    category == "" || t.category == category
  }

  /** The range applies only when both ends are set, and then includes both ends. */
  predicate MatchesDateRange(t: Transaction, start: Option<Date>, end: Option<Date>)
  {
    start.None? || end.None? || (AtOrBefore(start.value, t.date) && AtOrBefore(t.date, end.value))
  }

  predicate MatchesAll(t: Transaction, f: ListFilters)
  {
    MatchesQuery(t, f.search) && MatchesType(t, f.kind) && MatchesCategory(t, f.category)
      && MatchesDateRange(t, f.start, f.end)
  }

  function MatchesAllP(f: ListFilters): Transaction -> bool
  {
    (t: Transaction) => MatchesAll(t, f)
  }

  /**
   * filteredTransactions: exactly the records that pass all four tests, each as
   * often as it is stored, newest date first.
   */
  function FilteredTransactions(ts: seq<Transaction>, f: ListFilters): (r: seq<Transaction>)
    ensures forall t :: multiset(r)[t] == if MatchesAll(t, f) then multiset(ts)[t] else 0
    ensures NewestFirst(r)
  {
    FilterMultiset(ts, MatchesAllP(f));
    SortNewestFirst(Filter(ts, MatchesAllP(f)))
  }

  /** The page's initial filters: empty search, all types, all categories, no dates. */
  function NoFilters(): ListFilters
  {
    ListFilters("", AllTypes, "", None, None)
  }

  /** With the initial filters every record is listed. */
  lemma NoFiltersListAll(ts: seq<Transaction>)
    ensures multiset(FilteredTransactions(ts, NoFilters())) == multiset(ts)
  {
    forall t | t in ts ensures MatchesAll(t, NoFilters()) {
      EmptyNeedle(Lower(t.description));
    }
    FilterAll(ts, MatchesAllP(NoFilters()));
  }

  /** A date range with only one end set filters nothing by date. */
  lemma HalfOpenRangeIgnored(t: Transaction, start: Date)
    ensures MatchesDateRange(t, Some(start), None) && MatchesDateRange(t, None, Some(start))
  {
  }

  // ---------------------------------------------------------------------------
  // The dashboard's recent transactions

  /** The dashboard lists at most this many records. */
  const RecentCount: nat := 8

  /**
   * recentTransactions: `slice(0, 8)` then the newest-first sort. The records are
   * the first eight stored, which are the eight most recently added because
   * addTransaction puts new records first; they need not be the latest by date.
   */
  function RecentTransactions(ts: seq<Transaction>): (r: seq<Transaction>)
    ensures |r| == if |ts| < RecentCount then |ts| else RecentCount
    ensures multiset(r) == multiset(ts[..|r|])
    ensures NewestFirst(r)
    ensures ts == [] ==> r == []
  {
    var n := if |ts| < RecentCount then |ts| else RecentCount;
    var r := SortNewestFirst(ts[..n]);
    assert |r| == |multiset(r)| == |multiset(ts[..n])| == n;
    r
  }

  /** A record added to the store is among the recent ones right away. */
  lemma AddedIsRecent(ts: seq<Transaction>, d: TransactionDraft, id: string, now: Instant)
    ensures NewTransaction(d, id, now) in RecentTransactions([NewTransaction(d, id, now)] + ts)
  {
    var s := [NewTransaction(d, id, now)] + ts;
    var r := RecentTransactions(s);
    assert s[..|r|][0] == NewTransaction(d, id, now);
    assert NewTransaction(d, id, now) in multiset(s[..|r|]);
  }
}
