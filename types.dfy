/**
 * The records of src/types/index.ts: transactions, categories and budgets,
 * together with the calendar date and (month, year) period they are bucketed by.
 */
module Types {

  /** A value that may be absent: JavaScript's `undefined`, or a key left out of a partial object. */
  datatype Option<T> = None | Some(value: T)

  /** `type: 'income' | 'expense'` — exactly two kinds of transaction. */
  datatype TxType = Income | Expense

  /**
   * A calendar date: year, month 0..11 (as JavaScript's getMonth returns it)
   * and day of month. Time of day and time zones are not modelled.
   */
  datatype Date = Date(year: int, month: int, day: int)

  /** Strictly earlier, comparing year, then month, then day. */
  predicate Before(a: Date, b: Date)
  {
    a.year < b.year
    || (a.year == b.year && a.month < b.month)
    || (a.year == b.year && a.month == b.month && a.day < b.day)
  }

  /** `a <= b` on dates: the order JavaScript gives to Date values by their timestamps. */
  predicate AtOrBefore(a: Date, b: Date)
  {
    a == b || Before(a, b)
  }

  lemma AtOrBeforeTransitive(a: Date, b: Date, c: Date)
    requires AtOrBefore(a, b) && AtOrBefore(b, c)
    ensures AtOrBefore(a, c)
  {
  }

  /** A point in time in milliseconds, as `new Date()` records it in createdAt. */
  type Instant = int

  /** A (month, year) pair that transactions are bucketed by; month is 0..11. */
  datatype Period = Period(month: int, year: int)

  predicate ValidPeriod(p: Period)
  {
    0 <= p.month < 12
  }

  /** The period a date falls in. */
  function PeriodOf(d: Date): Period
  {
    Period(d.month, d.year)
  }

  datatype Transaction = Transaction(
    id: string,
    userId: string,
    kind: TxType,
    amount: real,
    category: string,
    description: string,
    date: Date,
    createdAt: Instant)

  datatype Category = Category(
    id: string,
    name: string,
    kind: TxType,
    color: string,
    icon: string)

  datatype Budget = Budget(
    id: string,
    userId: string,
    category: string,
    limit: real,
    spent: real,
    month: int,
    year: int)
}
