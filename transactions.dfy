/**
 * Transactions as the scoring and report code sees them, calendar dates
 * and month keys, and the list operations the code performs on them:
 * filtering, summing and the stable sort of Array.prototype.sort.
 */
module Transactions {
  import opened Numbers

  datatype Option<T> = None | Some(value: T)

  datatype Kind = Income | Expense

  /** A calendar date (year, month 1..12, day 1..31); time of day and time zone are not modelled. */
  datatype Date = Date(year: int, month: int, day: int)

  ghost predicate ValidDate(d: Date)
  {
    1 <= d.month <= 12 && 1 <= d.day <= 31
  }

  /** The `YYYY-MM` key a date falls in. */
  datatype MonthKey = MonthKey(year: int, month: int)

  function KeyOf(d: Date): MonthKey
  {
    MonthKey(d.year, d.month)
  }

  /**
   * A transaction record. Optional text fields are "" when absent
   * (JavaScript treats "" and undefined alike in every test the code makes).
   */
  datatype Transaction = Transaction(
    id: string,
    date: Date,
    merchant: string,
    amount: real,
    kind: Kind,
    category: string,
    sourceDocumentId: string,
    userId: string)

  ghost predicate AllValidDates(ts: seq<Transaction>)
  {
    forall i :: 0 <= i < |ts| ==> ValidDate(ts[i].date)
  }

  /** Sort key for `new Date(t.date).getTime()`: strictly increasing in the calendar order of valid dates. */
  function DayStamp(d: Date): int
  {
    d.year * 384 + d.month * 32 + d.day
  }

  /** Calendar order of dates: year, then month, then day. */
  predicate DateLe(a: Date, b: Date)
  {
    a.year < b.year || (a.year == b.year && (a.month < b.month || (a.month == b.month && a.day <= b.day)))
  }

  /** Calendar order of month keys. */
  predicate KeyLt(a: MonthKey, b: MonthKey)
  {
    a.year < b.year || (a.year == b.year && a.month < b.month)
  }

  /** On valid dates the sort key orders exactly as the calendar does. */
  lemma DayStampOrder(a: Date, b: Date)
    requires ValidDate(a) && ValidDate(b)
    ensures DateLe(a, b) <==> DayStamp(a) <= DayStamp(b)
  {
    if a.year < b.year {
      assert DayStamp(a) <= a.year * 384 + 415 < (a.year + 1) * 384 + 33 <= DayStamp(b);
    } else if a.year > b.year {
      assert DayStamp(b) <= b.year * 384 + 415 < (b.year + 1) * 384 + 33 <= DayStamp(a);
    }
  }

  /** Dates in calendar order have month keys in calendar order (or equal). */
  lemma DateLeKeyOrder(a: Date, b: Date)
    requires DateLe(a, b)
    ensures KeyOf(a) == KeyOf(b) || KeyLt(KeyOf(a), KeyOf(b))
  {
  }

  // ---------------------------------------------------------------------
  // Filtering and summing

  function Filter<T>(s: seq<T>, p: T -> bool): (r: seq<T>)
    ensures |r| <= |s|
    ensures forall x :: x in r ==> x in s && p(x)
    ensures forall x :: x in s && p(x) ==> x in r
  {
    if s == [] then []
    else Filter(s[..|s| - 1], p) + (if p(s[|s| - 1]) then [s[|s| - 1]] else [])
  }

  lemma {:induction false} FilterAppend<T>(s: seq<T>, x: T, p: T -> bool)
    ensures Filter(s + [x], p) == Filter(s, p) + (if p(x) then [x] else [])
  {
    assert (s + [x])[..|s + [x]| - 1] == s;
  }

  predicate IsIncome(t: Transaction) { t.kind == Income }
  predicate IsExpense(t: Transaction) { t.kind == Expense }

  function Incomes(ts: seq<Transaction>): seq<Transaction>
  {
    Filter(ts, IsIncome)
  }

  function Expenses(ts: seq<Transaction>): seq<Transaction>
  {
    Filter(ts, IsExpense)
  }

  /** `ts.reduce((sum, t) => sum + t.amount, 0)` */
  function SumAmounts(ts: seq<Transaction>): real
  {
    if ts == [] then 0.0 else SumAmounts(ts[..|ts| - 1]) + ts[|ts| - 1].amount
  }

  function Abs(x: real): (r: real)
    ensures r >= 0.0 && (r == x || r == -x)
  {
    if x < 0.0 then -x else x
  }

  /** `ts.reduce((sum, t) => sum + Math.abs(t.amount), 0)` */
  function SumAbsAmounts(ts: seq<Transaction>): (r: real)
    ensures r >= 0.0
  {
    if ts == [] then 0.0 else SumAbsAmounts(ts[..|ts| - 1]) + Abs(ts[|ts| - 1].amount)
  }

  ghost predicate NonNegativeAmounts(ts: seq<Transaction>)
  {
    forall i :: 0 <= i < |ts| ==> ts[i].amount >= 0.0
  }

  lemma {:induction false} SumAmountsNonNegative(ts: seq<Transaction>)
    requires NonNegativeAmounts(ts)
    ensures SumAmounts(ts) >= 0.0
  {
    if ts != [] {
      SumAmountsNonNegative(ts[..|ts| - 1]);
    }
  }

  lemma {:induction false} SumAmountsAppend(ts: seq<Transaction>, us: seq<Transaction>)
    ensures SumAmounts(ts + us) == SumAmounts(ts) + SumAmounts(us)
    decreases |us|
  {
    if us == [] {
      assert ts + us == ts;
    } else {
      assert (ts + us)[..|ts + us| - 1] == ts + us[..|us| - 1];
      SumAmountsAppend(ts, us[..|us| - 1]);
    }
  }

  lemma SumAmountsSnoc(ts: seq<Transaction>, t: Transaction)
    ensures SumAmounts(ts + [t]) == SumAmounts(ts) + t.amount
  {
    assert (ts + [t])[..|ts + [t]| - 1] == ts;
  }

  /** Appending a transaction adds its amount to the total of a filter that keeps it, and nothing otherwise. */
  lemma FilteredSumAppend(ts: seq<Transaction>, t: Transaction, p: Transaction -> bool)
    ensures SumAmounts(Filter(ts + [t], p)) == SumAmounts(Filter(ts, p)) + (if p(t) then t.amount else 0.0)
  {
    FilterAppend(ts, t, p);
    if p(t) {
      SumAmountsSnoc(Filter(ts, p), t);
    } else {
      assert Filter(ts, p) + [] == Filter(ts, p);
    }
  }

  /** FilteredSumAppend stated on a non-empty list and its last element. */
  lemma FilteredSumStep(ts: seq<Transaction>, p: Transaction -> bool)
    requires ts != []
    ensures SumAmounts(Filter(ts, p)) ==
      SumAmounts(Filter(ts[..|ts| - 1], p)) + (if p(ts[|ts| - 1]) then ts[|ts| - 1].amount else 0.0)
  {
    var init, t := ts[..|ts| - 1], ts[|ts| - 1];
    if p(t) {
      SumAmountsSnoc(Filter(init, p), t);
    } else {
      assert Filter(init, p) + [] == Filter(init, p);
    }
  }

  /** Filtering keeps every copy of a kept element and no copy of a dropped one. */
  lemma {:induction false} FilterCount<T>(s: seq<T>, p: T -> bool, x: T)
    ensures multiset(Filter(s, p))[x] == if p(x) then multiset(s)[x] else 0
  {
    if s != [] {
      var init, last := s[..|s| - 1], s[|s| - 1];
      FilterCount(init, p, x);
      assert s == init + [last];
    }
  }

  /** Two lists with the same number of copies of every element are permutations of each other. */
  lemma SameCounts<T>(a: seq<T>, b: seq<T>)
    requires forall x: T :: multiset(a)[x] == multiset(b)[x]
    ensures multiset(a) == multiset(b)
  {
  }

  /** Reordering a list reorders its filtered sublist the same way. */
  lemma FilterPermutation<T>(s: seq<T>, t: seq<T>, p: T -> bool)
    requires multiset(s) == multiset(t)
    ensures multiset(Filter(s, p)) == multiset(Filter(t, p))
  {
    forall x: T ensures multiset(Filter(s, p))[x] == multiset(Filter(t, p))[x] {
      FilterCount(s, p, x);
      FilterCount(t, p, x);
    }
    SameCounts(Filter(s, p), Filter(t, p));
  }

  /** The total of the amounts does not depend on the order of the list. */
  lemma {:induction false} SumAmountsPermutation(s: seq<Transaction>, t: seq<Transaction>)
    requires multiset(s) == multiset(t)
    ensures SumAmounts(s) == SumAmounts(t)
    decreases |s|
  {
    if s == [] {
      assert |t| == |multiset(t)| == 0;
    } else {
      var init, x := s[..|s| - 1], s[|s| - 1];
      assert s == init + [x];
      assert x in multiset(t);
      var j :| 0 <= j < |t| && t[j] == x;
      var rest := t[..j] + t[j + 1..];
      assert t == t[..j] + [x] + t[j + 1..];
      assert multiset(t) == multiset(rest) + multiset{x};
      assert multiset(s) == multiset(init) + multiset{x};
      forall y ensures multiset(rest)[y] == multiset(init)[y] {
        assert (multiset(rest) + multiset{x})[y] == (multiset(init) + multiset{x})[y];
      }
      SameCounts(rest, init);
      SumAmountsPermutation(init, rest);
      SumAmountsAppend(t[..j], t[j + 1..]);
      SumAmountsAppend(t[..j] + [x], t[j + 1..]);
      SumAmountsAppend(t[..j], [x]);
      assert SumAmounts([x]) == x.amount by { assert [x][..0] == []; }
    }
  }

  // ---------------------------------------------------------------------
  // The stable sort behind Array.prototype.sort with a key-difference comparator

  ghost predicate SortedBy<T>(s: seq<T>, key: T -> real)
  {
    forall i, j :: 0 <= i < j < |s| ==> key(s[i]) <= key(s[j])
  }

  /** Appending an element whose key bounds every key keeps a list sorted. */
  lemma AppendSorted<T>(s: seq<T>, y: T, key: T -> real)
    requires SortedBy(s, key)
    requires forall z :: z in s ==> key(z) <= key(y)
    ensures SortedBy(s + [y], key)
  {
    forall i, j | 0 <= i < j < |s + [y]| ensures key((s + [y])[i]) <= key((s + [y])[j]) {
      if j == |s| {
        assert (s + [y])[i] in s;
      }
    }
  }

  /** Inserts x after every element whose key is at most x's key (keeps equal keys in arrival order). */
  function InsertBy<T>(s: seq<T>, x: T, key: T -> real): (r: seq<T>)
    requires SortedBy(s, key)
    ensures SortedBy(r, key)
    ensures multiset(r) == multiset(s) + multiset{x}
    ensures |r| == |s| + 1
  {
    if s == [] then [x]
    else if key(s[|s| - 1]) <= key(x) then
      AppendSorted(s, x, key);
      s + [x]
    else
      var init, last := s[..|s| - 1], s[|s| - 1];
      var rest := InsertBy(init, x, key);
      assert s == init + [last];
      InsertByBounded(init, x, key, rest, last);
      AppendSorted(rest, last, key);
      rest + [last]
  }

  lemma InsertByBounded<T>(init: seq<T>, x: T, key: T -> real, rest: seq<T>, last: T)
    requires SortedBy(init + [last], key)
    requires multiset(rest) == multiset(init) + multiset{x}
    requires key(x) < key(last)
    ensures forall z :: z in rest ==> key(z) <= key(last)
  {
    forall z | z in rest ensures key(z) <= key(last) {
      assert z in multiset(rest);
      if z != x {
        assert z in multiset(init);
        var k :| 0 <= k < |init| && init[k] == z;
        assert (init + [last])[k] == z && (init + [last])[|init|] == last;
      }
    }
  }

  /** A stable sort, ascending by key, as an insertion sort from left to right. */
  function SortBy<T>(s: seq<T>, key: T -> real): (r: seq<T>)
    ensures SortedBy(r, key)
    ensures multiset(r) == multiset(s)
    ensures |r| == |s|
  {
    if s == [] then []
    else
      assert s == s[..|s| - 1] + [s[|s| - 1]];
      InsertBy(SortBy(s[..|s| - 1], key), s[|s| - 1], key)
  }

  function DateKey(t: Transaction): real
  {
    DayStamp(t.date) as real
  }

  /** `[...ts].sort((a, b) => new Date(a.date).getTime() - new Date(b.date).getTime())` */
  function SortByDate(ts: seq<Transaction>): (r: seq<Transaction>)
    ensures multiset(r) == multiset(ts) && |r| == |ts|
    ensures SortedBy(r, DateKey)
  {
    SortBy(ts, DateKey)
  }

  /** A date-sorted list of valid dates is in calendar order. */
  lemma SortedByDateIsChronological(ts: seq<Transaction>, i: int, j: int)
    requires SortedBy(ts, DateKey) && AllValidDates(ts)
    requires 0 <= i <= j < |ts|
    ensures DateLe(ts[i].date, ts[j].date)
  {
    DayStampOrder(ts[i].date, ts[j].date);
  }
}
