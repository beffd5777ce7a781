/**
 * The stateful parts of src/lib/reportUtils.ts: the month ledger built
 * after sorting the caller's array in place, the category and payment
 * method tables, the rule-based insights and formatReportData, which puts
 * the whole report together.
 */
module ReportUtils {
  import opened Numbers
  import opened Transactions
  import opened CreditAnalysis
  import opened ReportMetrics

  // ---------------------------------------------------------------------
  // Sums over the values of a keyed record

  /** Σ f(rows[k]) over the keys, in key order. */
  function SumOver<K, V>(keys: seq<K>, rows: map<K, V>, f: V -> int): int
    requires forall k :: k in keys ==> k in rows
  {
    if keys == [] then 0
    else SumOver(keys[..|keys| - 1], rows, f) + f(rows[keys[|keys| - 1]])
  }

  lemma SumOverSnoc<K, V>(keys: seq<K>, rows: map<K, V>, f: V -> int, k: K)
    requires forall x :: x in keys ==> x in rows
    requires k in rows
    ensures SumOver(keys + [k], rows, f) == SumOver(keys, rows, f) + f(rows[k])
  {
    assert (keys + [k])[..|keys + [k]| - 1] == keys;
  }

  /** Replacing the value of one key changes the sum by the change of that value, if the key is listed. */
  lemma {:induction false} SumOverUpdate<K, V>(keys: seq<K>, rows: map<K, V>, f: V -> int, k: K, v: V)
    requires Distinct(keys) && forall x :: x in keys ==> x in rows
    ensures SumOver(keys, rows[k := v], f) ==
      SumOver(keys, rows, f) + (if k in keys then f(v) - f(rows[k]) else 0)
  {
    if keys != [] {
      var init, last := keys[..|keys| - 1], keys[|keys| - 1];
      var updated := rows[k := v];
      forall i, j | 0 <= i < j < |init| ensures init[i] != init[j] {
        assert init[i] == keys[i] && init[j] == keys[j];
      }
      SumOverUpdate(init, rows, f, k, v);
      assert SumOver(keys, updated, f) == SumOver(init, updated, f) + f(updated[last]);
      assert SumOver(keys, rows, f) == SumOver(init, rows, f) + f(rows[last]);
      if k == last {
        forall i | 0 <= i < |init| ensures init[i] != k {
          assert init[i] == keys[i];
        }
      } else {
        assert updated[last] == rows[last];
        assert k in keys <==> k in init;
      }
    }
  }

  // ---------------------------------------------------------------------
  // groupByMonth: the month ledger

  /** One month of the ledger. */
  datatype MonthRow = MonthRow(income: real, expenses: real, netProfit: real, transactionCount: int, balance: real)

  const EmptyRow := MonthRow(0.0, 0.0, 0.0, 0, 0.0)

  /** The `monthly` record: its `YYYY-MM` keys in insertion order and the row behind each. */
  datatype Ledger = Ledger(keys: seq<MonthKey>, rows: map<MonthKey, MonthRow>)

  /** The forEach body's update of t's month row, given the running balance after t. */
  function Book(row: MonthRow, t: Transaction, balance: real): MonthRow
  {
    var r := if t.kind == Income then row.(income := row.income + t.amount)
             else row.(expenses := row.expenses + t.amount);
    r.(transactionCount := r.transactionCount + 1, balance := balance)
  }

  /** The ledger after the forEach over ts (netProfit still 0). */
  function LedgerOf(ts: seq<Transaction>): (l: Ledger)
    ensures Distinct(l.keys)
    ensures forall k :: k in l.keys <==> k in l.rows
  {
    if ts == [] then Ledger([], map[])
    else
      var init, t := ts[..|ts| - 1], ts[|ts| - 1];
      var l := LedgerOf(init);
      var k := KeyOf(t.date);
      var row := if k in l.rows then l.rows[k] else EmptyRow;
      Ledger(if k in l.rows then l.keys else l.keys + [k], l.rows[k := Book(row, t, CurrentBalance(ts))])
  }

  /** Booking one more transaction: the ledger step of the forEach body. */
  lemma LedgerAppend(ts: seq<Transaction>, t: Transaction)
    ensures CurrentBalance(ts + [t]) == CurrentBalance(ts) + SignedAmount(t)
    ensures var l, k := LedgerOf(ts), KeyOf(t.date);
      var row := if k in l.rows then l.rows[k] else EmptyRow;
      LedgerOf(ts + [t]) ==
        Ledger(if k in l.rows then l.keys else l.keys + [k], l.rows[k := Book(row, t, CurrentBalance(ts) + SignedAmount(t))])
  {
    assert (ts + [t])[..|ts + [t]| - 1] == ts;
  }

  /** The loop step of BookMonths, stated on the ledger values. */
  lemma BookStep(ts: seq<Transaction>, t: Transaction, before: Ledger, balance: real, after: Ledger)
    requires before == LedgerOf(ts) && balance == CurrentBalance(ts)
    requires var k := KeyOf(t.date);
      var row := if k in before.rows then before.rows[k] else EmptyRow;
      after == Ledger(if k in before.rows then before.keys else before.keys + [k],
                      before.rows[k := Book(row, t, balance + SignedAmount(t))])
    ensures after == LedgerOf(ts + [t])
    ensures balance + SignedAmount(t) == CurrentBalance(ts + [t])
  {
    LedgerAppend(ts, t);
  }

  /** The second pass: `netProfit = income - expenses` for every month. */
  function WithNetProfit(rows: map<MonthKey, MonthRow>): map<MonthKey, MonthRow>
  {
    map k | k in rows :: rows[k].(netProfit := rows[k].income - rows[k].expenses)
  }

  /** What groupByMonth returns for a list already in the order it iterates. */
  function MonthlyLedger(ts: seq<Transaction>): Ledger
  {
    var l := LedgerOf(ts);
    Ledger(l.keys, WithNetProfit(l.rows))
  }

  /** The total of one kind over a list grows by the amount of an appended transaction of that kind. */
  lemma TotalsStep(s: seq<Transaction>, t: Transaction)
    ensures TotalIncome(s + [t]) == TotalIncome(s) + (if t.kind == Income then t.amount else 0.0)
    ensures TotalExpenses(s + [t]) == TotalExpenses(s) + (if t.kind == Expense then t.amount else 0.0)
  {
    FilterAppend(s, t, IsIncome);
    FilterAppend(s, t, IsExpense);
    assert SumAmounts([t]) == t.amount by { assert [t][..0] == []; }
    if t.kind == Income {
      assert Incomes(s + [t]) == Incomes(s) + [t];
      assert Expenses(s + [t]) == Expenses(s);
      SumAmountsAppend(Incomes(s), [t]);
    } else {
      assert Incomes(s + [t]) == Incomes(s);
      assert Expenses(s + [t]) == Expenses(s) + [t];
      SumAmountsAppend(Expenses(s), [t]);
    }
  }

  /**
   * Each month's row holds the income and expense totals and the number of
   * that month's transactions; its net profit is income minus expenses.
   */
  lemma {:induction false} LedgerRows(ts: seq<Transaction>, k: MonthKey)
    requires k in LedgerOf(ts).rows
    ensures RowMatchesMonth(LedgerOf(ts).rows[k], ts, k)
  {
    var init := ts[..|ts| - 1];
    if k in LedgerOf(init).rows {
      LedgerRows(init, k);
    }
    LedgerRowStep(ts, k);
  }

  /** A ledger row holds the month's income and expense totals and transaction count, and no net profit yet. */
  ghost predicate RowMatchesMonth(row: MonthRow, ts: seq<Transaction>, k: MonthKey)
  {
    && row.income == TotalIncome(InMonth(ts, k))
    && row.expenses == TotalExpenses(InMonth(ts, k))
    && row.transactionCount == |InMonth(ts, k)|
    && row.netProfit == 0.0
  }

  /** The ledger has a row for exactly the months some transaction falls in. */
  lemma {:induction false} LedgerKeysAreMonths(ts: seq<Transaction>, k: MonthKey)
    ensures k in LedgerOf(ts).rows <==> InMonth(ts, k) != []
  {
    if ts != [] {
      LedgerKeysAreMonths(ts[..|ts| - 1], k);
    }
  }

  lemma LedgerRowStep(ts: seq<Transaction>, k: MonthKey)
    requires ts != []
    requires var init := ts[..|ts| - 1];
      k in LedgerOf(init).rows ==> RowMatchesMonth(LedgerOf(init).rows[k], init, k)
    requires k in LedgerOf(ts).rows
    ensures RowMatchesMonth(LedgerOf(ts).rows[k], ts, k)
  {
    var init, t := ts[..|ts| - 1], ts[|ts| - 1];
    if KeyOf(t.date) == k {
      if k !in LedgerOf(init).rows {
        LedgerKeysAreMonths(init, k);
      }
      BookedRowStep(ts);
    } else {
      assert InMonth(ts, k) == InMonth(init, k);
    }
  }

  /** The row of the last transaction's month adds that transaction to the month's totals and count. */
  lemma BookedRowStep(ts: seq<Transaction>)
    requires ts != []
    requires var init, k := ts[..|ts| - 1], KeyOf(ts[|ts| - 1].date);
      if k in LedgerOf(init).rows then RowMatchesMonth(LedgerOf(init).rows[k], init, k)
      else InMonth(init, k) == []
    ensures RowMatchesMonth(LedgerOf(ts).rows[KeyOf(ts[|ts| - 1].date)], ts, KeyOf(ts[|ts| - 1].date))
  {
    var init, t := ts[..|ts| - 1], ts[|ts| - 1];
    var k := KeyOf(t.date);
    var l := LedgerOf(init);
    var before := InMonth(init, k);
    assert InMonth(ts, k) == before + [t];
    var row := if k in l.rows then l.rows[k] else EmptyRow;
    if k !in l.rows {
      assert before == [];
      assert TotalIncome(before) == 0.0 && TotalExpenses(before) == 0.0;
    }
    assert LedgerOf(ts).rows[k] == Book(row, t, CurrentBalance(ts));
    TotalsStep(before, t);
    BookMatches(row, before, t, CurrentBalance(ts), InMonth(ts, k));
  }

  /** Booking t into a row that sums `before` gives a row that sums `before` with t added. */
  lemma BookMatches(row: MonthRow, before: seq<Transaction>, t: Transaction, balance: real, after: seq<Transaction>)
    requires RowMatches(row, before)
    requires TotalIncome(after) == TotalIncome(before) + (if t.kind == Income then t.amount else 0.0)
    requires TotalExpenses(after) == TotalExpenses(before) + (if t.kind == Expense then t.amount else 0.0)
    requires |after| == |before| + 1
    ensures RowMatches(Book(row, t, balance), after)
  {
    BookAdds(row, t, balance);
  }

  /** Booking adds the amount to the income or the expenses, by kind, and one to the count. */
  lemma BookAdds(row: MonthRow, t: Transaction, balance: real)
    ensures var booked := Book(row, t, balance);
      && booked.income == row.income + (if t.kind == Income then t.amount else 0.0)
      && booked.expenses == row.expenses + (if t.kind == Expense then t.amount else 0.0)
      && booked.transactionCount == row.transactionCount + 1
      && booked.netProfit == row.netProfit
  {
  }

  /** A row that holds the income and expense totals and the count of `month`, with no net profit yet. */
  ghost predicate RowMatches(row: MonthRow, month: seq<Transaction>)
  {
    && row.income == TotalIncome(month)
    && row.expenses == TotalExpenses(month)
    && row.transactionCount == |month|
    && row.netProfit == 0.0
  }

  /** The rows groupByMonth returns: month totals, counts and netProfit = income - expenses. */
  lemma MonthlyLedgerRows(ts: seq<Transaction>, k: MonthKey)
    ensures k in MonthlyLedger(ts).rows <==> k in MonthsOf(ts)
    ensures k in MonthlyLedger(ts).rows ==>
      var row := MonthlyLedger(ts).rows[k];
      && row.income == TotalIncome(InMonth(ts, k))
      && row.expenses == TotalExpenses(InMonth(ts, k))
      && row.netProfit == row.income - row.expenses
      && row.transactionCount == |InMonth(ts, k)|
      && row.transactionCount > 0
  {
    LedgerKeysAreMonths(ts, k);
    InMonthEmptyIff(ts, k);
    if k in LedgerOf(ts).rows {
      LedgerRows(ts, k);
    }
  }

  function TransactionCount(row: MonthRow): int
  {
    row.transactionCount
  }

  /** The month counts add up to the number of transactions. */
  lemma {:induction false} LedgerCountsSum(ts: seq<Transaction>)
    ensures SumOver(LedgerOf(ts).keys, LedgerOf(ts).rows, TransactionCount) == |ts|
  {
    if ts != [] {
      var init, t := ts[..|ts| - 1], ts[|ts| - 1];
      var l := LedgerOf(init);
      var k := KeyOf(t.date);
      LedgerCountsSum(init);
      var row := if k in l.rows then l.rows[k] else EmptyRow;
      var booked := Book(row, t, CurrentBalance(ts));
      SumOverUpdate(l.keys, l.rows, TransactionCount, k, booked);
      if k !in l.rows {
        var keys := l.keys + [k];
        assert keys[..|keys| - 1] == l.keys;
      }
    }
  }

  /** The ledger groupByMonth returns also counts every transaction once. */
  lemma MonthlyCountsSum(ts: seq<Transaction>)
    ensures SumOver(MonthlyLedger(ts).keys, MonthlyLedger(ts).rows, TransactionCount) == |ts|
  {
    var l := LedgerOf(ts);
    LedgerCountsSum(ts);
    SameCountsAfterNet(l.keys, l.rows);
  }

  lemma {:induction false} SameCountsAfterNet(keys: seq<MonthKey>, rows: map<MonthKey, MonthRow>)
    requires forall k :: k in keys ==> k in rows
    ensures SumOver(keys, WithNetProfit(rows), TransactionCount) == SumOver(keys, rows, TransactionCount)
  {
    if keys != [] {
      SameCountsAfterNet(keys[..|keys| - 1], rows);
    }
  }

  /** The month of the last transaction carries the running balance after the whole list. */
  lemma LastMonthBalance(ts: seq<Transaction>)
    requires ts != []
    ensures var k := KeyOf(ts[|ts| - 1].date);
      k in MonthlyLedger(ts).rows && MonthlyLedger(ts).rows[k].balance == CurrentBalance(ts)
  {
  }

  /**
   * Every month's balance is the running balance right after that month's
   * last transaction in list order: `j` is the index of that transaction.
   */
  lemma {:induction false} MonthBalance(ts: seq<Transaction>, j: int)
    requires 0 <= j < |ts|
    requires forall i :: j < i < |ts| ==> KeyOf(ts[i].date) != KeyOf(ts[j].date)
    ensures var k := KeyOf(ts[j].date);
      k in MonthlyLedger(ts).rows && MonthlyLedger(ts).rows[k].balance == CurrentBalance(ts[..j + 1])
  {
    if j == |ts| - 1 {
      assert ts[..j + 1] == ts;
      LastMonthBalance(ts);
    } else {
      var init := ts[..|ts| - 1];
      var k := KeyOf(ts[j].date);
      assert init[j] == ts[j];
      forall i | j < i < |init| ensures KeyOf(init[i].date) != k {
        assert init[i] == ts[i];
      }
      MonthBalance(init, j);
      assert init[..j + 1] == ts[..j + 1];
      assert KeyOf(ts[|ts| - 1].date) != k;
      assert LedgerOf(ts).rows[k] == LedgerOf(init).rows[k];
    }
  }

  ghost predicate Chronological(keys: seq<MonthKey>)
  {
    forall i, j :: 0 <= i < j < |keys| ==> KeyLt(keys[i], keys[j])
  }

  /** A month not before the last key either is the last key or extends the keys in calendar order. */
  lemma KeysStep(keys: seq<MonthKey>, k: MonthKey)
    requires Chronological(keys) && |keys| > 0
    requires keys[|keys| - 1] == k || KeyLt(keys[|keys| - 1], k)
    ensures k in keys ==> keys[|keys| - 1] == k
    ensures k !in keys ==> Chronological(keys + [k])
  {
    var last := keys[|keys| - 1];
    assert forall i :: 0 <= i < |keys| - 1 ==> KeyLt(keys[i], last);
  }

  /**
   * On a date-sorted list of valid dates the months appear in calendar
   * order, so the last key is the month of the last transaction.
   */
  lemma {:induction false} LedgerKeysChronological(ts: seq<Transaction>)
    requires SortedBy(ts, DateKey) && AllValidDates(ts)
    ensures Chronological(LedgerOf(ts).keys)
    ensures ts != [] ==> |LedgerOf(ts).keys| > 0 && LedgerOf(ts).keys[|LedgerOf(ts).keys| - 1] == KeyOf(ts[|ts| - 1].date)
  {
    if ts != [] {
      var init, t := ts[..|ts| - 1], ts[|ts| - 1];
      SortedValidPrefix(ts);
      LedgerKeysChronological(init);
      if init != [] {
        SortedByDateIsChronological(ts, |ts| - 2, |ts| - 1);
        DateLeKeyOrder(ts[|ts| - 2].date, t.date);
        KeysStep(LedgerOf(init).keys, KeyOf(t.date));
      }
    }
  }

  lemma SortedValidPrefix(ts: seq<Transaction>)
    requires SortedBy(ts, DateKey) && AllValidDates(ts) && ts != []
    ensures SortedBy(ts[..|ts| - 1], DateKey) && AllValidDates(ts[..|ts| - 1])
    ensures |ts| >= 2 ==> ts[..|ts| - 1][|ts| - 2] == ts[|ts| - 2]
  {
  }

  /** On a date-sorted list of valid dates the last month's balance is the current balance. */
  lemma LastBucketIsBalance(ts: seq<Transaction>)
    requires SortedBy(ts, DateKey) && AllValidDates(ts) && ts != []
    ensures var l := MonthlyLedger(ts);
      |l.keys| > 0 && l.keys[|l.keys| - 1] in l.rows && l.rows[l.keys[|l.keys| - 1]].balance == CurrentBalance(ts)
  {
    LedgerKeysChronological(ts);
    LastMonthBalance(ts);
  }

  /** `transactions.sort(...)` by date: the caller's array is reordered in place. */
  method SortByDateInPlace(a: array<Transaction>)
    modifies a
    ensures a[..] == SortByDate(old(a[..]))
  {
    var sorted := SortByDate(a[..]);
    CopyInto(a, sorted);
  }

  /** Writes s over the array, element by element. */
  method CopyInto(a: array<Transaction>, s: seq<Transaction>)
    requires |s| == a.Length
    modifies a
    ensures a[..] == s
  {
    var i := 0;
    while i < a.Length
      invariant 0 <= i <= a.Length
      invariant a[..i] == s[..i]
    {
      a[i] := s[i];
      assert a[..i + 1] == s[..i + 1];
      i := i + 1;
    }
    assert a[..] == a[..i];
  }

  /** The forEach of groupByMonth: books every transaction of `a`, in array order, into its month. */
  method BookMonths(a: array<Transaction>) returns (ledger: Ledger)
    ensures ledger == LedgerOf(a[..])
  {
    var keys: seq<MonthKey> := [];
    var rows: map<MonthKey, MonthRow> := map[];
    var runningBalance := 0.0;
    var i := 0;
    while i < a.Length
      invariant 0 <= i <= a.Length
      invariant Ledger(keys, rows) == LedgerOf(a[..i])
      invariant runningBalance == CurrentBalance(a[..i])
    {
      var t := a[i];
      ghost var before, balanceBefore := Ledger(keys, rows), runningBalance;
      var month := KeyOf(t.date);
      var row := if month in rows then rows[month] else EmptyRow;
      ghost var oldRow := row;
      if month !in rows {
        keys := keys + [month];
      }
      if t.kind == Income {
        row := row.(income := row.income + t.amount);
        runningBalance := runningBalance + t.amount;
      } else {
        row := row.(expenses := row.expenses + t.amount);
        runningBalance := runningBalance - t.amount;
      }
      row := row.(transactionCount := row.transactionCount + 1, balance := runningBalance);
      assert row == Book(oldRow, t, runningBalance);
      assert runningBalance == balanceBefore + SignedAmount(t);
      rows := rows[month := row];
      BookStep(a[..i], t, before, balanceBefore, Ledger(keys, rows));
      assert a[..i + 1] == a[..i] + [t];
      i := i + 1;
    }
    assert a[..i] == a[..];
    ledger := Ledger(keys, rows);
  }

  /** The second forEach of groupByMonth: every listed month gets netProfit = income - expenses. */
  method SetNetProfits(keys: seq<MonthKey>, booked: map<MonthKey, MonthRow>) returns (rows: map<MonthKey, MonthRow>)
    requires Distinct(keys)
    requires forall k :: k in booked <==> k in keys
    ensures rows == WithNetProfit(booked)
  {
    rows := booked;
    var j := 0;
    while j < |keys|
      invariant 0 <= j <= |keys|
      invariant rows.Keys == booked.Keys
      invariant forall k :: k in rows ==>
        rows[k] == if k in keys[..j] then booked[k].(netProfit := booked[k].income - booked[k].expenses) else booked[k]
    {
      var month := keys[j];
      assert month !in keys[..j];
      rows := rows[month := rows[month].(netProfit := rows[month].income - rows[month].expenses)];
      assert keys[..j + 1] == keys[..j] + [month];
      j := j + 1;
    }
    assert keys[..j] == keys;
  }

  /**
   * groupByMonth: sorts the caller's array by date in place, then books
   * every transaction into its month with the running balance, then sets
   * each month's net profit.
   */
  method GroupByMonth(a: array<Transaction>) returns (ledger: Ledger)
    modifies a
    ensures a[..] == SortByDate(old(a[..]))
    ensures ledger == MonthlyLedger(a[..])
  {
    SortByDateInPlace(a);
    var booked := BookMonths(a);
    var rows := SetNetProfits(booked.keys, booked.rows);
    ledger := Ledger(booked.keys, rows);
  }
}
