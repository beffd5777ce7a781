/**
 * The two tables of the transaction analysis in src/lib/reportUtils.ts:
 * analyzeCategoryDistribution (one row per category, largest amount
 * first) and analyzePaymentMethods (documented versus cash amounts and
 * their shares).
 */
module ReportTables {
  import opened Transactions
  import opened CreditAnalysis
  import opened ReportMetrics
  import opened ReportUtils

  // ---------------------------------------------------------------------
  // analyzeCategoryDistribution

  /** One entry of the result: `{ name, count, amount, type }`. */
  datatype CategoryRow = CategoryRow(name: string, count: int, amount: real, kind: Kind)

  /** `t.category || 'Uncategorized'` */
  function CategoryName(t: Transaction): (name: string)
    ensures name != ""
    ensures t.category != "" ==> name == t.category
  {
    if t.category == "" then "Uncategorized" else t.category
  }

  /** The `categories` record: names in insertion order and the row behind each. */
  datatype CategoryTable = CategoryTable(names: seq<string>, rows: map<string, CategoryRow>)

  /** Each name is listed once and has a row. */
  ghost predicate WellFormed(tab: CategoryTable)
  {
    Distinct(tab.names) && forall n :: n in tab.names <==> n in tab.rows
  }

  /** The transactions of ts filed under category `name`, in list order. */
  function InCategory(ts: seq<Transaction>, name: string): seq<Transaction>
  {
    if ts == [] then []
    else InCategory(ts[..|ts| - 1], name) + (if CategoryName(ts[|ts| - 1]) == name then [ts[|ts| - 1]] else [])
  }

  /**
   * The record after the forEach over ts: a category seen for the first time
   * starts at count 0, amount 0 and the type of that transaction; every
   * transaction adds 1 to its category's count and its amount to the amount.
   */
  function CategoryTableOf(ts: seq<Transaction>): (tab: CategoryTable)
    ensures WellFormed(tab)
  {
    if ts == [] then CategoryTable([], map[])
    else FileUnder(CategoryTableOf(ts[..|ts| - 1]), ts[|ts| - 1])
  }

  /** The forEach body: t's category row, created on first sight, gains one transaction and t's amount. */
  function FileUnder(tab: CategoryTable, t: Transaction): CategoryTable
  {
    var n := CategoryName(t);
    var row := if n in tab.rows then tab.rows[n] else CategoryRow(n, 0, 0.0, t.kind);
    CategoryTable(if n in tab.rows then tab.names else tab.names + [n],
                  tab.rows[n := row.(count := row.count + 1, amount := row.amount + t.amount)])
  }

  lemma FileUnderParts(tab: CategoryTable, t: Transaction, names: seq<string>, rows: map<string, CategoryRow>)
    requires var n := CategoryName(t);
      var row := if n in tab.rows then tab.rows[n] else CategoryRow(n, 0, 0.0, t.kind);
      && names == (if n in tab.rows then tab.names else tab.names + [n])
      && rows == tab.rows[n := row.(count := row.count + 1, amount := row.amount + t.amount)]
    ensures CategoryTable(names, rows) == FileUnder(tab, t)
  {
  }

  lemma TableStep(ts: seq<Transaction>, i: int)
    requires 0 <= i < |ts|
    ensures CategoryTableOf(ts[..i + 1]) == FileUnder(CategoryTableOf(ts[..i]), ts[i])
  {
    assert ts[..i + 1][..i] == ts[..i];
  }

  /** `Object.entries(categories).map(([name, data]) => ({ name, ...data }))`, the names in the order first seen. */
  function Entries(names: seq<string>, rows: map<string, CategoryRow>): (entries: seq<CategoryRow>)
    requires forall n :: n in names ==> n in rows
    ensures |entries| == |names|
    ensures forall i :: 0 <= i < |names| ==> entries[i] == rows[names[i]]
  {
    if names == [] then [] else Entries(names[..|names| - 1], rows) + [rows[names[|names| - 1]]]
  }

  /** The comparator `(a, b) => b.amount - a.amount` sorts ascending by the negated amount. */
  function NegAmount(r: CategoryRow): real
  {
    -r.amount
  }

  /** What analyzeCategoryDistribution returns. */
  function CategoryDistribution(ts: seq<Transaction>): seq<CategoryRow>
  {
    var tab := CategoryTableOf(ts);
    SortBy(Entries(tab.names, tab.rows), NegAmount)
  }

  /** analyzeCategoryDistribution: one forEach filling the record, then the entries sorted by amount. */
  method AnalyzeCategoryDistribution(ts: seq<Transaction>) returns (result: seq<CategoryRow>)
    ensures result == CategoryDistribution(ts)
    ensures forall i, j :: 0 <= i < j < |result| ==> result[i].amount >= result[j].amount
  {
    var table := FileAll(ts);
    var entries := Entries(table.names, table.rows);
    result := SortBy(entries, NegAmount);
    assert SortedBy(result, NegAmount);
  }

  /** The forEach body on the record: look up or create t's row, count t and add its amount. */
  method FileOne(names: seq<string>, rows: map<string, CategoryRow>, t: Transaction)
    returns (names': seq<string>, rows': map<string, CategoryRow>)
    ensures CategoryTable(names', rows') == FileUnder(CategoryTable(names, rows), t)
  {
    var category := CategoryName(t);
    var row := if category in rows then rows[category] else CategoryRow(category, 0, 0.0, t.kind);
    ghost var found := row;
    names' := names;
    if category !in rows {
      names' := names + [category];
    }
    row := row.(count := row.count + 1);
    row := row.(amount := row.amount + t.amount);
    assert row == found.(count := found.count + 1, amount := found.amount + t.amount);
    rows' := rows[category := row];
    FileUnderParts(CategoryTable(names, rows), t, names', rows');
  }

  /** The forEach of analyzeCategoryDistribution, filling the `categories` record. */
  method FileAll(ts: seq<Transaction>) returns (table: CategoryTable)
    ensures table == CategoryTableOf(ts)
  {
    var names: seq<string> := [];
    var rows: map<string, CategoryRow> := map[];
    var i := 0;
    while i < |ts|
      invariant 0 <= i <= |ts|
      invariant CategoryTable(names, rows) == CategoryTableOf(ts[..i])
    {
      names, rows := FileOne(names, rows, ts[i]);
      TableStep(ts, i);
      i := i + 1;
    }
    assert ts[..i] == ts;
    table := CategoryTable(names, rows);
  }


  /** The record holds, for each category met, its count, its total and the type of its first transaction. */
  lemma {:induction false} CategoryTableRows(ts: seq<Transaction>, n: string)
    ensures n in CategoryTableOf(ts).rows <==> InCategory(ts, n) != []
    ensures n in CategoryTableOf(ts).rows ==>
      CategoryTableOf(ts).rows[n] ==
        CategoryRow(n, |InCategory(ts, n)|, SumAmounts(InCategory(ts, n)), InCategory(ts, n)[0].kind)
  {
    if ts != [] {
      var init, t := ts[..|ts| - 1], ts[|ts| - 1];
      CategoryTableRows(init, n);
      var before := InCategory(init, n);
      if CategoryName(t) == n {
        assert InCategory(ts, n) == before + [t];
        assert (before + [t])[..|before|] == before;
        assert SumAmounts(before + [t]) == SumAmounts(before) + t.amount;
        if before == [] {
          assert SumAmounts(before) == 0.0;
        } else {
          assert (before + [t])[0] == before[0];
        }
      } else {
        assert InCategory(ts, n) == before;
      }
    }
  }

  /** Every category of ts is listed, and nothing else. */
  lemma {:induction false} CategoryNamesListed(ts: seq<Transaction>, t: Transaction)
    requires t in ts
    ensures CategoryName(t) in CategoryTableOf(ts).rows
  {
    var init, last := ts[..|ts| - 1], ts[|ts| - 1];
    if t != last {
      assert ts == init + [last];
      CategoryNamesListed(init, t);
    }
  }

  /** `Σ count` over a list of rows. */
  function TotalCount(rows: seq<CategoryRow>): int
  {
    if rows == [] then 0 else TotalCount(rows[..|rows| - 1]) + rows[|rows| - 1].count
  }

  lemma {:induction false} TotalCountAppend(s: seq<CategoryRow>, u: seq<CategoryRow>)
    ensures TotalCount(s + u) == TotalCount(s) + TotalCount(u)
    decreases |u|
  {
    if u == [] {
      assert s + u == s;
    } else {
      assert (s + u)[..|s + u| - 1] == s + u[..|u| - 1];
      TotalCountAppend(s, u[..|u| - 1]);
    }
  }

  /** The total count does not depend on the order of the rows. */
  lemma {:induction false} TotalCountPermutation(s: seq<CategoryRow>, t: seq<CategoryRow>)
    requires multiset(s) == multiset(t)
    ensures TotalCount(s) == TotalCount(t)
    decreases |s|
  {
    if s == [] {
      assert |t| == |multiset(t)| == 0;
    } else {
      var init, x := s[..|s| - 1], s[|s| - 1];
      assert s == init + [x];
      assert x in multiset(t);
      var j :| 0 <= j < |t| && t[j] == x;
      var rest := t[..j] + t[j + 1..];
      assert t == t[..j] + [x] + t[j + 1..];
      assert multiset(t) == multiset(rest) + multiset{x};
      assert multiset(s) == multiset(init) + multiset{x};
      forall y ensures multiset(rest)[y] == multiset(init)[y] {
        assert (multiset(rest) + multiset{x})[y] == (multiset(init) + multiset{x})[y];
      }
      SameCounts(rest, init);
      TotalCountPermutation(init, rest);
      TotalCountAppend(t[..j], t[j + 1..]);
      TotalCountAppend(t[..j] + [x], t[j + 1..]);
      TotalCountAppend(t[..j], [x]);
      assert TotalCount([x]) == x.count by { assert [x][..0] == []; }
    }
  }

  function RowCount(r: CategoryRow): int
  {
    r.count
  }

  lemma {:induction false} TableCountsSum(ts: seq<Transaction>)
    ensures SumOver(CategoryTableOf(ts).names, CategoryTableOf(ts).rows, RowCount) == |ts|
  {
    if ts != [] {
      TableCountsSum(ts[..|ts| - 1]);
      FileUnderCounts(CategoryTableOf(ts[..|ts| - 1]), ts[|ts| - 1]);
    }
  }

  /** Filing one transaction adds one to the total count. */
  lemma FileUnderCounts(tab: CategoryTable, t: Transaction)
    requires WellFormed(tab)
    ensures var after := FileUnder(tab, t);
      (forall n :: n in after.names ==> n in after.rows) &&
      SumOver(after.names, after.rows, RowCount) == SumOver(tab.names, tab.rows, RowCount) + 1
  {
    var n := CategoryName(t);
    var row := if n in tab.rows then tab.rows[n] else CategoryRow(n, 0, 0.0, t.kind);
    var v := row.(count := row.count + 1, amount := row.amount + t.amount);
    var rows := tab.rows[n := v];
    var names := if n in tab.rows then tab.names else tab.names + [n];
    FileUnderParts(tab, t, names, rows);
    assert RowCount(v) == RowCount(row) + 1;
    SumOverUpdate(tab.names, tab.rows, RowCount, n, v);
    if n in tab.rows {
      assert n in tab.names;
    } else {
      assert n !in tab.names;
      SumOverSnoc(tab.names, rows, RowCount, n);
    }
  }

  lemma {:induction false} EntriesCount(names: seq<string>, rows: map<string, CategoryRow>)
    requires forall n :: n in names ==> n in rows
    ensures TotalCount(Entries(names, rows)) == SumOver(names, rows, RowCount)
  {
    if names != [] {
      var init := names[..|names| - 1];
      EntriesCount(init, rows);
      var e := Entries(names, rows);
      assert e[..|e| - 1] == Entries(init, rows);
    }
  }

  /** The counts of the category rows add up to the number of transactions. */
  lemma CategoryCountsSum(ts: seq<Transaction>)
    ensures TotalCount(CategoryDistribution(ts)) == |ts|
  {
    var tab := CategoryTableOf(ts);
    TableCountsSum(ts);
    EntriesCount(tab.names, tab.rows);
    TotalCountPermutation(Entries(tab.names, tab.rows), CategoryDistribution(ts));
  }

  /**
   * Each row of analyzeCategoryDistribution describes one category of ts:
   * its number of transactions, their total amount and the type of the
   * first of them; each category of ts has a row.
   */
  lemma CategoryRowsDescribeCategories(ts: seq<Transaction>)
    ensures forall r :: r in CategoryDistribution(ts) ==>
      && InCategory(ts, r.name) != []
      && r.count == |InCategory(ts, r.name)|
      && r.amount == SumAmounts(InCategory(ts, r.name))
      && r.kind == InCategory(ts, r.name)[0].kind
    ensures forall t :: t in ts ==> exists r :: r in CategoryDistribution(ts) && r.name == CategoryName(t)
  {
    var tab := CategoryTableOf(ts);
    var entries := Entries(tab.names, tab.rows);
    var result := CategoryDistribution(ts);
    forall r | r in result
      ensures InCategory(ts, r.name) != [] && r.count == |InCategory(ts, r.name)|
      ensures r.amount == SumAmounts(InCategory(ts, r.name)) && r.kind == InCategory(ts, r.name)[0].kind
    {
      assert r in multiset(entries);
      var i :| 0 <= i < |entries| && entries[i] == r;
      CategoryTableRows(ts, tab.names[i]);
    }
    forall t | t in ts ensures exists r :: r in result && r.name == CategoryName(t) {
      var n := CategoryName(t);
      CategoryNamesListed(ts, t);
      CategoryTableRows(ts, n);
      var i :| 0 <= i < |tab.names| && tab.names[i] == n;
      assert entries[i] in multiset(result);
    }
  }

  /** A row of the record is stored under its own name. */
  lemma {:induction false} RowsCarryTheirNames(ts: seq<Transaction>, n: string)
    requires n in CategoryTableOf(ts).rows
    ensures CategoryTableOf(ts).rows[n].name == n
  {
    CategoryTableRows(ts, n);
  }

  /** No category appears in two rows. */
  lemma CategoryNamesDistinct(ts: seq<Transaction>)
    ensures forall i, j :: 0 <= i < j < |CategoryDistribution(ts)| ==>
      CategoryDistribution(ts)[i].name != CategoryDistribution(ts)[j].name
  {
    var tab := CategoryTableOf(ts);
    var entries := Entries(tab.names, tab.rows);
    forall p, q | 0 <= p < q < |entries| ensures entries[p].name != entries[q].name {
      RowsCarryTheirNames(ts, tab.names[p]);
      RowsCarryTheirNames(ts, tab.names[q]);
    }
    DistinctNamesPermutation(entries, CategoryDistribution(ts));
  }

  /** Reordering rows with distinct names leaves their names distinct. */
  lemma DistinctNamesPermutation(s: seq<CategoryRow>, t: seq<CategoryRow>)
    requires multiset(s) == multiset(t)
    requires forall p, q :: 0 <= p < q < |s| ==> s[p].name != s[q].name
    ensures forall i, j :: 0 <= i < j < |t| ==> t[i].name != t[j].name
  {
    forall i, j | 0 <= i < j < |t| ensures t[i].name != t[j].name {
      if t[i].name == t[j].name {
        assert t[i] in multiset(s) && t[j] in multiset(s);
        var p :| 0 <= p < |s| && s[p] == t[i];
        var q :| 0 <= q < |s| && s[q] == t[j];
        assert p == q;
        DistinctOnce(s, t[i]);
        TwoCopies(t, i, j);
        assert false;
      }
    }
  }

  lemma {:induction false} DistinctOnce<T>(s: seq<T>, x: T)
    requires forall p, q :: 0 <= p < q < |s| ==> s[p] != s[q]
    ensures multiset(s)[x] <= 1
  {
    if s != [] {
      var init, last := s[..|s| - 1], s[|s| - 1];
      assert s == init + [last];
      DistinctOnce(init, x);
      if last == x {
        assert x !in init;
      }
    }
  }

  lemma TwoCopies<T>(s: seq<T>, i: int, j: int)
    requires 0 <= i < j < |s| && s[i] == s[j]
    ensures multiset(s)[s[i]] >= 2
  {
    assert s == s[..i] + [s[i]] + s[i + 1..j] + [s[j]] + s[j + 1..];
  }

  // ---------------------------------------------------------------------
  // analyzePaymentMethods

  /** One entry of the result: `{ name, amount, percentage }`. */
  datatype MethodRow = MethodRow(name: string, amount: real, percentage: real)

  predicate Undocumented(t: Transaction)
  {
    !HasDocument(t)
  }

  /** `total > 0 ? (amount / total) * 100 : 0` */
  function Share(amount: real, total: real): (pct: real)
    ensures total <= 0.0 ==> pct == 0.0
    ensures total > 0.0 ==> pct * total == amount * 100.0
  {
    if total > 0.0 then (amount / total) * 100.0 else 0.0
  }

  /** The two keys of the `methods` record, in insertion order. */
  datatype PaymentMethod = DigitalBank | Cash

  function MethodLabel(m: PaymentMethod): string
  {
    match m
    case DigitalBank => "Digital/Bank"
    case Cash => "Cash"
  }

  /** A transaction with a source document counts as 'Digital/Bank', any other as 'Cash'. */
  function MethodOf(t: Transaction): (m: PaymentMethod)
    ensures m == DigitalBank <==> HasDocument(t)
  {
    if HasDocument(t) then DigitalBank else Cash
  }

  /** The total of the transactions of ts paid by method m. */
  function PaidBy(ts: seq<Transaction>, m: PaymentMethod): real
  {
    if ts == [] then 0.0
    else PaidBy(ts[..|ts| - 1], m) + (if MethodOf(ts[|ts| - 1]) == m then ts[|ts| - 1].amount else 0.0)
  }

  /** One more transaction adds its amount to its own method and leaves the other unchanged. */
  lemma PaidByAppend(ts: seq<Transaction>, t: Transaction, m: PaymentMethod)
    ensures PaidBy(ts + [t], m) == PaidBy(ts, m) + (if MethodOf(t) == m then t.amount else 0.0)
  {
    assert (ts + [t])[..|ts + [t]| - 1] == ts;
  }

  /** 'Digital/Bank' totals the documented transactions, 'Cash' all the others. */
  lemma {:induction false} PaidByFilters(ts: seq<Transaction>)
    ensures PaidBy(ts, DigitalBank) == SumAmounts(Filter(ts, HasDocument))
    ensures PaidBy(ts, Cash) == SumAmounts(Filter(ts, Undocumented))
  {
    if ts != [] {
      var init, t := ts[..|ts| - 1], ts[|ts| - 1];
      PaidByFilters(init);
      FilteredSumStep(ts, HasDocument);
      FilteredSumStep(ts, Undocumented);
    }
  }

  /** The `methods` record after the forEach over ts. */
  function MethodTotals(ts: seq<Transaction>): map<PaymentMethod, real>
  {
    map[DigitalBank := PaidBy(ts, DigitalBank), Cash := PaidBy(ts, Cash)]
  }

  lemma MethodTotalsAppend(ts: seq<Transaction>, t: Transaction)
    ensures var m, before := MethodOf(t), MethodTotals(ts);
      MethodTotals(ts + [t]) == before[m := before[m] + t.amount]
  {
    PaidByAppend(ts, t, DigitalBank);
    PaidByAppend(ts, t, Cash);
  }

  /** Every amount goes to exactly one of the two methods. */
  lemma {:induction false} MethodsSplitTotal(ts: seq<Transaction>)
    ensures PaidBy(ts, DigitalBank) + PaidBy(ts, Cash) == SumAmounts(ts)
  {
    if ts != [] {
      var init, t := ts[..|ts| - 1], ts[|ts| - 1];
      MethodsSplitTotal(init);
      assert ts == init + [t];
      PaidByAppend(init, t, DigitalBank);
      PaidByAppend(init, t, Cash);
      SumAmountsSnoc(init, t);
    }
  }

  /** The two rows of analyzePaymentMethods: documented transactions, then the rest. */
  function MethodRows(ts: seq<Transaction>): (rows: seq<MethodRow>)
    ensures |rows| == 2 && rows[0].name == "Digital/Bank" && rows[1].name == "Cash"
  {
    var total := SumAmounts(ts);
    [MethodRow("Digital/Bank", PaidBy(ts, DigitalBank), Share(PaidBy(ts, DigitalBank), total)),
     MethodRow("Cash", PaidBy(ts, Cash), Share(PaidBy(ts, Cash), total))]
  }

  /**
   * analyzePaymentMethods: the record starts with 'Digital/Bank' and 'Cash'
   * at 0, every amount goes to its method, and each row gets its share of
   * the total of both.
   */
  method AnalyzePaymentMethods(ts: seq<Transaction>) returns (result: seq<MethodRow>)
    ensures result == MethodRows(ts)
  {
    var methods: map<PaymentMethod, real> := map[DigitalBank := 0.0, Cash := 0.0];
    var i := 0;
    while i < |ts|
      invariant 0 <= i <= |ts|
      invariant methods == MethodTotals(ts[..i])
    {
      var t := ts[i];
      var m := MethodOf(t);
      methods := methods[m := methods[m] + t.amount];
      MethodTotalsAppend(ts[..i], t);
      assert ts[..i + 1] == ts[..i] + [t];
      i := i + 1;
    }
    assert ts[..i] == ts;
    var total := methods[DigitalBank] + methods[Cash];
    result := [ MethodRow(MethodLabel(DigitalBank), methods[DigitalBank], Share(methods[DigitalBank], total)),
                MethodRow(MethodLabel(Cash), methods[Cash], Share(methods[Cash], total)) ];
    MethodsSplitTotal(ts);
  }

  /**
   * The two rows: 'Digital/Bank' totals the documented transactions, 'Cash'
   * the others, together they total every amount, and each has its share
   * of that total.
   */
  lemma MethodRowsPromise(ts: seq<Transaction>)
    ensures var rows := MethodRows(ts);
      && rows[0].amount == SumAmounts(Filter(ts, HasDocument))
      && rows[1].amount == SumAmounts(Filter(ts, Undocumented))
      && rows[0].amount + rows[1].amount == SumAmounts(ts)
      && (forall i :: 0 <= i < 2 ==> rows[i].percentage == Share(rows[i].amount, rows[0].amount + rows[1].amount))
  {
    MethodsSplitTotal(ts);
    PaidByFilters(ts);
  }

  /** With a positive total the two shares add up to 100; with non-negative amounts each lies in 0..100. */
  lemma SharesSumTo100(digital: real, cash: real)
    requires digital + cash > 0.0
    ensures Share(digital, digital + cash) + Share(cash, digital + cash) == 100.0
    ensures digital >= 0.0 && cash >= 0.0 ==>
      0.0 <= Share(digital, digital + cash) <= 100.0 && 0.0 <= Share(cash, digital + cash) <= 100.0
  {
    var total := digital + cash;
    var d, c := Share(digital, total), Share(cash, total);
    assert d + c == (digital / total + cash / total) * 100.0;
    assert digital / total + cash / total == total / total == 1.0;
    if digital >= 0.0 && cash >= 0.0 {
      RateOrder(d, digital, total);
      RateOrder(c, cash, total);
    }
  }
}
