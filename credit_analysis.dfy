/**
 * The feature extractor of src/lib/credit-analysis.ts: a transaction list
 * becomes five factor scores, each an integer in 0..100.
 */
module CreditAnalysis {
  import opened Numbers
  import opened Transactions

  datatype Factors = Factors(
    billPaymentHistory: int,
    incomeConsistency: int,
    expenseManagement: int,
    financialGrowth: int,
    transactionDiversity: int)

  predicate InRange(f: Factors)
  {
    && 0 <= f.billPaymentHistory <= 100
    && 0 <= f.incomeConsistency <= 100
    && 0 <= f.expenseManagement <= 100
    && 0 <= f.financialGrowth <= 100
    && 0 <= f.transactionDiversity <= 100
  }

  // Scores used when there is not enough data for a factor.
  const EmptyHistoryScore := 50
  const NoBillsScore := 40
  const NoIncomeConsistencyScore := 30
  const NoIncomeExpenseScore := 40
  const NoGrowthDataScore := 50
  const NoIncomeDiversityScore := 30

  // ---------------------------------------------------------------------
  // groupByMonth: a record from `YYYY-MM` keys to the transactions of that month

  /** The record groupByMonth builds: its keys in insertion order and the arrays behind them. */
  datatype MonthGroups = MonthGroups(keys: seq<MonthKey>, members: map<MonthKey, seq<Transaction>>)

  ghost predicate Distinct<T>(s: seq<T>)
  {
    forall i, j :: 0 <= i < j < |s| ==> s[i] != s[j]
  }

  /** The transactions of ts that fall in month k, in list order. */
  function InMonth(ts: seq<Transaction>, k: MonthKey): seq<Transaction>
  {
    if ts == [] then []
    else InMonth(ts[..|ts| - 1], k) + (if KeyOf(ts[|ts| - 1].date) == k then [ts[|ts| - 1]] else [])
  }

  /** The months some transaction of ts falls in. */
  function MonthsOf(ts: seq<Transaction>): set<MonthKey>
  {
    set t | t in ts :: KeyOf(t.date)
  }

  lemma {:induction false} InMonthEmptyIff(ts: seq<Transaction>, k: MonthKey)
    ensures InMonth(ts, k) != [] <==> k in MonthsOf(ts)
  {
    if ts != [] {
      var init, t := ts[..|ts| - 1], ts[|ts| - 1];
      InMonthEmptyIff(init, k);
      assert ts == init + [t];
      assert MonthsOf(ts) == MonthsOf(init) + {KeyOf(t.date)};
    }
  }

  /**
   * The reduce of groupByMonth: each transaction is pushed onto the array of
   * its month, a month seen for the first time is added as a new key.
   */
  function GroupByMonth(ts: seq<Transaction>): (g: MonthGroups)
    ensures Distinct(g.keys)
    ensures forall k :: k in g.keys <==> k in g.members
  {
    if ts == [] then MonthGroups([], map[])
    else
      var init, t := ts[..|ts| - 1], ts[|ts| - 1];
      var g := GroupByMonth(init);
      var k := KeyOf(t.date);
      if k in g.members then
        MonthGroups(g.keys, g.members[k := g.members[k] + [t]])
      else
        MonthGroups(g.keys + [k], g.members[k := [t]])
  }

  /** groupByMonth has a key for exactly the months of ts, holding that month's transactions in list order. */
  lemma GroupMembers(ts: seq<Transaction>, k: MonthKey)
    ensures k in GroupByMonth(ts).members <==> k in MonthsOf(ts)
    ensures k in GroupByMonth(ts).members ==> GroupByMonth(ts).members[k] == InMonth(ts, k) != []
  {
    GroupHoldsMonth(ts, k);
    InMonthEmptyIff(ts, k);
  }

  lemma {:induction false} GroupHoldsMonth(ts: seq<Transaction>, k: MonthKey)
    ensures k in GroupByMonth(ts).members <==> InMonth(ts, k) != []
    ensures k in GroupByMonth(ts).members ==> GroupByMonth(ts).members[k] == InMonth(ts, k)
  {
    if ts != [] {
      GroupHoldsMonth(ts[..|ts| - 1], k);
    }
  }

  lemma {:induction false} DistinctCardinality<T>(s: seq<T>)
    requires Distinct(s)
    ensures |set x | x in s| == |s|
  {
    if s != [] {
      var init, last := s[..|s| - 1], s[|s| - 1];
      assert s == init + [last];
      DistinctCardinality(init);
      assert (set x | x in s) == (set x | x in init) + {last};
      assert last !in (set x | x in init);
    }
  }

  /** groupByMonth yields one key per distinct month. */
  lemma GroupCountsMonths(ts: seq<Transaction>)
    ensures |GroupByMonth(ts).keys| == |MonthsOf(ts)|
  {
    var g := GroupByMonth(ts);
    DistinctCardinality(g.keys);
    forall k ensures k in g.keys <==> k in MonthsOf(ts) {
      GroupMembers(ts, k);
    }
    assert (set x | x in g.keys) == MonthsOf(ts);
  }

  /** `Object.values(groups).map(txns => txns.reduce((sum, t) => sum + t.amount, 0))` */
  function MonthlyTotals(g: MonthGroups): (totals: seq<real>)
    requires forall k :: k in g.keys ==> k in g.members
    ensures |totals| == |g.keys|
  {
    seq(|g.keys|, i requires 0 <= i < |g.keys| => SumAmounts(g.members[g.keys[i]]))
  }

  // ---------------------------------------------------------------------
  // 1. Bill payment history

  const BillKeywords: seq<string> := ["utilities", "rent", "phone", "internet", "subscription"]

  /** String.prototype.toLowerCase on the ASCII letters. */
  function LowerChar(c: char): char
  {
    if 'A' <= c <= 'Z' then (c as int + 32) as char else c
  }

  function Lower(s: string): (r: string)
    ensures |r| == |s| && forall i :: 0 <= i < |s| ==> r[i] == LowerChar(s[i])
  {
    if s == [] then [] else [LowerChar(s[0])] + Lower(s[1..])
  }

  /** String.prototype.includes: p occurs in s at some position. */
  predicate Includes(s: string, p: string)
  {
    p <= s || (s != [] && Includes(s[1..], p))
  }

  lemma {:induction false} IncludesAt(s: string, p: string, i: nat)
    requires i + |p| <= |s| && s[i..i + |p|] == p
    ensures Includes(s, p)
  {
    if i > 0 {
      assert s[1..][i - 1..i - 1 + |p|] == p;
      IncludesAt(s[1..], p, i - 1);
    }
  }

  /** `keywords.some(cat => s.includes(cat))` */
  predicate SomeIncluded(s: string, keywords: seq<string>)
  {
    keywords != [] && (Includes(s, keywords[0]) || SomeIncluded(s, keywords[1..]))
  }

  /** An expense whose lower-cased category mentions one of the bill keywords. */
  predicate IsBill(t: Transaction)
  {
    t.kind == Expense && SomeIncluded(Lower(t.category), BillKeywords)
  }

  /** The months in which some bill was paid. */
  function BillMonths(ts: seq<Transaction>): set<MonthKey>
  {
    set t | t in ts && IsBill(t) :: KeyOf(t.date)
  }

  /**
   * calculateBillPaymentHistory: 40 without bills, otherwise the share of a
   * three-month span that has a bill, as a rounded percentage capped at 100.
   */
  function BillPaymentHistory(ts: seq<Transaction>): (score: int)
    ensures 0 <= score <= 100
    ensures BillMonths(ts) == {} ==> score == NoBillsScore
    ensures |BillMonths(ts)| == 1 ==> score == 33
    ensures |BillMonths(ts)| == 2 ==> score == 67
    ensures |BillMonths(ts)| >= 3 ==> score == 100
  {
    var bills := Filter(ts, IsBill);
    var months := MonthsOf(bills);
    assert months == BillMonths(ts);
    if |bills| == 0 then
      NoBillsScore
    else
      var n := |GroupByMonth(bills).keys|;
      GroupCountsMonths(bills);
      assert n >= 1 by { assert bills[0] in bills; assert KeyOf(bills[0].date) in months; }
      Round(Min(100.0, (n as real / 3.0) * 100.0))
  }

  // ---------------------------------------------------------------------
  // 2. Income consistency

  /** The coefficient of variation the code uses: stdDev / mean, or 1 when the mean is not positive. */
  function Cv(totals: seq<real>, sd: real): real
    requires |totals| > 0
  {
    if Mean(totals) > 0.0 then sd / Mean(totals) else 1.0
  }

  /** Math.round(Math.max(0, Math.min(100, 100 - cv * 50))) */
  function CvScore(cv: real): int
  {
    Round(Clamp(100.0 - cv * 50.0, 0.0, 100.0))
  }

  /**
   * 2500·v ≤ ((100.5 − k)·m)². For sd the square root of v and m > 0 this
   * holds exactly when k − 0.5 ≤ 100 − 50·sd/m, i.e. when the rounded score
   * is at least k; it lets the score be computed without a square root.
   */
  predicate Reaches(v: real, m: real, k: int)
  {
    var bound := (100.5 - k as real) * m;
    2500.0 * v <= bound * bound
  }

  /** The largest k' in 1..k with Reaches(v, m, k'), or 0. */
  function CvSearch(v: real, m: real, k: nat): (score: int)
    requires k <= 100
    ensures 0 <= score <= k
  {
    if k == 0 then 0 else if Reaches(v, m, k) then k else CvSearch(v, m, k - 1)
  }

  lemma ReachesIff(v: real, m: real, sd: real, k: int)
    requires IsSqrt(v, sd) && m > 0.0 && 1 <= k <= 100
    ensures Reaches(v, m, k) <==> k <= CvScore(sd / m)
  {
    var a := 50.0 * sd;
    var b := (100.5 - k as real) * m;
    ProductNonNegative(100.5 - k as real, m);
    assert 2500.0 * v == a * a;
    SquareOrder(a, b);
    var cv := sd / m;
    assert cv >= 0.0;
    assert cv * m == sd;
    var y := 100.0 - cv * 50.0;
    // a <= b  <==>  k - 0.5 <= y
    assert b - a == (100.5 - k as real - cv * 50.0) * m;
    if a <= b {
      ProductNonNegative(b - a, 1.0 / m);
      assert (b - a) * (1.0 / m) == 100.5 - k as real - cv * 50.0;
    } else {
      ProductPositive(a - b, 1.0 / m);
      assert (a - b) * (1.0 / m) == cv * 50.0 - 100.5 + k as real;
    }
    assert a <= b <==> k as real - 0.5 <= y;
  }

  lemma {:induction false} CvSearchIsScore(v: real, m: real, sd: real, k: nat)
    requires IsSqrt(v, sd) && m > 0.0 && k <= 100
    ensures CvSearch(v, m, k) == if k <= CvScore(sd / m) then k else CvScore(sd / m)
  {
    if k > 0 {
      ReachesIff(v, m, sd, k);
      CvSearchIsScore(v, m, sd, k - 1);
    }
  }

  /**
   * The income consistency score of a non-empty list of monthly totals,
   * computed without a square root. Whatever non-negative sd squares to the
   * variance, it is the score the code computes from cv = sd / mean.
   */
  function ConsistencyOfTotals(totals: seq<real>): (score: int)
    requires |totals| > 0
    ensures 0 <= score <= 100
    ensures Mean(totals) <= 0.0 ==> score == 50
    ensures forall sd :: IsSqrt(Variance(totals), sd) ==> score == CvScore(Cv(totals, sd))
  {
    var m := Mean(totals);
    if m <= 0.0 then
      CvScore(1.0)
    else
      var v := Variance(totals);
      CvSearchAll(v, m);
      CvSearch(v, m, 100)
  }

  lemma CvSearchAll(v: real, m: real)
    requires m > 0.0
    ensures forall sd :: IsSqrt(v, sd) ==> CvSearch(v, m, 100) == CvScore(sd / m)
  {
    forall sd | IsSqrt(v, sd) ensures CvSearch(v, m, 100) == CvScore(sd / m) {
      CvSearchIsScore(v, m, sd, 100);
    }
  }

  /** The per-month income totals, in the order groupByMonth creates the months. */
  function MonthlyIncomeTotals(ts: seq<Transaction>): seq<real>
  {
    MonthlyTotals(GroupByMonth(Incomes(ts)))
  }

  /** calculateIncomeConsistency */
  function IncomeConsistency(ts: seq<Transaction>): (score: int)
    ensures 0 <= score <= 100
    ensures Incomes(ts) == [] ==> score == NoIncomeConsistencyScore
  {
    var incomes := Incomes(ts);
    if |incomes| == 0 then NoIncomeConsistencyScore
    else
      var totals := MonthlyIncomeTotals(ts);
      if |totals| == 0 then NoIncomeConsistencyScore
      else ConsistencyOfTotals(totals)
  }

  /** With some income, there is at least one income month, so the second fallback is never taken. */
  lemma IncomeMonthsNonEmpty(ts: seq<Transaction>)
    requires Incomes(ts) != []
    ensures |MonthlyIncomeTotals(ts)| >= 1
  {
    var incomes := Incomes(ts);
    assert KeyOf(incomes[0].date) in MonthsOf(incomes);
    GroupCountsMonths(incomes);
  }

  /** The score is the code's formula for any square root of the variance of the monthly totals. */
  lemma IncomeConsistencyIsCvScore(ts: seq<Transaction>, sd: real)
    requires Incomes(ts) != []
    requires IsSqrt(Variance(MonthlyIncomeTotals(ts)), sd) || MonthlyIncomeTotals(ts) == []
    ensures MonthlyIncomeTotals(ts) != []
    ensures IncomeConsistency(ts) == CvScore(Cv(MonthlyIncomeTotals(ts), sd))
  {
    IncomeMonthsNonEmpty(ts);
  }

  /** Equal positive monthly totals (one income month included) mean cv = 0 and a score of 100. */
  lemma SteadyIncomeScoresFull(ts: seq<Transaction>, c: real)
    requires Incomes(ts) != []
    requires c > 0.0 && AllEqual(MonthlyIncomeTotals(ts), c)
    ensures IncomeConsistency(ts) == 100
  {
    var totals := MonthlyIncomeTotals(ts);
    IncomeMonthsNonEmpty(ts);
    ConstantHasNoVariance(totals, c);
    assert IsSqrt(Variance(totals), 0.0);
    assert Cv(totals, 0.0) == 0.0;
  }

  /** A non-positive mean monthly income is scored as cv = 1, i.e. 50. */
  lemma NonPositiveMeanScoresHalf(ts: seq<Transaction>)
    requires Incomes(ts) != []
    requires MonthlyIncomeTotals(ts) != [] && Mean(MonthlyIncomeTotals(ts)) <= 0.0
    ensures IncomeConsistency(ts) == 50
  {
  }

  // ---------------------------------------------------------------------
  // 3. Expense management

  /** The piecewise-linear score of the expense/income ratio, before clamping and rounding. */
  function ExpenseRatioScore(ratio: real): real
  {
    if ratio < 0.7 then 100.0 - ratio * 70.0
    else if ratio < 0.9 then 60.0 - (ratio - 0.7) * 100.0
    else Max(20.0, 40.0 - (ratio - 0.9) * 100.0)
  }

  /** The expense/income ratio over absolute amounts, when there is income. */
  function ExpenseRatio(ts: seq<Transaction>): real
    requires SumAbsAmounts(Incomes(ts)) != 0.0
  {
    SumAbsAmounts(Expenses(ts)) / SumAbsAmounts(Incomes(ts))
  }

  /** calculateExpenseManagement */
  function ExpenseManagement(ts: seq<Transaction>): (score: int)
    ensures 20 <= score <= 100
    ensures SumAbsAmounts(Incomes(ts)) == 0.0 ==> score == NoIncomeExpenseScore
  {
    var income := SumAbsAmounts(Incomes(ts));
    var expenses := SumAbsAmounts(Expenses(ts));
    if income == 0.0 then NoIncomeExpenseScore
    else
      var ratio := expenses / income;
      assert ratio >= 0.0;
      var s := Clamp(ExpenseRatioScore(ratio), 0.0, 100.0);
      RoundWithin(s, 20, 100);
      Round(s)
  }

  /** The three bands of the expense/income ratio. */
  lemma ExpenseManagementBands(ts: seq<Transaction>)
    requires SumAbsAmounts(Incomes(ts)) != 0.0
    ensures var r := ExpenseRatio(ts); var score := ExpenseManagement(ts);
      && (r < 0.7 ==> score == Round(100.0 - r * 70.0) && 51 <= score)
      && (0.7 <= r < 0.9 ==> score == Round(60.0 - (r - 0.7) * 100.0) && 40 <= score <= 60)
      && (0.9 <= r ==> score == Round(Max(20.0, 40.0 - (r - 0.9) * 100.0)) && 20 <= score <= 40)
  {
    var r := ExpenseRatio(ts);
    assert r >= 0.0;
    var s := Clamp(ExpenseRatioScore(r), 0.0, 100.0);
    if r < 0.7 {
      RoundWithin(s, 51, 100);
    } else if r < 0.9 {
      RoundWithin(s, 40, 60);
    } else {
      RoundWithin(s, 20, 40);
    }
  }

  /** Spending half of the income scores 100 − 0.5·70 = 65. */
  lemma HalfSpentScores65(ts: seq<Transaction>)
    requires SumAbsAmounts(Incomes(ts)) != 0.0 && ExpenseRatio(ts) == 0.5
    ensures ExpenseManagement(ts) == 65
  {
    ExpenseManagementBands(ts);
    RoundUnique(100.0 - 0.5 * 70.0, 65);
  }

  // ---------------------------------------------------------------------
  // 4. Financial growth

  /** The first key in sorted order: `Object.keys(groups).sort()[0]`. */
  function EarliestKey(keys: seq<MonthKey>): (k: MonthKey)
    requires |keys| > 0
    ensures k in keys
    ensures forall j :: j in keys ==> j == k || KeyLt(k, j)
  {
    if |keys| == 1 then keys[0]
    else
      var rest := EarliestKey(keys[1..]);
      assert forall j :: j in keys ==> j == keys[0] || j in keys[1..];
      if KeyLt(keys[0], rest) then keys[0] else rest
  }

  /** The last key in sorted order: `months[months.length - 1]`. */
  function LatestKey(keys: seq<MonthKey>): (k: MonthKey)
    requires |keys| > 0
    ensures k in keys
    ensures forall j :: j in keys ==> j == k || KeyLt(j, k)
  {
    if |keys| == 1 then keys[0]
    else
      var rest := LatestKey(keys[1..]);
      assert forall j :: j in keys ==> j == keys[0] || j in keys[1..];
      if KeyLt(rest, keys[0]) then keys[0] else rest
  }

  /** The growth-rate score before clamping: the two lower bands share one formula. */
  function GrowthRateScore(g: real): real
  {
    if g > 0.1 then 60.0 + g * 200.0
    else if g > -0.1 then 50.0 + g * 100.0
    else 50.0 + g * 100.0
  }

  function GrowthScore(g: real): (score: int)
    ensures 0 <= score <= 100
  {
    var s := Clamp(GrowthRateScore(g), 0.0, 100.0);
    RoundWithin(s, 0, 100);
    Round(s)
  }

  /** Income totals of the earliest and of the latest month of a grouping. */
  function FirstAndLast(g: MonthGroups): (real, real)
    requires |g.keys| > 0 && forall k :: k in g.keys ==> k in g.members
  {
    (SumAmounts(g.members[EarliestKey(g.keys)]), SumAmounts(g.members[LatestKey(g.keys)]))
  }

  /** The growth score from the first and last month totals: 50 when the first month earned nothing. */
  function GrowthFromEnds(first: real, last: real): (score: int)
    ensures 0 <= score <= 100
    ensures first == 0.0 ==> score == NoGrowthDataScore
  {
    if first == 0.0 then NoGrowthDataScore else GrowthScore((last - first) / first)
  }

  /** calculateFinancialGrowth */
  function FinancialGrowth(ts: seq<Transaction>): (score: int)
    ensures 0 <= score <= 100
    ensures |Incomes(ts)| < 2 || |MonthsOf(Incomes(ts))| < 2 ==> score == NoGrowthDataScore
  {
    var incomes := Incomes(ts);
    GroupCountsMonths(incomes);
    if |incomes| < 2 then NoGrowthDataScore
    else
      var g := GroupByMonth(incomes);
      if |g.keys| < 2 then NoGrowthDataScore
      else
        var (first, last) := FirstAndLast(g);
        GrowthFromEnds(first, last)
  }

  /**
   * With at least two income transactions in at least two months, the score
   * compares the income of the earliest month with that of the latest.
   */
  lemma FinancialGrowthComparesEnds(ts: seq<Transaction>)
    requires |Incomes(ts)| >= 2 && |MonthsOf(Incomes(ts))| >= 2
    ensures var g := GroupByMonth(Incomes(ts));
      && |g.keys| >= 2
      && var (first, last) := FirstAndLast(g);
      && FinancialGrowth(ts) == GrowthFromEnds(first, last)
  {
    var incomes := Incomes(ts);
    GroupCountsMonths(incomes);
    var g := GroupByMonth(incomes);
    assert |g.keys| >= 2;
    var (first, last) := FirstAndLast(g);
    assert FinancialGrowth(ts) == GrowthFromEnds(first, last);
  }

  /** The bands of the growth rate: strong growth scores at least 80, the rest follows 50 + 100·g. */
  lemma GrowthBands(g: real)
    ensures g > 0.1 ==> GrowthScore(g) == Round(Min(100.0, 60.0 + g * 200.0)) && GrowthScore(g) >= 80
    ensures -0.5 <= g <= 0.1 ==> GrowthScore(g) == Round(50.0 + g * 100.0) && 0 <= GrowthScore(g) <= 60
    ensures g < -0.5 ==> GrowthScore(g) == 0
  {
    var s := Clamp(GrowthRateScore(g), 0.0, 100.0);
    if g > 0.1 {
      RoundWithin(s, 80, 100);
    } else if g >= -0.5 {
      RoundWithin(s, 0, 60);
    } else {
      RoundUnique(s, 0);
    }
  }

  /** Income that grew from a positive first month scores at least the neutral 50, income that fell at most 50. */
  lemma GrowthDirection(first: real, last: real)
    requires first > 0.0
    ensures last >= first ==> GrowthFromEnds(first, last) >= NoGrowthDataScore
    ensures last <= first ==> GrowthFromEnds(first, last) <= NoGrowthDataScore
  {
    var g := (last - first) / first;
    assert g * first == last - first;
    SignOfProduct(g, first);
    RoundUnique(50.0, 50);
    assert GrowthScore(0.0) == 50;
    if last >= first {
      GrowthScoreMonotone(0.0, g);
    } else {
      GrowthScoreMonotone(g, 0.0);
    }
  }

  /** A higher growth rate never gives a lower score. */
  lemma GrowthScoreMonotone(g1: real, g2: real)
    requires g1 <= g2
    ensures GrowthScore(g1) <= GrowthScore(g2)
  {
    RoundMonotone(Clamp(GrowthRateScore(g1), 0.0, 100.0), Clamp(GrowthRateScore(g2), 0.0, 100.0));
  }

  // ---------------------------------------------------------------------
  // 5. Transaction diversity

  function IncomeCategories(ts: seq<Transaction>): set<string>
  {
    set t | t in ts && IsIncome(t) && t.category != "" :: t.category
  }

  function IncomeMerchants(ts: seq<Transaction>): set<string>
  {
    set t | t in ts && IsIncome(t) && t.merchant != "" :: t.merchant
  }

  /** calculateTransactionDiversity */
  function TransactionDiversity(ts: seq<Transaction>): (score: int)
    ensures 0 <= score <= 100
    ensures Incomes(ts) == [] ==> score == NoIncomeDiversityScore
  {
    var incomes := Incomes(ts);
    if |incomes| == 0 then NoIncomeDiversityScore
    else
      var categories := set t | t in incomes && t.category != "" :: t.category;
      var merchants := set t | t in incomes && t.merchant != "" :: t.merchant;
      var s := Clamp((|categories| * 20 + |merchants| * 10) as real, 0.0, 100.0);
      RoundWithin(s, 0, 100);
      Round(s)
  }

  /** With income, the score is 20 per distinct income category plus 10 per distinct payer, capped at 100. */
  lemma DiversityIsCappedCount(ts: seq<Transaction>)
    requires Incomes(ts) != []
    ensures var raw := 20 * |IncomeCategories(ts)| + 10 * |IncomeMerchants(ts)|;
      TransactionDiversity(ts) == if raw <= 100 then raw else 100
  {
    var incomes := Incomes(ts);
    assert (set t | t in incomes && t.category != "" :: t.category) == IncomeCategories(ts);
    assert (set t | t in incomes && t.merchant != "" :: t.merchant) == IncomeMerchants(ts);
    var raw := 20 * |IncomeCategories(ts)| + 10 * |IncomeMerchants(ts)|;
    RoundUnique(Clamp(raw as real, 0.0, 100.0), if raw <= 100 then raw else 100);
  }

  // ---------------------------------------------------------------------
  // analyzeTransactionsForCreditScore

  /**
   * analyzeTransactionsForCreditScore: the neutral 50s for an empty list,
   * otherwise the five factors of a date-sorted copy (the input list itself
   * is a value and cannot change).
   */
  function AnalyzeTransactions(ts: seq<Transaction>): (f: Factors)
    ensures InRange(f)
    ensures ts == [] ==> f == Factors(50, 50, 50, 50, 50)
    ensures ts != [] ==> f.expenseManagement >= 20
  {
    if |ts| == 0 then
      Factors(EmptyHistoryScore, EmptyHistoryScore, EmptyHistoryScore, EmptyHistoryScore, EmptyHistoryScore)
    else
      var sorted := SortByDate(ts);
      Factors(
        BillPaymentHistory(sorted),
        IncomeConsistency(sorted),
        ExpenseManagement(sorted),
        FinancialGrowth(sorted),
        TransactionDiversity(sorted))
  }
}
