/**
 * formatReportData of src/lib/reportUtils.ts: the whole report object,
 * assembled from the figures of ReportMetrics, the ledger of ReportUtils,
 * the tables of ReportTables and the insights of ReportInsights. The
 * clock is a parameter.
 */
module ReportData {
  import opened Transactions
  import opened CreditAnalysis
  import opened ReportMetrics
  import opened ReportUtils
  import opened ReportTables
  import opened ReportInsights

  /** `CRW-${YYYYMMDD}-${score}`: the date of the report and the score. */
  datatype ReportId = ReportId(date: Date, score: int)

  datatype Summary = Summary(reportId: ReportId, reportDate: Date, assessmentPeriod: Period, businessId: string)

  datatype CreditSummary = CreditSummary(total: int, riskLevel: RiskLevel, components: Components, approvalProbability: real)

  datatype LoanTerms = LoanTerms(maxAmount: int, interestRate: string, monthlyRepayment: int, recommendedTenure: string)

  datatype FinancialMetrics = FinancialMetrics(
    totalIncome: real,
    totalExpenses: real,
    netProfit: real,
    profitMargin: real,
    avgMonthlyIncome: real,
    avgMonthlyExpenses: real,
    avgMonthlyProfit: real,
    currentBalance: real,
    emergencyBuffer: real)

  datatype TransactionAnalysis = TransactionAnalysis(
    totalCount: int,
    avgDailyTransactions: real,
    documentationRate: real,
    verifiedCount: int,
    categories: seq<CategoryRow>,
    paymentMethods: seq<MethodRow>)

  datatype Report = Report(
    summary: Summary,
    creditScore: CreditSummary,
    loanEligibility: LoanTerms,
    financialMetrics: FinancialMetrics,
    transactionAnalysis: TransactionAnalysis,
    monthlyBreakdown: Ledger,
    insights: seq<Insight>)

  /** `(transactions[0] as any)?.userId || 'N/A'` */
  function BusinessId(ts: seq<Transaction>): (id: string)
    ensures id != ""
    ensures ts != [] && ts[0].userId != "" ==> id == ts[0].userId
  {
    if ts != [] && ts[0].userId != "" then ts[0].userId else "N/A"
  }

  /** The number of transactions with a document does not depend on their order. */
  lemma DocumentedCountPermutation(s: seq<Transaction>, t: seq<Transaction>)
    requires multiset(s) == multiset(t)
    ensures DocumentedCount(s) == DocumentedCount(t)
    ensures DocumentationRate(s) == DocumentationRate(t)
  {
    FilterPermutation(s, t, HasDocument);
    assert |multiset(Filter(s, HasDocument))| == |multiset(Filter(t, HasDocument))|;
    assert |multiset(s)| == |multiset(t)|;
  }

  /**
   * The financialMetrics block: the totals, the margin, the monthly
   * averages over the months of the period, the balance and the months of
   * expenses it would cover.
   */
  function Metrics(totalIncome: real, totalExpenses: real, currentBalance: real, numMonths: int): (m: FinancialMetrics)
    requires numMonths >= 1
    ensures m.netProfit == totalIncome - totalExpenses
    ensures m.avgMonthlyIncome * numMonths as real == totalIncome
    ensures m.avgMonthlyExpenses * numMonths as real == totalExpenses
    ensures m.avgMonthlyProfit * numMonths as real == m.netProfit
  {
    var netProfit := totalIncome - totalExpenses;
    var avgMonthlyExpenses := totalExpenses / numMonths as real;
    FinancialMetrics(totalIncome, totalExpenses, netProfit, ProfitMargin(totalIncome, totalExpenses),
                     totalIncome / numMonths as real, avgMonthlyExpenses, netProfit / numMonths as real,
                     currentBalance, EmergencyBuffer(currentBalance, avgMonthlyExpenses))
  }

  /**
   * The report formatReportData builds from the caller's transactions in
   * their own order: the totals read that order, everything else reads them
   * sorted by date, as groupByMonth leaves them.
   */
  function ReportOf(original: seq<Transaction>, score: ScoreResult, now: Date): Report
  {
    var sorted := SortByDate(original);
    var period := AssessmentPeriod(sorted);
    var numMonths := NumMonths(period);
    var metrics := Metrics(TotalIncome(original), TotalExpenses(original), CurrentBalance(sorted), numMonths);
    var risk := RiskLevelOf(score.creditScore);
    Report(
      Summary(ReportId(now, score.creditScore), now, period, BusinessId(sorted)),
      CreditSummary(score.creditScore, risk, ScoreComponents(score.factors), ApprovalProbability(score.creditScore)),
      LoanTerms(LoanEligibility(metrics.avgMonthlyIncome, risk), InterestRate(risk),
                RepaymentCapacity(metrics.avgMonthlyIncome), "12-18 months"),
      metrics,
      TransactionAnalysis(|sorted|, |sorted| as real / (numMonths * 30) as real,
                          DocumentationRate(sorted), DocumentedCount(sorted),
                          CategoryDistribution(sorted), MethodRows(sorted)),
      MonthlyLedger(sorted),
      Pick(Rules, score, metrics.totalIncome, metrics.totalExpenses, sorted))
  }

  /**
   * formatReportData. The totals are taken over the caller's order; then
   * groupByMonth sorts the caller's array by date in place, and everything
   * after it (categories, payment methods, the balance, the period, the
   * business id and the insights) reads the sorted array.
   */
  method FormatReportData(a: array<Transaction>, score: ScoreResult, now: Date) returns (report: Report)
    modifies a
    ensures a[..] == SortByDate(old(a[..]))
    ensures report == ReportOf(old(a[..]), score, now)
  {
    ghost var original := a[..];
    var totalIncome := TotalIncome(a[..]);
    var totalExpenses := TotalExpenses(a[..]);

    var monthlyData := ReportUtils.GroupByMonth(a);
    var sorted := a[..];
    var categories := AnalyzeCategoryDistribution(sorted);
    var paymentMethods := AnalyzePaymentMethods(sorted);

    var assessmentPeriod := AssessmentPeriod(sorted);
    var numMonths := NumMonths(assessmentPeriod);
    var metrics := Metrics(totalIncome, totalExpenses, CurrentBalance(sorted), numMonths);

    var insights := GenerateInsights(score, totalIncome, totalExpenses, sorted);
    var risk := RiskLevelOf(score.creditScore);

    report := Report(
      Summary(ReportId(now, score.creditScore), now, assessmentPeriod, BusinessId(sorted)),
      CreditSummary(score.creditScore, risk, ScoreComponents(score.factors), ApprovalProbability(score.creditScore)),
      LoanTerms(LoanEligibility(metrics.avgMonthlyIncome, risk), InterestRate(risk),
                RepaymentCapacity(metrics.avgMonthlyIncome), "12-18 months"),
      metrics,
      TransactionAnalysis(|sorted|, |sorted| as real / (numMonths * 30) as real,
                          DocumentationRate(sorted), DocumentedCount(sorted), categories, paymentMethods),
      monthlyData,
      insights);
    assert sorted == SortByDate(original);
  }

  /** Sorting keeps every date valid. */
  lemma SortedDatesValid(ts: seq<Transaction>)
    requires AllValidDates(ts)
    ensures AllValidDates(SortByDate(ts))
  {
    var sorted := SortByDate(ts);
    forall i | 0 <= i < |sorted| ensures ValidDate(sorted[i].date) {
      assert sorted[i] in multiset(ts);
    }
  }

  /** The balance the report shows is its net profit: income minus expenses, whatever their order. */
  lemma ReportBalanceIsNetProfit(original: seq<Transaction>, score: ScoreResult, now: Date)
    ensures var m := ReportOf(original, score, now).financialMetrics;
      m.currentBalance == m.netProfit == TotalIncome(original) - TotalExpenses(original)
  {
    var sorted := SortByDate(original);
    BalancePermutation(original, sorted);
    BalanceIsNet(original);
  }

  /**
   * The counts do not depend on the caller's order: every transaction is
   * counted once, the documented ones are those of the caller's list, and
   * the category counts add up to the transactions.
   */
  lemma ReportCounts(original: seq<Transaction>, score: ScoreResult, now: Date)
    ensures var t := ReportOf(original, score, now).transactionAnalysis;
      && t.totalCount == |original|
      && t.verifiedCount == DocumentedCount(original)
      && t.documentationRate == DocumentationRate(original)
      && TotalCount(t.categories) == |original|
  {
    var sorted := SortByDate(original);
    DocumentedCountPermutation(original, sorted);
    CategoryCountsSum(sorted);
  }

  /** The payment methods split the total of the caller's transactions: documented ones, then the rest. */
  lemma ReportPaymentMethods(original: seq<Transaction>, score: ScoreResult, now: Date)
    ensures var methods := ReportOf(original, score, now).transactionAnalysis.paymentMethods;
      && methods[0].amount + methods[1].amount == SumAmounts(original)
      && methods[0].amount == SumAmounts(Filter(original, HasDocument))
      && methods[1].amount == SumAmounts(Filter(original, Undocumented))
  {
    var sorted := SortByDate(original);
    MethodsSplitTotal(sorted);
    SumAmountsPermutation(original, sorted);
    PaidByFilters(sorted);
    FilterPermutation(original, sorted, HasDocument);
    SumAmountsPermutation(Filter(original, HasDocument), Filter(sorted, HasDocument));
    FilterPermutation(original, sorted, Undocumented);
    SumAmountsPermutation(Filter(original, Undocumented), Filter(sorted, Undocumented));
  }

  /**
   * A history within one calendar month is a period of one month, so the
   * monthly averages are the totals themselves.
   */
  lemma SingleMonthAverages(original: seq<Transaction>, score: ScoreResult, now: Date)
    requires original != []
    requires forall i :: 0 <= i < |original| ==> KeyOf(original[i].date) == KeyOf(original[0].date)
    ensures var r := ReportOf(original, score, now);
      && r.summary.assessmentPeriod.months == 1
      && r.financialMetrics.avgMonthlyIncome == TotalIncome(original)
      && r.financialMetrics.avgMonthlyExpenses == TotalExpenses(original)
      && r.financialMetrics.avgMonthlyProfit == r.financialMetrics.netProfit
  {
    var sorted := SortByDate(original);
    forall i | 0 <= i < |sorted| ensures KeyOf(sorted[i].date) == KeyOf(sorted[0].date) {
      assert sorted[i] in multiset(original) && sorted[0] in multiset(original);
    }
    SingleMonthPeriod(sorted);
  }

  /** With valid dates, the running balance of the last month of the breakdown is the balance the report shows. */
  lemma ReportLastMonth(original: seq<Transaction>, score: ScoreResult, now: Date)
    requires AllValidDates(original) && original != []
    ensures var r := ReportOf(original, score, now);
      var l := r.monthlyBreakdown;
      |l.keys| > 0 && l.keys[|l.keys| - 1] in l.rows
      && l.rows[l.keys[|l.keys| - 1]].balance == r.financialMetrics.currentBalance
  {
    SortedDatesValid(original);
    LastBucketIsBalance(SortByDate(original));
  }
}
