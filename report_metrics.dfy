/**
 * The pure figures of src/lib/reportUtils.ts: totals and margins, the
 * assessment period, the risk level and the loan terms derived from it,
 * the approval-probability curve, the emergency buffer and the scaled
 * score components.
 */
module ReportMetrics {
  import opened Numbers
  import opened Transactions
  import opened CreditAnalysis
  import ScoreBreakdown

  // ---------------------------------------------------------------------
  // Totals, margin and balance

  /** `income.reduce((sum, t) => sum + t.amount, 0)` over the income transactions. */
  function TotalIncome(ts: seq<Transaction>): real
  {
    SumAmounts(Incomes(ts))
  }

  /** The same sum over the expense transactions (no Math.abs here). */
  function TotalExpenses(ts: seq<Transaction>): real
  {
    SumAmounts(Expenses(ts))
  }

  /** `totalIncome > 0 ? (netProfit / totalIncome) * 100 : 0` */
  function ProfitMargin(totalIncome: real, totalExpenses: real): (margin: real)
    ensures totalIncome <= 0.0 ==> margin == 0.0
    ensures totalIncome > 0.0 ==> (margin > 15.0 <==> totalExpenses < 0.85 * totalIncome)
    ensures totalIncome > 0.0 && totalExpenses >= 0.0 ==> margin <= 100.0
    ensures totalIncome > 0.0 ==> (margin >= 0.0 <==> totalExpenses <= totalIncome)
  {
    if totalIncome > 0.0 then
      var margin := ((totalIncome - totalExpenses) / totalIncome) * 100.0;
      assert margin * totalIncome == (totalIncome - totalExpenses) * 100.0;
      MarginOrder(margin, totalIncome, totalExpenses);
      margin
    else 0.0
  }

  lemma MarginOrder(margin: real, income: real, expenses: real)
    requires income > 0.0 && margin * income == (income - expenses) * 100.0
    ensures margin > 15.0 <==> expenses < 0.85 * income
    ensures margin >= 0.0 <==> expenses <= income
    ensures expenses >= 0.0 ==> margin <= 100.0
  {
    SignOfProduct(margin - 15.0, income);
    assert (margin - 15.0) * income == margin * income - 15.0 * income;
    SignOfProduct(margin, income);
    SignOfProduct(margin - 100.0, income);
    assert (margin - 100.0) * income == margin * income - 100.0 * income;
  }

  /** A transaction's effect on the balance: income adds, anything else subtracts. */
  function SignedAmount(t: Transaction): real
  {
    if t.kind == Income then t.amount else -t.amount
  }

  /** `transactions.reduce((bal, t) => bal + (t.type === 'income' ? t.amount : -t.amount), 0)` */
  function CurrentBalance(ts: seq<Transaction>): real
  {
    if ts == [] then 0.0 else CurrentBalance(ts[..|ts| - 1]) + SignedAmount(ts[|ts| - 1])
  }

  /** The balance is the income total minus the expense total. */
  lemma {:induction false} BalanceIsNet(ts: seq<Transaction>)
    ensures CurrentBalance(ts) == TotalIncome(ts) - TotalExpenses(ts)
  {
    if ts != [] {
      var init, t := ts[..|ts| - 1], ts[|ts| - 1];
      BalanceIsNet(init);
      assert SumAmounts([t]) == t.amount by { assert [t][..0] == []; }
      if t.kind == Income {
        assert Incomes(ts) == Incomes(init) + [t];
        assert Expenses(ts) == Expenses(init);
        SumAmountsAppend(Incomes(init), [t]);
      } else {
        assert Incomes(ts) == Incomes(init);
        assert Expenses(ts) == Expenses(init) + [t];
        SumAmountsAppend(Expenses(init), [t]);
      }
    }
  }

  /** The balance does not depend on the order of the transactions. */
  lemma BalancePermutation(s: seq<Transaction>, t: seq<Transaction>)
    requires multiset(s) == multiset(t)
    ensures CurrentBalance(s) == CurrentBalance(t)
    ensures TotalIncome(s) == TotalIncome(t) && TotalExpenses(s) == TotalExpenses(t)
  {
    FilterPermutation(s, t, IsIncome);
    FilterPermutation(s, t, IsExpense);
    SumAmountsPermutation(Incomes(s), Incomes(t));
    SumAmountsPermutation(Expenses(s), Expenses(t));
    BalanceIsNet(s);
    BalanceIsNet(t);
  }

  /** A transaction counts as documented when it carries a source document id. */
  predicate HasDocument(t: Transaction)
  {
    t.sourceDocumentId != ""
  }

  /** `transactions.filter(t => t.sourceDocumentId).length` */
  function DocumentedCount(ts: seq<Transaction>): (n: int)
    ensures 0 <= n <= |ts|
  {
    |Filter(ts, HasDocument)|
  }

  /** `transactions.length > 0 ? (documented / transactions.length) * 100 : 0` */
  function DocumentationRate(ts: seq<Transaction>): (rate: real)
    ensures 0.0 <= rate <= 100.0
    ensures ts == [] ==> rate == 0.0
    ensures ts != [] ==> (rate < 70.0 <==> 10 * DocumentedCount(ts) < 7 * |ts|)
  {
    if |ts| > 0 then
      var n := DocumentedCount(ts) as real;
      var len := |ts| as real;
      var rate := (n / len) * 100.0;
      assert rate * len == n * 100.0;
      RateOrder(rate, n, len);
      rate
    else 0.0
  }

  lemma RateOrder(rate: real, n: real, len: real)
    requires len > 0.0 && 0.0 <= n <= len && rate * len == n * 100.0
    ensures 0.0 <= rate <= 100.0
    ensures rate < 70.0 <==> 10.0 * n < 7.0 * len
  {
    SignOfProduct(rate, len);
    SignOfProduct(100.0 - rate, len);
    assert (100.0 - rate) * len == 100.0 * len - rate * len;
    SignOfProduct(70.0 - rate, len);
    assert (70.0 - rate) * len == 70.0 * len - rate * len;
  }

  // ---------------------------------------------------------------------
  // Assessment period

  /** The date a transaction list reaches back to: `Math.min` over the timestamps. */
  function Oldest(ts: seq<Transaction>): (d: Date)
    requires |ts| > 0
    ensures exists i :: 0 <= i < |ts| && ts[i].date == d
    ensures forall i :: 0 <= i < |ts| ==> DayStamp(d) <= DayStamp(ts[i].date)
  {
    if |ts| == 1 then ts[0].date
    else
      var d := Oldest(ts[..|ts| - 1]);
      var last := ts[|ts| - 1].date;
      if DayStamp(last) < DayStamp(d) then last else d
  }

  /** The most recent date: `Math.max` over the timestamps. */
  function Newest(ts: seq<Transaction>): (d: Date)
    requires |ts| > 0
    ensures exists i :: 0 <= i < |ts| && ts[i].date == d
    ensures forall i :: 0 <= i < |ts| ==> DayStamp(ts[i].date) <= DayStamp(d)
  {
    if |ts| == 1 then ts[0].date
    else
      var d := Newest(ts[..|ts| - 1]);
      var last := ts[|ts| - 1].date;
      if DayStamp(last) > DayStamp(d) then last else d
  }

  /** The period a report covers; a missing start or end is shown as 'N/A'. */
  datatype Period = Period(start: Option<Date>, end: Option<Date>, months: int)

  /** A month as a count of months: `getFullYear() * 12 + getMonth()` up to a constant. */
  function MonthIndex(d: Date): int
  {
    d.year * 12 + d.month
  }

  /**
   * getAssessmentPeriod: oldest and newest date and the calendar-month
   * difference between them, at least 1.
   */
  function AssessmentPeriod(ts: seq<Transaction>): (p: Period)
    ensures ts == [] ==> p == Period(None, None, 0)
    ensures ts != [] ==> p.start == Some(Oldest(ts)) && p.end == Some(Newest(ts)) && p.months >= 1
    ensures ts != [] ==> forall i :: 0 <= i < |ts| ==>
      DayStamp(p.start.value) <= DayStamp(ts[i].date) <= DayStamp(p.end.value)
    ensures ts != [] ==>
      var span := MonthIndex(Newest(ts)) - MonthIndex(Oldest(ts));
      (span >= 1 ==> p.months == span) && (span < 1 ==> p.months == 1)
  {
    if ts == [] then Period(None, None, 0)
    else
      var oldest, newest := Oldest(ts), Newest(ts);
      var months := (newest.year - oldest.year) * 12 + (newest.month - oldest.month);
      Period(Some(oldest), Some(newest), if months < 1 then 1 else months)
  }

  /** Every transaction's month lies within the period: from its start month, `months` months on. */
  lemma PeriodCoversTransactions(ts: seq<Transaction>, i: int)
    requires AllValidDates(ts) && 0 <= i < |ts|
    ensures var p := AssessmentPeriod(ts);
      && DateLe(p.start.value, p.end.value)
      && MonthIndex(p.start.value) <= MonthIndex(ts[i].date) <= MonthIndex(p.start.value) + p.months
  {
    var p := AssessmentPeriod(ts);
    var oldest, newest := Oldest(ts), Newest(ts);
    var j :| 0 <= j < |ts| && ts[j].date == oldest;
    var k :| 0 <= k < |ts| && ts[k].date == newest;
    DayStampOrder(oldest, ts[i].date);
    DayStampOrder(ts[i].date, newest);
    DayStampOrder(oldest, newest);
  }

  /** Transactions that all fall in one calendar month make a period of one month. */
  lemma SingleMonthPeriod(ts: seq<Transaction>)
    requires ts != [] && forall i :: 0 <= i < |ts| ==> KeyOf(ts[i].date) == KeyOf(ts[0].date)
    ensures AssessmentPeriod(ts).months == 1
  {
    var i :| 0 <= i < |ts| && ts[i].date == Oldest(ts);
    var j :| 0 <= j < |ts| && ts[j].date == Newest(ts);
    assert KeyOf(ts[i].date) == KeyOf(ts[j].date);
  }

  /** `assessmentPeriod.months > 0 ? assessmentPeriod.months : 1` */
  function NumMonths(p: Period): (n: int)
    ensures n >= 1
    ensures p.months >= 1 ==> n == p.months
  {
    if p.months > 0 then p.months else 1
  }

  /** The averages divide by the period length, which is the number of months found whenever there is data. */
  lemma NumMonthsOfPeriod(ts: seq<Transaction>)
    ensures ts == [] ==> NumMonths(AssessmentPeriod(ts)) == 1
    ensures ts != [] ==> NumMonths(AssessmentPeriod(ts)) == AssessmentPeriod(ts).months
  {
  }

  // ---------------------------------------------------------------------
  // Risk level and loan terms

  datatype RiskLevel = Low | Medium | High

  /** getRiskLevel: low from 700, medium from 500, high below. */
  function RiskLevelOf(score: int): (risk: RiskLevel)
    ensures risk == Low <==> score >= 700
    ensures risk == Medium <==> 500 <= score < 700
    ensures risk == High <==> score < 500
  {
    if score >= 700 then Low
    else if score >= 500 then Medium
    else High
  }

  /** The months of income a borrower may take: `{ low: 6, medium: 3, high: 1 }`. */
  function Multiplier(risk: RiskLevel): int
  {
    match risk
    case Low => 6
    case Medium => 3
    case High => 1
  }

  /** calculateLoanEligibility: Math.round(avgMonthlyIncome * multiplier). */
  function LoanEligibility(avgMonthlyIncome: real, risk: RiskLevel): (amount: int)
    ensures amount as real - 0.5 <= avgMonthlyIncome * Multiplier(risk) as real < amount as real + 0.5
  {
    Round(avgMonthlyIncome * Multiplier(risk) as real)
  }

  /** With a non-negative income, a better score never lowers the loan amount. */
  lemma LoanGrowsWithScore(avgMonthlyIncome: real, score1: int, score2: int)
    requires avgMonthlyIncome >= 0.0 && score1 <= score2
    ensures LoanEligibility(avgMonthlyIncome, RiskLevelOf(score1)) <= LoanEligibility(avgMonthlyIncome, RiskLevelOf(score2))
  {
    var m1, m2 := Multiplier(RiskLevelOf(score1)) as real, Multiplier(RiskLevelOf(score2)) as real;
    assert m1 <= m2;
    MulMonotone(avgMonthlyIncome, m1, m2);
    assert avgMonthlyIncome * m1 == m1 * avgMonthlyIncome && avgMonthlyIncome * m2 == m2 * avgMonthlyIncome;
    RoundMonotone(avgMonthlyIncome * m1, avgMonthlyIncome * m2);
  }

  /** suggestInterestRate: the annual rate band shown for a risk level. */
  function InterestRate(risk: RiskLevel): string
  {
    match risk
    case Low => "14-16%"
    case Medium => "18-22%"
    case High => "25-30%"
  }

  /** Each risk level has its own rate band: two scores show the same band iff they share a risk level. */
  lemma InterestRateDistinguishesRisk(score1: int, score2: int)
    ensures InterestRate(RiskLevelOf(score1)) == InterestRate(RiskLevelOf(score2))
      <==> RiskLevelOf(score1) == RiskLevelOf(score2)
  {
    var r1, r2 := InterestRate(RiskLevelOf(score1)), InterestRate(RiskLevelOf(score2));
    if RiskLevelOf(score1) != RiskLevelOf(score2) {
      assert r1[0] != r2[0] || r1[1] != r2[1];
    }
  }

  /** calculateRepaymentCapacity: Math.round(avgMonthlyIncome * 0.45). */
  function RepaymentCapacity(avgMonthlyIncome: real): (amount: int)
    ensures amount as real - 0.5 <= avgMonthlyIncome * 0.45 < amount as real + 0.5
    ensures avgMonthlyIncome >= 0.0 ==> amount >= 0
  {
    Round(avgMonthlyIncome * 0.45)
  }

  /** With a non-negative income, the monthly repayment never exceeds the loan amount. */
  lemma RepaymentWithinLoan(avgMonthlyIncome: real, risk: RiskLevel)
    requires avgMonthlyIncome >= 0.0
    ensures RepaymentCapacity(avgMonthlyIncome) <= LoanEligibility(avgMonthlyIncome, risk)
  {
    var m := Multiplier(risk) as real;
    MulMonotone(avgMonthlyIncome, 0.45, m);
    assert avgMonthlyIncome * m == m * avgMonthlyIncome;
    RoundMonotone(avgMonthlyIncome * 0.45, avgMonthlyIncome * m);
  }

  /** calculateEmergencyBuffer: months of expenses the balance covers, to one decimal; 99 when there are no expenses. */
  function EmergencyBuffer(currentBalance: real, avgMonthlyExpenses: real): (months: real)
    ensures avgMonthlyExpenses <= 0.0 ==> months == 99.0
    ensures avgMonthlyExpenses > 0.0 ==> -0.05 <= months - currentBalance / avgMonthlyExpenses <= 0.05
    ensures avgMonthlyExpenses > 0.0 && currentBalance >= 0.0 ==> months >= 0.0
    ensures avgMonthlyExpenses > 0.0 && currentBalance < 0.0 ==> months <= 0.0
  {
    if avgMonthlyExpenses <= 0.0 then 99.0
    else
      var ratio := currentBalance / avgMonthlyExpenses;
      assert currentBalance < 0.0 ==> ratio < 0.0;
      RoundTenth(ratio)
  }

  // ---------------------------------------------------------------------
  // Approval probability

  /** calculateApprovalProbability, in percent. */
  function ApprovalProbability(score: int): (p: real)
    ensures 20.0 <= p <= 95.0
    ensures score < 500 ==> p == 20.0
    ensures 500 <= score < 750 ==> 60.0 <= p < 85.0
    ensures score >= 750 ==> 85.0 <= p <= 95.0
  {
    var s := score as real;
    if score >= 750 then Min(85.0 + (s - 750.0) / 25.0, 95.0)
    else if score >= 500 then 60.0 + (s - 500.0) / 10.0
    else Max(20.0, s / 25.0)
  }

  /** A higher score never lowers the approval probability. */
  lemma ApprovalMonotone(score1: int, score2: int)
    requires score1 <= score2
    ensures ApprovalProbability(score1) <= ApprovalProbability(score2)
  {
  }

  // ---------------------------------------------------------------------
  // Score components

  /** The factors of a score result scaled to their share of 1000. */
  datatype Components = Components(
    billPaymentHistory: real,
    incomeConsistency: real,
    expenseManagement: real,
    financialGrowth: real,
    transactionDiversity: real)

  /** getScoreComponents: `(factors.x || 0) * scale` with scales 3, 2.5, 2, 1.5 and 1. */
  function ScoreComponents(factors: Option<Factors>): (c: Components)
    ensures factors.None? ==> c == Components(0.0, 0.0, 0.0, 0.0, 0.0)
    ensures factors.Some? && InRange(factors.value) ==>
      && 0.0 <= c.billPaymentHistory <= 300.0 && 0.0 <= c.incomeConsistency <= 250.0
      && 0.0 <= c.expenseManagement <= 200.0 && 0.0 <= c.financialGrowth <= 150.0
      && 0.0 <= c.transactionDiversity <= 100.0
    ensures factors.Some? ==>
      var rows := ScoreBreakdown.FactorList(factors.value);
      && c.billPaymentHistory == rows[0].value * rows[0].weight / 10.0
      && c.incomeConsistency == rows[1].value * rows[1].weight / 10.0
      && c.expenseManagement == rows[2].value * rows[2].weight / 10.0
      && c.financialGrowth == rows[3].value * rows[3].weight / 10.0
      && c.transactionDiversity == rows[4].value * rows[4].weight / 10.0
  {
    match factors
    case None => Components(0.0, 0.0, 0.0, 0.0, 0.0)
    case Some(f) =>
      Components(
        f.billPaymentHistory as real * 3.0,
        f.incomeConsistency as real * 2.5,
        f.expenseManagement as real * 2.0,
        f.financialGrowth as real * 1.5,
        f.transactionDiversity as real * 1.0)
  }

  function ComponentsTotal(c: Components): real
  {
    c.billPaymentHistory + c.incomeConsistency + c.expenseManagement + c.financialGrowth + c.transactionDiversity
  }

  /** The report's components add up to the weighted total of the score breakdown. */
  lemma ComponentsMatchBreakdown(f: Factors)
    ensures ComponentsTotal(ScoreComponents(Some(f))) == ScoreBreakdown.TotalScore(ScoreBreakdown.FactorList(f))
  {
    ScoreBreakdown.TotalIsWeightedSum(f);
  }
}
