/**
 * generateInsights of src/lib/reportUtils.ts: up to four rule-based
 * remarks, pushed in a fixed order, each fired by one threshold.
 */
module ReportInsights {
  import opened Numbers
  import opened Transactions
  import opened CreditAnalysis
  import opened ReportMetrics

  /** The part of the score result the report reads: the score and, when present, the factors. */
  datatype ScoreResult = ScoreResult(creditScore: int, factors: Option<Factors>)

  /** `(creditScore.factors || {}).expenseManagement || 0` */
  function ExpenseFactor(score: ScoreResult): (e: int)
    ensures score.factors.None? ==> e == 0
    ensures score.factors.Some? ==> e == score.factors.value.expenseManagement
  {
    match score.factors
    case None => 0
    case Some(f) => f.expenseManagement
  }

  datatype InsightType = Positive | Warning | Suggestion

  /** The four rules, in the order generateInsights tries them. */
  datatype Rule = ExcellentCredit | StrongProfitability | ImproveExpenseManagement | LowDocumentationRate

  function Title(r: Rule): string
  {
    match r
    case ExcellentCredit => "Excellent Credit Profile"
    case StrongProfitability => "Strong Profitability"
    case ImproveExpenseManagement => "Improve Expense Management"
    case LowDocumentationRate => "Low Documentation Rate"
  }

  function Rank(r: Rule): int
  {
    match r
    case ExcellentCredit => 0
    case StrongProfitability => 1
    case ImproveExpenseManagement => 2
    case LowDocumentationRate => 3
  }

  /**
   * The figure each description interpolates: the score, the margin with
   * toFixed(1), none, and the documentation rate with toFixed(0).
   */
  datatype Description = ScoreText(score: int) | MarginText(margin: real) | AdviceText | RateText(percent: int)

  datatype Insight = Insight(kind: InsightType, rule: Rule, description: Description)

  predicate Has(insights: seq<Insight>, r: Rule)
  {
    exists i :: 0 <= i < |insights| && insights[i].rule == r
  }

  /** The test of each rule, on the figures generateInsights receives. */
  predicate Fires(r: Rule, score: ScoreResult, totalIncome: real, totalExpenses: real, ts: seq<Transaction>)
  {
    match r
    case ExcellentCredit => score.creditScore >= 750
    case StrongProfitability => ProfitMargin(totalIncome, totalExpenses) > 15.0
    case ImproveExpenseManagement => ExpenseFactor(score) < 70
    case LowDocumentationRate => DocumentationRate(ts) < 70.0
  }

  /** The insight each rule pushes. */
  function InsightOf(r: Rule, score: ScoreResult, totalIncome: real, totalExpenses: real, ts: seq<Transaction>): (insight: Insight)
    ensures insight.rule == r
  {
    match r
    case ExcellentCredit => Insight(Positive, r, ScoreText(score.creditScore))
    case StrongProfitability => Insight(Positive, r, MarginText(RoundTenth(ProfitMargin(totalIncome, totalExpenses))))
    case ImproveExpenseManagement => Insight(Suggestion, r, AdviceText)
    case LowDocumentationRate => Insight(Warning, r, RateText(Round(DocumentationRate(ts))))
  }

  const Rules := [ExcellentCredit, StrongProfitability, ImproveExpenseManagement, LowDocumentationRate]

  /** The insights of the rules that fire, in the order of `rules`. */
  function Pick(rules: seq<Rule>, score: ScoreResult, totalIncome: real, totalExpenses: real, ts: seq<Transaction>): (insights: seq<Insight>)
    ensures |insights| <= |rules|
  {
    if rules == [] then []
    else
      var r := rules[|rules| - 1];
      Pick(rules[..|rules| - 1], score, totalIncome, totalExpenses, ts)
        + (if Fires(r, score, totalIncome, totalExpenses, ts) then [InsightOf(r, score, totalIncome, totalExpenses, ts)] else [])
  }

  /** generateInsights: four independent tests, each pushing one insight when it fires. */
  method GenerateInsights(score: ScoreResult, totalIncome: real, totalExpenses: real, ts: seq<Transaction>)
    returns (insights: seq<Insight>)
    ensures insights == Pick(Rules, score, totalIncome, totalExpenses, ts)
    ensures |insights| <= 4
  {
    assert Rules[..3] == Rules[..4][..3] && Rules[..2] == Rules[..3][..2];
    assert Rules[..1] == Rules[..2][..1] && Rules[..1][..0] == [];
    insights := [];
    var profitMargin := ProfitMargin(totalIncome, totalExpenses);

    if score.creditScore >= 750 {
      insights := insights + [Insight(Positive, ExcellentCredit, ScoreText(score.creditScore))];
    }
    assert insights == Pick(Rules[..1], score, totalIncome, totalExpenses, ts);

    if profitMargin > 15.0 {
      insights := insights + [Insight(Positive, StrongProfitability, MarginText(RoundTenth(profitMargin)))];
    }
    assert insights == Pick(Rules[..2], score, totalIncome, totalExpenses, ts);

    if ExpenseFactor(score) < 70 {
      insights := insights + [Insight(Suggestion, ImproveExpenseManagement, AdviceText)];
    }
    assert insights == Pick(Rules[..3], score, totalIncome, totalExpenses, ts);

    var docRate := DocumentationRate(ts);
    if docRate < 70.0 {
      insights := insights + [Insight(Warning, LowDocumentationRate, RateText(Round(docRate)))];
    }
    assert Rules[..4] == Rules;
  }

  /** Each insight is the one of its rule, and a rule's insight is present exactly when the rule fires. */
  lemma {:induction false} PickContents(rules: seq<Rule>, score: ScoreResult, totalIncome: real, totalExpenses: real, ts: seq<Transaction>)
    ensures var insights := Pick(rules, score, totalIncome, totalExpenses, ts);
      && (forall i :: 0 <= i < |insights| ==>
            insights[i] == InsightOf(insights[i].rule, score, totalIncome, totalExpenses, ts) && insights[i].rule in rules)
      && (forall r :: Has(insights, r) <==> r in rules && Fires(r, score, totalIncome, totalExpenses, ts))
  {
    if rules != [] {
      var init, r := rules[..|rules| - 1], rules[|rules| - 1];
      PickContents(init, score, totalIncome, totalExpenses, ts);
      var before := Pick(init, score, totalIncome, totalExpenses, ts);
      var insights := Pick(rules, score, totalIncome, totalExpenses, ts);
      assert forall x :: x in rules <==> x in init || x == r;
      forall q ensures Has(insights, q) <==> q in rules && Fires(q, score, totalIncome, totalExpenses, ts) {
        if Has(before, q) {
          var i :| 0 <= i < |before| && before[i].rule == q;
          assert insights[i] == before[i];
        }
        if Has(insights, q) {
          var i :| 0 <= i < |insights| && insights[i].rule == q;
          if i < |before| {
            assert before[i] == insights[i];
          }
        }
        if q == r && Fires(q, score, totalIncome, totalExpenses, ts) {
          assert insights[|insights| - 1].rule == q;
        }
      }
    }
  }

  /** Rules of increasing rank give insights of increasing rank. */
  lemma {:induction false} PickOrdered(rules: seq<Rule>, score: ScoreResult, totalIncome: real, totalExpenses: real, ts: seq<Transaction>)
    requires forall i, j :: 0 <= i < j < |rules| ==> Rank(rules[i]) < Rank(rules[j])
    ensures var insights := Pick(rules, score, totalIncome, totalExpenses, ts);
      forall i, j :: 0 <= i < j < |insights| ==> Rank(insights[i].rule) < Rank(insights[j].rule)
  {
    if rules != [] {
      var init, r := rules[..|rules| - 1], rules[|rules| - 1];
      PickOrdered(init, score, totalIncome, totalExpenses, ts);
      PickContents(init, score, totalIncome, totalExpenses, ts);
      var before := Pick(init, score, totalIncome, totalExpenses, ts);
      forall i | 0 <= i < |before| ensures Rank(before[i].rule) < Rank(r) {
        var k :| 0 <= k < |init| && init[k] == before[i].rule;
      }
    }
  }

  /**
   * What the report promises of its insights: one per firing rule, in the
   * order excellent credit, strong profitability, expense management, low
   * documentation; the margin rule fires when expenses stay below 85% of a
   * positive income, the documentation rule when fewer than 70% of the
   * transactions are documented, which includes the case of no transactions.
   */
  lemma InsightsPromise(score: ScoreResult, totalIncome: real, totalExpenses: real, ts: seq<Transaction>)
    ensures var insights := Pick(Rules, score, totalIncome, totalExpenses, ts);
      && (Has(insights, ExcellentCredit) <==> score.creditScore >= 750)
      && (Has(insights, StrongProfitability) <==> totalIncome > 0.0 && totalExpenses < 0.85 * totalIncome)
      && (Has(insights, ImproveExpenseManagement) <==> ExpenseFactor(score) < 70)
      && (Has(insights, LowDocumentationRate) <==> ts == [] || 10 * DocumentedCount(ts) < 7 * |ts|)
      && (forall i, j :: 0 <= i < j < |insights| ==> Rank(insights[i].rule) < Rank(insights[j].rule))
      && (forall i :: 0 <= i < |insights| ==> insights[i] == InsightOf(insights[i].rule, score, totalIncome, totalExpenses, ts))
  {
    PickContents(Rules, score, totalIncome, totalExpenses, ts);
    PickOrdered(Rules, score, totalIncome, totalExpenses, ts);
    forall r: Rule ensures r in Rules {
      assert Rules[Rank(r)] == r;
    }
  }
}
