/**
 * The report dialog of src/components/report-view-dialog.tsx: its grade
 * styles, its copy of the score description, the factor insight of each
 * row of the factor table, and its own, longer, list of recommendations.
 * The markup itself is not modelled.
 */
module ReportViewDialog {
  import opened Transactions
  import opened CreditAnalysis
  import PdfGenerator

  /** The colour family of a grade's card. */
  datatype Tone = Green | Blue | Yellow | Red | Gray

  /** getGradeColor: A, B, C and D have their colours, anything else is gray. */
  function GradeTone(grade: string): (t: Tone)
    ensures t == Green <==> grade == "A"
    ensures t == Blue <==> grade == "B"
    ensures t == Yellow <==> grade == "C"
    ensures t == Red <==> grade == "D"
    ensures t == Gray <==> grade !in {"A", "B", "C", "D"}
  {
    match grade
    case "A" => Green
    case "B" => Blue
    case "C" => Yellow
    case "D" => Red
    case _ => Gray
  }

  /** The dialog and the PDF single out the same grades: each has a colour of its own in one exactly when it has in the other. */
  lemma GradeColoursAgree(grade: string)
    ensures GradeTone(grade) == Gray <==> PdfGenerator.GradeColor(grade) == PdfGenerator.Gray
    ensures GradeTone(grade) == Green <==> PdfGenerator.GradeColor(grade) == PdfGenerator.Success
    ensures GradeTone(grade) == Red <==> PdfGenerator.GradeColor(grade) == PdfGenerator.Danger
  {
  }

  /** The grade badge: 'default' for A and B, 'destructive' for any other grade. */
  function GradeBadgeIsDefault(grade: string): (isDefault: bool)
    ensures isDefault <==> GradeTone(grade) in {Green, Blue}
  {
    grade == "A" || grade == "B"
  }

  /** getScoreDescription, the dialog's own copy. */
  function ScoreDescription(score: int): string
  {
    if score >= 800 then "Excellent - Very Low Risk"
    else if score >= 700 then "Good - Low Risk"
    else if score >= 600 then "Fair - Moderate Risk"
    else if score >= 500 then "Needs Improvement - Higher Risk"
    else "Poor - High Risk"
  }

  /** The dialog and the PDF describe every score the same way. */
  lemma SameDescriptionAsPdf(score: int)
    ensures ScoreDescription(score) == PdfGenerator.ScoreDescription(score)
  {
  }

  // ---------------------------------------------------------------------
  // Factor table

  datatype Icon = CheckCircle | TrendingUp | InfoIcon | AlertCircle

  datatype FactorInsight = FactorInsight(icon: Icon, tone: Tone, status: string)

  /** getFactorInsight: 80, 60 and 40 split Excellent, Good, Fair and Needs Improvement. */
  function GetFactorInsight(value: int): (insight: FactorInsight)
    ensures insight.status == "Excellent" <==> value >= 80
    ensures insight.status == "Good" <==> 60 <= value < 80
    ensures insight.status == "Fair" <==> 40 <= value < 60
    ensures insight.status == "Needs Improvement" <==> value < 40
  {
    if value >= 80 then FactorInsight(CheckCircle, Green, "Excellent")
    else if value >= 60 then FactorInsight(TrendingUp, Blue, "Good")
    else if value >= 40 then FactorInsight(InfoIcon, Yellow, "Fair")
    else FactorInsight(AlertCircle, Red, "Needs Improvement")
  }

  /**
   * The dialog's status is the PDF's, except below 40, where the dialog
   * says "Needs Improvement" and the PDF "Needs Work".
   */
  lemma FactorStatusMatchesPdf(value: int)
    ensures value >= 40 ==> GetFactorInsight(value).status == PdfGenerator.FactorStatus(value)
    ensures value < 40 ==> GetFactorInsight(value).status == "Needs Improvement"
                           && PdfGenerator.FactorStatus(value) == "Needs Work"
  {
  }

  /** The five factor keys. */
  datatype FactorKey = BillPaymentHistory | IncomeConsistency | ExpenseManagement | FinancialGrowth | TransactionDiversity

  function FactorValue(f: Factors, key: FactorKey): int
  {
    match key
    case BillPaymentHistory => f.billPaymentHistory
    case IncomeConsistency => f.incomeConsistency
    case ExpenseManagement => f.expenseManagement
    case FinancialGrowth => f.financialGrowth
    case TransactionDiversity => f.transactionDiversity
  }

  datatype FactorDetail = FactorDetail(name: string, key: FactorKey, weight: int, description: string)

  /** factorDetails: the rows of the factor table, in order. */
  const FactorDetails: seq<FactorDetail> := [
    FactorDetail("Bill Payment History", BillPaymentHistory, 30, "Consistency in paying rent, utilities, and bills on time"),
    FactorDetail("Income Consistency", IncomeConsistency, 25, "Regularity and stability of income streams"),
    FactorDetail("Expense Management", ExpenseManagement, 20, "Spending discipline and savings behavior"),
    FactorDetail("Financial Growth", FinancialGrowth, 15, "Income growth trend over time"),
    FactorDetail("Transaction Diversity", TransactionDiversity, 10, "Variety of income sources and transaction types")]

  function DetailWeights(details: seq<FactorDetail>): int
  {
    if details == [] then 0 else DetailWeights(details[..|details| - 1]) + details[|details| - 1].weight
  }

  /**
   * The weights of factorDetails add up to 100, and each row has the name,
   * the weight and the factor of the same row of the PDF's factor table.
   */
  lemma FactorDetailsMatchPdf(f: Factors)
    ensures DetailWeights(FactorDetails) == 100
    ensures forall i :: 0 <= i < 5 ==>
      var (name, weight, score) := PdfGenerator.FactorScores(f)[i];
      FactorDetails[i].name == name && FactorDetails[i].weight == weight && FactorValue(f, FactorDetails[i].key) == score
  {
    var d := FactorDetails;
    assert d[..0] == [];
    assert DetailWeights(d[..1]) == 30 by { assert d[..1][..0] == d[..0]; }
    assert DetailWeights(d[..2]) == 55 by { assert d[..2][..1] == d[..1]; }
    assert DetailWeights(d[..3]) == 75 by { assert d[..3][..2] == d[..2]; }
    assert DetailWeights(d[..4]) == 90 by { assert d[..4][..3] == d[..3]; }
    assert d[..5] == d;
  }

  /** `report.factors?.[factor.key] || 0`: a missing factor shows as 0. */
  function ShownValue(factors: Option<Factors>, key: FactorKey): (v: int)
    ensures factors.None? ==> v == 0
    ensures factors.Some? ==> v == FactorValue(factors.value, key)
  {
    match factors
    case None => 0
    case Some(f) => FactorValue(f, key)
  }

  /** One rendered row: the detail, the value shown and its insight. */
  datatype FactorLine = FactorLine(detail: FactorDetail, value: int, insight: FactorInsight)

  /** factorDetails.map(...): the table the dialog renders. */
  function FactorLines(factors: Option<Factors>): (lines: seq<FactorLine>)
    ensures |lines| == |FactorDetails|
    ensures forall i :: 0 <= i < |lines| ==>
      lines[i].detail == FactorDetails[i] && lines[i].value == ShownValue(factors, FactorDetails[i].key)
      && lines[i].insight == GetFactorInsight(lines[i].value)
  {
    seq(|FactorDetails|, i requires 0 <= i < |FactorDetails| =>
      var value := ShownValue(factors, FactorDetails[i].key);
      FactorLine(FactorDetails[i], value, GetFactorInsight(value)))
  }

  /** Without factors every row shows 0 and "Needs Improvement". */
  lemma MissingFactorsShowZero(factors: Option<Factors>)
    requires factors.None?
    ensures forall line :: line in FactorLines(factors) ==> line.value == 0 && line.insight.status == "Needs Improvement"
  {
  }

  // ---------------------------------------------------------------------
  // Recommendations

  datatype Priority = High | Medium | Low | Info

  /** High above Medium above Low above Info. */
  function Urgency(p: Priority): int
  {
    match p
    case High => 3
    case Medium => 2
    case Low => 1
    case Info => 0
  }

  /** The five areas a rule can raise, and the closing 'Maintain Excellence'. */
  datatype Area = BillPayments | IncomeStability | ExpenseControl | IncomeGrowth | IncomeDiversification | MaintainExcellence

  function AreaTitle(a: Area): string
  {
    match a
    case BillPayments => "Bill Payments"
    case IncomeStability => "Income Stability"
    case ExpenseControl => "Expense Control"
    case IncomeGrowth => "Income Growth"
    case IncomeDiversification => "Income Diversification"
    case MaintainExcellence => "Maintain Excellence"
  }

  function PriorityOf(a: Area): Priority
  {
    match a
    case BillPayments => High
    case IncomeStability => High
    case ExpenseControl => Medium
    case IncomeGrowth => Medium
    case IncomeDiversification => Low
    case MaintainExcellence => Info
  }

  /** The factor each rule reads and the threshold it must reach not to fire. */
  function RuleFactor(a: Area): FactorKey
    requires a != MaintainExcellence
  {
    match a
    case BillPayments => BillPaymentHistory
    case IncomeStability => IncomeConsistency
    case ExpenseControl => ExpenseManagement
    case IncomeGrowth => FinancialGrowth
    case IncomeDiversification => TransactionDiversity
  }

  function Threshold(a: Area): int
  {
    match a
    case BillPayments => 70
    case IncomeStability => 70
    case ExpenseControl => 70
    case IncomeGrowth => 50
    case IncomeDiversification => 60
    case MaintainExcellence => 0
  }

  predicate Fires(f: Factors, a: Area)
  {
    a != MaintainExcellence && FactorValue(f, RuleFactor(a)) < Threshold(a)
  }

  datatype Recommendation = Recommendation(priority: Priority, area: Area)

  function RecommendationFor(a: Area): (r: Recommendation)
    ensures r.area == a && r.priority == PriorityOf(a)
  {
    Recommendation(PriorityOf(a), a)
  }

  /** The five rules, in the order getRecommendations tests them. */
  const RuleOrder: seq<Area> := [BillPayments, IncomeStability, ExpenseControl, IncomeGrowth, IncomeDiversification]

  /** The recommendations pushed by the rules of `areas` that fire, in that order. */
  function Fired(f: Factors, areas: seq<Area>): (recs: seq<Recommendation>)
    ensures |recs| <= |areas|
  {
    if areas == [] then []
    else
      var a := areas[|areas| - 1];
      Fired(f, areas[..|areas| - 1]) + (if Fires(f, a) then [RecommendationFor(a)] else [])
  }

  /** getRecommendations: [] without factors; otherwise the rules that fire, or 'Maintain Excellence' alone when none does. */
  function GetRecommendations(factors: Option<Factors>): seq<Recommendation>
  {
    match factors
    case None => []
    case Some(f) =>
      var fired := Fired(f, RuleOrder);
      if fired == [] then [RecommendationFor(MaintainExcellence)] else fired
  }

  predicate HasArea(recs: seq<Recommendation>, a: Area)
  {
    exists i :: 0 <= i < |recs| && recs[i].area == a
  }

  /** Each fired entry is its area's, and an area is present exactly when it is listed and its rule fires. */
  lemma {:induction false} FiredContents(f: Factors, areas: seq<Area>)
    ensures var recs := Fired(f, areas);
      && (forall i :: 0 <= i < |recs| ==> recs[i] == RecommendationFor(recs[i].area))
      && (forall a :: HasArea(recs, a) <==> a in areas && Fires(f, a))
  {
    if areas != [] {
      var init, last := areas[..|areas| - 1], areas[|areas| - 1];
      FiredContents(f, init);
      var before, recs := Fired(f, init), Fired(f, areas);
      assert forall x :: x in areas <==> x in init || x == last;
      forall a ensures HasArea(recs, a) <==> a in areas && Fires(f, a) {
        if HasArea(before, a) {
          var i :| 0 <= i < |before| && before[i].area == a;
          assert recs[i] == before[i];
        }
        if HasArea(recs, a) {
          var i :| 0 <= i < |recs| && recs[i].area == a;
          if i < |before| {
            assert before[i] == recs[i];
          }
        }
        if a == last && Fires(f, a) {
          assert recs[|recs| - 1].area == a;
        }
      }
    }
  }

  /** Areas listed by non-increasing urgency give recommendations by non-increasing urgency. */
  lemma {:induction false} FiredOrdered(f: Factors, areas: seq<Area>)
    requires forall i, j :: 0 <= i < j < |areas| ==> Urgency(PriorityOf(areas[i])) >= Urgency(PriorityOf(areas[j]))
    ensures var recs := Fired(f, areas);
      forall i, j :: 0 <= i < j < |recs| ==> Urgency(recs[i].priority) >= Urgency(recs[j].priority)
  {
    if areas != [] {
      var init, last := areas[..|areas| - 1], areas[|areas| - 1];
      FiredOrdered(f, init);
      FiredContents(f, init);
      var before := Fired(f, init);
      forall i | 0 <= i < |before| ensures Urgency(before[i].priority) >= Urgency(PriorityOf(last)) {
        assert HasArea(before, before[i].area);
        var k :| 0 <= k < |init| && init[k] == before[i].area;
      }
    }
  }

  /**
   * Which entries the recommendation card shows: nothing without factors;
   * with factors, one entry per rule that fires (bill payments and income
   * below 70, expenses below 70, growth below 50, diversity below 60), and
   * 'Maintain Excellence' exactly when no rule fires, then alone.
   */
  lemma GetRecommendationsContents(factors: Option<Factors>)
    ensures var recs := GetRecommendations(factors);
      && (factors.None? ==> recs == [])
      && (forall a :: a != MaintainExcellence ==> (HasArea(recs, a) <==> factors.Some? && Fires(factors.value, a)))
      && (HasArea(recs, MaintainExcellence) <==> factors.Some? && forall a :: !Fires(factors.value, a))
      && (HasArea(recs, MaintainExcellence) ==> recs == [RecommendationFor(MaintainExcellence)])
  {
    if factors.Some? {
      var f := factors.value;
      FiredContents(f, RuleOrder);
      var fired := Fired(f, RuleOrder);
      assert forall a :: a != MaintainExcellence <==> a in RuleOrder;
      if fired == [] {
        forall a ensures !Fires(f, a) {
          assert !HasArea(fired, a);
        }
        assert GetRecommendations(factors)[0].area == MaintainExcellence;
      } else {
        assert HasArea(fired, fired[0].area);
        assert Fires(f, fired[0].area);
        assert !HasArea(fired, MaintainExcellence);
      }
    }
  }

  /**
   * The shape of the list: with factors 1 to 5 entries, each with its
   * area's priority, in the order of the rules, so urgency never increases
   * down the list.
   */
  lemma GetRecommendationsOrdered(factors: Option<Factors>)
    ensures var recs := GetRecommendations(factors);
      && (factors.Some? ==> 1 <= |recs| <= 5)
      && (forall i :: 0 <= i < |recs| ==> recs[i].priority == PriorityOf(recs[i].area))
      && (forall i, j :: 0 <= i < j < |recs| ==> Urgency(recs[i].priority) >= Urgency(recs[j].priority))
  {
    if factors.Some? {
      var f := factors.value;
      FiredContents(f, RuleOrder);
      FiredOrdered(f, RuleOrder);
    }
  }

  /** The first three rules of the dialog fire exactly when the three of the PDF do. */
  lemma RecommendationsAgreeWithPdf(f: Factors)
    ensures var dialog, pdf := GetRecommendations(Some(f)), PdfGenerator.Recommendations(Some(f));
      && (HasArea(dialog, BillPayments) <==> PdfGenerator.HasArea(pdf, PdfGenerator.BillPaymentImprovement))
      && (HasArea(dialog, IncomeStability) <==> PdfGenerator.HasArea(pdf, PdfGenerator.IncomeStabilization))
      && (HasArea(dialog, ExpenseControl) <==> PdfGenerator.HasArea(pdf, PdfGenerator.ExpenseControl))
  {
    GetRecommendationsContents(Some(f));
    PdfGenerator.RecommendationsPromise(Some(f));
  }
}
