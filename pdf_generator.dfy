/**
 * generateProfessionalPDF of src/lib/pdf-generator.ts: the decisions the
 * PDF report makes (grade colour, score description, factor status, the
 * points lines, the recommendations, the grade legend) and the page cursor
 * `yPos` with its checkPageBreak helper. The drawing calls are not modelled;
 * what the drawing library decides by itself (how many lines a wrapped text
 * takes, where a table ends, how many pages it spills over) is a parameter.
 */
module PdfGenerator {
  import opened Numbers
  import opened Transactions
  import opened CreditAnalysis

  /** The fields of the stored report the PDF reads. */
  datatype PdfReport = PdfReport(
    id: string,
    score: int,
    grade: string,
    factors: Option<Factors>,
    transactionCount: Option<int>,
    periodStart: Option<string>,
    periodEnd: Option<string>)

  /** What the layout library decides: wrapped line counts, where the factor table ends, pages a table spills over. */
  datatype Layout = Layout(
    summaryLines: nat,
    factorsTableEnd: real,
    factorsTablePages: nat,
    legendTablePages: nat,
    disclaimerLines: nat)

  // ---------------------------------------------------------------------
  // The page cursor

  /** The jsPDF document, seen as its page count, and the `yPos` cursor the generator keeps beside it. */
  class PdfDocument {
    const pageHeight: real
    const margin: real
    var pages: nat
    var yPos: real

    /** A new portrait A4 document in millimetres (297 high), margin 20, the cursor at the margin. */
    constructor A4()
      ensures pageHeight == 297.0 && margin == 20.0
      ensures pages == 1 && yPos == margin
    {
      pageHeight := 297.0;
      margin := 20.0;
      pages := 1;
      yPos := 20.0;
    }

    /** A block of `requiredSpace` starting at the cursor would cross the bottom margin. */
    predicate Overflows(requiredSpace: real)
      reads this
    {
      yPos + requiredSpace > pageHeight - margin
    }

    /** doc.addPage(): one more page; the cursor is the generator's and is not touched. */
    method AddPage()
      modifies this
      ensures pages == old(pages) + 1 && yPos == old(yPos)
    {
      pages := pages + 1;
    }

    /** The pages an autoTable call spills over onto. */
    method AddPages(n: nat)
      modifies this
      ensures pages == old(pages) + n && yPos == old(yPos)
    {
      pages := pages + n;
    }

    method MoveTo(y: real)
      modifies this
      ensures yPos == y && pages == old(pages)
    {
      yPos := y;
    }

    method Advance(dy: real)
      modifies this
      ensures yPos == old(yPos) + dy && pages == old(pages)
    {
      yPos := yPos + dy;
    }

    /**
     * checkPageBreak: when the block would cross the bottom margin, one new
     * page and the cursor back at the margin; otherwise nothing changes.
     * Either way a block no taller than a page's writable height then fits.
     */
    method CheckPageBreak(requiredSpace: real) returns (broke: bool)
      modifies this
      ensures broke == old(Overflows(requiredSpace))
      ensures broke ==> pages == old(pages) + 1 && yPos == margin
      ensures !broke ==> pages == old(pages) && yPos == old(yPos)
      ensures requiredSpace <= pageHeight - 2.0 * margin ==> !Overflows(requiredSpace)
    {
      if yPos + requiredSpace > pageHeight - margin {
        AddPage();
        yPos := margin;
        return true;
      }
      return false;
    }
  }

  // ---------------------------------------------------------------------
  // Cover page

  /** The colour scheme, by name. */
  datatype Color = Primary | Success | Warning | Danger | Gray | LightGray

  /** getGradeColor: A, B, C and D have their colours; any other grade, 'B+' among them, is gray. */
  function GradeColor(grade: string): (c: Color)
    ensures c == Success <==> grade == "A"
    ensures c == Primary <==> grade == "B"
    ensures c == Warning <==> grade == "C"
    ensures c == Danger <==> grade == "D"
    ensures c == Gray <==> grade !in {"A", "B", "C", "D"}
  {
    if grade == "A" then Success
    else if grade == "B" then Primary
    else if grade == "C" then Warning
    else if grade == "D" then Danger
    else Gray
  }

  /** getScoreDescription: five bands, at 800, 700, 600 and 500. */
  function ScoreDescription(score: int): (d: string)
    ensures d == "Excellent - Very Low Risk" <==> score >= 800
    ensures d == "Good - Low Risk" <==> 700 <= score < 800
    ensures d == "Fair - Moderate Risk" <==> 600 <= score < 700
    ensures d == "Needs Improvement - Higher Risk" <==> 500 <= score < 600
    ensures d == "Poor - High Risk" <==> score < 500
  {
    if score >= 800 then "Excellent - Very Low Risk"
    else if score >= 700 then "Good - Low Risk"
    else if score >= 600 then "Fair - Moderate Risk"
    else if score >= 500 then "Needs Improvement - Higher Risk"
    else "Poor - High Risk"
  }

  /** The rank of a description, best first. */
  function DescriptionBand(d: string): int
  {
    if d == "Excellent - Very Low Risk" then 4
    else if d == "Good - Low Risk" then 3
    else if d == "Fair - Moderate Risk" then 2
    else if d == "Needs Improvement - Higher Risk" then 1
    else 0
  }

  /** A higher score never gets a worse description: the band index does not decrease. */
  lemma DescriptionMonotone(s: int, t: int)
    requires s <= t
    ensures DescriptionBand(ScoreDescription(s)) <= DescriptionBand(ScoreDescription(t))
  {
  }

  // ---------------------------------------------------------------------
  // Executive summary

  /** `${reportData.transactionCount || 0}` */
  function CountShown(count: Option<int>): (n: int)
    ensures count.None? ==> n == 0
    ensures count.Some? ==> n == count.value
  {
    match count
    case None => 0
    case Some(c) => c
  }

  /** A period end that is missing or empty prints as 'N/A'; the date formatting itself is not modelled. */
  function DateShown(date: Option<string>): (s: string)
    ensures date.None? || date.value == "" ==> s == "N/A"
    ensures date.Some? && date.value != "" ==> s == date.value
  {
    if date.Some? && date.value != "" then date.value else "N/A"
  }

  // ---------------------------------------------------------------------
  // Credit factors breakdown

  /** The status column: 80, 60 and 40 split Excellent, Good, Fair and Needs Work. */
  function FactorStatus(value: int): (status: string)
    ensures status == "Excellent" <==> value >= 80
    ensures status == "Good" <==> 60 <= value < 80
    ensures status == "Fair" <==> 40 <= value < 60
    ensures status == "Needs Work" <==> value < 40
  {
    if value >= 80 then "Excellent"
    else if value >= 60 then "Good"
    else if value >= 40 then "Fair"
    else "Needs Work"
  }

  /** One row of the factor table: the factor, its weight in percent, its score and its status. */
  datatype FactorRow = FactorRow(name: string, weight: int, score: int, status: string)

  /** The five factors with their weights 30, 25, 20, 15 and 10, in that order. */
  function FactorScores(f: Factors): seq<(string, int, int)>
  {
    [("Bill Payment History", 30, f.billPaymentHistory),
     ("Income Consistency", 25, f.incomeConsistency),
     ("Expense Management", 20, f.expenseManagement),
     ("Financial Growth", 15, f.financialGrowth),
     ("Transaction Diversity", 10, f.transactionDiversity)]
  }

  /** factorsData: the same status rule applied to each of the five factors. */
  function FactorTable(f: Factors): (rows: seq<FactorRow>)
    ensures |rows| == 5
    ensures forall i :: 0 <= i < 5 ==>
      rows[i] == FactorRow(FactorScores(f)[i].0, FactorScores(f)[i].1, FactorScores(f)[i].2, FactorStatus(FactorScores(f)[i].2))
  {
    var s := FactorScores(f);
    [FactorRow(s[0].0, s[0].1, s[0].2, FactorStatus(s[0].2)),
     FactorRow(s[1].0, s[1].1, s[1].2, FactorStatus(s[1].2)),
     FactorRow(s[2].0, s[2].1, s[2].2, FactorStatus(s[2].2)),
     FactorRow(s[3].0, s[3].1, s[3].2, FactorStatus(s[3].2)),
     FactorRow(s[4].0, s[4].1, s[4].2, FactorStatus(s[4].2))]
  }

  function WeightTotal(rows: seq<FactorRow>): int
  {
    if rows == [] then 0 else WeightTotal(rows[..|rows| - 1]) + rows[|rows| - 1].weight
  }

  /** The weights of the table add up to 100 percent. */
  lemma FactorWeightsSumTo100(f: Factors)
    ensures WeightTotal(FactorTable(f)) == 100
  {
    var rows := FactorTable(f);
    assert rows[..0] == [];
    assert WeightTotal(rows[..1]) == 30 by { assert rows[..1][..0] == rows[..0]; }
    assert WeightTotal(rows[..2]) == 55 by { assert rows[..2][..1] == rows[..1]; }
    assert WeightTotal(rows[..3]) == 75 by { assert rows[..3][..2] == rows[..2]; }
    assert WeightTotal(rows[..4]) == 90 by { assert rows[..4][..3] == rows[..3]; }
    assert rows[..5] == rows;
  }

  /** One line of the score calculation: `${score}/100 × ${weight}% = ${points} points`. */
  datatype PointsLine = PointsLine(name: string, score: int, weight: int, points: real)

  /** `(score * 0.30).toFixed(1)` and its siblings, the weight given in percent: within 0.05 of score × weight / 100. */
  function Points(score: int, weight: int): (points: real)
    ensures -0.05 <= points - (score * weight) as real / 100.0 <= 0.05
  {
    RoundTenth((score * weight) as real / 100.0)
  }

  /** The calculations block: each factor times its weight (0.30, 0.25, 0.20, 0.15, 0.10), to one decimal. */
  function Calculations(f: Factors): (lines: seq<PointsLine>)
    ensures |lines| == 5
    ensures forall i :: 0 <= i < 5 ==>
      var (name, weight, score) := FactorScores(f)[i];
      lines[i].score == score && lines[i].weight == weight && lines[i].points == Points(score, weight)
  {
    var s := FactorScores(f);
    [PointsLine("Bill Payment", s[0].2, 30, Points(s[0].2, 30)),
     PointsLine("Income Consistency", s[1].2, 25, Points(s[1].2, 25)),
     PointsLine("Expense Management", s[2].2, 20, Points(s[2].2, 20)),
     PointsLine("Financial Growth", s[3].2, 15, Points(s[3].2, 15)),
     PointsLine("Transaction Diversity", s[4].2, 10, Points(s[4].2, 10))]
  }

  /** A factor within 0..100 earns between 0 and its weight in points, rounding included. */
  lemma PointsWithinWeight(score: int, weight: int)
    requires 0 <= score <= 100 && weight >= 0
    ensures 0.0 <= Points(score, weight) <= weight as real
  {
    var product := score * weight;
    assert 0 <= product <= 100 * weight by {
      MulIntMonotone(weight, score, 100);
    }
    RoundTenthAtMost(product as real / 100.0, weight);
  }

  lemma MulIntMonotone(k: int, a: int, b: int)
    requires k >= 0 && 0 <= a <= b
    ensures 0 <= a * k <= b * k
  {
  }

  /** Rounding to a tenth cannot carry a value past a whole bound it does not exceed. */
  lemma RoundTenthAtMost(x: real, bound: int)
    requires 0.0 <= x <= bound as real
    ensures RoundTenth(x) <= bound as real
  {
    var k := (x * 10.0 + 0.5).Floor;
    assert k as real <= x * 10.0 + 0.5 <= bound as real * 10.0 + 0.5;
    assert k <= bound * 10;
    assert RoundTenth(x) == k as real / 10.0;
  }

  // ---------------------------------------------------------------------
  // Personalized recommendations

  datatype Priority = High | Medium

  function PriorityLabel(p: Priority): string
  {
    match p
    case High => "HIGH"
    case Medium => "MEDIUM"
  }

  /** The three areas, in the order they are tested. */
  datatype Area = BillPaymentImprovement | IncomeStabilization | ExpenseControl

  function AreaTitle(a: Area): string
  {
    match a
    case BillPaymentImprovement => "Bill Payment Improvement"
    case IncomeStabilization => "Income Stabilization"
    case ExpenseControl => "Expense Control"
  }

  function AreaRank(a: Area): int
  {
    match a
    case BillPaymentImprovement => 0
    case IncomeStabilization => 1
    case ExpenseControl => 2
  }

  function PriorityOf(a: Area): Priority
  {
    if a == ExpenseControl then Medium else High
  }

  /** The three action steps of each area. */
  function Actions(a: Area): (actions: seq<string>)
    ensures |actions| == 3
  {
    match a
    case BillPaymentImprovement =>
      ["Set up automatic payments for recurring bills",
       "Create payment reminders 3 days before due dates",
       "Maintain a buffer fund for unexpected expenses"]
    case IncomeStabilization =>
      ["Diversify customer base", "Establish recurring revenue contracts", "Build 3-month emergency fund"]
    case ExpenseControl =>
      ["Aim to save 20% of monthly income", "Reduce discretionary expenses", "Implement expense tracking system"]
  }

  function Impact(a: Area): string
  {
    match a
    case BillPaymentImprovement => "+50-100 points in 3-6 months"
    case IncomeStabilization => "+40-80 points in 6 months"
    case ExpenseControl => "+30-60 points in 4-6 months"
  }

  datatype Recommendation = Recommendation(priority: Priority, area: Area, score: int)

  function AreaScore(f: Factors, a: Area): int
  {
    match a
    case BillPaymentImprovement => f.billPaymentHistory
    case IncomeStabilization => f.incomeConsistency
    case ExpenseControl => f.expenseManagement
  }

  function RecommendationFor(f: Factors, a: Area): (r: Recommendation)
    ensures r.area == a
  {
    Recommendation(PriorityOf(a), a, AreaScore(f, a))
  }

  /** The area pushes its recommendation when its factor is below 70. */
  function IfBelow70(f: Factors, a: Area): seq<Recommendation>
  {
    if AreaScore(f, a) < 70 then [RecommendationFor(f, a)] else []
  }

  /** recommendations: none without factors, otherwise bill payment, income and expenses, each when below 70. */
  function Recommendations(factors: Option<Factors>): (recs: seq<Recommendation>)
    ensures |recs| <= 3
  {
    match factors
    case None => []
    case Some(f) =>
      IfBelow70(f, BillPaymentImprovement) + IfBelow70(f, IncomeStabilization) + IfBelow70(f, ExpenseControl)
  }

  predicate HasArea(recs: seq<Recommendation>, a: Area)
  {
    exists i :: 0 <= i < |recs| && recs[i].area == a
  }

  /**
   * What the recommendation page promises: an area is listed exactly when
   * its factor is below 70, with that factor's score; the areas come in
   * their fixed order, so HIGH never follows MEDIUM; without factors the
   * list is empty and the page shows the "Excellent!" text.
   */
  lemma RecommendationsPromise(factors: Option<Factors>)
    ensures var recs := Recommendations(factors);
      && (factors.None? ==> recs == [])
      && (forall a :: HasArea(recs, a) <==> factors.Some? && AreaScore(factors.value, a) < 70)
      && (forall i :: 0 <= i < |recs| ==> recs[i] == RecommendationFor(factors.value, recs[i].area))
      && (forall i, j :: 0 <= i < j < |recs| ==> AreaRank(recs[i].area) < AreaRank(recs[j].area))
      && (forall i, j :: 0 <= i < j < |recs| ==> recs[i].priority == High || recs[j].priority == Medium)
  {
    var recs := Recommendations(factors);
    if factors.Some? {
      var f := factors.value;
      var b, n, e := IfBelow70(f, BillPaymentImprovement), IfBelow70(f, IncomeStabilization), IfBelow70(f, ExpenseControl);
      assert recs == b + n + e;
      forall a ensures HasArea(recs, a) <==> AreaScore(f, a) < 70 {
        var part := IfBelow70(f, a);
        if AreaScore(f, a) < 70 {
          var k := if a == BillPaymentImprovement then 0 else if a == IncomeStabilization then |b| else |b| + |n|;
          assert recs[k] == part[0];
        }
      }
    }
  }

  /** The page shows the "Excellent!" text exactly when no factor is missing and none is below 70. */
  lemma ExcellentTextWhenNothingToImprove(factors: Option<Factors>)
    ensures Recommendations(factors) == [] <==>
      factors.None? || (factors.value.billPaymentHistory >= 70 && factors.value.incomeConsistency >= 70
                        && factors.value.expenseManagement >= 70)
  {
  }

  // ---------------------------------------------------------------------
  // Credit grade interpretation

  /** The score range of a legend row: a closed interval, or everything below a bound. */
  datatype ScoreRange = Between(low: int, high: int) | Below(bound: int)

  predicate InScoreRange(r: ScoreRange, score: int)
  {
    match r
    case Between(low, high) => low <= score <= high
    case Below(bound) => score < bound
  }

  datatype LegendRow = LegendRow(grade: string, range: ScoreRange, description: string)

  /** The grades table of the interpretation page. */
  const GradeLegend: seq<LegendRow> := [
    LegendRow("A", Between(800, 1000), "Excellent - Very Low Risk"),
    LegendRow("B+", Between(700, 799), "Good - Low Risk"),
    LegendRow("B", Between(600, 699), "Fair - Moderate Risk"),
    LegendRow("C", Between(500, 599), "Needs Improvement"),
    LegendRow("D", Below(500), "Poor - High Risk")]

  /**
   * The legend's ranges partition the scale up to 1000: every score has
   * exactly one row, and that row's description is the start of the score's
   * description (the whole of it, except for row C, which drops "- Higher
   * Risk").
   */
  lemma GradeLegendPartitions(score: int)
    requires score <= 1000
    ensures exists i :: 0 <= i < |GradeLegend| && InScoreRange(GradeLegend[i].range, score)
    ensures forall i, j ::
      (0 <= i < |GradeLegend| && 0 <= j < |GradeLegend|
       && InScoreRange(GradeLegend[i].range, score) && InScoreRange(GradeLegend[j].range, score)) ==> i == j
    ensures forall i :: 0 <= i < |GradeLegend| && InScoreRange(GradeLegend[i].range, score) ==>
      GradeLegend[i].description <= ScoreDescription(score)
  {
    var i := if score >= 800 then 0 else if score >= 700 then 1 else if score >= 600 then 2 else if score >= 500 then 3 else 4;
    assert InScoreRange(GradeLegend[i].range, score);
  }

  /** The legend grade 'B+' has no colour of its own. */
  lemma LegendGradeBPlusIsGray()
    ensures GradeLegend[1].grade == "B+" && GradeColor(GradeLegend[1].grade) == Gray
  {
  }

  // ---------------------------------------------------------------------
  // The document

  /** What the generated PDF shows, beside its number of pages. */
  datatype Pdf = Pdf(
    pages: int,
    scoreShown: int,
    scoreColor: Color,
    description: string,
    transactionsShown: int,
    periodStart: string,
    periodEnd: string,
    factorTable: seq<FactorRow>,
    calculations: seq<PointsLine>,
    totalShown: Option<int>,
    recommendations: seq<Recommendation>,
    excellentText: bool,
    legend: seq<LegendRow>)

  /** The calculations forEach: one line of 6 mm per entry. */
  method WriteLines(doc: PdfDocument, count: nat)
    modifies doc
    ensures doc.yPos == old(doc.yPos) + 6.0 * count as real && doc.pages == old(doc.pages)
  {
    var i := 0;
    while i < count
      invariant 0 <= i <= count
      invariant doc.yPos == old(doc.yPos) + 6.0 * i as real && doc.pages == old(doc.pages)
    {
      doc.Advance(6.0);
      i := i + 1;
    }
  }

  /** The recommendations forEach: each entry first makes room for 50 mm, so each adds at most one page. */
  method WriteRecommendations(doc: PdfDocument, recs: seq<Recommendation>)
    modifies doc
    ensures old(doc.pages) <= doc.pages <= old(doc.pages) + |recs|
  {
    var i := 0;
    while i < |recs|
      invariant 0 <= i <= |recs|
      invariant old(doc.pages) <= doc.pages <= old(doc.pages) + i
    {
      var _ := doc.CheckPageBreak(50.0);
      doc.Advance(12.0);
      doc.Advance(8.0);
      doc.Advance(6.0);
      WriteLines(doc, |Actions(recs[i].area)|);
      doc.Advance(2.0);
      doc.Advance(15.0);
      i := i + 1;
    }
  }

  /** A new section: a new page and the cursor below its 12 mm header bar. */
  method StartSection(doc: PdfDocument)
    modifies doc
    ensures doc.pages == old(doc.pages) + 1 && doc.yPos == doc.margin + 20.0
  {
    doc.AddPage();
    doc.MoveTo(doc.margin);
    doc.Advance(20.0);
  }

  /**
   * generateProfessionalPDF: the cover, then five sections that each start
   * on a new page (summary, factors, recommendations, grade interpretation,
   * disclaimer). Only the page-break checks and the tables add pages beyond
   * those six. The score shown, and the total under the calculations, are
   * the stored score.
   */
  method GenerateProfessionalPdf(report: PdfReport, layout: Layout) returns (pdf: Pdf)
    ensures var tables := (if report.factors.Some? then layout.factorsTablePages else 0) + layout.legendTablePages;
      var factorsBlock := if report.factors.Some? then 1 else 0;
      6 + tables <= pdf.pages <= 6 + tables + 2 + factorsBlock + |pdf.recommendations|
    ensures pdf.scoreShown == report.score && pdf.scoreColor == GradeColor(report.grade)
    ensures pdf.description == ScoreDescription(report.score)
    ensures pdf.transactionsShown == CountShown(report.transactionCount)
    ensures pdf.periodStart == DateShown(report.periodStart) && pdf.periodEnd == DateShown(report.periodEnd)
    ensures report.factors.None? ==> pdf.factorTable == [] && pdf.calculations == [] && pdf.totalShown.None?
    ensures report.factors.Some? ==>
      pdf.factorTable == FactorTable(report.factors.value) && pdf.calculations == Calculations(report.factors.value)
      && pdf.totalShown == Some(report.score)
    ensures pdf.recommendations == Recommendations(report.factors)
    ensures pdf.excellentText <==> pdf.recommendations == []
    ensures pdf.legend == GradeLegend
  {
    var doc := new PdfDocument.A4();

    // Cover page: nothing on it checks for a page break.
    var scoreColor := GradeColor(report.grade);
    var description := ScoreDescription(report.score);
    doc.MoveTo(80.0 + 70.0 + 15.0);
    doc.Advance(30.0 + 7.0 + 7.0);

    // Executive summary
    StartSection(doc);
    var transactionsShown := CountShown(report.transactionCount);
    var periodStart, periodEnd := DateShown(report.periodStart), DateShown(report.periodEnd);
    doc.Advance(layout.summaryLines as real * 6.0 + 10.0);
    var _ := doc.CheckPageBreak(40.0);
    doc.Advance(45.0);
    assert doc.pages <= 3;

    // Credit factors breakdown
    StartSection(doc);
    var factorTable, calculations, totalShown := [], [], None;
    if report.factors.Some? {
      var f := report.factors.value;
      factorTable := FactorTable(f);
      doc.AddPages(layout.factorsTablePages);
      doc.MoveTo(layout.factorsTableEnd + 15.0);
      var _ := doc.CheckPageBreak(50.0);
      doc.Advance(10.0);
      calculations := Calculations(f);
      WriteLines(doc, |calculations|);
      doc.Advance(5.0);
      totalShown := Some(report.score);
    }
    ghost var afterFactors := doc.pages;

    // Personalized recommendations
    StartSection(doc);
    var recommendations := Recommendations(report.factors);
    var excellentText := recommendations == [];
    if excellentText {
      doc.Advance(7.0);
    } else {
      WriteRecommendations(doc, recommendations);
    }

    // Credit grade interpretation
    StartSection(doc);
    var legend := GradeLegend;
    doc.AddPages(layout.legendTablePages);

    // Disclaimer
    StartSection(doc);
    doc.Advance(10.0);
    doc.Advance(layout.disclaimerLines as real * 6.0 + 20.0);
    var _ := doc.CheckPageBreak(30.0);

    pdf := Pdf(doc.pages, report.score, scoreColor, description, transactionsShown, periodStart, periodEnd,
               factorTable, calculations, totalShown, recommendations, excellentText, legend);
  }
}
