/**
 * The weighted aggregate of src/components/score-breakdown.tsx: five factor
 * values with weights 30/25/20/15/10 (percent) scaled to 0..1000, and the
 * per-factor "points" the component shows.
 */
module ScoreBreakdown {
  import opened Numbers
  import opened CreditAnalysis

  /** One entry of the component's `factors` list (the description is display text only). */
  datatype ScoreFactor = ScoreFactor(title: string, value: real, weight: real)

  /**
   * The points ScoreFactor shows next to a factor: its weighted share of the
   * 0..1000 total, Math.round(((value * weight) / 100) * 10).
   */
  function Contribution(value: real, weight: real): (points: int)
    requires 0.0 <= value <= 100.0 && 0.0 <= weight <= 100.0
    ensures points as real - 0.5 <= value * weight / 10.0 < points as real + 0.5
    ensures 0 <= points && points as real <= 10.0 * weight + 0.5
  {
    var raw := ((value * weight) / 100.0) * 10.0;
    ProductNonNegative(value, weight);
    MulMonotone(weight, value, 100.0);
    assert value * weight == weight * value;
    assert raw <= 10.0 * weight;
    Round(raw)
  }

  /** The five factors of the breakdown, in display order. */
  function FactorList(f: Factors): (rows: seq<ScoreFactor>)
    ensures |rows| == 5
  {
    [ ScoreFactor("Bill Payment History", f.billPaymentHistory as real, 30.0),
      ScoreFactor("Income Consistency", f.incomeConsistency as real, 25.0),
      ScoreFactor("Expense Management", f.expenseManagement as real, 20.0),
      ScoreFactor("Financial Growth", f.financialGrowth as real, 15.0),
      ScoreFactor("Transaction Diversity", f.transactionDiversity as real, 10.0) ]
  }

  function WeightSum(rows: seq<ScoreFactor>): real
  {
    if rows == [] then 0.0 else WeightSum(rows[..|rows| - 1]) + rows[|rows| - 1].weight
  }

  /** The weights are 30, 25, 20, 15 and 10 percent and add up to 100. */
  lemma WeightsSumTo100(f: Factors)
    ensures var rows := FactorList(f);
      && rows[0].weight == 30.0 && rows[1].weight == 25.0 && rows[2].weight == 20.0
      && rows[3].weight == 15.0 && rows[4].weight == 10.0
      && WeightSum(rows) == 100.0
  {
    var rows := FactorList(f);
    assert rows[..4][..3] == rows[..3] && rows[..3][..2] == rows[..2];
    assert rows[..2][..1] == rows[..1] && rows[..1][..0] == [];
    assert WeightSum(rows[..1]) == 30.0;
    assert WeightSum(rows[..2]) == 55.0;
    assert WeightSum(rows[..3]) == 75.0;
    assert WeightSum(rows[..4]) == 90.0;
  }

  /** `factors.reduce((sum, factor) => sum + ((factor.value * factor.weight) / 100) * 10, 0)` */
  function TotalScore(rows: seq<ScoreFactor>): real
  {
    if rows == [] then 0.0
    else
      var last := rows[|rows| - 1];
      TotalScore(rows[..|rows| - 1]) + ((last.value * last.weight) / 100.0) * 10.0
  }

  /** The total of the five factors as a closed formula. */
  lemma TotalIsWeightedSum(f: Factors)
    ensures TotalScore(FactorList(f)) ==
      3.0 * f.billPaymentHistory as real + 2.5 * f.incomeConsistency as real
      + 2.0 * f.expenseManagement as real + 1.5 * f.financialGrowth as real
      + 1.0 * f.transactionDiversity as real
  {
    var rows := FactorList(f);
    var b, i, e, g, d := f.billPaymentHistory as real, f.incomeConsistency as real,
      f.expenseManagement as real, f.financialGrowth as real, f.transactionDiversity as real;
    assert rows[..4][..3] == rows[..3] && rows[..3][..2] == rows[..2];
    assert rows[..2][..1] == rows[..1] && rows[..1][..0] == [];
    assert TotalScore(rows[..1]) == 3.0 * b;
    assert TotalScore(rows[..2]) == 3.0 * b + 2.5 * i;
    assert TotalScore(rows[..3]) == 3.0 * b + 2.5 * i + 2.0 * e;
    assert TotalScore(rows[..4]) == 3.0 * b + 2.5 * i + 2.0 * e + 1.5 * g;
  }

  /** The total the component displays: Math.round(totalScore). */
  function DisplayedTotal(f: Factors): (score: int)
    requires InRange(f)
    ensures 0 <= score <= 1000
  {
    TotalIsWeightedSum(f);
    RoundWithin(TotalScore(FactorList(f)), 0, 1000);
    Round(TotalScore(FactorList(f)))
  }

  /** Factors in 0..100 give a total in 0..1000; all 100 give 1000 and all 0 give 0. */
  lemma TotalBounds(f: Factors)
    requires InRange(f)
    ensures 0.0 <= TotalScore(FactorList(f)) <= 1000.0
    ensures f == Factors(100, 100, 100, 100, 100) ==> TotalScore(FactorList(f)) == 1000.0 && DisplayedTotal(f) == 1000
    ensures f == Factors(0, 0, 0, 0, 0) ==> TotalScore(FactorList(f)) == 0.0 && DisplayedTotal(f) == 0
  {
    TotalIsWeightedSum(f);
  }

  predicate FactorsLe(f: Factors, g: Factors)
  {
    && f.billPaymentHistory <= g.billPaymentHistory
    && f.incomeConsistency <= g.incomeConsistency
    && f.expenseManagement <= g.expenseManagement
    && f.financialGrowth <= g.financialGrowth
    && f.transactionDiversity <= g.transactionDiversity
  }

  /** Raising any factor never lowers the total, nor the displayed total. */
  lemma TotalMonotone(f: Factors, g: Factors)
    requires InRange(f) && InRange(g) && FactorsLe(f, g)
    ensures TotalScore(FactorList(f)) <= TotalScore(FactorList(g))
    ensures DisplayedTotal(f) <= DisplayedTotal(g)
  {
    TotalIsWeightedSum(f);
    TotalIsWeightedSum(g);
    RoundMonotone(TotalScore(FactorList(f)), TotalScore(FactorList(g)));
  }

  /** Sum of the points shown on the rows. */
  function PointsShown(rows: seq<ScoreFactor>): int
    requires forall i :: 0 <= i < |rows| ==> 0.0 <= rows[i].value <= 100.0 && 0.0 <= rows[i].weight <= 100.0
  {
    if rows == [] then 0
    else
      var last := rows[|rows| - 1];
      PointsShown(rows[..|rows| - 1]) + Contribution(last.value, last.weight)
  }

  /**
   * The points shown on the rows are rounded one by one and the total once,
   * so they add up to the unrounded total to within half a point per row.
   */
  lemma {:induction false} PointsNearTotal(rows: seq<ScoreFactor>)
    requires forall i :: 0 <= i < |rows| ==> 0.0 <= rows[i].value <= 100.0 && 0.0 <= rows[i].weight <= 100.0
    ensures PointsShown(rows) as real - TotalScore(rows) <= 0.5 * |rows| as real
    ensures rows != [] ==> TotalScore(rows) - PointsShown(rows) as real < 0.5 * |rows| as real
  {
    if rows != [] {
      PointsNearTotal(rows[..|rows| - 1]);
    }
  }

  /** With the five weights, the rows' points and the displayed total differ by at most 2. */
  lemma ShownPointsVersusTotal(f: Factors)
    requires InRange(f)
    ensures -2 <= PointsShown(FactorList(f)) - DisplayedTotal(f) <= 2
  {
    PointsNearTotal(FactorList(f));
  }
}
