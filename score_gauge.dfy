/**
 * The ScoreGauge component of src/components/score-gauge.tsx: its state
 * (the animated value, the grade and the grade's colour) and the two
 * effects that update it. The gauge has its own four grades, at 800, 600
 * and 400. The SVG arc is not modelled.
 */
module ScoreGauge {

  datatype GaugeColor = Green | Blue | Yellow | Red

  /** The grades the gauge shows, best first. */
  function GradeRank(grade: string): int
  {
    if grade == "A" then 3 else if grade == "B" then 2 else if grade == "C" then 1 else 0
  }

  /** Each grade goes with one colour: A green, B blue, C yellow, D red. */
  predicate Paired(grade: string, color: GaugeColor)
  {
    || (grade == "A" && color == Green)
    || (grade == "B" && color == Blue)
    || (grade == "C" && color == Yellow)
    || (grade == "D" && color == Red)
  }

  /** The threshold chain of the grade effect. */
  function GradeFor(value: int): (g: (string, GaugeColor))
    ensures g.0 == "A" <==> value >= 800
    ensures g.0 == "B" <==> 600 <= value < 800
    ensures g.0 == "C" <==> 400 <= value < 600
    ensures g.0 == "D" <==> value < 400
    ensures Paired(g.0, g.1)
  {
    if value >= 800 then ("A", Green)
    else if value >= 600 then ("B", Blue)
    else if value >= 400 then ("C", Yellow)
    else ("D", Red)
  }

  /** Raising the value never lowers the grade. */
  lemma GradeMonotone(v: int, w: int)
    requires v <= w
    ensures GradeRank(GradeFor(v).0) <= GradeRank(GradeFor(w).0)
  {
  }

  /** One rendered gauge: its `value` prop and its state hooks. */
  class Gauge {
    const value: int
    const max: int
    var animatedValue: int
    var grade: string
    var gradeColor: GaugeColor

    /** Grade and colour always agree. */
    predicate Valid()
      reads this
    {
      Paired(grade, gradeColor)
    }

    /** The first render: the animated value at 0, grade D in red, before any effect has run. */
    constructor(value: int, max: int)
      ensures this.value == value && this.max == max
      ensures animatedValue == 0 && grade == "D" && gradeColor == Red
      ensures Valid()
    {
      this.value := value;
      this.max := max;
      animatedValue := 0;
      grade := "D";
      gradeColor := Red;
    }

    /** The first effect: the animation frame sets the animated value to the value; the grade is untouched. */
    method Animate()
      requires Valid()
      modifies this
      ensures animatedValue == value
      ensures grade == old(grade) && gradeColor == old(gradeColor)
      ensures Valid()
    {
      animatedValue := value;
    }

    /** The second effect: grade and colour set together from the value. */
    method ApplyGrade()
      modifies this
      ensures (grade, gradeColor) == GradeFor(value)
      ensures animatedValue == old(animatedValue)
      ensures Valid()
    {
      if value >= 800 {
        grade := "A";
        gradeColor := Green;
      } else if value >= 600 {
        grade := "B";
        gradeColor := Blue;
      } else if value >= 400 {
        grade := "C";
        gradeColor := Yellow;
      } else {
        grade := "D";
        gradeColor := Red;
      }
    }
  }

  /** A mounted gauge after both effects: the value is shown and the grade is the value's. */
  method Mount(value: int, max: int) returns (g: Gauge)
    ensures g.animatedValue == value && (g.grade, g.gradeColor) == GradeFor(value) && g.Valid()
  {
    g := new Gauge(value, max);
    g.Animate();
    g.ApplyGrade();
  }
}
