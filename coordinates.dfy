/**
 * Placement of a dial point (src/widgets/TimeFrameSlider/lib/utils/calculateCoordinates/calculateCoordinates.ts).
 *
 * Angles are whole degrees: for every accepted dot count 360 / count is an integer.
 * `Math.cos` and `Math.sin` are outside this model; they come in as a `Trig` value whose
 * functions take degrees, so `t.cos(a)` stands for `Math.cos(a * Math.PI / 180)`.
 */
module Coordinates {
  import opened Results
  import opened DialConstants

  /** A point relative to the dial's centre, in pixels. */
  datatype DotCoordinates = DotCoordinates(x: real, y: real)

  /** The three errors the guard clauses throw, in the order they are tested. */
  datatype CoordinateError =
    | CountOutOfRange       // the dot count is outside 2..6
    | IndexOutOfRange       // the dot index is outside 0..5
    | IndexNotBelowCount    // the dot index is not less than the dot count

  /** Cosine and sine of an angle given in degrees. */
  datatype Trig = Trig(cos: int -> real, sin: int -> real)

  /** What is known of the true cosine and sine and used below. */
  ghost predicate TrigLaws(t: Trig) {
    && (forall a :: t.cos(a) * t.cos(a) + t.sin(a) * t.sin(a) == 1.0)
    && t.cos(0) == 1.0 && t.sin(0) == 0.0
    && t.cos(90) == 0.0 && t.sin(90) == 1.0
    && t.cos(180) == -1.0 && t.sin(180) == 0.0
    && t.cos(270) == 0.0 && t.sin(270) == -1.0
  }

  /** The dot counts the calculator accepts. */
  predicate ValidCount(count: int) {
    2 <= count <= 6
  }

  /** The angle of dot `index` out of `count`, in degrees. */
  function AngleDegrees(count: int, index: int): (a: int)
    requires ValidCount(count)
    // index / count of a full turn, exactly
    ensures count * a == FullCircleDegrees * index
  {
    (FullCircleDegrees / count) * index
  }

  /** `calculateCoordinates(dotsAmount, dotIndex)`. */
  function CalculateCoordinates(t: Trig, count: int, index: int): (r: Result<DotCoordinates, CoordinateError>)
    // the calculator succeeds exactly on the documented domain
    ensures r.Success? <==> ValidCount(count) && 0 <= index < count
    // the count is checked first: a bad count always reports the count error
    ensures r == Failure(CountOutOfRange) <==> !ValidCount(count)
    // then the fixed index range, whatever the count
    ensures r == Failure(IndexOutOfRange) <==> ValidCount(count) && !(0 <= index <= 5)
    // and last the index against the count
    ensures r == Failure(IndexNotBelowCount) <==> ValidCount(count) && 0 <= index <= 5 && count <= index
    // a success is the point at the dot's angle on the circle of radius CircleRadius
    ensures r.Success? ==> r.value == DotCoordinates(
      CircleRadius as real * t.cos(AngleDegrees(count, index)),
      CircleRadius as real * t.sin(AngleDegrees(count, index)))
  {
    if count < 2 || count > 6 then
      Failure(CountOutOfRange)
    else if index < 0 || index > 5 then
      Failure(IndexOutOfRange)
    else if index >= count then
      Failure(IndexNotBelowCount)
    else
      var angle := AngleDegrees(count, index);
      Success(DotCoordinates(CircleRadius as real * t.cos(angle), CircleRadius as real * t.sin(angle)))
  }

  /** The cases the calculator's tests name, each with the error it throws or its success. */
  lemma TestedCases(t: Trig)
    ensures CalculateCoordinates(t, 0, 0) == Failure(CountOutOfRange)
    ensures CalculateCoordinates(t, -1, 0) == Failure(CountOutOfRange)
    ensures CalculateCoordinates(t, 1, 0) == Failure(CountOutOfRange)
    ensures CalculateCoordinates(t, 7, 0) == Failure(CountOutOfRange)
    ensures CalculateCoordinates(t, 4, -1) == Failure(IndexOutOfRange)
    ensures CalculateCoordinates(t, 6, 6) == Failure(IndexOutOfRange)
    ensures CalculateCoordinates(t, 3, 3) == Failure(IndexNotBelowCount)
    ensures CalculateCoordinates(t, 2, 4) == Failure(IndexNotBelowCount)
    ensures forall n, i :: 2 <= n <= 6 && 0 <= i < n ==> CalculateCoordinates(t, n, i).Success?
  {
  }

  /** 360 / count is exact for every accepted count: count steps make one full turn. */
  lemma StepDividesTurn(count: int)
    requires ValidCount(count)
    ensures FullCircleDegrees / count > 0
    ensures count * (FullCircleDegrees / count) == FullCircleDegrees
  {
  }

  /** Dot 0 is on the positive x-axis and every dot's angle lies in [0, 360). */
  lemma AngleInTurn(count: int, index: int)
    requires ValidCount(count) && 0 <= index < count
    ensures AngleDegrees(count, 0) == 0
    ensures 0 <= AngleDegrees(count, index) < FullCircleDegrees
  {
  }

  /** Consecutive dots are 360 / count degrees apart: the dots are evenly spaced. */
  lemma EvenSpacing(count: int, index: int)
    requires ValidCount(count) && 0 <= index && index + 1 < count
    ensures AngleDegrees(count, index + 1) - AngleDegrees(count, index) == FullCircleDegrees / count
    ensures count * (AngleDegrees(count, index + 1) - AngleDegrees(count, index)) == FullCircleDegrees
  {
  }

  /** Different dots of one dial sit at different angles. */
  lemma AnglesDistinct(count: int, i: int, j: int)
    requires ValidCount(count) && 0 <= i < count && 0 <= j < count && i != j
    ensures AngleDegrees(count, i) != AngleDegrees(count, j)
  {
  }

  /** Every point the calculator returns is at distance CircleRadius from the centre. */
  lemma OnCircle(t: Trig, count: int, index: int)
    requires TrigLaws(t)
    requires CalculateCoordinates(t, count, index).Success?
    ensures var p := CalculateCoordinates(t, count, index).value;
      p.x * p.x + p.y * p.y == (CircleRadius * CircleRadius) as real
  {
  }

  /** Dot 0 of any dial is the point (R, 0). */
  lemma FirstDotOnXAxis(t: Trig, count: int)
    requires TrigLaws(t) && ValidCount(count)
    ensures CalculateCoordinates(t, count, 0) == Success(DotCoordinates(CircleRadius as real, 0.0))
  {
  }

  /** With an even dot count, the middle dot is opposite dot 0: angle 180, the point (-R, 0). */
  lemma OppositeDot(t: Trig, count: int)
    requires TrigLaws(t) && ValidCount(count) && count % 2 == 0
    ensures AngleDegrees(count, count / 2) == HalfCircleDegrees
    ensures CalculateCoordinates(t, count, count / 2) == Success(DotCoordinates(-CircleRadius as real, 0.0))
  {
  }

  /** On a four-dot dial the dots are at (R, 0), (0, R), (-R, 0), (0, -R). */
  lemma FourDots(t: Trig)
    requires TrigLaws(t)
    ensures CalculateCoordinates(t, 4, 0) == Success(DotCoordinates(CircleRadius as real, 0.0))
    ensures CalculateCoordinates(t, 4, 1) == Success(DotCoordinates(0.0, CircleRadius as real))
    ensures CalculateCoordinates(t, 4, 2) == Success(DotCoordinates(-CircleRadius as real, 0.0))
    ensures CalculateCoordinates(t, 4, 3) == Success(DotCoordinates(0.0, -CircleRadius as real))
  {
  }
}
