/**
 * The geometry helpers of the framework: points, distances and the degree-based
 * angle arithmetic used to compare headings and bearings.
 */
module Geometry {

  /** A position on the track plane, in metres. */
  datatype Point = Point(x: real, y: real)

  /** The square of the Euclidean distance between two points; exact over the reals. */
  function SquaredDistance(a: Point, b: Point): (r: real)
    ensures r >= 0.0
    ensures a == b ==> r == 0.0
  {
    (b.x - a.x) * (b.x - a.x) + (b.y - a.y) * (b.y - a.y)
  }

  /**
   * `dist` is the Euclidean distance: never negative, and its square is the squared
   * distance. The square root itself is floating-point arithmetic, so the framework
   * takes the distance function as a parameter and this predicate says what it must be.
   */
  ghost predicate IsEuclidean(dist: (Point, Point) -> real)
  {
    forall a, b :: dist(a, b) >= 0.0 && dist(a, b) * dist(a, b) == SquaredDistance(a, b)
  }

  /** For non-negative reals, comparing values and comparing their squares agree. */
  lemma SquareIsStrictlyMonotone(u: real, v: real)
    requires u >= 0.0 && v >= 0.0
    ensures u < v <==> u * u < v * v
  {
    if u < v {
      calc {
        u * u;
      <= { assert u * (v - u) >= 0.0; }
        u * v;
      < { assert v * (v - u) > 0.0; }
        v * v;
      }
    } else {
      calc {
        v * v;
      <= { assert v * (u - v) >= 0.0; }
        v * u;
      <= { assert u * (u - v) >= 0.0; }
        u * u;
      }
    }
  }

  /**
   * For a true Euclidean distance, "strictly nearer" can be decided on squared
   * distances, which avoid the square root altogether.
   */
  lemma NearerBySquaredDistance(dist: (Point, Point) -> real, p: Point, a: Point, b: Point)
    requires IsEuclidean(dist)
    ensures dist(p, a) < dist(p, b) <==> SquaredDistance(p, a) < SquaredDistance(p, b)
  {
    SquareIsStrictlyMonotone(dist(p, a), dist(p, b));
  }

  /**
   * Brings an angle in degrees back towards the range -180..180 with a single wrap.
   * The two boundaries are treated asymmetrically: 180 becomes -180 and -180 becomes
   * 180, and inputs at or beyond 540 in magnitude stay out of range.
   */
  function AngleInProperRange(angle: real): (r: real)
    ensures -180.0 < angle < 180.0 ==> r == angle
    ensures 180.0 <= angle < 540.0 ==> r == angle - 360.0 && -180.0 <= r < 180.0
    ensures -540.0 < angle <= -180.0 ==> r == angle + 360.0 && -180.0 < r <= 180.0
    ensures angle >= 540.0 ==> r == angle - 360.0 && r >= 180.0
    ensures angle <= -540.0 ==> r == angle + 360.0 && r <= -180.0
    ensures r == angle || r == angle - 360.0 || r == angle + 360.0
  {
    if angle >= 180.0 then
      angle - 360.0
    else if angle <= -180.0 then
      360.0 + angle
    else
      angle
  }

  /** The wrap is symmetric about zero: negating the input negates the result. */
  lemma AngleInProperRangeIsOdd(angle: real)
    ensures AngleInProperRange(-angle) == -AngleInProperRange(angle)
  {
  }

  /** At the two boundaries the wrap swaps sign, so applying it twice undoes it. */
  lemma AngleInProperRangeSwapsBoundaries()
    ensures AngleInProperRange(180.0) == -180.0
    ensures AngleInProperRange(-180.0) == 180.0
    ensures AngleInProperRange(AngleInProperRange(180.0)) != AngleInProperRange(180.0)
  {
  }

  /**
   * The signed turn, in degrees, from direction `current` to direction `required`:
   * positive turns anticlockwise.
   */
  function TurnBetweenDirections(current: real, required: real): (r: real)
    ensures current == required ==> r == 0.0
    ensures -180.0 <= current <= 180.0 && -180.0 <= required <= 180.0 ==> -180.0 <= r <= 180.0
    ensures current + r == required || current + r == required - 360.0 || current + r == required + 360.0
  {
    AngleInProperRange(required - current)
  }

  /** Turning from `a` to `b` is the opposite of turning from `b` to `a`, boundaries included. */
  lemma TurnBetweenDirectionsIsAntisymmetric(a: real, b: real)
    ensures TurnBetweenDirections(a, b) == -TurnBetweenDirections(b, a)
  {
  }

  /**
   * The difference of two directions is wrapped once only: a difference of 540 or more
   * comes back reduced by one revolution and still above 180, e.g. turn(0, 600) = 240.
   */
  lemma TurnBetweenDirectionsWrapsOnce(current: real, required: real)
    ensures required - current >= 540.0 ==>
      TurnBetweenDirections(current, required) == required - current - 360.0
      && TurnBetweenDirections(current, required) >= 180.0
    ensures required - current <= -540.0 ==>
      TurnBetweenDirections(current, required) == required - current + 360.0
      && TurnBetweenDirections(current, required) <= -180.0
    ensures TurnBetweenDirections(0.0, 600.0) == 240.0
  {
  }
}
