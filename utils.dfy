/**
 * What the core imports from src/utils.ts and from the browser, whose code is
 * not part of this model: points, linear interpolation, and the collaborators
 * that are kept abstract (trigonometry, polygon intersection, the ray-cast
 * sensor, Math.random).
 */
module Utils {

  datatype Option<T> = None | Some(value: T)

  /** A 2-D coordinate, as produced by polygon and border computations. */
  datatype Point = Point(x: real, y: real)

  /** The conventional linear interpolation `a + (b - a) * t`. */
  function Lerp(a: real, b: real, t: real): real
  {
    a + (b - a) * t
  }

  /** Interpolating between two values with a factor in [0,1] stays between them. */
  lemma LerpBetween(a: real, b: real, t: real, lo: real, hi: real)
    requires 0.0 <= t <= 1.0
    requires lo <= a <= hi && lo <= b <= hi
    ensures lo <= Lerp(a, b, t) <= hi
  {
    var s := 1.0 - t;
    assert Lerp(a, b, t) == a * s + b * t;
    MulNonneg(a - lo, s); MulNonneg(hi - a, s);
    MulNonneg(b - lo, t); MulNonneg(hi - b, t);
    assert Lerp(a, b, t) - lo == (a - lo) * s + (b - lo) * t;
    assert hi - Lerp(a, b, t) == (hi - a) * s + (hi - b) * t;
  }

  /** `Math.abs`. */
  function Abs(r: real): real
  {
    if r < 0.0 then -r else r
  }

  /** The product of two non-negative reals is non-negative. */
  lemma MulNonneg(x: real, y: real)
    requires x >= 0.0 && y >= 0.0
    ensures x * y >= 0.0
  {
  }

  /**
   * The stream of values returned by successive calls of Math.random:
   * `draw(k)` is the k-th value. Every method that draws takes the index of
   * its first draw.
   */
  type Draws = nat -> real

  /** The draws in [from, from + count) are all in [0,1), as Math.random promises. */
  predicate UnitDraws(draw: Draws, from: nat, count: nat)
  {
    forall k :: from <= k < from + count ==> 0.0 <= draw(k) < 1.0
  }

  /** A block of unit draws contains only unit draws. */
  lemma UnitDrawsWithin(draw: Draws, from: nat, count: nat, from': nat, count': nat)
    requires UnitDraws(draw, from, count)
    requires from <= from' && from' + count' <= from + count
    ensures UnitDraws(draw, from', count')
  {
  }

  /** `Math.random() * 2 - 1`: a fresh parameter value from one draw. */
  function Fresh(r: real): real
  {
    r * 2.0 - 1.0
  }

  /** A unit draw gives a parameter in [-1,1). */
  lemma FreshInRange(r: real)
    requires 0.0 <= r < 1.0
    ensures -1.0 <= Fresh(r) < 1.0
  {
  }

  /**
   * The collaborators that the core calls but whose code is not modelled:
   * Math.sin, Math.cos, Math.hypot, Math.atan2 and Math.PI, the
   * `polygonsIntersect` predicate of src/utils.ts, and the ray-cast sensor of
   * src/sensor.ts, given as the readings (an offset along each ray, or none)
   * it produces for a car at (x, y) heading `angle` among the road borders and
   * the traffic polygons.
   */
  datatype Env = Env(
    sin: real -> real,
    cos: real -> real,
    hypot: (real, real) -> real,
    atan2: (real, real) -> real,
    pi: real,
    polygonsIntersect: (seq<Point>, seq<Point>) -> bool,
    sense: (real, real, real, seq<seq<Point>>, seq<seq<Point>>) -> seq<Option<real>>)
  {
    /** The sensor always reports one reading per ray. */
    ghost predicate SensesRays(rayCount: nat)
    {
      forall x, y, angle, borders, traffic :: |sense(x, y, angle, borders, traffic)| == rayCount
    }
  }
}
