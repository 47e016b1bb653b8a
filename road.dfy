/**
 * The road of src/road.ts: a vertical strip centred on x, split into lanes of
 * equal width, bounded by two border segments that run (almost) forever.
 */
module Roads {
  import opened Utils

  /** The source's stand-in for an endless road. */
  const Infinity: real := 10000000.0

  /** A road; every field is computed once by `NewRoad` and never changes. */
  datatype Road = Road(
    x: real, width: real, laneCount: nat,
    left: real, right: real, top: real, bottom: real,
    borders: seq<seq<Point>>)
  {
    /**
     * `getLineCenter(laneIndex)`: half a lane past the left edge, then one lane
     * width per index.
     */
    function LineCenter(laneIndex: int): real
      requires laneCount > 0
    {
      var lineWidth := width / laneCount as real;
      left + lineWidth / 2.0 + laneIndex as real * lineWidth
    }
  }

  /** `new Road(x, width, laneCount)`. */
  function NewRoad(x: real, width: real, laneCount: nat): (r: Road)
    ensures r.x == x && r.width == width && r.laneCount == laneCount
  {
    var left := x - width / 2.0;
    var right := x + width / 2.0;
    var top := -Infinity;
    var bottom := Infinity;
    var topLeft := Point(left, top);
    var topRight := Point(right, top);
    var bottomLeft := Point(left, bottom);
    var bottomRight := Point(right, bottom);
    Road(x, width, laneCount, left, right, top, bottom,
      [[topLeft, bottomLeft], [topRight, bottomRight]])
  }

  /** A segment from (x, y0) to (x, y1). */
  predicate VerticalSegment(s: seq<Point>, x: real, y0: real, y1: real)
  {
    |s| == 2 && s[0] == Point(x, y0) && s[1] == Point(x, y1)
  }

  /**
   * The road is centred on x and spans its width; its borders are exactly two
   * vertical segments, at the left and at the right edge, each running from
   * the top (-10000000) to the bottom (10000000).
   */
  lemma RoadGeometry(x: real, width: real, laneCount: nat)
    ensures var r := NewRoad(x, width, laneCount);
      && r.left == x - width / 2.0 && r.right == x + width / 2.0
      && r.right - r.left == width && (r.left + r.right) / 2.0 == x
      && r.top == -Infinity && r.bottom == Infinity
      && |r.borders| == 2
      && VerticalSegment(r.borders[0], r.left, r.top, r.bottom)
      && VerticalSegment(r.borders[1], r.right, r.top, r.bottom)
  {
  }

  /** The centres of adjacent lanes are exactly one lane width apart. */
  lemma LaneCentresEvenlySpaced(r: Road, i: int)
    requires r.laneCount > 0
    ensures r.LineCenter(i + 1) - r.LineCenter(i) == r.width / r.laneCount as real
  {
  }

  /** Lane i and lane laneCount-1-i sit symmetrically about the road's centre line. */
  lemma LaneCentresSymmetric(x: real, width: real, laneCount: nat, i: int)
    requires laneCount > 0
    ensures var r := NewRoad(x, width, laneCount);
      r.LineCenter(i) - r.left == r.right - r.LineCenter(laneCount - 1 - i)
  {
    var r := NewRoad(x, width, laneCount);
    var n := laneCount as real;
    var w := width / n;
    assert w * n == width;
    calc {
      r.right - r.LineCenter(laneCount - 1 - i);
      (x + width / 2.0) - (x - width / 2.0 + w / 2.0 + (n - 1.0 - i as real) * w);
      width - w / 2.0 - n * w + w + i as real * w;
      w / 2.0 + i as real * w;
      r.LineCenter(i) - r.left;
    }
  }

  /** On a road of positive width, the centre of every lane lies strictly inside it. */
  lemma LaneCentreInside(x: real, width: real, laneCount: nat, i: int)
    requires width > 0.0 && 0 <= i < laneCount
    ensures var r := NewRoad(x, width, laneCount);
      r.left < r.LineCenter(i) < r.right
  {
    var r := NewRoad(x, width, laneCount);
    var n := laneCount as real;
    var w := width / n;
    assert r.right == r.left + n * w;
    HalfLanePastIndex(r.left, w, n, i as real, r.LineCenter(i), r.right);
  }

  lemma HalfLanePastIndex(left: real, w: real, n: real, k: real, centre: real, right: real)
    requires w > 0.0 && 0.0 <= k && k + 1.0 <= n
    requires centre == left + w / 2.0 + k * w && right == left + n * w
    ensures left < centre < right
  {
    MulNonneg(k, w);
    MulNonneg(n - (k + 1.0), w);
    assert (n - (k + 1.0)) * w == n * w - k * w - w;
  }

  /**
   * The road the simulation builds, `new Road(175, 175, 3)`: its middle lane is
   * centred on x = 175, the road's own centre.
   */
  lemma SimulationRoadMiddleLane()
    ensures NewRoad(175.0, 175.0, 3).LineCenter(1) == 175.0
    ensures NewRoad(175.0, 175.0, 3).left == 87.5 && NewRoad(175.0, 175.0, 3).right == 262.5
  {
  }
}
