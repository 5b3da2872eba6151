/** Geometry kernel of the tennis analytics core: bounding-box centre, foot point,
    width and height, xy and Euclidean distance, the nearest-keypoint search by
    vertical distance, and the pixel/metre conversions. */
module BBoxUtils {
  import opened Optional

  /** A bounding box (x1, y1, x2, y2) in source-frame pixels. */
  datatype BBox = BBox(x1: real, y1: real, x2: real, y2: real)

  /** A point, or an offset between two points. */
  datatype Point = Point(x: real, y: real)

  /** A floating-point value that may be NaN (an undetected keypoint, an absent ball). */
  datatype Float = NaN | Num(v: real)

  predicate WellFormed(b: BBox) {
    b.x1 <= b.x2 && b.y1 <= b.y2
  }

  function Abs(x: real): real {
    if x < 0.0 then -x else x
  }

  predicate IsIntegral(x: real) {
    x == x.Floor as real
  }

  /** `r` is what Python's `int(x)` gives: the integer next to `x` on the side of zero. */
  predicate IsTruncation(r: real, x: real) {
    && IsIntegral(r)
    && (0.0 <= x ==> r <= x < r + 1.0)
    && (x < 0.0 ==> r - 1.0 < x <= r)
  }

  /** Python's `int(x)` on a float: truncation toward zero. */
  function Trunc(x: real): (r: int)
    ensures IsTruncation(r as real, x)
  {
    if x >= 0.0 then x.Floor else -((-x).Floor)
  }

  /** Truncation is a function of its argument: the characterisation admits one value. */
  lemma TruncationUnique(r1: real, r2: real, x: real)
    requires IsTruncation(r1, x) && IsTruncation(r2, x)
    ensures r1 == r2
  {
    var i1, i2 := r1.Floor, r2.Floor;
    assert r1 == i1 as real && r2 == i2 as real;
    assert (i1 - i2) as real < 1.0 && (i2 - i1) as real < 1.0;
    assert i1 - i2 < 1 && i2 - i1 < 1;
  }

  /** For a non-negative argument truncation is the floor. */
  lemma FloorIsTruncation(x: real)
    requires 0.0 <= x
    ensures IsTruncation(x.Floor as real, x)
    ensures Trunc(x) == x.Floor
  {
    TruncationUnique(Trunc(x) as real, x.Floor as real, x);
  }

  /** The truncated midpoint of a non-negative interval lies in the interval. */
  lemma TruncatedMidpointInside(lo: real, hi: real)
    requires 0.0 <= lo <= hi
    ensures Trunc((lo + hi) / 2.0) == ((lo + hi) / 2.0).Floor
    ensures lo.Floor <= Trunc((lo + hi) / 2.0) && Trunc((lo + hi) / 2.0) as real <= hi
  {
    var mid := (lo + hi) / 2.0;
    FloorIsTruncation(mid);
    assert lo.Floor as real <= lo <= mid < mid.Floor as real + 1.0;
    assert lo.Floor < mid.Floor + 1;
  }

  /** get_center_of_bbox: the midpoints of the two sides, each truncated to an integer. */
  function CenterOfBBox(b: BBox): (c: Point)
    ensures IsTruncation(c.x, (b.x1 + b.x2) / 2.0)
    ensures IsTruncation(c.y, (b.y1 + b.y2) / 2.0)
  {
    Point(Trunc((b.x1 + b.x2) / 2.0) as real, Trunc((b.y1 + b.y2) / 2.0) as real)
  }

  /** For non-negative coordinates truncation is the floor, and the centre lies in the box. */
  lemma CenterOfNonNegativeBox(b: BBox)
    requires WellFormed(b) && 0.0 <= b.x1 && 0.0 <= b.y1
    ensures CenterOfBBox(b).x == ((b.x1 + b.x2) / 2.0).Floor as real
    ensures CenterOfBBox(b).y == ((b.y1 + b.y2) / 2.0).Floor as real
    ensures b.x1.Floor as real <= CenterOfBBox(b).x <= b.x2
    ensures b.y1.Floor as real <= CenterOfBBox(b).y <= b.y2
  {
    TruncatedMidpointInside(b.x1, b.x2);
    TruncatedMidpointInside(b.y1, b.y2);
  }

  /** get_bbox_width */
  function BBoxWidth(b: BBox): (w: real)
    ensures b.x1 + w == b.x2
    ensures WellFormed(b) ==> w >= 0.0
  {
    b.x2 - b.x1
  }

  /** get_height_of_bbox */
  function BBoxHeight(b: BBox): (h: real)
    ensures b.y1 + h == b.y2
    ensures WellFormed(b) ==> h >= 0.0
  {
    b.y2 - b.y1
  }

  /** get_foot_position: the centre's x and the truncated bottom edge. */
  function FootPosition(b: BBox): (p: Point)
    ensures p.x == CenterOfBBox(b).x
    ensures IsTruncation(p.y, b.y2)
  {
    Point(Trunc((b.x1 + b.x2) / 2.0) as real, Trunc(b.y2) as real)
  }

  /** measure_xy_distance: the componentwise offset from q to p. */
  function MeasureXYDistance(p: Point, q: Point): (d: Point)
    ensures q.x + d.x == p.x && q.y + d.y == p.y
  {
    Point(p.x - q.x, p.y - q.y)
  }

  lemma XYDistanceAntisymmetric(p: Point, q: Point)
    ensures MeasureXYDistance(p, q) == Point(-MeasureXYDistance(q, p).x, -MeasureXYDistance(q, p).y)
  {
  }

  function SquaredDistance(p: Point, q: Point): (d2: real)
    ensures d2 >= 0.0
  {
    var dx, dy := p.x - q.x, p.y - q.y;
    assert dx * dx >= 0.0 && dy * dy >= 0.0;
    dx * dx + dy * dy
  }

  /** The squared distance does not depend on the order of the points. */
  lemma SquaredDistanceSymmetric(p: Point, q: Point)
    ensures SquaredDistance(p, q) == SquaredDistance(q, p)
  {
    assert SquaredDistance(p, q) == (p.x - q.x) * (p.x - q.x) + (p.y - q.y) * (p.y - q.y);
    assert SquaredDistance(q, p) == (q.x - p.x) * (q.x - p.x) + (q.y - p.y) * (q.y - p.y);
    assert (p.x - q.x) * (p.x - q.x) == (q.x - p.x) * (q.x - p.x);
    assert (p.y - q.y) * (p.y - q.y) == (q.y - p.y) * (q.y - p.y);
  }

  /** `sqrt` is the non-negative square root on the non-negative reals. */
  ghost predicate IsSqrt(sqrt: real -> real) {
    forall x :: 0.0 <= x ==> 0.0 <= sqrt(x) && sqrt(x) * sqrt(x) == x
  }

  /** measure_distance: `((dx**2 + dy**2)**0.5`, with the square root supplied as `sqrt`. */
  function MeasureDistance(p: Point, q: Point, sqrt: real -> real): (d: real)
    ensures IsSqrt(sqrt) ==> 0.0 <= d && d * d == SquaredDistance(p, q)
  {
    sqrt(SquaredDistance(p, q))
  }

  /** Two non-negative reals with the same square are equal. */
  lemma NonNegativeRootUnique(a: real, b: real)
    requires 0.0 <= a && 0.0 <= b && a * a == b * b
    ensures a == b
  {
    assert (a - b) * (a + b) == 0.0;
    if a + b != 0.0 {
      assert a - b == ((a - b) * (a + b)) / (a + b);
    }
  }

  lemma DistanceSymmetric(p: Point, q: Point, sqrt: real -> real)
    ensures MeasureDistance(p, q, sqrt) == MeasureDistance(q, p, sqrt)
  {
    SquaredDistanceSymmetric(p, q);
  }

  lemma DistanceZeroIffSamePoint(p: Point, q: Point, sqrt: real -> real)
    requires IsSqrt(sqrt)
    ensures MeasureDistance(p, q, sqrt) == 0.0 <==> p == q
  {
    var d := MeasureDistance(p, q, sqrt);
    var dx, dy := p.x - q.x, p.y - q.y;
    assert d * d == dx * dx + dy * dy;
    if d == 0.0 {
      assert dx * dx >= 0.0 && dy * dy >= 0.0;
      assert Abs(dx) * Abs(dx) == dx * dx == 0.0 && Abs(dy) * Abs(dy) == dy * dy == 0.0;
      NonNegativeRootUnique(Abs(dx), 0.0);
      NonNegativeRootUnique(Abs(dy), 0.0);
    }
    if p == q {
      assert d * d == 0.0;
      NonNegativeRootUnique(d, 0.0);
    }
  }

  /** A distance exceeds a non-negative threshold exactly when its square exceeds the
      threshold's square: a `dist > 100` test is a `d² > 10000` test. */
  lemma DistanceExceedsIff(p: Point, q: Point, sqrt: real -> real, t: real)
    requires IsSqrt(sqrt) && 0.0 <= t
    ensures MeasureDistance(p, q, sqrt) > t <==> SquaredDistance(p, q) > t * t
  {
    var d := MeasureDistance(p, q, sqrt);
    assert 0.0 <= d && d * d == SquaredDistance(p, q);
    if d > t {
      var u, w := d - t, d + t;
      assert u > 0.0 && w > 0.0;
      assert u * w > 0.0;
      assert d * d - t * t == u * w;
    } else {
      assert t * t - d * d == (t - d) * (t + d);
      assert (t - d) * (t + d) >= 0.0;
    }
  }

  /** convert_pixel_distance_to_meters: scale by metres per reference pixel. */
  function PixelDistanceToMeters(pixelDistance: real, referenceHeightInMeters: real, referenceHeightInPixels: real): (m: real)
    requires referenceHeightInPixels != 0.0
    ensures m * referenceHeightInPixels == pixelDistance * referenceHeightInMeters
  {
    (pixelDistance * referenceHeightInMeters) / referenceHeightInPixels
  }

  /** convert_meters_to_pixel_distance: scale by reference pixels per metre. */
  function MetersToPixelDistance(meters: real, referenceWidthInMeters: real, referenceWidthInPixels: real): (px: real)
    requires referenceWidthInMeters != 0.0
    ensures px * referenceWidthInMeters == meters * referenceWidthInPixels
  {
    (meters * referenceWidthInPixels) / referenceWidthInMeters
  }

  /** With one (metres, pixels) reference pair the two conversions undo each other. */
  lemma ConversionRoundTrip(d: real, refMeters: real, refPixels: real)
    requires refMeters != 0.0 && refPixels != 0.0
    ensures MetersToPixelDistance(PixelDistanceToMeters(d, refMeters, refPixels), refMeters, refPixels) == d
    ensures PixelDistanceToMeters(MetersToPixelDistance(d, refMeters, refPixels), refMeters, refPixels) == d
  {
    var m := PixelDistanceToMeters(d, refMeters, refPixels);
    var px := MetersToPixelDistance(m, refMeters, refPixels);
    assert px * refMeters * refPixels == m * refPixels * refPixels;
    assert m * refPixels * refPixels == d * refMeters * refPixels;
    assert (px - d) * (refMeters * refPixels) == 0.0;
    var px2 := MetersToPixelDistance(d, refMeters, refPixels);
    var m2 := PixelDistanceToMeters(px2, refMeters, refPixels);
    assert m2 * refPixels * refMeters == px2 * refMeters * refMeters;
    assert px2 * refMeters * refMeters == d * refPixels * refMeters;
    assert (m2 - d) * (refMeters * refPixels) == 0.0;
  }

  /** Both conversions are linear in the distance. */
  lemma ConversionsLinear(a: real, b: real, d1: real, d2: real, refMeters: real, refPixels: real)
    requires refMeters != 0.0 && refPixels != 0.0
    ensures PixelDistanceToMeters(a * d1 + b * d2, refMeters, refPixels)
         == a * PixelDistanceToMeters(d1, refMeters, refPixels) + b * PixelDistanceToMeters(d2, refMeters, refPixels)
    ensures MetersToPixelDistance(a * d1 + b * d2, refMeters, refPixels)
         == a * MetersToPixelDistance(d1, refMeters, refPixels) + b * MetersToPixelDistance(d2, refMeters, refPixels)
  {
    var m1, m2 := PixelDistanceToMeters(d1, refMeters, refPixels), PixelDistanceToMeters(d2, refMeters, refPixels);
    var m := PixelDistanceToMeters(a * d1 + b * d2, refMeters, refPixels);
    assert (m - (a * m1 + b * m2)) * refPixels == 0.0;
    var p1, p2 := MetersToPixelDistance(d1, refMeters, refPixels), MetersToPixelDistance(d2, refMeters, refPixels);
    var p := MetersToPixelDistance(a * d1 + b * d2, refMeters, refPixels);
    assert (p - (a * p1 + b * p2)) * refMeters == 0.0;
  }

  // ---------------------------------------------------------------------------
  // get_closest_keypoint_index

  /** Every index names a keypoint (x at 2*i, y at 2*i+1) of the flat keypoint list. */
  predicate IndicesInRange(keypoints: seq<Float>, validIndices: seq<nat>) {
    forall i :: 0 <= i < |validIndices| ==> 2 * validIndices[i] + 1 < |keypoints|
  }

  /** `abs(point.y - keypoint.y)`, NaN when the keypoint's y is NaN. */
  function VerticalDistance(point: Point, keypoints: seq<Float>, k: nat): (d: Float)
    requires 2 * k + 1 < |keypoints|
    ensures d.NaN? <==> keypoints[2 * k + 1].NaN?
    ensures d.Num? ==> 0.0 <= d.v && (d.v == point.y - keypoints[2 * k + 1].v || d.v == keypoints[2 * k + 1].v - point.y)
  {
    match keypoints[2 * k + 1]
    case NaN => NaN
    case Num(y) => Num(Abs(point.y - y))
  }

  /** Keypoint `j` is a number at least as close as keypoint `k` (any number beats NaN). */
  predicate AtLeastAsClose(point: Point, keypoints: seq<Float>, j: nat, k: nat)
    requires 2 * j + 1 < |keypoints| && 2 * k + 1 < |keypoints|
  {
    var dj, dk := VerticalDistance(point, keypoints, j), VerticalDistance(point, keypoints, k);
    dj.Num? && (dk.NaN? || dj.v <= dk.v)
  }

  /** Position `p` of `validIndices` holds the answer of the search: its keypoint is at
      least as close as every numeric one, no earlier position is at least as close,
      and when its distance is NaN (every distance is) it is the first position. */
  predicate ClosestAt(point: Point, keypoints: seq<Float>, validIndices: seq<nat>, p: nat)
    requires IndicesInRange(keypoints, validIndices)
  {
    && p < |validIndices|
    && (forall q :: 0 <= q < |validIndices| && VerticalDistance(point, keypoints, validIndices[q]).Num? ==>
          AtLeastAsClose(point, keypoints, validIndices[p], validIndices[q]))
    && (forall q :: 0 <= q < p ==> !AtLeastAsClose(point, keypoints, validIndices[q], validIndices[p]))
    && (VerticalDistance(point, keypoints, validIndices[p]).NaN? ==> p == 0)
  }

  ghost predicate IsClosest(point: Point, keypoints: seq<Float>, validIndices: seq<nat>, k: nat)
    requires IndicesInRange(keypoints, validIndices)
  {
    exists p :: 0 <= p < |validIndices| && validIndices[p] == k && ClosestAt(point, keypoints, validIndices, p)
  }

  /** The strict `distance < closest_distance` test; `None` stands for `float('inf')`. */
  predicate Below(d: Float, closest: Option<real>) {
    d.Num? && (closest.None? || d.v < closest.value)
  }

  /** The search loop of get_closest_keypoint_index, from position `i` with the running
      best distance and index. */
  function ClosestFrom(point: Point, keypoints: seq<Float>, validIndices: seq<nat>,
                       i: nat, closest: Option<real>, keyPointInd: nat): nat
    requires i <= |validIndices| && IndicesInRange(keypoints, validIndices)
    decreases |validIndices| - i
  {
    if i == |validIndices| then keyPointInd
    else
      var d := VerticalDistance(point, keypoints, validIndices[i]);
      if Below(d, closest) then ClosestFrom(point, keypoints, validIndices, i + 1, Some(d.v), validIndices[i])
      else ClosestFrom(point, keypoints, validIndices, i + 1, closest, keyPointInd)
  }

  /** What the loop knows after positions `0..i`: the running best sits at position `bp`. */
  ghost predicate SearchState(point: Point, keypoints: seq<Float>, validIndices: seq<nat>,
                              i: nat, closest: Option<real>, bp: nat)
    requires IndicesInRange(keypoints, validIndices)
  {
    && i <= |validIndices| && bp < |validIndices|
    && (closest.None? ==> bp == 0 && forall q :: 0 <= q < i ==> VerticalDistance(point, keypoints, validIndices[q]).NaN?)
    && (closest.Some? ==>
          && bp < i
          && VerticalDistance(point, keypoints, validIndices[bp]) == Num(closest.value)
          && (forall q :: 0 <= q < i && VerticalDistance(point, keypoints, validIndices[q]).Num? ==>
                closest.value <= VerticalDistance(point, keypoints, validIndices[q]).v)
          && (forall q :: 0 <= q < bp ==> !AtLeastAsClose(point, keypoints, validIndices[q], validIndices[bp])))
  }

  lemma {:induction false} ClosestFromIsClosest(point: Point, keypoints: seq<Float>, validIndices: seq<nat>,
                                                i: nat, closest: Option<real>, bp: nat)
    requires IndicesInRange(keypoints, validIndices)
    requires SearchState(point, keypoints, validIndices, i, closest, bp)
    ensures IsClosest(point, keypoints, validIndices, ClosestFrom(point, keypoints, validIndices, i, closest, validIndices[bp]))
    decreases |validIndices| - i
  {
    if i == |validIndices| {
      assert ClosestAt(point, keypoints, validIndices, bp);
    } else {
      var d := VerticalDistance(point, keypoints, validIndices[i]);
      if Below(d, closest) {
        forall q | 0 <= q < i
          ensures !AtLeastAsClose(point, keypoints, validIndices[q], validIndices[i])
        {
        }
        ClosestFromIsClosest(point, keypoints, validIndices, i + 1, Some(d.v), i);
      } else {
        ClosestFromIsClosest(point, keypoints, validIndices, i + 1, closest, bp);
      }
    }
  }

  /** get_closest_keypoint_index, as a function: the first of `validIndices` whose keypoint
      is vertically nearest `point`, or `validIndices[0]` when every distance is NaN. */
  function ClosestKeypointIndex(point: Point, keypoints: seq<Float>, validIndices: seq<nat>): (k: nat)
    requires |validIndices| > 0 && IndicesInRange(keypoints, validIndices)
    ensures k in validIndices
  {
    ClosestFromIsClosest(point, keypoints, validIndices, 0, None, 0);
    ClosestFrom(point, keypoints, validIndices, 0, None, validIndices[0])
  }

  /** The function meets the specification: its index is the vertically nearest
      numeric keypoint, the first such, or the first index when none is numeric. */
  lemma ClosestKeypointIndexIsClosest(point: Point, keypoints: seq<Float>, validIndices: seq<nat>)
    requires |validIndices| > 0 && IndicesInRange(keypoints, validIndices)
    ensures IsClosest(point, keypoints, validIndices, ClosestKeypointIndex(point, keypoints, validIndices))
  {
    ClosestFromIsClosest(point, keypoints, validIndices, 0, None, 0);
  }

  /** The specification `IsClosest` admits exactly one index. */
  lemma ClosestIsUnique(point: Point, keypoints: seq<Float>, validIndices: seq<nat>, k1: nat, k2: nat)
    requires IndicesInRange(keypoints, validIndices)
    requires IsClosest(point, keypoints, validIndices, k1) && IsClosest(point, keypoints, validIndices, k2)
    ensures k1 == k2
  {
    var p1 :| 0 <= p1 < |validIndices| && validIndices[p1] == k1 && ClosestAt(point, keypoints, validIndices, p1);
    var p2 :| 0 <= p2 < |validIndices| && validIndices[p2] == k2 && ClosestAt(point, keypoints, validIndices, p2);
    var d1 := VerticalDistance(point, keypoints, k1);
    var d2 := VerticalDistance(point, keypoints, k2);
    var c12 := AtLeastAsClose(point, keypoints, k1, k2);
    var c21 := AtLeastAsClose(point, keypoints, k2, k1);
    assert d1.Num? ==> c21;
    assert d2.Num? ==> c12;
    assert p1 < p2 ==> !c12;
    assert p2 < p1 ==> !c21;
  }

  /** The returned keypoint is vertically no farther than any other numeric one, and a
      keypoint at an earlier position is strictly farther (ties go to the first). */
  lemma ClosestIsNearestAndFirst(point: Point, keypoints: seq<Float>, validIndices: seq<nat>, q: nat)
    requires |validIndices| > 0 && IndicesInRange(keypoints, validIndices)
    requires q < |validIndices| && VerticalDistance(point, keypoints, validIndices[q]).Num?
    ensures var k := ClosestKeypointIndex(point, keypoints, validIndices);
      && VerticalDistance(point, keypoints, k).Num?
      && VerticalDistance(point, keypoints, k).v <= VerticalDistance(point, keypoints, validIndices[q]).v
      && (VerticalDistance(point, keypoints, k).v == VerticalDistance(point, keypoints, validIndices[q]).v ==>
            exists p :: 0 <= p <= q && validIndices[p] == k)
  {
    var k := ClosestKeypointIndex(point, keypoints, validIndices);
    ClosestKeypointIndexIsClosest(point, keypoints, validIndices);
    var p :| 0 <= p < |validIndices| && validIndices[p] == k && ClosestAt(point, keypoints, validIndices, p);
    assert q < p ==> !AtLeastAsClose(point, keypoints, validIndices[q], validIndices[p]);
  }

  /** With every candidate keypoint NaN no comparison succeeds and the first index is kept. */
  lemma ClosestWithoutNumbersIsFirst(point: Point, keypoints: seq<Float>, validIndices: seq<nat>)
    requires |validIndices| > 0 && IndicesInRange(keypoints, validIndices)
    requires forall q :: 0 <= q < |validIndices| ==> keypoints[2 * validIndices[q] + 1].NaN?
    ensures ClosestKeypointIndex(point, keypoints, validIndices) == validIndices[0]
  {
    var k := ClosestKeypointIndex(point, keypoints, validIndices);
    ClosestKeypointIndexIsClosest(point, keypoints, validIndices);
    var p :| 0 <= p < |validIndices| && validIndices[p] == k && ClosestAt(point, keypoints, validIndices, p);
    assert VerticalDistance(point, keypoints, validIndices[p]).NaN?;
  }

  /** get_closest_keypoint_index: the loop over `validIndices` with the running
      `closest_distance` (`None` for infinity) and `key_point_ind`. */
  method GetClosestKeypointIndex(point: Point, keypoints: seq<Float>, validIndices: seq<nat>) returns (keyPointInd: nat)
    requires |validIndices| > 0 && IndicesInRange(keypoints, validIndices)
    ensures keyPointInd == ClosestKeypointIndex(point, keypoints, validIndices)
  {
    var closestDistance: Option<real> := None;
    keyPointInd := validIndices[0];
    for i := 0 to |validIndices|
      invariant ClosestFrom(point, keypoints, validIndices, i, closestDistance, keyPointInd)
             == ClosestKeypointIndex(point, keypoints, validIndices)
    {
      var distance := VerticalDistance(point, keypoints, validIndices[i]);
      if Below(distance, closestDistance) {
        closestDistance := Some(distance.v);
        keyPointInd := validIndices[i];
      }
    }
  }
}
