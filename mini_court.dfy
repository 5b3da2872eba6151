/** The mini-court overlay: its canvas layout as derived from the frame width, the
    28-slot table of court keypoints drawn on it, and the projection of players and
    the ball from video pixels onto mini-court coordinates. */
module MiniCourtProjection {
  import opened Optional
  import opened Constants
  import opened BBoxUtils
  import opened Tracks

  // ---------------------------------------------------------------------------
  // Layout of the keypoint table

  /** `convert_meters_to_pixels` for a court drawn `courtDrawingWidth` pixels wide: the
      doubles width (10.97 m) spans the drawing width. */
  function MetersToDrawing(meters: real, courtDrawingWidth: int): (px: real)
    ensures px * DoubleLineWidth == meters * courtDrawingWidth as real
  {
    MetersToPixelDistance(meters, DoubleLineWidth, courtDrawingWidth as real)
  }

  /** Court distances add up on the drawing as they do in metres. */
  lemma MetersToDrawingAdditive(a: real, b: real, w: int)
    ensures MetersToDrawing(a + b, w) == MetersToDrawing(a, w) + MetersToDrawing(b, w)
  {
    assert (a + b) * w as real == a * w as real + b * w as real;
  }

  /** The table `set_court_drawing_key_points` builds: point i is the pair of slots
      2i, 2i+1; every slot after the first five is derived from earlier slots and the
      court's real dimensions. */
  function CourtKeyPoints(csx: int, csy: int, cex: int, cdw: int): (kp: seq<real>)
    ensures |kp| == 28
  {
    var alley := MetersToDrawing(DoubleAllyDifference, cdw);
    var noMansLand := MetersToDrawing(NoMansLandHeight, cdw);
    var singles := MetersToDrawing(SingleLineWidth, cdw);
    var k0, k1, k2, k3, k4 := csx as real, csy as real, cex as real, csy as real, csx as real;
    var k5 := csy as real + MetersToDrawing(HalfCourtLineHeight * 2.0, cdw);
    var k6, k7 := k0 + cdw as real, k5;
    var k8, k9, k10, k11 := k0 + alley, k1, k4 + alley, k5;
    var k12, k13, k14, k15 := k2 - alley, k3, k6 - alley, k7;
    var k16, k17 := k8, k9 + noMansLand;
    var k18, k19 := k16 + singles, k17;
    var k20, k21 := k10, k11 - noMansLand;
    var k22, k23 := k20 + singles, k21;
    var k24, k25 := Trunc((k16 + k18) / 2.0) as real, k17;
    var k26, k27 := Trunc((k20 + k22) / 2.0) as real, k21;
    [k0, k1, k2, k3, k4, k5, k6, k7, k8, k9, k10, k11, k12, k13,
     k14, k15, k16, k17, k18, k19, k20, k21, k22, k23, k24, k25, k26, k27]
  }

  /** The eight court lines, as pairs of point numbers. */
  const CourtLines: seq<(nat, nat)> := [(0, 2), (4, 5), (6, 7), (1, 3), (0, 1), (8, 9), (10, 11), (2, 3)]

  /** Every line joins two of the 14 points of the 28-slot keypoint table. */
  lemma CourtLinesInRange(kp: seq<real>)
    requires |kp| == 28
    ensures forall i :: 0 <= i < |CourtLines| ==>
      2 * CourtLines[i].0 + 1 < |kp| && 2 * CourtLines[i].1 + 1 < |kp|
  {
  }

  /** Point i of a keypoint table. */
  function PointAt(kp: seq<real>, i: nat): Point
    requires 2 * i + 1 < |kp|
  {
    Point(kp[2 * i], kp[2 * i + 1])
  }

  /** The baselines and the doubles corners: point 0 is the top-left corner, point 1
      the top-right one, points 2 and 3 lie two half-court lengths lower, and the
      doubles sidelines are the drawing width apart. */
  lemma CourtCorners(csx: int, csy: int, cex: int, cdw: int)
    requires cdw == cex - csx
    ensures var kp := CourtKeyPoints(csx, csy, cex, cdw);
      && PointAt(kp, 0) == Point(csx as real, csy as real)
      && PointAt(kp, 1) == Point(cex as real, csy as real)
      && PointAt(kp, 2) == Point(csx as real, csy as real + MetersToDrawing(2.0 * HalfCourtLineHeight, cdw))
      && PointAt(kp, 3) == Point(cex as real, csy as real + MetersToDrawing(2.0 * HalfCourtLineHeight, cdw))
      && PointAt(kp, 1).x - PointAt(kp, 0).x == MetersToDrawing(DoubleLineWidth, cdw)
  {
  }

  /** The singles court: points 4 to 7 are the singles corners, inset by the alley
      width; the service line's right end (point 9) lies on the right singles sideline
      (point 6's x), because 8.23 + 2 * 1.37 = 10.97. */
  lemma SinglesSidelines(csx: int, csy: int, cex: int, cdw: int)
    requires cdw == cex - csx
    ensures var kp := CourtKeyPoints(csx, csy, cex, cdw);
      var alley := MetersToDrawing(DoubleAllyDifference, cdw);
      && PointAt(kp, 4).x == csx as real + alley && PointAt(kp, 5).x == csx as real + alley
      && PointAt(kp, 6).x == cex as real - alley && PointAt(kp, 7).x == cex as real - alley
      && PointAt(kp, 4).y == PointAt(kp, 0).y && PointAt(kp, 6).y == PointAt(kp, 1).y
      && PointAt(kp, 5).y == PointAt(kp, 2).y && PointAt(kp, 7).y == PointAt(kp, 3).y
      && PointAt(kp, 9).x == PointAt(kp, 6).x && PointAt(kp, 11).x == PointAt(kp, 7).x
  {
    MetersToDrawingAdditive(SingleLineWidth, DoubleAllyDifference, cdw);
    MetersToDrawingAdditive(SingleLineWidth + DoubleAllyDifference, DoubleAllyDifference, cdw);
    assert SingleLineWidth + DoubleAllyDifference + DoubleAllyDifference == DoubleLineWidth;
  }

  /** The service lines (points 8-9 and 10-11) lie a no-man's-land depth inside each
      baseline, symmetric about the net, and the centre service marks (points 12 and
      13) are the truncated midpoints of the service lines. */
  lemma ServiceLines(csx: int, csy: int, cex: int, cdw: int)
    ensures var kp := CourtKeyPoints(csx, csy, cex, cdw);
      var net := csy as real + MetersToDrawing(HalfCourtLineHeight, cdw);
      && PointAt(kp, 8).y == PointAt(kp, 9).y == PointAt(kp, 0).y + MetersToDrawing(NoMansLandHeight, cdw)
      && PointAt(kp, 10).y == PointAt(kp, 11).y == PointAt(kp, 2).y - MetersToDrawing(NoMansLandHeight, cdw)
      && PointAt(kp, 8).y - net == net - PointAt(kp, 10).y
      && PointAt(kp, 9).x - PointAt(kp, 8).x == MetersToDrawing(SingleLineWidth, cdw)
      && PointAt(kp, 12) == Point(Trunc((PointAt(kp, 8).x + PointAt(kp, 9).x) / 2.0) as real, PointAt(kp, 8).y)
      && PointAt(kp, 13) == Point(Trunc((PointAt(kp, 10).x + PointAt(kp, 11).x) / 2.0) as real, PointAt(kp, 10).y)
  {
    MetersToDrawingAdditive(HalfCourtLineHeight, HalfCourtLineHeight, cdw);
  }

  // ---------------------------------------------------------------------------
  // Projection helpers that do not depend on the mini court

  /** The court keypoints searched for the nearest reference: in the table's layout,
      the two left doubles corners (points 0 and 2) and the two centre service marks
      (points 12 and 13). */
  const Anchors: seq<nat> := [0, 2, 12, 13]

  /** The detected court keypoints cover the anchors, and the four anchors are numbers. */
  predicate AnchorsNumeric(keypoints: seq<Float>) {
    && |keypoints| >= 28
    && forall q :: 0 <= q < |Anchors| ==> keypoints[2 * Anchors[q]].Num? && keypoints[2 * Anchors[q] + 1].Num?
  }

  /** The nearest anchor to a point (by vertical distance), and its pixel position. */
  function NearestAnchor(point: Point, keypoints: seq<Float>): (k: nat)
    requires AnchorsNumeric(keypoints)
    ensures k in Anchors && 2 * k + 1 < |keypoints|
  {
    ClosestKeypointIndex(point, keypoints, Anchors)
  }

  function AnchorPoint(keypoints: seq<Float>, k: nat): Point
    requires AnchorsNumeric(keypoints) && k in Anchors
  {
    Point(keypoints[2 * k].v, keypoints[2 * k + 1].v)
  }

  /** `order` lists the keys of a dictionary, each once. */
  predicate Enumerates(order: seq<int>, keys: set<int>) {
    && (forall i :: 0 <= i < |order| ==> order[i] in keys)
    && (forall id :: id in keys ==> id in order)
    && (forall i, j :: 0 <= i < j < |order| ==> order[i] != order[j])
  }

  /** A key order of a non-empty dictionary is not empty. */
  lemma EnumeratesNonEmpty(order: seq<int>, keys: set<int>)
    requires Enumerates(order, keys) && keys != {}
    ensures |order| > 0
  {
    var id := Element(keys);
    assert id in order;
  }

  /** Every track id that appears in some frame. */
  function PlayerIds(players: seq<Frame>): set<int> {
    set f, id | 0 <= f < |players| && id in players[f] :: id
  }

  /** `id_map.get(player_id, 1)`: the first enumerated id is player 1, every other
      enumerated id player 2, an id not enumerated defaults to 1. */
  function MappedId(uniqueIds: seq<int>, id: int): (m: int)
    ensures m == 1 || m == 2
    ensures m == 2 <==> id in uniqueIds && uniqueIds[0] != id
  {
    if id in uniqueIds && uniqueIds[0] != id then 2 else 1
  }

  /** `player_heights.get(mapped_id, 1.88)`. */
  function HeightInMeters(mappedId: int): (h: real)
    ensures h == if mappedId == 2 then Player2HeightMeters else Player1HeightMeters
  {
    if mappedId == 1 then Player1HeightMeters
    else if mappedId == 2 then Player2HeightMeters
    else Player1HeightMeters
  }

  /** The id map of the source with distinct enumerated ids: the first goes to 1.88 m,
      every other to 1.91 m. */
  lemma IdMapHeights(uniqueIds: seq<int>, i: nat)
    requires i < |uniqueIds|
    requires forall p, q :: 0 <= p < q < |uniqueIds| ==> uniqueIds[p] != uniqueIds[q]
    ensures HeightInMeters(MappedId(uniqueIds, uniqueIds[i])) ==
      if i == 0 then Player1HeightMeters else Player2HeightMeters
  {
  }

  /** `bboxes_heights_in_pixels`: the bbox heights of `id` over frames [lo, hi) where it
      appears, in frame order. */
  function WindowHeights(players: seq<Frame>, id: int, lo: int, hi: int): (hs: seq<real>)
    requires 0 <= lo && hi <= |players| && AllBoxed(players)
    decreases hi - lo
  {
    if hi <= lo then []
    else
      var rest := WindowHeights(players, id, lo, hi - 1);
      if id in players[hi - 1] then rest + [BBoxHeight(players[hi - 1][id].bbox.value)] else rest
  }

  /** Python's `max` of a non-empty list. */
  function SeqMax(s: seq<real>): real
    requires |s| > 0
  {
    if |s| == 1 then s[0]
    else
      var m := SeqMax(s[..|s| - 1]);
      if s[|s| - 1] > m then s[|s| - 1] else m
  }

  /** `SeqMax` is an element of the list and bounds every element. */
  lemma {:induction false} SeqMaxIsMax(s: seq<real>)
    requires |s| > 0
    ensures SeqMax(s) in s
    ensures forall i :: 0 <= i < |s| ==> s[i] <= SeqMax(s)
  {
    if |s| > 1 {
      var init := s[..|s| - 1];
      SeqMaxIsMax(init);
      assert forall i :: 0 <= i < |s| - 1 ==> s[i] == init[i];
    }
  }

  function WindowStart(f: int): int {
    if f - 20 > 0 then f - 20 else 0
  }

  function WindowEnd(players: seq<Frame>, f: int): int {
    if |players| < f + 50 then |players| else f + 50
  }

  /** `max_player_height_in_pixels` for `id` at frame `f`. */
  function ReferenceHeight(players: seq<Frame>, f: nat, id: int): real
    requires f < |players| && id in players[f] && AllBoxed(players)
  {
    var hs := WindowHeights(players, id, WindowStart(f), WindowEnd(players, f));
    if |hs| > 0 then SeqMax(hs) else BBoxHeight(players[f][id].bbox.value)
  }

  /** A frame's height is among the window's heights exactly when the id appears in it. */
  lemma {:induction false} WindowHeightsMembers(players: seq<Frame>, id: int, lo: int, hi: int, g: int)
    requires 0 <= lo && hi <= |players| && AllBoxed(players)
    requires lo <= g < hi && id in players[g]
    ensures BBoxHeight(players[g][id].bbox.value) in WindowHeights(players, id, lo, hi)
    decreases hi - lo
  {
    if g < hi - 1 {
      WindowHeightsMembers(players, id, lo, hi - 1, g);
    }
  }

  /** Every window height is the height of the id's bbox in a frame of the window. */
  lemma {:induction false} WindowHeightsFromWindow(players: seq<Frame>, id: int, lo: int, hi: int, h: real)
    requires 0 <= lo && hi <= |players| && AllBoxed(players)
    requires h in WindowHeights(players, id, lo, hi)
    ensures exists g :: lo <= g < hi && id in players[g] && h == BBoxHeight(players[g][id].bbox.value)
    decreases hi - lo
  {
    var rest := WindowHeights(players, id, lo, hi - 1);
    if h in rest {
      WindowHeightsFromWindow(players, id, lo, hi - 1, h);
    } else {
      assert id in players[hi - 1] && h == BBoxHeight(players[hi - 1][id].bbox.value);
    }
  }

  /** The window [max(0, f-20), min(N, f+50)) always holds frame f, so the fallback is
      never taken: the reference is the tallest bbox of the id within 20 frames before
      and 49 after, at least its height in frame f. */
  lemma ReferenceHeightIsWindowMax(players: seq<Frame>, f: nat, id: int)
    requires f < |players| && id in players[f] && AllBoxed(players)
    ensures var hs := WindowHeights(players, id, WindowStart(f), WindowEnd(players, f));
      |hs| > 0 && ReferenceHeight(players, f, id) == SeqMax(hs)
    ensures ReferenceHeight(players, f, id) >= BBoxHeight(players[f][id].bbox.value)
    ensures exists g :: (&& f - 20 <= g < f + 50 && 0 <= g < |players| && id in players[g]
                         && ReferenceHeight(players, f, id) == BBoxHeight(players[g][id].bbox.value))
    ensures forall g :: f - 20 <= g < f + 50 && 0 <= g < |players| && id in players[g] ==>
      BBoxHeight(players[g][id].bbox.value) <= ReferenceHeight(players, f, id)
  {
    var lo, hi := WindowStart(f), WindowEnd(players, f);
    WindowHeightsMembers(players, id, lo, hi, f);
    var hs := WindowHeights(players, id, lo, hi);
    SeqMaxIsMax(hs);
    WindowHeightsFromWindow(players, id, lo, hi, SeqMax(hs));
    forall g | f - 20 <= g < f + 50 && 0 <= g < |players| && id in players[g]
      ensures BBoxHeight(players[g][id].bbox.value) <= ReferenceHeight(players, f, id)
    {
      WindowHeightsMembers(players, id, lo, hi, g);
    }
  }

  /** Reference heights the projection divides by are never zero. */
  predicate HeightsNonZero(players: seq<Frame>)
    requires AllBoxed(players)
  {
    forall f, id :: 0 <= f < |players| && id in players[f] ==> ReferenceHeight(players, f, id) != 0.0
  }

  /** `ball_position`: the centre of the ball's bbox under key 1, if it has one. */
  function BallPosition(ballFrame: Frame): (p: Option<Point>)
    ensures p.Some? <==> 1 in ballFrame && ballFrame[1].bbox.Some?
  {
    if 1 in ballFrame && ballFrame[1].bbox.Some? then Some(CenterOfBBox(ballFrame[1].bbox.value)) else None
  }

  /** The distance from the ball to a player's bbox centre: the key of the `min`. */
  function BallDistance(ball: Point, frame: Frame, id: int, sqrt: real -> real): real
    requires id in frame && frame[id].bbox.Some?
  {
    MeasureDistance(ball, CenterOfBBox(frame[id].bbox.value), sqrt)
  }

  /** `min` scanning the keys from position i with the best-so-far at position `best`:
      a later key replaces it only when strictly nearer. */
  function NearestFrom(ball: Point, frame: Frame, order: seq<int>, i: nat, best: nat, sqrt: real -> real): (p: nat)
    requires best < |order| && i <= |order|
    requires forall q :: 0 <= q < |order| ==> order[q] in frame && frame[order[q]].bbox.Some?
    ensures p < |order|
    decreases |order| - i
  {
    if i == |order| then best
    else if BallDistance(ball, frame, order[i], sqrt) < BallDistance(ball, frame, order[best], sqrt)
    then NearestFrom(ball, frame, order, i + 1, i, sqrt)
    else NearestFrom(ball, frame, order, i + 1, best, sqrt)
  }

  /** Position p of `order` holds a key nearest the ball, and every earlier key is
      strictly farther. */
  predicate FirstNearestAt(ball: Point, frame: Frame, order: seq<int>, p: nat, sqrt: real -> real)
    requires forall q :: 0 <= q < |order| ==> order[q] in frame && frame[order[q]].bbox.Some?
  {
    && p < |order|
    && (forall q :: 0 <= q < |order| ==> BallDistance(ball, frame, order[p], sqrt) <= BallDistance(ball, frame, order[q], sqrt))
    && (forall q :: 0 <= q < p ==> BallDistance(ball, frame, order[p], sqrt) < BallDistance(ball, frame, order[q], sqrt))
  }

  lemma {:induction false} NearestFromIsFirstNearest(ball: Point, frame: Frame, order: seq<int>, i: nat, best: nat, sqrt: real -> real)
    requires best < i <= |order|
    requires forall q :: 0 <= q < |order| ==> order[q] in frame && frame[order[q]].bbox.Some?
    requires forall q :: 0 <= q < i ==> BallDistance(ball, frame, order[best], sqrt) <= BallDistance(ball, frame, order[q], sqrt)
    requires forall q :: 0 <= q < best ==> BallDistance(ball, frame, order[best], sqrt) < BallDistance(ball, frame, order[q], sqrt)
    ensures FirstNearestAt(ball, frame, order, NearestFrom(ball, frame, order, i, best, sqrt), sqrt)
    decreases |order| - i
  {
    if i < |order| {
      if BallDistance(ball, frame, order[i], sqrt) < BallDistance(ball, frame, order[best], sqrt) {
        NearestFromIsFirstNearest(ball, frame, order, i + 1, i, sqrt);
      } else {
        NearestFromIsFirstNearest(ball, frame, order, i + 1, best, sqrt);
      }
    }
  }

  /** `closest_player_id_to_ball`: `min` over the frame's keys in dictionary order,
      keyed by the distance from the ball to the player's bbox centre. */
  function ClosestPlayer(ball: Point, frame: Frame, order: seq<int>, sqrt: real -> real): (id: int)
    requires |order| > 0
    requires forall q :: 0 <= q < |order| ==> order[q] in frame && frame[order[q]].bbox.Some?
    ensures id in order
    ensures exists p :: 0 <= p < |order| && order[p] == id && FirstNearestAt(ball, frame, order, p, sqrt)
  {
    var p := NearestFrom(ball, frame, order, 1, 0, sqrt);
    NearestFromIsFirstNearest(ball, frame, order, 1, 0, sqrt);
    order[p]
  }

  /** The player `min` picks is nearest the ball, and the first in dictionary order of
      those at that distance. */
  lemma ClosestPlayerIsNearestAndFirst(ball: Point, frame: Frame, order: seq<int>, sqrt: real -> real, q: nat)
    requires |order| > 0 && q < |order|
    requires forall r :: 0 <= r < |order| ==> order[r] in frame && frame[order[r]].bbox.Some?
    requires forall i, j :: 0 <= i < j < |order| ==> order[i] != order[j]
    ensures var id := ClosestPlayer(ball, frame, order, sqrt);
      && BallDistance(ball, frame, id, sqrt) <= BallDistance(ball, frame, order[q], sqrt)
      && (BallDistance(ball, frame, id, sqrt) == BallDistance(ball, frame, order[q], sqrt) ==>
            exists p :: 0 <= p <= q && order[p] == id)
  {
    var id := ClosestPlayer(ball, frame, order, sqrt);
    var p :| 0 <= p < |order| && order[p] == id && FirstNearestAt(ball, frame, order, p, sqrt);
    assert BallDistance(ball, frame, id, sqrt) == BallDistance(ball, frame, order[q], sqrt) ==> !(q < p);
  }

  // ---------------------------------------------------------------------------
  // The mini court

  class MiniCourt {
    const drawingRectangleWidth: int := 250
    const drawingRectangleHeight: int := 500
    const buffer: int := 50
    const paddingCourt: int := 20

    var startX: int
    var startY: int
    var endX: int
    var endY: int
    var courtStartX: int
    var courtStartY: int
    var courtEndX: int
    var courtEndY: int
    var courtDrawingWidth: int
    var drawingKeyPoints: seq<real>
    var lines: seq<(nat, nat)>

    /** The layout the constructor sets up: the canvas box sits `buffer` pixels from the
        top-right corner, the court is inset by `paddingCourt` on every side, and the
        keypoint table and lines are built from those. */
    predicate Valid()
      reads this
    {
      && startX == endX - drawingRectangleWidth
      && startY == endY - drawingRectangleHeight
      && endY == buffer + drawingRectangleHeight
      && courtStartX == startX + paddingCourt
      && courtStartY == startY + paddingCourt
      && courtEndX == endX - paddingCourt
      && courtEndY == endY - paddingCourt
      && courtDrawingWidth == courtEndX - courtStartX
      && drawingKeyPoints == CourtKeyPoints(courtStartX, courtStartY, courtEndX, courtDrawingWidth)
      && lines == CourtLines
    }

    /** `MiniCourt(frame)`, for a frame `frameWidth` pixels wide. */
    constructor(frameWidth: int)
      ensures Valid()
      ensures endX == frameWidth - 50 && startX == frameWidth - 300 && startY == 50 && endY == 550
    {
      new;
      SetCanvasBackgroundBoxPosition(frameWidth);
      SetMiniCourtPosition();
      SetCourtDrawingKeyPoints();
      SetCourtLines();
    }

    /** Whatever the frame width, the court rectangle is 210 by 460 pixels, inset 20
        pixels inside the canvas box. */
    lemma LayoutIndependentOfFrame()
      requires Valid()
      ensures courtDrawingWidth == 210 && courtEndY - courtStartY == 460
      ensures courtStartX == startX + 20 && courtEndX == endX - 20
      ensures courtStartY == 70 && courtEndY == 530
    {
    }

    method SetCanvasBackgroundBoxPosition(frameWidth: int)
      modifies this`endX, this`endY, this`startX, this`startY
      ensures endX == frameWidth - buffer && endY == buffer + drawingRectangleHeight
      ensures startX == endX - drawingRectangleWidth && startY == endY - drawingRectangleHeight
    {
      endX := frameWidth - buffer;
      endY := buffer + drawingRectangleHeight;
      startX := endX - drawingRectangleWidth;
      startY := endY - drawingRectangleHeight;
    }

    method SetMiniCourtPosition()
      modifies this`courtStartX, this`courtStartY, this`courtEndX, this`courtEndY, this`courtDrawingWidth
      ensures courtStartX == startX + paddingCourt && courtStartY == startY + paddingCourt
      ensures courtEndX == endX - paddingCourt && courtEndY == endY - paddingCourt
      ensures courtDrawingWidth == courtEndX - courtStartX
    {
      courtStartX := startX + paddingCourt;
      courtStartY := startY + paddingCourt;
      courtEndX := endX - paddingCourt;
      courtEndY := endY - paddingCourt;
      courtDrawingWidth := courtEndX - courtStartX;
    }

    /** `convert_meters_to_pixels`: metres on the real court to pixels on the drawing. */
    function ConvertMetersToPixels(meters: real): (px: real)
      reads this
      ensures px * DoubleLineWidth == meters * courtDrawingWidth as real
    {
      MetersToDrawing(meters, courtDrawingWidth)
    }

    /** The doubles width maps to the drawing width, and the conversion is linear. */
    lemma MetersToPixelsScale(a: real, b: real, m1: real, m2: real)
      ensures ConvertMetersToPixels(DoubleLineWidth) == courtDrawingWidth as real
      ensures ConvertMetersToPixels(a * m1 + b * m2) == a * ConvertMetersToPixels(m1) + b * ConvertMetersToPixels(m2)
    {
      var w := courtDrawingWidth as real;
      assert (a * m1 + b * m2) * w == a * (m1 * w) + b * (m2 * w);
    }

    /** Fills a 28-slot list slot by slot, each slot from earlier ones. */
    method SetCourtDrawingKeyPoints()
      modifies this`drawingKeyPoints
      ensures drawingKeyPoints == CourtKeyPoints(courtStartX, courtStartY, courtEndX, courtDrawingWidth)
    {
      var kp: seq<real> := seq(28, _ => 0.0);
      kp := kp[0 := Trunc(courtStartX as real) as real];
      kp := kp[1 := Trunc(courtStartY as real) as real];
      kp := kp[2 := Trunc(courtEndX as real) as real];
      kp := kp[3 := Trunc(courtStartY as real) as real];
      kp := kp[4 := Trunc(courtStartX as real) as real];
      kp := kp[5 := courtStartY as real + ConvertMetersToPixels(HalfCourtLineHeight * 2.0)];
      kp := kp[6 := kp[0] + courtDrawingWidth as real];
      kp := kp[7 := kp[5]];
      kp := kp[8 := kp[0] + ConvertMetersToPixels(DoubleAllyDifference)];
      kp := kp[9 := kp[1]];
      kp := kp[10 := kp[4] + ConvertMetersToPixels(DoubleAllyDifference)];
      kp := kp[11 := kp[5]];
      kp := kp[12 := kp[2] - ConvertMetersToPixels(DoubleAllyDifference)];
      kp := kp[13 := kp[3]];
      kp := kp[14 := kp[6] - ConvertMetersToPixels(DoubleAllyDifference)];
      kp := kp[15 := kp[7]];
      kp := kp[16 := kp[8]];
      kp := kp[17 := kp[9] + ConvertMetersToPixels(NoMansLandHeight)];
      kp := kp[18 := kp[16] + ConvertMetersToPixels(SingleLineWidth)];
      kp := kp[19 := kp[17]];
      kp := kp[20 := kp[10]];
      kp := kp[21 := kp[11] - ConvertMetersToPixels(NoMansLandHeight)];
      kp := kp[22 := kp[20] + ConvertMetersToPixels(SingleLineWidth)];
      kp := kp[23 := kp[21]];
      kp := kp[24 := Trunc((kp[16] + kp[18]) / 2.0) as real];
      kp := kp[25 := kp[17]];
      kp := kp[26 := Trunc((kp[20] + kp[22]) / 2.0) as real];
      kp := kp[27 := kp[21]];
      IntegralTrunc(courtStartX);
      IntegralTrunc(courtStartY);
      IntegralTrunc(courtEndX);
      drawingKeyPoints := kp;
    }

    method SetCourtLines()
      modifies this`lines
      ensures lines == CourtLines
    {
      lines := [(0, 2), (4, 5), (6, 7), (1, 3), (0, 1), (8, 9), (10, 11), (2, 3)];
    }

    /** `get_mini_court_coordinates`, on this mini court's keypoint table and width. */
    function MiniCourtCoordinates(objectPosition: Point, closestKeyPoint: Point, closestKeyPointIndex: nat,
                                  heightInPixels: real, heightInMeters: real): (p: Point)
      reads this
      requires 2 * closestKeyPointIndex + 1 < |drawingKeyPoints| && heightInPixels != 0.0
      ensures objectPosition == closestKeyPoint ==> p == PointAt(drawingKeyPoints, closestKeyPointIndex)
    {
      Project(drawingKeyPoints, courtDrawingWidth, objectPosition, closestKeyPoint, closestKeyPointIndex,
              heightInPixels, heightInMeters)
    }

    /** The body of the id loop: the player's foot position, its nearest anchor, its
        reference height over the frame window and its mapped id give its mini-court
        position; when it is the player nearest the ball, the ball's nearest anchor and
        the same height give the ball's, written into the ball frame. */
    method ProjectEntry(players: seq<Frame>, frameNum: nat, playerId: int, originalCourtKeyPoints: seq<Float>,
                        uniqueIds: seq<int>, ballPosition: Option<Point>, closestPlayerIdToBall: Option<int>,
                        ballDict: Frame)
      returns (player: Entry, newBall: Frame)
      requires |drawingKeyPoints| == 28 && AllBoxed(players) && HeightsNonZero(players)
      requires AnchorsNumeric(originalCourtKeyPoints)
      requires frameNum < |players| && playerId in players[frameNum]
      requires ballPosition.Some? ==> 1 in ballDict
      ensures player == players[frameNum][playerId].(miniCourtPosition :=
        Some(PlayerMiniCourtPosition(drawingKeyPoints, courtDrawingWidth, players, frameNum, playerId,
                                     originalCourtKeyPoints, uniqueIds)))
      ensures newBall == if closestPlayerIdToBall == Some(playerId) && ballPosition.Some? then
        ballDict[1 := ballDict[1].(miniCourtPosition :=
          Some(BallMiniCourtPosition(drawingKeyPoints, courtDrawingWidth, players, frameNum, playerId,
                                     ballPosition.value, originalCourtKeyPoints, uniqueIds)))]
        else ballDict
    {
      var n := |players|;
      player := players[frameNum][playerId];
      var bbox := player.bbox.value;
      var footPosition := FootPosition(bbox);

      var closestKeyPointIndex := GetClosestKeypointIndex(footPosition, originalCourtKeyPoints, Anchors);
      var closestKeyPoint := Point(originalCourtKeyPoints[closestKeyPointIndex * 2].v,
                                   originalCourtKeyPoints[closestKeyPointIndex * 2 + 1].v);

      var frameIndexMin := if frameNum - 20 > 0 then frameNum - 20 else 0;
      var frameIndexMax := if n < frameNum + 50 then n else frameNum + 50;
      var heights := WindowHeights(players, playerId, frameIndexMin, frameIndexMax);
      var maxPlayerHeightInPixels := if |heights| > 0 then SeqMax(heights) else BBoxHeight(bbox);

      var mappedId := MappedId(uniqueIds, playerId);

      var miniCourtPlayerPosition := MiniCourtCoordinates(footPosition, closestKeyPoint, closestKeyPointIndex,
        maxPlayerHeightInPixels, HeightInMeters(mappedId));
      player := player.(miniCourtPosition := Some(miniCourtPlayerPosition));

      newBall := ballDict;
      if closestPlayerIdToBall == Some(playerId) && ballPosition.Some? {
        var closestKpIdxBall := GetClosestKeypointIndex(ballPosition.value, originalCourtKeyPoints, Anchors);
        var closestKpBall := Point(originalCourtKeyPoints[closestKpIdxBall * 2].v,
                                   originalCourtKeyPoints[closestKpIdxBall * 2 + 1].v);
        var miniCourtBallPosition := MiniCourtCoordinates(ballPosition.value, closestKpBall, closestKpIdxBall,
          maxPlayerHeightInPixels, HeightInMeters(mappedId));
        newBall := newBall[1 := newBall[1].(miniCourtPosition := Some(miniCourtBallPosition))];
      }
    }

    /** The part of a frame's iteration before the id loop: the ball's centre, if the
        frame has a ball bbox, and the player nearest it, if there is any player. */
    method BallAndNearestPlayer(playerDict: Frame, order: seq<int>, ballDict: Frame, sqrt: real -> real)
      returns (ballPosition: Option<Point>, closestPlayerIdToBall: Option<int>)
      requires Enumerates(order, playerDict.Keys)
      requires forall q :: 0 <= q < |order| ==> order[q] in playerDict && playerDict[order[q]].bbox.Some?
      ensures ballPosition == BallPosition(ballDict)
      ensures closestPlayerIdToBall ==
        if ballPosition.Some? && playerDict != map[] then
          EnumeratesNonEmpty(order, playerDict.Keys);
          Some(ClosestPlayer(ballPosition.value, playerDict, order, sqrt))
        else None
    {
      ballPosition := None;
      if 1 in ballDict && ballDict[1].bbox.Some? {
        ballPosition := Some(CenterOfBBox(ballDict[1].bbox.value));
      }

      closestPlayerIdToBall := None;
      if ballPosition.Some? && playerDict != map[] {
        EnumeratesNonEmpty(order, playerDict.Keys);
        closestPlayerIdToBall := Some(ClosestPlayer(ballPosition.value, playerDict, order, sqrt));
      }
    }

    /** One iteration of the frame loop of `convert_bounding_boxes_to_mini_court_coordinates`:
        the ball position and nearest player of frame `frameNum`, then the projection of
        each player in dictionary order, writing the ball's position when the nearest
        player comes up. Returns the frame's player and ball dictionaries as written. */
    method ProjectFrame(players: seq<Frame>, frameNum: nat, ballDict: Frame, originalCourtKeyPoints: seq<Float>,
                        uniqueIds: seq<int>, order: seq<int>, sqrt: real -> real)
      returns (newPlayers: Frame, newBall: Frame)
      requires |drawingKeyPoints| == 28 && AllBoxed(players) && HeightsNonZero(players)
      requires AnchorsNumeric(originalCourtKeyPoints)
      requires frameNum < |players| && Enumerates(order, players[frameNum].Keys)
      ensures newPlayers == PlayersFrameAfter(drawingKeyPoints, courtDrawingWidth, players, frameNum,
                                              originalCourtKeyPoints, uniqueIds)
      ensures newBall == BallFrameAfter(drawingKeyPoints, courtDrawingWidth, players, ballDict, frameNum,
                                        originalCourtKeyPoints, uniqueIds, order, sqrt)
    {
      var n := |players|;
      var playerDict := players[frameNum];

      assert forall q :: 0 <= q < |order| ==> order[q] in playerDict && playerDict[order[q]].bbox.Some?;
      var ballPosition, closestPlayerIdToBall := BallAndNearestPlayer(playerDict, order, ballDict, sqrt);
      ghost var closestAt := if closestPlayerIdToBall.Some? then NearestFrom(ballPosition.value, playerDict, order, 1, 0, sqrt)
                             else |order|;

      newPlayers := playerDict;
      newBall := ballDict;
      ghost var playersAfter := PlayersFrameAfter(drawingKeyPoints, courtDrawingWidth, players, frameNum,
                                                  originalCourtKeyPoints, uniqueIds);
      ghost var ballAfter := BallFrameAfter(drawingKeyPoints, courtDrawingWidth, players, ballDict, frameNum,
                                            originalCourtKeyPoints, uniqueIds, order, sqrt);
      assert playersAfter.Keys == playerDict.Keys;
      for j := 0 to |order|
        invariant UpdatedUpTo(order, j, playerDict, newPlayers, playersAfter)
        invariant newBall == if closestAt < j then ballAfter else ballDict
      {
        var playerId := order[j];
        var player;
        player, newBall := ProjectEntry(players, frameNum, playerId, originalCourtKeyPoints, uniqueIds,
                                        ballPosition, closestPlayerIdToBall, newBall);
        UpdateNext(order, j, playerDict, newPlayers, playersAfter, player);
        newPlayers := newPlayers[playerId := player];
        assert closestPlayerIdToBall == Some(playerId) <==> closestAt == j;
      }
      UpdatedAll(order, playerDict, newPlayers, playersAfter);
    }

    /** `convert_bounding_boxes_to_mini_court_coordinates`: projects every player and,
        per frame, the ball, writing `mini_court_position` in place. `uniqueIds` is the
        order `list(unique_ids)` happens to produce and `keyOrders[f]` the key order of
        frame f's player dictionary. */
    method ConvertBoundingBoxesToMiniCourtCoordinates(t: TrackStore, originalCourtKeyPoints: seq<Float>,
                                                       uniqueIds: seq<int>, keyOrders: seq<seq<int>>, sqrt: real -> real)
      requires Valid() && ProjectionInputs(t.objects, originalCourtKeyPoints, uniqueIds, keyOrders)
      modifies t
      ensures t.objects == MiniCourtTracks(drawingKeyPoints, courtDrawingWidth, old(t.objects),
                                           originalCourtKeyPoints, uniqueIds, keyOrders, sqrt)
    {
      assert |drawingKeyPoints| == 28;
      var players := t.objects[Players];
      ghost var ball := t.objects[Ball];
      ghost var target := MiniCourtTracks(drawingKeyPoints, courtDrawingWidth, t.objects,
                                          originalCourtKeyPoints, uniqueIds, keyOrders, sqrt);
      for frameNum := 0 to |players|
        invariant Players in t.objects && Ball in t.objects
        invariant t.objects.Keys == old(t.objects).Keys
        invariant forall o :: o in t.objects && o != Players && o != Ball ==> t.objects[o] == old(t.objects)[o]
        invariant |t.objects[Players]| == |players| && |t.objects[Ball]| == |ball|
        invariant forall g :: 0 <= g < |players| ==>
          t.objects[Players][g] == if g < frameNum then target[Players][g] else players[g]
        invariant forall g :: 0 <= g < |ball| ==>
          t.objects[Ball][g] == if g < frameNum then target[Ball][g] else ball[g]
      {
        var playerDict, ballDict := ProjectFrame(players, frameNum, t.objects[Ball][frameNum], originalCourtKeyPoints,
                                                 uniqueIds, keyOrders[frameNum], sqrt);
        t.objects := t.objects[Players := t.objects[Players][frameNum := playerDict]]
                              [Ball := t.objects[Ball][frameNum := ballDict]];
      }
      assert t.objects[Players] == target[Players];
      assert t.objects[Ball] == target[Ball];
    }
  }

  // ---------------------------------------------------------------------------
  // Updating a frame's records in key order

  /** After visiting the first j keys of `order`, the records under those keys are the
      `target` records and those under the other keys are still the `before` ones. */
  predicate UpdatedUpTo(order: seq<int>, j: nat, before: Frame, current: Frame, target: Frame) {
    && Enumerates(order, before.Keys) && j <= |order|
    && current.Keys == before.Keys && target.Keys == before.Keys
    && (forall q :: 0 <= q < j ==> current[order[q]] == target[order[q]])
    && (forall q :: j <= q < |order| ==> current[order[q]] == before[order[q]])
  }

  /** Writing the target record under the next key advances the visit by one key. */
  lemma UpdateNext(order: seq<int>, j: nat, before: Frame, current: Frame, target: Frame, e: Entry)
    requires UpdatedUpTo(order, j, before, current, target) && j < |order|
    requires order[j] in target && e == target[order[j]]
    ensures UpdatedUpTo(order, j + 1, before, current[order[j] := e], target)
  {
    assert forall q :: 0 <= q < |order| && q != j ==> order[q] != order[j];
  }

  /** Once every key is visited the frame is the target frame. */
  lemma UpdatedAll(order: seq<int>, before: Frame, current: Frame, target: Frame)
    requires UpdatedUpTo(order, |order|, before, current, target)
    ensures current == target
  {
    forall id | id in current
      ensures current[id] == target[id]
    {
      assert id in before.Keys;
      var q :| 0 <= q < |order| && order[q] == id;
    }
  }

  // ---------------------------------------------------------------------------
  // Projection onto a keypoint table

  /** The arithmetic of `get_mini_court_coordinates` on a keypoint table `drawing` of a
      court `width` pixels wide: the object's pixel offset from a court keypoint,
      converted to metres against a reference height and back to drawing pixels, added
      to the same keypoint on the drawing. */
  function Project(drawing: seq<real>, width: int, objectPosition: Point, closestKeyPoint: Point,
                   closestKeyPointIndex: nat, heightInPixels: real, heightInMeters: real): (p: Point)
    requires 2 * closestKeyPointIndex + 1 < |drawing| && heightInPixels != 0.0
    ensures objectPosition == closestKeyPoint ==> p == PointAt(drawing, closestKeyPointIndex)
  {
    var d := MeasureXYDistance(objectPosition, closestKeyPoint);
    var mx := PixelDistanceToMeters(d.x, heightInMeters, heightInPixels);
    var my := PixelDistanceToMeters(d.y, heightInMeters, heightInPixels);
    Point(drawing[closestKeyPointIndex * 2] + MetersToDrawing(mx, width),
          drawing[closestKeyPointIndex * 2 + 1] + MetersToDrawing(my, width))
  }

  /** Drawing pixels per video pixel, for a reference of `heightInPixels` pixels standing
      for `heightInMeters` metres. */
  function Scale(width: int, heightInPixels: real, heightInMeters: real): real
    requires heightInPixels != 0.0
  {
    (heightInMeters / heightInPixels) * (width as real / DoubleLineWidth)
  }

  /** The projection is the keypoint on the drawing plus the object's offset from the
      keypoint, scaled by `h_m / h_px * court_drawing_width / 10.97`. */
  lemma ProjectIsScaledOffset(drawing: seq<real>, width: int, objectPosition: Point, closestKeyPoint: Point, k: nat,
                              heightInPixels: real, heightInMeters: real)
    requires 2 * k + 1 < |drawing| && heightInPixels != 0.0
    ensures var s := Scale(width, heightInPixels, heightInMeters);
      Project(drawing, width, objectPosition, closestKeyPoint, k, heightInPixels, heightInMeters) ==
      Point(drawing[2 * k] + s * (objectPosition.x - closestKeyPoint.x),
            drawing[2 * k + 1] + s * (objectPosition.y - closestKeyPoint.y))
  {
    var d := MeasureXYDistance(objectPosition, closestKeyPoint);
    assert d == Point(objectPosition.x - closestKeyPoint.x, objectPosition.y - closestKeyPoint.y);
    ScaledConversion(d.x, width, heightInPixels, heightInMeters);
    ScaledConversion(d.y, width, heightInPixels, heightInMeters);
    assert k * 2 == 2 * k;
    assert Project(drawing, width, objectPosition, closestKeyPoint, k, heightInPixels, heightInMeters) ==
      Point(drawing[2 * k] + MetersToDrawing(PixelDistanceToMeters(d.x, heightInMeters, heightInPixels), width),
            drawing[2 * k + 1] + MetersToDrawing(PixelDistanceToMeters(d.y, heightInMeters, heightInPixels), width));
  }

  /** One axis of the projection: metres from the video, then drawing pixels, is a scaling. */
  lemma ScaledConversion(d: real, width: int, heightInPixels: real, heightInMeters: real)
    requires heightInPixels != 0.0
    ensures MetersToDrawing(PixelDistanceToMeters(d, heightInMeters, heightInPixels), width) ==
            Scale(width, heightInPixels, heightInMeters) * d
  {
    var w := width as real;
    var m := PixelDistanceToMeters(d, heightInMeters, heightInPixels);
    var px := MetersToDrawing(m, width);
    var a := heightInMeters / heightInPixels;
    var b := w / DoubleLineWidth;
    assert a * heightInPixels == heightInMeters;
    assert b * DoubleLineWidth == w;
    assert Scale(width, heightInPixels, heightInMeters) == a * b;
    var k := DoubleLineWidth * heightInPixels;
    assert k != 0.0;
    calc {
      px * k;
      (px * DoubleLineWidth) * heightInPixels;
      (m * w) * heightInPixels;
      (m * heightInPixels) * w;
      (d * heightInMeters) * w;
      (d * (a * heightInPixels)) * (b * DoubleLineWidth);
      (a * b * d) * k;
    }
    assert (px - a * b * d) * k == 0.0;
  }

  /** What the projection needs of its inputs (each failure would raise in the source):
      both object types present, a ball frame for every player frame, a bbox on every
      player record, numeric anchor keypoints and reference heights that are not zero;
      plus the set and dictionary orders it is given. */
  predicate ProjectionInputs(objects: map<string, seq<Frame>>, keypoints: seq<Float>, uniqueIds: seq<int>,
                             keyOrders: seq<seq<int>>)
  {
    && Players in objects && Ball in objects
    && |objects[Ball]| >= |objects[Players]|
    && AllBoxed(objects[Players])
    && HeightsNonZero(objects[Players])
    && AnchorsNumeric(keypoints)
    && Enumerates(uniqueIds, PlayerIds(objects[Players]))
    && |keyOrders| == |objects[Players]|
    && (forall f :: 0 <= f < |keyOrders| ==> Enumerates(keyOrders[f], objects[Players][f].Keys))
  }

  /** A player's `mini_court_position` in frame f: its foot position projected from the
      nearest anchor, against its reference height and the height of its mapped id. */
  function PlayerMiniCourtPosition(drawing: seq<real>, width: int, players: seq<Frame>, f: nat, id: int,
                                   keypoints: seq<Float>, uniqueIds: seq<int>): Point
    requires |drawing| == 28 && AllBoxed(players) && HeightsNonZero(players) && AnchorsNumeric(keypoints)
    requires f < |players| && id in players[f]
  {
    var foot := FootPosition(players[f][id].bbox.value);
    var k := NearestAnchor(foot, keypoints);
    Project(drawing, width, foot, AnchorPoint(keypoints, k), k,
      ReferenceHeight(players, f, id), HeightInMeters(MappedId(uniqueIds, id)))
  }

  /** The ball's `mini_court_position` in frame f: the ball's centre projected from its
      nearest anchor, against the reference height and mapped id of player `id`. */
  function BallMiniCourtPosition(drawing: seq<real>, width: int, players: seq<Frame>, f: nat, id: int, ball: Point,
                                 keypoints: seq<Float>, uniqueIds: seq<int>): Point
    requires |drawing| == 28 && AllBoxed(players) && HeightsNonZero(players) && AnchorsNumeric(keypoints)
    requires f < |players| && id in players[f]
  {
    var k := NearestAnchor(ball, keypoints);
    Project(drawing, width, ball, AnchorPoint(keypoints, k), k,
      ReferenceHeight(players, f, id), HeightInMeters(MappedId(uniqueIds, id)))
  }

  /** Frame f of the players after the projection. */
  function PlayersFrameAfter(drawing: seq<real>, width: int, players: seq<Frame>, f: nat,
                             keypoints: seq<Float>, uniqueIds: seq<int>): Frame
    requires |drawing| == 28 && AllBoxed(players) && HeightsNonZero(players) && AnchorsNumeric(keypoints)
    requires f < |players|
  {
    map id | id in players[f] ::
      players[f][id].(miniCourtPosition := Some(PlayerMiniCourtPosition(drawing, width, players, f, id, keypoints, uniqueIds)))
  }

  /** Frame f of the ball after the projection. */
  function BallFrameAfter(drawing: seq<real>, width: int, players: seq<Frame>, ballFrame: Frame, f: nat,
                          keypoints: seq<Float>, uniqueIds: seq<int>, order: seq<int>, sqrt: real -> real): Frame
    requires |drawing| == 28 && AllBoxed(players) && HeightsNonZero(players) && AnchorsNumeric(keypoints)
    requires f < |players| && Enumerates(order, players[f].Keys)
  {
    var ball := BallPosition(ballFrame);
    assert forall g, i :: 0 <= g < |players| && i in players[g] ==> players[g][i].bbox.Some?;
    assert forall q :: 0 <= q < |order| ==> order[q] in players[f] && players[f][order[q]].bbox.Some?;
    if ball.Some? && players[f] != map[] then
      EnumeratesNonEmpty(order, players[f].Keys);
      var id := ClosestPlayer(ball.value, players[f], order, sqrt);
      ballFrame[1 := ballFrame[1].(miniCourtPosition :=
        Some(BallMiniCourtPosition(drawing, width, players, f, id, ball.value, keypoints, uniqueIds)))]
    else ballFrame
  }

  function PlayersAfter(drawing: seq<real>, width: int, players: seq<Frame>,
                        keypoints: seq<Float>, uniqueIds: seq<int>): seq<Frame>
    requires |drawing| == 28 && AllBoxed(players) && HeightsNonZero(players) && AnchorsNumeric(keypoints)
  {
    seq(|players|, f requires 0 <= f < |players| => PlayersFrameAfter(drawing, width, players, f, keypoints, uniqueIds))
  }

  function BallsAfter(drawing: seq<real>, width: int, players: seq<Frame>, ball: seq<Frame>,
                      keypoints: seq<Float>, uniqueIds: seq<int>, keyOrders: seq<seq<int>>, sqrt: real -> real): seq<Frame>
    requires |drawing| == 28 && AllBoxed(players) && HeightsNonZero(players) && AnchorsNumeric(keypoints)
    requires |keyOrders| == |players| && forall f :: 0 <= f < |players| ==> Enumerates(keyOrders[f], players[f].Keys)
  {
    seq(|ball|, f requires 0 <= f < |ball| =>
      if f < |players| then BallFrameAfter(drawing, width, players, ball[f], f, keypoints, uniqueIds, keyOrders[f], sqrt)
      else ball[f])
  }

  /** The `tracks` dictionary after `convert_bounding_boxes_to_mini_court_coordinates`. */
  function MiniCourtTracks(drawing: seq<real>, width: int, objects: map<string, seq<Frame>>, keypoints: seq<Float>,
                           uniqueIds: seq<int>, keyOrders: seq<seq<int>>, sqrt: real -> real): map<string, seq<Frame>>
    requires |drawing| == 28 && ProjectionInputs(objects, keypoints, uniqueIds, keyOrders)
  {
    var players, ball := objects[Players], objects[Ball];
    objects[Players := PlayersAfter(drawing, width, players, keypoints, uniqueIds)]
           [Ball := BallsAfter(drawing, width, players, ball, keypoints, uniqueIds, keyOrders, sqrt)]
  }

  /** The projection touches only the player and ball lists: every other object type,
      the lengths of both lists and the keys of every frame are unchanged. */
  lemma MiniCourtTracksShape(drawing: seq<real>, width: int, objects: map<string, seq<Frame>>, keypoints: seq<Float>,
                             uniqueIds: seq<int>, keyOrders: seq<seq<int>>, sqrt: real -> real)
    requires |drawing| == 28 && ProjectionInputs(objects, keypoints, uniqueIds, keyOrders)
    ensures var r := MiniCourtTracks(drawing, width, objects, keypoints, uniqueIds, keyOrders, sqrt);
      && r.Keys == objects.Keys
      && (forall o :: o in objects && o != Players && o != Ball ==> r[o] == objects[o])
      && |r[Players]| == |objects[Players]| && |r[Ball]| == |objects[Ball]|
      && (forall f :: 0 <= f < |objects[Players]| ==> r[Players][f].Keys == objects[Players][f].Keys)
      && (forall f :: 0 <= f < |objects[Ball]| ==> r[Ball][f].Keys == objects[Ball][f].Keys)
  {
    var r: map<string, seq<Frame>> := MiniCourtTracks(drawing, width, objects, keypoints, uniqueIds, keyOrders, sqrt);
    var players: seq<Frame>, ball: seq<Frame> := objects[Players], objects[Ball];
    forall f | 0 <= f < |ball|
      ensures r[Ball][f].Keys == ball[f].Keys
    {
      if f < |players| {
        var b := BallFrameAfter(drawing, width, players, ball[f], f, keypoints, uniqueIds, keyOrders[f], sqrt);
        assert r[Ball][f] == b;
        assert BallPosition(ball[f]).Some? ==> 1 in ball[f];
      }
    }
  }

  /** Every player entry gains a `mini_court_position`, and nothing else in it changes. */
  lemma PlayersGainOnlyMiniCourtPosition(drawing: seq<real>, width: int, objects: map<string, seq<Frame>>,
                                         keypoints: seq<Float>, uniqueIds: seq<int>, keyOrders: seq<seq<int>>,
                                         sqrt: real -> real, f: nat, id: int)
    requires |drawing| == 28 && ProjectionInputs(objects, keypoints, uniqueIds, keyOrders)
    requires f < |objects[Players]| && id in objects[Players][f]
    ensures var e := MiniCourtTracks(drawing, width, objects, keypoints, uniqueIds, keyOrders, sqrt)[Players][f][id];
      var old_e := objects[Players][f][id];
      && e.miniCourtPosition == Some(PlayerMiniCourtPosition(drawing, width, objects[Players], f, id, keypoints, uniqueIds))
      && e.bbox == old_e.bbox && e.position == old_e.position
      && e.distance == old_e.distance && e.speed == old_e.speed
  {
  }

  /** The ball is left alone in a frame that has no ball bbox under key 1 or no player. */
  lemma BallUntouchedWithoutBallOrPlayers(drawing: seq<real>, width: int, objects: map<string, seq<Frame>>,
                                          keypoints: seq<Float>, uniqueIds: seq<int>, keyOrders: seq<seq<int>>,
                                          sqrt: real -> real, f: nat)
    requires |drawing| == 28 && ProjectionInputs(objects, keypoints, uniqueIds, keyOrders)
    requires f < |objects[Ball]|
    requires f >= |objects[Players]| || !(1 in objects[Ball][f] && objects[Ball][f][1].bbox.Some?)
             || objects[Players][f] == map[]
    ensures MiniCourtTracks(drawing, width, objects, keypoints, uniqueIds, keyOrders, sqrt)[Ball][f] == objects[Ball][f]
  {
  }

  /** In a frame with a ball bbox under key 1 and at least one player, the ball record
      gains a `mini_court_position` computed with the height reference of the player
      whose bbox centre is nearest the ball, the first in key order on ties; nothing
      else in the ball's frame changes. */
  lemma BallUsesNearestPlayer(drawing: seq<real>, width: int, objects: map<string, seq<Frame>>,
                              keypoints: seq<Float>, uniqueIds: seq<int>, keyOrders: seq<seq<int>>,
                              sqrt: real -> real, f: nat) returns (id: int)
    requires |drawing| == 28 && ProjectionInputs(objects, keypoints, uniqueIds, keyOrders)
    requires f < |objects[Players]| && objects[Players][f] != map[]
    requires 1 in objects[Ball][f] && objects[Ball][f][1].bbox.Some?
    ensures id in objects[Players][f]
    ensures var players, ball := objects[Players], CenterOfBBox(objects[Ball][f][1].bbox.value);
      && (forall other :: other in players[f] ==>
            BallDistance(ball, players[f], id, sqrt) <= BallDistance(ball, players[f], other, sqrt))
      && (forall q :: (0 <= q < |keyOrders[f]| &&
            BallDistance(ball, players[f], id, sqrt) == BallDistance(ball, players[f], keyOrders[f][q], sqrt)) ==>
            exists p :: 0 <= p <= q && keyOrders[f][p] == id)
      && MiniCourtTracks(drawing, width, objects, keypoints, uniqueIds, keyOrders, sqrt)[Ball][f] ==
         objects[Ball][f][1 := objects[Ball][f][1].(miniCourtPosition :=
           Some(BallMiniCourtPosition(drawing, width, players, f, id, ball, keypoints, uniqueIds)))]
  {
    var players: seq<Frame>, order: seq<int> := objects[Players], keyOrders[f];
    var ball := CenterOfBBox(objects[Ball][f][1].bbox.value);
    assert forall q :: 0 <= q < |order| ==> order[q] in players[f] && players[f][order[q]].bbox.Some? by {
      assert forall g, i :: 0 <= g < |players| && i in players[g] ==> players[g][i].bbox.Some?;
    }
    EnumeratesNonEmpty(order, players[f].Keys);
    id := ClosestPlayer(ball, players[f], order, sqrt);
    ClosestPlayerOverKeys(ball, players[f], order, sqrt);
    BallFrameOfTracks(drawing, width, objects, keypoints, uniqueIds, keyOrders, sqrt, f);
  }

  /** The player `min` picks is at least as near the ball as every key of the frame, and
      precedes in key order every other key at the same distance. */
  lemma ClosestPlayerOverKeys(ball: Point, frame: Frame, order: seq<int>, sqrt: real -> real)
    requires |order| > 0 && Enumerates(order, frame.Keys)
    requires forall r :: 0 <= r < |order| ==> order[r] in frame && frame[order[r]].bbox.Some?
    ensures var id := ClosestPlayer(ball, frame, order, sqrt);
      && (forall other :: other in frame ==> BallDistance(ball, frame, id, sqrt) <= BallDistance(ball, frame, other, sqrt))
      && (forall q :: (0 <= q < |order| &&
            BallDistance(ball, frame, id, sqrt) == BallDistance(ball, frame, order[q], sqrt)) ==>
            exists p :: 0 <= p <= q && order[p] == id)
  {
    var id := ClosestPlayer(ball, frame, order, sqrt);
    forall other | other in frame
      ensures BallDistance(ball, frame, id, sqrt) <= BallDistance(ball, frame, other, sqrt)
    {
      assert other in frame.Keys;
      var q :| 0 <= q < |order| && order[q] == other;
      ClosestPlayerIsNearestAndFirst(ball, frame, order, sqrt, q);
    }
    forall q | 0 <= q < |order| && BallDistance(ball, frame, id, sqrt) == BallDistance(ball, frame, order[q], sqrt)
      ensures exists p :: 0 <= p <= q && order[p] == id
    {
      ClosestPlayerIsNearestAndFirst(ball, frame, order, sqrt, q);
    }
  }

  /** Frame f of the ball list after the projection is `BallFrameAfter` of frame f. */
  lemma BallFrameOfTracks(drawing: seq<real>, width: int, objects: map<string, seq<Frame>>,
                          keypoints: seq<Float>, uniqueIds: seq<int>, keyOrders: seq<seq<int>>,
                          sqrt: real -> real, f: nat)
    requires |drawing| == 28 && ProjectionInputs(objects, keypoints, uniqueIds, keyOrders)
    requires f < |objects[Players]|
    ensures MiniCourtTracks(drawing, width, objects, keypoints, uniqueIds, keyOrders, sqrt)[Ball][f] ==
      BallFrameAfter(drawing, width, objects[Players], objects[Ball][f], f, keypoints, uniqueIds, keyOrders[f], sqrt)
  {
  }

  /** A whole number is its own truncation. */
  lemma IntegralTrunc(x: int)
    ensures Trunc(x as real) == x
  {
    TruncationUnique(Trunc(x as real) as real, x as real, x as real);
  }
}
