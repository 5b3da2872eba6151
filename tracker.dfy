/** Ball-track cleanup and position attachment of the tracker:
    `Tracker.interpolate_ball_positions` (rows with NaN for an absent ball, single-frame
    teleport rejection, the gap-filling steps as an opaque parameter, reconstruction)
    and `Tracker.add_position_to_tracks`. */
module Tracker {
  import opened Optional
  import opened Constants
  import opened BBoxUtils
  import opened Tracks

  // ---------------------------------------------------------------------------
  // interpolate_ball_positions

  /** One row of the ball DataFrame: columns x1, y1, x2, y2. */
  datatype Row = Row(x1: Float, y1: Float, x2: Float, y2: Float)

  const NaNRow: Row := Row(NaN, NaN, NaN, NaN)

  predicate Numeric(r: Row) {
    r.x1.Num? && r.y1.Num? && r.x2.Num? && r.y2.Num?
  }

  /** `x.get(1, {}).get('bbox', [])`: the ball bbox of a frame, if there is one. */
  function BallBBox(frame: Frame): Option<BBox> {
    if 1 in frame then frame[1].bbox else None
  }

  /** The row built for one frame: the bbox's coordinates, or four NaNs when the frame
      has no key 1 or its bbox is missing or empty. */
  function ToRow(frame: Frame): (r: Row)
    ensures r == NaNRow <==> BallBBox(frame).None?
    ensures Numeric(r) <==> BallBBox(frame).Some?
    ensures BallBBox(frame).Some? ==>
      var b := BallBBox(frame).value; r == Row(Num(b.x1), Num(b.y1), Num(b.x2), Num(b.y2))
  {
    match BallBBox(frame)
    case None => NaNRow
    case Some(b) => Row(Num(b.x1), Num(b.y1), Num(b.x2), Num(b.y2))
  }

  function ToRows(ballPositions: seq<Frame>): seq<Row> {
    seq(|ballPositions|, i requires 0 <= i < |ballPositions| => ToRow(ballPositions[i]))
  }

  /** The `center_x`, `center_y` columns of a row (not truncated); NaN unless the row's
      coordinates are numbers. */
  function RowCentre(r: Row): Option<Point> {
    if Numeric(r) then Some(Point((r.x1.v + r.x2.v) / 2.0, (r.y1.v + r.y2.v) / 2.0)) else None
  }

  /** The `dist` column: NaN at frame 0 (`diff()` has no predecessor) and when either
      centre is NaN; otherwise the Euclidean move of the centre from frame i-1. */
  function Displacement(rows: seq<Row>, i: nat, sqrt: real -> real): Float
    requires i < |rows|
  {
    if i == 0 then NaN
    else match (RowCentre(rows[i - 1]), RowCentre(rows[i]))
      case (Some(prev), Some(cur)) => Num(MeasureDistance(cur, prev, sqrt))
      case _ => NaN
  }

  /** `dist > MAX_PIXEL_MOVE_PER_FRAME`; a NaN distance compares false. */
  predicate IsOutlier(rows: seq<Row>, i: nat, sqrt: real -> real)
    requires i < |rows|
  {
    var d := Displacement(rows, i, sqrt);
    d.Num? && d.v > MaxPixelMovePerFrame
  }

  /** `df.loc[outliers, ['x1','y1','x2','y2']] = nan`, with the outlier mask computed on
      the rows before any of them is nulled. */
  function RejectOutliers(rows: seq<Row>, sqrt: real -> real): (r: seq<Row>)
    ensures |r| == |rows|
    ensures forall i :: 0 <= i < |rows| ==> r[i] == rows[i] || r[i] == NaNRow
    ensures |rows| > 0 ==> r[0] == rows[0]
    ensures forall i :: 0 < i < |rows| && !Numeric(rows[i - 1]) ==> r[i] == rows[i]
  {
    seq(|rows|, i requires 0 <= i < |rows| => if IsOutlier(rows, i, sqrt) then NaNRow else rows[i])
  }

  /** The centre of a bbox as the DataFrame computes it: the exact midpoints. */
  function Midpoint(b: BBox): Point {
    Point((b.x1 + b.x2) / 2.0, (b.y1 + b.y2) / 2.0)
  }

  /** A frame is nulled exactly when it has no ball, or it and the frame before both
      have a raw detection whose centres are more than 100 px apart (strictly). */
  lemma RejectedIffTeleport(ballPositions: seq<Frame>, sqrt: real -> real, i: nat)
    requires IsSqrt(sqrt) && i < |ballPositions|
    ensures RejectOutliers(ToRows(ballPositions), sqrt)[i] == NaNRow <==>
      || BallBBox(ballPositions[i]).None?
      || (&& i > 0
          && BallBBox(ballPositions[i - 1]).Some?
          && BallBBox(ballPositions[i]).Some?
          && SquaredDistance(Midpoint(BallBBox(ballPositions[i]).value), Midpoint(BallBBox(ballPositions[i - 1]).value))
               > MaxPixelMovePerFrame * MaxPixelMovePerFrame)
  {
    var rows := ToRows(ballPositions);
    if i > 0 && BallBBox(ballPositions[i - 1]).Some? && BallBBox(ballPositions[i]).Some? {
      var cur, prev := Midpoint(BallBBox(ballPositions[i]).value), Midpoint(BallBBox(ballPositions[i - 1]).value);
      assert RowCentre(rows[i]) == Some(cur) && RowCentre(rows[i - 1]) == Some(prev);
      DistanceExceedsIff(cur, prev, sqrt, MaxPixelMovePerFrame);
      assert ToRow(ballPositions[i]) != NaNRow;
    }
  }

  /** The threshold is strict: a centre move of exactly 100 px keeps the frame. */
  lemma MoveOfExactlyThresholdKept(ballPositions: seq<Frame>, sqrt: real -> real, i: nat)
    requires IsSqrt(sqrt) && 0 < i < |ballPositions|
    requires BallBBox(ballPositions[i - 1]).Some? && BallBBox(ballPositions[i]).Some?
    requires MeasureDistance(Midpoint(BallBBox(ballPositions[i]).value), Midpoint(BallBBox(ballPositions[i - 1]).value), sqrt)
             == MaxPixelMovePerFrame
    ensures RejectOutliers(ToRows(ballPositions), sqrt)[i] == ToRows(ballPositions)[i] != NaNRow
  {
    var rows := ToRows(ballPositions);
    var cur, prev := Midpoint(BallBBox(ballPositions[i]).value), Midpoint(BallBBox(ballPositions[i - 1]).value);
    assert RowCentre(rows[i]) == Some(cur) && RowCentre(rows[i - 1]) == Some(prev);
  }

  /** Each frame is compared with the raw previous centre, not the filtered one: after a
      single-frame spike A, B, A (B far from A) both the spike and the return to A are
      nulled. */
  lemma SpikeAlsoRejectsReturn(ballPositions: seq<Frame>, sqrt: real -> real, i: nat)
    requires IsSqrt(sqrt) && 0 < i && i + 1 < |ballPositions|
    requires BallBBox(ballPositions[i - 1]).Some? && BallBBox(ballPositions[i]).Some? && BallBBox(ballPositions[i + 1]).Some?
    requires Midpoint(BallBBox(ballPositions[i - 1]).value) == Midpoint(BallBBox(ballPositions[i + 1]).value)
    requires SquaredDistance(Midpoint(BallBBox(ballPositions[i]).value), Midpoint(BallBBox(ballPositions[i - 1]).value))
             > MaxPixelMovePerFrame * MaxPixelMovePerFrame
    ensures RejectOutliers(ToRows(ballPositions), sqrt)[i] == NaNRow
    ensures RejectOutliers(ToRows(ballPositions), sqrt)[i + 1] == NaNRow
  {
    var a, b := Midpoint(BallBBox(ballPositions[i - 1]).value), Midpoint(BallBBox(ballPositions[i]).value);
    SquaredDistanceSymmetric(a, b);
    RejectedIffTeleport(ballPositions, sqrt, i);
    RejectedIffTeleport(ballPositions, sqrt, i + 1);
  }

  /** The opaque gap-filling steps kept the four columns' NaN masks together. */
  predicate MasksAligned(rows: seq<Row>) {
    forall i :: 0 <= i < |rows| && rows[i].x1.Num? ==> Numeric(rows[i])
  }

  /** Reconstruction of one frame: `{}` when x1 is NaN, else `{1: {"bbox": row[:4]}}`. */
  function FromRow(r: Row): (frame: Frame)
    requires r.x1.Num? ==> Numeric(r)
    ensures frame == map[] <==> r.x1.NaN?
    ensures r.x1.Num? ==> frame == map[1 := BBoxEntry(BBox(r.x1.v, r.y1.v, r.x2.v, r.y2.v))]
  {
    if r.x1.NaN? then map[]
    else
      var f := map[1 := BBoxEntry(BBox(r.x1.v, r.y1.v, r.x2.v, r.y2.v))];
      assert 1 in f;
      f
  }

  /** Row building and reconstruction are inverse on the tracker's ball frames: an empty
      frame, or key 1 holding just a bbox. */
  lemma RowRoundTrip(frame: Frame, r: Row)
    requires frame == map[] || (frame.Keys == {1} && frame[1].bbox.Some? && frame[1] == BBoxEntry(frame[1].bbox.value))
    requires r == NaNRow || Numeric(r)
    ensures FromRow(ToRow(frame)) == frame
    ensures ToRow(FromRow(r)) == r
  {
    if frame != map[] {
      var b := frame[1].bbox.value;
      assert ToRow(frame) == Row(Num(b.x1), Num(b.y1), Num(b.x2), Num(b.y2));
      assert FromRow(ToRow(frame)).Keys == frame.Keys;
    }
    if r != NaNRow {
      var f := FromRow(r);
      assert 1 in f && f[1].bbox == Some(BBox(r.x1.v, r.y1.v, r.x2.v, r.y2.v));
    }
  }

  /** interpolate_ball_positions. `fill` stands for the pandas steps, which are not
      modelled: a linear `interpolate` over gaps of up to `InterpolateLimit` frames, a
      centred rolling mean over `RollingWindow` frames and a `bfill` of up to
      `BfillLimit` frames. The caller vouches that on these rows it keeps the length and
      the columns' NaN masks together. */
  method InterpolateBallPositions(ballPositions: seq<Frame>, sqrt: real -> real, fill: seq<Row> -> seq<Row>)
    returns (finalPositions: seq<Frame>)
    requires |fill(RejectOutliers(ToRows(ballPositions), sqrt))| == |ballPositions|
    requires MasksAligned(fill(RejectOutliers(ToRows(ballPositions), sqrt)))
    ensures |finalPositions| == |ballPositions|
    ensures forall i :: 0 <= i < |ballPositions| ==>
      finalPositions[i] == FromRow(fill(RejectOutliers(ToRows(ballPositions), sqrt))[i])
  {
    // 1. One row per frame.
    var processedPositions: seq<Row> := [];
    for i := 0 to |ballPositions|
      invariant |processedPositions| == i
      invariant forall j :: 0 <= j < i ==> processedPositions[j] == ToRow(ballPositions[j])
    {
      var bbox := BallBBox(ballPositions[i]);
      if bbox.None? {
        processedPositions := processedPositions + [NaNRow];
      } else {
        var b := bbox.value;
        processedPositions := processedPositions + [Row(Num(b.x1), Num(b.y1), Num(b.x2), Num(b.y2))];
      }
    }
    assert processedPositions == ToRows(ballPositions);
    var n := |processedPositions|;
    var df := new Row[n](i requires 0 <= i < n => processedPositions[i]);

    // 2. The outlier mask is computed from the unfiltered rows, then applied in place.
    var outliers := seq(n, i requires 0 <= i < n => IsOutlier(processedPositions, i, sqrt));
    forall i | 0 <= i < n && outliers[i] {
      df[i] := NaNRow;
    }
    assert df[..] == RejectOutliers(processedPositions, sqrt);

    // 3.-5. Interpolation, smoothing and edge back-fill.
    var filled := fill(df[..]);

    // Reconstruction.
    finalPositions := [];
    for i := 0 to |filled|
      invariant |finalPositions| == i
      invariant forall j :: 0 <= j < i ==> finalPositions[j] == FromRow(filled[j])
    {
      var row := filled[i];
      if row.x1.NaN? {
        finalPositions := finalPositions + [map[]];
      } else {
        finalPositions := finalPositions + [map[1 := BBoxEntry(BBox(row.x1.v, row.y1.v, row.x2.v, row.y2.v))]];
      }
    }
  }

  // ---------------------------------------------------------------------------
  // add_position_to_tracks

  /** The ball keeps its bbox centre, every other object type its foot position. */
  function PositionFor(obj: string, b: BBox): Point {
    if obj == TennisBall then CenterOfBBox(b) else FootPosition(b)
  }

  function WithPosition(obj: string, e: Entry): Entry
    requires e.bbox.Some?
  {
    e.(position := Some(PositionFor(obj, e.bbox.value)))
  }

  function FrameWithPositions(obj: string, frame: Frame): Frame
    requires forall id :: id in frame ==> frame[id].bbox.Some?
  {
    map id | id in frame :: WithPosition(obj, frame[id])
  }

  predicate AllObjectsBoxed(objects: map<string, seq<Frame>>) {
    forall obj :: obj in objects ==> AllBoxed(objects[obj])
  }

  /** The `tracks` dictionary after add_position_to_tracks. */
  function TracksWithPositions(objects: map<string, seq<Frame>>): map<string, seq<Frame>>
    requires AllObjectsBoxed(objects)
  {
    map obj | obj in objects ::
      seq(|objects[obj]|, f requires 0 <= f < |objects[obj]| => FrameWithPositions(obj, objects[obj][f]))
  }

  /** Every record gains `position` (the centre for the tennis ball, the foot position
      for any other object type) and nothing else changes: object types, frame counts,
      ids, bboxes and the other fields stay as they were. */
  lemma PositionsAttached(objects: map<string, seq<Frame>>, obj: string, f: nat, id: int)
    requires AllObjectsBoxed(objects)
    ensures TracksWithPositions(objects).Keys == objects.Keys
    ensures obj in objects ==> |TracksWithPositions(objects)[obj]| == |objects[obj]|
    ensures obj in objects && f < |objects[obj]| ==>
      var before, after := objects[obj][f], TracksWithPositions(objects)[obj][f];
      && after.Keys == before.Keys
      && (id in before ==>
            && after[id].bbox == before[id].bbox
            && after[id].position == Some(if obj == TennisBall then CenterOfBBox(before[id].bbox.value)
                                          else FootPosition(before[id].bbox.value))
            && after[id].miniCourtPosition == before[id].miniCourtPosition
            && after[id].distance == before[id].distance
            && after[id].speed == before[id].speed)
  {
  }

  /** add_position_to_tracks: the in-place loop over object types, frames and ids. */
  method AddPositionToTracks(tracks: TrackStore)
    requires AllObjectsBoxed(tracks.objects)
    modifies tracks
    ensures tracks.objects == TracksWithPositions(old(tracks.objects))
  {
    var remaining := tracks.objects.Keys;
    while remaining != {}
      invariant remaining <= old(tracks.objects).Keys
      invariant tracks.objects.Keys == old(tracks.objects).Keys
      invariant forall obj :: obj in remaining ==> tracks.objects[obj] == old(tracks.objects)[obj]
      invariant forall obj :: obj in tracks.objects && obj !in remaining ==>
        tracks.objects[obj] == TracksWithPositions(old(tracks.objects))[obj]
      decreases remaining
    {
      ghost var someObj := Element(remaining);
      var obj :| obj in remaining;
      var objectTracks := tracks.objects[obj];
      ghost var before := objectTracks;
      ghost var current := tracks.objects;
      for frameNum := 0 to |objectTracks|
        invariant |objectTracks| == |before|
        invariant forall g :: 0 <= g < frameNum ==> objectTracks[g] == FrameWithPositions(obj, before[g])
        invariant forall g :: frameNum <= g < |before| ==> objectTracks[g] == before[g]
        invariant tracks.objects == current
      {
        var track := objectTracks[frameNum];
        var pending := track.Keys;
        while pending != {}
          invariant pending <= track.Keys
          invariant track.Keys == before[frameNum].Keys
          invariant forall id :: id in pending ==> track[id] == before[frameNum][id]
          invariant forall id :: id in track && id !in pending ==> track[id] == WithPosition(obj, before[frameNum][id])
          invariant tracks.objects == current
          decreases pending
        {
          ghost var someId := Element(pending);
          var trackId :| trackId in pending;
          var bbox := track[trackId].bbox.value;
          var position := if obj == TennisBall then CenterOfBBox(bbox) else FootPosition(bbox);
          track := track[trackId := track[trackId].(position := Some(position))];
          pending := pending - {trackId};
        }
        assert forall id :: id in track ==> track[id] == FrameWithPositions(obj, before[frameNum])[id];
        assert track == FrameWithPositions(obj, before[frameNum]);
        objectTracks := objectTracks[frameNum := track];
      }
      assert objectTracks == TracksWithPositions(old(tracks.objects))[obj];
      tracks.objects := tracks.objects[obj := objectTracks];
      remaining := remaining - {obj};
    }
    assert tracks.objects == TracksWithPositions(old(tracks.objects));
  }
}
