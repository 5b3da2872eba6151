/** The physics stage: per player track id, the cumulative distance run and a windowed
    speed, measured on the mini-court positions and written into every player record. */
module Physics {
  import opened Optional
  import opened Constants
  import opened BBoxUtils
  import opened Tracks

  /** The default `frame_window`: 12 frames, half a second at 24 frames per second. */
  const DefaultFrameWindow: int := 12

  /** The metre value of one mini-court pixel: the doubles court width is drawn
      `miniCourtWidth` pixels wide. */
  function MetersPerPixel(miniCourtWidth: real): (mpp: real)
    requires miniCourtWidth != 0.0
    ensures mpp * miniCourtWidth == DoubleLineWidth
    ensures miniCourtWidth > 0.0 ==> mpp > 0.0
  {
    DoubleLineWidth / miniCourtWidth
  }

  /** `dict.get`: the value under `id`, if any. */
  function Lookup(m: map<int, real>, id: int): Option<real> {
    if id in m then Some(m[id]) else None
  }

  /** The value a dictionary entry starts from when first set: `0.0` if absent. */
  function OrZero(o: Option<real>): real {
    if o.Some? then o.value else 0.0
  }

  // ---------------------------------------------------------------------------
  // The specification: what the dictionaries hold after each frame

  /** The distance in metres added for `id` at frame f: the move of its mini-court
      position from frame f-1, when `id` is in frame f-1 and both positions exist;
      zero otherwise. */
  function StepDistance(players: seq<Frame>, f: nat, id: int, mpp: real, sqrt: real -> real): real
    requires f < |players| && id in players[f]
  {
    if f > 0 && id in players[f - 1]
       && players[f - 1][id].miniCourtPosition.Some? && players[f][id].miniCourtPosition.Some?
    then MeasureDistance(players[f - 1][id].miniCourtPosition.value, players[f][id].miniCourtPosition.value, sqrt) * mpp
    else 0.0
  }

  /** The speed in km/h over the window ending at frame f, when frame f - window has
      `id` and both positions exist. */
  function WindowSpeed(players: seq<Frame>, f: nat, id: int, window: int, fps: real, mpp: real,
                       sqrt: real -> real): Option<real>
    requires f < |players| && id in players[f] && window >= 1 && fps != 0.0
  {
    if f >= window && id in players[f - window]
       && players[f - window][id].miniCourtPosition.Some? && players[f][id].miniCourtPosition.Some?
    then
      var distMeters := MeasureDistance(players[f - window][id].miniCourtPosition.value,
                                        players[f][id].miniCourtPosition.value, sqrt) * mpp;
      var timeElapsed := window as real / fps;
      Some(distMeters / timeElapsed * 3.6)
    else None
  }

  /** `total_distance.get(id)` after the first n frames. */
  function TotalDistance(players: seq<Frame>, n: nat, id: int, mpp: real, sqrt: real -> real): Option<real>
    requires n <= |players|
  {
    if n == 0 then None
    else
      var before := TotalDistance(players, n - 1, id, mpp, sqrt);
      if id in players[n - 1] then Some(OrZero(before) + StepDistance(players, n - 1, id, mpp, sqrt))
      else before
  }

  /** `last_speed.get(id)` after the first n frames. */
  function LastSpeed(players: seq<Frame>, n: nat, id: int, window: int, fps: real, mpp: real,
                     sqrt: real -> real): Option<real>
    requires n <= |players| && window >= 1 && fps != 0.0
  {
    if n == 0 then None
    else
      var before := LastSpeed(players, n - 1, id, window, fps, mpp, sqrt);
      if id in players[n - 1] then
        var w := WindowSpeed(players, n - 1, id, window, fps, mpp, sqrt);
        if w.Some? then w else Some(OrZero(before))
      else before
  }

  /** Frame f of the players after the stage: each record gains the running totals. */
  function PhysicsFrame(players: seq<Frame>, f: nat, window: int, fps: real, mpp: real,
                        sqrt: real -> real): Frame
    requires f < |players| && window >= 1 && fps != 0.0
  {
    map id | id in players[f] :: players[f][id].(distance := TotalDistance(players, f + 1, id, mpp, sqrt),
                                                 speed := LastSpeed(players, f + 1, id, window, fps, mpp, sqrt))
  }

  /** The player list after `add_speed_and_distance_to_tracks`. */
  function WithPhysics(players: seq<Frame>, window: int, fps: real, mpp: real, sqrt: real -> real): seq<Frame>
    requires window >= 1 && fps != 0.0
  {
    seq(|players|, f requires 0 <= f < |players| => PhysicsFrame(players, f, window, fps, mpp, sqrt))
  }

  // ---------------------------------------------------------------------------
  // Properties

  /** An id has a running total exactly when it appeared in one of the frames so far,
      and then it has a speed too. */
  lemma {:induction false} TotalsDefinedIffSeen(players: seq<Frame>, n: nat, id: int, window: int, fps: real,
                                                 mpp: real, sqrt: real -> real)
    requires n <= |players| && window >= 1 && fps != 0.0
    ensures TotalDistance(players, n, id, mpp, sqrt).Some? <==> exists g :: 0 <= g < n && id in players[g]
    ensures LastSpeed(players, n, id, window, fps, mpp, sqrt).Some? <==> TotalDistance(players, n, id, mpp, sqrt).Some?
  {
    if n > 0 {
      TotalsDefinedIffSeen(players, n - 1, id, window, fps, mpp, sqrt);
      if id !in players[n - 1] {
        assert (exists g :: 0 <= g < n && id in players[g]) ==> exists g :: 0 <= g < n - 1 && id in players[g];
      }
    }
  }

  /** Every record of every frame receives `distance` and `speed`, nothing else in it
      changes, and the frame count and the ids of each frame are unchanged. */
  lemma EveryRecordGetsPhysics(players: seq<Frame>, window: int, fps: real, mpp: real, sqrt: real -> real,
                               f: nat, id: int)
    requires window >= 1 && fps != 0.0
    ensures |WithPhysics(players, window, fps, mpp, sqrt)| == |players|
    ensures f < |players| ==> WithPhysics(players, window, fps, mpp, sqrt)[f].Keys == players[f].Keys
    ensures f < |players| && id in players[f] ==>
      var e, old_e := WithPhysics(players, window, fps, mpp, sqrt)[f][id], players[f][id];
      && e.distance.Some? && e.speed.Some?
      && e.bbox == old_e.bbox && e.position == old_e.position && e.miniCourtPosition == old_e.miniCourtPosition
  {
    if f < |players| && id in players[f] {
      TotalsDefinedIffSeen(players, f + 1, id, window, fps, mpp, sqrt);
    }
  }

  /** On an id's first appearance both its distance and its speed are 0.0. */
  lemma FirstAppearanceIsZero(players: seq<Frame>, window: int, fps: real, mpp: real, sqrt: real -> real,
                              f: nat, id: int)
    requires window >= 1 && fps != 0.0
    requires f < |players| && id in players[f]
    requires forall g :: 0 <= g < f ==> id !in players[g]
    ensures WithPhysics(players, window, fps, mpp, sqrt)[f][id].distance == Some(0.0)
    ensures WithPhysics(players, window, fps, mpp, sqrt)[f][id].speed == Some(0.0)
  {
    TotalsDefinedIffSeen(players, f, id, window, fps, mpp, sqrt);
  }

  /** Under a true square root and a non-negative scale, no step moves the total back. */
  lemma StepDistanceNonNegative(players: seq<Frame>, f: nat, id: int, mpp: real, sqrt: real -> real)
    requires IsSqrt(sqrt) && 0.0 <= mpp
    requires f < |players| && id in players[f]
    ensures 0.0 <= StepDistance(players, f, id, mpp, sqrt)
  {
    if f > 0 && id in players[f - 1]
       && players[f - 1][id].miniCourtPosition.Some? && players[f][id].miniCourtPosition.Some? {
      var d := MeasureDistance(players[f - 1][id].miniCourtPosition.value, players[f][id].miniCourtPosition.value, sqrt);
      assert 0.0 <= d;
      assert 0.0 <= d * mpp;
    }
  }

  /** Once an id has a total, later totals are defined and no smaller. */
  lemma {:induction false} TotalDistanceMonotone(players: seq<Frame>, id: int, mpp: real, sqrt: real -> real,
                                                  n: nat, m: nat)
    requires IsSqrt(sqrt) && 0.0 <= mpp
    requires n <= m <= |players| && TotalDistance(players, n, id, mpp, sqrt).Some?
    ensures TotalDistance(players, m, id, mpp, sqrt).Some?
    ensures TotalDistance(players, n, id, mpp, sqrt).value <= TotalDistance(players, m, id, mpp, sqrt).value
    decreases m
  {
    if m > n {
      TotalDistanceMonotone(players, id, mpp, sqrt, n, m - 1);
      if id in players[m - 1] {
        StepDistanceNonNegative(players, m - 1, id, mpp, sqrt);
      }
    }
  }

  /** Per track id, the written `distance` never decreases from frame to frame. */
  lemma DistanceNeverDecreases(players: seq<Frame>, window: int, fps: real, mpp: real, sqrt: real -> real,
                               g: nat, f: nat, id: int)
    requires IsSqrt(sqrt) && 0.0 <= mpp && window >= 1 && fps != 0.0
    requires g <= f < |players| && id in players[g] && id in players[f]
    ensures WithPhysics(players, window, fps, mpp, sqrt)[g][id].distance.value <=
            WithPhysics(players, window, fps, mpp, sqrt)[f][id].distance.value
  {
    TotalDistanceMonotone(players, id, mpp, sqrt, g + 1, f + 1);
  }

  /** Frames where an id is absent leave its totals alone: across a gap the totals carry
      over from the id's last appearance instead of starting again. */
  lemma {:induction false} TotalsCarryOverGap(players: seq<Frame>, window: int, fps: real, mpp: real,
                                               sqrt: real -> real, g: nat, n: nat, id: int)
    requires window >= 1 && fps != 0.0
    requires g <= n <= |players|
    requires forall k :: g <= k < n ==> id !in players[k]
    ensures TotalDistance(players, n, id, mpp, sqrt) == TotalDistance(players, g, id, mpp, sqrt)
    ensures LastSpeed(players, n, id, window, fps, mpp, sqrt) == LastSpeed(players, g, id, window, fps, mpp, sqrt)
    decreases n
  {
    if n > g {
      TotalsCarryOverGap(players, window, fps, mpp, sqrt, g, n - 1, id);
    }
  }

  /** The distance written at frame f is the one written at the id's previous
      appearance g, plus the move from frame f-1 only when f-1 is that appearance and
      both positions exist. */
  lemma DistanceFromPreviousAppearance(players: seq<Frame>, window: int, fps: real, mpp: real,
                                       sqrt: real -> real, g: nat, f: nat, id: int)
    requires window >= 1 && fps != 0.0
    requires g < f < |players| && id in players[g] && id in players[f]
    requires forall k :: g < k < f ==> id !in players[k]
    ensures var after := WithPhysics(players, window, fps, mpp, sqrt);
      after[f][id].distance.value ==
        after[g][id].distance.value +
        (if g == f - 1 && players[g][id].miniCourtPosition.Some? && players[f][id].miniCourtPosition.Some?
         then MeasureDistance(players[g][id].miniCourtPosition.value, players[f][id].miniCourtPosition.value, sqrt) * mpp
         else 0.0)
  {
    TotalsCarryOverGap(players, window, fps, mpp, sqrt, g + 1, f, id);
    TotalsDefinedIffSeen(players, g + 1, id, window, fps, mpp, sqrt);
  }

  /** The speed written at frame f is recomputed from the window when frame f - window
      has the id with a position and frame f has one too: the metres covered over the
      window's `window / fps` seconds, in km/h, so that speed times `window` is
      `dist_px * mpp * fps * 3.6`. Otherwise it is the speed written at the id's
      previous appearance g, or 0.0 if there is none. */
  lemma SpeedRecomputedOrKept(players: seq<Frame>, window: int, fps: real, mpp: real,
                              sqrt: real -> real, g: int, f: nat, id: int)
    requires window >= 1 && fps != 0.0
    requires f < |players| && id in players[f]
    requires -1 <= g < f && (g >= 0 ==> id in players[g])
    requires forall k :: g < k < f ==> id !in players[k]
    ensures var after := WithPhysics(players, window, fps, mpp, sqrt);
      var recomputed := f >= window && id in players[f - window]
        && players[f - window][id].miniCourtPosition.Some? && players[f][id].miniCourtPosition.Some?;
      && (recomputed ==>
            after[f][id].speed.value * window as real ==
              MeasureDistance(players[f - window][id].miniCourtPosition.value,
                              players[f][id].miniCourtPosition.value, sqrt) * mpp * fps * 3.6)
      && (!recomputed ==> after[f][id].speed.value == if g >= 0 then after[g][id].speed.value else 0.0)
  {
    var recomputed := f >= window && id in players[f - window]
      && players[f - window][id].miniCourtPosition.Some? && players[f][id].miniCourtPosition.Some?;
    if recomputed {
      var d := MeasureDistance(players[f - window][id].miniCourtPosition.value,
                               players[f][id].miniCourtPosition.value, sqrt) * mpp;
      var w := window as real;
      var q := w / fps;
      assert q * fps == w;
      var y := d / q;
      assert y * q == d;
      assert WithPhysics(players, window, fps, mpp, sqrt)[f][id].speed == Some(y * 3.6);
      assert y * 3.6 * w == 3.6 * fps * (y * q);
    } else {
      TotalsCarryOverGap(players, window, fps, mpp, sqrt, g + 1, f, id);
      if g >= 0 {
        TotalsDefinedIffSeen(players, g + 1, id, window, fps, mpp, sqrt);
      } else {
        TotalsDefinedIffSeen(players, 0, id, window, fps, mpp, sqrt);
      }
    }
  }

  /** With a true square root, a non-negative scale and a positive frame rate, every
      written speed is non-negative. */
  lemma {:induction false} SpeedNonNegative(players: seq<Frame>, n: nat, id: int, window: int, fps: real,
                                             mpp: real, sqrt: real -> real)
    requires IsSqrt(sqrt) && 0.0 <= mpp && 0.0 < fps && window >= 1
    requires n <= |players| && LastSpeed(players, n, id, window, fps, mpp, sqrt).Some?
    ensures 0.0 <= LastSpeed(players, n, id, window, fps, mpp, sqrt).value
  {
    var before := LastSpeed(players, n - 1, id, window, fps, mpp, sqrt);
    if before.Some? {
      SpeedNonNegative(players, n - 1, id, window, fps, mpp, sqrt);
    }
    if id in players[n - 1] {
      var f := n - 1;
      if f >= window && id in players[f - window]
         && players[f - window][id].miniCourtPosition.Some? && players[f][id].miniCourtPosition.Some? {
        var d := MeasureDistance(players[f - window][id].miniCourtPosition.value,
                                 players[f][id].miniCourtPosition.value, sqrt) * mpp;
        var t := window as real / fps;
        assert 0.0 < t;
        assert 0.0 <= d / t;
      }
    }
  }

  /** The number of frames whose update an id has had while frame `frameNum`'s ids are
      visited: one more once the id is no longer pending. */
  function Visited(frameNum: nat, id: int, pending: set<int>): nat {
    if id in pending then frameNum else frameNum + 1
  }

  /** Storing the total of a visited id keeps `total_distance` in step with the visit. */
  lemma DistanceVisited(players: seq<Frame>, frameNum: nat, trackId: int, pending: set<int>,
                        totals: map<int, real>, distance: real, mpp: real, sqrt: real -> real)
    requires frameNum < |players| && trackId in pending
    requires forall id :: Lookup(totals, id) == TotalDistance(players, Visited(frameNum, id, pending), id, mpp, sqrt)
    requires Some(distance) == TotalDistance(players, frameNum + 1, trackId, mpp, sqrt)
    ensures forall id ::
      Lookup(totals[trackId := distance], id) == TotalDistance(players, Visited(frameNum, id, pending - {trackId}), id, mpp, sqrt)
  {
    forall id
      ensures Lookup(totals[trackId := distance], id) ==
        TotalDistance(players, Visited(frameNum, id, pending - {trackId}), id, mpp, sqrt)
    {
      if id != trackId {
        assert Visited(frameNum, id, pending - {trackId}) == Visited(frameNum, id, pending);
      }
    }
  }

  /** Storing the speed of a visited id keeps `last_speed` in step with the visit. */
  lemma SpeedVisited(players: seq<Frame>, frameNum: nat, trackId: int, pending: set<int>,
                     speeds: map<int, real>, speed: real, window: int, fps: real, mpp: real, sqrt: real -> real)
    requires frameNum < |players| && trackId in pending && window >= 1 && fps != 0.0
    requires forall id ::
      Lookup(speeds, id) == LastSpeed(players, Visited(frameNum, id, pending), id, window, fps, mpp, sqrt)
    requires Some(speed) == LastSpeed(players, frameNum + 1, trackId, window, fps, mpp, sqrt)
    ensures forall id ::
      Lookup(speeds[trackId := speed], id) == LastSpeed(players, Visited(frameNum, id, pending - {trackId}), id, window, fps, mpp, sqrt)
  {
    forall id
      ensures Lookup(speeds[trackId := speed], id) ==
        LastSpeed(players, Visited(frameNum, id, pending - {trackId}), id, window, fps, mpp, sqrt)
    {
      if id != trackId {
        assert Visited(frameNum, id, pending - {trackId}) == Visited(frameNum, id, pending);
      }
    }
  }

  // ---------------------------------------------------------------------------
  // The engine

  /** `PhysicsEngine`: the frame rate and the metre value of a mini-court pixel. */
  class PhysicsEngine {
    const fps: real
    const metersPerPixel: real

    constructor(fps: real, miniCourtWidth: real)
      requires miniCourtWidth != 0.0
      ensures this.fps == fps && metersPerPixel == MetersPerPixel(miniCourtWidth)
    {
      this.fps := fps;
      metersPerPixel := DoubleLineWidth / miniCourtWidth;
    }

    /** The body of the id loop for `trackId` in frame `frameNum`: starts its totals at
        0.0 on a first appearance, adds the move from the previous frame, recomputes the
        windowed speed when it can, and returns the id's `total_distance` and
        `last_speed` afterwards. */
    method TrackStep(players: seq<Frame>, frameNum: nat, trackId: int, sqrt: real -> real, frameWindow: int,
                     totalDistance: map<int, real>, lastSpeed: map<int, real>)
      returns (distance: real, speed: real)
      requires frameNum < |players| && trackId in players[frameNum] && fps != 0.0 && frameWindow >= 1
      requires Lookup(totalDistance, trackId) == TotalDistance(players, frameNum, trackId, metersPerPixel, sqrt)
      requires Lookup(lastSpeed, trackId) == LastSpeed(players, frameNum, trackId, frameWindow, fps, metersPerPixel, sqrt)
      ensures Some(distance) == TotalDistance(players, frameNum + 1, trackId, metersPerPixel, sqrt)
      ensures Some(speed) == LastSpeed(players, frameNum + 1, trackId, frameWindow, fps, metersPerPixel, sqrt)
    {
      var player := players[frameNum][trackId];
      distance := if trackId in totalDistance then totalDistance[trackId] else 0.0;
      speed := if trackId in lastSpeed then lastSpeed[trackId] else 0.0;
      assert speed == OrZero(LastSpeed(players, frameNum, trackId, frameWindow, fps, metersPerPixel, sqrt));

      if frameNum > 0 && trackId in players[frameNum - 1] {
        var prevPos := players[frameNum - 1][trackId].miniCourtPosition;
        var currPos := player.miniCourtPosition;
        if prevPos.Some? && currPos.Some? {
          var distPixels := MeasureDistance(prevPos.value, currPos.value, sqrt);
          var distMeters := distPixels * metersPerPixel;
          distance := distance + distMeters;
        }
      }

      if frameNum >= frameWindow {
        if trackId in players[frameNum - frameWindow] {
          var prevWindowPos := players[frameNum - frameWindow][trackId].miniCourtPosition;
          var currPos := player.miniCourtPosition;
          if prevWindowPos.Some? && currPos.Some? {
            var distPixels := MeasureDistance(prevWindowPos.value, currPos.value, sqrt);
            var distMeters := distPixels * metersPerPixel;
            var timeElapsed := frameWindow as real / fps;
            var speedMps := distMeters / timeElapsed;
            speed := speedMps * 3.6;
          }
        }
      }
      assert TotalDistance(players, frameNum + 1, trackId, metersPerPixel, sqrt) ==
        Some(OrZero(TotalDistance(players, frameNum, trackId, metersPerPixel, sqrt)) +
             StepDistance(players, frameNum, trackId, metersPerPixel, sqrt));
      assert distance == OrZero(TotalDistance(players, frameNum, trackId, metersPerPixel, sqrt)) +
             StepDistance(players, frameNum, trackId, metersPerPixel, sqrt);
      assert speed == OrZero(LastSpeed(players, frameNum + 1, trackId, frameWindow, fps, metersPerPixel, sqrt));
    }

    /** One iteration of the frame loop of `add_speed_and_distance_to_tracks`: visits
        the ids of frame `frameNum` and returns the frame with `distance` and `speed`
        written, and both dictionaries after the frame. */
    method PhysicsForFrame(players: seq<Frame>, frameNum: nat, sqrt: real -> real, frameWindow: int,
                           totalDistance: map<int, real>, lastSpeed: map<int, real>)
      returns (frame: Frame, newTotalDistance: map<int, real>, newLastSpeed: map<int, real>)
      requires frameNum < |players| && fps != 0.0 && frameWindow >= 1
      requires forall id :: Lookup(totalDistance, id) == TotalDistance(players, frameNum, id, metersPerPixel, sqrt)
      requires forall id ::
        Lookup(lastSpeed, id) == LastSpeed(players, frameNum, id, frameWindow, fps, metersPerPixel, sqrt)
      ensures frame == PhysicsFrame(players, frameNum, frameWindow, fps, metersPerPixel, sqrt)
      ensures forall id ::
        Lookup(newTotalDistance, id) == TotalDistance(players, frameNum + 1, id, metersPerPixel, sqrt)
      ensures forall id ::
        Lookup(newLastSpeed, id) == LastSpeed(players, frameNum + 1, id, frameWindow, fps, metersPerPixel, sqrt)
    {
      ghost var target := PhysicsFrame(players, frameNum, frameWindow, fps, metersPerPixel, sqrt);
      frame := players[frameNum];
      newTotalDistance, newLastSpeed := totalDistance, lastSpeed;
      var pending := frame.Keys;
      while pending != {}
        invariant pending <= frame.Keys && frame.Keys == players[frameNum].Keys
        invariant forall id :: id in pending ==> frame[id] == players[frameNum][id]
        invariant forall id :: id in frame && id !in pending ==> frame[id] == target[id]
        invariant forall id ::
          Lookup(newTotalDistance, id) ==
          TotalDistance(players, Visited(frameNum, id, pending), id, metersPerPixel, sqrt)
        invariant forall id ::
          Lookup(newLastSpeed, id) ==
          LastSpeed(players, Visited(frameNum, id, pending), id, frameWindow, fps, metersPerPixel, sqrt)
        decreases pending
      {
        ghost var someId := Element(pending);
        var trackId :| trackId in pending;
        var player := frame[trackId];
        var distance, speed := TrackStep(players, frameNum, trackId, sqrt, frameWindow, newTotalDistance, newLastSpeed);
        DistanceVisited(players, frameNum, trackId, pending, newTotalDistance, distance, metersPerPixel, sqrt);
        SpeedVisited(players, frameNum, trackId, pending, newLastSpeed, speed, frameWindow, fps, metersPerPixel, sqrt);
        newTotalDistance := newTotalDistance[trackId := distance];
        newLastSpeed := newLastSpeed[trackId := speed];
        frame := frame[trackId := player.(distance := Some(distance), speed := Some(speed))];
        pending := pending - {trackId};
      }
      assert forall id :: id in frame ==> frame[id] == target[id];
    }

    /** `add_speed_and_distance_to_tracks`: one pass over the frames, and within each
        frame over its ids, keeping `total_distance` and `last_speed` per id and writing
        both into every player record in place. */
    method AddSpeedAndDistanceToTracks(t: TrackStore, sqrt: real -> real, frameWindow: int)
      requires Players in t.objects && fps != 0.0 && frameWindow >= 1
      modifies t
      ensures t.objects == old(t.objects)[Players := WithPhysics(old(t.objects)[Players], frameWindow, fps,
                                                                  metersPerPixel, sqrt)]
    {
      var players := t.objects[Players];
      ghost var target := WithPhysics(players, frameWindow, fps, metersPerPixel, sqrt);
      var totalDistance: map<int, real> := map[];
      var lastSpeed: map<int, real> := map[];
      for frameNum := 0 to |players|
        invariant t.objects.Keys == old(t.objects).Keys
        invariant forall o :: o in t.objects && o != Players ==> t.objects[o] == old(t.objects)[o]
        invariant |t.objects[Players]| == |players|
        invariant forall g :: 0 <= g < |players| ==>
          t.objects[Players][g] == if g < frameNum then target[g] else players[g]
        invariant forall id :: Lookup(totalDistance, id) == TotalDistance(players, frameNum, id, metersPerPixel, sqrt)
        invariant forall id ::
          Lookup(lastSpeed, id) == LastSpeed(players, frameNum, id, frameWindow, fps, metersPerPixel, sqrt)
      {
        var frame;
        frame, totalDistance, lastSpeed := PhysicsForFrame(players, frameNum, sqrt, frameWindow, totalDistance, lastSpeed);
        t.objects := t.objects[Players := t.objects[Players][frameNum := frame]];
      }
      assert t.objects[Players] == target;
    }

    /** `add_speed_and_distance_to_tracks(tracks)`, with the default `frame_window`. */
    method AddSpeedAndDistanceToTracksDefault(t: TrackStore, sqrt: real -> real)
      requires Players in t.objects && fps != 0.0
      modifies t
      ensures t.objects == old(t.objects)[Players := WithPhysics(old(t.objects)[Players], DefaultFrameWindow, fps,
                                                                  metersPerPixel, sqrt)]
    {
      AddSpeedAndDistanceToTracks(t, sqrt, DefaultFrameWindow);
    }
  }
}
