/** Constants of the tennis analytics core (court dimensions, player heights, tracker limits). */
module Constants {
  // Real-world court dimensions, in metres (constants/visual_consts.py).
  const DoubleLineWidth: real := 10.97
  const HalfCourtLineHeight: real := 11.88
  const DoubleAllyDifference: real := 1.37
  const NoMansLandHeight: real := 5.48
  const SingleLineWidth: real := 8.23

  // Approximate player heights, in metres.
  const Player1HeightMeters: real := 1.88
  const Player2HeightMeters: real := 1.91

  // Ball interpolation limits (constants/tracker_consts.py).
  const MaxPixelMovePerFrame: real := 100.0
  const InterpolateLimit: nat := 20
  const RollingWindow: nat := 5
  const BfillLimit: nat := 5
}
