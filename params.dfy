/** Fixed game parameters and the caller-supplied random stream. */
module Params {

  // Physics of the bird.
  const Gravity: real := 1700.0         // px/s^2, downwards
  const FlapVelocity: real := -430.0    // px/s, the absolute velocity a flap sets
  const BirdX: real := 120.0            // fixed horizontal position of the bird
  const BirdRadius: real := 16.0

  // Pipes.
  const PipeWidth: real := 70.0
  const Gap: real := 160.0              // height of the opening in a pipe pair
  const PipeSpeed: real := 180.0        // px/s, leftwards
  const PipeSpawnMs: real := 1400.0     // spawn cadence in milliseconds
  const SpawnOffset: real := 60.0       // a new pipe appears this far right of the playfield
  const CullMargin: real := 10.0        // a pipe is dropped once it is this far past the left edge
  const GapMargin: real := 40.0         // margin between a gap and the ceiling or ground band
  const MaxGapStep: real := 180.0       // largest vertical move of the gap between two spawns

  // Playfield.
  const GroundBand: real := 40.0        // thickness of the ground strip at the bottom

  // Frame clock.
  const MaxDt: real := 0.033            // largest simulated step, in seconds

  /** The results of successive calls of the platform's random generator:
      the i-th call returns rand(i). A cursor says how many have been used. */
  type Random = nat -> real

  /** Every draw lies in [0, 1), as the platform's generator promises. */
  ghost predicate UnitDraws(rand: Random)
  {
    forall i: nat :: 0.0 <= rand(i) < 1.0
  }

  /** A value that may be absent (the source's `number | null`). */
  datatype Option<T> = None | Some(value: T)

  /** The point a draw selects in the interval that starts at lo and has
      length span: a unit draw stays inside the interval. */
  function Lerp(r: real, lo: real, span: real): (x: real)
    ensures 0.0 <= r < 1.0 && span >= 0.0 ==> lo <= x <= lo + span
  {
    ScaledDrawBounds(r, span);
    lo + r * span
  }

  /** A unit draw scales a non-negative length to at most that length. */
  lemma ScaledDrawBounds(r: real, d: real)
    ensures 0.0 <= r < 1.0 && d >= 0.0 ==> 0.0 <= r * d <= d
  {
    if 0.0 <= r < 1.0 && d >= 0.0 {
      assert d - r * d == (1.0 - r) * d;
    }
  }

  function Max(a: real, b: real): real { if a >= b then a else b }
  function Min(a: real, b: real): real { if a <= b then a else b }
}
