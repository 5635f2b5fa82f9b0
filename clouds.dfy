/** The decorative parallax layer: a batch of clouds that drift left and are
    re-placed past the right edge, with a bounded search for a height that
    overlaps at most one other cloud. */
module Clouds {
  import opened Params
  import opened Geometry

  datatype Cloud = Cloud(x: real, y: real, scale: real, speed: real)

  /** Number of extra height samples the re-placement may draw. */
  const MaxAttempts: nat := 8

  const CloudMinY: real := 40.0

  /** Highest cloud position for a cloud of this scale on a playfield of this height. */
  function CloudMaxY(scale: real, height: real): real
  {
    Max(CloudMinY, height - 100.0 - 22.0 * scale)
  }

  /** A height drawn uniformly in the cloud band. */
  function SampleY(draw: real, scale: real, height: real): (y: real)
    ensures 0.0 <= draw < 1.0 ==> CloudMinY <= y <= CloudMaxY(scale, height)
  {
    Lerp(draw, CloudMinY, Max(0.0, CloudMaxY(scale, height) - CloudMinY))
  }

  function Bounds(c: Cloud): Rect { CloudBounds(c.x, c.y, c.scale) }

  /** A cloud has scrolled fully past the left edge. */
  predicate Offscreen(c: Cloud) { c.x < -160.0 * c.scale }

  // ---------------------------------------------------------------------------
  // Creating a batch

  /** Number of clouds for a playfield of this width: one per 120 px, at least 6. */
  function CloudCount(width: real): (n: nat)
    ensures n >= 6 && n >= (width / 120.0).Floor
    ensures n == 6 || n == (width / 120.0).Floor
  {
    var perWidth := (width / 120.0).Floor;
    if perWidth > 6 then perWidth else 6
  }

  /** The cloud made from four consecutive draws starting at k: scale, height,
      speed and horizontal position, in that order. */
  function NewCloud(width: real, height: real, rand: Random, k: nat): (c: Cloud)
    ensures 0.0 <= rand(k) < 1.0 ==> 1.2 <= c.scale < 4.0
    ensures 0.0 <= rand(k + 1) < 1.0 ==> CloudMinY <= c.y <= CloudMaxY(c.scale, height)
    ensures 0.0 <= rand(k + 2) < 1.0 ==> 12.0 <= c.speed < 36.0
    ensures 0.0 <= rand(k + 3) < 1.0 && width >= 0.0 ==> 0.0 <= c.x <= width
  {
    var scale := (0.6 + rand(k) * 1.4) * 2.0;
    var y := SampleY(rand(k + 1), scale, height);
    var speed := 12.0 + rand(k + 2) * 24.0;
    var x := Lerp(rand(k + 3), 0.0, width);
    Cloud(x, y, scale, speed)
  }

  /** A cloud whose scale, height and speed lie in the ranges the draws allow. */
  predicate WellPlaced(c: Cloud, height: real)
  {
    1.2 <= c.scale < 4.0 && CloudMinY <= c.y <= CloudMaxY(c.scale, height) && 12.0 <= c.speed < 36.0
  }

  /** The counted loop that builds a fresh batch of clouds. */
  method BuildClouds(width: real, height: real, rand: Random, k: nat) returns (cs: seq<Cloud>, next: nat)
    ensures |cs| == CloudCount(width) && |cs| >= 6
    ensures next == k + 4 * |cs|
    ensures forall i :: 0 <= i < |cs| ==> cs[i] == NewCloud(width, height, rand, k + 4 * i)
    ensures UnitDraws(rand) ==> forall i :: 0 <= i < |cs| ==> WellPlaced(cs[i], height)
    ensures UnitDraws(rand) && width >= 0.0 ==> forall i :: 0 <= i < |cs| ==> 0.0 <= cs[i].x <= width
  {
    cs := [];
    next := k;
    var count := CloudCount(width);
    for i := 0 to count
      invariant |cs| == i && next == k + 4 * i
      invariant forall j :: 0 <= j < i ==> cs[j] == NewCloud(width, height, rand, k + 4 * j)
    {
      cs := cs + [NewCloud(width, height, rand, next)];
      next := next + 4;
    }
  }

  // ---------------------------------------------------------------------------
  // Drifting

  /** The clouds after each moved left by its own speed times dt. */
  function Drift(cs: seq<Cloud>, dt: real): seq<Cloud>
  {
    seq(|cs|, i requires 0 <= i < |cs| => cs[i].(x := cs[i].x - cs[i].speed * dt))
  }

  /** The cloud-advance loop: every cloud moves left by its own speed times
      dt; its height, scale and speed stay. */
  method AdvanceClouds(cs: seq<Cloud>, dt: real) returns (moved: seq<Cloud>)
    ensures |moved| == |cs|
    ensures forall i :: 0 <= i < |cs| ==>
      moved[i] == Cloud(cs[i].x - cs[i].speed * dt, cs[i].y, cs[i].scale, cs[i].speed)
    ensures moved == Drift(cs, dt)
  {
    moved := cs;
    var i := 0;
    while i < |moved|
      invariant 0 <= i <= |moved| == |cs|
      invariant forall j :: 0 <= j < i ==> moved[j] == cs[j].(x := cs[j].x - cs[j].speed * dt)
      invariant forall j :: i <= j < |cs| ==> moved[j] == cs[j]
    {
      moved := moved[i := moved[i].(x := moved[i].x - moved[i].speed * dt)];
      i := i + 1;
    }
    assert forall j :: 0 <= j < |cs| ==> Drift(cs, dt)[j] == moved[j];
  }

  // ---------------------------------------------------------------------------
  // Re-placing a cloud

  /** Among the clouds before position n, other than cloud i itself, the number
      whose outline overlaps the box b. */
  function Overlaps(cs: seq<Cloud>, i: int, b: Rect, n: nat): nat
    requires n <= |cs|
  {
    if n == 0 then 0
    else Overlaps(cs, i, b, n - 1) + (if n - 1 != i && RectsOverlap(b, Bounds(cs[n - 1])) then 1 else 0)
  }

  function OverlapTotal(cs: seq<Cloud>, i: int, b: Rect): nat
  {
    Overlaps(cs, i, b, |cs|)
  }

  lemma {:induction false} OverlapsGrow(cs: seq<Cloud>, i: int, b: Rect, m: nat, n: nat)
    requires m <= n <= |cs|
    ensures Overlaps(cs, i, b, m) <= Overlaps(cs, i, b, n)
    decreases n - m
  {
    if m < n { OverlapsGrow(cs, i, b, m + 1, n); }
  }

  /** The overlap-counting loop, which stops as soon as a second overlap is found:
      it returns the number of overlapping other clouds, capped at 2. */
  method CountOverlaps(cs: seq<Cloud>, i: int, b: Rect) returns (count: nat)
    ensures count == if OverlapTotal(cs, i, b) <= 1 then OverlapTotal(cs, i, b) else 2
  {
    count := 0;
    var j := 0;
    while j < |cs|
      invariant 0 <= j <= |cs|
      invariant count == Overlaps(cs, i, b, j) && count <= 1
    {
      if j != i {
        if RectsOverlap(b, Bounds(cs[j])) {
          count := count + 1;
        }
        if count > 1 {
          OverlapsGrow(cs, i, b, j + 1, |cs|);
          return;
        }
      }
      j := j + 1;
    }
  }

  /** Height y is good for cloud i placed at x: it overlaps at most one other cloud. */
  predicate Accepted(cs: seq<Cloud>, i: int, x: real, scale: real, y: real)
  {
    OverlapTotal(cs, i, CloudBounds(x, y, scale)) <= 1
  }

  /** The bounded rejection sampling for a re-placed cloud's height, drawing from
      rand starting at k. It returns the height and the number of draws used:
      every earlier sample was rejected, and the returned one was accepted
      unless all MaxAttempts retries were spent, in which case the last draw is
      taken unchecked. */
  method ChooseCloudY(cs: seq<Cloud>, i: int, x: real, scale: real, height: real, rand: Random, k: nat)
    returns (y: real, used: nat)
    ensures 1 <= used <= MaxAttempts + 1
    ensures y == SampleY(rand(k + used - 1), scale, height)
    ensures forall j :: k <= j < k + used - 1 ==> !Accepted(cs, i, x, scale, SampleY(rand(j), scale, height))
    ensures used <= MaxAttempts ==> Accepted(cs, i, x, scale, y)
  {
    var attempts := 0;
    y := SampleY(rand(k), scale, height);
    while attempts < MaxAttempts
      invariant 0 <= attempts <= MaxAttempts
      invariant y == SampleY(rand(k + attempts), scale, height)
      invariant forall j :: k <= j < k + attempts ==> !Accepted(cs, i, x, scale, SampleY(rand(j), scale, height))
    {
      var count := CountOverlaps(cs, i, CloudBounds(x, y, scale));
      if count <= 1 {
        return y, attempts + 1;
      }
      attempts := attempts + 1;
      y := SampleY(rand(k + attempts), scale, height);
    }
    used := attempts + 1;
  }

  /** What a recycle pass guarantees about the clouds it is given: clouds
      still on screen stay as they were; one that has left moves to just past
      the right edge, keeps its size and speed and, for draws in [0, 1), gets
      a height inside the band. */
  ghost predicate Recycled(cs: seq<Cloud>, placed: seq<Cloud>, width: real, height: real, rand: Random)
  {
    && |placed| == |cs|
    && (forall i :: 0 <= i < |cs| && !Offscreen(cs[i]) ==> placed[i] == cs[i])
    && (forall i :: 0 <= i < |cs| && Offscreen(cs[i]) ==>
          placed[i].x == width + 40.0 && placed[i].scale == cs[i].scale && placed[i].speed == cs[i].speed)
    && (UnitDraws(rand) ==> forall i :: 0 <= i < |cs| && Offscreen(cs[i]) ==>
          CloudMinY <= placed[i].y <= CloudMaxY(placed[i].scale, height))
  }

  /** Every cloud that had left gets its height from one of the draws lo to hi - 1. */
  ghost predicate DrawnFrom(cs: seq<Cloud>, placed: seq<Cloud>, height: real, rand: Random, lo: nat, hi: nat)
    requires |placed| == |cs|
  {
    forall i :: 0 <= i < |cs| && Offscreen(cs[i]) ==>
      exists j :: lo <= j < hi && placed[i].y == SampleY(rand(j), cs[i].scale, height)
  }

  /** The recycle loop: every cloud that has scrolled off the left edge, in
      order, moves to just past the right edge and gets a new height from
      ChooseCloudY, checked against the clouds as they stand at its turn. */
  method RecycleClouds(cs: seq<Cloud>, width: real, height: real, rand: Random, k: nat)
    returns (placed: seq<Cloud>, next: nat)
    ensures |placed| == |cs|
    ensures k <= next <= k + (MaxAttempts + 1) * |cs|
    ensures (forall i :: 0 <= i < |cs| ==> !Offscreen(cs[i])) ==> next == k
    ensures forall i :: 0 <= i < |cs| ==> placed[i].scale == cs[i].scale && placed[i].speed == cs[i].speed
    ensures forall i :: 0 <= i < |cs| && !Offscreen(cs[i]) ==> placed[i] == cs[i]
    ensures forall i :: 0 <= i < |cs| && Offscreen(cs[i]) ==>
      placed[i].x == width + 40.0 && exists j :: k <= j < next && placed[i].y == SampleY(rand(j), cs[i].scale, height)
    ensures UnitDraws(rand) ==> forall i :: 0 <= i < |cs| && Offscreen(cs[i]) ==>
      CloudMinY <= placed[i].y <= CloudMaxY(cs[i].scale, height)
  {
    placed := cs;
    next := k;
    var i := 0;
    while i < |placed|
      invariant 0 <= i <= |placed| == |cs|
      invariant k <= next <= k + (MaxAttempts + 1) * i
      invariant (forall j :: 0 <= j < i ==> !Offscreen(cs[j])) ==> next == k
      invariant forall j :: 0 <= j < |cs| ==> placed[j].scale == cs[j].scale && placed[j].speed == cs[j].speed
      invariant forall j :: 0 <= j < |cs| && (i <= j || !Offscreen(cs[j])) ==> placed[j] == cs[j]
      invariant forall j :: 0 <= j < i && Offscreen(cs[j]) ==>
        placed[j].x == width + 40.0 && exists d :: k <= d < next && placed[j].y == SampleY(rand(d), cs[j].scale, height)
    {
      var c := placed[i];
      if c.x < -160.0 * c.scale {
        c := c.(x := width + 40.0);
        placed := placed[i := c];
        var y, used := ChooseCloudY(placed, i, c.x, c.scale, height, rand, next);
        placed := placed[i := c.(y := y)];
        next := next + used;
      }
      i := i + 1;
    }
    if UnitDraws(rand) {
      forall j | 0 <= j < |cs| && Offscreen(cs[j])
        ensures CloudMinY <= placed[j].y <= CloudMaxY(cs[j].scale, height)
      {
        var d :| k <= d < next && placed[j].y == SampleY(rand(d), cs[j].scale, height);
        assert 0.0 <= rand(d) < 1.0;
      }
    }
  }
}
