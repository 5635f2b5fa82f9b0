/** The obstacle stream: gap placement, movement, culling, pass scoring and the
    collision test against the bird. */
module Pipes {
  import opened Params

  /** One pipe pair: its left edge, the centre of its gap, and whether the bird
      has already scored it. */
  datatype Pipe = Pipe(x: real, gapY: real, passed: bool)

  function Abs(a: real): real { if a < 0.0 then -a else a }

  // ---------------------------------------------------------------------------
  // Gap placement

  /** Lowest legal gap centre: the gap keeps GapMargin away from the ceiling. */
  const MinGapY: real := GapMargin + Gap / 2.0

  /** Highest legal gap centre for a playfield of the given height. */
  function MaxGapY(height: real): real { height - GroundBand - Gap / 2.0 }

  predicate InBand(g: real, height: real) { MinGapY <= g <= MaxGapY(height) }

  /** The uniform draw scaled into the legal band. */
  function DrawnGapY(draw: real, height: real): (g: real)
    ensures 0.0 <= draw < 1.0 && MinGapY <= MaxGapY(height) ==> InBand(g, height)
  {
    Lerp(draw, MinGapY, MaxGapY(height) - MinGapY)
  }

  /** The gap centre of a new pipe: the draw, first pulled to within MaxGapStep
      of the previous centre (the draw itself when there is none), then clamped
      into the band; the band clamp comes last and wins. */
  function SpawnGapY(draw: real, last: Option<real>, height: real): (g: real)
    ensures g >= MinGapY
    ensures MinGapY <= MaxGapY(height) ==> g <= MaxGapY(height)
    ensures last.Some? && InBand(last.value, height) ==> Abs(g - last.value) <= MaxGapStep
    ensures var r := DrawnGapY(draw, height);
      InBand(r, height) && (last.None? || Abs(r - last.value) <= MaxGapStep) ==> g == r
  {
    var randomY := DrawnGapY(draw, height);
    var prev := match last { case Some(v) => v case None => randomY };
    var clamped := Max(prev - MaxGapStep, Min(prev + MaxGapStep, randomY));
    Max(MinGapY, Min(MaxGapY(height), clamped))
  }

  /** The gap centres of successive spawns, starting after a pipe (or a reset)
      whose centre was `last`; `draws` are the random values of those spawns. */
  function GapWalk(draws: seq<real>, last: real, height: real): (gs: seq<real>)
    ensures |gs| == |draws|
  {
    if draws == [] then []
    else
      var g := SpawnGapY(draws[0], Some(last), height);
      [g] + GapWalk(draws[1..], g, height)
  }

  /** On a playfield tall enough to have a band, a walk that starts inside the
      band stays inside it and never moves by more than MaxGapStep per spawn. */
  lemma {:induction false} GapWalkIsBounded(draws: seq<real>, last: real, height: real)
    requires MinGapY <= MaxGapY(height) && InBand(last, height)
    ensures var gs := GapWalk(draws, last, height);
      (forall i :: 0 <= i < |gs| ==> InBand(gs[i], height))
      && (|gs| > 0 ==> Abs(gs[0] - last) <= MaxGapStep)
      && (forall i :: 0 < i < |gs| ==> Abs(gs[i] - gs[i - 1]) <= MaxGapStep)
  {
    if draws != [] {
      var g := SpawnGapY(draws[0], Some(last), height);
      GapWalkIsBounded(draws[1..], g, height);
      var rest := GapWalk(draws[1..], g, height);
      var gs := GapWalk(draws, last, height);
      assert gs == [g] + rest;
      assert gs[0] == g && InBand(g, height) && Abs(g - last) <= MaxGapStep;
      forall i | 0 <= i < |gs| ensures InBand(gs[i], height) {
        if i > 0 { assert gs[i] == rest[i - 1]; }
      }
      forall i | 0 < i < |gs| ensures Abs(gs[i] - gs[i - 1]) <= MaxGapStep {
        if i == 1 { assert gs[i] == rest[0]; } else { assert gs[i] == rest[i - 1] && gs[i - 1] == rest[i - 2]; }
      }
    }
  }

  // ---------------------------------------------------------------------------
  // Movement and culling

  /** Horizontal order of the stream: each pipe lies left of the next one. */
  predicate OrderedByX(ps: seq<Pipe>)
  {
    forall i, j :: 0 <= i < j < |ps| ==> ps[i].x < ps[j].x
  }

  /** The stream after every pipe moved left by PipeSpeed * dt. */
  function Advance(ps: seq<Pipe>, dt: real): seq<Pipe>
  {
    seq(|ps|, i requires 0 <= i < |ps| => ps[i].(x := ps[i].x - PipeSpeed * dt))
  }

  /** The pipe-advance loop: every pipe, in place and in order, moves left by
      PipeSpeed * dt and keeps its gap and its flag. */
  method AdvancePipes(ps: seq<Pipe>, dt: real) returns (moved: seq<Pipe>)
    ensures |moved| == |ps|
    ensures forall i :: 0 <= i < |ps| ==>
      moved[i] == Pipe(ps[i].x - PipeSpeed * dt, ps[i].gapY, ps[i].passed)
    ensures moved == Advance(ps, dt)
  {
    moved := ps;
    var i := 0;
    while i < |moved|
      invariant 0 <= i <= |moved| == |ps|
      invariant forall j :: 0 <= j < i ==> moved[j] == ps[j].(x := ps[j].x - PipeSpeed * dt)
      invariant forall j :: i <= j < |ps| ==> moved[j] == ps[j]
    {
      moved := moved[i := moved[i].(x := moved[i].x - PipeSpeed * dt)];
      i := i + 1;
    }
  }

  /** Moving every pipe by the same distance keeps their horizontal order. */
  lemma AdvanceKeepsOrder(ps: seq<Pipe>, dt: real)
    requires OrderedByX(ps)
    ensures OrderedByX(Advance(ps, dt))
  {
  }

  /** A pipe survives while its right edge is less than CullMargin past the left edge. */
  predicate Kept(p: Pipe) { p.x > -PipeWidth - CullMargin }

  /** The stream without the pipes that have left the playfield. */
  function Cull(ps: seq<Pipe>): (kept: seq<Pipe>)
    ensures |kept| <= |ps|
    ensures forall i :: 0 <= i < |kept| ==> Kept(kept[i])
  {
    if ps == [] then []
    else (if Kept(ps[0]) then [ps[0]] else []) + Cull(ps[1..])
  }

  /** Culling keeps exactly the pipes that pass the test. */
  lemma {:induction false} CullMembership(ps: seq<Pipe>, p: Pipe)
    ensures p in Cull(ps) <==> p in ps && Kept(p)
  {
    if ps != [] {
      CullMembership(ps[1..], p);
      assert ps == [ps[0]] + ps[1..];
    }
  }

  /** Culling a concatenation culls each part and keeps them in order: the
      surviving pipes stay in their original relative order. */
  lemma {:induction false} CullAppend(a: seq<Pipe>, b: seq<Pipe>)
    ensures Cull(a + b) == Cull(a) + Cull(b)
  {
    if a != [] {
      CullAppend(a[1..], b);
      assert (a + b)[1..] == a[1..] + b;
    } else {
      assert a + b == b;
    }
  }

  /** Culling keeps the horizontal order of the stream. */
  lemma {:induction false} CullKeepsOrder(ps: seq<Pipe>)
    requires OrderedByX(ps)
    ensures OrderedByX(Cull(ps))
  {
    if ps != [] {
      CullKeepsOrder(ps[1..]);
      var rest := Cull(ps[1..]);
      forall q | q in rest ensures ps[0].x < q.x {
        CullMembership(ps[1..], q);
      }
    }
  }

  // ---------------------------------------------------------------------------
  // Pass scoring

  /** A pipe whose right edge is left of the bird gets its flag; flags only go up. */
  function Mark(p: Pipe): Pipe
  {
    if !p.passed && p.x + PipeWidth < BirdX then p.(passed := true) else p
  }

  /** The stream after one scoring pass. */
  function MarkPassed(ps: seq<Pipe>): seq<Pipe>
  {
    seq(|ps|, i requires 0 <= i < |ps| => Mark(ps[i]))
  }

  /** Number of pipes whose flag went from false to true between a and b. */
  function Flips(a: seq<Pipe>, b: seq<Pipe>): nat
    requires |a| == |b|
  {
    if a == [] then 0
    else Flips(a[..|a| - 1], b[..|b| - 1]) + (if !a[|a| - 1].passed && b[|b| - 1].passed then 1 else 0)
  }

  /** The scoring loop: a pipe gets its flag once its right edge is left of
      the bird, no flag is ever cleared, nothing else about a pipe changes, and
      the points gained are exactly the number of flags that went up. */
  method ScorePass(ps: seq<Pipe>) returns (marked: seq<Pipe>, gained: nat)
    ensures |marked| == |ps|
    ensures forall i :: 0 <= i < |ps| ==> marked[i].x == ps[i].x && marked[i].gapY == ps[i].gapY
    ensures forall i :: 0 <= i < |ps| ==>
      marked[i].passed == (ps[i].passed || ps[i].x + PipeWidth < BirdX)
    ensures gained == Flips(ps, marked)
    ensures marked == MarkPassed(ps)
  {
    marked := ps;
    gained := 0;
    var i := 0;
    while i < |ps|
      invariant 0 <= i <= |ps| == |marked|
      invariant forall j :: 0 <= j < i ==> marked[j] == Mark(ps[j])
      invariant forall j :: i <= j < |ps| ==> marked[j] == ps[j]
      invariant gained == Flips(ps[..i], marked[..i])
    {
      var p := marked[i];
      if !p.passed && p.x + PipeWidth < BirdX {
        marked := marked[i := p.(passed := true)];
        gained := gained + 1;
      }
      assert ps[..i + 1][..i] == ps[..i];
      assert marked[..i + 1][..i] == marked[..i];
      i := i + 1;
    }
    assert ps[..i] == ps && marked[..i] == marked;
    assert forall j :: 0 <= j < |ps| ==> MarkPassed(ps)[j] == Mark(ps[j]);
  }

  /** No pipe's flag flips between a stream and itself. */
  lemma {:induction false} FlipsOfSame(a: seq<Pipe>)
    ensures Flips(a, a) == 0
  {
    if a != [] { FlipsOfSame(a[..|a| - 1]); }
  }

  /** A second scoring pass without movement changes nothing and scores 0. */
  lemma SecondPassScoresNothing(ps: seq<Pipe>)
    ensures MarkPassed(MarkPassed(ps)) == MarkPassed(ps)
    ensures Flips(MarkPassed(ps), MarkPassed(MarkPassed(ps))) == 0
  {
    FlipsOfSame(MarkPassed(ps));
  }

  /** The score gained is at most the number of pipes in the stream. */
  lemma {:induction false} FlipsAtMostLength(a: seq<Pipe>, b: seq<Pipe>)
    requires |a| == |b|
    ensures Flips(a, b) <= |a|
  {
    if a != [] { FlipsAtMostLength(a[..|a| - 1], b[..|b| - 1]); }
  }

  // ---------------------------------------------------------------------------
  // Collision

  /** The bird's horizontal extent strictly overlaps the pipe's column. */
  predicate InX(p: Pipe)
  {
    BirdX + BirdRadius > p.x && BirdX - BirdRadius < p.x + PipeWidth
  }

  /** The bird's vertical extent lies strictly inside the pipe's gap. */
  predicate InY(y: real, p: Pipe)
  {
    y - BirdRadius > p.gapY - Gap / 2.0 && y + BirdRadius < p.gapY + Gap / 2.0
  }

  predicate PipeHit(y: real, p: Pipe) { InX(p) && !InY(y, p) }

  /** The bird touches the ceiling or the ground band (tangency does not count). */
  predicate OutOfBounds(y: real, height: real)
  {
    y - BirdRadius < 0.0 || y + BirdRadius > height - GroundBand
  }

  /** The run ends: the bird is out of bounds or hits some pipe. */
  predicate Ends(y: real, ps: seq<Pipe>, height: real)
  {
    OutOfBounds(y, height) || exists i :: 0 <= i < |ps| && PipeHit(y, ps[i])
  }

  /** The pipe collision loop: looks for a pipe the bird hits. */
  method FindHit(y: real, ps: seq<Pipe>) returns (hit: bool)
    ensures hit <==> exists i :: 0 <= i < |ps| && PipeHit(y, ps[i])
  {
    var i := 0;
    while i < |ps|
      invariant 0 <= i <= |ps|
      invariant forall j :: 0 <= j < i ==> !PipeHit(y, ps[j])
    {
      if PipeHit(y, ps[i]) {
        return true;
      }
      i := i + 1;
    }
    return false;
  }

  /** x lies strictly inside both the bird's horizontal span and the pipe's column. */
  predicate SharedColumnPoint(p: Pipe, x: real)
  {
    BirdX - BirdRadius < x < BirdX + BirdRadius && p.x < x < p.x + PipeWidth
  }

  /** InX means the open horizontal spans of bird and column share a point. */
  lemma InXIffColumnsMeet(p: Pipe)
    ensures InX(p) <==> exists x :: SharedColumnPoint(p, x)
  {
    if InX(p) {
      var lo := Max(BirdX - BirdRadius, p.x);
      var hi := Min(BirdX + BirdRadius, p.x + PipeWidth);
      assert SharedColumnPoint(p, (lo + hi) / 2.0);
    }
  }

  /** Height z is on the bird's closed vertical span and outside the pipe's open gap. */
  predicate TouchesSolid(y: real, p: Pipe, z: real)
  {
    y - BirdRadius <= z <= y + BirdRadius && (z <= p.gapY - Gap / 2.0 || z >= p.gapY + Gap / 2.0)
  }

  /** A hit means the bird's closed vertical span reaches the solid part of a
      pipe it overlaps horizontally: touching a gap edge is a hit. */
  lemma PipeHitIffTouchesSolid(y: real, p: Pipe)
    ensures PipeHit(y, p) <==> InX(p) && exists z :: TouchesSolid(y, p, z)
  {
    if PipeHit(y, p) {
      var z := if y - BirdRadius <= p.gapY - Gap / 2.0 then y - BirdRadius else y + BirdRadius;
      assert TouchesSolid(y, p, z);
    }
  }

  /** A bird exactly tangent to a gap edge of a pipe it overlaps ends the run. */
  lemma TangentToGapEdgeHits(y: real, p: Pipe, ps: seq<Pipe>, height: real)
    requires InX(p) && p in ps
    requires y - BirdRadius == p.gapY - Gap / 2.0 || y + BirdRadius == p.gapY + Gap / 2.0
    ensures Ends(y, ps, height)
  {
    var i :| 0 <= i < |ps| && ps[i] == p;
    assert PipeHit(y, ps[i]);
  }

  /** A bird exactly tangent to the ceiling or to the ground band, with no pipe
      in reach, keeps running. */
  lemma TangentToBoundsDoesNotEnd(y: real, height: real)
    requires y - BirdRadius == 0.0 || y + BirdRadius == height - GroundBand
    requires 2.0 * BirdRadius <= height - GroundBand
    ensures !Ends(y, [], height)
  {
  }
}
