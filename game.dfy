/** The game state and its per-tick simulation: one mutable record whose
    methods are the input handlers, the reset paths and the update step. */
module Game {
  import opened Params
  import opened Physics
  import opened Pipes
  import opened Clouds

  /** The run lifecycle as the overlay shows it. */
  datatype GamePhase = NotStarted | Playing | Over

  /** The stream is in horizontal order and every pipe is left of the spawn point. */
  ghost predicate StreamOrdered(ps: seq<Pipe>, width: real)
  {
    OrderedByX(ps) && forall i :: 0 <= i < |ps| ==> ps[i].x < width + SpawnOffset
  }

  /** The number of draws the spawn check takes: one when the timer, advanced
      by dt seconds, passes the spawn interval. */
  function SpawnDraws(time: real, dt: real): nat
  {
    if time + dt * 1000.0 > PipeSpawnMs then 1 else 0
  }

  class Game {
    var birdY: real
    var birdV: real
    var pipes: seq<Pipe>
    var time: real            // milliseconds since the last spawn
    var best: nat
    var lastGapY: Option<real>
    var score: nat
    var clouds: seq<Cloud>
    var running: bool
    var started: bool

    /** A run can only be in progress once the game has been started. */
    ghost predicate Valid()
      reads this
    {
      running ==> started
    }

    function Phase(): GamePhase
      reads this
    {
      if !started then NotStarted else if running then Playing else Over
    }

    /** The initial record, with the best score read from storage. */
    constructor (storedBest: nat)
      ensures Valid() && Phase() == NotStarted
      ensures birdY == 0.0 && birdV == 0.0 && pipes == [] && time == 0.0
      ensures lastGapY == None && score == 0 && clouds == [] && best == storedBest
    {
      birdY, birdV := 0.0, 0.0;
      pipes := [];
      time := 0.0;
      best := storedBest;
      lastGapY := None;
      score := 0;
      clouds := [];
      running, started := false, false;
    }

    /** Replaces the clouds by a fresh batch drawn from rand at k. */
    method InitClouds(width: real, height: real, rand: Random, k: nat) returns (next: nat)
      modifies this`clouds
      ensures |clouds| == CloudCount(width) && next == k + 4 * |clouds|
      ensures forall i :: 0 <= i < |clouds| ==> clouds[i] == NewCloud(width, height, rand, k + 4 * i)
      ensures UnitDraws(rand) ==> forall i :: 0 <= i < |clouds| ==> WellPlaced(clouds[i], height)
    {
      clouds, next := BuildClouds(width, height, rand, k);
    }

    /** Clears the run, re-centres the bird, re-seeds the gap walk at mid-height
        and rebuilds the clouds; starts running only when asked to. */
    method Reset(centerBird: bool, startRunning: bool, width: real, height: real, rand: Random, k: nat)
      returns (next: nat)
      requires Valid() && (startRunning ==> started)
      modifies this
      ensures Valid()
      ensures running == (old(running) || startRunning) && started == old(started) && best == old(best)
      ensures score == 0 && pipes == [] && time == 0.0 && birdV == 0.0
      ensures birdY == height * (if centerBird then 0.45 else 0.5)
      ensures lastGapY == Some(height * 0.5)
      ensures |clouds| == CloudCount(width) && next == k + 4 * |clouds|
      ensures forall i :: 0 <= i < |clouds| ==> clouds[i] == NewCloud(width, height, rand, k + 4 * i)
    {
      if startRunning { running := true; }
      score := 0;
      pipes := [];
      time := 0.0;
      birdV := 0.0;
      birdY := height * (if centerBird then 0.45 else 0.5);
      lastGapY := Some(height * 0.5);
      next := InitClouds(width, height, rand, k);
    }

    /** The start/restart button: begins a run without touching the clouds or
        the gap walk. */
    method StartNewGame(centerBird: bool, height: real)
      modifies this
      ensures Valid() && Phase() == Playing
      ensures score == 0 && pipes == [] && time == 0.0 && birdV == 0.0
      ensures birdY == height * (if centerBird then 0.45 else 0.5)
      ensures lastGapY == old(lastGapY) && clouds == old(clouds) && best == old(best)
    {
      started := true;
      score := 0;
      pipes := [];
      time := 0.0;
      birdV := 0.0;
      birdY := height * (if centerBird then 0.45 else 0.5);
      running := true;
    }

    /** The jump input: while running it sets the velocity to the flap value;
        after a finished run it restarts; before the first start it does nothing. */
    method Flap(width: real, height: real, rand: Random, k: nat) returns (next: nat)
      requires Valid()
      modifies this
      ensures Valid()
      ensures old(Phase()) == Playing ==>
        && Phase() == Playing && next == k
        && Body(birdY, birdV) == Flapped(Body(old(birdY), old(birdV)))
        && pipes == old(pipes) && time == old(time) && score == old(score)
        && best == old(best) && lastGapY == old(lastGapY) && clouds == old(clouds)
      ensures old(Phase()) == Over ==>
        && Phase() == Playing && best == old(best)
        && score == 0 && pipes == [] && time == 0.0 && birdV == 0.0 && birdY == height * 0.45
        && lastGapY == Some(height * 0.5)
        && |clouds| == CloudCount(width) && next == k + 4 * |clouds|
        && (forall i :: 0 <= i < |clouds| ==> clouds[i] == NewCloud(width, height, rand, k + 4 * i))
      ensures old(Phase()) == NotStarted ==> unchanged(this) && next == k
    {
      if !running {
        if started {
          next := Reset(true, true, width, height, rand, k);
        } else {
          next := k;
        }
        return;
      }
      birdV := FlapVelocity;
      next := k;
    }

    /** The restart key: restarts whenever the game has been started, also in
        the middle of a run. */
    method RestartKey(width: real, height: real, rand: Random, k: nat) returns (next: nat)
      requires Valid()
      modifies this
      ensures Valid()
      ensures old(started) ==>
        && Phase() == Playing && best == old(best)
        && score == 0 && pipes == [] && time == 0.0 && birdV == 0.0 && birdY == height * 0.45
        && lastGapY == Some(height * 0.5)
        && |clouds| == CloudCount(width) && next == k + 4 * |clouds|
        && (forall i :: 0 <= i < |clouds| ==> clouds[i] == NewCloud(width, height, rand, k + 4 * i))
      ensures !old(started) ==> unchanged(this) && next == k
    {
      if started {
        next := Reset(true, true, width, height, rand, k);
      } else {
        next := k;
      }
    }

    /** Appends one pipe just past the right edge, its gap placed by SpawnGapY. */
    method SpawnPipe(width: real, height: real, draw: real)
      modifies this`pipes, this`lastGapY
      ensures var g := SpawnGapY(draw, old(lastGapY), height);
        pipes == old(pipes) + [Pipe(width + SpawnOffset, g, false)] && lastGapY == Some(g)
    {
      var gapY := SpawnGapY(draw, lastGapY, height);
      lastGapY := Some(gapY);
      pipes := pipes + [Pipe(width + SpawnOffset, gapY, false)];
    }

    /** Ends the run, raising the best score when this run beat it. */
    method EndRun()
      modifies this`running, this`best
      ensures !running
      ensures best == if score > old(best) then score else old(best)
    {
      running := false;
      if score > best {
        best := score;
      }
    }

    /** What one update does to everything but the run state, between the
        state before the update and now: the spawn timer, the bird's fall, the
        pipe stream (spawn, advance, cull, score) and the clouds (drift,
        recycle). Random values are drawn from rand starting at k. */
    twostate predicate Stepped(dt: real, width: real, height: real, rand: Random, k: nat)
      reads this
    {
      var t := old(time) + dt * 1000.0;
      var spawned := t > PipeSpawnMs;
      var g := SpawnGapY(rand(k), old(lastGapY), height);
      var stream := if spawned then old(pipes) + [Pipe(width + SpawnOffset, g, false)] else old(pipes);
      var culled := Cull(Advance(stream, dt));
      var drifted := Drift(old(clouds), dt);
      // spawn timer
      && time == (if spawned then 0.0 else t)
      && lastGapY == (if spawned then Some(g) else old(lastGapY))
      // bird
      && Body(birdY, birdV) == Integrate(Body(old(birdY), old(birdV)), dt)
      // pipes
      && pipes == MarkPassed(culled)
      && score == old(score) + Flips(culled, pipes)
      // clouds
      && Recycled(drifted, clouds, width, height, rand)
    }

    /** One simulation step of dt seconds on a playfield of the given size:
        the world moves as Stepped says, then the collision test may end the
        run and raise the best score. */
    method Update(dt: real, width: real, height: real, rand: Random, k: nat) returns (next: nat)
      requires Valid()
      modifies this
      ensures Valid() && started == old(started)
      ensures k <= next <= k + 1 + (MaxAttempts + 1) * |old(clouds)|
      ensures |clouds| == |old(clouds)|
      ensures DrawnFrom(Drift(old(clouds), dt), clouds, height, rand, k + SpawnDraws(old(time), dt), next)
      ensures Stepped(dt, width, height, rand, k) && running == (old(running) && !Ends(birdY, pipes, height))
      ensures best == if Ends(birdY, pipes, height) && score > old(best) then score else old(best)
    {
      next := MoveWorld(dt, width, height, rand, k);
      CheckCollisions(height);
    }

    /** Everything an update does before the collision test. */
    method MoveWorld(dt: real, width: real, height: real, rand: Random, k: nat) returns (next: nat)
      modifies this`time, this`pipes, this`lastGapY, this`birdY, this`birdV, this`clouds, this`score
      ensures k <= next <= k + 1 + (MaxAttempts + 1) * |old(clouds)|
      ensures Stepped(dt, width, height, rand, k)
      ensures |clouds| == |old(clouds)|
      ensures DrawnFrom(Drift(old(clouds), dt), clouds, height, rand, k + SpawnDraws(old(time), dt), next)
    {
      var spawned := SpawnTimer(dt, width, height, rand(k));
      next := if spawned then k + 1 else k;
      Fall(dt);
      MovePipes(dt);
      ghost var culled := pipes;
      assert clouds == old(clouds);
      next := MoveClouds(dt, width, height, rand, next);
      ghost var placed := clouds;
      ScorePipes();
      assert clouds == placed;
      assert score == old(score) + Flips(culled, pipes);
    }

    /** Gravity acts on the velocity, then the velocity moves the bird. */
    method Fall(dt: real)
      modifies this`birdY, this`birdV
      ensures Body(birdY, birdV) == Integrate(Body(old(birdY), old(birdV)), dt)
    {
      birdV := birdV + Gravity * dt;
      birdY := birdY + birdV * dt;
    }

    /** The collision test: the ceiling and the ground first, then the pipes;
        any of them ends the run. */
    method CheckCollisions(height: real)
      modifies this`running, this`best
      ensures running ==> old(running)
      ensures running == (old(running) && !Ends(birdY, pipes, height))
      ensures best == if Ends(birdY, pipes, height) && score > old(best) then score else old(best)
    {
      var y := birdY;
      if OutOfBounds(y, height) {
        EndRun();
        return;
      }
      var hit := FindHit(y, pipes);
      if hit {
        EndRun();
        return;
      }
    }

    /** The spawn timer: accumulates dt in milliseconds and, once it exceeds
        the cadence, resets it and spawns a pipe with the given draw. */
    method SpawnTimer(dt: real, width: real, height: real, draw: real) returns (spawned: bool)
      modifies this`time, this`pipes, this`lastGapY
      ensures spawned == (old(time) + dt * 1000.0 > PipeSpawnMs)
      ensures time == if spawned then 0.0 else old(time) + dt * 1000.0
      ensures var g := SpawnGapY(draw, old(lastGapY), height);
        && pipes == (if spawned then old(pipes) + [Pipe(width + SpawnOffset, g, false)] else old(pipes))
        && lastGapY == (if spawned then Some(g) else old(lastGapY))
    {
      time := time + dt * 1000.0;
      spawned := time > PipeSpawnMs;
      if spawned {
        time := 0.0;
        SpawnPipe(width, height, draw);
      }
    }

    /** Moves every pipe left, then drops those that left the playfield. */
    method MovePipes(dt: real)
      modifies this`pipes
      ensures pipes == Cull(Advance(old(pipes), dt))
    {
      pipes := AdvancePipes(pipes, dt);
      pipes := Cull(pipes);
    }

    /** Flags the pipes the bird has passed and adds one point per new flag. */
    method ScorePipes()
      modifies this`pipes, this`score
      ensures pipes == MarkPassed(old(pipes)) && score == old(score) + Flips(old(pipes), pipes)
    {
      var marked, gained := ScorePass(pipes);
      pipes := marked;
      score := score + gained;
    }

    /** Drifts every cloud, then re-places those that left the playfield. */
    method MoveClouds(dt: real, width: real, height: real, rand: Random, k: nat) returns (next: nat)
      modifies this`clouds
      ensures k <= next <= k + (MaxAttempts + 1) * |old(clouds)|
      ensures Recycled(Drift(old(clouds), dt), clouds, width, height, rand)
      ensures DrawnFrom(Drift(old(clouds), dt), clouds, height, rand, k, next)
      ensures (forall i :: 0 <= i < |old(clouds)| ==> !Offscreen(Drift(old(clouds), dt)[i])) ==> next == k
    {
      var drifted := AdvanceClouds(clouds, dt);
      clouds, next := RecycleClouds(drifted, width, height, rand, k);
    }

    /** One animation frame: the elapsed time, capped at MaxDt, drives an
        update when a run is in progress. */
    method Frame(lastMs: real, nowMs: real, width: real, height: real, rand: Random, k: nat)
      returns (next: nat)
      requires Valid()
      modifies this
      ensures Valid() && best >= old(best) && started == old(started)
      ensures !old(running) ==> unchanged(this) && next == k
      ensures old(running) ==> Stepped(FrameDt(lastMs, nowMs), width, height, rand, k)
      ensures old(running) ==> running == !Ends(birdY, pipes, height)
      ensures old(running) ==> k <= next <= k + 1 + (MaxAttempts + 1) * |old(clouds)|
      ensures old(running) ==>
        && |clouds| == |old(clouds)|
        && DrawnFrom(Drift(old(clouds), FrameDt(lastMs, nowMs)), clouds, height, rand,
                     k + SpawnDraws(old(time), FrameDt(lastMs, nowMs)), next)
      ensures old(running) ==>
        best == if Ends(birdY, pipes, height) && score > old(best) then score else old(best)
    {
      var dt := FrameDt(lastMs, nowMs);
      if running {
        next := Update(dt, width, height, rand, k);
      } else {
        next := k;
      }
    }
  }

  /** Spawning at the right edge, moving everything left and culling keeps the
      stream in horizontal order, left of the spawn point. */
  lemma StreamStaysOrdered(before: seq<Pipe>, spawned: bool, g: real, dt: real, width: real)
    requires dt > 0.0 && StreamOrdered(before, width)
    ensures var stream := if spawned then before + [Pipe(width + SpawnOffset, g, false)] else before;
      StreamOrdered(MarkPassed(Cull(Advance(stream, dt))), width)
  {
    var stream := if spawned then before + [Pipe(width + SpawnOffset, g, false)] else before;
    if spawned { SpawnKeepsOrder(before, g, width); }
    var moved := Advance(stream, dt);
    AdvanceKeepsOrder(stream, dt);
    assert StreamOrdered(moved, width);
    var culled := Cull(moved);
    CullKeepsStreamOrdered(moved, width);
    MarkKeepsStreamOrdered(culled, width);
  }

  lemma SpawnKeepsOrder(before: seq<Pipe>, g: real, width: real)
    requires StreamOrdered(before, width)
    ensures var stream := before + [Pipe(width + SpawnOffset, g, false)];
      OrderedByX(stream) && forall i :: 0 <= i < |stream| ==> stream[i].x <= width + SpawnOffset
  {
  }

  lemma CullKeepsStreamOrdered(ps: seq<Pipe>, width: real)
    requires StreamOrdered(ps, width)
    ensures StreamOrdered(Cull(ps), width)
  {
    CullKeepsOrder(ps);
    var culled := Cull(ps);
    forall i | 0 <= i < |culled| ensures culled[i].x < width + SpawnOffset {
      CullMembership(ps, culled[i]);
    }
  }

  lemma MarkKeepsStreamOrdered(ps: seq<Pipe>, width: real)
    requires StreamOrdered(ps, width)
    ensures StreamOrdered(MarkPassed(ps), width)
  {
  }
}
