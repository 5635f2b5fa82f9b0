# Flappy game simulation, modelled in Dafny

This project models the per-tick simulation of the flappy-style browser game
in `app/page.tsx`. The game keeps one mutable record: the bird's height and
vertical velocity, the pipe stream, the spawn timer, the centre of the last
pipe gap, the score, the best score, the parallax clouds, and the `running`
and `started` flags. The input handlers, the reset paths and the update step
change that record. Here the record is the class `Game.Game`, and each handler
is a method on it. Loops from the source are value-level methods proved
against specification functions: the pipe advance, the scoring pass, the
collision scan, the cloud drift, the overlap count, the bounded height
retry, the recycle pass and the cloud batch.

Modules follow the parts of the simulation:

- `Params` holds the game constants (gravity 1700, flap velocity -430, bird
  at x = 120 with radius 16, pipe width 70, gap 160, pipe speed 180, spawn
  every 1400 ms, frame cap 0.033 s). It also holds the random stream and
  the `Lerp` draw helper.
- `Geometry` holds the cloud outline (`getCloudBounds`) and the rectangle
  overlap test (`rectsOverlap`).
- `Physics` holds the bird's semi-implicit Euler step, the flap, the closed
  form of a free fall, and the frame-time cap.
- `Pipes` holds gap placement with its step and band clamps, advance, cull,
  pass scoring, and the collision predicates.
- `Clouds` holds the batch construction, drift, and re-placement by bounded
  rejection sampling.
- `Game` holds the state class, its handlers, `Update`, and `Frame`.

`Math.random()` is a stream `rand: nat -> real` with a cursor `k`. Every
method that draws returns the advanced cursor; its contract bounds how far
the cursor moves and names the draw, or for recycled cloud heights the range
of draws, each random value comes from. Properties that need draws in [0, 1) assume
`UnitDraws(rand)`. The playfield width and height are parameters, as is the
animation clock in `Frame`.

Some behaviours of the code worth knowing, all kept by the model:

- The restart key (`KeyR`) restarts whenever the game has been started, also
  in the middle of a run (`app/page.tsx:89-91`).
- The frame step is only capped from above (`app/page.tsx:76`). A negative
  clock difference passes through as a negative step.
- A flap sets the velocity at once, inside the input handler
  (`app/page.tsx:106-115`).
- The start button's own body (`startNewGame`, `app/page.tsx:443-455`)
  clears the run but neither re-seeds the gap walk nor rebuilds the clouds.
  The clouds are rebuilt afterwards by `resize` (`app/page.tsx:62`) when the
  effect re-runs on the changed flags; that re-run is not modelled (see
  "## Left out").

## Model

| member | source | states |
|---|---|---|
| Geometry.CloudBounds | app/page.tsx:406-413 | The outline is 68·scale wide and 46·scale tall; for a non-negative scale it is a proper rectangle containing the anchor point. |
| Geometry.RectsOverlap | app/page.tsx:415-417 | Defines the overlap test: the rectangles overlap unless one lies strictly left of, right of, above or below the other. |
| Geometry.RectsOverlapSymmetric | app/page.tsx:415-417 | The overlap test gives the same answer with its arguments swapped. |
| Geometry.RectsOverlapIffCommonPoint | app/page.tsx:415-417 | For proper rectangles the test holds exactly when the closed rectangles share a point, so touching edges count as overlap. |
| Physics.Integrate | app/page.tsx:174-175 | Defines one bird step: the velocity gains G·dt, then the height moves by the new velocity times dt; FallClosedForm characterises repeated steps. |
| Physics.Flapped | app/page.tsx:114 | The height is kept and the velocity becomes FLAP. |
| Physics.FlapForgetsVelocity | app/page.tsx:106-115 | A flap between two steps leaves a velocity of FLAP + G·dt whatever the velocity before it; the flap sets, it does not add. |
| Physics.FallClosedForm | app/page.tsx:174-175 | After n flap-free steps of length dt the velocity is v0 + n·G·dt and the height is y0 + n·v0·dt + G·dt²·n(n+1)/2 (the triangular number, see TriClosedForm). |
| Physics.TriClosedForm | app/page.tsx:174-175 | The triangular number used in the fall's closed form equals n(n+1)/2. |
| Physics.GroundReachedAfter | app/page.tsx:174-228 | From rest, the bird is in the ground band after n steps exactly when G·dt²·n(n+1)/2 exceeds its initial clearance to the ground line. |
| Physics.FrameDt | app/page.tsx:76 | The step never exceeds 0.033 s nor the elapsed time, and is one of the two; there is no lower clamp. |
| Pipes.DrawnGapY | app/page.tsx:132-135 | A draw in [0, 1) gives a centre inside the legal band [40 + GAP/2, height − 40 − GAP/2] whenever the band is non-empty. |
| Pipes.SpawnGapY | app/page.tsx:131-141 | The gap centre is at least the band minimum; at most the band maximum when the band is non-empty; within 180 of the previous centre when that one was in the band; and equal to the draw itself when the draw needs no clamping. |
| Pipes.GapWalkIsBounded | app/page.tsx:131-144 | Successive spawns from an in-band start stay in the band and move the centre by at most 180 each time. |
| Pipes.Advance | app/page.tsx:178 | Defines the advanced stream: each pipe's x drops by PIPE_SPEED·dt; AdvancePipes and AdvanceKeepsOrder state its properties. |
| Pipes.AdvancePipes | app/page.tsx:178 | Every pipe, in order, moves left by PIPE_SPEED·dt and keeps its gap and flag. |
| Pipes.AdvanceKeepsOrder | app/page.tsx:178 | Moving all pipes by the same distance keeps them in horizontal order. |
| Pipes.Cull | app/page.tsx:212 | The kept stream is no longer than before and every kept pipe has x > −PIPE_W − 10. |
| Pipes.CullMembership | app/page.tsx:212 | A pipe survives the cull exactly when it was in the stream and passes the test. |
| Pipes.CullAppend | app/page.tsx:212 | Culling a concatenation culls each part and keeps them in order, so survivors keep their relative order. |
| Pipes.CullKeepsOrder | app/page.tsx:212 | A stream in horizontal order is still in order after the cull. |
| Pipes.Mark | app/page.tsx:216-217 | Defines one pipe's scoring step: an unflagged pipe whose right edge is left of the bird gets its flag, any other pipe is unchanged. |
| Pipes.MarkPassed | app/page.tsx:215-224 | Defines the stream after the scoring pass, pipe by pipe; ScorePass and SecondPassScoresNothing state its properties. |
| Pipes.ScorePass | app/page.tsx:215-224 | A pipe's flag is set after the pass exactly when it was set before or its right edge is left of the bird; no flag is cleared; position and gap are unchanged; the points gained equal the number of flags that went up. |
| Pipes.SecondPassScoresNothing | app/page.tsx:215-224 | A second scoring pass without movement changes no pipe and scores 0. |
| Pipes.FlipsAtMostLength | app/page.tsx:215-224 | One pass gains at most as many points as there are pipes. |
| Pipes.InX | app/page.tsx:239 | Defines the strict horizontal overlap of bird and pipe column; InXIffColumnsMeet gives its meaning. |
| Pipes.InY | app/page.tsx:240-241 | Defines the bird lying strictly inside the gap. |
| Pipes.PipeHit | app/page.tsx:242 | Defines a hit as InX and not InY; PipeHitIffTouchesSolid gives its meaning. |
| Pipes.OutOfBounds | app/page.tsx:228 | Defines the strict ceiling and ground tests; TangentToBoundsDoesNotEnd covers the tangent case. |
| Pipes.Ends | app/page.tsx:227-251 | Defines the end of a run: out of bounds, or a hit on some pipe of the stream. |
| Pipes.FindHit | app/page.tsx:238-251 | The scan reports a hit exactly when some pipe overlaps the bird horizontally while the bird is not strictly inside its gap. |
| Pipes.InXIffColumnsMeet | app/page.tsx:239 | The horizontal test holds exactly when the open spans of bird and pipe column share a point. |
| Pipes.PipeHitIffTouchesSolid | app/page.tsx:239-242 | A hit is exactly a horizontal overlap together with some point of the bird's closed vertical span lying outside the open gap. |
| Pipes.TangentToGapEdgeHits | app/page.tsx:240-242 | A bird exactly tangent to a gap edge of a pipe it overlaps ends the run. |
| Pipes.TangentToBoundsDoesNotEnd | app/page.tsx:228 | A bird exactly tangent to the ceiling or to the ground line, with no pipes, does not end the run. |
| Clouds.CloudCount | app/page.tsx:149 | The count is at least 6 and at least ⌊width/120⌋, and equals one of the two. |
| Clouds.Offscreen | app/page.tsx:185 | Defines a cloud that has left: x < −160·scale. |
| Clouds.Drift | app/page.tsx:181-183 | Defines the drifted clouds: each x drops by the cloud's own speed·dt; AdvanceClouds states it element by element. |
| Clouds.SampleY | app/page.tsx:152-154 | A draw in [0, 1) gives a height in [40, max(40, height − 100 − 22·scale)]. |
| Clouds.NewCloud | app/page.tsx:151-156 | For draws in [0, 1): scale in [1.2, 4), height in the cloud band, speed in [12, 36), and x in [0, width]. |
| Clouds.BuildClouds | app/page.tsx:147-160 | The batch has max(6, ⌊width/120⌋) clouds; cloud i is made from draws k+4i to k+4i+3, the cursor advances by 4 per cloud, and for unit draws every cloud is in range. |
| Clouds.AdvanceClouds | app/page.tsx:181-183 | Every cloud moves left by its own speed·dt; height, scale and speed are unchanged. |
| Clouds.CountOverlaps | app/page.tsx:194-202 | The early-exit count equals the number of other clouds whose outline overlaps the box, capped at 2. |
| Clouds.ChooseCloudY | app/page.tsx:186-206 | At most 8 extra draws are used; the height comes from the last draw used; every earlier sample overlapped two or more other clouds; and the height is accepted unless all retries were spent. |
| Clouds.RecycleClouds | app/page.tsx:184-209 | Clouds still on screen are unchanged; an off-screen cloud moves to x = width + 40, keeps scale and speed, and gets a height sampled from a draw in the consumed range, in the band for unit draws; no draw is used when no cloud left. |
| Game.Game.constructor | app/page.tsx:18-27 | The initial record: empty stream and clouds, zero timer and score, no previous gap, best from storage, not started. |
| Game.Game.InitClouds | app/page.tsx:147-160 | The clouds become a fresh batch as BuildClouds describes, and nothing else changes. |
| Game.Game.Reset | app/page.tsx:117-129 | Score, stream, timer and velocity are cleared; the bird is at 0.45 or 0.5 of the height; the gap walk is re-seeded at mid-height; the clouds are rebuilt; the run starts only when asked, and only once the game has been started; best is kept. |
| Game.Game.StartNewGame | app/page.tsx:443-455 | The game is started and running with a cleared run, while the gap walk, clouds and best are kept. |
| Game.Game.Flap | app/page.tsx:106-115 | While running only the velocity changes, as Flapped says (to FLAP); after a finished run the game restarts as reset(true) does (score, stream, timer and velocity cleared, bird at 0.45 of the height, gap walk re-seeded at mid-height, clouds rebuilt from the next draws, best kept); before the first start nothing changes. |
| Game.Game.RestartKey | app/page.tsx:89-91 | Once started, the key restarts the run as reset(true) does, also mid-run, with the same post-state as Flap's restart; before the first start nothing changes. |
| Game.Game.SpawnPipe | app/page.tsx:131-145 | Exactly one pipe {width + 60, gap, not passed} is appended with the gap from SpawnGapY, and the previous centre becomes that gap. |
| Game.Game.EndRun | app/page.tsx:228-235 | The run stops, and best becomes the score only when the score beats it. |
| Game.Game.SpawnTimer | app/page.tsx:166-171 | The timer gains dt·1000; a pipe spawns exactly when it exceeds 1400, and the timer is then reset to 0. |
| Game.Game.Fall | app/page.tsx:174-175 | The bird takes one semi-implicit Euler step: velocity first, then position. |
| Game.Game.MovePipes | app/page.tsx:177-212 | The stream becomes the culled, advanced stream. |
| Game.Game.MoveClouds | app/page.tsx:180-209 | The clouds are drifted and then re-placed as RecycleClouds guarantees: on-screen clouds unchanged, a recycled cloud at width + 40 with its scale and speed and a height from one of the draws consumed, at most 9 draws per cloud, and none when no cloud left. |
| Game.Game.ScorePipes | app/page.tsx:214-224 | The stream gets its pass flags and the score grows by the number of new flags. |
| Game.Game.CheckCollisions | app/page.tsx:226-251 | The run keeps going exactly when it was running and the bird neither left the bounds nor hit a pipe; best is raised to the score only on an ending that beats it. |
| Game.Game.Stepped | app/page.tsx:162-224 | Defines one step of the world between two states: spawn timer and spawn, fall, advance and cull, drift and recycle, scoring with the score grown by the new flags. |
| Game.Game.MoveWorld | app/page.tsx:162-224 | Everything except the run flags moves as Stepped describes; at most one draw for a spawn and 9 per cloud are consumed, and each recycled height comes from one of the draws after the spawn's (SpawnDraws). |
| Game.Game.Update | app/page.tsx:162-252 | The world moves as Stepped describes; the run ends exactly when the new bird position leaves the bounds or hits a pipe; best changes only on such an ending, only to a higher score, so it never decreases; started is unchanged; the cursor bound and draw link of MoveWorld hold. |
| Game.Game.Frame | app/page.tsx:74-81 | The step is the capped frame time; a running game is updated as Update describes (world as in Stepped, the run ending exactly on a collision, best raised only then, cursor bound and draw link as in MoveWorld); a stopped one is left unchanged; started never changes, so an ending frame reaches Over; best never decreases. |
| Game.StreamStaysOrdered | app/page.tsx:166-224 | Spawning at the right edge, advancing with dt > 0, culling and scoring keep the stream in horizontal order, left of the spawn point. |

## Left out

- Rendering (`render`, `drawCloud`, `drawBowlerHat`, `drawRoundedRect`) and the JSX overlay: they only draw and change no state.
- Window and canvas sizing, the device-pixel ratio and the mobile check: width and height are parameters.
- Event listeners, `requestAnimationFrame` and `performance.now()`: `Frame` takes the two clock samples as parameters.
- `localStorage`: the stored best is the constructor's argument, and the write on a new best is not modelled; `best` is a plain field.
- `Math.random()`: modelled as a caller-supplied stream of draws; randomness itself is not modelled.
- IEEE floating point (rounding, NaN, infinities): numbers are mathematical reals.
- The React state plumbing. `setScore`'s asynchronous callback is modelled as an immediate increment of the one `score` field, so `running` and `started` are plain fields. The stale `running` captured by the loop closure is not modelled. Nor is the effect re-running on `[running, started]`, which rebuilds the clouds through `resize`.
- The `?? randomY` fallback for a missing previous centre is modelled in `SpawnGapY` (`last` is `None`), though after the initial reset the previous centre is always present.
- Clouds.RecycleClouds: does not say which draw each recycled cloud gets, nor that its height was accepted against the clouds as they stood at its turn; ChooseCloudY states both for a single cloud.
