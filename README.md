# QuickTest: a model of the box-stacking sketch

QuickTest is a Processing sketch built on Box2D. Ten boxes of random size
fall into a 600 x 600 window. The player drags them with the mouse, on a
spring, to build a tower that reaches a red goal line. A level is won when
the goal line stays covered, with no box held, for more than 110
consecutive frames counted after frame 250.

Each win does the following:
- it raises the goal by 100 pixels and replaces all the boxes;
- after the goal line at 500, the goal wraps back to 200 and gravity turns
  upwards ("build downward");
- winning level 5 ends the sketch.

The sketch also ends when the frame count passes the time limit of 2000.

The model is in six modules:

- `Progression` (progression.dfy) is the pure bookkeeping that the sketch
  keeps in its fields: frame count, passing count, goal height, level, the
  sign of gravity and the exit request. `AfterReset`, `AfterDraw` and
  `FrameStep` give the effect of `reset`, `draw` and one framework frame on
  these fields. The lemmas about runs of frames prove the following:
  - the level and goal stay sane;
  - `passingCount` counts a streak of frames at the goal;
  - no level outlasts the time limit;
  - the goal and gravity follow their schedule.
- `Spawning` (spawning.dfy) models `createBoxes`' arithmetic on the
  `Math.random()` values it draws:
  - the do-while that resamples until both sides reach 20;
  - the width narrowed by `difficulty * 0.8` after that check;
  - the spawn position.
- `Physics` (physics.dfy) is the part of the Box2D world the sketch
  changes: which box bodies and mouse joints exist, and the vertical gravity.
  It also holds `Box`: its constructor, `killBody` and `done`.
- `Sketch` (sketch.dfy) holds the classes `Spring` and `QuickTest`. Their
  fields are updated in place, and their methods are proved to have exactly
  the effects that `Progression` describes. They also keep the box list and
  the world in step.
- `Optional` and `Screen` hold an option type and the window size.

Some things outside `QuickTest.java` become parameters:
- `Box.contains(x, y)` asks the physics engine, so each method that uses it
  takes a `PointTest` (a snapshot of the engine's answers);
- the body's pixel `y` read by `done` is a parameter `posY`;
- the random values are a parameter: one `Draw` for each box that
  `createBoxes` makes. A `Draw` holds the candidate `(h, w)` rolls of the
  do-while and the `(x, y)` roll, each a value in `[0, 1)`.

The framework increments `frameCount` before every `draw`, so the first
frame after `setup` or `reset` sees 1. `QuickTest.HandleDraw` and
`Progression.FrameStep` model one such frame. Processing's `exit()` only
ends the sketch after the current `draw` has finished, so it is modelled as
a flag, `exitRequested`.

Where the code differs from how the game is usually described, the model
follows the code:
- `reset(5)` still creates ten new boxes before it requests exit.
- `Spring.bind` overwrites `mouseJoint` without destroying the joint it held
  before. When several boxes lie under the mouse, `mousePressed` binds every
  one of them, so joints leak; the model counts them.
- The width is divided by `difficulty * 0.8` after the `>= 20` check, so
  boxes narrower than 20 pixels appear at every difficulty other than 1.

## Model

| member | source | states |
|---|---|---|
| Progression.AfterReset | Box2D-for-Processing/src/QuickTest.java:365-389 | counters become 0; level is kept; the goal moves one step round its four heights 200..500, and gravity turns to +40 exactly when it wraps; exit is requested iff it was already or the level passed in is 5 |
| Progression.AfterDraw | Box2D-for-Processing/src/QuickTest.java:86-106 | the level rises by at most one, and rises iff the frame is past 250 at the goal with passingCount already at 110; a frame not at the goal zeroes the count, and a frame at the goal adds one; exit iff it was requested, time ran out (frameCount > 2000), or level 5 was completed; a completing frame zeroes both counters, steps the goal round its four heights and turns gravity upwards exactly at the wrap, while any other frame keeps frameCount, goal and gravity |
| Progression.FrameStep | Box2D-for-Processing/src/QuickTest.java:67-106 | one frame (increment, then draw) keeps the state sane, and completes a level only once at least 361 frames have run in it |
| Progression.RunStaysSane | Box2D-for-Processing/src/QuickTest.java:67-106 | every state reached by frames from a sane state is sane: goal in 200..500 in steps of 100, gravity -40 or +40, counts consistent |
| Progression.RunMonotone | Box2D-for-Processing/src/QuickTest.java:86-106 | across frames the level never falls, an exit request is never withdrawn, and within a level frameCount counts the frames |
| Progression.StreakCounts | Box2D-for-Processing/src/QuickTest.java:98-101 | after a run that starts with passingCount 0, passingCount is the length of a streak of goal-test results ending at the last frame, all of them true |
| Progression.CompletionNeedsStreak | Box2D-for-Processing/src/QuickTest.java:98-106 | a frame completes a level only if it and the 110 frames before it all had the goal reached |
| Progression.TimeoutEndsLevel | Box2D-for-Processing/src/QuickTest.java:86-88 | once frameCount passes 2000, the level has been completed or the exit has been requested |
| Progression.CompleteStep | Box2D-for-Processing/src/QuickTest.java:102-105 | one completion (reset(level), then level++) keeps the state sane, adds one level, advances the goal one step and flips gravity at the wrap |
| Progression.CompletionLevels | Box2D-for-Processing/src/QuickTest.java:102-105 | n completions keep the state sane, add n levels, and request exit iff level 5 is among those completed |
| Progression.CompletionGoals | Box2D-for-Processing/src/QuickTest.java:371-384 | n completions move the goal n steps round its four heights; gravity turns to +40 once the goal wraps and otherwise keeps its direction |
| Progression.CompletionSchedule | Box2D-for-Processing/src/QuickTest.java:365-389 | after n completions: level + n, goal index (i + n) mod 4, gravity turned to +40 once the goal wraps and otherwise unchanged, exit iff level 5 was among those completed |
| Progression.RunOnSchedule | Box2D-for-Processing/src/QuickTest.java:67-106 | every state that frames from setup reach is sane, has its goal (level - 1) mod 4 steps above 200, has gravity upwards iff the level is 5 or more, and has exit requested past level 5 |
| Progression.FinalLevelUpsideDown | Box2D-for-Processing/src/QuickTest.java:380-387 | in every run of frames from setup, level 5 is played with the goal at 200 and gravity +40, and exit has been requested once level 5 is completed |
| Progression.BeatMessageUnreachable | Box2D-for-Processing/src/QuickTest.java:83-84 | no frame of a run from setup has goalHeight == height, so "You beat the game!" is never shown |
| Spawning.FirstFit | Box2D-for-Processing/src/QuickTest.java:395-398 | the index of the first candidate with neither side below 20; every earlier candidate is rejected; None iff all are rejected |
| Spawning.SampleSides | Box2D-for-Processing/src/QuickTest.java:395-398 | the do-while stops at the first accepted candidate, and its h and w lie in [20, 101) |
| Spawning.NarrowedUndone | Box2D-for-Processing/src/QuickTest.java:399 | narrowing is undone by multiplying back by difficulty * 0.8; it makes a positive width larger exactly at difficulty 1 |
| Spawning.NarrowKeepsMinimumOnlyAtOne | Box2D-for-Processing/src/QuickTest.java:395-399 | every accepted width stays at least 20 after narrowing iff difficulty is 1 |
| Spawning.Place | Box2D-for-Processing/src/QuickTest.java:400-401 | the spawn point has 0 <= x < 500 and 200 <= y < 500 |
| Spawning.SpawnInRange | Box2D-for-Processing/src/QuickTest.java:393-402 | every box createBoxes makes has h in [20, 101), a width in [20, 101) before narrowing, and a spawn point in that range |
| Physics.Box.constructor | Box2D-for-Processing/src/QuickTest.java:173-178 | records the size and position and adds exactly this box's body to the world |
| Physics.Box.KillBody | Box2D-for-Processing/src/QuickTest.java:181-186 | removes exactly this box's body, and the joints attached to it, from the world |
| Physics.Box.Done | Box2D-for-Processing/src/QuickTest.java:189-198 | answers true iff the body is below height + w * h, and exactly then removes the body and the joints attached to it; otherwise the world is unchanged |
| Physics.Joint.constructor | Box2D-for-Processing/src/QuickTest.java:300-322 | a mouse joint on the given box with the given target |
| Physics.World.constructor | Box2D-for-Processing/src/QuickTest.java:41-44 | an empty world with the given vertical gravity |
| Physics.World.AddBody | Box2D-for-Processing/src/QuickTest.java:177 | registers exactly one body |
| Physics.World.DestroyBody | Box2D-for-Processing/src/QuickTest.java:185 | removes the body and the joints attached to it; nothing else changes |
| Physics.World.CreateJoint | Box2D-for-Processing/src/QuickTest.java:322 | adds exactly one new joint, so the joint count grows by one |
| Physics.World.DestroyJoint | Box2D-for-Processing/src/QuickTest.java:328 | removes exactly that joint |
| Physics.World.SetGravity | Box2D-for-Processing/src/QuickTest.java:382 | sets the vertical gravity; bodies and joints are unchanged |
| Sketch.LastContaining | Box2D-for-Processing/src/QuickTest.java:338-343 | the last box in list order under the point, and None iff there is none: the box mousePressed leaves held |
| Sketch.CountContaining | Box2D-for-Processing/src/QuickTest.java:338-343 | how many boxes lie under the point (one bind each); zero iff LastContaining finds none |
| Sketch.ScanStep | Box2D-for-Processing/src/QuickTest.java:338-343 | scanning one more box makes it the last box under the mouse exactly when it lies under the mouse, and adds one to the count exactly then |
| Sketch.Spring.constructor | Box2D-for-Processing/src/QuickTest.java:266-269 | starts with no joint |
| Sketch.Spring.Update | Box2D-for-Processing/src/QuickTest.java:272-278 | moves the held joint's target to the mouse, and may change nothing when no joint is held |
| Sketch.Spring.Bind | Box2D-for-Processing/src/QuickTest.java:300-323 | holds a new joint on the box at the mouse; the joint held before stays in the world |
| Sketch.Spring.Destroy | Box2D-for-Processing/src/QuickTest.java:325-331 | no joint is held afterwards and the one held is gone from the world; with none held nothing changes, so destroying twice is harmless |
| Sketch.QuickTest.constructor | Box2D-for-Processing/src/QuickTest.java:36-65 | setup: the initial level state (frame 0, level 1, goal 200, gravity -40), no joint, and exactly the ten boxes made from the draws, all in a fresh world; the invariant Valid holds (the listed boxes are exactly the world's bodies, and a held joint is in the world on a listed box) |
| Sketch.QuickTest.MakeBox | Box2D-for-Processing/src/QuickTest.java:394-402 | one pass of createBoxes' loop: a fresh box built from its draw's spawn, and added to the world |
| Sketch.QuickTest.CreateBoxes | Box2D-for-Processing/src/QuickTest.java:391-404 | appends exactly ten fresh boxes, the i-th made from draws[i], and adds exactly their bodies to the world |
| Sketch.QuickTest.ClearBoxes | Box2D-for-Processing/src/QuickTest.java:372-377 | every box's body (with its joints) leaves the world, and the list ends empty |
| Sketch.QuickTest.Restock | Box2D-for-Processing/src/QuickTest.java:372-378 | the old boxes leave the world with their joints, and the list and the world's bodies become exactly ten fresh boxes made from the draws |
| Sketch.QuickTest.Reset | Box2D-for-Processing/src/QuickTest.java:365-389 | the fields change as AfterReset says; the old bodies are replaced by exactly ten fresh boxes made from the draws; joints on old boxes are gone; Valid holds again when no box is held, and a held joint is left dangling, out of the world |
| Sketch.QuickTest.ReachedGoal | Box2D-for-Processing/src/QuickTest.java:350-363 | answers GoalHeld: false whenever a box is held, otherwise true iff some pixel of the goal row lies in some box |
| Sketch.QuickTest.Draw | Box2D-for-Processing/src/QuickTest.java:67-106 | keeps Valid; the fields change as AfterDraw says with reachedGoal's answer; the held joint follows the mouse; boxes and world change only on a level change, which happens only with no box held, restocks the boxes, and removes the joints on the old boxes |
| Sketch.QuickTest.HandleDraw | Box2D-for-Processing/src/QuickTest.java:67-106 | one framework frame keeps Valid and changes the fields as FrameStep says, with the same effect on the spring, boxes and world as Draw |
| Sketch.QuickTest.Press | Box2D-for-Processing/src/QuickTest.java:339-342 | one pass of the loop extends the scan by one box: binds it iff it lies under the mouse, adds a fresh joint exactly then, and leaves the bodies alone |
| Sketch.QuickTest.Grab | Box2D-for-Processing/src/QuickTest.java:340-341 | the bind for a box under the mouse: a fresh held joint on it, added to the world, and the scan extended past it |
| Sketch.QuickTest.MousePressed | Box2D-for-Processing/src/QuickTest.java:336-344 | keeps Valid; with no box under the mouse nothing changes; otherwise a new joint holds the last such box at the mouse; exactly one new joint per box under the mouse, every such box gets one, and each new joint lies on such a box and targets the mouse |
| Sketch.QuickTest.MouseReleased | Box2D-for-Processing/src/QuickTest.java:346-348 | keeps Valid and lets go of the held box as Spring.destroy does |

## Left out

- Rendering (background, goal line, boxes, boundaries, the spring line and texts) is left out: it changes no state.
- `Boundary` and `createBoundaries` are left out. They only add static bodies, which the model does not track.
- The physics step, velocities, fixtures and point tests are left out. `Box.contains` is a `PointTest` parameter, and the body's pixel y for `done` is a parameter.
- The difficulty prompt and `parseInt` are left out: the difficulty is a parameter.
- Sketch.QuickTest.constructor: requires difficulty != 0. With difficulty 0, Java's float division gives an infinite width, which the model does not represent.
- Floating point is modelled as exact reals:
  - the cast `(float)(Math.random() * 100 + 1)` could round to 101.0f, but the model gives h < 101;
  - `(int)` casts on the non-negative spawn coordinates are `Floor`.
- Sketch.QuickTest.Draw: requires a full set of ten draws on every frame, even though they are only consumed when a level is completed.
- `Box.done` (QuickTest.java:189-198) is modelled, but nothing in the sketch calls it. The running sketch never prunes boxes that fell off screen, and neither does the model's `Draw`.
- Spawning.Drawable: assumes the do-while of `createBoxes` (QuickTest.java:395-398) ends within the tries supplied. The source could loop forever on an endless run of rejected candidates, although that has probability 0.
- Physics.World.DestroyBody: destroying a body twice is modelled as a no-op, whereas Box2D's behaviour there is undefined.
- The unused fields `levelOver` and `gameOver` are left out. So are `main` and the "Build downward!!" text.
- `timeLimit` is a constant (2000), because nothing changes it after `setup`.
