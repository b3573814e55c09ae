# 3D guess game: round bookkeeping, throttle, score and sounds

This project models the core of a browser mini-game. A ball is shot at a wall of boxes held together by springs. When the wall is hit, a hidden grid of coloured spheres drops into the physics world, and the player's colour guess is scored. The model covers:

- **Layout**: the brick layout of `createWall`, which both revisions of the scene share, and the 5 x 6 x 3 sphere grid of `fillSpheres`. Both are pure functions (`Layout`).
- **Springs**: the all-pairs spring enumeration of `createSpringConstraints` (`Springs`).
- **Scene**: the final scene of `src/scripts/script.js`, as a class whose fields are the script's module-level collections (`Scene.Scene`):
  - `boxesData`, the bodies created so far, and the set of bodies in the world;
  - the box and sphere lists, and the spring list with its `postStep` hook;
  - the shot balls' collide handlers, the sound listeners, `sphereShotBall` and `randomColor`.
- **Early scene**: the earlier single-file revision `src/script.js` (`EarlyScene.Scene`).
- **Score**: the score keeper `Game` of `Game.js` (`GameScore`).
- **Throttle**: the `throttle` closure of `utils.js`, as a state machine whose timer is an explicit event (`Throttle`).
- **Sounds**: the collision-sound rules of `Sounds.js`, as pure decisions plus the mute switch and the audio state (`Sounds`).

Physics bodies are opaque identities: cannon-es numbers bodies in creation order, so `bodies[id]` holds the mass, shape and position body `id` was created with. The floor is body 0. Positions are `real`, so the constants 0.5, 0.05, 0.1 and 0.15 are exact.

Behaviour of the code that the model keeps, although it may look unintended:

- A wall's height ignores the anchor's `y`. The earlier revision anchors its walls at 0.5 but stacks them from 0.45, because of its extra `+ 0.2`.
- `removeSpringConstraints` unhooks `applySpringForce` once per spring. So with an empty list the hook stays.
- `resetScene` does not clear the spring list. A round started before the wall was hit keeps the old springs, which still name the removed boxes. `Scene.Scene.StartRound` states this: the list grows by the new pairs.
- `resetScene` leaves `sphereShotBall` and the collide handlers of earlier shot balls as they are.
- The reveal adds every tracked sphere to the world, shot balls included. The world is a set, so a shot ball already in it is unaffected.
- Sound throttling has no effect at the call sites. `throttle(playSound(event), 30)` calls `playSound` at once. `playSound` also never forwards `isShotBall`, so the shot ball only sounds against the floor, with the ordinary sound.

## Model

| member | source | states |
|---|---|---|
| Layout.Cell | src/scripts/script.js:164-172 | x is `0.5 * j + p.x`, shifted by -0.1 on even rows; z is `p.z + 0.05` exactly when row and column have the same parity, else `p.z` |
| Layout.WallLayoutLength | src/scripts/script.js:160-176 | a `rows x cols` wall has exactly `rows * cols` cells |
| Layout.WallLayoutIndex | src/scripts/script.js:162-173 | the cells are pushed in row-major order: cell `(i, k)` is at index `i * cols + k` |
| Layout.WallLayoutAt | src/scripts/script.js:160-176 | cell `(i, k)` sits at column offset `j = k - (cols - 1) / 2`, so offsets run from `-(cols-1)/2` to `(cols-1)/2`; x is `0.5 * j + p.x`, minus 0.1 on even rows; y is `0.25 + lift + 0.5 * i`; z is nudged by 0.05 exactly on equal parity |
| Layout.WallLayoutIgnoresAnchorHeight | src/scripts/script.js:172 | two anchors that differ only in height give the same wall |
| Layout.WallsSize | src/scripts/script.js:306-315 | the six walls hold exactly the 56 cells `createBoxes(56)` asks for, whatever height they are anchored at |
| Layout.WallLayoutRaised | src/script.js:117 | a wall built with the extra height `lift` is the final revision's wall with every cell moved up by `lift` |
| Layout.WallsRaised | src/script.js:185-190 | the earlier revision's six walls are the final revision's six walls, each cell 0.2 higher; the x and z rules are the same |
| Layout.SphereCellInGrid | src/scripts/script.js:435-440 | index `i < 90` maps to cell `(i mod 5, (i mod 30) div 5, i div 30)`, which lies in the 5 x 6 x 3 grid and gives `i` back |
| Layout.SphereIndexInGrid | src/scripts/script.js:425-440 | every grid cell is reached by exactly one index below 90, so the index-to-cell map is a bijection |
| Layout.SpherePosition | src/scripts/script.js:436-442 | sphere `i` starts at `(-0.6 + 0.3a, 0.15 + 0.3b, -1.05 + 0.3c)` for its cell `(a, b, c)` |
| Layout.SpherePositionsDistinct | src/scripts/script.js:435-444 | no two of the 90 spheres start at the same position |
| Springs.AllPairsCount | src/scripts/script.js:387-400 | `n` boxes get exactly `n * (n - 1) / 2` springs |
| Springs.AllPairsComplete | src/scripts/script.js:387-400 | every pair of boxes `i < j` gets a spring |
| Springs.AllPairsSound | src/scripts/script.js:387-400 | every spring binds some pair of boxes `i < j`, in that order |
| Springs.WallSpringCount | src/scripts/script.js:306-317 | the 56 wall boxes get 1540 springs |
| Scene.Scene.constructor | src/scripts/script.js:96-99 | at load the world holds only the floor; nothing is laid out, tracked or hooked |
| Scene.Scene.CreateWall | src/scripts/script.js:160-176 | `boxesData` grows by exactly the wall's layout, in row-major order |
| Scene.Scene.CreateBoxes | src/scripts/script.js:182-208 | makes `min(count, cells)` boxes from the first cells in order, stopping early when cells run out; each is a mass-1 box with half extents 0.25 at its cell, added to the world and tracked |
| Scene.Scene.AddBox | src/scripts/script.js:190-206 | one loop turn: the box of cell `i` gets the next id, joins the world and the tracked boxes, and the ids stay consistent |
| Scene.Scene.CreateSphere | src/scripts/script.js:214-236 | the sphere is created and tracked but not added to the world; it listens for sounds exactly when `i % 5 == 0` |
| Scene.Scene.FillSpheres | src/scripts/script.js:424-445 | 90 fresh spheres of radius 0.15 and mass 0.1 at their grid positions, tracked and none in the world; every fifth listens for sounds; `randomColor` is 0 |
| Scene.Scene.AddGridSphere | src/scripts/script.js:435-444 | one loop turn: sphere `i` of the grid is created at its grid position and tracked, with the sound listener when `i % 5 == 0` |
| Scene.Scene.CreateShotBall | src/scripts/script.js:249-297 | a fresh mass-50 ball of radius 0.7 at `(x, 0.9, 5)` becomes `sphereShotBall`; it gets the ball sound listener and a collide handler, is added to the world and is tracked |
| Scene.Scene.AddSpheresToWorld | src/scripts/script.js:300-304 | afterwards the world is the old world plus every tracked sphere |
| Scene.Scene.CreateSpringConstraints | src/scripts/script.js:383-402 | appends one spring per pair `i < j` of tracked boxes to the existing list, then hooks `applySpringForce` |
| Scene.Scene.ApplySpringForce | src/scripts/script.js:405-409 | applies every spring in the list, in order |
| Scene.Scene.PostStep | src/scripts/script.js:401 | a world step applies the springs exactly when `applySpringForce` is hooked |
| Scene.Scene.RemoveSpringConstraints | src/scripts/script.js:412-418 | always leaves the list empty; unhooks only when the list was non-empty, so it is safe on an empty list |
| Scene.Scene.CollideHandler | src/scripts/script.js:275-287 | while the ball's handler is registered and the contact body is a tracked box: the handler removes itself, the springs are cleared, every tracked sphere joins the world, and `checkAnswer(randomColor)` scores and schedules one guesser show; the layout, the tracked lists, the sound listeners, the shot ball and the pick are untouched. Any other contact, or a repeated event after the handler is gone, changes nothing |
| Scene.Scene.CreateWallsFromBoxes | src/scripts/script.js:306-318 | lays out another 56 cells; the 56 new boxes stand on the six walls (the first 56 cells, always the walls); they are added to the world and all pairs are sprung |
| Scene.Scene.ResetScene | src/scripts/script.js:511-532 | every tracked box and sphere leaves the world and loses its sound listeners; both lists are emptied; `boxesData`, the springs and the collide handlers are unchanged |
| Scene.Scene.RemoveBodies | src/scripts/script.js:512-529 | either loop: every body of the list leaves the world and loses both sound listeners, and nothing else is removed |
| Scene.Scene.StartRound | src/scripts/script.js:24-29 | a new round: old tracked bodies leave the world and lose their sound listeners; 56 new boxes on the six walls join it; 90 hidden spheres are tracked but not in the world, every fifth with the sound listener; `boxesData` grows by 56 while its first 56 cells stay the walls; springs for all new pairs are appended to the old ones; the collide handlers and the shot ball stay |
| Scene.Scene.SelectColor | src/scripts/Game.js:41-47 | a colour click records the pick, hides the guesser, leaves the score and the scheduled shows alone, and starts a new round with everything `StartRound` promises |
| Scene.Scene.CollisionSound | src/scripts/script.js:366-375 | a body with a sound listener decides with `isShotBall` false: a sound plays only for a floor contact above strength 1.5, and it is sound 0 |
| EarlyScene.Scene.constructor | src/script.js:182-230 | after page load the world holds the plane floor and the 56 wall boxes; 1540 listeners bind every pair of boxes |
| EarlyScene.Scene.CreateWall | src/script.js:105-121 | `boxesData` grows by the wall's layout with extra height 0.2, so y is `0.45 + 0.5 * i` |
| EarlyScene.Scene.CreateBoxes | src/script.js:127-153 | makes `min(count, cells)` mass-1 boxes from the first cells, each added to the world and to `updateObjects` |
| EarlyScene.Scene.CreateSphere | src/script.js:160-180 | a radius-1, mass-1000 sphere is added to the world at once and tracked |
| EarlyScene.Scene.CreateSpringConstraints | src/script.js:197-217 | one `postStep` listener per pair `i < j` of tracked objects, appended to those already registered |
| EarlyScene.Scene.CreateWallsFromBoxes | src/script.js:182-219 | six walls anchored at height 0.5; 56 boxes on their cells; listeners for all pairs |
| EarlyScene.Scene.PostStep | src/script.js:212-214 | a world step runs every registered listener, in order; none is ever removed |
| GameScore.StreakIsTrailingRun | src/scripts/Game.js:59-79 | the score is never negative and equals the number of consecutive correct answers since the last miss |
| GameScore.Game.constructor | src/scripts/Game.js:25-26 | a new game has score 0 and no colour selected |
| GameScore.Game.ClickColor | src/scripts/Game.js:41-47 | clicking colour `index` selects it and hides the guesser; the score is unchanged |
| GameScore.Game.CheckAnswer | src/scripts/Game.js:59-69 | the score becomes old + 1 when the colour is the selected one, and 0 otherwise, including when nothing is selected; the score stays the current streak; one guesser show is scheduled |
| GameScore.Game.IncreaseScore | src/scripts/Game.js:71-74 | the score goes up by exactly one |
| GameScore.Game.ResetScore | src/scripts/Game.js:76-79 | the score becomes 0 |
| GameScore.Game.ShowGuesserElapsed | src/scripts/Game.js:66-68 | the scheduled callback shows the guesser again |
| GameScore.InitGame | src/scripts/Game.js:88-92 | `null` exactly when there is no `.js-game` wrapper; otherwise a fresh game with score 0, no selection, no answers and no guesser show scheduled |
| Throttle.Throttled.constructor | src/scripts/utils.js:5-8 | a new throttle is idle, with nothing saved and nothing called |
| Throttle.Throttled.Call | src/scripts/utils.js:10-19 | from idle, `func` runs once with these arguments and the throttle turns busy; while busy, `func` does not run and only the latest arguments are kept; busy exactly while a timer is pending, and `func` never runs more often than the wrapper is called |
| Throttle.Throttled.TimerFires | src/scripts/utils.js:21-27 | with nothing saved, the throttle goes idle without calling `func`; otherwise `func` runs once with the latest saved arguments, a new timer starts and the saved call is dropped |
| Sounds.CalculateVolume | src/scripts/Sounds.js:62-72 | full volume above 7, 0.8 of it in (3, 5), 0.2 of it below 3, full at 3 and in [5, 7]; always one of these three, and between 0 and the start volume for a non-negative start volume |
| Sounds.ShouldPlaySound | src/scripts/Sounds.js:74-76 | never plays at strength 1.5 or below; plays exactly above 1.5 when it is the shot ball or a floor contact |
| Sounds.HitSound | src/scripts/Sounds.js:34-60 | an ordinary collision is heard only against the floor above strength 1.5, with sound 0 from volume 0.3; a shot-ball collision only against another even-id body (the test of `checkIsShotBallCollideWithBalls`) above 1.5, with sound 1 from volume 1 |
| Sounds.SoundBoard.constructor | src/scripts/Sounds.js:4-26 | at module load sound is not muted, the switch is as the page renders it, both sounds are at the `Audio` default volume 1.0 and nothing has played |
| Sounds.SoundBoard.ToggleSwitch | src/scripts/Sounds.js:16-19 | a click flips the switch and sound is muted exactly when the switch is not active |
| Sounds.SoundBoard.PlaySound | src/scripts/Sounds.js:78-82 | the sound is played at the given volume, or at volume 0 when muted |
| Sounds.SoundBoard.PlayHitSound | src/scripts/Sounds.js:34-60 | plays exactly the sound and volume `HitSound` decides, or nothing |

## Left out

- Rendering with three.js is not modelled: meshes, materials, camera, controls, renderer, lights, textures, resize handling, the debugger and stats.
- The physics engine's internals are not modelled: `world.step`, contact resolution, `Spring.applyForce`, the shot's `applyLocalForce` and the impact velocity. A world step is modelled only as which springs have their force applied, and the impact strength is a parameter.
- The spring stiffness and damping constants are not modelled. A spring is the pair of bodies it binds.
- The per-frame `tick` loop (src/scripts/script.js:541-571) is not modelled. It only copies opaque transforms onto meshes, forever.
- Audio playback (`play()`, `currentTime`), the DOM class changes other than the flags above, and `updateScoreEl` are not modelled.
- The mouse-to-world mapping and the `.lil-gui` guard of `createShotBall` are not modelled. The ball's x position is a parameter.
- `Math.random`: the earlier revision's `fillSpheres` (src/script.js:221-228) is never called and places its sphere at random, so only its `createSphere` is modelled. The final revision fixes `randomColor` at 0, as modelled.
- `setTimeout` delays are not modelled as time. The game's 1-second callback is a counter of pending shows, and the throttle's timer is the `TimerFires` event.
- `savedThis` is folded into the throttle's saved call: `T` stands for a receiver with its arguments.
- The copy of `throttle` in src/scripts/script.js:331-357 is not modelled separately. It is the same code as utils.js, and the scene never wraps a function with it.
- Scene.Scene.CollisionSound: the throttle wrappers at src/scripts/script.js:370-375 are modelled as the immediate `playSound` call they make, not as a throttle.
- Layout.WallLayoutAt: `createWall` takes any numbers; the model takes whole `rows` and `cols` (the callers pass 4, 5 and 1).
- Event listeners are a set of registrations per kind (the world's `postStep` hook, per-body collide and sound listeners), not a list of closures.
