# Umbrella runner: a Dafny model of the game's frame loop

The game is a browser side-scroller. A player runs in front of a parallax
background of 12 clouds, 6 buildings and 100 raindrops, and dodges a floating
umbrella. There are three screens: opening, playing and game over. Space or
the touch jump button starts a round from the opening screen. The same press
on the game-over screen goes back to the opening screen.

During a round, every frame (`update`) does the following, in this order:

1. It speeds the game up by 0.001.
2. It scrolls the clouds, lets the rain fall and scrolls the buildings. Each
   of them wraps around to the far side once it leaves the screen.
3. It moves the player left or right and makes it jump. Each step leaves one
   particle, and each jump leaves five.
4. It applies gravity and clamps the player to the ground.
5. It moves the umbrella. An umbrella that scrolls off the left edge comes
   back on the right and scores a point.
6. It ages the particles and drops the dead ones.
7. It ends the round on a strict overlap of the player's and the umbrella's
   boxes. `gameOver` keeps the better of the score and the high score, and
   stores the high score when the round beat it.

The model has four layers:

- **The entities, as values.** `Particles`, `Background` and `Actors` give
  one frame of each entity as a function of the frame before. `Geometry`
  holds the overlap test and `States` the screen rules.
- **A frame as a value.** `Frames` packs the page's globals into one record,
  `World`. `Frames.Frame` is `update` as a function on that record, built
  from one step function per section of the source.
- **The page, as a class.** `Game.Session` holds the page's globals as
  fields. It runs the key and click handlers, `startGame`, `gameOver`,
  `createParticle` and `update` as methods, with the source's loops.
  - Each method that makes up a handler or a section of `update` states its
    whole new state through `Snapshot()`, as the step function of that
    section applied to the old state. The exceptions are `GameOver`,
    `CreateParticle` and `Spray`, which state each field they change, and
    `MoveCloud`, `MoveDrop` and `MoveBuilding`, which return the moved entity.
  - `Valid()` is the invariant that holds between frames. It follows from
    `Frames.FrameKeepsSound` and `Frames.PressRules`.
- **The foreign calls, as parameters.**
  - `Math.random` is a stream of draws in [0, 1). The field `draws` counts
    the calls made so far. Every call the source makes advances that count in
    source order, including the draws that feed cosmetic fields the model
    drops.
  - `Math.sin` is a function bounded by [-1, 1].

Two behaviours of the code that are easy to get wrong. The model follows
the code:

- **Start height.** `startGame` puts the player at `height - 50`, ten units
  above the ground (`height - 40`), not on it (`Actors.StartPlayer`).
- **Ground contact.** The clamp fires only when the fall goes strictly past
  the ground. So a player standing on the ground does not keep velocity 0:
  its velocity alternates between 0.5 and 0 from frame to frame
  (`Actors.StandingPlayerAlternates`).

## Model

| member | source | states |
|---|---|---|
| Oracle.Scale | script.js:58-59 | `Math.random() * n` for a length n lies in [0, n] |
| Geometry.OverlapsIffCommonInteriorPoint | script.js:317-322 | the four-comparison test holds exactly when the two boxes share an interior point (both directions) |
| Geometry.OverlapsSymmetric | script.js:317-322 | the test does not depend on the order of the two boxes |
| Geometry.TouchingIsNotOverlapping | script.js:317-322 | boxes that only touch along an edge, or are further apart, do not collide |
| Particles.Spawn | script.js:146-155 | a new particle starts at (x, y), with horizontal velocity in [-2, 2), vertical velocity in (-3, 0], and life = maxLife = 30 |
| Particles.AllNewAppend | script.js:146-155 | two lists of new particles joined are still new |
| Particles.Survivors | script.js:308-314 | the filter never grows the list, and every particle it keeps has life left |
| Particles.KeptPositions | script.js:308-314 | the positions the filter keeps are increasing, in range, and exactly those of the particles whose life exceeds 1 |
| Particles.SurvivorsAreKept | script.js:308-314 | the survivors are exactly the kept particles, in their original order, each moved by its velocity, with vy + 0.1 and life − 1 |
| Particles.SurvivorsAppend | script.js:308-314 | the filter of a concatenation is the concatenation of the filters |
| Particles.NewParticlesSurvive | script.js:259-276 | particles created in a frame all survive that frame's filter, with life 29 |
| Particles.NewParticlesFollowSurvivors | script.js:259-276 | after the filter, the old survivors come first and unchanged, followed by every new particle, aged once, with life 29 |
| Background.NewCloud | script.js:57-64 | a new cloud lies in [0, w] × [0, h/2], 60–140 wide, 20–50 high, with speed 0.1–0.4 |
| Background.NewBuilding | script.js:72-79 | the i-th building stands at x = 80i, is 70 wide with speed 0.2, its top is between 120 and 170 above the bottom, and its height is between 120 and 170 |
| Background.NewRaindrop | script.js:106-112 | a new raindrop lies in [0, w] × [0, h], with speed 1–3 and length 5–13 |
| Background.NewClouds | script.js:54-66 | initClouds makes exactly n clouds |
| Background.NewCloudsPointwise | script.js:54-66 | the i-th cloud of initClouds is made from the six draws that start at 6i |
| Background.NewCloudsInPlay | script.js:54-66 | new clouds are in play: each has a size and is not off the left edge |
| Background.NewBuildings | script.js:69-81 | initBuildings makes exactly n buildings |
| Background.NewBuildingsPointwise | script.js:69-81 | the i-th building of initBuildings is the i-th building built from draws 2i and 2i+1 |
| Background.NewBuildingsInPlay | script.js:69-81 | new buildings are in play |
| Background.NewRain | script.js:103-114 | initRain makes exactly n raindrops |
| Background.NewRainPointwise | script.js:103-114 | the i-th raindrop of initRain is made from the five draws that start at 5i |
| Background.NewRainInPlay | script.js:103-114 | new raindrops are in play: between the side edges and not below the bottom |
| Background.ScrollCloud | script.js:225-231 | a cloud that wraps is put back at the right edge at a height in [0, h/2]; otherwise it scrolls left to x − speed × gameSpeed at the same height; either way it is not entirely off the left edge |
| Background.CloudWrapCount | script.js:225-231 | the cloud loop makes at most one draw per cloud |
| Background.ScrollClouds | script.js:225-231 | the cloud loop keeps the number of clouds; the content of each cloud is given by `ScrollCloudsPointwise` |
| Background.ScrollCloudsPointwise | script.js:225-231 | the i-th cloud after the loop is cloud i's own step, using the draw that follows those taken by the earlier clouds that wrapped |
| Background.ScrollCloudsKeepInPlay | script.js:225-231 | every cloud keeps x ≥ −width after a frame |
| Background.ScrollBuilding | script.js:251-256 | a building that wraps is put back at the right edge; otherwise it scrolls by speed × gameSpeed; only x changes |
| Background.ScrollBuildings | script.js:251-256 | the building loop keeps the number of buildings |
| Background.ScrollBuildingsPointwise | script.js:251-256 | each building's frame depends on that building alone |
| Background.ScrollBuildingsKeepInPlay | script.js:251-256 | every building keeps x ≥ −width after a frame |
| Background.FallDrop | script.js:234-248 | a raindrop that passes the bottom restarts at −length in a random column in [0, w); otherwise it falls by its speed and drifts 0.5 left, and is put back at x = w when that takes it past the left edge; the drop then lies between the side edges and not below the bottom |
| Background.RainWrapCount | script.js:234-248 | the rain loop makes at most one draw per raindrop |
| Background.FallRain | script.js:234-248 | the rain loop keeps the number of raindrops; the content of each raindrop is given by `FallRainPointwise` |
| Background.FallRainPointwise | script.js:234-248 | the i-th raindrop after the loop is raindrop i's own step, using the draw that follows those taken by the earlier raindrops that wrapped |
| Background.FallRainKeepsInPlay | script.js:234-248 | every raindrop keeps 0 ≤ x ≤ width and y ≤ height after a frame |
| Actors.StartPlayer | script.js:126-130 | the start position is ten units above the ground, with no velocity and no jump |
| Actors.Steer | script.js:259-276 | x moves by exactly one step left when left is held and x > 0, and then one step right when right is held and x < w − 40; the steps keep x above −5 and below the right bound plus a step; a jump happens exactly when jump is pressed and the player is not already jumping, and then sets vy = −12 |
| Actors.Fall | script.js:279-287 | after gravity and the clamp the player is never below the ground; when the clamp fires, vy = 0 and the jump is over; otherwise y moves by vy and vy grows by 0.5 |
| Actors.PlayerFrame | script.js:259-289 | after a frame the player is not below the ground, the animation phase grew by 0.2, and x stays above −5 |
| Actors.StandingPlayerAlternates | script.js:279-287 | a player standing still on the ground gets vy 0.5 the next frame and 0 the one after |
| Actors.LeftStepOvershoots | script.js:259-260 | a player within one step of the left edge ends that step at x < 0 |
| Actors.Burst | script.js:272-274 | a jump's burst has as many particles as asked for, all new |
| Actors.BurstAtFeet | script.js:272-274 | every particle of a burst starts at the player's feet, across its width |
| Actors.LeftSparks | script.js:259-262 | a step left leaves exactly one new particle, and none when there is no step |
| Actors.RightSparks | script.js:263-266 | a step right leaves exactly one new particle, and none when there is no step |
| Actors.JumpSparks | script.js:269-276 | a jump leaves exactly five new particles, and none when there is no jump |
| Actors.Trail | script.js:259-276 | the particles a frame's controls leave are all new, and there are one per step plus five per jump |
| Actors.TrailIsParts | script.js:259-276 | the trail is the left, right and jump parts in that order, each starting at the draw after the previous part, and the parts' draws add up to the trail's |
| Actors.TrailInParts | script.js:259-276 | appending the three parts one after another appends the trail |
| Actors.Hover | script.js:296-298 | the hover height is within 20 of 80 above the bottom |
| Actors.Drift | script.js:292-305 | the umbrella's phases advance by 0.1 and 0.05. On a wrap it reappears in [w, w + 200) at a height in [50, h − 100]. Otherwise it scrolls by 5 × gameSpeed and hovers |
| Actors.HoverForgetsOldHeight | script.js:298-304 | without a wrap, the height before a frame has no effect on the umbrella after it, so a respawn height lasts one frame |
| Actors.CollisionExamples | script.js:317-322 | a player at (50, 50) hits an umbrella at (60, 60); one at the origin misses one at (200, 200) |
| States.AfterPress | script.js:83-93 | a press makes at most one move, it is ignored exactly while playing, and it never ends a round |
| States.TwoPressesRestart | script.js:208-215 | from game over, one press gives the opening screen and a second starts a round |
| States.BestScore | script.js:136-143 | the new high score is the larger of the old one and the score |
| States.SavedExactlyWhenImproved | script.js:139-142 | the store is written exactly when the high score changes |
| Frames.LoadedSound | script.js:1-45 | the page loads in a state where the between-frames invariant holds |
| Frames.RestartRules | script.js:117-133 | startGame sets the screen to playing, score 0, speed 1 and no particles. It builds 12 clouds, 6 buildings and 100 raindrops from the next draws. It puts the player at (50, h − 50), still and not jumping, with phase 0, and the umbrella at x = w. Nothing else changes |
| Frames.RestartSound | script.js:117-133 | startGame establishes the between-frames invariant from any state |
| Frames.PressRules | script.js:83-93 | a press moves the screen as AfterPress says and keeps the invariant. Anything but a start changes only the screen |
| Frames.PlayerStepIsFrame | script.js:259-289 | the player's part of a frame moves the player as PlayerFrame says and consumes a touch jump. It appends the trail with its draws and changes nothing else |
| Frames.ForegroundFrameIsWhole | script.js:259-314 | the foreground of a frame as a whole. The particles are the survivors of the old ones plus the trail. The umbrella drifts from the draw after the trail's. A wrap scores one point and takes two draws. Nothing else changes |
| Frames.BackgroundKeepsSound | script.js:225-256 | the background loops keep the invariant |
| Frames.ForegroundKeepsSound | script.js:259-314 | the player, umbrella and particle sections keep the invariant during a round |
| Frames.EndOnHitKeepsSound | script.js:317-324 | the collision check keeps the invariant: an ended round has score ≤ high score |
| Frames.RoundKeepsSound | script.js:220-324 | a frame during a round keeps the invariant |
| Frames.FrameKeepsSound | script.js:219-325 | every update keeps the invariant |
| Frames.FrameRules | script.js:219-325 | outside a round update changes nothing. In a round: the speed grows by exactly 0.001; draws only advance; the high score never drops; the round ends exactly when the boxes overlap at the end of the frame |
| Frames.FrameScores | script.js:292-305 | the score grows by one exactly when the umbrella wraps, and it is then in [w, w + 200). A round that ends keeps the better score and stores it exactly when it improved. A round that goes on leaves the high score and its store alone |
| Frames.FrameParticles | script.js:259-314 | after a frame, the old survivors come first and unchanged, then one particle per step and five per jump, each with life 29 |
| Game.Session.constructor | script.js:1-45 | the page loads on the opening screen with the stored high score (0 if none), and initClouds, initBuildings and initRain build the background, as at script.js:564-566; the invariant holds |
| Game.Session.InitClouds | script.js:54-66 | the loop replaces the clouds with 12 new ones, taking 72 draws; nothing else changes |
| Game.Session.InitBuildings | script.js:69-81 | the loop replaces the buildings with 6 new ones, taking 12 draws; nothing else changes |
| Game.Session.InitRain | script.js:103-114 | the loop replaces the raindrops with 100 new ones, taking 500 draws; nothing else changes |
| Game.Session.InitBackground | script.js:122-124 | the three builders in order rebuild the whole background |
| Game.Session.ResetRound | script.js:118-121 | the screen, the score, the speed and the particles are reset; nothing else changes |
| Game.Session.ResetActors | script.js:126-132 | the player is back at its start, and the umbrella is at the right edge |
| Game.Session.StartGame | script.js:117-133 | startGame leaves the state Restart describes; see Frames.RestartRules |
| Game.Session.GameOver | script.js:136-143 | the screen becomes game over; the high score becomes the better of the two, and the score is stored exactly when it beat the high score |
| Game.Session.CreateParticle | script.js:146-155 | exactly one new particle is appended, built from the next two draws |
| Game.Session.KeyDown | script.js:83-93 | space does what a press does, any other key changes nothing, and the invariant is kept |
| Game.Session.JumpButtonClick | script.js:208-215 | a click does what a press does, and the invariant is kept |
| Game.Session.MoveCloud | script.js:226-230 | one cloud's step, which takes a draw exactly when it wraps |
| Game.Session.MoveDrop | script.js:235-247 | one raindrop's step, which takes a draw exactly when it passes the bottom |
| Game.Session.MoveBuilding | script.js:252-255 | one building's step |
| Game.Session.MoveClouds | script.js:225-231 | the cloud loop leaves the clouds that Frames.CloudsStep gives, and nothing else changes |
| Game.Session.MoveRain | script.js:234-248 | the rain loop leaves the raindrops that Frames.RainStep gives, and nothing else changes |
| Game.Session.MoveBuildings | script.js:251-256 | the building loop leaves the buildings that Frames.BuildingsStep gives, and nothing else changes |
| Game.Session.MoveLeft | script.js:259-262 | a guarded step left with its particle |
| Game.Session.MoveRight | script.js:263-266 | a guarded step right with its particle |
| Game.Session.Jump | script.js:269-276 | a guarded jump that consumes the touch jump and sprays its burst |
| Game.Session.Spray | script.js:272-274 | the loop appends the five burst particles and takes 15 draws |
| Game.Session.ApplyGravity | script.js:279-289 | gravity, the clamp and the animation phase |
| Game.Session.MovePlayer | script.js:258-289 | the player's part of a frame, on the controls as they stood when the frame began; see Frames.PlayerStepIsFrame |
| Game.Session.MoveObstacle | script.js:292-305 | the umbrella's part of a frame; see Frames.FrameScores |
| Game.Session.AgeParticles | script.js:308-314 | the filter loop leaves Survivors of the old particles; see Particles.SurvivorsAreKept |
| Game.Session.MoveBackground | script.js:224-256 | the three background loops in source order |
| Game.Session.MoveForeground | script.js:258-314 | the player, the umbrella and the particle filter in source order; see Frames.ForegroundFrameIsWhole |
| Game.Session.SpeedUp | script.js:222 | the speed grows by 0.001 |
| Game.Session.CheckCollision | script.js:317-324 | a strict overlap calls gameOver |
| Game.Session.PlayFrame | script.js:222-324 | a frame during a round, section by section |
| Game.Session.Update | script.js:219-325 | update leaves the state that Frames.Frame gives and keeps the invariant; Frames.FrameRules, FrameScores and FrameParticles state what that state is |

## Left out

- Rendering is left out: `draw`, `drawOpening`, `drawGame` and `drawGameOver`, together with the images, colours, gradients and opacity fields. `update` never reads them. The draws that feed opacities are still counted, so every later draw keeps its place in the stream.
- `resizeCanvas`, `isMobile` and the DOM wiring of the touch buttons are left out. The canvas size is fixed for a session. The touch buttons are the `touch` field. Their touchstart and touchend handlers are not modelled, apart from `update` clearing the jump button.
- The `keys` table and the keyup handler are left out. The arrow keys held during a frame are the `Controls` argument of `Update`. `KeyDown` models only the space handling of the keydown handler.
- `gameLoop` and `requestAnimationFrame` are left out. One call of `Update` is one frame.
- The high score's storage is reduced to two parts. The value read at load is the constructor's `Option<nat>` argument. Each write is an entry in the ghost log `saved`. The string coercion of the stored value is not modelled: JavaScript would compare the score with a string here.
- Floating-point rounding is left out. Coordinates and speeds are exact reals.
- `Math.random` and `Math.sin` are parameters. Each is a stream or function fixed for the session, which is how the model makes them foreign calls.
- Game.Session.MoveObstacle: it computes the umbrella's new record in a local and assigns it once, and makes both respawn draws together. This is equivalent to the source's field-by-field updates.
- Game.Session.InitClouds: it builds the list in a local before assigning it, and advances `draws` once after the loop. The same holds for InitBuildings and InitRain. The same clouds come from the same draws, but the list is not pushed onto the field one element at a time.
