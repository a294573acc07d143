# Bike escape from the avalanche: a Dafny model of the game's per-frame core

The game is a LibGDX side-scroller. A cyclist rides away from an avalanche that fills
the left edge of the screen. The player accelerates, brakes and steers up and down
inside a horizontal track. Obstacles come toward the player and cost a life and
points on contact. Obstacles that are dodged score points, and enough points complete
the level. A hit opens an invincibility window. The game is over when no life is left.

This project models the class that runs one frame of the game, `GameWorld`, in both
of its versions in the repository:

- **`ThreeLevelWorld`** models `ProjetoJogo/GameWorld.java`, with three levels (snow,
  cave, lava). The log is present on level 1 only. Rocks and zig-zagging props appear
  on levels 2 and 3. The target is 40 points on levels 1 and 2. Invincibility lasts
  2 seconds.
- **`TwoLevelWorld`** models `ProjetoJogo/core/src/main/java/br/jogobike/GameWorld.java`,
  with two levels. The log is present on both levels. Rocks appear on level 2 only and
  score nothing. The target is 100 points on level 1. Invincibility lasts 1.5 seconds.

The other modules hold what the two versions share:

- **`Log`** models the log obstacle `BotLog`. Both copies in the repository have the
  same logic, so it is modelled once, as a class with the source's fields.
- **`Physics`** holds the screen and player geometry, the difficulty scalar, the input
  rules for horizontal and vertical speed, and the two kinds of damage.
- **`Hazards`** holds the obstacle loop that both `updateRocks` and
  `updateZigZagProps` run, generic over the kind of obstacle.
- **`Particles`** holds the visual-effect particles (`PlayerDashLine`, `WindLine`,
  `SnowEffect`) and the backward update-and-remove loop. The inner classes are the
  same in both versions; the table cites the three-level copy.
- **`ZigZag`** models the standalone `ProjetoJogo/ZigZagProp.java`. It falls down the
  screen and sways sideways. It differs from the inner `ZigZagProp` of the
  three-level world, which flies right and bobs vertically; that one is modelled in
  `ThreeLevelWorld`.
- **`Geometry`** holds the rectangle and its overlap test. **`Random`** holds the
  random draws.

Model conventions:

- Every world and every log is a class whose methods update its fields, as in the
  source.
- Obstacles and particles are values in `seq` fields, which the methods reassign.
- Java floats are Dafny reals.
- All random draws come from one injected stream of values in [0, 1), consumed in
  order: `java.util.Random.nextFloat`, `Math.random` and `MathUtils.random`.
  `Random.Source.drawn` counts the draws. Every method that draws states which draws it
  consumes, up to a world's `UpdateRocks`, `UpdateZigZagProps`, `UpdateLog`,
  `CheckLogCollision`, `UpdateAvalanche` and `UpdateWindEffect`. The frame-level
  methods that combine them do not (see "Left out").
- `Math.sin` and `MathUtils.sin` are a parameter. All the model knows of it is that
  it vanishes at zero and stays in [-1, 1].
- `Gdx.graphics.getDeltaTime()` in the input handler is the parameter `dt`.

Two behaviours of the code differ from a plain reading of its comments and design,
and the model follows the code:

- Without input, the drift is subtracted from the horizontal speed whatever its
  sign, so a standing or backward-moving player keeps speeding up backwards.
  `Physics.IdleDriftUnbounded` shows that a non-positive speed loses
  100 × difficulty × dt every idle frame, with no lower bound.
- The half-rate friction is applied after every branch, including while
  accelerating or braking.

## Model

| member | source | states |
|---|---|---|
| Geometry.Clamp | ProjetoJogo/GameWorld.java:205-210 | MathUtils.clamp: the result lies in a non-empty range, equals a value already inside it, the lower end for a value below it and the upper end for a value above a non-empty range |
| Random.Between | ProjetoJogo/BotLog.java:110-116 | MathUtils.random(lo, hi) lies in [lo, hi], strictly below a larger hi, and is lo on an empty range |
| Random.Source.constructor | ProjetoJogo/GameWorld.java:117-121 | a new source replays the given stream from its first value |
| Random.Source.NextFloat | ProjetoJogo/GameWorld.java:280-283 | nextFloat returns the next stream value, in [0, 1), and consumes exactly one draw |
| Random.Source.Range | ProjetoJogo/BotLog.java:110-116 | MathUtils.random(lo, hi) from one draw, inside the range when the range is non-empty |
| Random.Source.NextBoolean | ProjetoJogo/GameWorld.java:576-577 | nextBoolean consumes one draw and is true on the lower half of [0, 1) |
| Physics.PlayerRectAt | ProjetoJogo/GameWorld.java:376-381 | the player's 40×40 collision box lies strictly inside the 70×90 sprite |
| Physics.Difficulty | ProjetoJogo/GameWorld.java:326-334 | for a non-negative score the difficulty lies in [1, 2.5]; it is 1 at score 0 and capped at 2.5 from score 3000 |
| Physics.DifficultyMonotone | ProjetoJogo/GameWorld.java:326-334 | a higher score never gives a lower difficulty |
| Physics.Friction | ProjetoJogo/GameWorld.java:356-360 | friction pulls a speed toward zero without crossing it: the magnitude shrinks by the amount, or the speed stops at 0 |
| Physics.SteerX | ProjetoJogo/GameWorld.java:338-354 | accelerating caps the speed at maxSpeed and, below the cap, never slows it; braking alone floors it at -maxSpeed/2 and, above the floor, never speeds it up; with neither key the drift takes exactly driftSpeed·dt off |
| Physics.SpeedXAfterInput | ProjetoJogo/GameWorld.java:338-360 | accelerating never exceeds maxSpeed, braking alone never goes below -maxSpeed/2, and friction never flips the sign of the steered speed |
| Physics.SpeedYAfterInput | ProjetoJogo/GameWorld.java:363-373 | up sets +0.7·maxSpeed, down alone sets -0.7·maxSpeed, and without input friction decays the speed toward 0 without crossing it |
| Physics.IdleDriftUnbounded | ProjetoJogo/GameWorld.java:352-360 | after n idle frames from a non-positive speed, the speed has dropped by n times 100·difficulty·dt, so it has no lower bound |
| Physics.RepeatedIsProduct | ProjetoJogo/GameWorld.java:352-360 | the idle loss summed over n frames is n times the per-frame loss |
| Physics.IdleFrame | ProjetoJogo/GameWorld.java:352-360 | one idle frame from a non-positive speed subtracts the drift 190·d·dt and adds back half-rate friction 90·d·dt |
| Physics.Parallax | ProjetoJogo/GameWorld.java:440-448 | the offset moves by the scroll and wraps by one screen width once past -800; an offset in [-800, 0] stays there when one frame scrolls at most one screen |
| Physics.Dano | ProjetoJogo/GameWorld.java:383-393 | a hit allowed by podeLevarDano costs one life and 20 points, or every point when fewer than 20 are left; it starts the invincibility window and knocks the player 80 px right, but not past x 630, at speed 100, without leaving the play strip; otherwise nothing changes |
| Physics.DanoAvalanche | ProjetoJogo/GameWorld.java:395-405 | an allowed avalanche hit costs one life and 15 points, or every point when fewer than 15 are left; it starts the window and puts the player at x 150 with speed 200; otherwise nothing changes |
| Physics.SecondHitIsNoOp | ProjetoJogo/GameWorld.java:383-405 | within one invincibility window any second hit, of either kind, changes nothing |
| Physics.HitThenHit | ProjetoJogo/GameWorld.java:383-393 | two parts of a frame that each land at most one hit land at most one hit between them |
| Hazards.Sweep | ProjetoJogo/GameWorld.java:254-277 | the obstacle loop keeps no obstacle that has left the screen, lands at most one hit and starts the window with it, keeps the score non-negative and the player in the strip, and only a scoring loop on its completion level sets the level-complete flag |
| Hazards.SweepKeepsAtMost | ProjetoJogo/GameWorld.java:254-277 | the loop never keeps more obstacles than it was given |
| Hazards.SweepWhileInvincible | ProjetoJogo/GameWorld.java:254-277 | while the player is invincible, every obstacle still on screen is kept, moved and in order, and every pass scores 10 points where the loop scores |
| Hazards.CompletionNeedsPass | ProjetoJogo/GameWorld.java:263-268 | the loop completes the level only on its completion level, in a frame where at least one obstacle leaves the screen |
| Hazards.CompletionReachesTarget | ProjetoJogo/GameWorld.java:263-268 | a loop that completes the level starts from a non-negative score that its 10-point passes alone bring to the target; a hit in between only takes points away |
| Hazards.SweepCompletesLevel | ProjetoJogo/GameWorld.java:263-268 | with no hit possible, passes that bring the score to the target on the completion level do complete it |
| Hazards.SweepWithoutScoring | ProjetoJogo/core/src/main/java/br/jogobike/GameWorld.java:251-260 | a loop that does not score passes never raises the score and never touches the level-complete flag |
| Hazards.SweepLandsOneHit | ProjetoJogo/GameWorld.java:272-276 | an obstacle loop lands at most one hit on the player |
| Hazards.SweepObstacles | ProjetoJogo/GameWorld.java:254-277 | the backward loop that removes in place computes exactly the kept list, vitals and completion flag of Sweep |
| Particles.NewDashLine | ProjetoJogo/GameWorld.java:527-532 | a new dash line starts at the given x, within a quarter of the player height of the given y, 20 to 40 long, at alpha 0.7, alive |
| Particles.SpawnDashLine | ProjetoJogo/GameWorld.java:527-532 | creating a dash line consumes two draws, the jitter then the length |
| Particles.NewWindLine | ProjetoJogo/GameWorld.java:547-555 | a reset wind line starts at x -50 with y, length, speed, thickness and alpha in their source ranges, and is not expired |
| Particles.ResetWindLine | ProjetoJogo/GameWorld.java:546-555 | a reset consumes five draws, in the order y, length, speed, thickness, alpha |
| Particles.WindNext | ProjetoJogo/GameWorld.java:556-563 | one line's update: a line that leaves the screen or fades out is replaced by the line its five draws make, any other line just moves and fades; the result is never expired |
| Particles.WindResets | ProjetoJogo/GameWorld.java:556-563 | the number of lines reset in one tick is at most the number of lines |
| Particles.WindTick | ProjetoJogo/GameWorld.java:425-430 | one tick keeps the number of lines and leaves none expired |
| Particles.WindTickLine | ProjetoJogo/GameWorld.java:425-430 | line k after a tick is line k updated, reset if need be from the draws left after the resets of the lines before it |
| Particles.WindTickStep | ProjetoJogo/GameWorld.java:425-430 | writing one line's update over it in place extends the tick by that line, leaves the later lines alone, and adds its reset to the count |
| Particles.NewWindLines | ProjetoJogo/GameWorld.java:165-167 | the constructor creates count wind lines, five draws each in turn, none expired |
| Particles.UpdateWindLines | ProjetoJogo/GameWorld.java:425-430 | the in-place loop leaves exactly WindTick of the old lines and consumes five draws per reset line, WindResets in all |
| Particles.Intensity | ProjetoJogo/GameWorld.java:408-410 | the avalanche intensity is at most 1, and non-negative for a non-negative timer |
| Particles.NewSnowEffect | ProjetoJogo/GameWorld.java:576-596 | a new snow effect is a snowball or a puff as drawn, starts inside the avalanche strip with full life of at least 1 second, and is alive |
| Particles.SpawnSnowEffect | ProjetoJogo/GameWorld.java:576-596 | creating a snow effect consumes eight draws: kind, x, size, y, speed, life and the two rotation draws |
| Particles.SnowSpawned | ProjetoJogo/GameWorld.java:414-416 | exactly when the spawn draw is below 0.9 + intensity/10, one live snow effect is spawned from the next draws; otherwise none |
| Particles.SpawnSnowWhenDue | ProjetoJogo/GameWorld.java:414-416 | the spawn takes one draw, and eight more for the effect it spawns |
| Particles.SnowTick | ProjetoJogo/GameWorld.java:408-424 | the snow list of one avalanche tick grows by at most one effect and holds no dead effect |
| Particles.TickSnow | ProjetoJogo/GameWorld.java:414-423 | the spawn then the backward sweep leave exactly SnowTick, taking one draw, or nine when an effect is spawned |
| Particles.Survivors | ProjetoJogo/GameWorld.java:431-439 | one tick keeps every updated item that is not dead and no dead one, and never more items than it was given |
| Particles.SurvivorsAppend | ProjetoJogo/GameWorld.java:431-439 | the survivors of a list are those of its first part followed by those of the rest, so the tick keeps list order |
| Particles.SurvivorsOne | ProjetoJogo/GameWorld.java:431-439 | a single item survives as its updated self exactly when that is not dead |
| Particles.SweepParticles | ProjetoJogo/GameWorld.java:431-439 | the backward loop that removes in place leaves exactly Survivors, so no dead particle stays |
| Log.LogSpeed | ProjetoJogo/BotLog.java:91-92 | the log's speed is at least its difficulty-scaled base plus its offset, so at least 120 px/s at difficulty 1 or more |
| Log.Advance | ProjetoJogo/BotLog.java:75-103 | it reports true exactly when a fade finishes, and then returns the log opaque and not fading; a fading log does not move; a moving log goes left by exactly its speed times delta, so by at least 120·delta, and starts fading exactly when its right edge passes the avalanche; the log invariant is kept |
| Log.PositionInTrack | ProjetoJogo/BotLog.java:118-130 | the respawned log fits between the track limits, or sits on the bottom limit when the track is narrower than the log |
| Log.Respawned | ProjetoJogo/BotLog.java:110-116 | the respawned log is a drawn distance past the right edge, inside the track, with a fresh offset in [-80, 120], with its fade state kept and the log invariant kept |
| Log.Run | ProjetoJogo/BotLog.java:75-103 | over n frames the log reports at most one dodge per frame and never on two frames in a row: at most (n+1)/2 dodges, and n/2 from a log that is not fading |
| Log.FadeReportsOnce | ProjetoJogo/BotLog.java:78-88 | a fading log stays put and reports exactly one dodge, on the frame where its alpha runs out, then comes back opaque and moving |
| Log.SumNonNegative | ProjetoJogo/BotLog.java:78-88 | the total fade time over non-negative frame times is non-negative |
| Log.BotLog.GetAlpha | ProjetoJogo/BotLog.java:150-152 | getAlpha is never negative, and lies in (0, 1] for a valid log |
| Log.BotLog.constructor | ProjetoJogo/BotLog.java:35-61 | a new log has its sprite at (x, y), is opaque and not fading, and takes its speed offset from one draw in [-80, 120] |
| Log.BotLog.Placeholder | ProjetoJogo/BotLog.java:64-72 | the default log has its collision box at the origin, is opaque and not fading, and takes one draw for its speed offset |
| Log.BotLog.Update | ProjetoJogo/BotLog.java:75-103 | update moves or fades the log exactly as Advance does, returns Advance's dodge report, and keeps the log valid |
| Log.BotLog.UpdatePosition | ProjetoJogo/BotLog.java:105-107 | after updatePosition(x, y), getX and getY return x and y, and the box keeps its size |
| Log.BotLog.Respawn | ProjetoJogo/BotLog.java:110-116 | respawn sets the log to Respawned of its draws (distance, track position, offset) and consumes three draws, or two when the track is narrower than the log; the log lands past the right edge, inside the track, with an offset in [-80, 120], and the fade state is left alone |
| Log.BotLog.RandomPositionInTrack | ProjetoJogo/BotLog.java:118-130 | the track position draws only when the track is wider than the log |
| ZigZag.Sway | ProjetoJogo/ZigZagProp.java:34-38 | the prop sways at most 10 pixels either side of its start column, and is on it at time 0 |
| ZigZag.ZigZagProp.constructor | ProjetoJogo/ZigZagProp.java:23-32 | a new prop is at its start, 75×77, not lava, at time 0, with bounds equal to its box |
| ZigZag.ZigZagProp.Update | ProjetoJogo/ZigZagProp.java:34-45 | one update adds delta to the clock, drops y by 200·delta, keeps x within 10 of the start column, and keeps the bounds equal to the box |
| ThreeLevelWorld.TrackTop | ProjetoJogo/GameWorld.java:466-476 | every level's track is tall enough for the player, for a rock with its margins and for the log |
| ThreeLevelWorld.AvalancheHeight | ProjetoJogo/GameWorld.java:478-482 | the avalanche height is positive on every level |
| ThreeLevelWorld.RockRect | ProjetoJogo/GameWorld.java:617-637 | a rock's 17×17 collision box lies strictly inside its 55×55 sprite |
| ThreeLevelWorld.RockFromDraws | ProjetoJogo/GameWorld.java:280-294 | a new rock appears 30 to 110 px past the right edge, inside the track with a 5-px margin, with speed in [225, 305), lava exactly on level 3, and on screen |
| ThreeLevelWorld.RockPassesCompleteLevelTwo | ProjetoJogo/GameWorld.java:263-268 | on level 2, rock passes that bring the score to 40 complete the level |
| ThreeLevelWorld.RockCompletionNeedsTarget | ProjetoJogo/GameWorld.java:263-268 | conversely, rocks complete the level only on level 2, in a frame with a pass, from a score that those passes alone bring to 40 |
| ThreeLevelWorld.NewProp | ProjetoJogo/GameWorld.java:655-667 | a new inner prop is at its start, 50×43, not lava, at time 0 |
| ThreeLevelWorld.StepProp | ProjetoJogo/GameWorld.java:669-677 | one prop update adds delta to its clock, never moves it left, and keeps it within 36 px of its start height |
| ThreeLevelWorld.PropStart | ProjetoJogo/GameWorld.java:299-306 | a new prop appears 40 to 70 px right of the avalanche, inside the track, and on screen |
| ThreeLevelWorld.GameWorld.constructor | ProjetoJogo/GameWorld.java:117-175 | a new world puts the player mid-screen and mid-track with 3 lives, 0 points and difficulty 1; the log exists exactly on level 1, at its start spot; there are no rocks, props, dash lines or snow effects, and the world invariant holds, which gives 15 unexpired wind lines |
| ThreeLevelWorld.GameWorld.Update | ProjetoJogo/GameWorld.java:177-243 | a frame changes nothing (world, log or draws) once the game is over or the level complete; otherwise it sets the difficulty from the old score, keeps the player on the track, costs at most one life and starts invincibility with it, cannot hurt an invincible player whose window outlasts the frame, and completes only level 1 (with the log) or level 2; the invariant is kept, including game over exactly at 0 lives |
| ThreeLevelWorld.GameWorld.StepWorld | ProjetoJogo/GameWorld.java:178-202 | the clocks and scenery part of a frame sets the difficulty, advances the avalanche, lands at most one hit, and completes only level 2 |
| ThreeLevelWorld.GameWorld.StepScenery | ProjetoJogo/GameWorld.java:194-202 | effects and obstacles together keep their invariants and land at most one hit; only level 2 can complete |
| ThreeLevelWorld.GameWorld.StepPlayer | ProjetoJogo/GameWorld.java:205-242 | the player part of a frame keeps the player on the track, lands at most one hit, restores game over exactly at 0 lives, and completes only level 1 with the log |
| ThreeLevelWorld.GameWorld.MoveAndAvalanche | ProjetoJogo/GameWorld.java:205-218 | movement and the avalanche check keep the player on the track and in the strip and land at most one hit |
| ThreeLevelWorld.GameWorld.LogAndStatus | ProjetoJogo/GameWorld.java:221-242 | the log phase and the game-over check land at most one hit, set game over exactly at 0 lives, and complete only level 1 with the log |
| ThreeLevelWorld.GameWorld.UpdateEffects | ProjetoJogo/GameWorld.java:194-197 | the four effect updates keep 15 live wind lines and no dead particle, and advance the avalanche clock by delta |
| ThreeLevelWorld.GameWorld.UpdateObstacles | ProjetoJogo/GameWorld.java:199-202 | rocks then props keep the obstacle invariant, land at most one hit, and complete only level 2 |
| ThreeLevelWorld.GameWorld.TickTimers | ProjetoJogo/GameWorld.java:180-188 | the invincibility clock runs down only while active, and damage is allowed again exactly when it reaches 0; the avalanche-damage clock grows by delta |
| ThreeLevelWorld.GameWorld.MovePlayer | ProjetoJogo/GameWorld.java:205-212 | the player moves by speed·delta, is clamped into the strip and the track, and the collision box follows |
| ThreeLevelWorld.GameWorld.CheckAvalancheDamage | ProjetoJogo/GameWorld.java:215-218 | avalanche damage applies exactly when the player is within 125 px, can take damage, and 0.3 s have passed since the last one; that clock then resets |
| ThreeLevelWorld.GameWorld.LogPhase | ProjetoJogo/GameWorld.java:221-237 | the log update and the log collision land at most one hit and complete only level 1 with the log |
| ThreeLevelWorld.GameWorld.UpdateLog | ProjetoJogo/GameWorld.java:221-232 | on level 1, a dodge reported by the log scores 10, respawns the log from the next draws (the log otherwise moves as Advance says), and completes the level when the score reaches 40; nothing else changes the score, the log or the draws |
| ThreeLevelWorld.GameWorld.CheckLogCollision | ProjetoJogo/GameWorld.java:234-237 | touching the log while damage is allowed applies Dano and respawns the log from the next draws; otherwise the vitals, the log and the draws do not change |
| ThreeLevelWorld.GameWorld.UpdateDifficulty | ProjetoJogo/GameWorld.java:326-334 | the difficulty follows the score, and all four rates are their base values scaled by it |
| ThreeLevelWorld.GameWorld.HandlePlayerInput | ProjetoJogo/GameWorld.java:336-374 | the new speeds follow the input rules; a dash line is drawn only while accelerating above half the top speed, on a draw above 0.3 |
| ThreeLevelWorld.GameWorld.MoveHorizontally | ProjetoJogo/GameWorld.java:338-360 | the horizontal speed follows the input rule, and the dash-line draws happen only while accelerating above half the top speed |
| ThreeLevelWorld.GameWorld.MoveVertically | ProjetoJogo/GameWorld.java:363-373 | the vertical speed follows the input rule |
| ThreeLevelWorld.GameWorld.MaybeDashLine | ProjetoJogo/GameWorld.java:342-347 | a draw above 0.3 adds one live dash line behind the player (three draws); otherwise one draw and no line |
| ThreeLevelWorld.GameWorld.UpdatePlayerRect | ProjetoJogo/GameWorld.java:376-381 | the collision box is recentred on the player |
| ThreeLevelWorld.GameWorld.AplicarDano | ProjetoJogo/GameWorld.java:383-393 | the vitals change exactly as Dano with a 2-second window |
| ThreeLevelWorld.GameWorld.AplicarDanoAvalanche | ProjetoJogo/GameWorld.java:395-405 | the vitals change exactly as DanoAvalanche with a 2-second window |
| ThreeLevelWorld.GameWorld.UpdateAvalanche | ProjetoJogo/GameWorld.java:408-424 | the avalanche clock grows by delta with intensity from it, and the snow list becomes SnowTick of the old one: the survivors of the list with the effect spawned by the first draw, if any, at its end; one draw is taken, or nine when an effect is spawned |
| ThreeLevelWorld.GameWorld.UpdateWindEffect | ProjetoJogo/GameWorld.java:425-430 | the wind clock grows by delta, the 15 wind lines become WindTick of the old ones, and five draws are consumed per reset line |
| ThreeLevelWorld.GameWorld.UpdateDashLines | ProjetoJogo/GameWorld.java:431-439 | the dash lines become exactly the survivors of one tick |
| ThreeLevelWorld.GameWorld.UpdateParallax | ProjetoJogo/GameWorld.java:440-448 | the background offset scrolls and wraps as Parallax |
| ThreeLevelWorld.GameWorld.SpawnRock | ProjetoJogo/GameWorld.java:280-294 | spawnRock appends one rock built from three draws |
| ThreeLevelWorld.GameWorld.UpdateRocks | ProjetoJogo/GameWorld.java:245-278 | when the spawn timer reaches the interval a rock built from the next three draws is added first, the timer resets and the new interval comes from the fourth draw; otherwise the timer grows by delta and no draw is consumed; then the rock loop gives the new rock list, vitals and completion flag as Sweep does, with at most one hit, and only level 2 completes |
| ThreeLevelWorld.GameWorld.SpawnRockWhenDue | ProjetoJogo/GameWorld.java:246-251 | when the timer reaches the interval, one rock is added from three draws, the timer resets and the new interval is Between(1, 2.5) of the fourth draw, four draws in all; otherwise only the timer grows and nothing is drawn; the interval stays in [1, 2.5] |
| ThreeLevelWorld.GameWorld.MoveRocks | ProjetoJogo/GameWorld.java:253-277 | the rock loop leaves no rock off screen and matches Sweep with 10 points per pass |
| ThreeLevelWorld.GameWorld.SetVitals | ProjetoJogo/GameWorld.java:383-393 | the damage fields take the given values and nothing else changes |
| ThreeLevelWorld.GameWorld.UpdateZigZagProps | ProjetoJogo/GameWorld.java:296-324 | when the timer reaches 2.5 s a prop is spawned from the next two draws and the timer resets; otherwise the timer grows by delta and nothing is drawn; the prop loop then gives the new prop list and vitals as Sweep does, scores nothing, and never changes the level-complete flag |
| ThreeLevelWorld.GameWorld.SpawnPropWhenDue | ProjetoJogo/GameWorld.java:297-307 | on levels 2 and 3, every 2.5 s, one prop is spawned from two draws and the timer resets; otherwise only the timer grows |
| ThreeLevelWorld.GameWorld.MoveProps | ProjetoJogo/GameWorld.java:309-323 | the prop loop leaves no prop off screen and matches Sweep |
| ThreeLevelWorld.GameWorld.TogglePause | ProjetoJogo/GameWorld.java:450-458 | the pause flag flips |
| ThreeLevelWorld.GameWorld.SetPaused | ProjetoJogo/GameWorld.java:502-505 | the pause flag takes the given value |
| ThreeLevelWorld.GameWorld.SetCurrentLevel | ProjetoJogo/GameWorld.java:512-518 | the level changes, the completion flag clears and both obstacle lists empty; score and lives are outside what it may modify |
| ThreeLevelWorld.GameWorld.ResetLevelComplete | ProjetoJogo/GameWorld.java:519 | the completion flag clears |
| TwoLevelWorld.TrackTop | ProjetoJogo/core/src/main/java/br/jogobike/GameWorld.java:419-425 | both tracks are tall enough for the player, for a rock with its margins and for the log |
| TwoLevelWorld.AvalancheHeight | ProjetoJogo/core/src/main/java/br/jogobike/GameWorld.java:428-430 | the avalanche height is positive on both levels |
| TwoLevelWorld.RockRect | ProjetoJogo/core/src/main/java/br/jogobike/GameWorld.java:568-589 | a rock's 32×32 collision box lies strictly inside its 48×48 sprite |
| TwoLevelWorld.RockFromDraws | ProjetoJogo/core/src/main/java/br/jogobike/GameWorld.java:264-271 | a new rock appears 30 to 110 px past the right edge, inside the track with a 5-px margin, with speed in [220, 300), and on screen |
| TwoLevelWorld.GameWorld.constructor | ProjetoJogo/core/src/main/java/br/jogobike/GameWorld.java:110-155 | a new world puts the player mid-screen and mid-track with 3 lives, 0 points and difficulty 1; the log exists on every level, at its start spot; there are no rocks, dash lines or snow effects, and the world invariant holds, which gives 15 unexpired wind lines |
| TwoLevelWorld.GameWorld.Update | ProjetoJogo/core/src/main/java/br/jogobike/GameWorld.java:157-226 | a frame changes nothing (world, log or draws) once the game is over or the level complete; otherwise it sets the difficulty, keeps the player on the track, costs at most one life and starts the 1.5-s window with it, gains at most one dodge's 10 points, and completes only level 1; game over holds exactly at 0 lives |
| TwoLevelWorld.GameWorld.StepWorld | ProjetoJogo/core/src/main/java/br/jogobike/GameWorld.java:158-183 | the clocks and scenery part of a frame sets the difficulty, lands at most one hit, never raises the score, and never completes a level |
| TwoLevelWorld.GameWorld.StepScenery | ProjetoJogo/core/src/main/java/br/jogobike/GameWorld.java:175-183 | effects, and rocks on level 2 only, keep their invariants, land at most one hit and never raise the score |
| TwoLevelWorld.GameWorld.StepPlayer | ProjetoJogo/core/src/main/java/br/jogobike/GameWorld.java:186-225 | the player part of a frame keeps the player on the track, lands at most one hit, gains at most 10 points, and completes only level 1 |
| TwoLevelWorld.GameWorld.MoveAndAvalanche | ProjetoJogo/core/src/main/java/br/jogobike/GameWorld.java:186-200 | movement and the avalanche check keep the player on the track, land at most one hit and never raise the score |
| TwoLevelWorld.GameWorld.LogAndStatus | ProjetoJogo/core/src/main/java/br/jogobike/GameWorld.java:203-225 | the log phase and the game-over check land at most one hit, gain at most 10 points, set game over exactly at 0 lives, and complete only level 1 |
| TwoLevelWorld.GameWorld.UpdateEffects | ProjetoJogo/core/src/main/java/br/jogobike/GameWorld.java:175-178 | the effect updates keep 15 live wind lines and no dead particle, and advance the avalanche clock by delta |
| TwoLevelWorld.GameWorld.TickTimers | ProjetoJogo/core/src/main/java/br/jogobike/GameWorld.java:160-168 | the invincibility clock runs down only while active, damage is allowed again exactly when it reaches 0, and the avalanche-damage clock grows by delta |
| TwoLevelWorld.GameWorld.MovePlayer | ProjetoJogo/core/src/main/java/br/jogobike/GameWorld.java:186-194 | the player moves by speed·delta, is clamped into the strip and the track, and the collision box follows |
| TwoLevelWorld.GameWorld.CheckAvalancheDamage | ProjetoJogo/core/src/main/java/br/jogobike/GameWorld.java:197-200 | avalanche damage applies exactly when the player is within 125 px, can take damage, and 0.3 s have passed since the last one; that clock then resets |
| TwoLevelWorld.GameWorld.LogPhase | ProjetoJogo/core/src/main/java/br/jogobike/GameWorld.java:203-219 | the log update and the log collision land at most one hit, gain at most 10 points, and complete only level 1 |
| TwoLevelWorld.GameWorld.UpdateLog | ProjetoJogo/core/src/main/java/br/jogobike/GameWorld.java:203-214 | on every level, a dodge reported by the log scores 10 and respawns the log from the next draws (the log otherwise moves as Advance says); the level completes exactly when that dodge happens on level 1 and the score reaches 100 |
| TwoLevelWorld.GameWorld.CheckLogCollision | ProjetoJogo/core/src/main/java/br/jogobike/GameWorld.java:216-219 | touching the log while damage is allowed applies Dano and respawns the log from the next draws; otherwise the vitals, the log and the draws do not change |
| TwoLevelWorld.GameWorld.UpdateDifficulty | ProjetoJogo/core/src/main/java/br/jogobike/GameWorld.java:273-282 | the difficulty follows the score, and all four rates are their base values scaled by it |
| TwoLevelWorld.GameWorld.HandlePlayerInput | ProjetoJogo/core/src/main/java/br/jogobike/GameWorld.java:285-323 | the new speeds follow the input rules; a dash line is drawn only while accelerating above half the top speed, on a draw above 0.3 |
| TwoLevelWorld.GameWorld.MoveHorizontally | ProjetoJogo/core/src/main/java/br/jogobike/GameWorld.java:287-309 | the horizontal speed follows the input rule, and the dash-line draws happen only while accelerating above half the top speed |
| TwoLevelWorld.GameWorld.MoveVertically | ProjetoJogo/core/src/main/java/br/jogobike/GameWorld.java:311-322 | the vertical speed follows the input rule |
| TwoLevelWorld.GameWorld.MaybeDashLine | ProjetoJogo/core/src/main/java/br/jogobike/GameWorld.java:291-296 | a draw above 0.3 adds one live dash line behind the player (three draws); otherwise one draw and no line |
| TwoLevelWorld.GameWorld.UpdatePlayerRect | ProjetoJogo/core/src/main/java/br/jogobike/GameWorld.java:325-330 | the collision box is recentred on the player |
| TwoLevelWorld.GameWorld.AplicarDano | ProjetoJogo/core/src/main/java/br/jogobike/GameWorld.java:334-344 | the vitals change exactly as Dano with a 1.5-second window |
| TwoLevelWorld.GameWorld.AplicarDanoAvalanche | ProjetoJogo/core/src/main/java/br/jogobike/GameWorld.java:346-356 | the vitals change exactly as DanoAvalanche with a 1.5-second window |
| TwoLevelWorld.GameWorld.UpdateAvalanche | ProjetoJogo/core/src/main/java/br/jogobike/GameWorld.java:359-375 | the avalanche clock grows by delta with intensity from it, and the snow list becomes SnowTick of the old one: the survivors of the list with the effect spawned by the first draw, if any, at its end; one draw is taken, or nine when an effect is spawned |
| TwoLevelWorld.GameWorld.UpdateWindEffect | ProjetoJogo/core/src/main/java/br/jogobike/GameWorld.java:377-381 | the wind clock grows by delta, the 15 wind lines become WindTick of the old ones, and five draws are consumed per reset line |
| TwoLevelWorld.GameWorld.UpdateDashLines | ProjetoJogo/core/src/main/java/br/jogobike/GameWorld.java:383-391 | the dash lines become exactly the survivors of one tick |
| TwoLevelWorld.GameWorld.UpdateParallax | ProjetoJogo/core/src/main/java/br/jogobike/GameWorld.java:392-400 | the background offset scrolls and wraps as Parallax |
| TwoLevelWorld.GameWorld.SpawnRock | ProjetoJogo/core/src/main/java/br/jogobike/GameWorld.java:264-271 | spawnRock appends one rock built from three draws |
| TwoLevelWorld.GameWorld.UpdateRocks | ProjetoJogo/core/src/main/java/br/jogobike/GameWorld.java:229-262 | on level 2, when the spawn timer reaches the interval a rock built from the next three draws is added first, the timer resets and the new interval comes from the fourth draw; otherwise the timer grows by delta and no draw is consumed; then the rock loop gives the new rock list and vitals as Sweep does, with at most one hit, no points for passes, and the level-complete flag untouched |
| TwoLevelWorld.GameWorld.SpawnRockWhenDue | ProjetoJogo/core/src/main/java/br/jogobike/GameWorld.java:231-236 | when the timer reaches the interval, one rock is added from three draws, the timer resets and the new interval is Between(1, 2.5) of the fourth draw, four draws in all; otherwise only the timer grows and nothing is drawn; the interval stays in [1, 2.5] |
| TwoLevelWorld.GameWorld.MoveRocks | ProjetoJogo/core/src/main/java/br/jogobike/GameWorld.java:239-261 | the rock loop leaves no rock off screen, matches Sweep, lands at most one hit and never raises the score |
| TwoLevelWorld.GameWorld.SetVitals | ProjetoJogo/core/src/main/java/br/jogobike/GameWorld.java:334-344 | the damage fields take the given values and nothing else changes |
| TwoLevelWorld.GameWorld.TogglePause | ProjetoJogo/core/src/main/java/br/jogobike/GameWorld.java:403-411 | the pause flag flips |
| TwoLevelWorld.GameWorld.SetPaused | ProjetoJogo/core/src/main/java/br/jogobike/GameWorld.java:451-454 | the pause flag takes the given value |
| TwoLevelWorld.GameWorld.SetCurrentLevel | ProjetoJogo/core/src/main/java/br/jogobike/GameWorld.java:461-467 | the level changes, the completion flag clears and the rocks are emptied; score and lives are outside what it may modify |
| TwoLevelWorld.GameWorld.ResetLevelComplete | ProjetoJogo/core/src/main/java/br/jogobike/GameWorld.java:468 | the completion flag clears |

## Left out

- Rendering, textures, fonts, audio (the music calls of togglePause and setPaused), logging through `Gdx.app.log`, `dispose`, and the getters that only return a field are not modelled. `GameRenderer`, the screens and `MainGame` are not part of this model.
- Float rounding: Java `float` arithmetic is modelled as exact real arithmetic.
- The snow effect's rotation, rotation speed and colour are purely visual. Their two draws are consumed, but the values are not kept.
- `BotLog` keeps an unused `random` field, and the texture loading of its constructors, including the placeholder texture, is not modelled. Its speed-offset draw comes from the shared stream rather than LibGDX's own generator.
- The texture fallback of the two-level constructor (try/catch around `new BotLog`) always ends with a log, so `TwoLevelWorld.GameWorld.bot` is never null and the source's null checks are dropped.
- TwoLevelWorld.GameWorld.Update: claims only that a completion happens on level 1, not that the score is still at least 100 at the end of the frame, because the log collision in the same frame can take 20 points after the completing dodge. `UpdateLog` states the exact completion condition.
- TwoLevelWorld.GameWorld.LogPhase, TwoLevelWorld.GameWorld.LogAndStatus and TwoLevelWorld.GameWorld.StepPlayer: state completion on level 1 only, for the same reason.
- ThreeLevelWorld.GameWorld.Update: states that a completion happens on level 1 (with the log) or level 2, not that the score is still at least 40 at the end of the frame. A later prop, the log collision or the avalanche in the same frame can take points after the completing pass or dodge. `UpdateLog` and `RockCompletionNeedsTarget` state the score condition.
- ThreeLevelWorld.GameWorld.StepWorld: states completion on level 2 only, for the same reason (a prop hit after the completing rock pass).
- ThreeLevelWorld.GameWorld.StepScenery: states completion on level 2 only, for the same reason.
- ThreeLevelWorld.GameWorld.UpdateObstacles: states completion on level 2 only, for the same reason.
- ThreeLevelWorld.GameWorld.StepPlayer: states completion on level 1 with the log only, for the same reason (the log collision after the completing dodge).
- ThreeLevelWorld.GameWorld.LogAndStatus: states completion on level 1 with the log only, for the same reason.
- ThreeLevelWorld.GameWorld.LogPhase: states completion on level 1 with the log only, for the same reason.
- The frame-level methods do not state how many draws a frame consumes: `Update`, `StepWorld`, `StepScenery`, `StepPlayer`, `LogAndStatus`, `LogPhase` and `UpdateEffects` of both worlds, `UpdateObstacles` of ThreeLevelWorld, and the two world constructors. Each method they call states its own draws.
- A `Random.Source` models a seedable random generator; nothing proves that its stream is uniformly distributed.
