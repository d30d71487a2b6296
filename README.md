# Endless runner game panels in Dafny

This project models the fixed-tick simulation inside the `GamePanel` class of
two variants of one endless runner:

- **EndlessDashGame** (`EndlessDash` module). One obstacle stands on the
  platform or floats 180 px above it. The player has integer jump and gravity
  physics and four hit points. There are hurt and walk animations, and the
  score is read off the distance run.
- **PawJump** (`PawJump` module). This variant adds:
  - a third obstacle kind that bobs between y = 250 and y = 520;
  - three collectibles (fish, meat, suplemen), which appear at fixed
    checkpoints of each 250 m phase inside a vertical band, after a bounded
    20-try search for a height clear of the other items;
  - a single-use shield granted by the suplemen;
  - a fish quota per phase that ends the run when missed;
  - attack, bird and death animations;
  - levels with a speed multiplier;
  - a restart.

Each panel is a Dafny `class` whose fields are the panel's fields.
- `Tick` is one timer callback (`actionPerformed`).
- `KeyPressed` is the space key.
- `RestartGame` is the restart from the game-over dialog.

Related fields are grouped into datatype values:
- the player's `Body`;
- PawJump's `Obstacle`;
- each collectible with its phase counters;
- each animation's counters (`Clip`, `Cycle`, `Fade`).

Pure rules live in their own modules:
- `Geometry`: `Rectangle.intersects` and the `(int)` cast of the obstacle's x.
- `Physics`: jump and gravity.
- `Animation`: frame counters.
- `Progression`: distance, score, level, speed and day/night.
- `ItemPlacement`: `isVerticallyApart`, `isItemYValid` and the 20-try search.
- `Spawning`: obstacle kind, bobbing and the collectible checkpoints.

Some of the games' state is represented differently:
- **Numbers.** The games hold distance and speed in `double`s. Here they are
  exact scaled integers:
  - distance is in hundredths of a metre, +12 per running tick;
  - the multiplier `1.0 + 0.2 k` is in tenths, `10 + 2k`;
  - the obstacle's x is in tenths of a pixel.
- **`Math.random()`.** Each class has a constant stream `entropy: nat -> real`
  of values in [0, 1). It is consumed in program order, and `draws` counts
  the values used.
- **Timer.** Stopping the Swing timer is the field `timerRunning`.
- **Clock.** The wall clock read for the meat effect and the level-up
  message is the parameter `now`.
- **High-score file.** The record is the field `highScore`. Its stored
  value is a constructor parameter.

Each class has an invariant `Valid()`. Every constructor and every public
operation establishes it or keeps it. It says:
- health is within 0..4;
- the run is in exactly one of its modes:
  - running;
  - dying (PawJump);
  - failed for want of fish (PawJump);
  - or, in EndlessDash, stopped;
- the player never sinks below the platform;
- every animation counter is in range;
- the obstacle has a legal shape and position;
- score, level and multiplier agree with the distance;
- each collectible phase is the one the score is in;
- at most two meats and one suplemen appeared in their current phase;
- every collectible on screen lies in its band.

Where the code and a plain reading of the game differ, the model follows the
code:
- **Respawned obstacle.** An obstacle that leaves the screen gets
  1280 + 170 added to its x. `initObstacle` then overwrites that with 1280,
  so the new obstacle starts at x = 1280.
- **Failed search.** When all 20 draws of the separation search fail, the
  item is placed at the top of its band (`minY`), not at the last draw.
- **Restart order.** PawJump's `restartGame` calls `initObstacle` before it
  resets the score. The new obstacle's kind is therefore drawn with the
  score of the run that just ended.

## Model

| member | source | states |
|---|---|---|
| Geometry.IntersectsIffSharedPixel | PawJump.java:741-744 | the hit test `Rectangle.intersects` holds exactly when some pixel lies in both boxes |
| Geometry.TruncTenths | PawJump.java:743 | the `(int)` cast of the obstacle's x truncates toward zero: the result is within one pixel of x, on the side of zero |
| Physics.Fall | PawJump.java:733-740 | after a tick of gravity the player is never below the platform; on it they are at rest and not jumping; above it the speed grew by 2 and the jump flag is kept |
| Physics.NoDoubleJump | PawJump.java:1126-1131 | once a jump is accepted (speed -30, jumping), a second press does nothing |
| Physics.StandingStays | EndlessDashGame.java:182-188 | a player standing on the platform stays there tick after tick |
| Physics.JumpArc | PawJump.java:733-740 | k <= 28 ticks after a jump from the platform, the player is airborne at y = 550 - 29k + k^2 with speed -30 + 2k |
| Physics.JumpLandsAfter29Ticks | PawJump.java:733-740 | a jump from the platform is airborne for ticks 1..28 and lands at rest on tick 29 |
| Physics.JumpApex | PawJump.java:733-740 | a jump never rises above y = 340, and it reaches 340 |
| Animation.Advance | PawJump.java:596-608 | a tick of the attack or hurt animation keeps its counters in range; it plays on while under its duration and then stops; an idle one is unchanged |
| Animation.ClipPlaysFor | PawJump.java:690-702 | a triggered animation plays, with counters in range, for exactly `duration` ticks |
| Animation.HurtLasts18Ticks | PawJump.java:690-702 | the hurt animation shows frame 0 or 1 and ends after 18 ticks |
| Animation.AttackLasts16Ticks | PawJump.java:596-608 | the attack animation shows frames 0..3 and ends after 16 ticks |
| Animation.Spin | PawJump.java:703-710 | a tick of the walk or bird loop keeps its frame and timer in range |
| Animation.SpinHolds | PawJump.java:703-710 | a frame of a loop stays on screen while its timer is below the delay |
| Animation.SpinPeriod | PawJump.java:703-710 | every frame of a loop lasts exactly `delay` ticks, then the next frame (mod `frames`) starts |
| Animation.FadeStepAfter | PawJump.java:494-503 | one death tick takes the animation from its state at n ticks to its state at n + 1 |
| Animation.FadeAt | PawJump.java:494-503 | n ticks after dying, the death frame is min(n / 8, 3): it never passes 3 |
| Progression.ItemStep | PawJump.java:533 | a collectible moves the whole pixels of 12 x multiplier, at least 12 px per tick |
| Progression.ScoreLevelAgree | PawJump.java:724 | the level read off the distance equals `score / 250 + 1`, so the two multiplier formulas agree |
| Progression.TickProgress | PawJump.java:781-789 | in one tick the score and the level rise by at most one and never fall; the level rises exactly when the distance crosses a multiple of 250 m |
| Progression.Monotone | PawJump.java:781-784 | score and level never decrease as the distance grows |
| Progression.DayInOddLevels | PawJump.java:718-721 | it is day exactly in odd levels |
| ItemPlacement.ApartMeansClearance | PawJump.java:132-134 | two extents are vertically apart exactly when the gap between them is at least `minDist`; this does not depend on their order; apart extents share no pixel row, and with `minDist` 0 the converse holds |
| ItemPlacement.IsItemYValid | PawJump.java:137-144 | the scan accepts a candidate exactly when it is apart from every other active item |
| ItemPlacement.ActiveSpans | PawJump.java:424-428 | the list of other items holds exactly the active ones, in the game's order |
| ItemPlacement.ItemBand | PawJump.java:154-159 | the band is never empty and lies on screen; for a 48 px item it is [600 - 48 - 225, 600 - 48 - margin] |
| ItemPlacement.Candidate | PawJump.java:168 | a draw from the band lies in the band |
| ItemPlacement.PlaceFrom | PawJump.java:166-174 | the search uses 1 to 20 draws; it either takes a draw that is apart from every other item or falls back to the top of the band after 20 draws |
| ItemPlacement.PlaceFallsBackToTop | PawJump.java:166-174 | when all 20 draws are too close to another item, the item goes to the top of the band |
| ItemPlacement.PlaceTakesFirstFit | PawJump.java:167-173 | every draw before the chosen one was rejected |
| ItemPlacement.PlaceAlone | PawJump.java:429-439 | with no other item on screen the first draw is taken |
| ItemPlacement.FindSeparatedY | PawJump.java:166-173 | the 20-try loop returns the placement the search defines, and the draws it consumed |
| Spawning.ObstacleKind | PawJump.java:362-376 | an obstacle floats exactly when the score is at least 250 and the draw is below 0.3; it moves exactly when the score is at least 500 and the draw is in [0.3, 0.5); below 250 it always stands on the platform |
| Spawning.Bounce | PawJump.java:670-680 | a moving obstacle always ends a tick within [250, 520]; at the top bound it turns down, at the bottom bound up; strictly between them it moved 4 px in its direction |
| Spawning.DescentFromTop | PawJump.java:670-680 | from the top bound the obstacle descends 4 px a tick |
| Spawning.CrossesIn68Ticks | PawJump.java:670-680 | going down from the top bound, the obstacle reaches the bottom bound and turns after 68 ticks |
| Spawning.MeatDueMeans | PawJump.java:446-453 | the meat loop finds a due slot exactly when fewer than two meats appeared, none is on screen, and the next slot's checkpoint (50 m or 200 m into the phase) has passed inside the phase; the slot found is then the next one |
| Spawning.AtMostTwoMeats | PawJump.java:446-482 | however the ticks of a phase go, at most two meats appear in it |
| Spawning.AtMostOneSuplemen | PawJump.java:147-178 | however the ticks of a phase go, at most one suplemen appears in it |
| EndlessDash.GroundHeight | EndlessDashGame.java:116 | a ground obstacle is 50 to 149 px high |
| EndlessDash.GamePanel.constructor | EndlessDashGame.java:68-102 | the new panel satisfies the invariant: full health, running, score 0, player at y = 360 at rest, an obstacle at x = 1280, the stored record |
| EndlessDash.GamePanel.InitObstacle | EndlessDashGame.java:104-119 | the new obstacle is at x = 1280 and 80 px wide; it floats (80 px high, bottom 180 px above the platform) exactly when the draw is below 0.4; otherwise it stands on the platform with a height from a second draw |
| EndlessDash.GamePanel.AdvanceHurt | EndlessDashGame.java:138-150 | the hurt animation advances one tick |
| EndlessDash.GamePanel.AdvanceWalk | EndlessDashGame.java:152-158 | the walk animation advances only on the platform, not jumping and not hurting |
| EndlessDash.GamePanel.ScrollObstacle | EndlessDashGame.java:172-180 | the multiplier follows the score; the obstacle moves left by 12 x multiplier; once wholly off screen a new one starts at x = 1280, not 1280 + 170 |
| EndlessDash.GamePanel.ApplyGravity | EndlessDashGame.java:182-188 | the player moves by one tick of gravity |
| EndlessDash.GamePanel.StartHurt | EndlessDashGame.java:193-198 | a hit restarts the hurt animation only when it is not already playing |
| EndlessDash.GamePanel.TakeHit | EndlessDashGame.java:199-219 | health drops by exactly one when positive and never below 0, and a new obstacle comes; at 0 the run and the timer stop and the record becomes max(record, score) |
| EndlessDash.GamePanel.AdvanceDistance | EndlessDashGame.java:226-229 | 0.12 m more, and the score is the whole metres |
| EndlessDash.GamePanel.Collide | EndlessDashGame.java:190-221 | when the player's box meets the obstacle's, health drops by exactly one, the hurt animation restarts if idle and a new obstacle (the one the next draws make) starts at x = 1280; when they do not meet, nothing changes; the run ends exactly when health reaches 0, the timer stops, and the record is raised only then |
| EndlessDash.GamePanel.Strike | EndlessDashGame.java:190-229 | the invariant is kept; the hit outcome is `Collide`'s; unless the hit ended the run, the distance grows by 0.12 m |
| EndlessDash.GamePanel.RunStep | EndlessDashGame.java:172-229 | the invariant is kept; the player falls one tick; a hit point is lost exactly when the fallen player meets the scrolled (or newly made) obstacle, and then the hurt animation restarts if idle and a new obstacle starts at x = 1280; with no hit nothing but the scroll happens to the obstacle; unless the hit ended the run, the distance grows by 0.12 m; the score rises by at most one and the record never drops |
| EndlessDash.GamePanel.Tick | EndlessDashGame.java:136-231 | the invariant is kept and day/night follows the score; the hurt and walk animations step first in every tick; a stopped run changes nothing else; a running tick moves the player by gravity, loses a hit point exactly when the hit test fires, and grows the distance by 0.12 m unless the run ended |
| EndlessDash.GamePanel.KeyPressed | EndlessDashGame.java:456-462 | space starts a jump (speed -30) only when not jumping and running |
| EndlessDash.GamePanel.RestartGame | EndlessDashGame.java:300-319 | the invariant holds again: player at y = 360 at rest, a new obstacle at x = 1280, score and distance 0, full health, running, the timer on, animations cleared; the record and day/night are kept |
| PawJump.Scroll | PawJump.java:532-537 | an item on screen moves left by the step and leaves the screen once wholly past the left edge; its height never changes; an item off screen is unchanged |
| PawJump.GamePanel.constructor | PawJump.java:271-355 | the new panel satisfies the invariant: full health, running, score 0, level 1; the first fish is on screen at the first draw's height, no meat or suplemen, a ground obstacle at x = 1280, the stored record |
| PawJump.GamePanel.InitObstacle | PawJump.java:358-398 | nothing changes while a level-up is pending; otherwise an 80 x 80 obstacle at x = 1280 whose kind the first draw decides; a moving one starts at y = 385 inside [250, 520], in the direction a second draw decides |
| PawJump.GamePanel.SpawnFishIfNeeded | PawJump.java:411-444 | inside the fish phase the fish appears at the right edge at the height the search picks, in its band; outside it the fish is removed |
| PawJump.GamePanel.SpawnMeatIfNeeded | PawJump.java:446-482 | a meat appears, and is counted, exactly when the next slot is due; it is at the right edge at the height the search picks; otherwise nothing changes |
| PawJump.GamePanel.SpawnSuplemenIfNeeded | PawJump.java:147-178 | a suplemen appears, and is counted, exactly when it is due (from 125 m into the phase, once, none on screen); otherwise nothing changes |
| PawJump.GamePanel.RollSuplemenPhase | PawJump.java:519-526 | at the end of its phase the suplemen count restarts, the item leaves the screen and the shield is cleared, used or not |
| PawJump.GamePanel.ScrollSuplemen | PawJump.java:531-537 | the suplemen scrolls by the whole pixels of the current speed |
| PawJump.GamePanel.CollectSuplemen | PawJump.java:539-553 | catching the suplemen grants an unused shield and restarts the attack animation; otherwise nothing changes |
| PawJump.GamePanel.UpdateSuplemen | PawJump.java:518-553 | the suplemen keeps its invariant; inside the phase a shield is never lost; at the phase end the phase advances and the shield is unused |
| PawJump.GamePanel.ExpireMeatEffect | PawJump.java:554-557 | the meat effect ends once more than 3000 ms passed since it started |
| PawJump.GamePanel.RollMeatPhase | PawJump.java:559-566 | at the end of its phase the meat count restarts and the meat leaves the screen; the effect is kept |
| PawJump.GamePanel.ScrollMeat | PawJump.java:571-578 | the meat scrolls by the whole pixels of the current speed |
| PawJump.GamePanel.CollectMeat | PawJump.java:580-594 | catching the meat starts its effect at `now` and restarts the attack animation; otherwise nothing changes |
| PawJump.GamePanel.UpdateMeat | PawJump.java:554-594 | the meat keeps its invariant; inside the phase at most one more meat appears; at the phase end the phase advances |
| PawJump.GamePanel.AdvanceAttack | PawJump.java:595-608 | the attack animation advances one tick and stays in range |
| PawJump.GamePanel.NextFishPhase | PawJump.java:637-644 | the next fish phase starts with no fish caught and a new fish at the right edge, at the height the separation search picks, using the draws the search used |
| PawJump.GamePanel.CheckFishQuota | PawJump.java:617-646 | the run fails exactly when the fish phase ended with fewer than 15 fish; then health is 0, the run and the timer stop and no level-up message shows; a met quota starts the next phase with no fish caught and a new fish at the height the search picks |
| PawJump.GamePanel.ScrollFish | PawJump.java:648-655 | the fish scrolls, and once off screen it is spawned again at the right edge, at the height the search picks |
| PawJump.GamePanel.CollectFish | PawJump.java:656-669 | catching a fish counts exactly one more, spawns the next one at the height the search picks and restarts the attack animation; otherwise nothing changes |
| PawJump.GamePanel.UpdateFish | PawJump.java:648-669 | the fish keeps its invariant and phase, and the count rises by at most one |
| PawJump.GamePanel.MoveObstacleVertically | PawJump.java:670-680 | a moving obstacle bobs by `Bounce` and stays within [250, 520]; the others stay where they are |
| PawJump.GamePanel.AdvanceBird | PawJump.java:681-688 | the bird animation advances only while the obstacle floats |
| PawJump.GamePanel.AdvanceHurt | PawJump.java:689-702 | the hurt animation advances one tick and stays in range |
| PawJump.GamePanel.AdvanceWalk | PawJump.java:703-710 | the walk animation advances only on the platform, not jumping and not hurting |
| PawJump.GamePanel.Animate | PawJump.java:670-721 | the obstacle bobs, the bird, hurt and walk animations advance, and day/night follows the score |
| PawJump.GamePanel.ScrollObstacle | PawJump.java:723-732 | the multiplier follows the score; the obstacle moves left by 12 x multiplier; once wholly off screen a new one starts at x = 1280, not 1280 + 170, of the kind the draw gives at the score (floating only from 250 m, moving only from 500 m) |
| PawJump.GamePanel.ApplyGravity | PawJump.java:733-740 | the player moves by one tick of gravity |
| PawJump.GamePanel.UseShield | PawJump.java:745-749 | the shield absorbs a hit: it becomes used and inactive, and a new obstacle of the kind the draw gives at the score starts at x = 1280 |
| PawJump.GamePanel.StartHurt | PawJump.java:751-756 | a hit restarts the hurt animation only when it is not already playing |
| PawJump.GamePanel.TakeHit | PawJump.java:757-775 | health drops by exactly one when positive and never below 0, and a new obstacle of the kind the draw gives at the score starts at x = 1280; at 0 the run stops, the death animation starts, and the record becomes max(record, score) |
| PawJump.GamePanel.ResolveHit | PawJump.java:741-777 | no hit changes nothing; every hit replaces the obstacle by one of the kind the draw gives at the score, at x = 1280; a hit with an unused shield keeps health and uses the shield; any other hit costs exactly one hit point and restarts the hurt animation if idle; the run ends exactly when health reaches 0 |
| PawJump.GamePanel.AdvanceDistance | PawJump.java:779-791 | 0.12 m more; score, level and multiplier follow the distance; the score rises by at most one; the level rises exactly when a 250 m boundary is crossed, and only then is the message shown from `now` |
| PawJump.GamePanel.RunStep | PawJump.java:722-791 | the invariant is kept; the player falls one tick; the hit test is the fallen player against the scrolled (or newly made) obstacle: a hit with an unused shield spends it and keeps health, any other hit costs exactly one hit point and restarts the hurt animation if idle, and a hit always brings a new obstacle at x = 1280; with no hit, health, hurt and shield are unchanged and the obstacle only scrolls; unless the hit ended the run, the distance grows by 0.12 m; a run that ends is dying with the record max(record, score) |
| PawJump.GamePanel.Upkeep | PawJump.java:518-646 | the invariant is kept; the tick fails exactly when the fish quota of the ended phase was missed; otherwise the run goes on with unchanged health |
| PawJump.GamePanel.Live | PawJump.java:518-791 | the invariant is kept; a missed quota ends the run with health 0 and the timer stopped; otherwise the player falls one tick and at most one hit point is lost, and a run still going has 0.12 m more |
| PawJump.GamePanel.AdvanceDeath | PawJump.java:494-514 | the death animation moves to its state one tick later, and the timer stops once it has run 32 ticks |
| PawJump.GamePanel.Tick | PawJump.java:491-793 | the invariant is kept; score and record never decrease; while dying only the death animation (and the timer) changes, every other field, day/night and the level-up message included, is kept; otherwise the run fails exactly when the fish quota was missed, a tick that does not fail moves the player by gravity and takes at most one hit point, and a run still going has 0.12 m more |
| PawJump.GamePanel.KeyPressed | PawJump.java:1126-1131 | space starts a jump (speed -30) only when not jumping and running |
| PawJump.GamePanel.ClearRun | PawJump.java:870-894 | the death animation, the three collectibles, the level-up flags and the player go back to their start |
| PawJump.GamePanel.ResetCounters | PawJump.java:896-910 | distance, score, health, the hurt and walk animations, level, multiplier and message go back to their start |
| PawJump.GamePanel.RestartGame | PawJump.java:869-917 | the invariant holds again: score, distance and all phases 0, level 1, full health, running, timer on, player at y = 360 at rest; a new fish at the right edge; no meat, suplemen or shield; a new obstacle at x = 1280 whose kind is drawn with the old score; record, attack, bird and day/night kept |

## Left out

- Swing windows, menus, dialogs and `main`: these are user interface, not simulation.
- Rendering, `paintComponent`, the parallax `bgX` and the platform scroll `platformX`: presentation only. They are floating point and never feed back into the game state.
- Sprite-sheet slicing and image loading in the constructors: asset loading. The frames are taken as loaded, so the `birdFrames[0] != null` guard of the bird animation is always true.
- Reading and writing the high-score file: file I/O. A new record is only the update of `highScore`, and the stored value is a constructor parameter.
- The `popupDelay` timers: the model stops the game timer at the tick that schedules the stop. It does not model the few ticks the game may still deliver before the delayed stop, which only show the death animation's last frame. EndlessDash's `Tick` still states what a tick of a stopped run does, as the code has that branch.
- `System.currentTimeMillis`: the meat effect and the level-up message take the time as the parameter `now`. The message's later timeout is drawn by the renderer and is not part of this model. The meat effect has no effect on the simulation.
- The exact IEEE rounding of `accumulatedDistance` and `speedMultiplier`: distance and multiplier are exact scaled integers, so a phase boundary is crossed at exactly 250 m.
- Java's 32-bit `int` overflow: every counter stays far below it in any playable run.
- The fields `lastMeatSpawnScore`, `lastSuplemenSpawnScore` and `startTime`: they are written but never read by the simulation.
- `deathAnimDone`: it is never set to true, so its guard in the collision code is always open.
- `fishNeeded`: it is always 15, so it is the constant `FishNeeded`.
- PawJump.GamePanel.UpdateSuplemen: states the suplemen's invariant and phase facts, not its exact new state. The exact effect of each step is stated by `RollSuplemenPhase`, `SpawnSuplemenIfNeeded`, `ScrollSuplemen` and `CollectSuplemen`.
- PawJump.GamePanel.UpdateMeat: states the meat's invariant and count facts, not its exact new state. The exact effect of each step is stated by its five steps.
- PawJump.GamePanel.UpdateFish: states the fish's invariant and the count bound, not its exact new state. The exact effect is stated by `ScrollFish` and `CollectFish`.
- PawJump.GamePanel.Live: states the invariant and the facts of `Tick`, not the complete new state of every field.
- PawJump.GamePanel.Tick: states the hit outcome only as at most one hit point lost. The exact hit test is stated by `RunStep`, because within a tick the obstacle bobs and the hurt animation steps before it.
- The steps of one tick are split into small methods in the game's order (for example `Upkeep`, `Proceed`, `RunStep`, `Move`, `Strike`). This keeps each proof small. The order of the effects is the game's.
