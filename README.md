# rouky-jump: the run state machine

rouky-jump is a one-button endless runner built on the Kaboom engine. One
play-through is the `"game"` scene. The scene's callback keeps a handful of
variables: the score, the speed, the game-over, dark and upside-down flags,
the carried high score, the current floor and, in one variant, the
multi-jump flag. The engine calls back into the scene for these events:

- the jump input;
- the spawner, which reschedules itself every one to two seconds;
- one collision handler per tag (`tree`, `food`, `bolt`, `kong`);
- the 10-second darkness loop;
- the timers those handlers start;
- the per-frame update.

Every callback is a deterministic transition of that state. Its extra inputs
are the random draw, what the physics engine says about the player and the
moment a timer fires.

The repository has two versions of the scene:

- `main.js` is the **kong variant**, module `KongGame`. Its spawner never adds
  a second live bolt, food or kong. Touching a kong clears every tree.
- `js/main.js` is the **multi-jump variant**, module `MultiJumpGame`. It has
  no kong and no live-entity checks. Eating food turns on multi-jump for
  seven seconds.

Module `Rules` holds what the two share:

- the constants;
- the entity census, a count per tag;
- the scenery: the floors at each screen edge, the gravity, the player's
  flip and the post-effect;
- the item geometry;
- the speed schedule;
- the night-fall guard.

Module `Variants` relates the two spawners and the two jump handlers.

Each variant has a `State` value and one transition function per handler
(`Spawned`, `TreeHit`, `BoltHit`, `FlippedBack`, `NightChecked`, `Ticked`, …).
It also has a run invariant `Inv` with one lemma per transition proving the
transition keeps it.

The class `Run` holds the scene's mutable state as fields. Its methods are
the handlers. Each method is proved to move `Snapshot()` along its
transition and to keep `Valid()`. `Valid()` is `Inv` plus a ghost count of
new-high-score celebrations.

Timers are separate methods that the environment may call once their
pending counter is positive:

- `FlipEnd`: the end of upside-down mode;
- `NightOnset`: the darkness onset;
- `MultiJumpEnd`: the end of multi-jump.

The spawner's next call is the `pending.spawn` flag.

Two behaviours of the code are worth stating on their own:

- A spawner call after game over returns at once. It adds nothing and does
  not reschedule, so the chain of spawns stops at the crash.
- The speed-boost check runs every frame, outside the game-over guard.
  `FramesAfterGameOver` states the consequence.

## Model

| member | source | states |
|---|---|---|
| KongGame.ChooseItem | main.js:168-216 | the pick is the first eligible tag in the order bolt, food, kong, tree; a bolt needs score > 4000, draw > 0.95, not upside down, not dark and no live bolt; a food needs score > 2000, draw > 0.92 and no live food; a kong needs draw > 0.87 and no live kong; a non-tree pick never has a live twin; a draw of at most 0.87 gives a tree |
| MultiJumpGame.ChooseItem | js/main.js:150-186 | the pick is the first eligible tag in the order bolt, food, tree, with the same score, draw, orientation and darkness guards but no live-entity check; it is never a kong; a draw of at most 0.92 gives a tree |
| Rules.ItemHeight | main.js:160-166 | a spawned item lies exactly `offset` pixels from the face of the current floor, on the playfield side: below the top floor when upside down, above the bottom floor otherwise |
| Rules.ItemHeightMirror | js/main.js:143-148 | the upside-down and upright heights for one offset add up to the screen height |
| Rules.Place | main.js:154-216 | an item is anchored by the edge facing the floor (top when upside down), at its tag's clearance from the floor face on the playfield side (below the top floor, above the bottom one): 5 for a bolt, 10 for a food, 0 for a kong or tree |
| Rules.Census.Add | main.js:172-215 | adding an entity raises its tag's count by one and leaves the other tags' counts alone |
| Rules.Census.Remove | main.js:253 | `destroy` of one entity lowers its tag's count by one (never below zero) and leaves the other tags alone |
| Rules.Census.DestroyAll | main.js:277-280 | after `destroyAll(tag)` no entity of that tag is live and the other tags' counts are unchanged |
| Rules.DestroyEveryTag | main.js:277-280 | destroying all food, kong, bolt and tree in turn leaves no tagged entity |
| Rules.DestroyAllButKong | js/main.js:238-240 | without a live kong, destroying all food, bolt and tree leaves no tagged entity |
| Rules.TurnOver | main.js:281-296 | entering upside-down mode from a settled upright scenery gives a settled upside-down one: a single floor at the top, gravity -1800, the player flipped, the inverted picture |
| Rules.TurnBack | main.js:298-310 | leaving upside-down mode from a settled upside-down scenery gives a settled upright one: a single floor at the bottom, gravity 1800, the player unflipped, the plain picture |
| Rules.TurnOverAndBack | main.js:276-311 | turning over and back restores the original upright scenery, with the picture plain |
| Rules.Speed | main.js:102 | the speed after any number of 10% boosts is never below the starting 480 |
| Rules.SpeedMonotone | main.js:366-368 | more boosts never give a lower speed |
| Rules.ThousandsStep | main.js:356-368 | one more point reaches a new thousand exactly when the new score is a multiple of 1000 |
| KongGame.Run.constructor | main.js:99-123 | a fresh run: score 0, the carried high score, every flag off, one bottom floor with downward gravity, and exactly the item of the first `spawnItem()` live (main.js:223) |
| KongGame.Run.Jump | main.js:129-142 | game over restarts the scene with the high score; otherwise, upside down and neither falling nor rising, the impulse is -800; otherwise, grounded, +800; otherwise nothing; each outcome, `Ignore` included, holds exactly when its guard does, and a leap is always ±800 |
| KongGame.Run.SpawnItem | main.js:148-220 | after game over nothing is spawned and the spawner is not rescheduled; otherwise the chosen item is added, placed against the current floor, and the next call is scheduled; the invariant is kept |
| KongGame.Run.CollideTree | main.js:226-248 | the run is over, dark is cleared, the picture is plain, the high score is the better of the two scores; nothing else changes |
| KongGame.Run.CollideFood | main.js:251-254 | one food fewer; nothing else changes |
| KongGame.Run.CollideKong | main.js:257-268 | every tree and then the kong are destroyed; nothing else changes |
| KongGame.Run.CollideBolt | main.js:271-296 | the bolt is destroyed; in the dark nothing else changes; otherwise no entity is left, the scenery turns over, the run is upside down and the flip-back timer is pending |
| KongGame.Run.FlipEnd | main.js:297-311 | every entity is destroyed, the scenery turns back and the run is upright again |
| KongGame.Run.NightCheck | main.js:315-341 | when all five night-fall conditions hold an onset is scheduled; otherwise, when not upside down, darkness and the post-effect are cleared; otherwise nothing changes |
| KongGame.Run.NightOnset | main.js:330-336 | it becomes dark only when the run is still on and not upside down |
| KongGame.Run.Tick | main.js:355-381 | one point more exactly when the run is not over; the celebration plays exactly when the new score is one past a nonzero high score, and at most once per run; a boost whenever the score is a multiple of 1000; the light effect in the dark |
| KongGame.Run.Offscreen | main.js:178 | the engine removes one live entity that left the screen; the invariant is kept |
| KongGame.Run.Speed | main.js:102 | while the run lasts, the speed is 480 compounded by 10% once per whole thousand points of score |
| KongGame.CrashAndRestart | main.js:129-133 | a tree crash followed by the jump input starts a fresh valid run whose high score is the better of the old high score and the crashed run's score |
| KongGame.SpawnedKeepsInv | main.js:148-220 | a spawn keeps the run invariant, including at most one live bolt, food and kong and no bolt while upside down |
| KongGame.TreeHitKeepsInv | main.js:226-248 | a tree hit keeps the invariant: after game over it is never dark and the high score is at least the score |
| KongGame.FoodEatenKeepsInv | main.js:251-254 | a food hit keeps the invariant |
| KongGame.KongHitKeepsInv | main.js:257-268 | a kong hit keeps the invariant |
| KongGame.BoltHitKeepsInv | main.js:271-296 | a bolt hit keeps the invariant: one floor, at the top exactly when upside down, one flip-back pending |
| KongGame.FlippedBackKeepsInv | main.js:297-311 | the flip-back keeps the invariant |
| KongGame.NightCheckedKeepsInv | main.js:315-341 | the night check keeps the invariant: never dark while upside down |
| KongGame.NightBegunKeepsInv | main.js:330-336 | the onset keeps the invariant |
| KongGame.TickedKeepsInv | main.js:355-381 | a frame keeps the invariant: while the run lasts, one boost per thousand points |
| KongGame.WentOffscreenKeepsInv | main.js:178 | off-screen removal keeps the invariant |
| KongGame.SpawnAddsExactlyOne | main.js:150-219 | while the run lasts a spawn adds exactly one entity, of the chosen tag, and reschedules; after game over it adds none and does not reschedule |
| KongGame.SpawnNeverDoubles | main.js:170-192 | a spawn never raises the number of live bolts, foods or kongs above one, nor above what was already live |
| KongGame.BoltThenFlipBack | main.js:271-311 | a daylight bolt hit followed by its flip-back leaves the run as it was, except that no entity is left and the picture is plain |
| KongGame.ExactlyOneFloor | main.js:123-311 | in every state satisfying the invariant there is exactly one floor, at the top exactly when upside down |
| KongGame.NightCheckGuards | main.js:315-341 | an onset is scheduled exactly when all five conditions hold; without them darkness is cleared unless upside down; upside down nothing changes |
| KongGame.FramesWhileRunning | main.js:355-369 | while the run lasts, `n` frames add exactly `n` points and the boosts count the thousands reached |
| KongGame.FramesAfterGameOver | main.js:355-369 | after game over the score is frozen, but a run that ended on a multiple of 1000 gains one boost every frame |
| MultiJumpGame.Run.constructor | js/main.js:82-110 | a fresh run: score 0, the carried high score, every flag including multi-jump off, one bottom floor, and exactly the item of the first `spawnItem()` live (js/main.js:193) |
| MultiJumpGame.Run.Jump | js/main.js:112-126 | game over restarts with the high score; upside down with multi-jump on, or neither falling nor rising, the impulse is -800; otherwise, grounded or with multi-jump on, +800; otherwise nothing; each outcome, `Ignore` included, holds exactly when its guard does, a leap is always ±800, and with multi-jump on every press during the run leaps |
| MultiJumpGame.Run.SpawnItem | js/main.js:132-190 | after game over nothing is spawned and the spawner is not rescheduled; otherwise the chosen item is added, placed against the current floor, and the next call is scheduled |
| MultiJumpGame.Run.CollideTree | js/main.js:196-218 | the run is over, dark is cleared, the picture is plain, the high score is the better of the two scores; nothing else changes |
| MultiJumpGame.Run.CollideFood | js/main.js:221-224 | one food fewer, multi-jump on and one more 7-second timer pending |
| MultiJumpGame.Run.MultiJumpEnd | js/main.js:225-228 | multi-jump is off, whatever other timers are still pending |
| MultiJumpGame.Run.CollideBolt | js/main.js:232-256 | the bolt is destroyed; in the dark nothing else changes; otherwise no entity is left, the scenery turns over, the run is upside down and the flip-back timer is pending |
| MultiJumpGame.Run.FlipEnd | js/main.js:257-270 | every entity is destroyed, the scenery turns back and the run is upright again |
| MultiJumpGame.Run.NightCheck | js/main.js:274-300 | when all five night-fall conditions hold an onset is scheduled; otherwise, when not upside down, darkness and the post-effect are cleared |
| MultiJumpGame.Run.NightOnset | js/main.js:289-295 | it becomes dark only when the run is still on and not upside down |
| MultiJumpGame.Run.Tick | js/main.js:315-338 | one point more exactly when the run is not over; the celebration plays exactly at one past a nonzero high score, at most once per run; a boost whenever the score is a multiple of 1000; the light effect in the dark |
| MultiJumpGame.Run.Offscreen | js/main.js:159 | the engine removes one live entity that left the screen; the invariant is kept |
| MultiJumpGame.Run.Speed | js/main.js:85 | while the run lasts, the speed is 480 compounded by 10% once per whole thousand points |
| MultiJumpGame.SpawnedKeepsInv | js/main.js:132-190 | a spawn keeps the run invariant: never a kong, no bolt while upside down |
| MultiJumpGame.TreeHitKeepsInv | js/main.js:196-218 | a tree hit keeps the invariant |
| MultiJumpGame.FoodEatenKeepsInv | js/main.js:221-229 | a food hit keeps the invariant: multi-jump is on only while a timer to end it is pending |
| MultiJumpGame.MultiJumpEndedKeepsInv | js/main.js:225-228 | the multi-jump timer keeps the invariant |
| MultiJumpGame.BoltHitKeepsInv | js/main.js:232-256 | a bolt hit keeps the invariant |
| MultiJumpGame.FlippedBackKeepsInv | js/main.js:257-270 | the flip-back keeps the invariant |
| MultiJumpGame.NightCheckedKeepsInv | js/main.js:274-300 | the night check keeps the invariant |
| MultiJumpGame.NightBegunKeepsInv | js/main.js:289-295 | the onset keeps the invariant |
| MultiJumpGame.TickedKeepsInv | js/main.js:315-338 | a frame keeps the invariant |
| MultiJumpGame.WentOffscreenKeepsInv | js/main.js:159 | off-screen removal keeps the invariant |
| MultiJumpGame.SpawnAddsExactlyOne | js/main.js:134-189 | while the run lasts a spawn adds exactly one entity, never a kong, and reschedules; after game over it adds none and does not reschedule |
| MultiJumpGame.FoodSpawnIgnoresLive | js/main.js:151-162 | for every state with the run on, a score above 2000, a draw above 0.92 and the bolt guard failing, a spawn adds one food however many foods are live |
| MultiJumpGame.SecondFoodPossible | js/main.js:162 | with one food live, a score of 3000 and a draw of 0.93, a spawn makes a second live food |
| MultiJumpGame.EarlierTimerEndsLaterWindow | js/main.js:221-229 | after two foods in a row, the first pickup's timer turns multi-jump off while the second's is still pending |
| MultiJumpGame.BoltThenFlipBack | js/main.js:232-270 | a daylight bolt hit followed by its flip-back leaves the run as it was, except that no entity is left and the picture is plain |
| MultiJumpGame.ExactlyOneFloor | js/main.js:110-270 | in every state satisfying the invariant there is exactly one floor, at the top exactly when upside down |
| MultiJumpGame.NightCheckGuards | js/main.js:274-300 | an onset is scheduled exactly when all five conditions hold; without them darkness is cleared unless upside down; upside down nothing changes |
| MultiJumpGame.FramesWhileRunning | js/main.js:315-326 | while the run lasts, `n` frames add exactly `n` points and the boosts count the thousands reached |
| MultiJumpGame.FramesAfterGameOver | js/main.js:315-326 | after game over the score is frozen, but a run that ended on a multiple of 1000 gains one boost every frame |
| Variants.SpawnersAgreeButForKong | main.js:168-216 | with no live bolt or food, the kong variant picks what the multi-jump variant picks, except that a tree drawn above 0.87 becomes a kong when none is live |
| Variants.PicksDifferOnlyByGates | js/main.js:150-186 | the two picks differ only where the kong variant's extra rules apply: a live bolt or food blocks the multi-jump pick, or a tree becomes a kong |
| Variants.JumpsAgreeWithoutMultiJump | js/main.js:112-126 | with multi-jump off, both jump handlers decide alike on the same flags and physics report |

## Left out

- The welcome scene, the title animation, the translated strings and the version label are left out. They are user interface only.
- Loading assets, sounds and shaders is left out. So are `play`, `addKaboom`, `shake`, the "Game Over" and "night is falling" labels, and the light shader's parameters. Of `usePostEffect`, only which effect is in use is kept (`PostEffect`).
- The HUD labels' pixel positions are left out. They are screen geometry.
- The physics engine is left out. `isGrounded`/`isFalling`/`isJumping` are a `Body` value passed to `Jump`. Collision detection is the host calling a `Collide…` method while an entity of that tag is live. Off-screen destruction is the `Offscreen` method.
- The screen height is a parameter of `SpawnItem`, and `rand(0, 1)` is the parameter `r`. Random draws that only set durations or sizes are left out. These are `rand(1, 2)`, `rand(8, 15)` and the tree height `rand(32, 96)`.
- Timers carry no durations. A pending timer is a counter in `Pending`, and its expiry is a method the environment may call while the counter is positive. Because the order of expiries is left to the caller, every order the real clock allows is covered. Fixed durations that would rule some orders out are not modelled.
- Run.Speed: `speed *= 1.1` is modelled as a count of boosts, with the exact real 480 × 1.1^boosts. Floating-point rounding is not modelled.
- Entity identity and position are left out. The live entities are a count per tag, and the floor is a count of floors at each edge. The collision handlers destroy "that" entity, and the counts record only its tag.
- Pausing every object at game over is left out (`obj.paused`). So are the kong sprite's vertical flip and the horizontal movement of items.
- Upside down, the spawner assigns the string `"topleft"` to the anchor variable instead of an `anchor("topleft")` component. `Place` records the edge that results, the top one, because that is the engine's default anchor.
- Each variant's destroyAll sequence on a bolt hit or flip-back is modelled as "no tagged entity is left" (`items := Empty`). `DestroyEveryTag` and `DestroyAllButKong` prove that the sequence leaves exactly that. The multi-jump variant never destroys kongs, and its invariant says none is ever live.
- The restart itself is left out: `go("game", …)` leaving the scene and entering a new one. `Jump` returns `Restart(best)`, and `CrashAndRestart` builds the next `Run` from it.
