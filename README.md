# scrollGame: the rules of the game scene, verified

scrollGame is an endless side-scroller. The player runs over generated ground
segments and jumps with taps, twice at most before landing. Points come from
distance survived, and the run ends when the player hits the wall at the
front of a segment. This project models the rule-based part of `GameScene` as
a plain state machine and proves in Dafny what those rules guarantee. The
SpriteKit rendering and the physics engine are left out.

Modules, one per component of the scene:

- `JumpMachine` (jump.dfy): the `Ground → Air → Jumped` machine a tap drives.
  It also holds the impulses a tap requests, one per touch, and lemmas over
  runs of taps and landings.
- `Progression` (progression.dfy): the `speedUp` counter and the per-frame
  time gate that paces terrain generation. World speed is counted in integer
  tenths: 17 at the start, +1 per rise.
- `Terrain` (terrain.dfy): the height chosen for each new segment, the base
  height, the coin `getRundom(0.5)`, and the number of underground tiles.
- `Scoreboard` (scoreboard.dfy): the rank of a score among the stored
  records (`getRanking`), and the best record the title screen shows.
- `Game` (game.dfy): class `GameState`. It holds `jump`, `gameOver`, `score`,
  `speedUpCount`, `escapeHeight`, `last`, the world and player speeds and the
  record store. It has one method per scene event. Its invariant `Valid()`
  says four things:
  - the counter is `score % 7`, and the world speed is `17 + score / 7`
    until the death animation stops it;
  - only the end of the death animation stops the world and the player,
    and only after the run is over;
  - the store holds at most one new record per run, and only a top-ten score;
  - every spawned segment, with the coin tossed for it (a ghost history),
    is an exact copy of its predecessor's height when the coin was false and
    a fresh height in [base, 4·base) when it was true.
- `Scenarios` (scenarios.dfy): whole runs driven through `GameState`'s
  contracts. One is a double wall hit, one covers the end of a run and the
  restart, and one is a triple tap.

Randomness (`arc4random_uniform`) and the frame time are parameters of the
methods. The predicate `UniformDraw` states the range each draw comes from.

Some of the code does something other than its comments or names suggest.
The model follows the code:

- `speedUp` raises the speed on every 7th call. The comment at
  GameScene.swift:276 speaks of a speed-up every 10 squares, but the counter
  is tested with `> 5` before it is incremented, so it runs 0..6 and the call
  after 6 raises the speed.
- The first segment takes the base height when the coin does not call for a
  draw (GameScene.swift:215-222). Only a true coin draws a new height.
- Terrain ticks go on after the run has ended, until the death animation has
  set the world speed to 0 (GameScene.swift:171-176). Scoring and speed-up
  stop at once.
- A tap after the run, once both speeds are 0, shows the title screen
  (GameScene.swift:310-314). A new run is a new `GameState`, created when the
  title screen is tapped (`Scenarios.EndOfRun`).
- Ground and wall are tested independently in `didBeginContact`, each by
  comparing a body's whole category with `==` (GameScene.swift:330-336). A
  contact whose two bodies are a ground and a wall would do both. The contact
  masks (GameScene.swift:145-146, 233, 258) only produce contacts of the
  player with a ground or a wall body, and each of those is exactly one of
  the two (`Game.ContactClassification`).

## Model

| member | source | states |
|---|---|---|
| JumpMachine.JumpsUsed | GameScene.swift:52-61 | the jump states stand for 0, 1 and 2 jumps used since landing; only `Ground` uses none |
| JumpMachine.AfterTap | GameScene.swift:290-307 | a tap while playing uses one more jump, up to two: Ground→Air, Air→Jumped, Jumped stays |
| JumpMachine.TapImpulse | GameScene.swift:291-306 | a tap requests an impulse exactly when a jump is left; it is positive, and the second one is weaker than the first |
| JumpMachine.RequestImpulses | GameScene.swift:293-304 | one impulse request of the given strength per touch: as many requests as touches, all equal |
| JumpMachine.NoTripleJump | GameScene.swift:288-307 | n taps with no landing in between make exactly min(n, jumps left) jumps and end at min(used + n, 2) jumps used: never a third jump |
| JumpMachine.JumpsBoundedByLandings | GameScene.swift:288-333 | over any stream of taps and ground contacts, the jumps made are at most the jumps left at the start plus two per landing |
| JumpMachine.LandingResets | GameScene.swift:330-333 | after a ground contact, what taps do no longer depends on the state before the contact |
| JumpMachine.TapsRun | GameScene.swift:288-307 | a stream of taps alone behaves like n steps of the tap transition |
| Progression.SpeedUpStep | GameScene.swift:275-283 | one `speedUp` call: raises the speed by one tenth and resets the counter to 0 exactly when the counter exceeds 5, otherwise counts up; the counter always ends in 0..6 and the speed never falls |
| Progression.SpeedUpsClosedForm | GameScene.swift:275-283 | from any counter in 0..6, n calls put the counter n places further round a cycle of 7 and raise the speed once per completed cycle |
| Progression.SpeedRisesEverySeventhCall | GameScene.swift:275-283 | from a fresh counter, n calls give counter n mod 7 and speed + n div 7; the speed rises on the call after counter 6 and on no other call |
| Progression.PaceFollowsScore | GameScene.swift:176-181 | if counter and speed are those of `score` scored ticks, one more `speedUp` makes them those of `score + 1` ticks |
| Progression.Interval | GameScene.swift:171 | the tick interval `0.6 / speed` is finite exactly when the speed is non-zero, and interval × speed (in tenths) is 6 |
| Progression.GateFires | GameScene.swift:171-172 | a tick fires only while the world moves and only after time has advanced past the last tick |
| Progression.GateFiresIff | GameScene.swift:171-172 | a tick fires exactly when the speed is non-zero and elapsed time × speed (in tenths) reaches 6 |
| Progression.FirstFrameNeverFires | GameScene.swift:166-172 | the first frame, where `last` is set to the current time, never fires a tick |
| Progression.FasterWorldFiresSooner | GameScene.swift:171-172 | whenever a slower world would fire a tick, a faster one fires too |
| Terrain.BaseHeight | GameScene.swift:213 | the base height is the frame height divided by 12, truncated toward zero |
| Terrain.ChanceRange | GameScene.swift:115-117 | `UInt32(1 / rate)` is the truncated reciprocal of the rate, at least 1 |
| Terrain.CoinIsFair | GameScene.swift:115-117 | `getRundom(0.5)` draws from two values; it is true on draw 0 and false on draw 1 |
| Terrain.ChanceIsRate | GameScene.swift:114-117 | `getRundom(rate)` is true on exactly one of the `UInt32(1 / rate)` possible draws (draw 0), so its chance is at least `rate` |
| Terrain.ChooseHeight | GameScene.swift:213-223 | with no draw, the new height is the previous segment's height, or the base height for the first segment; with a draw, it is draw + base, in [base, 4·base) (0 when the base is 0) |
| Terrain.ChosenHeightFollowsRule | GameScene.swift:213-223 | appending a height chosen from the previous one, with its coin, keeps the history lawful: a height is an exact copy of its predecessor (the base height first) where the coin was false, a fresh draw where it was true |
| Terrain.HeightsInRange | GameScene.swift:213-223 | under that rule every segment height lies in [base, 4·base) |
| Terrain.CopiesKeepHeight | GameScene.swift:217-223 | a stretch of segments spawned with false coins all have the height of the segment before the stretch |
| Terrain.UndergroundTiles | GameScene.swift:239-241 | `Int(1 + h / tileHeight)` tiles: at least one, and the tiles cover the height with less than one tile too many |
| Scoreboard.CountAbove | GameScene.swift:377 | the number of records above a score is at most the number of records |
| Scoreboard.Rank | GameScene.swift:375-378 | the rank lies in [1, records + 1] and is 1 on an empty store |
| Scoreboard.CountAboveIsCardinality | GameScene.swift:376-377 | the count equals the number of stored records whose score is strictly greater |
| Scoreboard.RankAfterInsert | GameScene.swift:375-391 | appending a record moves a score down one place exactly when the new record beats it |
| Scoreboard.RankOfRegisteredScore | GameScene.swift:375-391 | registering a score leaves that score's rank unchanged (ties do not demote) |
| Scoreboard.RankMonotone | GameScene.swift:375-378 | a higher score never ranks worse |
| Scoreboard.RankFirstIff | GameScene.swift:375-378 | a score ranks first exactly when no stored record beats it |
| Scoreboard.RankExamples | GameScene.swift:375-378 | against 100, 90, 80: 95 ranks 2nd and 80 ranks 3rd, and a second 80 also ranks 3rd |
| Scoreboard.BestScore | TitleScene.swift:42-43 | the best record is absent exactly on an empty store; otherwise it is a stored score no record exceeds |
| Scoreboard.BestScoreRanksFirst | TitleScene.swift:42-43 | the best record ranks first |
| Game.ContactClassification | GameScene.swift:326-336 | for every contact the scene's bodies produce (the player against a ground or a wall body, either order), `TouchesGround` and `TouchesWall` classify it as exactly one of a landing and a wall hit |
| Game.CategoriesComparedExactly | GameScene.swift:330-336 | the tests compare whole masks with `==`: a mask with the ground and wall bits together is neither, and the player's category is neither |
| Game.GameState.constructor | GameScene.swift:64-88 | a run starts on the ground and not over, with score 0, counter 0, no last tick and no previous segment; world speed is 1.7 and player speed 1.0; the store is the given one, and the invariant holds |
| Game.GameState.Update | GameScene.swift:164-185 | `last` is taken from the first frame, and that frame never fires; a tick fires exactly when the gate says so and then moves `last` to now; each tick spawns a segment under the height rule; only while playing does it add exactly 1 to the score and step the speed; jump, run state and store are untouched |
| Game.GameState.Tick | GameScene.swift:173-181 | a fired tick spawns one segment under the height rule; only while playing does it add exactly 1 to the score and take one speed-up step; the invariant is kept |
| Game.GameState.SetupNewGround | GameScene.swift:196-223 | `escapeHeight` becomes the chosen height; that height and its coin are appended to the spawned history, which keeps the height rule |
| Game.GameState.ScoreUp | GameScene.swift:269-272 | the score grows by exactly 1 |
| Game.GameState.SpeedUp | GameScene.swift:275-283 | counter and world speed take one `speedUp` step |
| Game.GameState.TouchesBegan | GameScene.swift:286-317 | while playing: one step of the jump machine per call, and one impulse per touch when a jump is left. Once over: the jump is unchanged and there are no impulses; the title screen is requested exactly when the death animation has stopped both speeds |
| Game.GameState.DidBeginContact | GameScene.swift:320-353 | once over, nothing changes. While playing: a ground body makes the jump `Ground`; a wall body ends the run and appends one record of the current score exactly when its rank is at most 10. Score, speeds, clock and terrain are untouched |
| Game.GameState.EndRun | GameScene.swift:335-350 | a wall contact while playing ends the run, puts the fresh dead sprite at the default speed and appends the current score exactly when its rank against the store is at most 10; the invariant is kept |
| Game.GameState.SetGameOverAnim | GameScene.swift:356-372 | the player is replaced by the dead sprite, a new node at the default speed 1.0 |
| Game.GameState.RegisterNewScore | GameScene.swift:381-391 | the store gains exactly one record, the current score, at its end |
| Game.GameState.DeathAnimationFinished | GameScene.swift:366-370 | world and player speed become 0, which is the state in which a tap may leave the run |
| Scenarios.WallHitTwice | GameScene.swift:320-353 | after one scored tick and two wall contacts, the store holds the old records plus at most the one score 1, and only if it ranks in the top ten |
| Scenarios.EndOfRun | GameScene.swift:309-315 | a tap before the death animation ends does not leave the run; one after it does; the next run starts with score 0 at speed 1.7 |
| Scenarios.DoubleJump | GameScene.swift:288-333 | three taps from the ground request 33, then 13, then nothing; after a ground contact a tap requests 33 again |

## Left out

- Rendering, sprites, textures, labels, audio and `SKAction` sequences: these are framework presentation. So are segment placement, scrolling and removal (GameScene.swift:64-161, 198-211, 224-265, 356-365). The console output `print(ranking)` (GameScene.swift:343) is left out too: it is a debug trace with no effect on the game.
- Physics simulation: gravity, the effect of the impulses, and collision resolution. The model records only the impulse each touch requests. Contacts arrive as the category masks of the two bodies.
- `checkPlayerLocation` (GameScene.swift:188-193): a floating-point band test that only starts a nudge animation.
- The initial ground tiling and the pixel positions of walls and underground tiles (GameScene.swift:96-111, 243, 249-251): CGFloat layout that depends on texture sizes. Only the tile count is modelled, with an integral tile height.
- Realm persistence (`try! Realm()`, `realm.write`) and the record timestamp. The store is an in-memory sequence of scores, passed to the constructor.
- `Game.GameState.Update`: the new segment's block is scheduled with `runAction` and runs after `update` returns. The model runs its height step inside `Update`. Nothing reads `escapeHeight` in between, so the order is not observable.
- `Game.GameState.Update`: speeds are exact tenths and the gate uses exact reals. Accumulated floating-point error in `1.7 + 0.1 + …`, and the rounding of `0.6 / speed`, are not modelled.
- `Game.GameState.DeathAnimationFinished`: the animation's 2-second duration and its async scheduling are not modelled. The completion is an event the caller delivers after the wall contact.
- Swift's trapping on integer overflow (`score + 1` as `Int`, `baseHeight * 3` as `UInt32`) is not modelled. Integers are unbounded.
- GameViewController.swift and the rest of TitleScene.swift (labels and scene switching) are not part of this model. Of TitleScene.swift only the best-record query is kept.
