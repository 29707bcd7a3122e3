# TestGame scene rules in Dafny

This project models the game rules of the SpriteKit scene `GameScene` of
TestGame, a small iOS shooter: the player at the bottom of the screen
shoots bullets upward at bouncing balls. A ball bigger than radius 20
splits in two when hit. A ball that touches the player costs a life, and
at zero lives the game is over and the score is saved to a list of the
last ten scores. That list is what the high-score screen `ScoreRecords`
shows, with the best score highlighted.

The modules:

- `Wrappers`: `Option`.
- `SceneGraph`: the scene's children as values (`Node`: identity, name,
  shape, position, velocity). Also `childNode(withName:)` as `FirstNamed`,
  the hit test as `HitsNamed`, `contains` as `Contains`, and removal from
  the parent as `Removing` / `Without`.
- `GameRules`: the scene's constants and the nodes it builds. Also the
  three contact rules on the names of the two bodies, the swipe test, the
  ball split, the landing test, and the registry invariant on the children
  (`Registered`: distinct identities, all handed out, every ball a circle
  of radius 10 to 25, the player a 50×50 sprite).
- `ScoreHistory`: the list rule of `saveScore` (`Saved`) and its effect
  over many games (`SaveAll`).
- `ScoreRecords`: `bestScore` and the rows the high-score list shows.
- `Game`: the class `GameScene`, whose fields are the scene's fields and
  whose methods are its handlers. `State()` takes a snapshot of all of
  them as a `SceneState`. Each method's contract says which function of
  the old snapshot the new one is (`JumpOf`, `GameOverOf`, `RestartOf`,
  `ContactOutcome`, …). The lemmas beside those functions state what the
  game promises: contact rules, guards, idempotence, and the state after
  game over and after a restart. `Valid()` is the invariant that every
  handler keeps:
  - the shooting timer exists exactly while shooting;
  - the score is a non-negative multiple of 10;
  - there are never more than three lives;
  - the children are registered;
  - the scene is at least 100 wide, so that `spawnBall`'s random range
    `50...(width - 50)` is not empty.

How the engine around the scene is represented:

- **Physics contacts** are inputs to `DidBegin`: the two bodies' nodes as
  they are when the engine reports them, `None` for a body whose node is
  gone.
- **Random draws** are parameters constrained to the source's ranges:
  radius 15 to 25, x from 50 to width − 50, x velocity −200 to 200. A
  spawned ball is a `BallDraw`; the halves of a split ball get
  `leftVx`/`rightVx`.
- **Timers** are flags. Each firing is a method that requires its flag:
  `ShootingTimerFired`, `BallTimerFired`.
- **The physics impulse of a jump and the "exitToMenu" notification** are
  appended to an output list `events`.
- **`nodes(at:)`** is given as the set of identities of the children
  under the touch.
- **The positions and velocities the engine computes** arrive through
  `EngineMoved`, called between handlers. It keeps the same nodes in the
  same order. `update` reads the player body's vertical velocity from the
  player node's `vel`, which that step sets.
- **`UserDefaults`** is represented by the field `savedScores`, which
  holds the stored list.

## Model

| member | source | states |
|---|---|---|
| SceneGraph.FirstNamed | TestGame/GameScene.swift:258 | childNode(withName:) gives the first child carrying the name, and none exactly when no child carries it |
| SceneGraph.RemovingMembers | TestGame/GameScene.swift:119 | after removeFromParent a node is a child exactly when it was one before and is not the removed one (or, for update's sweep, not a bullet above the top) |
| GameRules.ContactRulesSymmetricAndExclusive | TestGame/GameScene.swift:109-137 | each of the three contact rules is independent of body order, and a contact matches at most one of them |
| GameRules.BulletBallRoles | TestGame/GameScene.swift:116-117 | in a bullet–ball contact the node taken as the bullet is named "bullet", the one taken as the ball is named "ball", and they are different nodes |
| GameRules.UnnamedFloorNeverLands | TestGame/GameScene.swift:48-58 | the floor as added has no name, so no contact with it matches the player–floor rule in either order |
| GameRules.NamedFloorLands | TestGame/GameScene.swift:132-134 | with the floor named "floor", a player–floor contact matches the rule in either order |
| GameRules.JumpSwipeCone | TestGame/GameScene.swift:282-286 | the swipe test (IsJumpSwipe) holds exactly when the end lies more than 50 above the start and strictly between the two upward diagonals through it; a swipe and its left–right mirror image agree |
| GameRules.SwipeExamples | TestGame/GameScene.swift:282-288 | a straight 60-up swipe jumps; a swipe 30 up and 40 sideways, one exactly 50 up, and a downward one do not |
| GameRules.SplitChildren | TestGame/GameScene.swift:121-128 | a ball of radius above 20 yields exactly two balls of half its radius at (x − 20, y) and (x + 20, y) with the next two identities; any other ball yields none |
| GameRules.SplitIsOneLevel | TestGame/GameScene.swift:121-128 | the halves of a spawned ball (radius 15 to 25) are well formed and never split again |
| GameRules.SweepKeepsTheRest | TestGame/GameScene.swift:295-299 | after the sweep no bullet is above the top edge, and every other child is still there and nothing was added |
| GameRules.LandingExamples | TestGame/GameScene.swift:301-304 | the landing test (Landed) on the player node's own position and body velocity: the player still at its start height has landed. At the top of a jump (still, but 120 high) it has not. Still moving (vy −5), or at vy exactly 0.1, it has not. At exactly 70 high and still, it has |
| ScoreHistory.Newest | TestGame/GameScene.swift:361-363 | keeps the first ten entries, or the whole list when it is shorter |
| ScoreHistory.Saved | TestGame/GameScene.swift:358-365 | the saved list starts with the new score, followed by a prefix of the old list, and has at most ten entries |
| ScoreHistory.SaveAllKeepsNewestTen | TestGame/GameScene.swift:358-365 | after one or more games the stored list is their scores, newest first, followed by the earlier list, cut to ten |
| ScoreHistory.ElevenGamesKeepTen | TestGame/GameScene.swift:358-365 | after eleven games from an empty list, the first game's score has dropped out and the other ten remain, newest first |
| ScoreHistory.SaveExample | TestGame/GameScene.swift:358-365 | the games 3, 5, 9 are stored as [9, 5, 3] |
| ScoreRecords.BestScore | TestGame/ScoreRecords.swift:13-15 | 0 for an empty list; otherwise at least every entry and equal to one of them |
| ScoreRecords.Rows | TestGame/ScoreRecords.swift:23-30 | at most ten rows: row i shows game i + 1 and the i-th stored score, and it is highlighted exactly when that score equals the best score |
| ScoreRecords.HighlightedIsBest | TestGame/ScoreRecords.swift:29-30 | a highlighted row holds a score that no stored score beats |
| ScoreRecords.SavedListHighlightsBest | TestGame/ScoreRecords.swift:23-30 | a list saveScore stored always has a highlighted row |
| ScoreRecords.BestBeyondTenHighlightsNothing | TestGame/ScoreRecords.swift:23-30 | when an entry beyond the tenth beats all of the first ten, no row is highlighted |
| Game.ContactOrderIrrelevant | TestGame/GameScene.swift:109-117 | a contact has the same outcome whichever body the engine reports first |
| Game.MissingNodeIgnored | TestGame/GameScene.swift:106-107 | a contact where one body has no node changes nothing |
| Game.BulletBallContact | TestGame/GameScene.swift:112-129 | a bullet–ball contact adds exactly 10 points and removes the bullet and the ball. It keeps every other child, adds the ball's halves (two when the radius exceeds 20, none otherwise) and nothing else, and advances the next identity by the number of halves. Every other field of the scene is unchanged |
| Game.PlayerBallContact | TestGame/GameScene.swift:137-143 | a player–ball contact costs exactly one life, and gameOver runs exactly when no life is left |
| Game.PlayerFloorContact | TestGame/GameScene.swift:132-134 | a player–floor contact clears isJumping and changes nothing else |
| Game.StopShootingIdempotent | TestGame/GameScene.swift:329-333 | stopShooting leaves the scene not shooting and without a shooting timer; a second call changes nothing |
| Game.StartShootingWhenShooting | TestGame/GameScene.swift:317-320 | startShooting changes nothing when already shooting, and always leaves the scene shooting with a timer |
| Game.JumpGuarded | TestGame/GameScene.swift:308-315 | while jumping, jump changes nothing. A jump that changes the scene was not jumping, sets isJumping and applies exactly one impulse of 40. Jumping twice is jumping once |
| Game.GameOverStopsEverything | TestGame/GameScene.swift:162-172 | after gameOver the scene is paused with no touch, no shooting, no shooting or ball timer, and the final score saved at the front of the list |
| Game.GameOverTwiceSavesTwice | TestGame/GameScene.swift:162-172 | gameOver is not guarded: running it twice saves the score twice |
| Game.RestartStartsAfresh | TestGame/GameScene.swift:210-232 | after restartGame the scene is unpaused with score 0 and three lives, not shooting, and has one ball timer and no touch. Its children are the two HUD labels, the floor, the player and exactly one ball, with no bullet |
| Game.GameScene.constructor | TestGame/GameScene.swift:31-46 | the presented scene has score 0, three lives, the HUD, floor, player and one drawn ball, a ball timer and nothing else running |
| Game.GameScene.AddHud | TestGame/GameScene.swift:335-356 | lives back to 3, the score zeroed only when asked, and the two labels added |
| Game.GameScene.AddFloor | TestGame/GameScene.swift:48-58 | adds the floor, a full-width sprite 20 high at y = 10, named "floor" (the corrected floor; see Findings) |
| Game.GameScene.AddPlayer | TestGame/GameScene.swift:60-76 | adds the 50×50 player at the bottom centre |
| Game.GameScene.SpawnBall | TestGame/GameScene.swift:78-103 | adds one ball of the given radius, position and x velocity with the next identity |
| Game.GameScene.Shoot | TestGame/GameScene.swift:146-160 | adds one bullet of radius 10 at the position, moving up at 600 |
| Game.GameScene.SaveScore | TestGame/GameScene.swift:358-365 | the stored list becomes Saved(old list, score) |
| Game.GameScene.DidBegin | TestGame/GameScene.swift:105-144 | for a contact whose nodes are the scene's current children with those identities (or have left the scene), the scene becomes ContactOutcome of the old scene, keeping the scene invariant |
| Game.GameScene.ResolveHit | TestGame/GameScene.swift:112-129 | score + 10, the bullet and the ball removed, the halves of the ball appended with the next identities |
| Game.GameScene.LoseLife | TestGame/GameScene.swift:137-143 | one life less, then gameOver when none is left |
| Game.GameScene.GameOver | TestGame/GameScene.swift:162-208 | the scene becomes GameOverOf the old one: halted, score saved, the overlay and its buttons added |
| Game.GameScene.Halt | TestGame/GameScene.swift:163-171 | paused, touch forgotten, shooting stopped, both timers invalidated |
| Game.GameScene.ShowGameOver | TestGame/GameScene.swift:174-207 | the overlay, the label and the Restart and Main Menu buttons appended |
| Game.GameScene.RestartGame | TestGame/GameScene.swift:210-232 | the scene becomes RestartOf the old one; isJumping and the saved scores are untouched |
| Game.GameScene.Resume | TestGame/GameScene.swift:212-222 | unpaused, score 0, shooting stopped, both timers invalidated, touch forgotten |
| Game.GameScene.SetUpPlayfield | TestGame/GameScene.swift:225-227 | appends the floor, the player and one drawn ball |
| Game.GameScene.TouchesBegan | TestGame/GameScene.swift:236-261 | a restart button under the touch restarts; otherwise a menu button posts the exit event; otherwise a paused scene restarts; otherwise the touch is remembered and shooting starts when it is on the player. No touch changes nothing |
| Game.GameScene.TouchesMoved | TestGame/GameScene.swift:263-274 | when not paused, the player follows the touch horizontally and shooting stops if the touch is no longer on the player; otherwise nothing changes |
| Game.GameScene.TouchesEnded | TestGame/GameScene.swift:276-292 | jumps exactly when there is a start touch, dy > 50 and dy > abs(dx), and always stops shooting |
| Game.GameScene.Update | TestGame/GameScene.swift:294-306 | every bullet above the top edge is removed, everything else kept in order; isJumping is cleared when the player's body velocity is nearly zero vertically (abs(vy) < 0.1) and it is at most 70 high |
| Game.GameScene.EngineMoved | TestGame/GameScene.swift:35-36 | a step of the physics world: the children take the positions and velocities the engine gives them, with the same nodes in the same order, and nothing else changes |
| Game.GameScene.Jump | TestGame/GameScene.swift:308-315 | the scene becomes JumpOf the old one |
| Game.GameScene.StartShooting | TestGame/GameScene.swift:317-327 | the scene becomes StartShootingOf the old one |
| Game.GameScene.StopShooting | TestGame/GameScene.swift:329-333 | not shooting and no shooting timer, nothing else changed |
| Game.GameScene.ShootingTimerFired | TestGame/GameScene.swift:320-326 | one bullet 40 above the player, or nothing when there is no player |
| Game.GameScene.BallTimerFired | TestGame/GameScene.swift:43-45 | one drawn ball appended at 50 below the top |

## Left out

- Physics simulation: SpriteKit gravity, restitution, damping, friction,
  edge loops, collision bitmasks and contact generation belong to the
  engine. Contacts are inputs to `DidBegin`. An impulse is an output event.
  Node velocities are recorded as they are set. How the engine moves the
  nodes is not computed. The new positions and velocities are an input to
  `EngineMoved`, which the environment calls between handlers. So
  `Update`, `ShootingTimerFired`, `TouchesBegan` and `TouchesMoved` read
  the positions of the last engine step, as the source reads the engine's
  current ones.
- Game.GameScene.AddFloor: adds a floor named "floor". The source's
  `addFloor` sets no name (see Findings), so in the source the floor never
  has one. As a result the floor the constructor and `RestartStartsAfresh`
  describe has a name the program's floor lacks, and a player–floor
  contact clears `isJumping` in the model. `GameRules.FloorNodeAsWritten`
  is the floor as the source builds it.
- Timers: scheduling and repetition are not modelled. A timer is a flag
  and each firing is an explicit call. The weak capture in the shooting
  timer is not modelled.
- Coordinates, radii and velocities: CGFloat (a Double) becomes an exact
  `real`. Rounding at the thresholds (dy > 50, r > 20, abs(vy) < 0.1,
  y ≤ 70) is not modelled.
- Game.GameScene.constructor: requires a scene at least 100 wide. A
  narrower scene traps in `CGFloat.random(in: 50...(frame.width - 50))`
  (GameScene.swift:86) the first time a ball spawns, and that trap is not
  modelled.
- Randomness: `CGFloat.random` is not modelled; the drawn values are
  parameters in the source's ranges.
- `DidBegin`: it takes a ball's radius as drawn, not as
  `shape.frame.width / 2`, which adds the stroke width. It treats a ball
  as an `SKShapeNode` circle, as every ball node is.
- `SceneGraph.Contains`: it treats a node's frame as a rectangle centred
  on its position. A label's extent is not modelled (the hit test is
  given as input instead).
- Labels, fonts, colours, z-positions and the label texts ("Score: …",
  "Lives: …") are not modelled; the labels are present as children.
- `UserDefaults` reading and writing: only the list transformation is
  modelled. The scene's field `savedScores` holds the stored list, and the
  high-score screen takes the list as a parameter.
- `didMove(to:)` is folded into the constructor, because the scene is
  presented once.
- `Update`: the bullet sweep removes children in place in the source. The
  model builds the list of kept children in a loop and then assigns it.
  The result, order included, is the same.
- `TouchesBegan`, `TouchesMoved`, `TouchesEnded`: only the first touch of
  the set is used, as in the source. An empty set is `None`.
- `SwiftUI` views, navigation, settings and audio (`MainMenuView.swift`,
  `GameContainerView.swift`, `SettingsView.swift`, `ContentView.swift`,
  `AudioManager.swift`) contain no game rules and are not part of this
  model.

## Findings

| source | as written | input that shows it | evidently intended | confidence | as-written member | corrected member |
|---|---|---|---|---|---|---|
| TestGame/GameScene.swift:48-58 | `addFloor` never sets the floor's `name`, so the player–floor rule in `didBegin` (line 132) can never match, and a landing only ever clears `isJumping` through the fallback in `update` | any contact between the player and the floor | the floor is named "floor", so that touching it clears `isJumping` | high; not executed | GameRules.UnnamedFloorNeverLands | GameRules.NamedFloorLands |

The scene in `Game` adds the corrected floor (`GameRules.FloorNode`).
`GameRules.FloorNodeAsWritten` is the floor as the source builds it.
