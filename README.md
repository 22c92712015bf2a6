# Xonix in Dafny

A verified model of the gameplay core of a terminal Xonix game written in
Rust. The player walks over the Land border of a board and out onto the Sea.
Each Sea field it leaves becomes trail (Sand). When the trail reaches Land
again, the player captures area: a breadth-first flood from every sea enemy
marks the water they can reach, and every field the flood did not reach
becomes Land. Sea enemies bounce off Land. Land enemies bounce off everything
that is not Land. Touching the trail or an enemy costs a life. Filling more
than a fifth of the board's interior wins the level.

The game runs a stack of screens (welcome, play, game over) and a queue of
input events. Only the top screen receives ticks and events. Each screen
answers with a transition that pushes a screen, replaces the top, or does
nothing.

The model is organised as follows.

| file | module | models |
|---|---|---|
| `geometry.dfy` | `Geometry` | positions, the nine directions, the random diagonal |
| `models.dfy` | `Models` | the `Board` class, with the flood fill, sweep, clean and fill ratio proved against a reference definition of capture (`Filled`) |
| `navigation.dfy` | `Navigation` | events, transitions and how a transition changes the stack |
| `playscreen.dfy` | `PlayScreen` | the `PlayState` class: move, bounce, collision, reset, the delay state machine of `update`, and the closed type of screens |
| `welcome.dfy`, `gameover.dfy` | `WelcomeScreen`, `GameOverScreen` | the two stateless screens |
| `engine.dfy` | `Engine` | the `Game` class: screen stack and event queue |
| `legacy.dfy` | `Legacy` | the earlier prototype of the play screen (`src/game/states/play_state.rs`) |

Methods that change state in the original are methods of classes with
field-level `modifies` frames. Each of them is specified by a function of the
old state (`MovedPlayer`, `MovedFields`, `SeaBouncedAll`, `Filled`,
`Cleaned`, `PlayerStep`, …). The properties the game relies on are lemmas
about those functions, or invariants (`Valid`) that every method keeps.

The code's `Event` has `Tick`, `Quit`, `Up`, `Down`, `Left` and `Right`, and
`Navigation.Event` models exactly that set.

The model's `Board.remaining` is the Sea count of the last capture (the whole
interior on a new board). Laying trail turns Sea into Sand, and dying turns
the trail back into Sea, so this count always equals the current Sea plus the
trail laid since (`Board.Tallied`, part of the play screen's invariant). A
capture can only lower it, so it never grows within a level, which is why the
fill ratio never falls.

## Model

| member | source | states |
|---|---|---|
| Geometry.RandomDiagonal | src/game/states/play_state/mod.rs:72-80 | the direction picked is one of the four diagonals listed in `DIAGONALS` |
| Geometry.FlipsAreCommutingInvolutions | src/game/states/play_state/mod.rs:57-69 | flipping either component twice gives the direction back, and the two flips commute |
| Geometry.ComponentsSplitDirection | src/game/states/play_state/mod.rs:43-55 | the horizontal and vertical parts each zero the other axis; moving by one part and then the other is moving by the whole direction |
| Geometry.MovesCompose | src/game/states/play_state/mod.rs:17-24 | moving by NONE is the identity; two moves add their components; moving by `d` and then by its reverse returns to the start |
| Geometry.StepsAreTheNineConstants | src/game/states/play_state/mod.rs:33-41 | a direction is a legal step exactly when it is one of the nine direction constants; flips keep steps legal and diagonals diagonal |
| Models.Board.constructor | src/game/states/play_state/models.rs:22-39 | a w x h grid that is Land on the two outermost rows and columns and Sea inside; the fill ratio starts at 0, and the remaining count is the Sea of the new board |
| Models.InitialFields | src/game/states/play_state/models.rs:23-31 | the nested loops build exactly the initial grid, which is rectangular, bordered and has no DeepSea |
| Models.BorderRow | src/game/states/play_state/models.rs:26-30 | one row of the nested loop sets exactly the border fields of that row to Land |
| Models.InitialSeaCount | src/game/states/play_state/models.rs:92 | the total `(width - 4) * (height - 4)` the fill ratio is measured against is exactly the number of Sea fields of a new board, which has no Sand |
| Models.Board.RandomPositionOfType | src/game/states/play_state/models.rs:45-58 | when there is a field of the requested type, the position returned is on the board and holds that type |
| Models.Board.FillRatio | src/game/states/play_state/models.rs:92-93 | the ratio exceeds 0.2 exactly when 5 * remaining < 4 * total; it is 0 while all the interior is Sea and 1 once none is |
| Models.Board.WithinBounds | src/game/states/play_state/models.rs:96-99 | measured on the grid's first row and row count, on a width x height grid it holds exactly when the position lies in width x height |
| Models.Board.AtValid | src/game/states/play_state/models.rs:112-118 | on a valid board the field read is never DeepSea, and off the interior it is Land |
| Models.Board.WithinBoundsIsInGrid | src/game/states/play_state/models.rs:96-99 | on a valid board, `within_bounds` holds exactly when the position indexes the grid, that is, when it lies in width x height |
| Models.Board.Set | src/game/states/play_state/models.rs:120-124 | writing through the index changes only the field at that position |
| Models.Board.FloodFill | src/game/states/play_state/models.rs:61-74 | the breadth-first search keeps the flood invariant, changes only Sea fields into DeepSea, and leaves its start field not Sea |
| Models.Board.FloodAll | src/game/states/play_state/models.rs:76-78 | flooding from every enemy in turn keeps the flood invariant and leaves no enemy standing on Sea |
| Models.PathMarked | src/game/states/play_state/models.rs:61-78 | once the queue is empty, every field on a Sea path from an enemy has been marked DeepSea |
| Models.FloodComplete | src/game/states/play_state/models.rs:61-78 | once the queue is empty, every field reachable through Sea from an enemy has been marked DeepSea |
| Models.SweepRow | src/game/states/play_state/models.rs:82-89 | one row of the sweep turns DeepSea into Sea and Sea or Sand into Land, and counts the Sea fields that remain |
| Models.SweepMatchesFilled | src/game/states/play_state/models.rs:76-90 | flood plus sweep produce exactly the reference capture `Filled` |
| Models.Board.Sweep | src/game/states/play_state/models.rs:80-90 | the fields after the sweep are the swept grid, and the remaining count is its number of Sea fields |
| Models.Board.Fill | src/game/states/play_state/models.rs:60-94 | `fill` changes the fields into `Filled` of the old fields and the enemy positions, records the number of Sea fields left, which is at most the Sea before, leaves no trail, and keeps the board bordered |
| Models.FilledCount | src/game/states/play_state/models.rs:80-90 | a capture leaves no Sand and no more Sea than there was |
| Models.CountUpdate | src/game/states/play_state/models.rs:120-124 | writing one field moves it from the count of its old kind to the count of its new kind and leaves every other count alone |
| Models.FilledCells | src/game/states/play_state/models.rs:60-94 | after a capture no DeepSea or Sand is left and Land stays Land; a field is Sea exactly when it was Sea and reachable through Sea from an enemy |
| Models.FillIdempotent | src/game/states/play_state/models.rs:60-94 | capturing twice from the same enemies gives the same board as capturing once |
| Models.FilledValid | src/game/states/play_state/models.rs:60-94 | a capture keeps the board's size, its Land border and the absence of DeepSea |
| Models.ThresholdMatchesRatio | src/game/states/play_state/models.rs:92-93 | the fill ratio `1 - remaining / total` exceeds 0.2 exactly when 5 * remaining < 4 * total |
| Models.Board.Clean | src/game/states/play_state/models.rs:101-109 | every Sand field becomes Sea and nothing else changes; the board stays valid and the remaining count still tallies Sea and trail |
| Models.CountCleaned | src/game/states/play_state/models.rs:101-109 | after cleaning, the Sea count is the old Sea plus the old Sand, and no Sand is left |
| Models.CleanedCells | src/game/states/play_state/models.rs:101-109 | after cleaning no Sand is left, former Sand is Sea, and every other field is unchanged |
| Models.CleanedValid | src/game/states/play_state/models.rs:101-109 | cleaning keeps the board's size, its Land border and the absence of DeepSea |
| Navigation.Navigated | src/game/mod.rs:20-32 | Push appends the screen on top, Replace swaps only the top, None keeps the stack; the stack never shrinks |
| PlayScreen.HitPositionsShape | src/game/states/play_state/mod.rs:94-100 | three hit positions: the horizontal one keeps the enemy's row, the vertical one keeps its column, and the diagonal one is the corner they share |
| PlayScreen.SurroundedStep | src/game/states/play_state/mod.rs:187-204 | from a position whose eight neighbours are on the board, every legal step lands on the board |
| PlayScreen.InteriorSurrounded | src/game/states/play_state/mod.rs:187-204 | from an interior position, every field the sea-enemy look-ups index is on the board |
| PlayScreen.SeaBounced | src/game/states/play_state/mod.rs:187-204 | bouncing keeps the enemy's position and only changes the signs of its direction's components, so a diagonal stays diagonal |
| PlayScreen.LandBounced | src/game/states/play_state/mod.rs:212-232 | the same for land enemies, whose look-ups also treat positions off the board as blocking |
| PlayScreen.Moved | src/game/states/play_state/mod.rs:234-238 | the displacement of a move is the enemy's direction, and the direction is kept |
| PlayScreen.SeaMoved | src/game/states/play_state/mod.rs:206-210 | corrected move: the enemy moves by its direction exactly when the target is not Land, and otherwise stays where it is |
| PlayScreen.SeaMoveStaysInterior | src/game/states/play_state/mod.rs:206-210 | with the corrected move, an interior sea enemy stays in the interior |
| PlayScreen.SeaStepStaysInterior | src/game/states/play_state/mod.rs:187-210 | a whole tick of a sea enemy, bounces then corrected move, keeps it in the interior |
| PlayScreen.SeaMovedPlaced | src/game/states/play_state/mod.rs:206-210 | the corrected move keeps all sea enemies in the interior and heading diagonally |
| PlayScreen.SeaEnemyLeavesInterior | src/game/states/play_state/mod.rs:187-210 | as written, an enemy at (2, 5) heading south-west, with Land at (3, 6), ends the tick on the Land border at (1, 4) |
| PlayScreen.SeaEnemyReachesEdge | src/game/states/play_state/mod.rs:187-210 | as written, from (1, 4) heading north-west with (2, 5) captured, the enemy reaches (0, 3), and its next horizontal look-up is off the board |
| PlayScreen.PlayerMoveKeepsBoard | src/game/states/play_state/mod.rs:164-185 | the player's move keeps the player on the board and the border Land, and never turns Land into anything else; without a capture, at most the field left changes, from Sea to Sand; a capture leaves no Sand |
| PlayScreen.PlayerMoveKeepsTally | src/game/states/play_state/mod.rs:164-185 | without a capture the player's move keeps Sea plus Sand as it was; a capture strictly shrinks the Sea and leaves no Sand |
| PlayScreen.TrailKeepsBoard | src/game/states/play_state/mod.rs:171-172 | laying trail on a Sea field keeps the board a bordered play board |
| PlayScreen.Steering | src/game/states/play_state/mod.rs:368-386 | each arrow key selects its unit step, up and left negative; Tick and Quit keep the direction |
| PlayScreen.PlayState.constructor | src/game/states/play_state/mod.rs:127-162 | a fresh initial board; `level` sea enemies, each on a Sea field with a diagonal direction; the player stopped at the top middle; one land enemy at the bottom middle; no delay |
| PlayScreen.PlayState.SafeLookups | src/game/states/play_state/mod.rs:187-204 | in a valid play state every look-up of the sea-enemy bounce is on the board |
| PlayScreen.PlayState.MovePlayer | src/game/states/play_state/mod.rs:164-185 | the new player is `MovedPlayer` of the old one (stopped at the edge, stopped after a capture, else one step on); the new fields are `MovedFields` (trail laid on the Sea field left, a capture fills from the sea enemies); the remaining count never grows; the state stays valid |
| PlayScreen.PlayState.BounceSeaEnemy | src/game/states/play_state/mod.rs:189-202 | the three look-ups and flips of one sea enemy give `SeaBounced` |
| PlayScreen.PlayState.BounceLandEnemy | src/game/states/play_state/mod.rs:214-230 | the three look-ups and flips of one land enemy give `LandBounced` |
| PlayScreen.PlayState.BounceSeaEnemies | src/game/states/play_state/mod.rs:187-204 | every sea enemy is bounced, in order, and the state stays valid |
| PlayScreen.PlayState.BounceEachLandEnemy | src/game/states/play_state/mod.rs:212-232 | the in-place loop over the land enemies bounces each one, giving exactly `LandBouncedAll` |
| PlayScreen.PlayState.BouncedSeaEnemies | src/game/states/play_state/mod.rs:187-204 | the loop over the sea enemies bounces each one, giving exactly `SeaBouncedAll` |
| PlayScreen.PlayState.BounceLandEnemies | src/game/states/play_state/mod.rs:212-232 | every land enemy is bounced, and the state stays valid |
| PlayScreen.PlayState.MoveSeaEnemies | src/game/states/play_state/mod.rs:206-210 | every sea enemy takes the corrected move, and all of them stay in the interior |
| PlayScreen.PlayState.MovedSeaEnemies | src/game/states/play_state/mod.rs:206-210 | the loop over the sea enemies gives exactly `SeaMovedAll`, each enemy taking the corrected move |
| PlayScreen.PlayState.MoveLandEnemies | src/game/states/play_state/mod.rs:234-238 | every land enemy moves by its direction |
| PlayScreen.PlayState.FindCollision | src/game/states/play_state/mod.rs:240-262 | true exactly when the player's next field is Sand, a sea enemy's hit position is the player or Sand, or a land enemy's hit position is the player |
| PlayScreen.PlayState.SeaCollision | src/game/states/play_state/mod.rs:246-252 | true exactly when some sea enemy has a hit position that is the player or Sand |
| PlayScreen.PlayState.LandCollision | src/game/states/play_state/mod.rs:255-259 | true exactly when some land enemy has a hit position that is the player |
| PlayScreen.PlayState.SeaHitCheck | src/game/states/play_state/mod.rs:94-106 | `hit_check` of a sea enemy holds exactly when one of its three hit positions is the player or Sand |
| PlayScreen.PlayState.Reset | src/game/states/play_state/mod.rs:264-281 | the trail is cleaned away, the player is back at the start and stopped, and there is one land enemy at its start heading diagonally |
| PlayScreen.PlayState.HandleEvent | src/game/states/play_state/mod.rs:368-386 | the player's direction is steered and its position kept; the board, the enemies, the level, the score, the lives and the delay are unchanged (`Steered`), and the stack is left alone |
| PlayScreen.PlayState.Collide | src/game/states/play_state/mod.rs:307-315 | a collision costs a life; on the last life the game-over screen is pushed, otherwise the death delay of 20 ticks starts |
| PlayScreen.PlayState.Proceed | src/game/states/play_state/mod.rs:317-323 | player, sea enemies and land enemies move in that order, the sea enemies by the corrected move; the remaining count never grows; the next-level delay starts exactly when the fill ratio exceeds 0.2 |
| PlayScreen.PlayState.Advance | src/game/states/play_state/mod.rs:304-325 | a tick without a delay: bounce, then collide or move (the sea enemies by the corrected move), as described by `Ticked` |
| PlayScreen.PlayState.Update | src/game/states/play_state/mod.rs:285-326 | Death(0) resets and resumes, NextLevel(0) replaces the screen by a fresh one at the next level keeping score and lives, a running delay counts down with nothing else changing, no delay ticks (with the corrected sea move); level and score are kept and the remaining count never grows (`Updated`); only a lost last life pushes the game-over screen |
| WelcomeScreen.Update | src/game/states/welcome_state.rs:8-10 | a tick never changes the stack |
| WelcomeScreen.HandleEvent | src/game/states/welcome_state.rs:19-27 | the right arrow pushes a fresh play screen at level 1 with score 0 and 3 lives; other events change nothing |
| GameOverScreen.Update | src/game/states/game_over_state.rs:7-9 | a tick never changes the stack |
| GameOverScreen.HandleEvent | src/game/states/game_over_state.rs:18-20 | no event changes the stack |
| Engine.NavigatedKeepsBelow | src/game/mod.rs:20-32 | every transition keeps the screens below the top, and the new top is the old top or the transition's screen |
| Engine.Game.CurrentState | src/game/mod.rs:71-73 | the current state is the top of the stack |
| Engine.Game.Init | src/game/mod.rs:76-81 | no pending event and exactly one screen: a fresh play screen at level 1 with score 0 and 3 lives |
| Engine.Game.PushEvent | src/game/mod.rs:60-62 | the event is queued at the back |
| Engine.Game.Navigate | src/game/mod.rs:20-32 | the stack becomes `Navigated` of the old stack, never shrinks, keeps the screens below the top, and its new top can be ticked |
| Engine.Game.Update | src/game/mod.rs:56-58 | only the top screen is ticked: a top play screen changes as its own `update` describes (`Updated`) and the stack changes by the transition it returned; welcome and game-over never change the stack; a play screen replaces itself by the next level when its level is won, pushes game-over when its last life is lost, and otherwise leaves the stack alone |
| Engine.Game.HandleEvent | src/game/mod.rs:64-69 | with an empty queue nothing changes, neither the queue, the stack nor the top play screen and its board; otherwise the oldest event is removed and given to the top screen only: a play screen is steered and nothing else of it changes, the welcome screen starts a game on the right arrow, the game-over screen ignores it |
| Legacy.InitialBoard | src/game/states/play_state.rs:30-38 | the initial board is 20 x 8 |
| Legacy.BuildBoard | src/game/states/play_state.rs:30-38 | the nested loops of `new` build exactly the initial board |
| Legacy.InitialBoardBordered | src/game/states/play_state.rs:30-38 | on the initial board a field is Sea exactly when it is off the two-field border, so the border is Land |
| Legacy.HardenRow | src/game/states/play_state.rs:73-77 | one row of the capture turns every Sand field into Land |
| Legacy.HardenedCells | src/game/states/play_state.rs:72-78 | after hardening no Sand is left, Land fields are exactly the former Land and Sand fields, and Sea fields are untouched |
| Legacy.With | src/game/states/play_state.rs:66 | writing one field changes only that field |
| Legacy.PlayerStep | src/game/states/play_state.rs:55-89 | the player's move as a function of board and player; the board it produces stays 20 x 8 |
| Legacy.PlayerStepCases | src/game/states/play_state.rs:55-89 | a target off the board stops the player; off Sea the player just moves; leaving Sea lays trail, and then reaching Land stops the player and hardens the whole trail, reaching trail (or standing still) fails, and reaching Sea moves on |
| Legacy.PlayerStepKeepsBoard | src/game/states/play_state.rs:55-89 | the player stays on the board and the border stays Land |
| Legacy.SeaStepAsWritten | src/game/states/play_state.rs:91-111 | as written, the enemy moves to where the corrected step puts it but keeps its old velocity |
| Legacy.LegacySeaEnemySkimsBorder | src/game/states/play_state.rs:91-111 | as written, the starting enemy reaches (5, 5), goes up to (6, 4) still heading down, and goes back down to (7, 5); the corrected step heads up from (6, 4) |
| Legacy.LegacySeaEnemyLeavesBoard | src/game/states/play_state.rs:91-111 | as written, with (3, 2) and (2, 3) Land, the starting enemy walks through (1, 1) and (0, 0) to (-1, -1), where its look-ups are off the board; the corrected step puts it at (1, 1) with the reversed velocity (-1, -1), a safe place from which its next step turns back inside |
| Legacy.SeaStep | src/game/states/play_state.rs:91-111 | corrected: each velocity component is reversed exactly when the field it points at is Land and is otherwise kept, and the enemy moves by the velocity it stores |
| Legacy.SeaStepSafe | src/game/states/play_state.rs:91-111 | with the corrected step, from a safe place (at most one field into the border, and there still pointing outward, at the outer Land ring) every look-up is on the board and the enemy reaches a safe place again |
| Legacy.SeaStepAll | src/game/states/play_state.rs:92-108 | every enemy takes one corrected step, which stores the reversed velocity |
| Legacy.SeaStepAllSafe | src/game/states/play_state.rs:91-111 | a corrected move of all sea enemies keeps every one of them safe |
| Legacy.PlayState.constructor | src/game/states/play_state.rs:29-53 | the initial board; the player stopped at (0, 0); one sea enemy at (2, 2) and one land enemy at (10, 0), both heading down and right |
| Legacy.PlayState.HardenTrail | src/game/states/play_state.rs:72-78 | the board becomes the hardened board |
| Legacy.PlayState.MovePlayer | src/game/states/play_state.rs:55-89 | the new board, the new player and the success flag are exactly `PlayerStep` of the old board and player; the state stays valid |
| Legacy.PlayState.MoveSeaEnemies | src/game/states/play_state.rs:91-111 | every sea enemy takes the corrected step and stays safe |
| Legacy.PlayState.MovedSeaEnemies | src/game/states/play_state.rs:92-108 | the loop over the sea enemies gives exactly `SeaStepAll`, each enemy taking the corrected step |
| Legacy.PlayState.MoveActors | src/game/states/play_state.rs:113-118 | the player moves first; the sea enemies take the corrected step, on the new board, only if the player's move succeeded |
| Legacy.PlayState.Update | src/game/states/play_state.rs:122-128 | the game is over exactly when the player's move failed; the actors move as `MoveActors` describes, with the corrected step |
| Legacy.PlayState.HandleEvent | src/game/states/play_state.rs:161-183 | an arrow sets the velocity to its unit vector and keeps the position; Tick and Quit change nothing |

## Left out

- Rendering: every `render` method, the renderer, the terminal and screen setup, and the board's `rows` iterator are output only.
- The main loop (`src/main.rs:47-62`) and its input and timer threads are concurrency and I/O. The loop ends on `Quit`, turns each `Tick` into one `handle_event` followed by one `update`, and queues only the remaining events, the arrow keys, with `push_event`. `Engine.Game.PushEvent` accepts any event; that does no harm, because every screen ignores `Tick` and `Quit` (`PlayScreen.Steering`, `WelcomeScreen.HandleEvent`, `GameOverScreen.HandleEvent`).
- Randomness: `random_position`, `random_position_of_type` and `random_diagonal` are nondeterministic choices (`:|`). The model does not capture the distribution, nor the possibility that `random_position_of_type` loops forever when no field has the requested type.
- Models.Board.RandomPositionOfType: requires that a field of the requested type exists. The original's retry loop would not terminate without one.
- Integer widths: positions and directions are `i16` and level, score, lives and counters are `u32` in the original. The model uses unbounded integers, so it does not capture overflow. The sizes involved stay far below those limits.
- Floating point: `fill_ratio` is an `f64`. The model keeps the remaining Sea count and compares the exact rational ratio. `ThresholdMatchesRatio` shows that this is the integer test `5 * remaining < 4 * total`; `f64` rounding is not modelled.
- PlayScreen.PlayState.MovePlayer: the score is left unchanged. `move_player` adds the unit result of `fill` to the score (`src/game/states/play_state/mod.rs:179`), which gives no meaningful value.
- PlayScreen.PlayState.Update: requires a life left when no delay is pending. The original's `lives -= 1` would underflow otherwise. `Engine.Game` guarantees the condition, because a play screen on top of the stack always has a life.
- Engine.Game.Update: does not describe the screens below the top. No transition removes a screen, so a screen covered by a push is never ticked again, and the model states nothing about it.
- Models.Board.Fill: requires every enemy position to be on the board, which the original's unchecked indexing demands too. The flood's neighbour look-ups stay on the board because of the Land border.
- PlayScreen.PlayState.MoveSeaEnemies: models the corrected move (see Findings). The as-written move is `Moved`, and the two finding lemmas use it.
- Legacy.PlayState.MoveSeaEnemies: models the corrected step (see Findings). The as-written step is `Legacy.SeaStepAsWritten`.
- PlayScreen.PlayState.MovedSeaEnemies: computes the corrected move, not the one as written (see Findings).
- Legacy.PlayState.MovedSeaEnemies: computes the corrected step, not the one as written (see Findings).
- PlayScreen.PlayState.Proceed: moves the sea enemies by the corrected move, not as written (see Findings).
- PlayScreen.PlayState.Advance: its `Ticked` describes the corrected sea move, not the one as written (see Findings).
- PlayScreen.PlayState.Update: a tick without a delay uses the corrected sea move, not the one as written (see Findings).
- Engine.Game.Update: a top play screen ticks with the corrected sea move, through `PlayState.Update` (see Findings).
- Legacy.SeaStepAll: applies the corrected `SeaStep`, which stores the reversed velocity; as written the velocity is not stored (see Findings).
- Legacy.SeaStepAllSafe: holds of the corrected step only; the as-written step can leave the board (`Legacy.LegacySeaEnemyLeavesBoard`).
- Legacy.PlayState.MoveActors: moves the sea enemies by the corrected step (see Findings).
- Legacy.PlayState.Update: moves the sea enemies by the corrected step, through `MoveActors` (see Findings).
- Legacy.PlayState.Update: the `Option<Box<State>>` result is a boolean `gameOver` that stands for the pushed game-over screen. The prototype is not wired into the screen stack.
- Legacy land enemies are created but never moved or bounced, as in the prototype.
- Legacy.PlayState.HandleEvent: the original always returns `None`, so the model returns nothing.
- The sea-enemy loops over `iter_mut` (`PlayScreen.PlayState.BounceSeaEnemies`, `PlayScreen.PlayState.MoveSeaEnemies`, `Legacy.PlayState.MoveSeaEnemies`) work on a local copy of the sequence, which is then written back. Nothing else can observe the intermediate state. The land-enemy loops update the field in place.
- `src/game/states/mod.rs` only re-exports the screens. `src/game.rs` is an unused earlier stub whose `update` moves one point diagonally (`src/game.rs:15-18`, starting at (2, 2)). Neither is part of this model.

## Findings

| source | as written | input that shows it | evidently intended | confidence | as-written member | corrected member |
|---|---|---|---|---|---|---|
| src/game/states/play_state/mod.rs:187-210 | the three bounce look-ups can leave the diagonal pointing at Land, and `move_sea_enemies` steps there unconditionally, so a sea enemy can walk onto the border and later index off the board | sea enemy at (2, 5) heading south-west, Land at (3, 6) and Sea at (2, 6): it ends at (1, 4) on the border; with (2, 5) captured too, it then reaches (0, 3) and the look-up at x = -1 panics | sea enemies stay in the Sea: an enemy whose bounced direction still points at Land does not move | medium, not executed | PlayScreen.SeaEnemyLeavesInterior, PlayScreen.SeaEnemyReachesEdge | PlayScreen.SeaMoved, PlayScreen.SeaStepStaysInterior |
| src/game/states/play_state.rs:91-111 | the reversed velocity is used for one move but never stored, so an enemy does not bounce: it skims along a wall, and with Land next to it, walks off the board | initial board, enemy at (2, 2) with velocity (1, 1): it reaches (5, 5), then (6, 4), then (7, 5) again; with (3, 2) and (2, 3) Land it goes (1, 1), (0, 0), (-1, -1), and the next look-up panics | store the reversed velocity back into the enemy | high, not executed | Legacy.SeaStepAsWritten, Legacy.LegacySeaEnemyLeavesBoard | Legacy.SeaStep, Legacy.SeaStepSafe |
