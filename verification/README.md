# North Pole Express Loader — a Dafny model of the round and delivery rules

North Pole Express Loader is a small Unity arcade game. The player runs
around a snowy arena and collects gifts, which stack up on the player's back
and slow them down. Every so often a train stops, and the player loads the
carried gifts into it before the train leaves. A train that leaves with at
least its quota advances the round. A train that leaves short costs a life.
Snowmen wander the arena, and touching one drops every carried gift. Gifts
left on the ground blink and then vanish.

This project models the per-frame state machines behind those rules and
proves what they guarantee. Each script becomes one Dafny module:

- `Arena` holds positions, the rectangular arena and the clamp that every
  movable entity goes through.
- `Player` models `PlayerController`, the collector. It carries a bounded
  LIFO stack, a speed derived from the stack's fullness, pickup, drop and
  hand-over.
- `Session` models `GameManager`. It holds the Splash/Menu/Game/Results
  screens, the round, lives and best-round bookkeeping, and the reaction to
  a departing train.
- `Train` models `TrainController`. It covers approach, waiting with a
  countdown and a random quota, early or timed departure, and the report
  made on leaving the field.
- `Snowmen` models `SnowmanSpawner`. It keeps a capped list of snowmen and
  one shared speed.
- `GiftSpawning` models `GiftSpawner`. It has an interval timer and an A/B
  alternation flag.
- `GiftDecay` models `GiftDespawner`. It has the age timer, expiry, and
  blinking that gets faster towards the end.

Every script is a class whose methods update its fields in place. The Dafny
class keeps those fields under their own names. It also has a `Snapshot()`
function that reads the fields as a value. Each method's postcondition ties
the new snapshot to a pure step function of the old one (`Departure`, `Tick`,
`Spawn`, ...). The properties the game relies on are proved about those step
functions. Some are `ensures` clauses. Others are lemmas over whole runs:

- the snowman cap is never exceeded;
- the train is always in exactly one phase;
- the best round never decreases and stays stored;
- a gift expires exactly when its lifetime has elapsed;
- gift kinds alternate.

Engine services become inputs:

- The frame time is a parameter `dt`. Unity's single-precision floats are
  modelled as reals.
- Each `Random.Range` draw is a parameter constrained to its range. A
  ground position is a `Roll` inside the arena, and the train quota is an
  integer in [3, 8).
- The position that `CharacterController.Move`, `Vector3.MoveTowards` or
  `Transform.Translate` produces is a parameter. The model keeps the clamp
  and the threshold tests applied to it.
- The "HighestRound" player preference is the field `savedHighestRound`
  (`None` when nothing was ever stored).
- Instantiating and destroying snowmen adds ids to, and removes them from,
  the spawner's `alive` set.
- `GameManager.Instance.IsGameRunning()` is either the `running` parameter
  or a call on the modelled `GameManager`.

A few facts about the scripts shape the train cycle and are easy to miss:

- The quota is drawn afresh from 3 to 7 at every stop
  (Assets/Scripts/TrainController.cs:86).
- A full train leaves early once 2 s have passed
  (Assets/Scripts/TrainController.cs:53).
- A delivery hands over the player's whole stack, so the count can pass
  the quota (`Train.DeliveryCanOverfill`).
- `wasFull` is fixed when the train departs
  (Assets/Scripts/TrainController.cs:95), not when it leaves the field.
- There is no start-delay phase: the train approaches from the first
  frame.

## Model

| member | source | states |
|---|---|---|
| Arena.Clamp | Assets/Scripts/PlayerController.cs:104-105 | the result lies in `[lo, hi]`, is `v` itself inside the range, and is otherwise the nearer bound |
| Arena.ClampInto | Assets/Scripts/PlayerController.cs:149-150 | a clamped point always lies in a well-formed arena, and a point already inside is unchanged |
| Arena.ClampIdempotent | Assets/Scripts/PlayerController.cs:103-107 | clamping a clamped point does not move it |
| Arena.Min | Assets/Scripts/PlayerController.cs:186 | the result is no larger than either argument and is one of them |
| Player.SpeedFactor | Assets/Scripts/PlayerController.cs:170-171 | for a stack between empty and full the factor stays in [0.5, 1]; it is 1 when empty and 0.5 when full |
| Player.SpeedFactorAntitone | Assets/Scripts/PlayerController.cs:170-172 | carrying more gifts never gives a larger speed factor |
| Player.Give | Assets/Scripts/PlayerController.cs:184-196 | for a non-negative request, `min(count, needed)` gifts are given and the stack shrinks by exactly that many; a negative request moves nothing and returns the request; what remains is always a prefix of the old stack (gifts leave from the top) |
| Player.DroppedGift | Assets/Scripts/PlayerController.cs:146-162 | a dropped gift keeps its identity, is pickable again and decays again, lands 0.5 above the collector, lies inside the arena, and keeps its offset position when that is already inside |
| Player.Scatter | Assets/Scripts/PlayerController.cs:144-163 | every carried gift is released, in order, pickable and decaying, each inside the arena |
| Player.Collector.constructor | Assets/Scripts/PlayerController.cs:42-47 | the collector starts with an empty stack at full base speed |
| Player.Collector.UpdateSpeed | Assets/Scripts/PlayerController.cs:168-172 | the current speed is the base speed times the speed factor of the stack |
| Player.Collector.Move | Assets/Scripts/PlayerController.cs:103-107 | after a move, x and z are clamped into the arena and y is `fixedY` |
| Player.Collector.Update | Assets/Scripts/PlayerController.cs:49-61 | nothing moves while the game is not running; otherwise the moved position is clamped |
| Player.Collector.CollectGift | Assets/Scripts/PlayerController.cs:122-139 | the gift is appended on top with its collider off and its despawner removed; the stack stays within capacity and the speed is recomputed |
| Player.Collector.DropAllGifts | Assets/Scripts/PlayerController.cs:141-166 | the stack ends empty and the released gifts are exactly the scatter of the old stack (none on an empty stack) |
| Player.Collector.GiveGifts | Assets/Scripts/PlayerController.cs:184-196 | the loop that pops gifts one at a time leaves the stack and returns the count that `Give` specifies |
| Player.Collector.OnTriggerEnter | Assets/Scripts/PlayerController.cs:110-120 | a gift is collected if and only if the stack was below capacity; a snowman empties the stack; any other contact changes nothing |
| Snowmen.Spawn | Assets/Scripts/SnowmanSpawner.cs:38-53 | at the cap nothing changes; below it exactly one new, not yet alive snowman is appended, 2 below the ground inside the spawn area, with the shared speed when it has a controller; the invariant is preserved |
| Snowmen.WithSpeed | Assets/Scripts/SnowmanSpawner.cs:60-68 | every snowman keeps its identity and position, and every one with a controller gets the given speed |
| Snowmen.SpeedUp | Assets/Scripts/SnowmanSpawner.cs:56-69 | the shared speed grows by the amount, every snowman is brought to it, and the invariant is preserved |
| Snowmen.Reset | Assets/Scripts/SnowmanSpawner.cs:72-80 | the list ends empty, every listed snowman is destroyed, the speed is back at `initialSpeed`, and the invariant is preserved |
| Snowmen.Tick | Assets/Scripts/SnowmanSpawner.cs:29-36 | a snowman is spawned only while the game runs with an empty list, and then exactly one (when the cap allows) |
| Snowmen.RunKeepsInv | Assets/Scripts/SnowmanSpawner.cs:38-80 | over any sequence of spawner calls the count never exceeds `maxSnowmen` and no snowman is listed twice |
| Snowmen.SnowmanSpawner.constructor | Assets/Scripts/SnowmanSpawner.cs:23-27 | no snowmen, shared speed at `initialSpeed` |
| Snowmen.SnowmanSpawner.Update | Assets/Scripts/SnowmanSpawner.cs:29-36 | the spawner state follows `Tick` and stays valid |
| Snowmen.SnowmanSpawner.SpawnSnowman | Assets/Scripts/SnowmanSpawner.cs:38-53 | the spawner state follows `Spawn` and stays valid |
| Snowmen.SnowmanSpawner.IncreaseGlobalSpeed | Assets/Scripts/SnowmanSpawner.cs:56-69 | the loop that updates one snowman at a time reaches the state `SpeedUp` specifies |
| Snowmen.SnowmanSpawner.ResetSpawner | Assets/Scripts/SnowmanSpawner.cs:72-80 | the loop that destroys one snowman at a time reaches the state `Reset` specifies |
| Session.WithState | Assets/Scripts/GameManager.cs:113-151 | the state becomes the new one, the splash timer restarts only on entering the splash screen, and nothing else changes |
| Session.PauseToggled | Assets/Scripts/GameManager.cs:98-103 | the paused flag flips and nothing else changes |
| Session.PauseToggledTwice | Assets/Scripts/GameManager.cs:98-103 | toggling the pause twice restores the session |
| Session.SplashSkipped | Assets/Scripts/GameManager.cs:105-111 | Splash goes to Menu; in any other state nothing changes |
| Session.NewGame | Assets/Scripts/GameManager.cs:153-165 | the game is running, at round 1, with full lives, unpaused; the best round and the stored preference are kept |
| Session.Started | Assets/Scripts/GameManager.cs:51-68 | the best round is loaded from the preference (1 if none); after a restart a new game begins, otherwise the splash screen with its timer at 0 |
| Session.Departure | Assets/Scripts/GameManager.cs:167-197 | outside a game nothing changes; a full train adds exactly one round, keeps lives, records a new best round and asks for a snowman up to round 7, else for speed +1; an unfilled train costs exactly one life, keeps the round, and ends the game if and only if no life is left; the best round never decreases and is stored exactly when a new record is set |
| Session.Tick | Assets/Scripts/GameManager.cs:70-96 | on the splash screen the timer advances and the menu comes if and only if the duration is reached or input arrives; the pause key toggles only in a game; the counters never change |
| Session.Serve | Assets/Scripts/GameManager.cs:181-185 | a request for nothing changes nothing; a spawn request adds exactly one snowman below the cap and none at it, keeping the others and the speed; a speed request raises the shared speed by its amount and keeps the count; the spawner invariant is preserved |
| Session.PlayTracksBest | Assets/Scripts/GameManager.cs:171-179 | over any sequence of departures the best round never decreases, ends as the maximum of the old best and the highest round reached, stays at least the current round, and stays equal to the stored preference |
| Session.MissesEndGame | Assets/Scripts/GameManager.cs:187-194 | as many unfilled trains as there are lives end the game with no lives left and the round unchanged |
| Session.AfterGameOver | Assets/Scripts/GameManager.cs:169 | outside a game any number of departures changes nothing |
| Session.FullsAdvanceRounds | Assets/Scripts/GameManager.cs:171-173 | `n` filled trains in a row advance the round by exactly `n`, cost no life and keep the game running |
| Session.ThreeMissesAfterStart | Assets/Scripts/GameManager.cs:187-194 | with the default three lives, three unfilled trains after a start end the game |
| Session.GameManager.constructor | Assets/Scripts/GameManager.cs:33-43 | the manager starts on the splash screen with zeroed counters, unpaused, holding the stored preference |
| Session.GameManager.IsGameRunning | Assets/Scripts/GameManager.cs:211 | running holds exactly in the Game state |
| Session.GameManager.Start | Assets/Scripts/GameManager.cs:51-68 | the session follows `Started`; the spawner is reset only on a direct restart |
| Session.GameManager.ChangeState | Assets/Scripts/GameManager.cs:113-151 | the session follows `WithState` |
| Session.GameManager.TogglePause | Assets/Scripts/GameManager.cs:98-103 | the session follows `PauseToggled` |
| Session.GameManager.SkipSplash | Assets/Scripts/GameManager.cs:105-111 | the session follows `SplashSkipped` |
| Session.GameManager.Update | Assets/Scripts/GameManager.cs:70-96 | the session follows `Tick` |
| Session.GameManager.StartGame | Assets/Scripts/GameManager.cs:153-165 | the session follows `NewGame` and the spawner is reset, speed included |
| Session.GameManager.TriggerGameOver | Assets/Scripts/GameManager.cs:206-209 | the session moves to Results |
| Session.GameManager.OnTrainDeparted | Assets/Scripts/GameManager.cs:167-197 | the session follows `Departure`, and the spawner serves exactly the request `Departure` makes (one spawn, a speed increase, or nothing) |
| Train.Initial | Assets/Scripts/TrainController.cs:19-31 | the train starts approaching from `spawnX` and satisfies the invariant |
| Train.Arrived | Assets/Scripts/TrainController.cs:81-88 | waiting starts with the full countdown, nothing delivered and the drawn quota |
| Train.Departed | Assets/Scripts/TrainController.cs:90-96 | the train is leaving and has recorded full if and only if the count met the quota |
| Train.Respawned | Assets/Scripts/TrainController.cs:98-103 | the train is back at `spawnX`, approaching, with both flags false |
| Train.LeavesNow | Assets/Scripts/TrainController.cs:53 | a waiting train leaves whenever its countdown is out; a train short of its quota leaves only then; a full train also leaves once the countdown is below `waitTime - 2`, and never earlier unless time is out |
| Train.Tick | Assets/Scripts/TrainController.cs:33-79 | approaching switches to waiting if and only if within 0.1 of `stopX`; waiting counts down and departs if and only if the timer is out or the train is full and 2 s in; leaving reports `wasFull` if and only if past `despawnX` and then resets; departure only ever follows waiting; the invariant is preserved |
| Train.Deliver | Assets/Scripts/TrainController.cs:123-139 | gifts are counted only while waiting, a hand-over of nothing changes nothing, the count grows by exactly the amount handed over, and the invariant is preserved |
| Train.GiveAll | Assets/Scripts/TrainController.cs:130 | handing over the whole stack gives every carried gift and leaves the stack empty |
| Train.DeliveryCanOverfill | Assets/Scripts/TrainController.cs:133 | a stack larger than the quota is counted in full, so the count exceeds the quota |
| Train.RunKeepsInv | Assets/Scripts/TrainController.cs:33-139 | over any sequence of frames and contacts the train is never waiting and leaving at once, keeps its quota in range while waiting, and its recorded outcome matches its count while leaving; every outcome reported along the way is a success exactly when the count it carried met its quota |
| Train.TrainController.constructor | Assets/Scripts/TrainController.cs:19-26 | the fields start at their declared initial values |
| Train.TrainController.Start | Assets/Scripts/TrainController.cs:28-31 | the train is reset and so is the snowman spawner |
| Train.TrainController.StartWaiting | Assets/Scripts/TrainController.cs:81-88 | the train follows `Arrived` |
| Train.TrainController.Depart | Assets/Scripts/TrainController.cs:90-96 | the train follows `Departed` |
| Train.TrainController.ResetTrain | Assets/Scripts/TrainController.cs:98-110 | the train follows `Respawned`; the spawner is reset only on the initial reset |
| Train.TrainController.Update | Assets/Scripts/TrainController.cs:33-79 | nothing changes while the game is not running; otherwise the train follows `Tick`, and on leaving the field exactly one snowman spawn is requested, the outcome is reported once to the session, and the spawner also serves the session's request |
| Train.TrainController.OnTriggerEnter | Assets/Scripts/TrainController.cs:123-139 | while waiting, the touching collector's stack ends empty and the count follows `Deliver` with the whole stack; the collector never moves; otherwise nothing changes |
| GiftSpawning.EmittedAlternates | Assets/Scripts/GiftSpawner.cs:43-51 | successive spawn attempts alternate between the two kinds, whatever the flag starts at |
| GiftSpawning.FreshSpawnerAlternates | Assets/Scripts/GiftSpawner.cs:20-51 | from a fresh spawner the kinds go A, B, A, B, ... |
| GiftSpawning.TimerStep | Assets/Scripts/GiftSpawner.cs:26-32 | a spawn fires if and only if the accumulated time reaches the interval, and the timer then restarts at 0; otherwise it only accumulates |
| GiftSpawning.GiftSpawner.constructor | Assets/Scripts/GiftSpawner.cs:19-20 | the timer is 0 and the first kind is A |
| GiftSpawning.GiftSpawner.Update | Assets/Scripts/GiftSpawner.cs:22-33 | nothing advances while the game is not running; otherwise the timer follows `TimerStep`, and on firing the gift kind is the next in the alternation, at the rolled position at `spawnY` inside the area |
| GiftSpawning.GiftSpawner.SpawnAlternatingGift | Assets/Scripts/GiftSpawner.cs:35-52 | the flag flips on every attempt, and a gift is produced if and only if the chosen prefab exists |
| GiftDecay.Clamp01 | Assets/Scripts/GiftDespawner.cs:54 | the parameter is clamped into [0, 1] |
| GiftDecay.Scaled | Assets/Scripts/GiftDespawner.cs:54 | scaling by a fraction in [0, 1] stays between 0 and the scaled value |
| GiftDecay.Lerp | Assets/Scripts/GiftDespawner.cs:54 | the interpolated value lies between the two ends and equals them at 0 and 1 |
| GiftDecay.BlinkInterval | Assets/Scripts/GiftDespawner.cs:49-54 | the blink interval lies between the fast and slow intervals and is the slow one when blinking starts |
| GiftDecay.BlinkIntervalShrinks | Assets/Scripts/GiftDespawner.cs:49-54 | with the fast interval no longer than the slow one, less remaining time never gives a longer interval |
| GiftDecay.Blink | Assets/Scripts/GiftDespawner.cs:56-63 | once the blink timer reaches the interval, visibility flips and the timer restarts; otherwise the timer only accumulates |
| GiftDecay.DecayTick | Assets/Scripts/GiftDespawner.cs:24-43 | age grows by `dt`; the gift is destroyed if and only if no time remains, then without blinking; it blinks only within the last `startBlinkingAt` seconds, and visibility only changes there |
| GiftDecay.ExpiresOnTime | Assets/Scripts/GiftDespawner.cs:28-36 | a gift with time left survives a run of frames if and only if the frames add up to less than that time |
| GiftDecay.GiftDespawner.constructor | Assets/Scripts/GiftDespawner.cs:13-16 | a new despawner has age 0, blink timer 0, is visible and is alive |
| GiftDecay.GiftDespawner.Update | Assets/Scripts/GiftDespawner.cs:24-43 | nothing advances while the game is not running; otherwise the state follows `DecayTick` |
| GiftDecay.GiftDespawner.HandleBlinking | Assets/Scripts/GiftDespawner.cs:45-64 | the state follows `Blink` at the interpolated interval |
| GiftDecay.GiftDespawner.ToggleVisuals | Assets/Scripts/GiftDespawner.cs:66-75 | visibility flips |

## Left out

- Input, rotation, animator calls, renderer and collider objects (kept only as the `pickable`, `decaying` and `isVisible` flags), UI text and colours, audio, `SceneManager`, `Application.Quit` and `Time.timeScale` are not modelled. They are presentation or engine services.
- `OnRestartButton` and the static `restartDirectly` flag that survives a scene reload become the `restartDirectly` parameter of `Start`, because scene reloading is engine behaviour.
- The engine's movement (`CharacterController.Move`, `Vector3.MoveTowards`, `Transform.Translate`) is not modelled. The position it produces is an input, so speeds and `Time.deltaTime` scaling are not checked.
- Floating-point rounding is not modelled: Unity's `float` values are reals.
- Player.Scatter: the random drop offset is any offset, not one within radius 3, because only the clamp after it matters to the stated properties.
- The local positions of carried gifts on the stack (`stackOffsetY`, `stackOffsetZ`) are not modelled, because they are display only.
- Snowmen.SnowmanSpawner.IncreaseGlobalSpeed: snowmen destroyed by other means (the source's null checks) are not modelled, because nothing in these scripts destroys a listed snowman except `ResetSpawner`.
- An unassigned snowman or gift prefab makes `Instantiate` throw. The model instead spawns a snowman without a controller, and `GiftSpawner` skips a missing prefab as the code does.
- `TrainController` calls `player.ClearStack()` and `SnowmanSpawner.ResetSnowmen()`, which `PlayerController` and `SnowmanSpawner` do not define. The first is modelled as `GiveGifts` of the whole stack. The second is modelled as `ResetSpawner`.
- `fullWagonVisual.activeSelf` is read without a null check, and `GameManager.Instance` is used without one when the train leaves the field. These possible null dereferences are not modelled: `Train.TrainController.Update` takes an existing `GameManager`.
- Assets/Scripts/DeliveryZone.cs is not part of this model, because it forwards to a `TrainController.AttemptDelivery` that does not exist.
- Assets/Scripts/SnowmanController.cs (wandering and the rise from the ground), Assets/Scripts/PulsingText.cs, Assets/Scripts/BackgroundMusicManager.cs and Assets/Editor/CopyScripts.cs are not part of this model. They are geometry, presentation, audio and editor tooling.
- The singleton plumbing (`Awake` registering `Instance`) is not modelled. Each object's collaborators are passed explicitly.
