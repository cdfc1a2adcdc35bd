# Platformer player core in Dafny

This project models the gameplay core of a small Unity 2D platformer:

- the player controller and its two pluggable movement modules (horizontal running and a variable-height jump with coyote time and an optional double jump);
- the trigger sensors that tell the controller whether it stands on a platform or touches a wall;
- hazard-triggered respawn with a period of invulnerability;
- the input manager's key bindings, lookup and remapping;
- the save manager's level-unlock record and its level-name parser;
- the game manager's state machine and its effect on the global time scale.

Each source file becomes one Dafny module:

| Dafny file | module | source |
|---|---|---|
| `movement_module.dfy` | `Movement` | `Assets/Scripts/Player/MovementModule.cs` |
| `jump_runs.dfy` | `JumpRuns` | multi-frame properties of the jump module |
| `player_controller.dfy` | `Controller` | `Assets/Scripts/Player/PlayerController.cs` |
| `collision_check.dfy` | `Sensor` | `Assets/Scripts/Player/CollisionCheck.cs` |
| `player_respawn.dfy` | `Respawn` | `Assets/Scripts/Player/PlayerRespawn.cs` |
| `input_manager.dfy` | `Input` | `Assets/Scripts/Core/InputManager.cs` (the key queries `IsMoveLeftKey`, `IsMoveRightKey` and `IsJumpKey` are predicates there, specified through `RemappedKeysAreRecognised` and `AlternateKeysAreIgnoredByMovement`) |
| `save_manager.dfy` | `Save` | `Assets/Scripts/Core/SaveManager.cs` |
| `game_manager.dfy` | `Game` | `Assets/Scripts/Core/GameManager.cs` |
| `config.dfy` | `Config` | `Assets/Scripts/Config/GameSettings.cs`, `InputSettings.cs` |
| `engine.dfy` | `Engine` | the Unity stand-ins: key codes, one frame of key state, rigid body, transform |
| `wrappers.dfy` | `Wrappers` | `Option` |

Objects whose fields the game updates in place are classes: `PlayerController`, `MoveModule`, `JumpModule`, `CollisionCheck`, `PlayerRespawn`, `InputManager`, `SaveManager`, `GameSaveData`, `GameManager`, and the shared `Rigidbody` and `Transform`. Each class's methods are specified by pure step functions. Lemmas about those functions prove the properties that span several frames:

- `InputStep` is one frame of jump input and `TickStep` one physics tick. `JumpRuns` replays event sequences through them.
- `SensorStep` is one trigger event.
- `InvulnerabilityTick` is one frame of the invulnerability timer.
- `TimeScaleAfter` is the time-scale effect of one state change.
- `Remapped` is one key remap.

The controller keeps its modules in an `array<ModuleSlot>`, in the source's order: move, then jump. `HandleInputs` and `ExecuteMovement` loop over that array.

Modelling choices:

- The modules read the controller's flags (`IsGrounded`, `IsCollideWall`, `enableDoubleJump`, the current animation state) through parameters. The controller passes its own fields.
- `Time.deltaTime` is a parameter `dt`.
- The keys held, pressed and released in one frame form a `KeyFrame` value.
- The rigid body's impulse `AddForce(0, f)` adds `f / mass` to the vertical velocity.
- Unity floats are modelled as mathematical reals.

Where the intended behaviour and the code differ, the model follows the code:

- The coyote counter never gates a jump press. It only limits how long an airborne hold keeps accelerating. The counter has no floor and goes negative while airborne (`TickStep`, `JumpRuns.AirborneCoyoteDecay`). So over an airborne stretch the hold time grows by at most the coyote counter at take-off, which a grounded tick sets to `coyoteTime`, 0.1 s with the default settings (`JumpRuns.AirborneHoldTimeWithinCoyote`).
- The hold counter can pass `maxJumpHoldTime`, by at most one tick (`JumpRuns.HoldWithinCapPlusTick`, `JumpRuns.HoldCanPassCap`).
- Landing resets `isJumping` and the hold counter but not the double-jump flag. That flag is cleared only by a jump press while grounded (`JumpRuns.DoubleJumpClearedOnlyByGroundedPress`).
- Touching a wall makes `MoveModule.Execute` return early. It keeps the previous horizontal velocity and animation state instead of zeroing them.
- Horizontal movement and the jump read only the primary bindings (`MoveLeft`, `MoveRight`, `Jump`). The alternate keys count only in `IsMoveLeftKey`, `IsMoveRightKey` and `IsJumpKey` (`Input.AlternateKeysAreIgnoredByMovement`).
- `ResetToDefaultKeys` swaps the primary and alternate movement keys relative to the `InputSettings` field initialisers.
- `GetLevelIndex` ignores the world number: "Level_2_1" shares slot 0 with "Level_1_1".
- "Level_1_0" maps to -1, the same value a malformed name gives (`Save.MalformedLevelNames`).
- Respawning leaves the jump module's state (`isJumping`, the counters, the double-jump flag) as it was: `PerformRespawn` resets none of it, and no script calls the modules' `OnEnter` or `OnExit`. The jump module lies outside the `modifies` frame of `Respawn.PlayerRespawn.PerformRespawn`.
- "Level_1_-2147483648" maps to 2147483647: the unchecked `levelNum - 1` wraps around (`Save.NegativeLevelIndex`).
- A missing `GameSettings` reference makes the move module's `LoadGameSettings` raise a null-reference error, which ends the controller's loading loop before the jump module; the jump module's own null check is therefore never reached from the controller.

## Model

| member | source | states |
|---|---|---|
| Engine.Rigidbody.AddVerticalImpulse | Assets/Scripts/Player/MovementModule.cs:122 | an impulse force changes vertical velocity by force / mass and leaves horizontal velocity alone |
| Movement.HorizontalIntent | Assets/Scripts/Player/MovementModule.cs:41-50 | intent is -1 exactly when only the left key is held, 1 exactly when only the right key is held, 0 when both or neither are held |
| Movement.FacedScaleX | Assets/Scripts/Player/MovementModule.cs:52-57 | with no intent the scale is kept; otherwise its magnitude is kept and its sign follows the intent |
| Movement.MoveAnimState | Assets/Scripts/Player/MovementModule.cs:71-78 | run exactly when there is intent and vertical speed is strictly inside the ±0.3 band, otherwise idle |
| Movement.MoveModule.constructor | Assets/Scripts/Player/MovementModule.cs:29-32 | shares the controller's body, transform and settings; input and speed start at 0 |
| Movement.MoveModule.LoadGameSettings | Assets/Scripts/Player/MovementModule.cs:34-37 | with settings, the move speed is taken from them; without, the call fails (the null-reference error) and nothing changes |
| Movement.MoveModule.HandleInput | Assets/Scripts/Player/MovementModule.cs:39-58 | stores the frame's intent and turns the sprite to face it, leaving position and speed alone |
| Movement.MoveModule.Execute | Assets/Scripts/Player/MovementModule.cs:60-79 | against a wall nothing changes; otherwise horizontal velocity becomes intent × speed, vertical velocity is kept, and the animation is run or idle by `MoveAnimState` |
| Movement.InputStep | Assets/Scripts/Player/MovementModule.cs:117-146 | a press jumps exactly when grounded or a double jump is enabled and unused; the jump is held exactly while not released and started or ongoing; a grounded press clears the double-jump flag, an airborne jump sets it, otherwise it is kept; the counters are untouched |
| Movement.TickStep | Assets/Scripts/Player/MovementModule.cs:148-199 | the coyote counter refills when grounded and otherwise drops by dt; the body rises exactly while a hold is on, coyote time remains and the hold counter is under its cap, and falls otherwise; the hold counter grows by dt while rising and is 0 otherwise; landing at vertical speed ≤ 0.1 ends the jump; the double-jump flag is untouched |
| Movement.JumpModule.constructor | Assets/Scripts/Player/MovementModule.cs:86-99 | flags false, counters and tuning 0 |
| Movement.JumpModule.LoadGameSettings | Assets/Scripts/Player/MovementModule.cs:101-115 | with no settings nothing changes, otherwise all five tuning values are copied; jump state is kept |
| Movement.JumpModule.HandleInput | Assets/Scripts/Player/MovementModule.cs:117-129 | the new jump state is `InputStep`'s, and the body receives the jump impulse exactly when `InputStep` says so |
| Movement.JumpModule.CanJump | Assets/Scripts/Player/MovementModule.cs:131-146 | allowed exactly when grounded or a double jump is enabled and unused, with the double-jump flag updated as a side effect |
| Movement.JumpModule.Execute | Assets/Scripts/Player/MovementModule.cs:148-158 | the new jump state and vertical velocity are `TickStep`'s; horizontal velocity and tuning are kept |
| Movement.JumpModule.HandleCoyoteTime | Assets/Scripts/Player/MovementModule.cs:160-171 | the counter refills to coyote time when grounded and otherwise drops by dt |
| Movement.JumpModule.PerformJump | Assets/Scripts/Player/MovementModule.cs:173-188 | rising adds jump speed × dt and dt to the hold counter; otherwise the counter is 0 and fall speed × dt is subtracted |
| Movement.JumpModule.ResetJumpState | Assets/Scripts/Player/MovementModule.cs:190-199 | ends the jump and zeroes the hold counter, keeping the double-jump flag and the coyote counter |
| Movement.JumpModule.OnEnter | Assets/Scripts/Player/MovementModule.cs:201-205 | same reset as `ResetJumpState` |
| Movement.JumpModule.OnExit | Assets/Scripts/Player/MovementModule.cs:207-210 | same reset as `ResetJumpState` |
| JumpRuns.AirborneJumpsAtMostOnce | Assets/Scripts/Player/MovementModule.cs:131-146 | while never grounded, any sequence of presses and ticks adds at most one jump, and none without double jump or with it already used |
| JumpRuns.AirborneCoyoteDecay | Assets/Scripts/Player/MovementModule.cs:160-171 | while airborne the coyote counter equals its start value minus the total tick time, with no floor |
| JumpRuns.AirborneHoldTimeWithinCoyote | Assets/Scripts/Player/MovementModule.cs:173-182 | over any airborne stretch with non-negative ticks, the hold time grows by at most the coyote counter at its start |
| JumpRuns.HoldWithinCapPlusTick | Assets/Scripts/Player/MovementModule.cs:176-187 | with ticks of at most dtMax, the hold counter stays within [0, maxJumpHoldTime + dtMax] |
| JumpRuns.HoldCanPassCap | Assets/Scripts/Player/MovementModule.cs:178-181 | with the default tuning, one tick of 0.04 s from a hold of 0.28 s leaves the counter above the 0.3 s cap |
| JumpRuns.DoubleJumpClearedOnlyByGroundedPress | Assets/Scripts/Player/MovementModule.cs:133-136 | once set, the double-jump flag clears only if the run holds a jump press while grounded |
| Controller.NextAnimState | Assets/Scripts/Player/PlayerController.cs:145-158 | fall below -0.3, jump above 0.3, and inside the band run stays run and anything else becomes idle |
| Controller.PlayerController.constructor | Assets/Scripts/Player/PlayerController.cs:28-30 | grounded, against a wall and control enabled from the start, animation idle, modules built in order move then jump over the shared body |
| Controller.PlayerController.LoadGameSettings | Assets/Scripts/Player/PlayerController.cs:91-99 | with settings, every module loads them: the move speed and the five jump tuning values; without, the first module fails, the loop stops there, no module completes and no value changes |
| Controller.PlayerController.Update | Assets/Scripts/Player/PlayerController.cs:63-69 | with control disabled nothing changes; otherwise inputs are handled with the previous frame's ground flag, then the sensors are read, then the animation is updated |
| Controller.PlayerController.FixedUpdate | Assets/Scripts/Player/PlayerController.cs:71-75 | with control disabled nothing changes; otherwise both modules execute in order |
| Controller.PlayerController.HandleInputs | Assets/Scripts/Player/PlayerController.cs:101-107 | after the loop the move module holds this frame's intent and facing, and the jump module's state is `InputStep`'s |
| Controller.PlayerController.ExecuteMovement | Assets/Scripts/Player/PlayerController.cs:109-115 | after the loop the move module has set horizontal velocity or stopped at a wall, and the jump module's state and vertical velocity are `TickStep`'s |
| Controller.PlayerController.CheckCollision | Assets/Scripts/Player/PlayerController.cs:118-122 | the ground and wall flags copy the two sensors |
| Controller.PlayerController.SetControlEnabled | Assets/Scripts/Player/PlayerController.cs:125-136 | sets the flag; disabling zeroes horizontal velocity and keeps vertical velocity |
| Controller.PlayerController.ToggleControl | Assets/Scripts/Player/PlayerController.cs:139-142 | flips the flag, with the same velocity effect as `SetControlEnabled` |
| Controller.PlayerController.UpdateAnimation | Assets/Scripts/Player/PlayerController.cs:145-162 | the animation state becomes `NextAnimState` of the current state and vertical velocity |
| Sensor.SensorStep | Assets/Scripts/Player/CollisionCheck.cs:8-22 | a Platform enter sets the flag, a Platform exit clears it, other tags leave it alone |
| Sensor.ReplayFollowsLastPlatformContact | Assets/Scripts/Player/CollisionCheck.cs:8-22 | after any event sequence the flag is decided by the last Platform event alone, and is unchanged if there is none |
| Sensor.ExitClearsDespiteRemainingOverlap | Assets/Scripts/Player/CollisionCheck.cs:16-22 | entering two platforms and leaving one clears the flag, although one platform still overlaps |
| Sensor.CollisionCheck.constructor | Assets/Scripts/Player/CollisionCheck.cs:7 | the flag starts false |
| Sensor.CollisionCheck.OnTriggerEnter2D | Assets/Scripts/Player/CollisionCheck.cs:8-14 | the flag follows `SensorStep` for an enter event |
| Sensor.CollisionCheck.OnTriggerExit2D | Assets/Scripts/Player/CollisionCheck.cs:16-22 | the flag follows `SensorStep` for an exit event |
| Respawn.LevelRespawnPosition | Assets/Scripts/Player/PlayerRespawn.cs:130 | the level's start point, or the origin if it has none |
| Respawn.InvulnerabilityTick | Assets/Scripts/Player/PlayerRespawn.cs:57-73 | inactive stays as is; active drops the timer by dt and stays active exactly while the timer is positive |
| Respawn.InactiveStaysInactive | Assets/Scripts/Player/PlayerRespawn.cs:57 | frames never start invulnerability |
| Respawn.InvulnerabilityLastsItsTime | Assets/Scripts/Player/PlayerRespawn.cs:57-73 | started with a positive timer, invulnerability lasts exactly while the elapsed time is below it, and the timer is the start value minus the elapsed time |
| Respawn.PlayerRespawn.constructor | Assets/Scripts/Player/PlayerRespawn.cs:14-16 | not respawning, not invulnerable, timer 0 |
| Respawn.PlayerRespawn.Update | Assets/Scripts/Player/PlayerRespawn.cs:54-74 | the invulnerability state moves by `InvulnerabilityTick` |
| Respawn.PlayerRespawn.Respawn | Assets/Scripts/Player/PlayerRespawn.cs:76-99 | a second call while respawning changes nothing; otherwise respawning is set, control is disabled and the body stops |
| Respawn.PlayerRespawn.FindRespawnPosition | Assets/Scripts/Player/PlayerRespawn.cs:124-135 | the level manager's position if there is one, otherwise the current position |
| Respawn.PlayerRespawn.PerformRespawn | Assets/Scripts/Player/PlayerRespawn.cs:101-122 | moves to the respawn position, starts invulnerability for its full time, re-enables control and ends respawning |
| Respawn.PlayerRespawn.StartInvulnerability | Assets/Scripts/Player/PlayerRespawn.cs:137-141 | invulnerable with the full timer |
| Respawn.PlayerRespawn.EndInvulnerability | Assets/Scripts/Player/PlayerRespawn.cs:143-152 | no longer invulnerable |
| Respawn.PlayerRespawn.OnTriggerEnter2D | Assets/Scripts/Player/PlayerRespawn.cs:155-162 | a Hazard trigger starts a respawn unless one is under way; anything else changes nothing |
| Respawn.PlayerRespawn.OnCollisionEnter2D | Assets/Scripts/Player/PlayerRespawn.cs:164-171 | the same for a Hazard collision |
| Respawn.PlayerRespawn.SetRespawnPoint | Assets/Scripts/Player/PlayerRespawn.cs:174-178 | changes nothing |
| Input.ToLower | Assets/Scripts/Core/InputManager.cs:69 | same length, each character lower-cased |
| Input.ToLowerIdempotent | Assets/Scripts/Core/InputManager.cs:69 | lower-casing twice equals lower-casing once |
| Input.RemappedKeysAreRecognised | Assets/Scripts/Core/InputManager.cs:49-64 | a key remapped to move left, move right or jump, under any casing of the name, is recognised by `IsMoveLeftKey`, `IsMoveRightKey` or `IsJumpKey`; the alternate keys stay recognised after any remap |
| Input.AlternateKeysAreIgnoredByMovement | Assets/Scripts/Player/MovementModule.cs:42-50 | when the alternates differ from the primaries, `IsMoveLeftKey`/`IsMoveRightKey`/`IsJumpKey` accept them, yet holding an alternate movement key alone gives zero intent and pressing the alternate jump key alone never jumps |
| Input.ActionName | Assets/Scripts/Core/InputManager.cs:71-91 | every action's name is one of the seven recognised lower-case names |
| Input.ActionNamed | Assets/Scripts/Core/InputManager.cs:69-94 | a lower-cased name selects an action exactly when it is one of the seven names, and the action selected carries that name |
| Input.NameSelectsAction | Assets/Scripts/Core/InputManager.cs:69-94 | each action's name selects that action again |
| Input.Rebind | Assets/Scripts/Core/InputManager.cs:71-91 | the chosen action's binding becomes the new key, every other action keeps its binding, and the alternates and pause are untouched |
| Input.GetKeyForAction | Assets/Scripts/Core/InputManager.cs:101-114 | a name that lower-cases to an action's name yields that action's binding; any other name yields `KeyCode.None` |
| Input.GetKeyForActionIgnoresCase | Assets/Scripts/Core/InputManager.cs:103 | names that differ only in case look up the same key |
| Input.Remapped | Assets/Scripts/Core/InputManager.cs:67-98 | an unknown name changes nothing; the alternates and pause are never remapped; the named action's binding becomes the new key and every other action keeps its key |
| Input.RemapThenLookup | Assets/Scripts/Core/InputManager.cs:67-114 | remapping a known action then looking it up, in the same or lower case, returns the new key; looking up any other name returns what it returned before |
| Input.InputManager.RemapKey | Assets/Scripts/Core/InputManager.cs:67-98 | the bindings become `Remapped` of the old bindings |
| Input.InputManager.ResetToDefaultKeys | Assets/Scripts/Core/InputManager.cs:117-132 | the bindings become the reset set, which differs from the field initialisers |
| Save.Split | Assets/Scripts/Core/SaveManager.cs:92 | at least one piece, and no piece contains the separator |
| Save.SplitAtFirstSeparator | Assets/Scripts/Core/SaveManager.cs:92 | splitting a + sep + b where a has no separator gives a followed by the pieces of b |
| Save.TryParseInt32 | Assets/Scripts/Core/SaveManager.cs:93 | digits, '+' digits and '-' digits parse to their value when it fits 32 bits and fail otherwise; the empty string, a lone sign, a bad first character and any non-digit after it fail |
| Save.Decrement32 | Assets/Scripts/Core/SaveManager.cs:95 | n - 1 in 32-bit two's-complement arithmetic: in range, equal to n - 1 modulo 2^32, exact except at the minimum, which wraps to the maximum |
| Save.GetLevelIndex | Assets/Scripts/Core/SaveManager.cs:89-98 | a 32-bit result; -1 for names with fewer than three pieces or whose third piece does not parse; otherwise the parsed number minus one in 32-bit arithmetic, so a parsed -2147483648 wraps to 2147483647 |
| Save.SplitLevelName | Assets/Scripts/Core/SaveManager.cs:92 | "Level_<world>_<x>" with no '_' in world or x splits into exactly "Level", world and x |
| Save.NegativeLevelIndex | Assets/Scripts/Core/SaveManager.cs:91-97 | "Level_<world>_-<n>" maps to -n - 1 for 0 < n < 2^31, and "Level_<world>_-2147483648" wraps to 2147483647 |
| Save.UnparseableLevelIndex | Assets/Scripts/Core/SaveManager.cs:93-97 | "Level_<world>_<x>" where x does not parse maps to -1 |
| Save.MalformedLevelNames | Assets/Scripts/Core/SaveManager.cs:91-97 | "Level_1_x", "Level_1_", "Level_1_0" and "Level_1" all map to -1 |
| Save.LevelIndexOfName | Assets/Scripts/Core/SaveManager.cs:89-98 | "Level_<world>_<n>" maps to n - 1 for any 32-bit n ≥ 0 and any world without '_' |
| Save.WorldIsIgnored | Assets/Scripts/Core/SaveManager.cs:91-95 | "Level_1_1" and "Level_2_1" both map to index 0 |
| Save.SecondLevelIndex | Assets/Scripts/Core/SaveManager.cs:91 | "Level_1_2" maps to index 1 |
| Save.GameSaveData.constructor | Assets/Scripts/Core/SaveManager.cs:6-7 | last played "Level_1_1" and thirty locked slots |
| Save.SaveManager.constructor | Assets/Scripts/Core/SaveManager.cs:38-43 | a first load with nothing stored: a fresh record with only slot 0 unlocked |
| Save.SaveManager.UnlockLevel | Assets/Scripts/Core/SaveManager.cs:53-62 | sets exactly the slot of an in-range index and nothing else; the level then reads as unlocked exactly when its index is in range; no slot is ever cleared |
| Save.SaveManager.IsLevelUnlocked | Assets/Scripts/Core/SaveManager.cs:64-69 | only a name whose index is in range can read as unlocked, so malformed names never do; on a fresh record exactly the names with index 0 are unlocked |
| Save.SaveManager.GetLastPlayedLevel | Assets/Scripts/Core/SaveManager.cs:77-80 | a fresh record names "Level_1_1" |
| Save.SaveManager.SetLastPlayedLevel | Assets/Scripts/Core/SaveManager.cs:71-80 | `GetLastPlayedLevel` then returns the name just set |
| Save.SaveManager.ResetProgress | Assets/Scripts/Core/SaveManager.cs:82-87 | a new record with only slot 0 unlocked, so "Level_1_1" is unlocked and "Level_1_2" is locked |
| Game.TimeScaleAfter | Assets/Scripts/Core/GameManager.cs:38-49 | paused or dialogue freezes time, playing restores it, the main menu leaves it as it was |
| Game.TimeScaleFollowsLastNonMenu | Assets/Scripts/Core/GameManager.cs:33-52 | after any sequence of state changes, the time scale is decided by the last state other than the main menu, and is unchanged if there is none |
| Game.GameManager.constructor | Assets/Scripts/Core/GameManager.cs:17 | starts in MainMenu with time running |
| Game.GameManager.ChangeState | Assets/Scripts/Core/GameManager.cs:33-52 | records the state, applies `TimeScaleAfter` and announces the state to listeners |
| Game.GameManager.LoadLevel | Assets/Scripts/Core/GameManager.cs:68-72 | enters Playing, so time runs, then requests the scene |
| Game.GameManager.ReturnToMainMenu | Assets/Scripts/Core/GameManager.cs:74-78 | enters MainMenu with the time scale unchanged and requests the "MainMenu" scene |
| Game.GameManager.StartNewGame | Assets/Scripts/Core/GameManager.cs:54-59 | progress is reset to a fresh record, then "Level_1_1" is loaded in Playing |
| Game.GameManager.ContinueGame | Assets/Scripts/Core/GameManager.cs:61-66 | loads the level the record names as last played |

## Left out

- Unity's lifecycle and singletons (`Awake`, `Start`, `Instance`, `DontDestroyOnLoad`, `Destroy`) are left out. Objects are built by constructors and wired by their callers.
- The respawn delay (`Invoke(nameof(PerformRespawn), respawnDelay)`) is left out. `Respawn` only starts a respawn, and the caller later calls `PerformRespawn`. The delay is kept as a field.
- The `OnRespawnStart`, `OnRespawnComplete` and `OnStateChanged` listeners are left out. The game manager records announced states in `announced` instead of calling listeners.
- The Animator, sprite colour flashing and `Debug.Log` output are left out. They do not affect game state.
- Persistence through JSON and `PlayerPrefs` (`LoadGame` with stored data, `SaveGame`) is left out as I/O. `SaveManager.constructor` models the first-load path with nothing stored. Every point where the source calls `SaveGame` changes only the in-memory record.
- `SceneManager.LoadScene` is left out. Requested scenes are appended to `loadedScenes`.
- The `IsRespawning` and `IsInvulnerable` getters are left out. They only return fields.
- Respawn.PlayerRespawn.FindRespawnPosition: the lookup of a `LevelManager` in the scene is a parameter. `LevelManager` is not part of this model beyond its optional start point.
- Unity's 32-bit floats are modelled as exact reals. Rounding is not modelled.
- Input.ToLower: folds ASCII letters as the invariant culture does. The source's `string.ToLower()` uses the current culture; culture-specific mappings (for example Turkish 'I' to dotless 'ı', under which "Interact" no longer names an action) and non-ASCII letters are not modelled.
- Save.TryParseInt32: does not accept the leading and trailing whitespace that `int.TryParse` allows.
- Input.InputManager.RemapKey: the bindings are a value held by the manager. The aliasing of the shared `InputSettings` asset between scripts is not modelled.
- Exceptions are modelled only for a missing `GameSettings` reference, as a failure result of `MoveModule.LoadGameSettings` that stops the controller's loop. Other null references (a missing `InputManager` instance, rigid body or animator) are assumed present.
- Movement.MoveModule.HandleInput: `Transform` keeps only the horizontal scale. Writing the flipped scale back through a `Vector2` also sets the z scale to 0, which is not modelled.
- Unity's own `Rigidbody2D` simulation (gravity, contact responses that zero a velocity, integration of position) is left out. The body's velocity changes only where the scripts set it or add an impulse.
- Other game scripts outside this core (moving platforms, level manager, UI, checkpoints) are not part of this model.
