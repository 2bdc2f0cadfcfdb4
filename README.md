# Character movement controller — Dafny model

This project models `CharacterMovementModel`, the per-character controller of a
2D action-adventure game. It is a small state machine. It holds a movement and a
facing direction, the frozen and attacking flags, a push (knockback) vector with
its remaining time, the equipped weapon and shield, the item being picked up,
and the frame of the last accepted nonzero direction. Each engine tick it turns
that state into one rigid-body velocity.

Files:

- `engine_math.dfy` (module `EngineMath`): 2D vectors over the reals, scaling,
  `Mathf.Sign` and `Mathf.MoveTowards` as the engine defines them. The engine's
  `Normalize` is a parameter. The only fact assumed about it, and only where a
  contract says so, is `NonzeroPreserving`: a nonzero vector stays nonzero.
- `items.dfy` (module `Items`): item kinds (`None` means no item), equip
  positions, and the item database as a `map` (`FindItem` finds an item exactly
  when its kind is a key).
- `character_rules.dfy` (module `CharacterRules`): the whole controller state as
  a value (`CharacterState`) and one transition function per operation. Each
  function's `ensures` states the rule the controller follows.
- `character_movement_model.dfy` (module `CharacterMovement`): the class
  `CharacterMovementModel`. Its fields mirror the C# fields, and its methods
  update them in place the way the C# methods do. Each mutating method except
  `OnAttackStarted` and `OnAttackFinished` is proved to leave `State()` equal
  to the matching `CharacterRules` function applied to the old state. Those two
  only set or clear the attacking flag, and their contracts state the new
  state directly as the old state with that one field updated. The query
  methods are proved to return the rule's predicate.
- `character_properties.dfy` (module `CharacterProperties`): properties that
  span several calls. The push timer over a run of frames (`PushTimerDecay`,
  `PushLastsItsDuration`) and at most one accepted nonzero direction per frame
  (`FrameLimit`, `AtMostOneAcceptedPerFrame`) are proved by induction over the
  run of calls. The pickup lifecycle and frame-0 facts
  (`PickupLifecycle`, `PickupCancelledInSameFrame`,
  `PauseOutlivesCancelledPickup`, `FirstFrameInputIgnored`,
  `ZeroInputKeepsFrameOpen`)
  are about one fixed sequence of calls and follow directly from the
  transition functions' contracts.

Engine values are explicit:

- `Time.frameCount` and `Time.deltaTime` are parameters.
- The rigid body's velocity is the field `velocity`.
- `Time.timeScale` is the field `timeScale`.
- The one-tick `FreezeTimeRoutine` is the flag `pausePending`. A started routine
  sets it, and `ResumeFreezeTimeRoutine` plays the routine's resumption.
- The call into the animation listener when a push interrupts an attack is the
  counter `attackFinishedNotices`.
- A transform parent (`WeaponParent`, `ShieldParent`, `PickupItemParent`) is a
  flag that is true when the transform is not null.

Behaviour of the code that is easy to miss:

- A zero input is accepted without recording the frame. So the movement
  direction can change more than once in a frame: to zero, then to a nonzero
  direction (`ZeroInputKeepsFrameOpen`).

- During a pickup, a nonzero input to `SetDirection` cancels the pickup and
  unfreezes the character. The input then goes through the remaining gates, so
  it can be accepted in the same call.
- `ShowItemPickup` turns the character downward only through `SetDirection`. It
  does not turn when that call is gated: attacking, already frozen with no
  pickup, being pushed, or a direction already accepted in this frame.
- When that downward turn is accepted, it records the frame. A cancelling input
  later in the same frame then unfreezes the character but is not accepted as
  a direction: the character keeps facing down (`PickupCancelledInSameFrame`).
- Unfreezing does not cancel a pause that is still pending. So when the pickup
  is cancelled before the routine resumes, the game ends up paused while the
  character is unfrozen (`PauseOutlivesCancelledPickup`).
- The last-accepted-frame field starts at 0, so input given in frame 0 is
  ignored (`FirstFrameInputIgnored`).

## Model

| member | source | states |
|---|---|---|
| `EngineMath.MoveTowards` | Assets/Tutorial/Scripts/Characters/CharacterMovementModel.cs:54 | returns the target when it lies within `maxDelta`; for `maxDelta >= 0` it moves at most `maxDelta`, exactly `maxDelta` unless it reaches the target, and never passes the target |
| `CharacterRules.Initial` | Assets/Tutorial/Scripts/Characters/CharacterMovementModel.cs:7-29 | a new character is not frozen, not attacking, not pushed, not moving and cannot attack; it has no weapon, shield or pickup, zero movement and facing directions, zero velocity, no push vector and push time 0, frame record 0, no pending pause and no attack-finished notices; it assumes the engine's default time scale 1 |
| `CharacterMovement.CharacterMovementModel.constructor` | Assets/Tutorial/Scripts/Characters/CharacterMovementModel.cs:7-29 | the fields start at their defaults with the given configuration |
| `CharacterRules.UpdatePushTime` | Assets/Tutorial/Scripts/Characters/CharacterMovementModel.cs:52-55 | only the push time changes; with `dt >= 0` it moves towards 0 by at most `dt`, by exactly `dt` unless it reaches 0, and never crosses 0 |
| `CharacterMovement.CharacterMovementModel.UpdatePushTime` | Assets/Tutorial/Scripts/Characters/CharacterMovementModel.cs:52-55 | the fields change exactly as `CharacterRules.UpdatePushTime` says |
| `CharacterRules.UpdateMovement` | Assets/Tutorial/Scripts/Characters/CharacterMovementModel.cs:57-78 | frozen or attacking gives velocity zero and leaves the direction un-normalised; otherwise a nonzero direction is normalised in place and a zero one stays zero; velocity is the push vector while pushed, else the normalised direction times the speed (zero for a zero direction); with a nonzero-preserving normalisation, whether the character is moving is unchanged |
| `CharacterMovement.CharacterMovementModel.UpdateMovement` | Assets/Tutorial/Scripts/Characters/CharacterMovementModel.cs:57-78 | the fields change exactly as `CharacterRules.UpdateMovement` with the class's normalisation says; velocity is zero when the character was frozen or attacking |
| `CharacterMovement.CharacterMovementModel.IsBeingPushed` | Assets/Tutorial/Scripts/Characters/CharacterMovementModel.cs:80-83 | true exactly when the push time is positive |
| `CharacterRules.SetFrozen` | Assets/Tutorial/Scripts/Characters/CharacterMovementModel.cs:90-105 | sets the frozen flag; affecting game time, freezing starts the pending pause and unfreezing sets the time scale to 1 while keeping a pending pause; nothing else changes |
| `CharacterMovement.CharacterMovementModel.SetFrozen` | Assets/Tutorial/Scripts/Characters/CharacterMovementModel.cs:90-105 | the fields change exactly as `CharacterRules.SetFrozen` says |
| `CharacterRules.ResumeFreezeTimeRoutine` | Assets/Tutorial/Scripts/Characters/CharacterMovementModel.cs:107-112 | a pending pause sets the time scale to 0 and is consumed; with none pending nothing changes |
| `CharacterMovement.CharacterMovementModel.ResumeFreezeTimeRoutine` | Assets/Tutorial/Scripts/Characters/CharacterMovementModel.cs:107-112 | the fields change exactly as `CharacterRules.ResumeFreezeTimeRoutine` says |
| `CharacterRules.CancelPickupOnInput` | Assets/Tutorial/Scripts/Characters/CharacterMovementModel.cs:116-122 | a nonzero input during a pickup clears the pickup, unfreezes and sets the time scale to 1; otherwise nothing changes |
| `CharacterRules.SetDirection` | Assets/Tutorial/Scripts/Characters/CharacterMovementModel.cs:114-147 | the push state, equipment and velocity are kept; the pickup cancel step alone touches pickup, freeze and time scale; frozen (after that step) or attacking changes no direction, facing or frame record; a push forces the direction to the push vector and keeps facing and frame; a call in the recorded frame changes neither facing nor the record, nor the direction unless pushed; accepted input becomes the direction, and when nonzero also the facing and the recorded frame; facing and record change only on nonzero input |
| `CharacterMovement.CharacterMovementModel.SetDirection` | Assets/Tutorial/Scripts/Characters/CharacterMovementModel.cs:114-147 | the fields change exactly as `CharacterRules.SetDirection` says |
| `CharacterMovement.CharacterMovementModel.IsMoving` | Assets/Tutorial/Scripts/Characters/CharacterMovementModel.cs:159-167 | true exactly when not frozen and the direction is nonzero |
| `CharacterRules.EquipItem` | Assets/Tutorial/Scripts/Characters/CharacterMovementModel.cs:179-199 | the slot becomes the item when the attach point is present, the item is in the database and its equip position is the requested one, and stays as it was otherwise |
| `CharacterRules.EquipWeapon` | Assets/Tutorial/Scripts/Characters/CharacterMovementModel.cs:169-172 | only the weapon slot can change, it changes only to the requested item, and it does so exactly when the weapon parent is present and the item is a sword-hand item in the database |
| `CharacterMovement.CharacterMovementModel.EquipWeapon` | Assets/Tutorial/Scripts/Characters/CharacterMovementModel.cs:169-172 | the fields change exactly as `CharacterRules.EquipWeapon` says |
| `CharacterRules.EquipShield` | Assets/Tutorial/Scripts/Characters/CharacterMovementModel.cs:174-177 | only the shield slot can change, it changes only to the requested item, and it does so exactly when the shield parent is present and the item is a shield-hand item in the database |
| `CharacterMovement.CharacterMovementModel.EquipShield` | Assets/Tutorial/Scripts/Characters/CharacterMovementModel.cs:174-177 | the fields change exactly as `CharacterRules.EquipShield` says |
| `CharacterRules.ShowItemPickup` | Assets/Tutorial/Scripts/Characters/CharacterMovementModel.cs:208-225 | a no-op without the pickup parent or for an item not in the database; otherwise the character is frozen with a pending pause and the item recorded, the time scale is 1 if a previous pickup was cancelled and unchanged otherwise, when the direction call is not gated it faces and moves downward and records the frame; when it is gated the facing and the frame record are kept, and the direction is kept or, while pushed, becomes the push vector; only direction, facing, frame record, freeze, pickup, time scale and pending pause can change, so equipment, push, velocity and attacking are untouched |
| `CharacterMovement.CharacterMovementModel.ShowItemPickup` | Assets/Tutorial/Scripts/Characters/CharacterMovementModel.cs:208-225 | the fields change exactly as `CharacterRules.ShowItemPickup` says |
| `CharacterRules.PushCharacter` | Assets/Tutorial/Scripts/Characters/CharacterMovementModel.cs:234-243 | the push vector and time are overwritten, the listener is notified once if attacking, the attacking flag is kept, the character is pushed exactly when the time is positive and then cannot attack |
| `CharacterMovement.CharacterMovementModel.PushCharacter` | Assets/Tutorial/Scripts/Characters/CharacterMovementModel.cs:234-243 | the fields change exactly as `CharacterRules.PushCharacter` says |
| `CharacterMovement.CharacterMovementModel.CanAttack` | Assets/Tutorial/Scripts/Characters/CharacterMovementModel.cs:260-278 | true exactly when not attacking, a weapon is equipped and the character is not being pushed |
| `CharacterMovement.CharacterMovementModel.OnAttackStarted` | Assets/Tutorial/Scripts/Characters/CharacterMovementModel.cs:285-288 | sets the attacking flag and changes nothing else |
| `CharacterMovement.CharacterMovementModel.OnAttackFinished` | Assets/Tutorial/Scripts/Characters/CharacterMovementModel.cs:290-293 | clears the attacking flag and changes nothing else |
| `CharacterProperties.PushTimerDecay` | Assets/Tutorial/Scripts/Characters/CharacterMovementModel.cs:52-55 | over any run of frames with non-negative times, the push time moves towards 0 by the total elapsed time and stops at 0, and nothing else changes |
| `CharacterProperties.PushLastsItsDuration` | Assets/Tutorial/Scripts/Characters/CharacterMovementModel.cs:234-243 | after a push of duration t, the character is still pushed after a run of frames exactly when their total time is below t, and the push vector is kept |
| `CharacterProperties.FrameLimit` | Assets/Tutorial/Scripts/Characters/CharacterMovementModel.cs:135-146 | once a nonzero direction is recorded for frame f, no further call in frame f is accepted: facing and record stay, and the direction stays unless a push forces it to the push vector |
| `CharacterProperties.AtMostOneAcceptedPerFrame` | Assets/Tutorial/Scripts/Characters/CharacterMovementModel.cs:135-146 | however many inputs arrive in one frame, at most one nonzero direction is accepted |
| `CharacterProperties.ZeroInputKeepsFrameOpen` | Assets/Tutorial/Scripts/Characters/CharacterMovementModel.cs:135-146 | with no lock, no push and the frame not yet recorded, a zero input sets the direction to zero without recording the frame, and a nonzero input later in the same frame is still accepted; the direction changes twice while only one direction is counted as accepted |
| `CharacterProperties.FirstFrameInputIgnored` | Assets/Tutorial/Scripts/Characters/CharacterMovementModel.cs:135-138 | a new character ignores any input given in frame 0 |
| `CharacterProperties.PickupLifecycle` | Assets/Tutorial/Scripts/Characters/CharacterMovementModel.cs:116-122 | after a successful pickup the character is frozen with the item recorded, a zero input changes nothing and a physics step gives zero velocity; the next nonzero input clears the pickup, unfreezes and sets the time scale to 1 |
| `CharacterProperties.PickupCancelledInSameFrame` | Assets/Tutorial/Scripts/Characters/CharacterMovementModel.cs:116-146 | when the pickup's downward turn was accepted, a nonzero input in the same frame cancels the pickup and unfreezes, but the direction and facing stay downward and the frame record stays |
| `CharacterProperties.PauseOutlivesCancelledPickup` | Assets/Tutorial/Scripts/Characters/CharacterMovementModel.cs:94-112 | a pickup cancelled before the pause routine resumes leaves the game paused (time scale 0) while the character is unfrozen |

## Left out

- Engine object lifecycle and the scene graph are not modelled, because they are engine calls. This covers `Awake` with its `GetComponent` (lines 31-34), `Destroy` of the pickup object (line 121), and `Instantiate` with the parenting, local position and rotation of spawned prefabs (lines 201-205, 227-231). Items therefore carry no prefab.
- `Update` and `FixedUpdate` only call `UpdatePushTime` and `UpdateMovement` (lines 36-44). The host calls the model's methods directly. `LateUpdate` and `DoAttack` are empty.
- The getters (`IsFrozen`, `GetDirection`, `GetFacingDirection`, `GetItemThatIsBeingPickedUp`, `GetEquippedShield`, `GetEquippedWeapon`) only return a field. In the model those fields can be read directly.
- Physics integration is left to the engine. The velocity is only an output field.
- Floating point is modelled as exact reals. The engine compares vectors and normalises them with a small tolerance. The model compares vectors exactly and states nothing about the length or accuracy of `Normalize`.
- Vectors are 2D. Every value stored in the C# `Vector3` fields comes from a `Vector2`, so their third component is always zero.
- `Time.timeScale` is one engine-wide value shared by every character. The model gives each character its own copy, so it does not capture one character's freeze or unfreeze changing the time scale another character sees. Its initial value 1 is the engine's default, not something this file sets.
- Each `SetFrozen(true, true)` starts its own `FreezeTimeRoutine`. The model folds all started routines into the one flag `pausePending`, and one `ResumeFreezeTimeRoutine` consumes it. So the model does not capture routines started on different ticks resuming on different ticks, each setting the time scale to 0.
- `GetComponentInChildren<CharacterAnimationListener>()` in `PushCharacter` can return null. The call then throws before the push vector and time are written, so an attacking character with no listener child is never pushed. The model assumes the listener is present and always applies the push.
- The model does not tie elapsed time or physics steps to `timeScale`. The engine scales `Time.deltaTime` by the time scale and runs no `FixedUpdate` at time scale 0. The host must pass the scaled `deltaTime` to `UpdatePushTime`, and must not call `UpdateMovement` while paused, for the push timer and velocity to stop during a pause.
- Which engine tick resumes the pause routine is up to the host. The model lets the host decide when to call `ResumeFreezeTimeRoutine`.
- The effect of `CharacterAnimationListener.OnAttackFinished` lives outside this file. The model only counts the notification and does not change the attacking flag.
- `ItemType`, `ItemData` and `Database` are not part of this model. Item kinds are numbered, every equip position other than the two requested ones is `NotEquipable`, and only the `IsEquipable` field of an item record is modelled.
