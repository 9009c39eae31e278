# Nazar gameplay core in Dafny

This project models the per-frame gameplay simulation of Nazar, a 2.5D
side-scrolling survival platformer written in TypeScript on three.js and
cannon-es, and proves properties of that model. It covers:

- the checkpoint registry and the respawn teleport;
- the guards' perception machine (UNAWARE / SUSPICIOUS / CHASE);
- the player's locomotion: coyote time, the edge-triggered jump that is
  locked to one per airborne spell, ground and air velocity rules, and the
  lethal landing;
- the patrolling guard, and the one-shot wolf that is slower than the player;
- hazard zones, the death floor, pressure plates and levers;
- the level's update: the timed door, the wolf trigger and the safe-zone door;
- possession of the drones through the helmet;
- the session logic of `main.ts`: the play/replay buttons, the death hook,
  the clamped frame time, the invulnerability countdown, the cinematic intro,
  the frame order and the camera's zoom bands;
- intent aggregation from the key map and the touch controls;
- the chunk bookkeeping of `LevelManager`;
- the cue scheduling of the audio manager.

One module per source file: `Geometry` (vectors, `Math.sign`, squared
distance), `Bodies` (the physics body handle), `Checkpoints`, `Detection`,
`Players`, `Enemies`, `Wolves`, `Hazards`, `Interactables`, `Levels`,
`MindControl`, `Sessions` and `GameLoop` (both from `main.ts`), `Input`,
`Chunks` and `Audio`.

Code that changes state in place is modelled as a class whose methods
change fields. Each such method is proved against a specification function
on values: `Checkpoints.Scan`, `Detection.Next`, `Players.Step`,
`Enemies.GuardStep`, `Interactables.ActiveAfterUpdate`, `Chunks.Shift`,
`Audio.Cues`, `Sessions.Die` and, for the level, `Levels.LevelBuilder.Next`.
The lemmas state the source's promises about those functions.

The level's state is read as a `Scene` value (`LevelBuilder.SceneOf`): the
guards (with their bodies' spin, awake flag and collision response), the
interactables' flags, the timed door with its body's position, velocity,
spin and awake flag, the furthest checkpoint, the wolf section's latches,
the wolf's velocity, visibility, collision response, spin and awake flag,
and the safe-zone door's body (position, velocity, spin, awake flag and
collision response). The
player's state is read as a `Victim` snapshot. `Next` is the level's frame
on these values, section by section in the order of
src/environment/LevelBuilder.ts:577-640:

1. `GuardsRun`: every guard in turn, each one `GuardStep`, each seeing the
   player the guards before it left.
2. `PropsStep`: the proximity pass, then the lever pass while interact is held.
3. `SafetySceneStep`: the hazard zones, the checkpoint scan and the death floor.
4. `DoorsStep`: the timed door's `DoorTick`, then the wolf section `WolfStep`.

`LevelBuilder.Update` and each of its section methods state the new scene
and the new player as the matching function of the old ones.
`GameLoop.Game.Tick` states the whole frame the same way: the cooldown, the
intro's `IntroStep`, the player's `Step`, the level's `Next`, then the
possession rule.

Every `distanceTo(..) < r` becomes `DistSq(..) < r * r`. This is equivalent
because a distance is never negative. A `die()` call made during an update
takes effect at once, as in the source. Its effect on the body and the
session is `Sessions.Die`.

Notes on the frame:

- The physics step runs last in a frame, after the player, the level and
  the mind control (src/main.ts:116-125).
- Sight is lost only strictly beyond 15, and it needs an angle strictly
  below 70 degrees. Hearing needs a distance strictly below the radius
  (src/systems/DetectionSystem.ts:84-95).
- A death stops the game and shows the death screen. Invulnerability comes
  only from the replay button, and it lasts one second (src/main.ts:56-75).
- The invulnerability countdown runs down only while it is positive. It
  runs on every frame, whether or not the game is running (src/main.ts:94).

## Model

| member | source | states |
|---|---|---|
| Geometry.Sign | src/entities/Enemy.ts:182 | `Math.sign` on a finite number: the result is in {-1, 0, 1}, positive exactly for positive input, negative exactly for negative input, and sign times value is the absolute value |
| Geometry.DistSq | src/systems/CheckpointSystem.ts:31-33 | the squared distance, never negative, used in place of every Euclidean distance test |
| Checkpoints.CheckpointSystem.constructor | src/systems/CheckpointSystem.ts:9-10 | the registry starts empty, with `lastReachedId` = -1 |
| Checkpoints.CheckpointSystem.Register | src/systems/CheckpointSystem.ts:15-19 | the new checkpoint's id is the number registered before it, and it is appended; nothing else changes |
| Checkpoints.CheckpointSystem.CheckPlayer | src/systems/CheckpointSystem.ts:24-38 | the loop leaves `lastReachedId` equal to the scan over the registry from its old value; the registry is unchanged |
| Checkpoints.ScanNeverDecreases | src/systems/CheckpointSystem.ts:28-29 | the scan never lowers `lastReachedId` |
| Checkpoints.ScanIsFurthest | src/systems/CheckpointSystem.ts:28-37 | after the scan, `lastReachedId` is the largest id above its old value whose checkpoint is within x/y distance strictly below 3 of the player, or the old value when there is none |
| Checkpoints.ScanIdempotent | src/systems/CheckpointSystem.ts:24-38 | a second check at the same position changes nothing |
| Checkpoints.FindById | src/systems/CheckpointSystem.ts:44 | `find` by id returns a checkpoint carrying that id, or nothing when no checkpoint has it |
| Checkpoints.CheckpointSystem.GetSpawnPosition | src/systems/CheckpointSystem.ts:43-46 | the position of the checkpoint at `lastReachedId`, or (0, 5, 0) while none has been reached |
| Checkpoints.CheckpointSystem.Respawn | src/systems/CheckpointSystem.ts:51-57 | the body is put at the spawn position with zero linear and angular velocity and is woken |
| Detection.DetectionSystem.constructor | src/systems/DetectionSystem.ts:8-11 | perception starts UNAWARE with timer 0 |
| Detection.DetectionSystem.Update | src/systems/DetectionSystem.ts:34-76 | the alert state and timer become `Next` of the old ones, under the sight and hearing tests at this distance; the returned state is the new one |
| Detection.DetectionSystem.Reset | src/systems/DetectionSystem.ts:97-100 | restores UNAWARE with timer 0 |
| Detection.BlindBeyondRange | src/systems/DetectionSystem.ts:84 | sight is false beyond distance 15, at any angle |
| Detection.SightInRangeIsCone | src/systems/DetectionSystem.ts:86-89 | within range, sight holds exactly when the angle is strictly below 70 degrees |
| Detection.UnawareNeverChases | src/systems/DetectionSystem.ts:51-55 | UNAWARE never goes to CHASE; contact gives SUSPICIOUS with timer 0; no contact changes nothing |
| Detection.SuspicionEscalates | src/systems/DetectionSystem.ts:61-65 | in SUSPICIOUS with contact the timer grows by dt, and CHASE comes exactly when the timer reaches 1.5 |
| Detection.SuspicionDecays | src/systems/DetectionSystem.ts:57-60 | in SUSPICIOUS without contact the timer becomes max(0, timer - dt), is never negative, and UNAWARE comes exactly at 0 |
| Detection.ChaseIsLostOnlyFarAndUnseen | src/systems/DetectionSystem.ts:67-73 | CHASE drops to SUSPICIOUS exactly when the distance exceeds 20 and the player is unseen, with timer 0.75; hearing plays no part; CHASE never drops to UNAWARE |
| Detection.ChaseNeedsSustainedContact | src/systems/DetectionSystem.ts:51-73 | from the initial state, no run of frames reaches CHASE before the frames with contact add up to at least 1.5 seconds |
| Detection.ContactTimeNonNegative | src/systems/DetectionSystem.ts:62 | with non-negative frame times the accumulated contact time is non-negative |
| Detection.TimerStaysNonNegative | src/systems/DetectionSystem.ts:59-71 | with non-negative frame times the suspicion timer is never negative |
| Players.Player.constructor | src/entities/Player.ts:13-31 | the player starts with no hook, input enabled, coyote timer 0 and every motion flag false |
| Players.Player.Die | src/entities/Player.ts:274-283 | the body and session change as `Sessions.Die` says under the hook in force: the session's hook, or the fallback to (0, 5, 0) with zero velocity |
| Players.Player.Update | src/entities/Player.ts:107-189 | the motion state and velocity become those of `Step`; a lethal landing applies a death; `wasGrounded` records this frame's ground test |
| Players.Player.Move | src/entities/Player.ts:121-183 | coyote time, horizontal velocity and jump, branch for branch as `Step`, before the fall-damage test |
| Players.HorizontalVelocity | src/entities/Player.ts:129-170 | the horizontal velocity is the ground rule or the air rule of `Step` |
| Players.CoyoteBounded | src/entities/Player.ts:121-127 | the coyote timer stays in [0, 0.1]; it is 0.1 after a grounded frame without a jump; a jump needs it positive and empties it |
| Players.NoControlWithoutInput | src/entities/Player.ts:110-174 | while mind-controlling or in the intro, the target velocity is 0 and no jump fires |
| Players.TargetIsRunSpeed | src/entities/Player.ts:130-135 | the target is -6.5 with left held, else +6.5 with right held, else 0 |
| Players.GroundedInputSnaps | src/entities/Player.ts:149-150 | on the ground with input the velocity becomes exactly the target |
| Players.GroundedCoastSlows | src/entities/Player.ts:151-155 | on the ground without input the velocity becomes 0 or 0.8 of what it was, so it never grows |
| Players.GroundedNeverSpeedsUpUnpushed | src/entities/Player.ts:137-156 | no ground rule makes the player faster unless the player pushes |
| Players.AirControlNeverOvershoots | src/entities/Player.ts:158-169 | in the air with input the velocity moves toward the target by at most 15·dt and never past it |
| Players.AirWithoutInputKeepsVelocity | src/entities/Player.ts:157-170 | in the air without input the velocity is unchanged |
| Players.JumpRule | src/entities/Player.ts:172-183 | a jump fires exactly on a press edge with coyote time left and no jump used; it sets vy = 7.5 and empties the coyote timer; `jumpUsed` is false after every grounded frame |
| Players.LethalLandingRule | src/entities/Player.ts:185-189 | the landing is lethal exactly on a grounded frame after an airborne one, outside the intro, with vy below -20 |
| Players.OneJumpPerAirborneSpell | src/entities/Player.ts:172-183 | over any airborne run of frames at most one jump fires, and none if one was already used |
| Players.HoldingJumpFiresOnce | src/entities/Player.ts:173-174 | holding jump over a run of frames fires at most once, and never when jump was already held |
| Enemies.StateMapping | src/entities/Enemy.ts:147-151 | UNAWARE gives PATROL, CHASE gives CHASE, SUSPICIOUS keeps the guard's state |
| Enemies.PatrolTurnRule | src/entities/Enemy.ts:174-175 | the patrol direction stays ±1; past the left bound it is +1; past the right bound it is -1; inside the bounds it is kept |
| Enemies.PatrolSteering | src/entities/Enemy.ts:169-172 | patrol speed is 3 in the direction held before this frame's turn, and the guard faces that direction |
| Enemies.ChaseSteering | src/entities/Enemy.ts:181-185 | chase runs at 7 toward the player and faces the sign of the player's offset; the patrol direction is kept |
| Enemies.Enemy.constructor | src/entities/Enemy.ts:15-26 | a guard starts in PATROL facing and walking +1, with fresh perception |
| Enemies.Enemy.Update | src/entities/Enemy.ts:139-167 | the guard and the player become `GuardStep` of the old ones: perception advances at the rendered player's position; the state is mapped from the alert; velocity and facing follow `Steer`; the position is kept; the player dies exactly when the guard is chasing within 1.5; a player faster than 2 counts as running; the body's spin, awake flag and collision response are kept |
| Enemies.Enemy.UpdatePatrol | src/entities/Enemy.ts:169-179 | vx = 3·direction, facing = the old direction, and the direction turns at the bounds; the position, spin, awake flag and collision response are kept |
| Enemies.Enemy.Act | src/entities/Enemy.ts:143-160 | perception, the state mapping and the patrol or chase steering, as in `Update`; the player and its death hook are only looked at; the body's position, spin, awake flag and collision response are kept |
| Enemies.Enemy.Move | src/entities/Enemy.ts:153-160 | a patrolling guard steers by `UpdatePatrol`, a chasing one by `UpdateChase`, both as `Steer` gives at the player's x; state, position, spin, awake flag and collision response are kept |
| Enemies.GuardStepRule | src/entities/Enemy.ts:139-167 | after one guard update the patrol direction stays ±1; the guard chases exactly when perception says CHASE, or SUSPICIOUS while it was already chasing; only a chasing guard within 1.5 changes the player; a patrolling guard leaves the player alone and faces the direction it held before the frame; the body's spin, awake flag and collision response are kept |
| Enemies.Enemy.UpdateChase | src/entities/Enemy.ts:181-188 | vx = 7·sign(player x - guard x), and facing is that sign; the position, spin, awake flag and collision response are kept |
| Wolves.SlowerThanThePlayer | src/entities/Wolf.ts:15 | the wolf's chase speed 5.8 is positive and strictly below the player's run speed 6.5 |
| Wolves.FleeingPlayerKeepsLead | src/entities/Wolf.ts:137-139 | a player ahead of the wolf who runs away at full speed gains exactly 0.7 per second of lead, so the lead strictly grows while time passes |
| Wolves.Wolf.constructor | src/entities/Wolf.ts:101-118 | the wolf starts not chasing, invisible and without collision response |
| Wolves.Wolf.StartChase | src/entities/Wolf.ts:122-127 | the first call sets chasing, visibility and collision response; later calls change nothing |
| Wolves.Wolf.Update | src/entities/Wolf.ts:129-165 | when not chasing, nothing changes: the wolf's body (velocity, angular velocity, awake flag, collision response) and the player; when chasing, vx = 5.8·sign(player x - wolf x) and the player dies exactly within 1.5; the position, collision response, death hook and session clocks are always kept |
| Hazards.KillsIsCentredTest | src/environment/HazardZone.ts:37-46 | the zone kills exactly when the player is strictly closer to its centre than half its width and half its height; z is not read |
| Hazards.EdgesAreSafe | src/environment/HazardZone.ts:42-43 | a point on the edge of a zone is safe |
| Hazards.KindIsIrrelevant | src/environment/HazardZone.ts:18-46 | the hazard type plays no part in the test |
| Hazards.EmptyZoneIsHarmless | src/environment/HazardZone.ts:42-43 | a zone without width or height never kills |
| Hazards.FloorIsStrict | src/environment/HazardZone.ts:53-57 | the death floor kills exactly below y = -15, and y = -15 itself is safe |
| Hazards.ClearPassIsNoOp | src/environment/LevelBuilder.ts:595-598 | a player outside every zone is left alone by the hazard pass |
| Hazards.InsideKillsEveryTime | src/environment/HazardZone.ts:37-46 | there is no cooldown in the zone: every pass with the player inside applies a death |
| Hazards.InvulnerablePassIsNoOp | src/main.ts:70 | while the session is invulnerable no zone has any effect |
| Interactables.InteractableObject.constructor | src/entities/InteractableObject.ts:10-24 | `isActive` starts false; the callbacks are those given |
| Interactables.InteractableObject.Update | src/entities/InteractableObject.ts:66-86 | the flag and the fired callback are those of the plate rule |
| Interactables.InteractableObject.TryInteract | src/entities/InteractableObject.ts:89-99 | the flag and the fired callback are those of the lever rule |
| Interactables.PlateTracksProximity | src/entities/InteractableObject.ts:71-85 | after an update a plate is active exactly at distance below 1.5; a box or lever keeps its flag |
| Interactables.PlateFiresOnEdges | src/entities/InteractableObject.ts:75-84 | `onActivate` fires only on a rise, `onDeactivate` only on a fall, and an unchanged flag fires nothing |
| Interactables.PlateUpdateSettles | src/entities/InteractableObject.ts:71-85 | a second update at the same distance changes nothing and fires nothing |
| Interactables.LeverToggleRule | src/entities/InteractableObject.ts:90-98 | a lever within distance 2 (inclusive) flips and fires the callback of its new side; anything else is left alone |
| Interactables.LeverTwiceRestores | src/entities/InteractableObject.ts:94 | two interactions restore the original flag |
| Levels.CheckpointsRunEastward | src/environment/LevelBuilder.ts:224-568 | eleven checkpoints, registered with strictly increasing x |
| Levels.NoCheckpointInAHazard | src/environment/LevelBuilder.ts:224-568 | no checkpoint lies inside a hazard zone, so a respawn never lands in one |
| Levels.RegisterCheckpoints | src/environment/LevelBuilder.ts:198-208 | the sections register the eleven checkpoints in order, with ids 0 to 10 |
| Levels.BuildGuards | src/environment/LevelBuilder.ts:352-355 | the two guards of the stealth zone, at 75 and 88, patrol 72-82 and 83-92 |
| Levels.LevelBuilder.constructor | src/environment/LevelBuilder.ts:193-208 | the built level: the checkpoints, the nine hazard zones, the two guards, the box and the lever wired to the door, the hidden wolf at (185, 0, 0) without collision response, a closed timed door at (140, 1, 0) and an open safe-zone door at (284, 4, 0) |
| Levels.LevelBuilder.OpenDoor | src/environment/LevelBuilder.ts:412-418 | the lever's activation opens the door for 5 seconds and turns its collision off; the door body's position, velocity, spin and awake flag are kept |
| Levels.LevelBuilder.Run | src/environment/LevelBuilder.ts:410-421 | a fired callback is run at once; the lever has no deactivation hook, so nothing closes the door; the door body's position, velocity, spin and awake flag are kept |
| Levels.DoorTickKeepsConsistency | src/environment/LevelBuilder.ts:609-616 | an open door never blocks and a closed one always does; a closed door is untouched by the tick |
| Levels.DoorClosesAfterFiveSeconds | src/environment/LevelBuilder.ts:609-616 | an opened door stays open with 5 - elapsed left until five seconds have passed, then is closed and solid, wherever the player is |
| Levels.WolfSectionRule | src/environment/LevelBuilder.ts:619-639 | the trigger latches at x > 190 and starts the chase only at that moment; the safe-zone door only ever closes |
| Levels.HaltedWolfStaysHalted | src/environment/LevelBuilder.ts:620-638 | a wolf halted at the safe zone is never restarted, and the door stays shut |
| Levels.LatchesStayConsistent | src/environment/LevelBuilder.ts:620-638 | over any run the wolf chases only after the trigger, the door closes only after it, and the trigger never reverts |
| Levels.WolfStepRule | src/environment/LevelBuilder.ts:618-638 | the wolf section's latches follow `WolfSection`; before the trigger nothing moves and nobody is bitten; a triggered wolf that is not chasing never bites; a closed safe-zone door never moves; a player is changed only by a chasing wolf or past the safe zone; the wolf's spin and awake flag are kept; the safe-zone door moves only in y, and its velocity, spin, awake flag and collision response are kept |
| Levels.WolfShownOnceTriggered | src/environment/LevelBuilder.ts:619-623 | once the chase is triggered the wolf is visible and solid, and stays so; before the trigger its visibility and collision response do not change |
| Levels.ActorRule | src/environment/LevelBuilder.ts:583-593 | over both interactable passes a box never changes or fires, a plate ignores the interact key, and a lever flips and fires the callback of its new side exactly when interact is held within reach 2 |
| Levels.SafetyStepRule | src/environment/LevelBuilder.ts:595-606 | the furthest checkpoint never moves back; a player on safe ground is left alone and scanned where it stands; a player killed in a zone under a lethal hook is scanned at its spawn point |
| Levels.LevelBuilder.FiresByPasses | src/environment/LevelBuilder.ts:583-593 | a callback runs in the frame exactly when the proximity pass runs one, or interact is held and the lever pass, over the flags the proximity pass left, runs one |
| Levels.LevelBuilder.PropsStepByPasses | src/environment/LevelBuilder.ts:583-593 | the proximity pass, then the lever pass while interact is held, leave exactly the flags and the door of `PropsStep` |
| Levels.LevelBuilder.GuardsRunChains | src/environment/LevelBuilder.ts:578-581 | guards stepped one after another, each seeing the player the one before it left, make up `GuardsRun` |
| Levels.BuildParts | src/environment/LevelBuilder.ts:305-560 | the level's fresh, pairwise distinct parts: the box and lever wired to the door, the two guards, the solid timed door at (140, 1, 0), the hidden wolf without collision response at (185, 0, 0) and the safe-zone door at (284, 4, 0) |
| Levels.BuildProps | src/environment/LevelBuilder.ts:305-421 | the box, and the lever whose activation opens the timed door |
| Levels.LevelBuilder.Update | src/environment/LevelBuilder.ts:577-640 | the new level and player are `Next` of the old ones: guards, both interactable passes, hazards, checkpoints, death floor, timed door and wolf section, in that order; `lastReachedId` never decreases; the trigger and the closed door never revert; a halted wolf stays halted; the session's clocks are untouched; the scene covers the wolf's visibility and collision response (turned on by the trigger) and the guards' and wolf's spin and awake flags (kept); both door bodies' velocity, spin and awake flag are kept, the timed door body never moves, and the safe-zone door body's collision response is kept |
| Levels.LevelBuilder.UpdateActors | src/environment/LevelBuilder.ts:578-593 | the new level and player are `ActorsStep` of the old ones: the guards, then both interactable passes measuring the player the guards left; the latches and the death hook are untouched; the timed door body's position, velocity, spin and awake flag are kept |
| Levels.LevelBuilder.UpdateLate | src/environment/LevelBuilder.ts:595-639 | the new level and player are `LateStep` of the old ones: the safety section, then the doors under the hook the checkpoint scan leaves; the wolf is shown and made solid on the trigger frame; of the two door bodies only the timed door's collision response and the safe-zone door's y can change |
| Levels.LevelBuilder.UpdateEnemies | src/environment/LevelBuilder.ts:578-581 | the guards and the player become `GuardsRun` of the old ones, the rest of the level is kept, and the player is the old one after some number of deaths |
| Levels.LevelBuilder.GuardsPass | src/environment/LevelBuilder.ts:579-581 | the loop: guard k turns the player it sees into the player guard k + 1 sees, by `GuardStep`; the interactables, door, wolf and checkpoints are untouched |
| Levels.LevelBuilder.UpdateGuard | src/environment/LevelBuilder.ts:579-581 | one guard's turn: that guard and the player become `GuardStep` of the old ones; every other guard is kept; the player is left alone or dies once |
| Levels.LevelBuilder.RunProps | src/environment/LevelBuilder.ts:583-593 | the interactables and the door become `PropsStep` at the player's position; the player, the latches and the timed door body's position, velocity, spin and awake flag are kept |
| Levels.LevelBuilder.UpdateProps | src/environment/LevelBuilder.ts:583-593 | both passes measuring one body: the level becomes `PropsStep` of the old one, which keeps the timed door body's position, velocity, spin and awake flag |
| Levels.LevelBuilder.UpdateInteractable | src/entities/InteractableObject.ts:66-86 | interactable i's flag and callback follow the plate rule and the callback runs; every other flag is kept; of the level only the flags and the door's state change, and the door body's position, velocity, spin and awake flag are kept |
| Levels.LevelBuilder.InteractWith | src/entities/InteractableObject.ts:89-99 | interactable i's flag and callback follow the lever rule and the callback runs; every other flag is kept; of the level only the flags and the door's state change, and the door body's position, velocity, spin and awake flag are kept |
| Levels.LevelBuilder.UpdateInteractables | src/environment/LevelBuilder.ts:583-586 | every interactable's flag follows the plate rule, and the door opens exactly when some callback fired; nothing else in the level changes, including the door body's position, velocity, spin and awake flag |
| Levels.LevelBuilder.InteractAll | src/environment/LevelBuilder.ts:588-593 | every interactable gets `tryInteract` (level-triggered); every flag follows the lever rule, and the door opens exactly when some callback fired; nothing else in the level changes, including the door body's position, velocity, spin and awake flag |
| Levels.LevelBuilder.UpdateSafety | src/environment/LevelBuilder.ts:595-606 | the new level and player are `SafetySceneStep` of the old ones: hazards, the checkpoint scan at the position they left, and the death floor under the hook after the scan; `lastReachedId` never decreases |
| Levels.LevelBuilder.RunHazards | src/environment/LevelBuilder.ts:595-598 | the player becomes `HazardPass` of the zones; the level is kept |
| Levels.LevelBuilder.RunCheckpoints | src/environment/LevelBuilder.ts:600-601 | only the furthest checkpoint changes, to the scan at the player's position; it never decreases; the player is kept |
| Levels.LevelBuilder.RunFloor | src/environment/LevelBuilder.ts:603-606 | below y = -15 the player dies; the level is kept |
| Levels.LevelBuilder.CheckHazards | src/environment/LevelBuilder.ts:595-598 | the zones in order, each testing the player where the deaths before it left the body |
| Levels.LevelBuilder.KillOutOfBounds | src/environment/LevelBuilder.ts:603-606 | below y = -15 the player dies on every update |
| Levels.LevelBuilder.TickTimedDoor | src/environment/LevelBuilder.ts:608-616 | the door's state becomes `DoorTick` of the old one, and nothing else in the level changes, including the door body's position, velocity, spin and awake flag |
| Levels.LevelBuilder.UpdateDoors | src/environment/LevelBuilder.ts:608-639 | the new level and player are `DoorsStep` of the old ones: the door countdown, then the wolf section; the latches never revert; a halted wolf stays halted; the wolf is shown and made solid on the trigger frame, and its spin and awake flag are kept; of the two door bodies only the timed door's collision response and the safe-zone door's y can change |
| Levels.LevelBuilder.RunWolf | src/environment/LevelBuilder.ts:618-639 | of the level only the wolf section changes, and it and the player become `WolfStep` of the old ones: the latches, the wolf's velocity, the door, and the wolf's visibility and collision response, turned on when a chase starts; the safe-zone door body's velocity, spin, awake flag and collision response are kept |
| Levels.LevelBuilder.UpdateWolf | src/environment/LevelBuilder.ts:618-639 | the trigger, the wolf's update and the safe-zone halt give `WolfStep`: the door is moved to y = 1.0 once, the wolf stops with zero velocity, it is shown and made solid on the trigger frame, and its position, spin and awake flag are kept, as are the safe-zone door body's velocity, spin, awake flag and collision response |
| Levels.LevelBuilder.ChaseAndBite | src/environment/LevelBuilder.ts:624 | the wolf's update inside the section: only the wolf's velocity changes, to 5.8·sign(player x - wolf x) while chasing, and the player dies exactly when a chasing wolf is within 1.5 |
| Levels.LevelBuilder.TriggerWolf | src/environment/LevelBuilder.ts:619-623 | the latches become `Trigger`: the first frame past x = 190 latches the trigger and starts the chase, which shows the wolf and turns its collision response on unless a chase is already running; the wolf's body does not move |
| Levels.LevelBuilder.CloseSafeZone | src/environment/LevelBuilder.ts:626-638 | the latches become `Halt`; past x = 284.5 after the trigger the wolf stops with zero velocity and the door moves to y = 1.0 the first time; the door body's velocity, spin, awake flag and collision response, and the rest of the wolf section, are kept |
| MindControl.DroneMirrorsIntents | src/systems/MindControlSystem.ts:40-46 | a drone moves at -6 with left held, else +6 with right held, else stands still |
| MindControl.DroneJumpRule | src/systems/MindControlSystem.ts:59-61 | a drone jumps (vy = 6) exactly when jump is held, it is grounded and |vy| < 0.1, with no held-lock |
| MindControl.PossessionRule | src/systems/MindControlSystem.ts:96-102 | on a press edge possession starts only within 2 of the helmet and ends at any distance; otherwise it is kept |
| MindControl.HoldingTogglesOnce | src/systems/MindControlSystem.ts:90-104 | holding interact toggles possession at most once, on the first frame |
| MindControl.Drone.constructor | src/systems/MindControlSystem.ts:14-34 | a drone starts at its position, standing still |
| MindControl.Drone.SyncInput | src/systems/MindControlSystem.ts:36-62 | the drone's velocity becomes `DroneVelocity` of the intents and its ground test |
| MindControl.MindControlSystem.constructor | src/systems/MindControlSystem.ts:71-87 | the drone list starts empty, and interact was not pressed |
| MindControl.MindControlSystem.Update | src/systems/MindControlSystem.ts:89-117 | possession toggles on the press edge only; the reading is remembered; controlled drones mirror the intents, uncontrolled ones get vx = 0; each drone body's position, spin, awake flag and collision response are kept |
| MindControl.MindControlSystem.DriveDrones | src/systems/MindControlSystem.ts:106-117 | every drone mirrors the intents when controlling, else only its vx is zeroed; each drone body's position, spin, awake flag and collision response are kept |
| Sessions.InvulnerableDeathIsNoOp | src/main.ts:69-70 | a death while the cooldown is positive changes nothing |
| Sessions.DeathStopsAtSpawn | src/main.ts:69-75 | otherwise the body is at the spawn point with zero velocity; with the hook the game stops and the death screen is shown |
| Sessions.RepeatedDeaths | src/main.ts:69-75 | several deaths in one frame leave the body where one leaves it; only the count of death screens grows |
| Sessions.ChainOfDeaths | src/environment/LevelBuilder.ts:578-581 | a chain of updates each of which leaves the player alone or kills it once under one hook ends where some number of deaths in a row would |
| Sessions.Session.constructor | src/main.ts:33-37 | the session starts not running, with cooldown 0 and intro stage 0 |
| Sessions.Session.OnDeath | src/main.ts:69-75 | the `onDeath` hook: ignored while invulnerable; otherwise respawn, zero velocity, death screen, and the game stops |
| GameLoop.ClampDelta | src/main.ts:90 | the frame time is the elapsed seconds, capped at 0.1 |
| GameLoop.ReplayGivesOneSecond | src/main.ts:56-94 | after a replay the player is invulnerable exactly until one second of frames has passed |
| GameLoop.SpentCooldownStaysSpent | src/main.ts:94 | a spent cooldown stays spent, so later deaths are handled |
| GameLoop.IntroStepRule | src/main.ts:99-114 | the intro moves one stage at a time and never back; the fall ends exactly when the player has settled, and then vx = 0 and the timer is 1; control returns only on leaving stage 2 |
| GameLoop.RecoveryTakesOneSecond | src/main.ts:108-113 | once the fall has ended, control returns after exactly one second of frames |
| GameLoop.NearestIsMinimum | src/main.ts:132-136 | the nearest-guard distance is at most 999, at most every guard's distance, and is either 999 or one of them |
| GameLoop.NearestEnemyDist | src/main.ts:132-136 | the loop computes that nearest distance |
| GameLoop.ZoomEdgesAreWide | src/main.ts:156-183 | the band edges 95, 170, 190, 230 and 282, the stretch 120-145 and everything up to 65 get the default shot 30 |
| GameLoop.ZoomRange | src/main.ts:156-183 | every shot lies between 18 and 38; only the wolf chase has 18 and the fastest zoom; only the safe zone has the slowest |
| GameLoop.LerpApproaches | src/main.ts:185 | a zoom step moves toward the target and never past it |
| GameLoop.ZoomNeverOvershoots | src/main.ts:155-185 | the camera's z never overshoots its band's shot |
| GameLoop.BuildLevel | src/main.ts:27 | the level is built with none of its bodies being the player's |
| GameLoop.Assemble | src/main.ts:20-75 | the player, level, helmet at (185, 2, 0) and session, with the death hook wired to the session |
| GameLoop.Game.constructor | src/main.ts:20-66 | the game starts not running, with cooldown 0, intro stage 0, the player at (0, 5, 0), no drones, and the touch controls attached to the input |
| GameLoop.Game.OnPlay | src/main.ts:40-54 | the game runs, the audio starts, the intro is at stage 1 with the player starting it, and the body is at (-5, 12, 0) with velocity (0, -2, 0); the cooldown, the recovery timer, the audio's timers, the body's spin, awake flag and collision response are kept; the drone level is the start level unless the audio was already started |
| GameLoop.Game.OnReplay | src/main.ts:56-62 | the game runs, the audio starts, the cooldown is 1, and the body is at the spawn point with zero linear and angular velocity and is awake; the intro, the audio's timers and the collision response are kept |
| GameLoop.Game.Tick | src/main.ts:87-122 | the frame time is `ClampDelta`; the cooldown runs down whether or not the game runs; when not running, the intro, the player and the level are kept; when running, the intro becomes `IntroStep`, the player `Players.Step` from the intro's vx, the level and the player `Levels.LevelBuilder.Next` from the player the player's update left, under the death hook after the cooldown, and possession follows `Possess` on the press edge; `lastReachedId` never decreases and the wolf trigger and safe-zone door never revert; the player body's collision response is kept |
| GameLoop.Game.CoolDown | src/main.ts:94 | the cooldown becomes `CooldownAfter`: it runs down by dt only while positive; the intro, the player and the level are kept |
| GameLoop.Game.AdvanceIntro | src/main.ts:99-114 | the intro state and vx become those of `IntroStep`; the body's position, spin and flags, the level, the death hook and the motion state are kept; the player's control mode takes the new intro flag |
| GameLoop.Game.IntroMachine | src/main.ts:99-114 | the intro's branches: the intro state and vx become those of `IntroStep`; the body's position, spin, awake flag and collision response are kept |
| GameLoop.Game.RunSystems | src/main.ts:115-122 | the player becomes `Players.Step`, then the level and player `Levels.LevelBuilder.Next` from the player that step left, then possession follows `Possess`; the intro, the cooldown and the player body's collision response are untouched |
| GameLoop.Game.RunPlayer | src/main.ts:115-116 | the player's motion state and body become `Players.Step`, a lethal landing dies; the level, mind control, intro and the body's collision response are untouched |
| GameLoop.Game.RunLevel | src/main.ts:118-122 | the level and player become `Next` of the old ones, then possession follows `Possess`; the player's motion state and its body's collision response are kept |
| GameLoop.Game.StepLevel | src/main.ts:118-119 | the level and player become `Next` of the old ones; `lastReachedId` never decreases, the latches never revert, and the player body's collision response is kept |
| GameLoop.Game.RunMindControl | src/main.ts:121-122 | possession follows `Possess` on the press edge and the reading is remembered; the level and the player's body are kept |
| GameLoop.Game.Listen | src/main.ts:130-142 | when the game ran and the audio is started, the cues, the three timers and the drone level are those of the schedule functions on the player's speed, the nearest guard, and the wolf's distance once the chase is triggered, else 999; otherwise no cue plays and the timers and drone level are kept |
| GameLoop.Game.Present | src/main.ts:155-185 | the camera's z steps toward the band of the rendered player's x |
| Input.InputManager.constructor | src/core/InputManager.ts:4-10 | the key map starts empty and no touch controls are attached |
| Input.InputManager.SetGameUI | src/core/InputManager.ts:13-15 | attaches the touch controls and leaves the key map alone |
| Input.InputManager.OnKeyDown | src/core/InputManager.ts:17-19 | keydown sets that code to held |
| Input.InputManager.OnKeyUp | src/core/InputManager.ts:21-23 | keyup sets that code to released |
| Input.KeyEventsAreLocal | src/core/InputManager.ts:17-23 | a key event changes its own code and no other |
| Input.JoystickNeverBothWays | src/core/InputManager.ts:25-35 | the joystick alone never reads as both left and right |
| Input.KeysOnlyWithoutUI | src/core/InputManager.ts:25-47 | with no touch controls attached, only the key map counts |
| Input.QueriesWithUI | src/core/InputManager.ts:25-47 | with the controls attached, each intent is its keys or its control: joystick below -0.3 or above 0.3, the jump button, the interact button |
| Chunks.TargetChunkBrackets | src/environment/LevelChunk.ts:200-201 | targetChunkX is a multiple of 20 with targetChunkX - 10 ≤ x < targetChunkX + 10 |
| Chunks.KeepNearMembers | src/environment/LevelChunk.ts:209-215 | exactly the chunks more than 40 away are removed |
| Chunks.KeepNearKeepsOrder | src/environment/LevelChunk.ts:209-215 | the cleanup keeps the relative order of the surviving chunks |
| Chunks.KeepNearIdempotent | src/environment/LevelChunk.ts:209-215 | a list of chunks that are all near is left as it is |
| Chunks.KeepNearLength | src/environment/LevelChunk.ts:209-215 | the cleanup only removes chunks |
| Chunks.KeepNearDistinct | src/environment/LevelChunk.ts:209-215 | distinct chunk positions stay distinct |
| Chunks.ShiftRule | src/environment/LevelChunk.ts:203-223 | after a shift a chunk exists ahead; every chunk is within 40; a chunk is added only when the one ahead was missing |
| Chunks.GridKept | src/environment/LevelChunk.ts:200-222 | chunk positions stay multiples of 20 |
| Chunks.LevelManager.constructor | src/environment/LevelChunk.ts:184-196 | chunks at 0, 20 and -20, with `currentChunkX` = 0 |
| Chunks.LevelManager.Update | src/environment/LevelChunk.ts:198-224 | nothing changes in the same chunk; on a change `currentChunkX` is the target and the chunks are `Shift` of the old ones |
| Chunks.LevelManager.DropFarChunks | src/environment/LevelChunk.ts:208-215 | the backward splice loop leaves exactly the near chunks, in order |
| Audio.AudioManager.constructor | src/core/AudioManager.ts:1-40 | the manager starts stopped, with every timer at 0 |
| Audio.AudioManager.Start | src/core/AudioManager.ts:43-50 | starting is idempotent; the first call starts the drone pad |
| Audio.AudioManager.Update | src/core/AudioManager.ts:313-368 | nothing happens before start; otherwise the cues, the three timers and the drone's level are those of the schedule functions |
| Audio.AudioManager.Footsteps | src/core/AudioManager.ts:316-326 | the footstep timer becomes `FootstepTimer`, and a step plays exactly when `FootstepFires` |
| Audio.AudioManager.ForestCreatures | src/core/AudioManager.ts:328-335 | the forest timer becomes `ForestTimer`, and a creature sound plays exactly when `CreatureFires` |
| Audio.AudioManager.GuardGrowl | src/core/AudioManager.ts:337-346 | the shared timer becomes `AfterGrowl`, and a growl at `GrowlVolume` plays exactly when `GrowlFires` |
| Audio.AudioManager.WolfBark | src/core/AudioManager.ts:348-356 | the shared timer becomes `AfterBark`, and a bark plays exactly when `BarkFires` |
| Audio.FootstepRule | src/core/AudioManager.ts:317-326 | walking above 0.5, a step is due once the timer passes 0.28 (speed > 3) or 0.45; standing resets the timer to 0.3 and plays nothing |
| Audio.FootstepTimerBounded | src/core/AudioManager.ts:317-326 | the footstep timer never exceeds the step interval |
| Audio.FirstStepAfterStanding | src/core/AudioManager.ts:325 | after standing, the first step is due once the frame time exceeds the rest of the interval |
| Audio.ForestHushedDuringChase | src/core/AudioManager.ts:329-335 | while the wolf is within 30, no creature sounds and the forest timer is frozen |
| Audio.CreatureWaitBounds | src/core/AudioManager.ts:331 | the random wait is between 4 and 12 seconds |
| Audio.GrowlRule | src/core/AudioManager.ts:338-346 | a growl needs a guard within 15; the interval is 2 within 5 and 5 otherwise |
| Audio.GrowlVolumeBounds | src/core/AudioManager.ts:255 | the growl volume is (1 - d/15)·0.12, which lies in (0, 0.12], so the 0.15 cap is never reached |
| Audio.GrowlLouderWhenCloser | src/core/AudioManager.ts:343 | closer guards growl louder |
| Audio.SharedTimerAdvancesTwice | src/core/AudioManager.ts:338-356 | with a guard within 15 and the wolf within 30, the shared timer advances twice in one frame before the bark test |
| Audio.DangerLevelRule | src/core/AudioManager.ts:360-365 | the drone's level is 0.3 with the wolf within 20, else 0.2 with a guard within 10, else 0.1 |
| Audio.CuesAtMostOneEach | src/core/AudioManager.ts:316-356 | each cue plays at most once per frame, exactly when its test holds, and a growl carries its volume |

## Left out

- The physics engine (cannon-es): the integration step, contact solving and
  ray casts are not part of this model. Ground tests are inputs, and the
  physics step between frames is whatever the environment does to the bodies.
- Angles and Euclidean distances computed by the vector library: a guard's
  angle to the player and the distances passed to the audio are inputs. Other
  distance tests are squared and compared.
- Rendering: meshes, lights, spotlights, shadows, visibility toggles other
  than the wolf's, camera x/y follow, and all procedural animation (legs,
  bob, eye glow, lever rotation, plate offset) are not modelled.
- src/core/Engine.ts, src/environment/LightingAndFog.ts (the atmosphere
  update) and src/core/GameUI.ts are not part of this model. Only the
  joystick x and the two touch buttons are kept, as `TouchControls`.
- Audio synthesis, the wind's `setTimeout` loop and the resume of a
  suspended audio context are not modelled. A sound played is a returned
  `Cue`, and the drone's gain is the level it is ramped to. The random draw
  of the creature wait is an input in [0, 1).
- Random chunk content (`generateChunk`, `generateVehicle`) is not modelled.
  A chunk is known by its x position. `LevelManager` is modelled though the
  game loop never builds one.
- The service-worker registration, vite.config.ts and error-catcher.js are
  not part of this model.
- Floating-point rounding is not modelled: positions, velocities and timers
  are exact reals.
- Callbacks are data. The only closure the level installs opens the timed
  door, so a callback is the value `OpenTimedDoor`, run at once by the level.
- Drones: nothing in the program adds a drone, so the drone list stays
  empty in the assembled game. The drone loops are still modelled over any
  list.
- Default arguments: `patrolMinX = -15` and `patrolMaxX = 15` of the guard's
  constructor (src/entities/Enemy.ts:24) and `wolfDist = 999` of the audio
  update (src/core/AudioManager.ts:313) are plain parameters here. Every call
  in the program passes them explicitly, so the defaults are never used.
