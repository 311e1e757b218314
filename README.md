# Sidescroller game scripts: a Dafny model

This project models the gameplay scripts of a small Unity 2D side-scroller.
- **The player** (`PlayerController`): running, jumping with a jump counter, a dash backed by a recharging pool of charges, and a light and a heavy attack that damage the first enemy in range. The player dies after a number of hits.
- **The enemies:**
  - `EnemyHealth`: a hit counter with a delayed "Hurt" reset.
  - The patrolling wolf (`WolfController`).
  - The creature (`CreatureAI`), with health and a spell behind a cooldown.
  - Two bandit variants, `Enemy2` (melee) and `Enemy2Controller` (shoots and hits without re-checking the range).
- **Scene helpers:**
  - The story slideshow (`StoryLoader`).
  - The one-way teleporter (`TeleportWaypoint`).
  - The typewriter text effect (`TextEffect`).

Each C# script is one Dafny module:
- `GameCommon` holds what several scripts share: distance bands, the two facing rules, hit counting, cooldown timers, `WaitForSeconds` waits and the two-wait attack coroutine.
- Every `MonoBehaviour` becomes a class whose fields are the script's fields. Its methods change them under `modifies` clauses and keep a `Valid()` invariant.

How the Unity runtime is represented:
- **Engine inputs** (`Input`, `Time.deltaTime`, `Time.time`, distances, the x part of normalised directions, animator state polls, ground queries) are method parameters.
- **Animator parameters, velocities and scales** are plain fields.
- **Coroutines and `Invoke` calls** are explicit pending waits, advanced by a `Tick(dt)` method.
  - A coroutine runs synchronously up to its first `yield` when started, so the starting method performs that first part itself.
  - Disabling a component does not stop its coroutines; destroying it does.

The classes' methods are proved against pure specification functions:
- `PoolFrame` for the dash pool;
- `SelectBand` for the AI behaviour bands;
- `AdvanceRun` for the attack coroutine;
- `NextIndex` for the slideshow;
- `Chain` for the teleporter;
- `Delay` for the typewriter.

Inductive lemmas over runs of frames then state what those functions promise: a pool that stays in range and refills, damage that kills exactly at the limit, one hit per attack run, images shown in order, teleports that chain, and how long a typing run takes.

Where the code and its comments or the intended design differ, the model follows the code:
- `DamageEnemy` hits the first enemy in query order, not the nearest.
- The heavy-attack cooldown is not clamped at zero.
- The player's `hitLimit` is 100; its comment says 5.
- `TakeHit` in the player and in the wolf has no dead guard.
- `Enemy2`'s dead guard is commented out.
- `SkipTyping` leaves the run handle set, so `IsTyping` stays true.

The two defects under "## Findings" are the exception. For these, the classes model the corrected behaviour, and a separate as-written model sits beside them:
- `EnemyHealth.TakeDamage` throws as written.
- The player's attacks are modelled against the corrected enemy.

## Model

| member | source | states |
|---|---|---|
| GameCommon.SelectBand | Assets/Scripts/QurdMovement.cs:63-81 | the three behaviour bands partition the distances: out of sense range iff `d > senseRange`, chase iff `attackRange < d <= senseRange`, attack iff within both ranges |
| GameCommon.CloserIsNoLessAggressive | Assets/Scripts/CreatureMovement.cs:51-73 | with the attack range inside the sense range, a smaller distance never selects a less aggressive band |
| GameCommon.FaceTravel | Assets/Scripts/QurdMovement.cs:90-93 | after the wolf's and creature's flip rule the facing is right for a rightward step, left for a leftward one, unchanged for a vertical one |
| GameCommon.FaceAgainstTravel | Assets/Scripts/Enemy2.cs:77-80 | the Enemy2 flip rule ends with "facing right" after a leftward step and not after a rightward one, unchanged when there is no horizontal part |
| GameCommon.FacingRulesAreOpposite | Assets/Scripts/Enemy2Controller.cs:82-85 | on every step with a horizontal part the Enemy2 rule gives the opposite facing to the wolf's rule |
| GameCommon.HitsAfterIsTotal | Assets/Scripts/EnemyHealth.cs:14 | after any run of `hitCount += damage` calls the count is the starting count plus the total damage |
| GameCommon.HitsNeverDecrease | Assets/Scripts/EnemyHealth.cs:14 | with non-negative damage the hit count never decreases |
| GameCommon.DiesIffTotalReachesLimit | Assets/Scripts/EnemyHealth.cs:14-19 | with non-negative damage `Die` is reached in a run of calls iff there is a call and the total reaches the limit, whatever the order and split |
| GameCommon.WaitResumesWhenDue | Assets/Scripts/QurdMovement.cs:124-125 | a `WaitForSeconds(left)` has resumed after a run of non-negative frames iff a frame passed and their total reached `left`; until then `left` minus the total remains |
| GameCommon.IdleStaysIdle | Assets/Scripts/QurdMovement.cs:124-125 | a finished wait never fires again |
| GameCommon.CooldownExpires | Assets/Scripts/MovementChar.cs:79-80 | an unclamped cooldown has run out (<= 0) iff it started expired or the elapsed time reached it; before that it equals the start minus the elapsed time |
| GameCommon.PendingWaitsKept | Assets/Scripts/teleport_waypoint.cs:109 | the pending list after a frame holds every wait still to go exactly as often as before (two equal `Invoke(ResetTeleport)` delays from one frame stay two) and none that is over |
| GameCommon.StaysExpired | Assets/Scripts/MovementChar.cs:79 | an expired cooldown is no longer decremented |
| GameCommon.OneHitPerRun | Assets/Scripts/Enemy2.cs:108-124 | an attack coroutine resolves exactly one hit once past its wind-up and none before, never two; a run not in its wind-up resolves none |
| GameCommon.LatchHeldForWindUpAndCooldown | Assets/Scripts/Enemy2.cs:103-124 | the attack latch is released only after at least the wind-up plus `attackCooldown` has passed (the rest of the cooldown, for a run already recovering) |
| GameCommon.ReadyStaysReady | Assets/Scripts/Enemy2.cs:124 | a finished attack run stays finished without a new `Attack` |
| EnemyHealth.EnemyHealth.constructor | Assets/Scripts/EnemyHealth.cs:6-8 | a new enemy has no hits, no Hurt flag, no pending reset and is alive |
| EnemyHealth.EnemyHealth.TakeDamage | Assets/Scripts/EnemyHealth.cs:10-20 | the intended behaviour: Hurt on, one 0.5 s `NoHurt` scheduled, the count grows by exactly `damage`, destroyed iff already destroyed or the count reached 2, with no dead guard |
| EnemyHealth.EnemyHealth.Die | Assets/Scripts/EnemyHealth.cs:26-31 | the enemy is destroyed; the count and the Hurt state are untouched |
| EnemyHealth.EnemyHealth.Tick | Assets/Scripts/EnemyHealth.cs:21-25 | each `NoHurt` wait that runs out clears Hurt and the rest stay pending; a destroyed enemy's waits are dropped unfired |
| EnemyHealth.DamagedByCounts | Assets/Scripts/EnemyHealth.cs:10-20 | on a live enemy, any run of `Damaged` calls ends with count `HitsAfter`, destroyed iff `DiesDuring` at 2, and one `NoHurt` wait per hit |
| EnemyHealth.DestroyedStaysDestroyed | Assets/Scripts/EnemyHealth.cs:16-19 | a destroyed enemy stays destroyed whatever hits follow |
| EnemyHealth.HitsOnlyAdd | Assets/Scripts/EnemyHealth.cs:12-14 | any run of hits adds exactly the damage to the count and one wait per hit |
| EnemyHealth.AsWrittenNeverDies | Assets/Scripts/EnemyHealth.cs:8-14 | as written (animator never assigned) no run of hits changes the count or kills |
| EnemyHealth.AssignedAnimatorCounts | Assets/Scripts/EnemyHealth.cs:10-20 | with the animator present the as-written calls count like `HitsAfter` and kill like `DiesDuring` at 2 |
| EnemyHealth.TwoLightHitsShowTheDifference | Assets/Scripts/EnemyHealth.cs:12-19 | two 1-damage hits kill a fresh enemy with the animator present and leave it at 0 hits, alive, as written |
| EnemyHealth.KilledIffTotalReachesTwo | Assets/Scripts/EnemyHealth.cs:14-19 | with non-negative damage a fresh enemy dies iff the total damage reaches 2, and the count is the total |
| MovementChar.PoolFrame | Assets/Scripts/MovementChar.cs:82-88 | one frame of the dash pool: in range stays in range; a started dash spends one charge (arming the timer when the pool empties); otherwise only the recharge step happens; a non-empty pool without a dash is untouched |
| MovementChar.PoolStaysInRange | Assets/Scripts/MovementChar.cs:73 | over any run of frames the charges stay within [0, maxDashCharges] |
| MovementChar.FullPoolStaysFull | Assets/Scripts/MovementChar.cs:83 | a full pool stays full while no dash is asked for |
| MovementChar.EmptyPoolRefills | Assets/Scripts/MovementChar.cs:83-88 | an empty pool keeps 0 charges and its timer drops by the elapsed time until that reaches the timer, then holds exactly the maximum |
| MovementChar.DashScenario | Assets/Scripts/MovementChar.cs:199-204 | with two charges and a 1 s recharge, two dashes start (2, 1, 0 charges), a third is refused, and one second later the pool is full |
| MovementChar.DashDirection | Assets/Scripts/MovementChar.cs:213-216 | a dash always moves: the raw input when non-zero, else left iff the sprite faces left |
| MovementChar.FlipAfterInput | Assets/Scripts/MovementChar.cs:105-108 | the sprite faces left after a leftward input, right after a rightward one, unchanged on a neutral one |
| MovementChar.FirstInRangeFrom | Assets/Scripts/MovementChar.cs:161-173 | the target from a given index on is the first enemy in query order within range (all earlier ones are out of range), or none iff every later enemy is out of range |
| MovementChar.FindTarget | Assets/Scripts/MovementChar.cs:161-173 | the `foreach ... break` loop returns the first enemy in query order within range (all earlier ones are out of range), or nothing iff every enemy is out of range; that is `FirstInRange` |
| MovementChar.AttackFrame | Assets/Scripts/MovementChar.cs:133-155 | one frame of attack bookkeeping, with or without `TakeDamage` throwing: a light reset is started iff J is pressed and the hit does not throw; if the heavy attack does not fire, the latch, the poll and the counted-down cooldown are kept; a heavy hit that throws sets the latch but starts no poll and keeps the cooldown; otherwise the latch and the poll are set unless the animation is done, and the cooldown restarts |
| MovementChar.PollStep | Assets/Scripts/MovementChar.cs:183-195 | a running poll releases the latch and ends once the animation is done; otherwise nothing changes |
| MovementChar.LightResetSkippedAsWritten | Assets/Scripts/MovementChar.cs:136-142 | as written, a J press on an enemy with an `EnemyHealth` starts no light reset and leaves the heavy latch as it was; without the exception it starts one |
| MovementChar.HeavyHitOnEnemyHealthJams | Assets/Scripts/MovementChar.cs:145-153 | as written, a heavy attack that reaches an `EnemyHealth` leaves the latch set with no poll running, and the cooldown is not restarted |
| MovementChar.JammedLatchStaysSet | Assets/Scripts/MovementChar.cs:145-153 | once the latch is set with no poll running it stays set after any run of frames, and the heavy attack never fires again |
| MovementChar.CorrectedLatchIsAlwaysPolled | Assets/Scripts/MovementChar.cs:145-153 | without the exception the latch is set exactly while a poll runs, in every frame of any run |
| MovementChar.PolledLatchReleases | Assets/Scripts/MovementChar.cs:183-195 | without the exception a set latch is released in the first frame whose animation is done, and K then fires once the cooldown has run out |
| MovementChar.PlayerController.constructor | Assets/Scripts/MovementChar.cs:65-74 | a new player has a full dash pool, no hits, no jumps, is not grounded and is enabled |
| MovementChar.PlayerController.Update | Assets/Scripts/MovementChar.cs:76-97 | one frame: the pool follows `PoolFrame`; a started dash sets `isDashing`, its velocity and duration; movement input applies only when not dashing; jump and ground refill; heavy attack fires iff K is pressed, the decremented cooldown is out and the latch is clear; each J schedules one light reset; hits unchanged; IsGrounded copies `isGrounded`; the attack bookkeeping follows `AttackFrame` without the exception; each enemy's state is its old state with the light hit applied iff J was pressed and it is the first within light range, then the heavy hit iff the heavy attack fired and it is the first within heavy range |
| MovementChar.PlayerController.AttackPhase | Assets/Scripts/MovementChar.cs:95-96 | `HandleAttack`'s effects on the attack state and on every enemy, then IsGrounded copies `isGrounded`; the movement state, the hit count and `enabled` are unchanged |
| MovementChar.PlayerController.UpdateAnimator | Assets/Scripts/MovementChar.cs:224-227 | the animator's IsGrounded parameter equals `isGrounded` |
| MovementChar.PlayerController.Locomotion | Assets/Scripts/MovementChar.cs:78-94 | the part of `Update` before `HandleAttack`: timers, dash, movement unless dashing, jump; Dash is set iff it was or a dash starts, Walking is the input's magnitude unless dashing, Jumping is set iff airborne and it was or a jump happened; the light-reset waits, LightAttack, HeavyAttack and the latch are unchanged |
| MovementChar.PlayerController.Steer | Assets/Scripts/MovementChar.cs:90-92 | `HandleDash`, then movement only if no dash is in progress; Dash is set iff it was or a dash starts, and Walking is the input's magnitude unless a dash is in progress, when it keeps its value |
| MovementChar.PlayerController.UpdateTimers | Assets/Scripts/MovementChar.cs:78-88 | the heavy cooldown follows `CooldownStep` and the pool follows `Recharge` |
| MovementChar.PlayerController.HandleMovement | Assets/Scripts/MovementChar.cs:99-111 | horizontal velocity is input times `moveSpeed`, facing follows `FlipAfterInput`, "Walking" is the input's magnitude |
| MovementChar.PlayerController.HandleJump | Assets/Scripts/MovementChar.cs:113-129 | a jump needs a jump left and uses exactly one; on the ground the counter is refilled to the maximum and "Jumping" cleared |
| MovementChar.PlayerController.HandleAttack | Assets/Scripts/MovementChar.cs:133-155 | every J press sets LightAttack and schedules a reset; the heavy attack fires iff K, cooldown <= 0 and latch clear, setting the latch (released at once only if the animation is already done) and the cooldown; each enemy gains the light hit iff J was pressed and it is the first within light range, then the heavy hit iff the heavy attack fired and it is the first within heavy range, and no other enemy changes |
| MovementChar.PlayerController.PollHeavyReset | Assets/Scripts/MovementChar.cs:183-195 | the latch and HeavyAttack are released iff the animation reports it has finished |
| MovementChar.PlayerController.DamageEnemy | Assets/Scripts/MovementChar.cs:159-174 | the target is `FirstInRange`; the enemy at that index, if it has an `EnemyHealth`, changes by `Damaged`, and every other enemy is unchanged |
| MovementChar.PlayerController.HandleDash | Assets/Scripts/MovementChar.cs:197-222 | a dash starts iff the key is pressed, not dashing and a charge is left; it spends one charge with `Spend` and starts `PerformDash` with `DashDirection` |
| MovementChar.PlayerController.Tick | Assets/Scripts/MovementChar.cs:183-222 | when the dash wait runs out the dash ends with zero horizontal velocity; the heavy poll releases the latch and the HeavyAttack flag when the animation is done, following `PollStep`; a dash not in progress keeps its time |
| MovementChar.PlayerController.FinishDash | Assets/Scripts/MovementChar.cs:217-220 | the dash ends, velocity zeroed and Dash cleared, exactly when its time is up |
| MovementChar.PlayerController.ExpireLightResets | Assets/Scripts/MovementChar.cs:176-181 | each `ResetAttack` wait that runs out clears LightAttack; the others stay pending |
| MovementChar.PlayerController.OnCollisionEnter2D | Assets/Scripts/MovementChar.cs:230-237 | touching the ground layer grounds the player and refills the jumps; other layers change nothing |
| MovementChar.PlayerController.OnCollisionExit2D | Assets/Scripts/MovementChar.cs:239-243 | leaving the ground layer ungrounds the player |
| MovementChar.PlayerController.TakeHit | Assets/Scripts/MovementChar.cs:264-272 | exactly one more hit; `Die` on every hit at or past 100, with no dead guard |
| MovementChar.PlayerController.Die | Assets/Scripts/MovementChar.cs:274-281 | Die trigger, velocity zero, component disabled |
| QurdMovement.PatrolAlternates | Assets/Scripts/QurdMovement.cs:98-101 | from A the patrol target after n arrivals is A for even n and B for odd n (distinct points), always one of them |
| QurdMovement.TwoArrivalsReturn | Assets/Scripts/QurdMovement.cs:98-101 | two arrivals in a row from A bring the target back to A |
| QurdMovement.WolfController.constructor | Assets/Scripts/QurdMovement.cs:48-53 | patrol begins towards A; no hits, alive, enabled, not attacking |
| QurdMovement.WolfController.Update | Assets/Scripts/QurdMovement.cs:55-82 | a dead wolf does nothing; otherwise it patrols, chases (jumping only when grounded and the player is more than 0.5 higher) or attacks per band, an attack starting iff alive, in range and not latched; the attack wait is untouched except when an attack starts; "Speed" is the new speed when patrolling or chasing and unchanged otherwise |
| QurdMovement.WolfController.Patrol | Assets/Scripts/QurdMovement.cs:85-102 | velocity towards the target at patrol speed, facing per `FaceTravel`; on arrival (< 0.2) the target switches to the other point |
| QurdMovement.WolfController.ChasePlayer | Assets/Scripts/QurdMovement.cs:105-116 | velocity towards the player at chase speed, facing per `FaceTravel` |
| QurdMovement.WolfController.Face | Assets/Scripts/QurdMovement.cs:90-93 | the flip rule gives `FaceTravel` |
| QurdMovement.WolfController.Attack | Assets/Scripts/QurdMovement.cs:118-126 | latch set, stopped, one Attack trigger, a wait of `attackCooldown` pending |
| QurdMovement.WolfController.Jump | Assets/Scripts/QurdMovement.cs:128-132 | vertical velocity `jumpForce`, one Jump trigger |
| QurdMovement.WolfController.Tick | Assets/Scripts/QurdMovement.cs:124-125 | the attack wait advances; the latch is released exactly when it runs out |
| QurdMovement.WolfController.TakeHit | Assets/Scripts/QurdMovement.cs:142-150 | exactly one more hit; dead, stopped and disabled iff the count reached 2 (no dead guard) |
| QurdMovement.WolfController.Die | Assets/Scripts/QurdMovement.cs:152-159 | dead, stopped, one Die trigger, disabled |
| QurdMovement.WolfController.Flip | Assets/Scripts/QurdMovement.cs:162-168 | facing and the sign of the x scale both change |
| CreatureMovement.DeadIsFrozen | Assets/Scripts/CreatureMovement.cs:140 | once dead, no damage changes health or the dead flag |
| CreatureMovement.DiesIffDepleted | Assets/Scripts/CreatureMovement.cs:138-151 | with non-negative damage a live creature of health h is dead iff it was hit and the total reached h; alive, its health is h minus the total |
| CreatureMovement.SpellStep | Assets/Scripts/CreatureMovement.cs:46-66 | a spell is cast iff chasing and the decremented timer has run out, and then the timer restarts at the cooldown |
| CreatureMovement.NoSpellBeforeCooldown | Assets/Scripts/CreatureMovement.cs:46-66 | with time t left on the timer, no spell is cast while less than t seconds pass, whatever the creature does |
| CreatureMovement.ChaseCastsWhenReady | Assets/Scripts/CreatureMovement.cs:62-66 | with the timer run out, the next chasing frame casts and restarts the timer |
| CreatureMovement.CreatureAI.constructor | Assets/Scripts/CreatureMovement.cs:33-38 | full health, alive, facing right, no cues |
| CreatureMovement.CreatureAI.Update | Assets/Scripts/CreatureMovement.cs:40-74 | a dead creature does nothing; otherwise the spell timer follows `SpellStep` and the band decides walk, attack, spell or idle cues and velocity |
| CreatureMovement.CreatureAI.MoveTowardPlayer | Assets/Scripts/CreatureMovement.cs:79-93 | Walk cue, velocity towards the player, facing per `FaceTravel` |
| CreatureMovement.CreatureAI.Attack | Assets/Scripts/CreatureMovement.cs:99-106 | stopped, one Attack cue |
| CreatureMovement.CreatureAI.AttackNoEffect | Assets/Scripts/CreatureMovement.cs:112-115 | one Attack-NoEffect cue, even when dead |
| CreatureMovement.CreatureAI.Spell | Assets/Scripts/CreatureMovement.cs:120-124 | one Spell cue |
| CreatureMovement.CreatureAI.SpellNoEffect | Assets/Scripts/CreatureMovement.cs:129-132 | one Spell-NoEffect cue, even when dead |
| CreatureMovement.CreatureAI.TakeDamage | Assets/Scripts/CreatureMovement.cs:138-151 | health follows `Damage`: a no-op when dead; otherwise Hurt if health stays positive, else Death and stopped |
| CreatureMovement.CreatureAI.TakeDamageNoEffect | Assets/Scripts/CreatureMovement.cs:157-161 | one Hurt-NoEffect cue, only while alive |
| CreatureMovement.CreatureAI.Die | Assets/Scripts/CreatureMovement.cs:166-172 | dead, stopped, one Death cue |
| CreatureMovement.CreatureAI.DieNoEffect | Assets/Scripts/CreatureMovement.cs:178-183 | dead, stopped, one Death-NoEffect cue, health untouched |
| CreatureMovement.CreatureAI.Flip | Assets/Scripts/CreatureMovement.cs:188-194 | facing and the sign of the x scale both change |
| Enemy2.Enemy2.constructor | Assets/Scripts/Enemy2.cs:20-34 | not attacking, facing right, no run in progress |
| Enemy2.Enemy2.Update | Assets/Scripts/Enemy2.cs:36-63 | no dead guard; idle out of sense range, chase with `FaceAgainstTravel` in the chase band, start an attack run (0.3 s wind-up) in range only when not already attacking, leaving Walking as it was; the hits of the run change only when a run starts |
| Enemy2.Enemy2.ChasePlayer | Assets/Scripts/Enemy2.cs:69-84 | Walking on, Attack off, velocity towards the player, facing per `FaceAgainstTravel` |
| Enemy2.Enemy2.Idle | Assets/Scripts/Enemy2.cs:89-94 | horizontal stop, both flags off |
| Enemy2.Enemy2.Attack | Assets/Scripts/Enemy2.cs:101-108 | latch set, horizontal stop, Attack on, wind-up of 0.3 s pending |
| Enemy2.Enemy2.Tick | Assets/Scripts/Enemy2.cs:108-124 | the run follows `AdvanceRun`; the player is hit iff the wind-up ends this frame and the player is still within range; a hit has `TakeHit`'s effect on the player (die trigger, zero velocity and disabled at or past the limit, only the count otherwise), and without a hit the player is unchanged; the latch and flag are released when the cooldown ends |
| Enemy2.Enemy2.Flip | Assets/Scripts/Enemy2.cs:174-180 | facing and the sign of the x scale both change |
| Enemy2Controller.Enemy2Controller.constructor | Assets/Scripts/Enemy2Controller.cs:25-39 | not attacking, facing right, no run, no bullets |
| Enemy2Controller.Enemy2Controller.Update | Assets/Scripts/Enemy2Controller.cs:41-68 | the Enemy2 bands without a dead guard; an attack stops the enemy completely, fires one bullet if both references are set, and starts a 0.1 s wind-up, leaving Walking as it was; the hits of the run change only when a run starts |
| Enemy2Controller.Enemy2Controller.ChasePlayer | Assets/Scripts/Enemy2Controller.cs:74-89 | Walking on, Attack off, velocity towards the player, facing per `FaceAgainstTravel` |
| Enemy2Controller.Enemy2Controller.Idle | Assets/Scripts/Enemy2Controller.cs:94-99 | horizontal stop, both flags off |
| Enemy2Controller.Enemy2Controller.Attack | Assets/Scripts/Enemy2Controller.cs:106-114 | latch set, both velocity components zero, Attack on, one `Shoot`, 0.1 s wind-up pending |
| Enemy2Controller.Enemy2Controller.Shoot | Assets/Scripts/Enemy2Controller.cs:131-136 | a bullet is spawned iff both the player and the bullet prefab are assigned |
| Enemy2Controller.Enemy2Controller.Tick | Assets/Scripts/Enemy2Controller.cs:114-125 | the run follows `AdvanceRun`; when the wind-up ends the player is hit whatever the distance (if it has a controller); a hit has `TakeHit`'s effect on the player, and without a hit the player is unchanged; the latch and flag are released when the cooldown ends |
| Enemy2Controller.Enemy2Controller.Flip | Assets/Scripts/Enemy2Controller.cs:204-210 | facing and the sign of the x scale both change |
| StoryLoader.FirstPassInOrder | Assets/Scripts/StoryLoader.cs:114-133 | the first `count` advances show images 0, 1, ..., in order, looping or not |
| StoryLoader.NonLoopingEnds | Assets/Scripts/StoryLoader.cs:118-128 | without looping, the advance after the last image ends the sequence for good |
| StoryLoader.LoopingPeriod | Assets/Scripts/StoryLoader.cs:118-123 | with looping, `count` more advances come back to the same image |
| StoryLoader.LoopingCycles | Assets/Scripts/StoryLoader.cs:118-133 | with looping, after k full rounds and r < count more advances image r is shown |
| StoryLoader.SkipFrame | Assets/Scripts/StoryLoader.cs:76-89 | holding after a frame iff (already holding or pressed) and not released; a release clears the timer; the timer grows by dt only in a held frame |
| StoryLoader.HoldingSkipEnds | Assets/Scripts/StoryLoader.cs:86-96 | holding the skip key ends the sequence in some frame iff a frame passed and the held time reaches `skipHoldDuration` |
| StoryLoader.StoryLoader.constructor | Assets/Scripts/StoryLoader.cs:18-21 | index 0, sequence inactive, timer 0, not holding |
| StoryLoader.StoryLoader.Start | Assets/Scripts/StoryLoader.cs:23-47 | an empty list disables the component and leaves the sequence inactive; otherwise exactly image 0 of the assigned images is shown, the prompt hidden, the sequence active |
| StoryLoader.StoryLoader.Update | Assets/Scripts/StoryLoader.cs:49-55 | nothing once inactive; otherwise the skip step per `SkipFrame` (ending the sequence when held long enough), then the advance key per `NextIndex`; the prompt is shown once there is an interaction, and an ending hides it and every assigned image and loads the scene once |
| StoryLoader.StoryLoader.HandleSkipInput | Assets/Scripts/StoryLoader.cs:66-98 | the first interaction shows the prompt; the hold state follows `SkipFrame`; the sequence ends (one scene load, prompt and every assigned image hidden) iff the held timer reached the duration, and otherwise the images are untouched |
| StoryLoader.StoryLoader.AdvanceStory | Assets/Scripts/StoryLoader.cs:100-134 | a no-op once inactive; otherwise the timer is cleared and the index moves per `NextIndex`, showing exactly the new image, or the sequence ends with every image hidden |
| StoryLoader.StoryLoader.EndSequence | Assets/Scripts/StoryLoader.cs:136-154 | inactive, every assigned image hidden, prompt hidden, one scene load |
| TeleportWaypoint.Pairs | Assets/Scripts/teleport_waypoint.cs:69-72 | the four pairs checked are (1,2), (3,4), (5,6), (7,8), in that order |
| TeleportWaypoint.HopsBounded | Assets/Scripts/teleport_waypoint.cs:65-73 | a frame teleports at most once per pair |
| TeleportWaypoint.NoHopIffNoSourceNear | Assets/Scripts/teleport_waypoint.cs:75-95 | no teleport happens in a frame iff no complete pair's source is strictly within the radius of the starting position, and then the player does not move |
| TeleportWaypoint.EndsOnADestination | Assets/Scripts/teleport_waypoint.cs:97-102 | after a teleport the player stands on the destination of one of the pairs |
| TeleportWaypoint.ChainedTeleport | Assets/Scripts/teleport_waypoint.cs:69-72 | teleports chain within one frame: from waypoint 1, with waypoint 2 near 3, the player ends on waypoint 4 after two teleports |
| TeleportWaypoint.TeleportWaypoint.constructor | Assets/Scripts/teleport_waypoint.cs:31-48 | teleporting allowed, object 1 shown and object 2 hidden; a single object named in both fields ends hidden |
| TeleportWaypoint.TeleportWaypoint.Update | Assets/Scripts/teleport_waypoint.cs:65-73 | nothing while blocked; otherwise the position follows `Chain` over the four pairs, teleporting blocks iff a teleport happened, the objects toggle once per teleport, one reset is scheduled per teleport |
| TeleportWaypoint.TeleportWaypoint.CheckTeleport | Assets/Scripts/teleport_waypoint.cs:75-95 | a pair with a missing end is skipped; otherwise a teleport iff strictly within the radius of the source, without looking at `canTeleport` |
| TeleportWaypoint.TeleportWaypoint.TeleportPlayer | Assets/Scripts/teleport_waypoint.cs:97-110 | blocked, moved to the destination, objects toggled (object 1 shows `showObject1`, object 2 the opposite, and a single object named in both fields shows the opposite), unassigned ones untouched, one reset scheduled |
| TeleportWaypoint.TeleportWaypoint.Tick | Assets/Scripts/teleport_waypoint.cs:109-116 | teleporting is allowed again exactly when a pending reset runs out |
| TeleportWaypoint.TeleportWaypoint.ResetTeleport | Assets/Scripts/teleport_waypoint.cs:112-116 | teleporting allowed |
| TextEffect.PunctuationStepStretchesAndSounds | Assets/Scripts/TextEffect.cs:79-98 | a step up to one of the marks `. ! ? , ; :` (the first character aside) waits the stretched delay, and plays the sound iff the sound is on and its cooldown is over, since no mark is white space |
| TextEffect.DelaysFromAddUp | Assets/Scripts/TextEffect.cs:72-105 | from step i on a run waits once per step, stretched once per punctuation mark counted, plain otherwise |
| TextEffect.RunDuration | Assets/Scripts/TextEffect.cs:72-105 | a run waits `Length + 1` times, taking `(Length + 1 - P)` base delays plus `P` stretched ones, P being the punctuation marks after the first character |
| TextEffect.PlaysAreSpaced | Assets/Scripts/TextEffect.cs:82-86 | two plays of the typing sound are more than `soundCooldown` apart, the first more than that after the previous play |
| TextEffect.TextEffect.constructor | Assets/Scripts/TextEffect.cs:24-38 | the full text is taken from the component, which is left empty with 0 visible characters; no run |
| TextEffect.TextEffect.OnEnable | Assets/Scripts/TextEffect.cs:40-46 | a run starts iff `startOnEnable`, exactly as `StartTyping` (first wait, first sound check); otherwise nothing changes |
| TextEffect.TextEffect.StartTyping | Assets/Scripts/TextEffect.cs:48-55 | any run is stopped and one new run starts at step 0: the full text, nothing visible, the base delay pending, the sound per `PlaysSound` |
| TextEffect.TextEffect.SkipTyping | Assets/Scripts/TextEffect.cs:57-64 | with a handle the run stops and the whole text is visible; the handle stays, so `IsTyping` is unchanged |
| TextEffect.TextEffect.Tick | Assets/Scripts/TextEffect.cs:74-108 | when the wait runs out the run moves on by exactly one step (one more visible character, the next wait per `Delay`); after the wait of step `Length` it ends and clears the handle; the typing sound plays on the new step iff `PlaysSound` holds, and nothing changes while no run is active |
| TextEffect.TextEffect.TypeStep | Assets/Scripts/TextEffect.cs:76-105 | step i shows i characters, plays the sound per `PlaysSound` (recording the time), and waits `Delay` |
| TextEffect.TextEffect.ToggleSound | Assets/Scripts/TextEffect.cs:111-114 | the sound flag takes the given value |

## Left out

- Rendering, audio output, particle effects, gizmos and `Debug.Log`.
- `StartShake` and `CameraShake`: a camera effect with no game state.
- `SceneManager.LoadScene`: it is counted (`sceneLoads`) but not performed.
- The skip progress bar's `fillAmount`: a division by `skipHoldDuration` that only drives the display.
- **Physics, transforms and engine queries are inputs:**
  - `Rigidbody2D` integration, `Physics2D.OverlapCircle`/`IsGrounded` and the ground-layer bit mask;
  - `FindGameObjectsWithTag` and `GetComponent`;
  - distances and normalised directions (only their horizontal part is used).
- **Floating point:** time, distances and velocities are exact reals.
  - Unity's `Vector3 ==` is an approximate comparison; the wolf's patrol comparison uses exact equality against point A.
  - The teleporter works in the plane and does not copy the z coordinate.
- **Null references:**
  - Unassigned references that would throw are not modelled: a missing `player` in the enemies' `Update`, a missing text component in `TextEffect.Awake`, a null image list in `StoryLoader.EndSequence`.
  - A null `storyImages` list is treated like an empty one.
- The bullet's own flight, `spawnPoint` and rotation in `Shoot`: `Shoot` only records that a bullet was spawned.
- Waypoints moving after they are first read: the teleporter's positions found at `Start` and the wolf's patrol points `pointA`/`pointB` (read live at each arrival, QurdMovement.cs:48-101) are constants.
- TextEffect.TextEffect.constructor: requires `charactersPerSecond` to be non-zero. With zero the C# division gives an infinite delay and the typing never advances; this case is not modelled.
- MovementChar.PlayerController.Update: requires the component to be enabled, because Unity calls `Update` only on enabled components.
- MovementChar.PlayerController.Tick: does not advance the light-attack resets. `ExpireLightResets` advances those waits separately.
- MovementChar.PlayerController.HandleAttack: modelled against the corrected `EnemyHealth.TakeDamage`, as is `Update`. As written, `TakeDamage` throws (see Findings), so a light hit on an `EnemyHealth` ends `Update`: `ResetAttack` does not start, LightAttack stays set, the heavy block and `UpdateAnimator` are skipped. A heavy hit on one sets the latch but never starts `ResetHeavyAttack` or the cooldown, so the heavy attack can never fire again. `AttackFrame` with `throws` captures this bookkeeping, and `JammedLatchStaysSet` proves the lock-out.
- TextEffect: the text is a sequence of Unicode scalar values, while C# `Length` and indexing count UTF-16 code units. A character outside the Basic Multilingual Plane is one typing step here and two (a surrogate pair, each with its own delay and sound check) in the original.
- Coroutine timing: in each frame a component's `Update` runs first and its `Tick` second, as Unity resumes coroutines after `Update`. One `Tick` per frame advances every pending wait by that frame's `dt`.
  - The `Tick` of the frame that created a wait already counts that frame's `dt`, because each class's `Tick` advances every pending wait, including one its `Update` (or `StartTyping`, `TeleportPlayer`, `TakeDamage`) has just created. In Unity, a `WaitForSeconds` or `Invoke` first resumes in the next frame, so each wait here resolves up to one frame earlier than in the original: Enemy2's 0.3 s wind-up can land its hit in the frame that started the attack. This applies to `Enemy2.Tick`, `Enemy2Controller.Tick`, `WolfController.Tick`, `TeleportWaypoint.Tick`, `TextEffect.Tick`, `EnemyHealth.Tick`, `PlayerController.Tick` and `PlayerController.ExpireLightResets`.
  - A `ResetHeavyAttack` poll started in `PlayerController.Update` makes its first check there. `PlayerController.Tick` in the same frame checks it again. Given the same animation state this changes nothing, since a finished animation already released the latch.
  - The pure `Frame` resumes only a poll that was running before the frame, after `AttackFrame`.
- StoryLoader.StoryLoader.Start: every entry of `storyImages` is taken to be a different GameObject, with one activity flag per entry. With one object listed twice (say `[X, Y, X]`), the original's last `SetActive` on that object wins and X ends hidden, while the model shows entry 0. The same assumption underlies `AdvanceStory`, `EndSequence` and the `Valid()` claim that the current image is the one shown.

## Findings

| source | as written | input that shows it | evidently intended | confidence | as-written member | corrected member |
|---|---|---|---|---|---|---|
| Assets/Scripts/EnemyHealth.cs:8-14 | `animator` is private and never assigned, so `animator.SetBool("Hurt", true)` throws before `hitCount += damage`; the enemy can never be damaged or die | two light attacks (damage 1 each) on a fresh enemy: as written 0 hits and alive | count the damage and destroy the enemy at two hits, showing the Hurt animation | not executed | EnemyHealth.AsWrittenNeverDies, EnemyHealth.TwoLightHitsShowTheDifference | EnemyHealth.EnemyHealth.TakeDamage, EnemyHealth.KilledIffTotalReachesTwo |
| Assets/Scripts/MovementChar.cs:145-153 | through the throwing `TakeDamage`, a heavy attack on an enemy with an `EnemyHealth` sets `heavyAttackActive` and then aborts before `ResetHeavyAttack` starts, so nothing ever clears the latch | K with the cooldown out and an `EnemyHealth` enemy within heavy range, then any frames: the heavy attack never fires again | the latch is cleared by the reset poll once the animation ends, so the heavy attack is available again after its cooldown | not executed | MovementChar.HeavyHitOnEnemyHealthJams, MovementChar.JammedLatchStaysSet | MovementChar.PlayerController.HandleAttack, MovementChar.CorrectedLatchIsAlwaysPolled |
