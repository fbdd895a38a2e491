# Forsaken City — a Dafny model of the game's scripts

Forsaken City is a 2D platformer. The player walks, jumps, falls and is knocked back. They switch between a melee weapon, a shotgun, grenades and a grappling hook, and lose hearts to enemies and polluted air. Three kinds of enemy patrol the level:

- walkers that follow the player along the floor;
- flyers that patrol, charge and retreat;
- hangers that crawl on the ceiling, drop down and run.

A game session can be paused and ends with a fade to black and a win or game-over dialog.

The model keeps the shape of the C# scripts. Each component that updates its own fields is a Dafny `class` with those fields. Its `Update`, collision handlers and public methods are `method`s that state their whole new state. In most classes this is one equation, `Snapshot() == F(old(Snapshot()), …)`, with a pure function `F` for each operation. The properties of the game are proved about those functions as lemmas: state machines, cooldowns, ammunition bookkeeping and the heart bar.

Modules, one per script:

- `CSharpInt` holds the 32-bit `int`/`uint` semantics. Arithmetic wraps when unchecked, casts are unchecked, and `/` and `%` truncate toward zero.
- `Vectors` is `Vector2`.
- `ItemTypes` is the item enum and the next/previous item walks.
- `Hud` is the heart bar and the item label.
- `Input` is the input handler.
- `EnemyHealth` is `EnemyController`.
- `EnemyBase` is `EnemyMovement`.
- `WalkingEnemies`, `FlyingEnemies` and `HangingEnemies` are the three enemy kinds.
- `Locomotion` is `PlayerMovement`.
- `Guns` and `Grenades` are the weapon controllers.
- `Session` is `GameManager`.
- `Players` is `PlayerController`.

The engine is represented by data:

- **Physics queries are per-frame inputs.** This covers overlap boxes, ray casts, distances, normalised directions and the player's body velocity after the physics step, which arrive as "view" records. Where a distance or direction matters, the requires ties it to the positions (`IsDistance`, `IsDirection`).
- **Side effects are event logs.** Animator parameters, sounds, impulses and HUD writes are appended to logs.
- **Time is a parameter.** The frame time and the current time are passed in.
- **The derived enemy scripts are composed, not inherited.** Each one holds the `EnemyMovement` and `EnemyController` it extends.
- **`enabled` flags are fields.** Setting `PlayerMovement.enabled` or the input handler's `enabled` runs its `OnEnable`/`OnDisable` only when the flag changes, as the engine does.
- **Unity's `float` is an exact `real`.** See "## Left out".

Quirks of the code that the model keeps:

- An enemy's death effects (sound, "Die" trigger, ignored player collisions) run again on every further lethal hit (`Assets/Scripts/Enemies/EnemyController.cs:59-70` has no `Alive` guard).
- The pause toggle resumes a game that has already ended (`Assets/Scripts/GameManager.cs:105-121` tests only `GameRunning`, which `EndGame` clears).
- The heart bar can draw its partial heart one slot past the last visible heart (`Assets/Scripts/UI/HUD.cs:88-106`).
- `RestoreHealth(amount)` and `AddGrenade` do not stop at the maximum (`Assets/Scripts/Player/PlayerController.cs:477-481`, `Assets/Scripts/Player/GrenadeController.cs:88-92`).
- A launched hanging enemy is never moved on: `DropFromCeiling` acts only on a crawler (`Assets/Scripts/Enemies/HangingEnemy.cs:54-58`), so it stays launching until it dies.

## Model

| member | source | states |
|---|---|---|
| CSharpInt.WrapInt32 | Assets/Scripts/Enemies/EnemyController.cs:57 | the unchecked `int` result is congruent to the exact one modulo 2^32, and equals it when it is in range |
| CSharpInt.WrapUInt32 | Assets/Scripts/Player/GunController.cs:164-175 | the unchecked `uint` result is congruent to the exact one modulo 2^32, and equals it when it is in range |
| CSharpInt.AsInt | Assets/Scripts/Enemies/EnemyController.cs:57 | the `(int)` cast of a `uint` keeps values up to `int.MaxValue` and maps larger ones to negatives |
| CSharpInt.TruncDiv | Assets/Scripts/UI/HUD.cs:88-89 | C# integer division rounds toward zero for either sign of the dividend |
| CSharpInt.TruncRem | Assets/Scripts/UI/HUD.cs:106 | C# `%` satisfies `a == b*q + r` with a remainder that takes the sign of the dividend |
| CSharpInt.Abs | Assets/Scripts/Player/PlayerMovement.cs:483-488 | `Mathf.Abs` is non-negative and is the value or its negation |
| CSharpInt.Clamp | Assets/Scripts/Player/PlayerMovement.cs:545 | `Mathf.Clamp` lands inside the interval, keeps a value already inside it, and raises a value below it to the lower bound |
| Vectors.NormalizedHorizontal | Assets/Scripts/Enemies/WalkingEnemy.cs:39 | normalising a horizontal vector gives right, left or zero according to the sign of x |
| ItemTypes.Ord | Assets/Scripts/Player/PlayerController.cs:4-12 | the enum values are 0..5, and 0 is exactly `None` |
| ItemTypes.FromOrd | Assets/Scripts/Player/PlayerController.cs:4-12 | every value 0..5 names an item, and `Ord` inverts it |
| ItemTypes.Succ | Assets/Scripts/Player/PlayerController.cs:347-350 | the increment moves to the next value and wraps past the grappling hook to `None`, never reaching `GasMask` |
| ItemTypes.Pred | Assets/Scripts/Player/PlayerController.cs:391-394 | the decrement moves to the previous value and wraps below `None` to the grappling hook |
| ItemTypes.NextSelected | Assets/Scripts/Player/PlayerController.cs:345-387 | `NextItem` stops on an unlocked item that follows the current one, or on `None`, and every item it skips is locked |
| ItemTypes.PreviousSelected | Assets/Scripts/Player/PlayerController.cs:389-430 | `PreviousItem` stops on an unlocked item that precedes the current one (wrapping from `None`), or on `None`, never on `GasMask`, and every item it skips is locked |
| ItemTypes.NextCycleAllEnabled | Assets/Scripts/Player/PlayerController.cs:345-387 | with every weapon unlocked, `NextItem` cycles None → melee → gun → grenade → hook → None |
| ItemTypes.PreviousCycleAllEnabled | Assets/Scripts/Player/PlayerController.cs:389-430 | with every weapon unlocked, `PreviousItem` runs the same cycle backwards |
| ItemTypes.PreviousUndoesNext | Assets/Scripts/Player/PlayerController.cs:345-430 | from any selectable item, `PreviousItem` after `NextItem` returns to it, whatever is locked |
| ItemTypes.NextUndoesPrevious | Assets/Scripts/Player/PlayerController.cs:345-430 | from any selectable item, `NextItem` after `PreviousItem` returns to it |
| Hud.PartialSprite | Assets/Scripts/UI/HUD.cs:108-113 | a remainder of 1, 2 or 3 selects the sprite showing that many quarters |
| Hud.Displayed | Assets/Scripts/UI/HUD.cs:86-114 | drawing the heart bar keeps the number of icons |
| Hud.HUD.constructor | Assets/Scripts/UI/HUD.cs:16-33 | the HUD starts with the label "None", no item icon and the grenade total hidden |
| Hud.HUD.SetHealthDisplay | Assets/Scripts/UI/HUD.cs:86-114 | the icons end as `Displayed` draws them, and the call completes exactly when every index the source touches exists; otherwise it stops at an index-out-of-range error |
| Hud.HUD.SetItem | Assets/Scripts/UI/HUD.cs:116-152 | the label names the item; the icon is shown exactly for the four weapons, with that weapon's sprite; the grenade total is shown exactly for grenades |
| Hud.HealthSplit | Assets/Scripts/UI/HUD.cs:88-106 | for non-negative health, health = 4·filled hearts + remainder, with remainder in 0..3 |
| Hud.NegativeHealthNoPartial | Assets/Scripts/UI/HUD.cs:106-113 | negative health draws no partial heart and no filled heart |
| Hud.ShownPrefix | Assets/Scripts/UI/HUD.cs:95-113 | the first k visible hearts show 4 quarters each up to the filled count, plus the remainder |
| Hud.HeartsShowHealth | Assets/Scripts/UI/HUD.cs:86-114 | when health fits the bar, the draw completes and the visible hearts show exactly `health` quarters |
| Hud.LoopedIcons | Assets/Scripts/UI/HUD.cs:95-113 | each drawn heart is visible; it is full below the filled count and empty above it; at the filled count it shows the remainder's sprite or is empty |
| Hud.PartialHeartOutsideBar | Assets/Scripts/UI/HUD.cs:89-113 | with max health 6 and health 5, the bar has one heart; the quarter heart is written to the hidden second icon, so the visible bar shows 4 quarters, not 5 |
| Hud.LabelIdentifiesItem | Assets/Scripts/UI/HUD.cs:122-148 | distinct weapons get distinct labels, and "None" is the label of exactly the items without an icon |
| Input.AfterSwitch | Assets/Scripts/Player/InputHandler.cs:151-186 | after `SwitchItem(n)`, each weapon action is enabled exactly when `n` selects its weapon; detonation is only ever added; every other action is untouched |
| Input.Repeat | Assets/Scripts/Player/InputHandler.cs:103-147 | n subscribed copies of a callback produce exactly n times its events |
| Input.InputHandler.constructor | Assets/Scripts/Player/InputHandler.cs:67-70 | fresh controls: nothing enabled, nothing subscribed, no input, and the component not yet enabled |
| Input.InputHandler.OnEnable | Assets/Scripts/Player/InputHandler.cs:103-147 | as written: movement, aim, jump and the scroll actions are enabled, one more copy of every `performed` callback is subscribed, and nothing else changes |
| Input.InputHandler.OnEnableOnce | Assets/Scripts/Player/InputHandler.cs:103-147 | the same enabling, with the callbacks subscribed only on the first call |
| Input.InputHandler.OnDisable | Assets/Scripts/Player/InputHandler.cs:191-205 | every action is disabled, the subscriptions stay, and nothing else changes |
| Input.InputHandler.SetEnabled | Assets/Scripts/GameManager.cs:111 | as written: setting `enabled` runs `OnEnable` or `OnDisable` only when the flag changes, so each re-enabling subscribes one more copy of the callbacks |
| Input.InputHandler.SetEnabledOnce | Assets/Scripts/GameManager.cs:134 | corrected: the same flag semantics, with the callbacks subscribed only on the first enabling |
| Input.InputHandler.Start | Assets/Scripts/Player/InputHandler.cs:60-65 | shooting and reloading start disabled |
| Input.InputHandler.Update | Assets/Scripts/Player/InputHandler.cs:73-96 | the frame's movement value is stored; the direction events fire, and up-release fires on the falling edge |
| Input.InputHandler.LateUpdate | Assets/Scripts/Player/InputHandler.cs:98-101 | the aim value is cleared after each frame |
| Input.InputHandler.Perform | Assets/Scripts/Player/InputHandler.cs:110-146 | the events grow by `Fired`: an enabled action fires its event once per subscribed copy, a disabled one fires nothing; aim stores its value |
| Input.InputHandler.SwitchItem | Assets/Scripts/Player/InputHandler.cs:149-189 | the handler becomes `Switched`'s: the enabled set is `AfterSwitch`'s, the cursor mode follows the item, and `onItemChanged` fires |
| Input.RepeatSnoc | Assets/Scripts/Player/InputHandler.cs:103-147 | one more subscription adds one more copy of the events |
| Input.DetonateStaysEnabled | Assets/Scripts/Player/InputHandler.cs:151-177 | once enabled, detonation stays enabled through any run of item switches |
| Input.Releases | Assets/Scripts/Player/InputHandler.cs:81-93 | a run of frames yields one release flag per frame |
| Input.UpPressedIsCurrentUp | Assets/Scripts/Player/InputHandler.cs:81-93 | after a frame, `upPressed` holds exactly when that frame points up; release fires exactly when up was pressed and no longer is |
| Input.ReleaseOnFallingEdge | Assets/Scripts/Player/InputHandler.cs:81-93 | over any run, `onUpReleased` fires on frame k exactly when frame k−1 pointed up and frame k does not |
| Input.ShotsAfterReenabling | Assets/Scripts/Player/InputHandler.cs:103-147 | as written: with the gun selected, after n disable/enable cycles one shot press fires `onShoot` n+1 times |
| Input.ShotsAfterReenablingOnce | Assets/Scripts/Player/InputHandler.cs:103-147 | corrected: after any number of disable/enable cycles one shot press fires `onShoot` once |
| EnemyHealth.Damaged | Assets/Scripts/Enemies/EnemyController.cs:57 | a hit subtracts `(int)amount` exactly when in range, with 32-bit wrap-around otherwise |
| EnemyHealth.HitEvents | Assets/Scripts/Enemies/EnemyController.cs:59-79 | a hit fires `OnTakeDamage` exactly when the enemy survives, and the death effects exactly when health is at or below zero |
| EnemyHealth.EnemyController.constructor | Assets/Scripts/Enemies/EnemyController.cs:13-33 | before `Start` health is 0 and the enemy is alive |
| EnemyHealth.EnemyController.Start | Assets/Scripts/Enemies/EnemyController.cs:35-37 | health starts at the maximum |
| EnemyHealth.EnemyController.TakeDamage | Assets/Scripts/Enemies/EnemyController.cs:55-81 | health is `Damaged`; the enemy stays alive exactly when it was alive and health stays positive; the hit's events are logged |
| EnemyHealth.AliveExactlyWhileHitsSurvived | Assets/Scripts/Enemies/EnemyController.cs:55-70 | after any run of hits the enemy is alive exactly when it started alive and its health stayed positive after every prefix of the run |
| EnemyHealth.HitsSubtractExactly | Assets/Scripts/Enemies/EnemyController.cs:55-70 | without overflow, health after a run of hits is the start minus the total, and the enemy survives exactly when every partial total stays below its health |
| EnemyHealth.NegativeNoWrap | Assets/Scripts/Enemies/EnemyController.cs:57 | below zero, hits that stay in range keep subtracting exactly |
| EnemyHealth.OverkillGoesNegative | Assets/Scripts/Enemies/EnemyController.cs:57-59 | health is not clamped: a hit larger than the health leaves it negative, by exactly the excess, and the enemy dies |
| EnemyHealth.HugeAmountHeals | Assets/Scripts/Enemies/EnemyController.cs:55-57 | a `uint` amount above `int.MaxValue` casts to the negative `amount − 2^32`, so the hit raises health by `2^32 − amount` |
| EnemyBase.NextToWall | Assets/Scripts/Enemies/EnemyMovement.cs:124-142 | the left probe decides for a leftward direction and the right probe for a rightward one; a vertical direction is never next to a wall |
| EnemyBase.OnFloor | Assets/Scripts/Enemies/EnemyMovement.cs:193-201 | on the floor exactly when the floor box overlaps a collider other than the enemy's own |
| EnemyBase.PlayerBehindObject | Assets/Scripts/Enemies/EnemyMovement.cs:170-191 | the player is hidden exactly when the sight ray hits something that is not the enemy, not on the player layer and not tagged Player |
| EnemyBase.HitPlayer | Assets/Scripts/Enemies/EnemyMovement.cs:213-231 | touching the player exactly when one of the four boxes overlaps the player |
| EnemyBase.EnemyMovement.constructor | Assets/Scripts/Enemies/EnemyMovement.cs:46-50 | the body starts as its field initialisers leave it |
| EnemyBase.EnemyMovement.Start | Assets/Scripts/Enemies/EnemyMovement.cs:67-86 | the walk direction follows the sprite flip: left when flipped, otherwise right |
| EnemyBase.EnemyMovement.Knockback | Assets/Scripts/Enemies/EnemyMovement.cs:54-63 | the body is knocked back: the flag is set, the velocity is zeroed and one impulse of `direction * knockBackForce` is added |
| EnemyBase.EnemyMovement.StopMoving | Assets/Scripts/Enemies/EnemyMovement.cs:119-122 | only the velocity changes, to zero |
| EnemyBase.EnemyMovement.Update | Assets/Scripts/Enemies/EnemyMovement.cs:88-116 | the body evolves by the base update, with the floor probe taken this frame |
| EnemyBase.KnockbackStopsFirst | Assets/Scripts/Enemies/EnemyMovement.cs:54-63 | a knockback sets the flag, zeroes the velocity, adds exactly one impulse of `direction * force` and changes nothing else |
| EnemyBase.KnockbackTimer | Assets/Scripts/Enemies/EnemyMovement.cs:90-102 | below the knockback time, a frame only advances the timer; the frame that reaches it stops the body, resets the timer and ends the knockback |
| EnemyBase.DeadOnFloorFreezes | Assets/Scripts/Enemies/EnemyMovement.cs:106-114 | a dead enemy on the floor loses its collider and turns static; otherwise those fields are untouched |
| EnemyBase.KnockbackLasts | Assets/Scripts/Enemies/EnemyMovement.cs:90-102 | over n frames below the knockback time, the timer counts exactly n·dt and nothing else changes |
| EnemyBase.KnockbackEnds | Assets/Scripts/Enemies/EnemyMovement.cs:94-99 | the first frame that reaches the knockback time ends the knockback and stops the body |
| WalkingEnemies.WalkingEnemy.constructor | Assets/Scripts/Enemies/WalkingEnemy.cs:9-10 | a walker holds its base components and settings, facing left or right |
| WalkingEnemies.WalkingEnemy.Start | Assets/Scripts/Enemies/WalkingEnemy.cs:12-15 | the base start: the direction follows the sprite flip, and stays horizontal |
| WalkingEnemies.WalkingEnemy.FollowPlayer | Assets/Scripts/Enemies/WalkingEnemy.cs:66-78 | only the direction changes, to `Followed`, using the enemy's vision radius |
| WalkingEnemies.WalkingEnemy.MoveLeft | Assets/Scripts/Enemies/WalkingEnemy.cs:47-54 | the velocity is walk speed to the left; the enemy turns right exactly at a left wall or ledge |
| WalkingEnemies.WalkingEnemy.MoveRight | Assets/Scripts/Enemies/WalkingEnemy.cs:56-64 | the velocity is walk speed to the right; the enemy turns left exactly at a right wall or ledge |
| WalkingEnemies.WalkingEnemy.Move | Assets/Scripts/Enemies/WalkingEnemy.cs:34-37 | it calls `MoveRight` when facing right and `MoveLeft` otherwise |
| WalkingEnemies.WalkingEnemy.Update | Assets/Scripts/Enemies/WalkingEnemy.cs:17-45 | the walker evolves by `WalkTick`: base update, death, knockback, then walking; the direction stays horizontal |
| WalkingEnemies.WalkingEnemy.Walk | Assets/Scripts/Enemies/WalkingEnemy.cs:31-44 | the walking part of `Update`: follow, move, aim the wall ray, and notice a dead player |
| WalkingEnemies.WalkingEnemy.OnTriggerEnter2D | Assets/Scripts/Enemies/WalkingEnemy.cs:80-84 | a ground-layer trigger reverses the walk; other layers change nothing |
| WalkingEnemies.WalkingEnemy.OnCollisionEnter2D | Assets/Scripts/Enemies/WalkingEnemy.cs:86-101 | the player pinning the enemy against a wall knocks the enemy back along the reversed cast direction and makes the player jump; anything else changes nothing |
| WalkingEnemies.DeadWalkerStops | Assets/Scripts/Enemies/WalkingEnemy.cs:21-26 | a dead walker stops and loses its collider, without turning, walking or logging |
| WalkingEnemies.KnockedBackSkipsWalking | Assets/Scripts/Enemies/WalkingEnemy.cs:28-29 | during a knockback the frame is exactly the base timer step |
| WalkingEnemies.MoveTurnsAtWallOrLedge | Assets/Scripts/Enemies/WalkingEnemy.cs:47-64 | walking sets walk speed along the direction and turns exactly at a wall or ledge on that side; the direction stays horizontal |
| WalkingEnemies.FollowFacesPlayer | Assets/Scripts/Enemies/WalkingEnemy.cs:66-78 | in range and not level with the player, the direction points toward the player; otherwise it is kept |
| WalkingEnemies.WalkTickKeepsHorizontal | Assets/Scripts/Enemies/WalkingEnemy.cs:17-45 | one update keeps the direction left or right |
| WalkingEnemies.FollowStaysOff | Assets/Scripts/Enemies/WalkingEnemy.cs:41-44 | once following is off, no run of frames turns it back on |
| WalkingEnemies.PlayerDeathStopsFollowing | Assets/Scripts/Enemies/WalkingEnemy.cs:41-44 | a walking frame that sees the player dead turns following off |
| WalkingEnemies.WalkRunKeepsHorizontal | Assets/Scripts/Enemies/WalkingEnemy.cs:17-45 | any run of frames keeps the direction left or right |
| FlyingEnemies.Enter | Assets/Scripts/Enemies/FlyingEnemy.cs:36-97 | the setter assigns the state; the start point and distance are kept, and only entering Attack moves the attack point |
| FlyingEnemies.FlyingEnemy.constructor | Assets/Scripts/Enemies/FlyingEnemy.cs:29-34 | a flyer starts patrolling, with nothing travelled |
| FlyingEnemies.FlyingEnemy.Start | Assets/Scripts/Enemies/FlyingEnemy.cs:100-111 | the direction is the reverse of the base choice; the start point is the current position; half the patrol distance counts as flown when so configured |
| FlyingEnemies.FlyingEnemy.SetState | Assets/Scripts/Enemies/FlyingEnemy.cs:36-97 | the new state is `Enter`'s |
| FlyingEnemies.FlyingEnemy.FlyAcrossLevel | Assets/Scripts/Enemies/FlyingEnemy.cs:147-159 | the new state is the patrol step's |
| FlyingEnemies.FlyingEnemy.CheckForPlayer | Assets/Scripts/Enemies/FlyingEnemy.cs:161-193 | the new state is the detection step's |
| FlyingEnemies.FlyingEnemy.AttackPlayer | Assets/Scripts/Enemies/FlyingEnemy.cs:208-216 | the new state is the charge step's |
| FlyingEnemies.FlyingEnemy.FollowPlayer | Assets/Scripts/Enemies/FlyingEnemy.cs:218-239 | the new state is the follow step's |
| FlyingEnemies.FlyingEnemy.FlyUp | Assets/Scripts/Enemies/FlyingEnemy.cs:241-247 | the new state is the climb step's |
| FlyingEnemies.FlyingEnemy.RetreatToStart | Assets/Scripts/Enemies/FlyingEnemy.cs:249-257 | the new state is the retreat step's |
| FlyingEnemies.FlyingEnemy.CheckDeath | Assets/Scripts/Enemies/FlyingEnemy.cs:116-121 | a base update, then a dead controller puts a living flyer into Dead |
| FlyingEnemies.FlyingEnemy.Update | Assets/Scripts/Enemies/FlyingEnemy.cs:114-145 | one frame is `FlyTick`, with the distance and direction inputs tied to the positions |
| FlyingEnemies.FlyingEnemy.OnCollisionEnter2D | Assets/Scripts/Enemies/FlyingEnemy.cs:259-273 | the new state is `Collide`'s |
| FlyingEnemies.DeathEntersDead | Assets/Scripts/Enemies/FlyingEnemy.cs:90-121 | a dead controller always leads to Dead; from a living state the body stops and gravity is set to 1 |
| FlyingEnemies.DeadIsAbsorbing | Assets/Scripts/Enemies/FlyingEnemy.cs:114-145 | neither an update nor a collision (lines 259-272) leaves Dead |
| FlyingEnemies.DeadForever | Assets/Scripts/Enemies/FlyingEnemy.cs:114-145 | any run of updates and collisions (lines 259-272) keeps a dead flyer dead |
| FlyingEnemies.DetectionChoosesAttackOrFollow | Assets/Scripts/Enemies/FlyingEnemy.cs:174-192 | detection is range plus line of sight (unless the flyer sees through walls); detection attacks within attack range, recording the attack point, and follows beyond it; no detection changes nothing |
| FlyingEnemies.AttackEndsPastChargeDistance | Assets/Scripts/Enemies/FlyingEnemy.cs:212-215 | a charge turns into a climb exactly past the maximum charge distance |
| FlyingEnemies.ReturnEndsAtStartHeight | Assets/Scripts/Enemies/FlyingEnemy.cs:245-246 | a climb turns into following exactly at the start point's height |
| FlyingEnemies.FollowChecksSightFirst | Assets/Scripts/Enemies/FlyingEnemy.cs:226-238 | a follower retreats exactly when the player is hidden by a wall (unless it sees through walls) or outside the vision radius, even within attack range; a player still seen is attacked within attack range and followed beyond it |
| FlyingEnemies.DetectionOverridesRetreatArrival | Assets/Scripts/Enemies/FlyingEnemy.cs:249-257 | a retreat reaching the start patrols again, unless the player is detected in the same frame, because `Update` (lines 139-142) checks for the player after the retreat step |
| FlyingEnemies.PatrolTurnsAtWallOrDistance | Assets/Scripts/Enemies/FlyingEnemy.cs:153-158 | an undisturbed patrol turns, flips and restarts its leg exactly at a wall or past the maximum distance |
| FlyingEnemies.CollisionTransitions | Assets/Scripts/Enemies/FlyingEnemy.cs:261-271 | a collision turns a charge into a climb and a climb into following; patrolling, following and retreating flyers are unaffected; a dead flyer turns static on the ground |
| FlyingEnemies.NormalEntryIsHorizontal | Assets/Scripts/Enemies/FlyingEnemy.cs:45-50 | entering the patrol faces right exactly when the sprite is flipped, and left otherwise |
| HangingEnemies.Enter | Assets/Scripts/Enemies/HangingEnemy.cs:60-131 | the setter assigns the state |
| HangingEnemies.HangingEnemy.constructor | Assets/Scripts/Enemies/HangingEnemy.cs:24 | a hanger starts in the enum's default state, Crawling |
| HangingEnemies.HangingEnemy.SetState | Assets/Scripts/Enemies/HangingEnemy.cs:60-131 | the new state is `Enter`'s |
| HangingEnemies.HangingEnemy.Start | Assets/Scripts/Enemies/HangingEnemy.cs:27-31 | the base start, then the entry into Crawling |
| HangingEnemies.HangingEnemy.CrawlCeiling | Assets/Scripts/Enemies/HangingEnemy.cs:133-159 | the new state is the crawl step's |
| HangingEnemies.HangingEnemy.RunAcrossFloor | Assets/Scripts/Enemies/HangingEnemy.cs:161-182 | the body is the run step's |
| HangingEnemies.HangingEnemy.Turn | Assets/Scripts/Enemies/HangingEnemy.cs:137-153 | the turning code shared by crawling and running (also lines 165-181): a walker turns at a wall or missing tile ahead |
| HangingEnemies.HangingEnemy.Behave | Assets/Scripts/Enemies/HangingEnemy.cs:38-48 | a base update, then the state's behaviour |
| HangingEnemies.HangingEnemy.Update | Assets/Scripts/Enemies/HangingEnemy.cs:34-52 | one frame is `HangTick`: behaviour first, then death |
| HangingEnemies.HangingEnemy.DropFromCeiling | Assets/Scripts/Enemies/HangingEnemy.cs:54-58 | the new state is `Dropped`'s |
| HangingEnemies.HangingEnemy.OnCollisionEnter2D | Assets/Scripts/Enemies/HangingEnemy.cs:198-214 | the new state is `Collide`'s |
| HangingEnemies.StartCrawls | Assets/Scripts/Enemies/HangingEnemy.cs:70-74 | crawling has gravity off and the sprite flipped upside down |
| HangingEnemies.CrawlTurnsAndLaunches | Assets/Scripts/Enemies/HangingEnemy.cs:137-158 | a crawler turns exactly at a wall or ceiling edge ahead, and launches exactly when the player is below, stopping as it does |
| HangingEnemies.RunTurnsAtWallOrLedge | Assets/Scripts/Enemies/HangingEnemy.cs:165-181 | a runner turns exactly at a wall or ledge ahead, keeps its state, and moves at run speed |
| HangingEnemies.DropOnlyFromCrawling | Assets/Scripts/Enemies/HangingEnemy.cs:54-58 | only a crawler drops, and it falls with the drop gravity; any other state is unchanged |
| HangingEnemies.GroundCollision | Assets/Scripts/Enemies/HangingEnemy.cs:200-212 | landing while dropping or falling starts the run; a dead enemy landing comes to rest, static and without a collider |
| HangingEnemies.RunningEntryFacesPlayer | Assets/Scripts/Enemies/HangingEnemy.cs:106-115 | starting to run faces the player's side, or keeps the direction when level; gravity is 1 |
| HangingEnemies.DeadEntry | Assets/Scripts/Enemies/HangingEnemy.cs:122-128 | dying sets the drop gravity and stops the body only when it is off the floor |
| HangingEnemies.DeathCheckedAfterBehaviour | Assets/Scripts/Enemies/HangingEnemy.cs:38-51 | a crawler that dies still turns at a wall in that frame, then enters Dead |
| HangingEnemies.DeadForever | Assets/Scripts/Enemies/HangingEnemy.cs:38-58 | no run of updates, drops or collisions leaves Dead |
| HangingEnemies.LaunchingOnlyEndsInDeath | Assets/Scripts/Enemies/HangingEnemy.cs:38-58 | a launched enemy stays launching or dies, whatever happens |
| Locomotion.Jumped | Assets/Scripts/Player/PlayerMovement.cs:500-514 | a jump acts only within coyote time; it spends the timer and sets jump gravity, keeping the state and the velocity |
| Locomotion.Entered | Assets/Scripts/Player/PlayerMovement.cs:397-443 | changing to the current state changes nothing; otherwise the new state is entered |
| Locomotion.GroundChecked | Assets/Scripts/Player/PlayerMovement.cs:593-608 | ground contact counts exactly outside a jump and refills coyote time; the state is never changed |
| Locomotion.PlayerMovement.constructor | Assets/Scripts/Player/PlayerMovement.cs:150-177 | the motion starts standing, at rest, with gravity 1 |
| Locomotion.PlayerMovement.OnEnable | Assets/Scripts/Player/PlayerMovement.cs:228-241 | the movement state becomes `Reenabled`'s: the player stands, with the base gravity, and nothing else changes |
| Locomotion.PlayerMovement.OnDisable | Assets/Scripts/Player/PlayerMovement.cs:304-309 | the movement state becomes `Halted`'s: the body stops and floats, the walk animation ends, and nothing else changes |
| Locomotion.PlayerMovement.StartJump | Assets/Scripts/Player/PlayerMovement.cs:500-514 | the new motion is `Jumped`'s |
| Locomotion.PlayerMovement.ChangeState | Assets/Scripts/Player/PlayerMovement.cs:397-443 | the new motion is `Entered`'s |
| Locomotion.PlayerMovement.SetJumpState | Assets/Scripts/Player/PlayerMovement.cs:196 | enters Jumping |
| Locomotion.PlayerMovement.SetGrappleState | Assets/Scripts/Player/PlayerMovement.cs:198 | enters Grappling |
| Locomotion.PlayerMovement.StopMoving | Assets/Scripts/Player/PlayerMovement.cs:200-204 | the movement state becomes `Stopped`'s: the body stops and Standing is entered |
| Locomotion.PlayerMovement.Knockback | Assets/Scripts/Player/PlayerMovement.cs:206-210 | the movement state becomes `KnockedBack`'s: one impulse of the knockback force in the given direction, then Knockback is entered |
| Locomotion.PlayerMovement.ReleaseGrapplingHook | Assets/Scripts/Player/PlayerMovement.cs:212-224 | releasing while grappling frees the hook and enters Jumping; while jumping it only frees the hook; otherwise nothing happens |
| Locomotion.PlayerMovement.GroundCheck | Assets/Scripts/Player/PlayerMovement.cs:593-608 | the new motion is `GroundChecked`'s |
| Locomotion.PlayerMovement.UpdateWalk | Assets/Scripts/Player/PlayerMovement.cs:445-498 | the new motion is the walk step's |
| Locomotion.PlayerMovement.WalkAlong | Assets/Scripts/Player/PlayerMovement.cs:445-480 | slope walking sets the velocity along the slope tangent, flat walking logs the force toward the walking speed, and no other state moves |
| Locomotion.PlayerMovement.SettleWalk | Assets/Scripts/Player/PlayerMovement.cs:482-498 | once the walking speed has been reached, slowing down on the ground without full input means standing; leaving the ground while moving down means falling |
| Locomotion.PlayerMovement.UpdateJump | Assets/Scripts/Player/PlayerMovement.cs:516-530 | the new motion is the jump step's |
| Locomotion.PlayerMovement.UpdateFall | Assets/Scripts/Player/PlayerMovement.cs:532-555 | the new motion is the fall step's |
| Locomotion.PlayerMovement.UpdateKnockback | Assets/Scripts/Player/PlayerMovement.cs:580-591 | the new motion is the knockback decay step's |
| Locomotion.PlayerMovement.EnterWalking | Assets/Scripts/Player/PlayerMovement.cs:256-268 | the new motion is the `Update` prelude's |
| Locomotion.PlayerMovement.UpdateState | Assets/Scripts/Player/PlayerMovement.cs:271-285 | the state switch runs exactly the current state's step |
| Locomotion.PlayerMovement.Probe | Assets/Scripts/Player/PlayerMovement.cs:246-253 | the body's velocity is the physics step's, coyote time runs down, the inputs are read, and the ground and slope probes are taken |
| Locomotion.PlayerMovement.ReadInputs | Assets/Scripts/Player/PlayerMovement.cs:246-250 | the velocity is the frame's post-physics velocity, the coyote timer drops by the frame time and the jump and direction inputs are taken from the frame; nothing else changes |
| Locomotion.PlayerMovement.Update | Assets/Scripts/Player/PlayerMovement.cs:244-292 | one frame is `Tick`: probes, prelude, then the state switch |
| Locomotion.SecondKnockbackKeepsTimer | Assets/Scripts/Player/PlayerMovement.cs:397-430 | a knockback during a knockback adds the impulse but does not restart the timer |
| Locomotion.EntryActions | Assets/Scripts/Player/PlayerMovement.cs:409-431 | entering Standing clears the minimum-speed flag; entering Knockback arms the timer with the maximum knockback time |
| Locomotion.GroundCheckNeverResetsJump | Assets/Scripts/Player/PlayerMovement.cs:598-605 | during a jump, the ground check neither registers ground nor leaves Jumping |
| Locomotion.JumpSpendsCoyoteTime | Assets/Scripts/Player/PlayerMovement.cs:244-292 | after entering a jump from the ground, the next `Update` leaves the player off the ground, still jumping exactly when the body moves upward and falling otherwise |
| Locomotion.PreludeChoice | Assets/Scripts/Player/PlayerMovement.cs:256-268 | with input on the ground: a slope means slope walking; flat ground means walking unless knocked back |
| Locomotion.PreludeIdle | Assets/Scripts/Player/PlayerMovement.cs:256-268 | without input or ground contact the prelude changes nothing |
| Locomotion.JumpToFall | Assets/Scripts/Player/PlayerMovement.cs:518-521 | a jump turns into a fall exactly when the vertical speed is no longer upward |
| Locomotion.FallClampsOrLands | Assets/Scripts/Player/PlayerMovement.cs:534-553 | a fall lands when on the ground; in the air it keeps falling with the vertical speed clamped to [−max fall speed, 0] |
| Locomotion.KnockbackDecays | Assets/Scripts/Player/PlayerMovement.cs:580-591 | the horizontal speed is divided by 1 + deceleration and never grows; the knockback continues exactly while the speed is at least the minimum and time is left; otherwise the player stands |
| Locomotion.GrapplingHasNoUpdate | Assets/Scripts/Player/PlayerMovement.cs:271-285 | the state switch does nothing while grappling, and a release leads to Jumping |
| Locomotion.TickKeepsTimerUntilDispatch | Assets/Scripts/Player/PlayerMovement.cs:244-292 | a frame that stays in Knockback has counted its time off the timer, which is still positive |
| Locomotion.KnockbackTimesOut | Assets/Scripts/Player/PlayerMovement.cs:580-591 | through a run spent knocked back, the timer drops by exactly the run's duration, which stays below what was left, so a knockback lasts less than its maximum time |
| Guns.Reloaded | Assets/Scripts/Player/GunController.cs:152-182 | an empty reserve changes neither the magazine nor the reserve |
| Guns.GunController.constructor | Assets/Scripts/Player/GunController.cs:37-41 | the magazine starts empty and the gun may shoot |
| Guns.GunController.Update | Assets/Scripts/Player/GunController.cs:65-87 | the gun may shoot again once the shot delay has passed |
| Guns.GunController.FireShot | Assets/Scripts/Player/GunController.cs:89-142 | a shot that discharges spends one round and damages a live target by the ranged damage, killing it at zero; otherwise the target is untouched; the magazine stays within capacity |
| Guns.GunController.ReloadGun | Assets/Scripts/Player/GunController.cs:152-182 | magazine and reserve become `Reloaded`'s pair; the HUD texts and sound, or the out-of-ammo sound, are logged; the capacity bound holds |
| Guns.GunController.EmptyMagazine | Assets/Scripts/Player/GunController.cs:184 | only the magazine changes, to zero |
| Guns.ReloadBounded | Assets/Scripts/Player/GunController.cs:164-175 | a reload conserves magazine + reserve, fills the magazine to min(capacity, magazine + reserve), and never exceeds capacity |
| Guns.ReloadFillsOrDrains | Assets/Scripts/Player/GunController.cs:164-175 | with enough in reserve the magazine is filled; with less the reserve is emptied into it |
| Guns.ReloadIdempotent | Assets/Scripts/Player/GunController.cs:152-182 | reloading twice is reloading once |
| Guns.ShotSpendsOneRound | Assets/Scripts/Player/GunController.cs:94-137 | a shot spends exactly one round when it discharges and none otherwise; an empty magazine only logs the out-of-ammo sound |
| Guns.ShotNeverBlocked | Assets/Scripts/Player/GunController.cs:89-141 | `canShoot` starts true and is only ever set to true, so after any run of operations the gun may still shoot and a loaded magazine always discharges |
| Guns.MagazineStaysBounded | Assets/Scripts/Player/GunController.cs:137-184 | through any run of shots, frames, reloads and emptyings the magazine stays within capacity |
| Grenades.Grenade.constructor | Assets/Scripts/Player/GrenadeController.cs:126-131 | a grenade instantiated by a throw or drop is in the world and has not exploded |
| Grenades.Grenade.Detonate | Assets/Scripts/Player/GrenadeController.cs:178-181 | each grenade's `Detonate`: a destroyed grenade does nothing; a live one explodes once and is destroyed |
| Grenades.GrenadeController.constructor | Assets/Scripts/Player/GrenadeController.cs:7-43 | the stock starts at five with no grenades thrown |
| Grenades.GrenadeController.Start | Assets/Scripts/Player/GrenadeController.cs:53-60 | the HUD shows the stock, and nothing else changes |
| Grenades.GrenadeController.SetGrenadeTotal | Assets/Scripts/Player/GrenadeController.cs:82-86 | the stock is set and shown |
| Grenades.GrenadeController.AddGrenade | Assets/Scripts/Player/GrenadeController.cs:88-92 | one more grenade in `uint` arithmetic, with no cap, shown on the HUD |
| Grenades.GrenadeController.RestoreGrenades | Assets/Scripts/Player/GrenadeController.cs:94-98 | the stock is refilled to the maximum and shown |
| Grenades.GrenadeController.RestoreGrenadesBy | Assets/Scripts/Player/GrenadeController.cs:100-103 | `amount` more in `uint` arithmetic, with no cap and no HUD update |
| Grenades.GrenadeController.IncreaseMaxGrenades | Assets/Scripts/Player/GrenadeController.cs:186-192 | the maximum grows with `uint` wrap-around; the stock is refilled to it when asked |
| Grenades.GrenadeController.ThrowGrenade | Assets/Scripts/Player/GrenadeController.cs:105-108 | only the throw animation starts |
| Grenades.GrenadeController.SpawnGrenade | Assets/Scripts/Player/GrenadeController.cs:111-149 | with stock and a clear spawn point, a fresh grenade joins the list and the stock drops by one; otherwise nothing is spawned; the right sound and HUD events are logged |
| Grenades.GrenadeController.DropGrenade | Assets/Scripts/Player/GrenadeController.cs:152-173 | the same guards and bookkeeping as a throw, without the sounds |
| Grenades.GrenadeController.DetonateGrenade | Assets/Scripts/Player/GrenadeController.cs:176-184 | every listed grenade still in the world explodes exactly once, all end destroyed, and the list is cleared |
| Grenades.ThrowsConserve | Assets/Scripts/Player/GrenadeController.cs:111-173 | over any run of attempts, stock + grenades thrown equals the starting stock, and at most one grenade is thrown per attempt |
| Grenades.ClearThrowsSpendStock | Assets/Scripts/Player/GrenadeController.cs:111-173 | with clear spawn points, a run throws min(stock, attempts) grenades |
| Grenades.ThrowAttempt | Assets/Scripts/Player/GrenadeController.cs:113-124 | an attempt with an empty stock or a blocked spawn point changes nothing; a successful one takes exactly one grenade |
| Grenades.RefillsIgnoreMaximum | Assets/Scripts/Player/GrenadeController.cs:88-103 | a refill adds exactly when it fits in a `uint`, passes the maximum whenever the sum does, and wraps below the old stock on overflow |
| Session.GameManager.constructor | Assets/Scripts/GameManager.cs:37-43 | the session starts running, not fading, transparent, at normal speed |
| Session.GameManager.Start | Assets/Scripts/GameManager.cs:82 | time runs at normal speed |
| Session.GameManager.Update | Assets/Scripts/GameManager.cs:90-103 | one frame of the fade, which ends the game on the frame it turns opaque |
| Session.GameManager.StartEndSequence | Assets/Scripts/GameManager.cs:123-128 | the enemies are disabled, the fade starts, and the outcome is recorded |
| Session.GameManager.EndGame | Assets/Scripts/GameManager.cs:143-156 | the matching dialog shows, the music stops, time freezes and the game stops running |
| Session.GameManager.ResumeGame | Assets/Scripts/GameManager.cs:130-141 | the menu closes, time runs, and the game runs; as written, the input handler's `enabled` is set, which subscribes one more copy of the callbacks when it was disabled, and it is switched to the selected item |
| Session.GameManager.TogglePause | Assets/Scripts/GameManager.cs:105-121 | a running game pauses and the input handler is disabled, keeping its subscriptions; any other game resumes as by `ResumeGame` |
| Session.PauseThenResume | Assets/Scripts/GameManager.cs:105-141 | pausing stops the game and time with the menu open; toggling again restores the running game at normal speed with the menu closed |
| Session.ToggleAfterEndResumes | Assets/Scripts/GameManager.cs:105-121 | after the game has ended (`EndGame`, lines 143-156), the pause toggle sets it running again at normal speed |
| Session.FadeContinues | Assets/Scripts/GameManager.cs:92-96 | below opaque, n frames darken by exactly n·speed/255, and the game has not ended |
| Session.FadeEndsGameOnce | Assets/Scripts/GameManager.cs:92-102 | the first opaque frame ends the game once, with the recorded outcome's dialog, and later frames change nothing |
| Session.ShotsAfterPauses | Assets/Scripts/GameManager.cs:105-141 | as written: with the gun selected, after n pause/resume toggles one shot press fires `onShoot` n+1 times |
| Players.Hurt | Assets/Scripts/Player/PlayerController.cs:623-630 | health after a hit is never negative: the exact difference when in range, raised to zero below it, and zero when it overflows upward |
| Players.Healed | Assets/Scripts/Player/PlayerController.cs:477-481 | healing adds `(int)amount` exactly when in range |
| Players.PlayerController.constructor | Assets/Scripts/Player/PlayerController.cs:25-115 | the player starts alive with the serialized weapon unlocks (`enableMelee` … `enableGrapplingHook`), no item, and every component enabled |
| Players.PlayerController.Start | Assets/Scripts/Player/PlayerController.cs:120-147 | full health, the starting ammunition, no item selected, and the mask put on if worn |
| Players.PlayerController.SetMovementEnabled | Assets/Scripts/Player/PlayerController.cs:222-223 | setting the movement flag runs `OnEnable`/`OnDisable` only when the flag changes, and the movement state becomes exactly theirs |
| Players.PlayerController.TakeDamage | Assets/Scripts/Player/PlayerController.cs:623-653 | the controller becomes `Damaged`'s: health is `Hurt`'s; the player stays alive exactly when they were alive and health is positive; at zero, input, movement and the component are disabled, otherwise they are untouched; the flash, the health display and the hurt or death sound are logged; the movement and input states change exactly as that disabling does |
| Players.PlayerController.DisableScripts | Assets/Scripts/Player/PlayerController.cs:641-644 | only the movement and component flags of the controller change; the input handler's `enabled` is cleared as the engine does it, and movement runs `OnDisable` only when it was enabled |
| Players.PlayerController.Die | Assets/Scripts/Player/PlayerController.cs:655-657 | the end sequence starts with the game lost |
| Players.PlayerController.RestoreHealth | Assets/Scripts/Player/PlayerController.cs:471-475 | health is back at the maximum and shown |
| Players.PlayerController.RestoreHealthBy | Assets/Scripts/Player/PlayerController.cs:477-481 | health becomes `Healed`'s, with no cap, and is shown |
| Players.PlayerController.IncreaseMaxHealth | Assets/Scripts/Player/PlayerController.cs:483-489 | the maximum grows with `int` wrap-around; health is refilled to it when asked |
| Players.PlayerController.RestoreAmmoAndGrenades | Assets/Scripts/Player/PlayerController.cs:491-495 | the reserve is set to the maximum and the grenade stock is refilled |
| Players.PlayerController.RestoreAmmoBy | Assets/Scripts/Player/PlayerController.cs:497-501 | `amount` more in reserve in `uint` arithmetic, then a reload from it |
| Players.PlayerController.RestoreAmmo | Assets/Scripts/Player/PlayerController.cs:503-508 | an empty magazine reloaded from a full reserve |
| Players.PlayerController.IncreaseMaxAmmo | Assets/Scripts/Player/PlayerController.cs:510-516 | the maximum grows with `uint` wrap-around; when asked, the magazine is reloaded from a full reserve |
| Players.PlayerController.PutOnMask | Assets/Scripts/Player/PlayerController.cs:463-468 | the mask is worn and shown |
| Players.PlayerController.SetItem | Assets/Scripts/Player/PlayerController.cs:278-343 | the item is selected and shown; input becomes `Switched`'s for its number; choosing the gun reloads it; grenades are enabled exactly for the grenade |
| Players.PlayerController.ReloadFromReserve | Assets/Scripts/Player/PlayerController.cs:298 | the gun reloads from the player's reserve: magazine and reserve become `Reloaded`'s pair, and the controller changes only its reserve |
| Players.PlayerController.NextItem | Assets/Scripts/Player/PlayerController.cs:345-387 | the item becomes `NextSelected`'s and is set as by `SetItem` |
| Players.PlayerController.StepForward | Assets/Scripts/Player/PlayerController.cs:347-384 | the recursive stepping of `NextItem` lands on `NextSelected` |
| Players.PlayerController.PreviousItem | Assets/Scripts/Player/PlayerController.cs:389-430 | the item becomes `PreviousSelected`'s and is set as by `SetItem` |
| Players.PlayerController.StepBackward | Assets/Scripts/Player/PlayerController.cs:391-428 | the recursive stepping of `PreviousItem` lands on `PreviousSelected` |
| Players.PlayerController.GiveUpgrade | Assets/Scripts/Player/PlayerController.cs:432-461 | the whole new state: the mask is put on, or the weapon is unlocked and selected with its ammunition and HUD shown; movement is enabled either way, running `OnEnable` only when it was off; health and life are untouched |
| Players.PlayerController.FixedUpdate | Assets/Scripts/Player/PlayerController.cs:164-167 | while the component is enabled, each fixed step runs `UpdateTimers` (lines 662-680) on the damage cooldown: a running timer counts down and a negative one is reset to zero |
| Players.PlayerController.EnemyContact | Assets/Scripts/Player/PlayerController.cs:171-184 | the controller becomes `Contacted`'s: a contact re-arms the cooldown and hurts only when it has run out, and a refused contact changes nothing; movement is knocked back and input disabled exactly as the accepted hit does |
| Players.PlayerController.OnCollisionEnter2D | Assets/Scripts/Player/PlayerController.cs:169-196 | the controller becomes `CollisionEntered`'s: an enemy hurts under the cooldown, other layers leave it alone; a grenade item adds one grenade and shows the total; movement and input change only for an accepted enemy contact |
| Players.PlayerController.OnCollisionStay2D | Assets/Scripts/Player/PlayerController.cs:198-209 | the whole new state: a lasting enemy contact hurts under the cooldown, without knockback; other layers change nothing |
| Players.PlayerController.OnTriggerEnter2D | Assets/Scripts/Player/PlayerController.cs:211-238 | the controller becomes `TriggerEntered`'s: a projectile hurts without a cooldown; an item box stops the player and disables movement; the finish line disables input, movement and the player and starts the winning end sequence; the cooldown is untouched |
| Players.PlayerController.OpenBox | Assets/Scripts/Player/PlayerController.cs:218-226 | opening a box stops the player in Standing, disables movement and logs the crate sound; nothing else changes |
| Players.PlayerController.OnTriggerStay2D | Assets/Scripts/Player/PlayerController.cs:240-274 | the controller becomes `TriggerStayed`'s: an enemy hurts under the cooldown; unmasked and alive, a polluted zone hurts each time its own timer runs out and then re-arms it; masked or dead it does nothing |
| Players.Unlocked | Assets/Scripts/Player/PlayerController.cs:432-461 | an upgrade unlocks its weapon, keeps every other unlock, and changes nothing else |
| Players.DeathDisablesControls | Assets/Scripts/Player/PlayerController.cs:623-650 | a hit leaves health non-negative; at zero it clears life, movement and the component; above zero it leaves all three as they were |
| Players.HandledNeverRevives | Assets/Scripts/Player/PlayerController.cs:169-274 | no collision, trigger or fixed-step callback revives the player, and one that kills leaves health at exactly zero |
| Players.DeathIsFinal | Assets/Scripts/Player/PlayerController.cs:164-274 | through any run of collision, trigger and fixed-step callbacks health stays non-negative and a dead player stays dead |
| Players.HitOutcome | Assets/Scripts/Player/PlayerController.cs:623-630 | a survivable hit subtracts exactly; one at least as large as health leaves exactly zero |
| Players.RestoreCanExceedMaximum | Assets/Scripts/Player/PlayerController.cs:477-481 | from health at or below the maximum, restoring an amount that does not overflow gives exactly the sum, which passes the maximum whenever the sum does |
| Players.CooldownHoldsOff | Assets/Scripts/Player/PlayerController.cs:662-667 | until the fixed steps since a contact add up to the delay, the timer is the delay minus the elapsed time and every contact is refused |
| Players.ContactsWithinCooldown | Assets/Scripts/Player/PlayerController.cs:171-206 | two contacts in one step deal damage once: the first re-arms the cooldown and the second is refused |
| Players.CooledBound | Assets/Scripts/Player/PlayerController.cs:664-667 | after n fixed steps the timer is at most what is left of it, or zero |
| Players.CooldownExpires | Assets/Scripts/Player/PlayerController.cs:171-206 | once the fixed steps since a contact add up to the delay, the next contact re-arms the timer and takes the enemy's damage |

## Left out

- Physics queries are inputs to the model, not computations in it. This covers overlap boxes and circles, ray and box casts, `Vector2.Distance` and `.normalized`. Solid-tile probes and `PlayerIsBelow` are booleans in the per-frame view.
- Floating-point force shaping is not modelled: the air movement, slope detection, aim, `Lerp`/`Atan2` and the box-edge helpers in `PlayerMovement`. `UpdateWalk` logs its force as an event, and `UpdateFall` does not change the horizontal speed.
- Locomotion.FallClampsOrLands: the in-air horizontal speed is kept, because `ApplyHorizontalAirMovement` is not modelled.
- Locomotion.ValidConfig: requires `knockbackDecelleration >= 0`. The serialized default is 0.1, and the division by 1 + deceleration needs a non-zero divisor.
- `LateUpdate` of `PlayerMovement` (the sprite flip) is not modelled, and neither is `PlayerController.Update` (the back-arm depth). Both are presentation only.
- The Running and Climbing movement states have no behaviour in the code, and the model gives them none.
- The grapple timer in `UpdateTimers` and the line renderer it hides belong to the grappling hook, which is not part of this model. So does `PlayerMovement.OnCollisionEnter2D` (`Assets/Scripts/Player/PlayerMovement.cs:610-616`), which only hides the rope renderer while grappling.
- `GrapplingGun`, `GrappleHook`, `GrappleRope`, `GrappleBlock`, `CameraController`, `MainMenu`, `ScrollText`, `MeleeWaponController` and the `Misc` scripts are not part of this model. `FireGrapplingHook` is not modelled either.
- Coroutines are not modelled: the damage flash and the HUD message box.
- Sprite colours, audio clips and animator controllers are not modelled. Where their order matters, they are logged as events.
- `GameManager`'s singleton, scene loading, `RestartGame`, `QuitGame` and `GoToMainMenu` are not modelled. Neither are its cursor lock modes or `Physics2D.IgnoreLayerCollision`. `DisableEnemies` is one logged event.
- Unity's rule that `OnEnable`/`OnDisable` run only when `enabled` changes is modelled for `PlayerMovement` and the input handler. For the controller itself, clearing `enabled` only stops its `FixedUpdate`; collision callbacks still run.
- Unity's `float` is modelled as an exact `real`: rounding is not captured. The timing lemmas (Session.FadeContinues, Session.FadeEndsGameOnce, Players.CooldownHoldsOff, Players.CooldownExpires, Locomotion.KnockbackTimesOut) hold for exact sums of frame times; with rounding, the step on which a threshold is crossed can differ by one.
- The arm and shotgun animators' "walking" flag, set on every state change (`Assets/Scripts/Player/PlayerMovement.cs:438-442`), is not logged; it always equals whether the state is Walking. The logged walking flag is the body animator's.
- `EnemyController.Die` is never called by the scripts and is not modelled.
- The grenade explosion's damage to objects in its radius is not modelled (it needs `OverlapCircleAll`), and neither is the timing of `Destroy`. `Detonate` records the explosion and the destruction.
- The hanging enemy's Dropping state is never entered by the scripts. Its entry action, which moves the transform, is an event.
- `FlyingEnemy.CheckForPlayer` loops over `OverlapCircleAll`; the model takes the loop's result as the `playerInRange` input.
- WalkingEnemies.WalkingEnemy.Update: requires `moveDirection` to be left or right. `Start` and every later step keep it so.
- `PollutionManager`, `ItemBox` and `RestoreBox` are not part of this model. Their values arrive as parameters: the pollution damage and period, and the box's effects.
- Players.PlayerController.TakeDamage: assumes the heart bar is large enough. `SetHealthDisplay` (`Assets/Scripts/UI/HUD.cs:86-113`) throws when `maxHealth / 4` exceeds the icons (`Hud.HUD.SetHealthDisplay` returns `ok` false exactly when `Hud.DisplayFits` fails), and `IncreaseMaxHealth` can raise the maximum that far. In the game the throw at `Assets/Scripts/Player/PlayerController.cs:632` skips the death branch, so a player at zero health stays alive; the model always runs it. Players.DeathDisablesControls and Players.DeathIsFinal rest on the same assumption.
- The player's body velocity is not integrated from the logged impulses and forces: each `Update` frame takes it as an input, so nothing ties it to the previous frame's jump impulse or knockback.

## Findings

| source | as written | input that shows it | evidently intended | confidence | as-written member | corrected member |
|---|---|---|---|---|---|---|
| Assets/Scripts/Player/InputHandler.cs:103-147 | `OnEnable` adds a new `performed` callback on every call. `ResumeGame` (GameManager.cs:134) re-enables the handler after `TogglePause` (GameManager.cs:111) disabled it. | Select the gun, pause and resume n times, press shoot once: `onShoot` fires n+1 times (also shown through the pause toggle by Session.ShotsAfterPauses). | One game event per press, whatever the number of pauses. | not executed | Input.ShotsAfterReenabling | Input.ShotsAfterReenablingOnce |
