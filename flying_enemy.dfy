/** The flying enemy's six-state machine: it patrols back and forth, attacks
    or follows a player it detects, charges and pulls up, retreats to its
    start point when it loses the player, and falls when dead. Each state
    assignment runs an entry action. Probe results, positions, distances and
    normalised directions come in with each frame. */
module FlyingEnemies {
  import opened Vectors
  import opened EnemyBase
  import opened EnemyHealth

  datatype FlyingState = Normal | Attack | Follow | Return | Retreat | Dead

  /** The serialized tuning values. */
  datatype FlyConfig = FlyConfig(
    movementSpeed: real, chaseSpeed: real, maxFlyDistance: real, startInCenterOfDistance: bool,
    visionRadius: real, canSeeThroughWalls: bool, attackRange: real,
    chargeSpeed: real, maxChargeDistance: real, retreatSpeed: real)

  /** One frame's probes: positions, the distances and directions from the
      enemy to the player, to its start point and to its attack point, the
      wall boxes, the vision circle's verdict and the sight ray's hit. */
  datatype FlyView = FlyView(
    dt: real, floor: Overlap,
    position: Vec2, playerPosition: Vec2,
    distanceToPlayer: real, towardPlayer: Vec2,
    distanceToStart: real, towardStart: Vec2,
    distanceToAttackPoint: real,
    wallLeft: bool, wallRight: bool,
    playerInRange: bool, sight: RayHit)

  /** The flying enemy's state beyond the shared body. */
  datatype Flyer = Flyer(body: Body, state: FlyingState, startPoint: Vec2, attackPoint: Vec2,
                         distanceTravelled: real)

  /** The `State` setter: the state is assigned and its entry action runs,
      also when the state is unchanged. */
  function Enter(f: Flyer, s: FlyingState, v: FlyView): (r: Flyer)
    ensures r.state == s
    ensures r.startPoint == f.startPoint && r.distanceTravelled == f.distanceTravelled
    ensures s != Attack ==> r.attackPoint == f.attackPoint
  {
    var b := f.body;
    var f1 := f.(state := s);
    match s
    case Normal =>
      f1.(body := b.(moveDirection := if b.flipX then Right else Left, flipY := false,
                     events := b.events + [AttackingAnim(false)]))
    case Attack =>
      f1.(attackPoint := v.position,
          body := b.(velocity := Zero, flipX := v.playerPosition.x > v.position.x,
                     moveDirection := v.towardPlayer, flipY := false,
                     events := b.events + [AttackingAnim(true), AttackSound]))
    case Follow =>
      f1.(body := b.(flipY := false, events := b.events + [AttackingAnim(false)]))
    case Return =>
      var d := if v.playerPosition.x < v.position.x then Vec2(1.0, 1.0) else Vec2(-1.0, 1.0);
      f1.(body := b.(moveDirection := d, flipX := d.x > 0.0, events := b.events + [AttackingAnim(false)]))
    case Retreat =>
      f1.(body := b.(moveDirection := v.towardStart, flipX := v.towardStart.x > 0.0,
                     events := b.events + [AttackingAnim(false)]))
    case Dead =>
      f1.(body := b.(velocity := Zero, gravityScale := 1.0, events := b.events + [DieTrigger]))
  }

  /** `FlyAcrossLevel()`: fly along the direction; at a wall, or once farther
      than `maxFlyDistance` from the start point, turn around and make the
      current position the new start point. */
  function FlyAcross(f: Flyer, v: FlyView, c: FlyConfig): Flyer
  {
    var b := f.body.(velocity := f.body.moveDirection.Scale(c.movementSpeed));
    var f1 := f.(body := b, distanceTravelled := v.distanceToStart);
    if NextToWall(b.moveDirection, v.wallLeft, v.wallRight) || v.distanceToStart > c.maxFlyDistance then
      f1.(body := b.(flipX := !b.flipX, moveDirection := b.moveDirection.Neg()), startPoint := v.position)
    else f1
  }

  /** The player counts as detected when inside the vision circle and, unless
      the enemy sees through walls, not hidden behind an object. */
  predicate Detected(v: FlyView, c: FlyConfig)
  {
    if !c.canSeeThroughWalls then !PlayerBehindObject(v.sight) && v.playerInRange
    else v.playerInRange
  }

  /** `CheckForPlayer()`: a detected player is attacked within `attackRange`
      and followed otherwise. */
  function Checked(f: Flyer, v: FlyView, c: FlyConfig): Flyer
  {
    if Detected(v, c) then
      Enter(f, if v.distanceToPlayer <= c.attackRange then Attack else Follow, v)
    else f
  }

  /** `AttackPlayer()`: charge; pull up once past `maxChargeDistance` from the
      attack point. */
  function AttackStep(f: Flyer, v: FlyView, c: FlyConfig): Flyer
  {
    var f1 := f.(body := f.body.(velocity := f.body.moveDirection.Scale(c.chargeSpeed)));
    if v.distanceToAttackPoint > c.maxChargeDistance then Enter(f1, Return, v) else f1
  }

  /** `FollowPlayer()`: face and chase the player; losing sight of it or
      leaving the vision radius means retreating, and only then does attack
      range mean attacking. */
  function FollowStep(f: Flyer, v: FlyView, c: FlyConfig): Flyer
  {
    var f1 := f.(body := f.body.(flipX := v.playerPosition.x > v.position.x,
                                 moveDirection := v.towardPlayer,
                                 velocity := v.towardPlayer.Scale(c.chaseSpeed)));
    if !c.canSeeThroughWalls && PlayerBehindObject(v.sight) then Enter(f1, Retreat, v)
    else if v.distanceToPlayer > c.visionRadius then Enter(f1, Retreat, v)
    else if v.distanceToPlayer <= c.attackRange then Enter(f1, Attack, v)
    else f1
  }

  /** `FlyUp()`: climb; back at the start point's height, follow again. */
  function FlyUpStep(f: Flyer, v: FlyView, c: FlyConfig): Flyer
  {
    var f1 := f.(body := f.body.(velocity := f.body.moveDirection.Scale(c.retreatSpeed)));
    if v.position.y >= f.startPoint.y then Enter(f1, Follow, v) else f1
  }

  /** `RetreatToStart()`: fly back; within 0.5 of the start point, patrol again. */
  function RetreatStep(f: Flyer, v: FlyView, c: FlyConfig): Flyer
  {
    var f1 := f.(body := f.body.(velocity := f.body.moveDirection.Scale(c.movementSpeed)));
    if v.distanceToStart <= 0.5 then Enter(f1, Normal, v) else f1
  }

  /** The state switch of `Update`. */
  function Behave(f: Flyer, v: FlyView, c: FlyConfig): Flyer
  {
    match f.state
    case Normal => Checked(FlyAcross(f, v, c), v, c)
    case Attack => AttackStep(f, v, c)
    case Follow => FollowStep(f, v, c)
    case Return => FlyUpStep(f, v, c)
    case Retreat => Checked(RetreatStep(f, v, c), v, c)
    case Dead => f
  }

  /** The base update, then death: a dead controller puts a living state into Dead. */
  function Died(f: Flyer, v: FlyView, knockBackTime: real, alive: bool): Flyer
  {
    var f1 := f.(body := BaseUpdate(f.body, v.dt, knockBackTime, alive, OnFloor(v.floor)));
    if !alive && f1.state != Dead then Enter(f1, Dead, v) else f1
  }

  /** One flying-enemy `Update`. */
  function FlyTick(f: Flyer, v: FlyView, c: FlyConfig, knockBackTime: real, alive: bool): Flyer
  {
    Behave(Died(f, v, knockBackTime, alive), v, c)
  }

  /** `OnCollisionEnter2D`: a collision ends a charge and a climb; a dead
      enemy hitting the ground (layer 3) comes to rest without a collider. */
  function Collide(f: Flyer, layer: int, v: FlyView): Flyer
  {
    if f.state == Attack then Enter(f, Return, v)
    else if f.state == Return then Enter(f, Follow, v)
    else if f.state == Dead && layer == 3 then
      f.(body := f.body.(isStatic := true, colliderEnabled := false,
                         events := f.body.events + [HitGroundTrigger]))
    else f
  }

  class FlyingEnemy {
    const movement: EnemyMovement
    const controller: EnemyController
    const config: FlyConfig
    var state: FlyingState
    var startPoint: Vec2
    var attackPoint: Vec2
    var distanceTravelled: real

    function Snapshot(): Flyer
      reads this, movement
    {
      Flyer(movement.body, state, startPoint, attackPoint, distanceTravelled)
    }

    /** The component before `Start`: patrolling, nothing travelled. */
    constructor (movement: EnemyMovement, controller: EnemyController, config: FlyConfig)
      ensures this.movement == movement && this.controller == controller && this.config == config
      ensures state == Normal && distanceTravelled == 0.0
      ensures startPoint == Zero && attackPoint == Zero
    {
      this.movement := movement;
      this.controller := controller;
      this.config := config;
      state := Normal;
      startPoint := Zero;
      attackPoint := Zero;
      distanceTravelled := 0.0;
    }

    /** `Start`: after the base start, the direction is the reverse of the
        base's choice, the start point is the current position, and the
        patrol can begin half-way along `maxFlyDistance`. */
    method Start(flipX: bool, position: Vec2)
      modifies this, movement
      ensures movement.body == old(movement.body).(flipX := flipX, moveDirection := if flipX then Right else Left)
      ensures startPoint == position && state == old(state) && attackPoint == old(attackPoint)
      ensures distanceTravelled == if config.startInCenterOfDistance then config.maxFlyDistance / 2.0
                                   else old(distanceTravelled)
    {
      movement.Start(flipX);
      movement.body := movement.body.(moveDirection := if movement.body.flipX then Right else Left);
      startPoint := position;
      if config.startInCenterOfDistance {
        distanceTravelled := config.maxFlyDistance / 2.0;
      }
    }

    /** The `State` setter. */
    method SetState(s: FlyingState, v: FlyView)
      modifies this, movement
      ensures Snapshot() == Enter(old(Snapshot()), s, v)
    {
      state := s;
      match s {
        case Normal =>
          movement.body := movement.body.(moveDirection := if movement.body.flipX then Right else Left,
                                          flipY := false,
                                          events := movement.body.events + [AttackingAnim(false)]);
        case Attack =>
          movement.StopMoving();
          movement.body := movement.body.(flipX := v.playerPosition.x > v.position.x,
                                          moveDirection := v.towardPlayer);
          attackPoint := v.position;
          movement.body := movement.body.(flipY := false,
                                          events := movement.body.events + [AttackingAnim(true), AttackSound]);
        case Follow =>
          movement.body := movement.body.(flipY := false, events := movement.body.events + [AttackingAnim(false)]);
        case Return =>
          var d := if v.playerPosition.x < v.position.x then Vec2(1.0, 1.0) else Vec2(-1.0, 1.0);
          movement.body := movement.body.(moveDirection := d, flipX := d.x > 0.0,
                                          events := movement.body.events + [AttackingAnim(false)]);
        case Retreat =>
          movement.body := movement.body.(moveDirection := v.towardStart, flipX := v.towardStart.x > 0.0,
                                          events := movement.body.events + [AttackingAnim(false)]);
        case Dead =>
          movement.body := movement.body.(velocity := Zero, gravityScale := 1.0,
                                          events := movement.body.events + [DieTrigger]);
      }
    }

    method FlyAcrossLevel(v: FlyView)
      modifies this, movement
      ensures Snapshot() == FlyAcross(old(Snapshot()), v, config)
    {
      movement.body := movement.body.(velocity := movement.body.moveDirection.Scale(config.movementSpeed));
      distanceTravelled := v.distanceToStart;
      if NextToWall(movement.body.moveDirection, v.wallLeft, v.wallRight) || distanceTravelled > config.maxFlyDistance {
        movement.body := movement.body.(flipX := !movement.body.flipX,
                                        moveDirection := movement.body.moveDirection.Neg());
        startPoint := v.position;
      }
    }

    method CheckForPlayer(v: FlyView)
      modifies this, movement
      ensures Snapshot() == Checked(old(Snapshot()), v, config)
    {
      var playerInRange := v.playerInRange;
      if !config.canSeeThroughWalls {
        if !PlayerBehindObject(v.sight) && playerInRange {
          if v.distanceToPlayer <= config.attackRange {
            SetState(Attack, v);
          } else {
            SetState(Follow, v);
          }
        }
      } else if playerInRange {
        if v.distanceToPlayer <= config.attackRange {
          SetState(Attack, v);
        } else {
          SetState(Follow, v);
        }
      }
    }

    method AttackPlayer(v: FlyView)
      modifies this, movement
      ensures Snapshot() == AttackStep(old(Snapshot()), v, config)
    {
      movement.body := movement.body.(velocity := movement.body.moveDirection.Scale(config.chargeSpeed));
      if v.distanceToAttackPoint > config.maxChargeDistance {
        SetState(Return, v);
      }
    }

    method FollowPlayer(v: FlyView)
      modifies this, movement
      ensures Snapshot() == FollowStep(old(Snapshot()), v, config)
    {
      movement.body := movement.body.(flipX := v.playerPosition.x > v.position.x);
      movement.body := movement.body.(moveDirection := v.towardPlayer);
      movement.body := movement.body.(velocity := movement.body.moveDirection.Scale(config.chaseSpeed));
      if !config.canSeeThroughWalls && PlayerBehindObject(v.sight) {
        SetState(Retreat, v);
      } else if v.distanceToPlayer > config.visionRadius {
        SetState(Retreat, v);
      } else if v.distanceToPlayer <= config.attackRange {
        SetState(Attack, v);
      }
    }

    method FlyUp(v: FlyView)
      modifies this, movement
      ensures Snapshot() == FlyUpStep(old(Snapshot()), v, config)
    {
      movement.body := movement.body.(velocity := movement.body.moveDirection.Scale(config.retreatSpeed));
      if v.position.y >= startPoint.y {
        SetState(Follow, v);
      }
    }

    method RetreatToStart(v: FlyView)
      modifies this, movement
      ensures Snapshot() == RetreatStep(old(Snapshot()), v, config)
    {
      movement.body := movement.body.(velocity := movement.body.moveDirection.Scale(config.movementSpeed));
      if v.distanceToStart <= 0.5 {
        SetState(Normal, v);
      }
    }

    /** The base update and the death check of `Update`. */
    method CheckDeath(v: FlyView)
      modifies this, movement
      ensures Snapshot() == Died(old(Snapshot()), v, movement.knockBackTime, controller.alive)
    {
      movement.Update(v.dt, controller.alive, v.floor);
      if !controller.alive && state != Dead {
        SetState(Dead, v);
      }
    }

    /** `Update()`, with the probes measured from the current position, start
        point and attack point. */
    method Update(v: FlyView)
      requires IsDirection(v.towardPlayer, v.position, v.playerPosition, v.distanceToPlayer)
      requires IsDirection(v.towardStart, v.position, startPoint, v.distanceToStart)
      requires IsDistance(v.distanceToAttackPoint, attackPoint, v.position)
      modifies this, movement
      ensures Snapshot() == FlyTick(old(Snapshot()), v, config, movement.knockBackTime, controller.alive)
    {
      CheckDeath(v);
      match state {
        case Normal =>
          FlyAcrossLevel(v);
          CheckForPlayer(v);
        case Attack => AttackPlayer(v);
        case Follow => FollowPlayer(v);
        case Return => FlyUp(v);
        case Retreat =>
          RetreatToStart(v);
          CheckForPlayer(v);
        case Dead =>
      }
    }

    /** `OnCollisionEnter2D`, with the layer of the collider hit. */
    method OnCollisionEnter2D(layer: int, v: FlyView)
      modifies this, movement
      ensures Snapshot() == Collide(old(Snapshot()), layer, v)
    {
      if state == Attack {
        SetState(Return, v);
      } else if state == Return {
        SetState(Follow, v);
      } else if state == Dead && layer == 3 {
        movement.body := movement.body.(events := movement.body.events + [HitGroundTrigger]);
        movement.body := movement.body.(isStatic := true);
        movement.body := movement.body.(colliderEnabled := false);
      }
    }
  }

  // ----- Properties of the machine -----

  /** A dead controller puts the enemy into Dead on the next update; coming
      from a living state the body stops and gravity takes over. */
  lemma DeathEntersDead(f: Flyer, v: FlyView, c: FlyConfig, knockBackTime: real)
    ensures FlyTick(f, v, c, knockBackTime, false).state == Dead
    ensures f.state != Dead ==>
      FlyTick(f, v, c, knockBackTime, false).body.velocity == Zero
      && FlyTick(f, v, c, knockBackTime, false).body.gravityScale == 1.0
  {
  }

  /** Dead has no behaviour and no way out: neither an update nor a
      collision leaves it. */
  lemma DeadIsAbsorbing(f: Flyer, v: FlyView, c: FlyConfig, knockBackTime: real, alive: bool, layer: int)
    requires f.state == Dead
    ensures FlyTick(f, v, c, knockBackTime, alive).state == Dead
    ensures Collide(f, layer, v).state == Dead
  {
  }

  /** What happens to a flying enemy: a frame with the controller's `Alive`,
      or a collision with a collider on some layer. */
  datatype Happening = Frame(view: FlyView, alive: bool) | Collision(layer: int, at: FlyView)

  function FlyRun(f: Flyer, hs: seq<Happening>, c: FlyConfig, knockBackTime: real): Flyer
    decreases |hs|
  {
    if |hs| == 0 then f
    else
      var f1 := match hs[0]
        case Frame(v, alive) => FlyTick(f, v, c, knockBackTime, alive)
        case Collision(layer, v) => Collide(f, layer, v);
      FlyRun(f1, hs[1..], c, knockBackTime)
  }

  /** Once dead, always dead, whatever follows. */
  lemma {:induction false} DeadForever(f: Flyer, hs: seq<Happening>, c: FlyConfig, knockBackTime: real)
    requires f.state == Dead
    ensures FlyRun(f, hs, c, knockBackTime).state == Dead
    decreases |hs|
  {
    if |hs| > 0 {
      var f1 := match hs[0]
        case Frame(v, alive) => FlyTick(f, v, c, knockBackTime, alive)
        case Collision(layer, v) => Collide(f, layer, v);
      match hs[0] {
        case Frame(v, alive) => DeadIsAbsorbing(f, v, c, knockBackTime, alive, 0);
        case Collision(layer, v) => DeadIsAbsorbing(f, v, c, knockBackTime, true, layer);
      }
      DeadForever(f1, hs[1..], c, knockBackTime);
    }
  }

  /** Detection attacks within `attackRange`, recording the current position
      as the attack point, and follows beyond it; without detection nothing
      changes. Detection is the vision circle, and the sight ray unless the
      enemy sees through walls. */
  lemma DetectionChoosesAttackOrFollow(f: Flyer, v: FlyView, c: FlyConfig)
    ensures Detected(v, c) <==> v.playerInRange && (c.canSeeThroughWalls || !PlayerBehindObject(v.sight))
    ensures Detected(v, c) && v.distanceToPlayer <= c.attackRange ==>
      Checked(f, v, c).state == Attack && Checked(f, v, c).attackPoint == v.position
    ensures Detected(v, c) && v.distanceToPlayer > c.attackRange ==>
      Checked(f, v, c).state == Follow && Checked(f, v, c).attackPoint == f.attackPoint
    ensures !Detected(v, c) ==> Checked(f, v, c) == f
  {
  }

  /** A living attacker pulls up exactly when past `maxChargeDistance` from
      its attack point. */
  lemma AttackEndsPastChargeDistance(f: Flyer, v: FlyView, c: FlyConfig, knockBackTime: real)
    requires f.state == Attack
    ensures var r := FlyTick(f, v, c, knockBackTime, true);
      (r.state == Return <==> v.distanceToAttackPoint > c.maxChargeDistance)
      && (r.state == Attack <==> v.distanceToAttackPoint <= c.maxChargeDistance)
  {
  }

  /** A living climber follows again exactly when back at the start point's height. */
  lemma ReturnEndsAtStartHeight(f: Flyer, v: FlyView, c: FlyConfig, knockBackTime: real)
    requires f.state == Return
    ensures var r := FlyTick(f, v, c, knockBackTime, true);
      (r.state == Follow <==> v.position.y >= f.startPoint.y)
      && (r.state == Return <==> v.position.y < f.startPoint.y)
  {
  }

  /** A follower that loses sight of the player, or sees it leave the vision
      radius, retreats even inside attack range; only a visible player in
      range is attacked. */
  lemma FollowChecksSightFirst(f: Flyer, v: FlyView, c: FlyConfig, knockBackTime: real)
    requires f.state == Follow
    ensures var r := FlyTick(f, v, c, knockBackTime, true);
      var lost := (!c.canSeeThroughWalls && PlayerBehindObject(v.sight)) || v.distanceToPlayer > c.visionRadius;
      && (r.state == Retreat <==> lost)
      && (r.state == Attack <==> !lost && v.distanceToPlayer <= c.attackRange)
      && (r.state == Follow <==> !lost && v.distanceToPlayer > c.attackRange)
  {
  }

  /** A retreat reaching its start point patrols again, unless the player is
      detected in the same frame: the detection check runs after it and wins. */
  lemma DetectionOverridesRetreatArrival(f: Flyer, v: FlyView, c: FlyConfig, knockBackTime: real)
    requires f.state == Retreat
    ensures var r := FlyTick(f, v, c, knockBackTime, true);
      && (Detected(v, c) ==> r.state == (if v.distanceToPlayer <= c.attackRange then Attack else Follow))
      && (!Detected(v, c) ==> r.state == (if v.distanceToStart <= 0.5 then Normal else Retreat))
  {
  }

  /** An undisturbed patrol turns around, and restarts its leg at the current
      position, exactly at a wall or past `maxFlyDistance`. */
  lemma PatrolTurnsAtWallOrDistance(f: Flyer, v: FlyView, c: FlyConfig, knockBackTime: real)
    requires f.state == Normal && !Detected(v, c)
    ensures var r := FlyTick(f, v, c, knockBackTime, true);
      var turn := NextToWall(f.body.moveDirection, v.wallLeft, v.wallRight) || v.distanceToStart > c.maxFlyDistance;
      && r.state == Normal
      && r.distanceTravelled == v.distanceToStart
      && r.body.moveDirection == (if turn then f.body.moveDirection.Neg() else f.body.moveDirection)
      && r.startPoint == (if turn then v.position else f.startPoint)
      && r.body.flipX == (if turn then !f.body.flipX else f.body.flipX)
  {
  }

  /** A collision ends a charge or a climb and changes no other living state. */
  lemma CollisionTransitions(f: Flyer, layer: int, v: FlyView)
    ensures f.state == Attack ==> Collide(f, layer, v).state == Return
    ensures f.state == Return ==> Collide(f, layer, v).state == Follow
    ensures f.state in {Normal, Follow, Retreat} ==> Collide(f, layer, v) == f
    ensures f.state == Dead ==> Collide(f, layer, v).body.isStatic == (layer == 3 || f.body.isStatic)
  {
  }

  /** Entering Normal faces the enemy along its sprite: right when flipped,
      left otherwise, so the patrol is horizontal. */
  lemma NormalEntryIsHorizontal(f: Flyer, v: FlyView)
    ensures Horizontal(Enter(f, Normal, v).body.moveDirection)
    ensures (Enter(f, Normal, v).body.moveDirection == Right) == f.body.flipX
  {
  }
}
