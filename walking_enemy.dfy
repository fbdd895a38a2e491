/** The walking enemy: patrols left and right, turning at walls and ledges,
    heads toward the player within its vision radius, and stops for good when
    dead. Probe results and the player's position come in with each frame. */
module WalkingEnemies {
  import opened Vectors
  import opened EnemyBase
  import opened EnemyHealth
  import Locomotion

  /** One frame's probes: the base floor box, the enemy's and the player's
      positions and their distance, the two wall boxes, the two ledge rays
      below left and right, and whether the player is alive. */
  datatype WalkView = WalkView(
    dt: real, floor: Overlap,
    position: Vec2, playerPosition: Vec2, distanceToPlayer: real,
    wallLeft: bool, wallRight: bool, tileBelowLeft: bool, tileBelowRight: bool,
    playerAlive: bool)

  /** The walking enemy's state: the shared body and `followPlayer`. */
  datatype Walker = Walker(body: Body, followPlayer: bool)

  /** `FollowPlayer()`: within the vision radius, the direction points at the
      player's side; at equal x, or out of range, it is kept. */
  function Followed(direction: Vec2, position: Vec2, playerPosition: Vec2,
                    distanceToPlayer: real, visionRadius: real): Vec2
  {
    if distanceToPlayer <= visionRadius then
      if position.x > playerPosition.x then Left
      else if position.x < playerPosition.x then Right
      else direction
    else direction
  }

  /** `MoveLeft()` / `MoveRight()`: the new velocity and direction. Walking
      right turns left at a wall or ledge on the right; every other direction
      walks left and turns right at a wall or ledge on the left. */
  function Moved(direction: Vec2, walkSpeed: real, v: WalkView): (Vec2, Vec2)
  {
    if direction == Right then
      (Right.Scale(walkSpeed),
       if NextToWall(Right, v.wallLeft, v.wallRight) || !v.tileBelowRight then Left else direction)
    else
      (Left.Scale(walkSpeed),
       if NextToWall(Left, v.wallLeft, v.wallRight) || !v.tileBelowLeft then Right else direction)
  }

  /** One walking-enemy `Update`, after the base update. */
  function WalkTick(w: Walker, v: WalkView, knockBackTime: real, walkSpeed: real,
                    visionRadius: real, alive: bool): Walker
  {
    var b := BaseUpdate(w.body, v.dt, knockBackTime, alive, OnFloor(v.floor));
    if !alive then
      Walker(b.(velocity := Zero, colliderEnabled := false), w.followPlayer)
    else if b.knockBack then
      Walker(b, w.followPlayer)
    else
      Walked(w.(body := b), v, walkSpeed, visionRadius)
  }

  /** The walking part of `Update`, for a living enemy not knocked back:
      follow, walk, aim the wall ray along the velocity, and stop following a
      dead player. */
  function Walked(w: Walker, v: WalkView, walkSpeed: real, visionRadius: real): Walker
  {
    var b := w.body;
    var d := if w.followPlayer
             then Followed(b.moveDirection, v.position, v.playerPosition, v.distanceToPlayer, visionRadius)
             else b.moveDirection;
    var (velocity, d2) := Moved(d, walkSpeed, v);
    Walker(b.(velocity := velocity, moveDirection := d2,
              castDirection := NormalizedHorizontal(velocity),
              events := b.events + [WalkingAnim(true)]),
           w.followPlayer && v.playerAlive)
  }

  class WalkingEnemy {
    const movement: EnemyMovement
    const controller: EnemyController
    const walkSpeed: real
    var followPlayer: bool

    function Snapshot(): Walker
      reads this, movement
    {
      Walker(movement.body, followPlayer)
    }

    /** The walk direction is always left or right. */
    predicate Valid()
      reads this, movement
    {
      Horizontal(movement.body.moveDirection)
    }

    constructor (movement: EnemyMovement, controller: EnemyController, walkSpeed: real, followPlayer: bool)
      requires Horizontal(movement.body.moveDirection)
      ensures Valid()
      ensures this.movement == movement && this.controller == controller
      ensures this.walkSpeed == walkSpeed && this.followPlayer == followPlayer
    {
      this.movement := movement;
      this.controller := controller;
      this.walkSpeed := walkSpeed;
      this.followPlayer := followPlayer;
    }

    /** `Start`: the base start, which faces the enemy along its sprite flip. */
    method Start(flipX: bool)
      modifies movement
      ensures Valid()
      ensures movement.body == old(movement.body).(flipX := flipX, moveDirection := if flipX then Left else Right)
    {
      movement.Start(flipX);
    }

    method FollowPlayer(v: WalkView)
      modifies movement
      ensures movement.body == old(movement.body).(moveDirection := Followed(
        old(movement.body.moveDirection), v.position, v.playerPosition, v.distanceToPlayer, controller.visionRadius))
    {
      if v.distanceToPlayer <= controller.visionRadius {
        if v.position.x > v.playerPosition.x {
          movement.body := movement.body.(moveDirection := Left);
        } else if v.position.x < v.playerPosition.x {
          movement.body := movement.body.(moveDirection := Right);
        }
      }
    }

    method MoveLeft(v: WalkView)
      modifies movement
      ensures movement.body == old(movement.body).(
        velocity := Left.Scale(walkSpeed),
        events := old(movement.body.events) + [WalkingAnim(true)],
        moveDirection := if NextToWall(Left, v.wallLeft, v.wallRight) || !v.tileBelowLeft
                         then Right else old(movement.body.moveDirection))
    {
      movement.body := movement.body.(velocity := Left.Scale(walkSpeed));
      movement.body := movement.body.(events := movement.body.events + [WalkingAnim(true)]);
      if NextToWall(Left, v.wallLeft, v.wallRight) || !v.tileBelowLeft {
        movement.body := movement.body.(moveDirection := Right);
      }
    }

    method MoveRight(v: WalkView)
      modifies movement
      ensures movement.body == old(movement.body).(
        velocity := Right.Scale(walkSpeed),
        events := old(movement.body.events) + [WalkingAnim(true)],
        moveDirection := if NextToWall(Right, v.wallLeft, v.wallRight) || !v.tileBelowRight
                         then Left else old(movement.body.moveDirection))
    {
      movement.body := movement.body.(velocity := Right.Scale(walkSpeed));
      movement.body := movement.body.(events := movement.body.events + [WalkingAnim(true)]);
      if NextToWall(Right, v.wallLeft, v.wallRight) || !v.tileBelowRight {
        movement.body := movement.body.(moveDirection := Left);
      }
    }

    /** The direction dispatch of `Update`: `MoveRight` when facing right,
        `MoveLeft` otherwise. */
    method Move(v: WalkView)
      modifies movement
      ensures movement.body == old(movement.body).(
        velocity := Moved(old(movement.body.moveDirection), walkSpeed, v).0,
        moveDirection := Moved(old(movement.body.moveDirection), walkSpeed, v).1,
        events := old(movement.body.events) + [WalkingAnim(true)])
    {
      if movement.body.moveDirection == Right {
        MoveRight(v);
      } else {
        MoveLeft(v);
      }
    }

    /** `Update()`, with the controller's `Alive` and vision radius read from
        the enemy's own controller. */
    method Update(v: WalkView)
      requires Valid()
      requires IsDistance(v.distanceToPlayer, v.position, v.playerPosition)
      modifies this, movement
      ensures Valid()
      ensures Snapshot() == WalkTick(old(Snapshot()), v, movement.knockBackTime, walkSpeed,
                                     controller.visionRadius, controller.alive)
    {
      movement.Update(v.dt, controller.alive, v.floor);
      if !controller.alive {
        movement.StopMoving();
        movement.body := movement.body.(colliderEnabled := false);
        return;
      }
      if movement.body.knockBack {
        return;
      }
      Walk(v);
      WalkTickKeepsHorizontal(old(Snapshot()), v, movement.knockBackTime, walkSpeed,
                              controller.visionRadius, controller.alive);
    }

    method Walk(v: WalkView)
      modifies this, movement
      ensures Snapshot() == Walked(old(Snapshot()), v, walkSpeed, controller.visionRadius)
    {
      if followPlayer {
        FollowPlayer(v);
      }
      Move(v);
      movement.body := movement.body.(castDirection := NormalizedHorizontal(movement.body.velocity));
      if !v.playerAlive {
        followPlayer := false;
      }
    }

    /** `OnTriggerEnter2D`: entering a ground-layer (3) trigger reverses the walk. */
    method OnTriggerEnter2D(layer: int)
      requires Valid()
      modifies movement
      ensures Valid()
      ensures layer == 3 ==> movement.body == old(movement.body).(moveDirection := old(movement.body.moveDirection).Neg())
      ensures layer != 3 ==> movement.body == old(movement.body)
    {
      if layer == 3 {
        movement.body := movement.body.(moveDirection := movement.body.moveDirection.Neg());
      }
    }

    /** `OnCollisionEnter2D`: the player (layer 6) running the enemy into a
        wall along `castDirection` knocks the enemy back the other way and
        makes the player jump. `wallHit` is the wall ray's result. */
    method OnCollisionEnter2D(layer: int, wallHit: bool, player: Locomotion.PlayerMovement)
      modifies movement, player
      ensures layer == 6 && wallHit ==>
        movement.body == KnockedBack(old(movement.body), old(movement.body.castDirection).Neg(), movement.knockBackForce)
        && player.Snapshot() == Locomotion.Entered(old(player.Snapshot()), Locomotion.Jumping, player.config)
      ensures !(layer == 6 && wallHit) ==>
        movement.body == old(movement.body) && player.Snapshot() == old(player.Snapshot())
    {
      if layer == 6 {
        if wallHit {
          movement.Knockback(movement.body.castDirection.Neg());
          player.SetJumpState();
        }
      }
    }
  }

  // ----- Properties -----

  /** A dead walking enemy stops, loses its collider and neither turns nor
      walks. */
  lemma DeadWalkerStops(w: Walker, v: WalkView, knockBackTime: real, walkSpeed: real, visionRadius: real)
    ensures var r := WalkTick(w, v, knockBackTime, walkSpeed, visionRadius, false);
      && r.body.velocity == Zero && !r.body.colliderEnabled
      && r.body.moveDirection == w.body.moveDirection
      && r.body.events == w.body.events
      && r.followPlayer == w.followPlayer
  {
  }

  /** While knocked back, the walking enemy's own update changes nothing
      beyond the base update. */
  lemma KnockedBackSkipsWalking(w: Walker, v: WalkView, knockBackTime: real, walkSpeed: real, visionRadius: real)
    requires w.body.knockBack && w.body.timeSinceKnockback + v.dt < knockBackTime
    ensures WalkTick(w, v, knockBackTime, walkSpeed, visionRadius, true)
      == w.(body := w.body.(timeSinceKnockback := w.body.timeSinceKnockback + v.dt))
  {
  }

  /** Walking sets the velocity to `walkSpeed` along the walk direction and
      turns around exactly at a wall or a ledge on that side. */
  lemma MoveTurnsAtWallOrLedge(walkSpeed: real, v: WalkView)
    ensures Moved(Left, walkSpeed, v).0 == Vec2(-walkSpeed, 0.0)
    ensures (Moved(Left, walkSpeed, v).1 == Right) == (v.wallLeft || !v.tileBelowLeft)
    ensures Moved(Right, walkSpeed, v).0 == Vec2(walkSpeed, 0.0)
    ensures (Moved(Right, walkSpeed, v).1 == Left) == (v.wallRight || !v.tileBelowRight)
    ensures Horizontal(Moved(Left, walkSpeed, v).1) && Horizontal(Moved(Right, walkSpeed, v).1)
  {
  }

  /** Following points the direction at the player whenever the player is in
      range and not level with the enemy, and keeps a horizontal direction
      horizontal. */
  lemma FollowFacesPlayer(direction: Vec2, position: Vec2, playerPosition: Vec2, d: real, visionRadius: real)
    requires Horizontal(direction)
    ensures var r := Followed(direction, position, playerPosition, d, visionRadius);
      && Horizontal(r)
      && (d <= visionRadius && position.x != playerPosition.x ==> r.Dot(playerPosition.Minus(position)) > 0.0)
      && (d > visionRadius || position.x == playerPosition.x ==> r == direction)
  {
  }

  /** The update keeps the walk direction horizontal. */
  lemma WalkTickKeepsHorizontal(w: Walker, v: WalkView, knockBackTime: real, walkSpeed: real,
                                visionRadius: real, alive: bool)
    requires Horizontal(w.body.moveDirection)
    ensures Horizontal(WalkTick(w, v, knockBackTime, walkSpeed, visionRadius, alive).body.moveDirection)
  {
    var b := BaseUpdate(w.body, v.dt, knockBackTime, alive, OnFloor(v.floor));
    assert b.moveDirection == w.body.moveDirection;
    if alive && !b.knockBack {
      FollowFacesPlayer(b.moveDirection, v.position, v.playerPosition, v.distanceToPlayer, visionRadius);
      MoveTurnsAtWallOrLedge(walkSpeed, v);
    }
  }

  /** A run of frames, each with the enemy's `Alive`. */
  function WalkRun(w: Walker, frames: seq<(WalkView, bool)>, knockBackTime: real, walkSpeed: real,
                   visionRadius: real): Walker
    decreases |frames|
  {
    if |frames| == 0 then w
    else WalkRun(WalkTick(w, frames[0].0, knockBackTime, walkSpeed, visionRadius, frames[0].1),
                 frames[1..], knockBackTime, walkSpeed, visionRadius)
  }

  /** A frame in which the living, unhindered enemy sees the player dead
      turns following off, and once off it stays off for any later run. */
  lemma {:induction false} FollowStaysOff(w: Walker, frames: seq<(WalkView, bool)>, knockBackTime: real,
                                          walkSpeed: real, visionRadius: real)
    requires !w.followPlayer
    ensures !WalkRun(w, frames, knockBackTime, walkSpeed, visionRadius).followPlayer
    decreases |frames|
  {
    if |frames| > 0 {
      var w1 := WalkTick(w, frames[0].0, knockBackTime, walkSpeed, visionRadius, frames[0].1);
      assert !w1.followPlayer;
      FollowStaysOff(w1, frames[1..], knockBackTime, walkSpeed, visionRadius);
    }
  }

  /** Seeing the player dead on a walking frame turns following off. */
  lemma PlayerDeathStopsFollowing(w: Walker, v: WalkView, knockBackTime: real, walkSpeed: real, visionRadius: real)
    requires !v.playerAlive
    requires !BaseUpdate(w.body, v.dt, knockBackTime, true, OnFloor(v.floor)).knockBack
    ensures !WalkTick(w, v, knockBackTime, walkSpeed, visionRadius, true).followPlayer
  {
  }

  /** Any run keeps the walk direction horizontal. */
  lemma {:induction false} WalkRunKeepsHorizontal(w: Walker, frames: seq<(WalkView, bool)>, knockBackTime: real,
                                                  walkSpeed: real, visionRadius: real)
    requires Horizontal(w.body.moveDirection)
    ensures Horizontal(WalkRun(w, frames, knockBackTime, walkSpeed, visionRadius).body.moveDirection)
    decreases |frames|
  {
    if |frames| > 0 {
      WalkTickKeepsHorizontal(w, frames[0].0, knockBackTime, walkSpeed, visionRadius, frames[0].1);
      WalkRunKeepsHorizontal(WalkTick(w, frames[0].0, knockBackTime, walkSpeed, visionRadius, frames[0].1),
                             frames[1..], knockBackTime, walkSpeed, visionRadius);
    }
  }
}
