/** The movement skeleton every enemy species shares: the knockback impulse
    and its timer, the dead-on-the-floor shutdown, and the probe predicates
    built on physics queries. A query's outcome is an input; the predicates
    state how each species reads it. */
module EnemyBase {
  import opened Vectors

  /** Animator triggers, sounds and sprite effects of every enemy species. */
  datatype EnemyEvent =
    | WalkingAnim(on: bool)
    | AttackingAnim(on: bool)
    | DieTrigger
    | HitGroundTrigger
    | AttackSound
    | WalkTrigger
    | JumpTrigger
    | FallTrigger
    | RunTrigger
    | DroppedOffCeiling   // translated sideways and down, rotated a quarter turn
    | LandedUpright       // rotation reset and translated down half a unit

  /** What a ray cast from the enemy toward the player hit first. */
  datatype RayHit = NoHit | HitObject(isSelf: bool, layer: int, taggedPlayer: bool)

  /** What an overlap box found: nothing, the enemy itself, or another collider. */
  datatype Overlap = NoOverlap | OverlapSelf | OverlapOther(isPlayer: bool)

  /** The rigid body and sprite state of an enemy, as the base component and
      the species update it. */
  datatype Body = Body(
    knockBack: bool,
    timeSinceKnockback: real,
    velocity: Vec2,
    gravityScale: real,
    isStatic: bool,
    colliderEnabled: bool,
    moveDirection: Vec2,
    castDirection: Vec2,
    flipX: bool,
    flipY: bool,
    impulses: seq<Vec2>,
    events: seq<EnemyEvent>)

  /** `NextToWall(direction)`: the left wall probe decides for a leftward
      direction, the right one for a rightward direction, and a vertical
      direction is never next to a wall. */
  function NextToWall(direction: Vec2, wallLeft: bool, wallRight: bool): (r: bool)
    ensures direction.x == 0.0 ==> !r
    ensures direction.x < 0.0 ==> r == wallLeft
    ensures direction.x > 0.0 ==> r == wallRight
  {
    if direction.x < 0.0 then
      if wallLeft then true else false
    else if direction.x > 0.0 then
      if wallRight then true else false
    else
      false
  }

  /** `OnFloor()`: the floor box overlaps a ground collider other than the enemy's own. */
  function OnFloor(floor: Overlap): (r: bool)
    ensures r <==> floor.OverlapOther?
  {
    if floor != NoOverlap && floor != OverlapSelf then true else false
  }

  /** `PlayerBehindObject`: the sight ray hit something that is neither the
      enemy, nor on the player layer 6, nor tagged Player. */
  function PlayerBehindObject(hit: RayHit): (r: bool)
    ensures hit == NoHit ==> !r
    ensures r ==> !hit.isSelf && hit.layer != 6 && !hit.taggedPlayer
    ensures hit.HitObject? && !hit.isSelf && hit.layer != 6 && !hit.taggedPlayer ==> r
  {
    match hit
    case NoHit => false
    case HitObject(isSelf, layer, tagged) => !isSelf && layer != 6 && !tagged
  }

  /** `HitPlayer()`: one of the four boxes around the enemy touches the player. */
  function HitPlayer(left: Overlap, right: Overlap, above: Overlap, below: Overlap): (r: bool)
    ensures r <==> exists b :: b in [left, right, above, below] && b == OverlapOther(true)
  {
    assert left in [left, right, above, below] && right in [left, right, above, below];
    assert above in [left, right, above, below] && below in [left, right, above, below];
    left == OverlapOther(true) || right == OverlapOther(true)
    || above == OverlapOther(true) || below == OverlapOther(true)
  }

  /** `Knockback(direction)`: the enemy is knocked back, stops, and receives
      the impulse `direction * knockBackForce`. */
  function KnockedBack(b: Body, direction: Vec2, force: real): Body
  {
    b.(knockBack := true, velocity := Zero, impulses := b.impulses + [direction.Scale(force)])
  }

  /** The base `Update`: a running knockback accumulates time and, once
      `knockBackTime` is reached, stops the body and ends; otherwise the base
      returns early. Past that, a dead enemy on the floor loses its collider
      and its body becomes static. */
  function BaseUpdate(b: Body, dt: real, knockBackTime: real, alive: bool, onFloor: bool): Body
  {
    if b.knockBack && b.timeSinceKnockback + dt < knockBackTime then
      b.(timeSinceKnockback := b.timeSinceKnockback + dt)
    else
      var b1 := if b.knockBack then b.(velocity := Zero, timeSinceKnockback := 0.0, knockBack := false) else b;
      if !alive && onFloor then b1.(colliderEnabled := false, isStatic := true) else b1
  }

  /** The body as the component's field initialisers leave it. */
  function InitialBody(): Body
  {
    Body(false, 0.0, Zero, 1.0, false, true, Left, Zero, false, false, [], [])
  }

  class EnemyMovement {
    const knockBackForce: real
    const knockBackTime: real
    var body: Body

    constructor (knockBackForce: real, knockBackTime: real)
      ensures this.knockBackForce == knockBackForce && this.knockBackTime == knockBackTime
      ensures body == InitialBody()
    {
      this.knockBackForce := knockBackForce;
      this.knockBackTime := knockBackTime;
      body := InitialBody();
    }

    /** `Start`: the walk direction follows the sprite's horizontal flip. */
    method Start(flipX: bool)
      modifies this
      ensures body == old(body).(flipX := flipX, moveDirection := if flipX then Left else Right)
    {
      body := body.(flipX := flipX, moveDirection := if flipX then Left else Right);
    }

    /** `Knockback(direction)`. */
    method Knockback(direction: Vec2)
      modifies this
      ensures body == KnockedBack(old(body), direction, knockBackForce)
    {
      body := body.(knockBack := true);
      StopMoving();
      body := body.(impulses := body.impulses + [direction.Scale(knockBackForce)]);
    }

    /** `StopMoving()`: the velocity is zeroed. */
    method StopMoving()
      modifies this
      ensures body == old(body).(velocity := Zero)
    {
      body := body.(velocity := Zero);
    }

    /** The base `Update`, with the frame time and the floor probe as inputs. */
    method Update(dt: real, alive: bool, floor: Overlap)
      modifies this
      ensures body == BaseUpdate(old(body), dt, knockBackTime, alive, OnFloor(floor))
    {
      if body.knockBack {
        body := body.(timeSinceKnockback := body.timeSinceKnockback + dt);
        if body.timeSinceKnockback >= knockBackTime {
          body := body.(velocity := Zero, timeSinceKnockback := 0.0, knockBack := false);
        } else {
          return;
        }
      }
      if !alive && OnFloor(floor) {
        body := body.(colliderEnabled := false, isStatic := true);
      }
    }
  }

  /** `Knockback` turns the knockback on and stops the body before the
      impulse; nothing but those three fields changes. */
  lemma KnockbackStopsFirst(b: Body, direction: Vec2, force: real)
    ensures var k := KnockedBack(b, direction, force);
      && k.knockBack && k.velocity == Zero
      && k.impulses == b.impulses + [direction.Scale(force)]
      && k.(knockBack := b.knockBack, velocity := b.velocity, impulses := b.impulses) == b
  {
  }

  /** While the accumulated time stays below `knockBackTime`, a base update
      only advances the timer; the tick that reaches it stops the body,
      resets the timer and ends the knockback. */
  lemma KnockbackTimer(b: Body, dt: real, knockBackTime: real, alive: bool, onFloor: bool)
    requires b.knockBack
    ensures var u := BaseUpdate(b, dt, knockBackTime, alive, onFloor);
      b.timeSinceKnockback + dt < knockBackTime ==> u == b.(timeSinceKnockback := b.timeSinceKnockback + dt)
    ensures var u := BaseUpdate(b, dt, knockBackTime, alive, onFloor);
      b.timeSinceKnockback + dt >= knockBackTime ==>
        !u.knockBack && u.velocity == Zero && u.timeSinceKnockback == 0.0
  {
  }

  /** A dead enemy on the floor, not held by a knockback, ends the update
      with its collider disabled and its body static; alive or off the
      floor, those two fields are left alone. */
  lemma DeadOnFloorFreezes(b: Body, dt: real, knockBackTime: real, alive: bool, onFloor: bool)
    requires !b.knockBack || b.timeSinceKnockback + dt >= knockBackTime
    ensures var u := BaseUpdate(b, dt, knockBackTime, alive, onFloor);
      !alive && onFloor ==> !u.colliderEnabled && u.isStatic
    ensures var u := BaseUpdate(b, dt, knockBackTime, alive, onFloor);
      !(!alive && onFloor) ==> u.colliderEnabled == b.colliderEnabled && u.isStatic == b.isStatic
  {
  }

  /** `n` base updates of `dt` each. */
  function BaseUpdates(b: Body, dt: real, knockBackTime: real, alive: bool, onFloor: bool, n: nat): Body
    decreases n
  {
    if n == 0 then b else BaseUpdate(BaseUpdates(b, dt, knockBackTime, alive, onFloor, n - 1), dt, knockBackTime, alive, onFloor)
  }

  /** The time `n` frames of `dt` take. */
  function Elapsed(dt: real, n: nat): real
  {
    if n == 0 then 0.0 else Elapsed(dt, n - 1) + dt
  }

  /** While the elapsed frames stay below `knockBackTime` a knockback holds:
      the timer counts them exactly and nothing else changes. */
  lemma {:induction false} KnockbackLasts(b: Body, dt: real, knockBackTime: real, alive: bool, onFloor: bool, n: nat)
    requires b.knockBack && dt >= 0.0
    requires b.timeSinceKnockback + Elapsed(dt, n) < knockBackTime
    ensures BaseUpdates(b, dt, knockBackTime, alive, onFloor, n)
      == b.(timeSinceKnockback := b.timeSinceKnockback + Elapsed(dt, n))
    decreases n
  {
    if n > 0 {
      KnockbackLasts(b, dt, knockBackTime, alive, onFloor, n - 1);
    }
  }

  /** The first frame on which the elapsed time reaches `knockBackTime` ends
      the knockback, stops the body and resets the timer. */
  lemma KnockbackEnds(b: Body, dt: real, knockBackTime: real, alive: bool, onFloor: bool, n: nat)
    requires b.knockBack && dt >= 0.0
    requires b.timeSinceKnockback + Elapsed(dt, n) < knockBackTime
    requires b.timeSinceKnockback + Elapsed(dt, n + 1) >= knockBackTime
    ensures var u := BaseUpdates(b, dt, knockBackTime, alive, onFloor, n + 1);
      !u.knockBack && u.velocity == Zero && u.timeSinceKnockback == 0.0
  {
    KnockbackLasts(b, dt, knockBackTime, alive, onFloor, n);
  }
}
