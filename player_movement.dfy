/** The player's locomotion state machine: the movement state with its
    entry actions, the coyote-time ground timer, jumping, falling and
    landing, and the damage knockback that decays back to standing. Ground
    and slope probes and the input values are per-frame inputs; forces the
    script hands to the physics engine are logged, not integrated. */
module Locomotion {
  import opened Vectors
  import opened CSharpInt

  datatype MovementType =
    Standing | Walking | SlopeWalk | Running | Jumping | Falling | Climbing | Grappling | Knockback

  datatype MotionEvent =
    | WalkingAnim(on: bool)     // the body animator's "walking" flag
    | AimPivotLeft | AimPivotRight
    | JumpTrigger               // "jump" trigger and jump sound
    | FallTrigger
    | LandSound
    | Impulse(force: Vec2)
    | Force(force: Vec2)
    | AirMovement               // horizontal air control force
    | GrappleReleased

  /** The serialized tuning values the transitions read. */
  datatype MotionConfig = MotionConfig(
    walkSpeed: real, walkAcceleration: real, walkDeceleration: real,
    minimumWalkSpeed: real, slopeWalkSpeed: real, jumpForce: real,
    coyoteTime: real, gravityMultiplier: real, jumpGravityJumpHeld: real,
    jumpGravity: real, fallingGravityJumpHeld: real, fallingGravity: real,
    maximumFallSpeed: real, knockbackForce: real, minKnockbackVelocity: real,
    knockbackDeceleration: real, maxKnockbackTime: real)

  /** The knockback deceleration divides the velocity by `1 + deceleration`,
      which the serialized value keeps positive. */
  predicate ValidConfig(c: MotionConfig)
  {
    c.knockbackDeceleration >= 0.0
  }

  /** One frame's inputs: the frame time, the body's velocity as the
      physics step left it, the input handler's values, the two ground
      boxes, the slope probe's verdict and the slope's unit tangent. */
  datatype Frame = Frame(
    dt: real, bodyVelocity: Vec2, jumpPressed: bool, inputX: real, inputY: real,
    groundLeft: bool, groundRight: bool, onSlope: bool, slopeNormalPerp: Vec2)

  /** The fields the transitions read and write. */
  datatype Motion = Motion(
    state: MovementType,
    lastOnGroundTime: real,
    knockbackTimer: real,
    minWalkSpeedReached: bool,
    onGround: bool,
    onSlope: bool,
    velocity: Vec2,
    gravityScale: real,
    jumpHeld: bool,
    inputX: real,
    inputY: real,
    events: seq<MotionEvent>)

  /** `OnGround`: the coyote timer has not run out. */
  predicate OnGround(m: Motion)
  {
    m.lastOnGroundTime >= 0.0
  }

  /** `StartJump()`: only while `OnGround`, the coyote timer is spent, jump
      gravity is set and the jump impulse tops the vertical speed up to `jumpForce`. */
  function Jumped(m: Motion, c: MotionConfig): (r: Motion)
    ensures !OnGround(m) ==> r == m
    ensures OnGround(m) ==> r.lastOnGroundTime == 0.0 && r.gravityScale == c.gravityMultiplier * c.jumpGravityJumpHeld
    ensures r.state == m.state && r.velocity == m.velocity && r.knockbackTimer == m.knockbackTimer
  {
    if m.lastOnGroundTime >= 0.0 then
      m.(lastOnGroundTime := 0.0,
         gravityScale := c.gravityMultiplier * c.jumpGravityJumpHeld,
         events := m.events + [JumpTrigger, Impulse(Vec2(0.0, c.jumpForce - m.velocity.y))])
    else m
  }

  /** The aim pivot turns toward the horizontal input. */
  function AimEvents(inputX: real): seq<MotionEvent>
  {
    if inputX < 0.0 then [AimPivotLeft] else if inputX > 0.0 then [AimPivotRight] else []
  }

  /** `ChangeState(s)`: nothing when already in `s`; otherwise the new state's
      entry action runs. */
  function Entered(m: Motion, s: MovementType, c: MotionConfig): (r: Motion)
    ensures m.state == s ==> r == m
    ensures r.state == s
  {
    if m.state == s then m
    else
      var m1 := m.(state := s);
      var m2 :=
        match s
        case Standing => m1.(minWalkSpeedReached := false, events := m1.events + [WalkingAnim(false)])
        case Walking => m1.(events := m1.events + [WalkingAnim(true)] + AimEvents(m1.inputX))
        case SlopeWalk => m1.(events := m1.events + [WalkingAnim(true)] + AimEvents(m1.inputX))
        case Jumping => Jumped(m1, c)
        case Knockback => m1.(knockbackTimer := c.maxKnockbackTime)
        case Falling => m1.(events := m1.events + [FallTrigger])
        case _ => m1;
      m2
  }

  /** `GroundCheck()`: ground contact counts only outside a jump and refills
      the coyote timer. The source then resets a jumping state to standing,
      but that test sits inside a branch that excludes jumping. */
  function GroundChecked(m: Motion, contact: bool, c: MotionConfig): (r: Motion)
    ensures r.state == m.state
    ensures r.onGround == (contact && m.state != Jumping)
    ensures r.onGround ==> r.lastOnGroundTime == c.coyoteTime
    ensures !r.onGround ==> r.lastOnGroundTime == m.lastOnGroundTime
  {
    var onGround := contact && m.state != Jumping;
    if onGround then
      m.(onGround := true, lastOnGroundTime := c.coyoteTime,
         state := if m.state == Jumping then Standing else m.state)
    else m.(onGround := false)
  }

  /** The `Update` prelude: input on a slope enters slope walking; input on
      flat ground enters walking unless walking or knocked back already, with
      the landing sound when falling. */
  function Prelude(m: Motion, c: MotionConfig): Motion
  {
    if m.inputX != 0.0 && m.onGround && m.onSlope && m.state != SlopeWalk then
      Entered(m, SlopeWalk, c)
    else if m.inputX != 0.0 && m.onGround && !m.onSlope && m.state != Walking && m.state != Knockback then
      var m1 := if m.state == Falling then m.(events := m.events + [LandSound]) else m;
      Entered(m1, Walking, c)
    else m
  }

  /** The horizontal force of flat walking: toward `inputX * walkSpeed`. */
  function WalkForce(m: Motion, c: MotionConfig): Vec2
  {
    var targetSpeed := m.inputX * c.walkSpeed;
    var rate := if Abs(targetSpeed) > 0.01 then c.walkAcceleration else c.walkDeceleration;
    Vec2((targetSpeed - m.velocity.x) * rate, 0.0)
  }

  /** `UpdateWalk()`. */
  function WalkStep(m: Motion, slopeNormalPerp: Vec2, c: MotionConfig): Motion
  {
    WalkSettle(WalkMove(m, slopeNormalPerp, c), c)
  }

  /** The first half of `UpdateWalk()`: slope walking sets the velocity
      along the slope, flat walking pushes toward the walking speed. */
  function WalkMove(m: Motion, slopeNormalPerp: Vec2, c: MotionConfig): Motion
  {
    if m.state == SlopeWalk then
      m.(velocity := Vec2(c.slopeWalkSpeed * slopeNormalPerp.x * -m.inputX,
                          c.slopeWalkSpeed * slopeNormalPerp.y * -m.inputX))
    else if m.state == Walking then
      m.(events := m.events + [Force(WalkForce(m, c))])
    else m
  }

  /** The second half of `UpdateWalk()`: once the walking speed has been
      reached, slowing down on the ground without input means standing;
      dropping off the ground means falling. */
  function WalkSettle(m: Motion, c: MotionConfig): Motion
  {
    var m2 := if Abs(m.velocity.x) >= c.minimumWalkSpeed then m.(minWalkSpeedReached := true) else m;
    var m3 :=
      if m2.minWalkSpeedReached && OnGround(m2) && Abs(m2.velocity.x) <= c.minimumWalkSpeed
         && m2.state != Grappling && m2.inputX < 1.0 && m2.inputX > -1.0
      then Entered(m2, Standing, c) else m2;
    if !OnGround(m3) && m3.velocity.y < 0.0 then Entered(m3, Falling, c) else m3
  }

  /** `UpdateJump()`: falling once the vertical speed is no longer upward,
      heavier gravity once jump is let go. */
  function JumpStep(m: Motion, c: MotionConfig): Motion
  {
    var m1 := if m.velocity.y <= 0.0 then Entered(m, Falling, c) else m;
    var m2 := if !m.jumpHeld then m1.(gravityScale := c.gravityMultiplier * c.jumpGravity) else m1;
    m2.(events := m2.events + [AirMovement])
  }

  /** `UpdateFall()`: in the air, fall gravity and a vertical speed clamped to
      `[-maximumFallSpeed, 0]`; on the ground, standing with the landing sound. */
  function FallStep(m: Motion, c: MotionConfig): Motion
  {
    if !OnGround(m) then
      var g := if m.jumpHeld then c.gravityMultiplier * c.fallingGravityJumpHeld
               else c.gravityMultiplier * c.fallingGravity;
      m.(gravityScale := g,
         velocity := Vec2(m.velocity.x, Clamp(m.velocity.y, -c.maximumFallSpeed, 0.0)),
         events := m.events + [AirMovement])
    else
      var m1 := Entered(m, Standing, c);
      m1.(events := m1.events + [LandSound])
  }

  /** `UpdateKnockback()`: the timer runs down and the horizontal speed decays
      by `1 + knockbackDecelleration`; too slow or out of time means standing. */
  function KnockbackDecay(m: Motion, dt: real, c: MotionConfig): Motion
    requires ValidConfig(c)
  {
    var m1 := m.(knockbackTimer := m.knockbackTimer - dt,
                 velocity := Vec2(m.velocity.x / (1.0 + c.knockbackDeceleration), m.velocity.y));
    var m2 := if Abs(m1.velocity.x) < c.minKnockbackVelocity then Entered(m1, Standing, c) else m1;
    if m2.knockbackTimer <= 0.0 then Entered(m2, Standing, c) else m2
  }

  /** The state dispatch of `Update`. */
  function Dispatch(m: Motion, f: Frame, c: MotionConfig): Motion
    requires ValidConfig(c)
  {
    match m.state
    case Standing =>
      var m1 := m.(velocity := Vec2(0.0, m.velocity.y));
      if !OnGround(m1) then Entered(m1, Falling, c) else m1
    case Walking => WalkStep(m, f.slopeNormalPerp, c)
    case SlopeWalk => WalkStep(m, f.slopeNormalPerp, c)
    case Jumping => JumpStep(m, c)
    case Falling => FallStep(m, c)
    case Knockback => KnockbackDecay(m, f.dt, c)
    case _ => m
  }

  /** The head of `Update`: the body's velocity is what the physics step
      made of it, the coyote timer runs down, the inputs are read, and the
      ground and slope probes are taken. */
  function Probed(m: Motion, f: Frame, c: MotionConfig): Motion
  {
    var m1 := m.(velocity := f.bodyVelocity, lastOnGroundTime := m.lastOnGroundTime - f.dt,
                 jumpHeld := f.jumpPressed, inputX := f.inputX, inputY := f.inputY);
    GroundChecked(m1, f.groundLeft || f.groundRight, c).(onSlope := f.onSlope)
  }

  /** One `Update` frame. */
  function Tick(m: Motion, f: Frame, c: MotionConfig): Motion
    requires ValidConfig(c)
  {
    Dispatch(Prelude(Probed(m, f, c), c), f, c)
  }

  /** `OnEnable`: standing, with the base gravity. */
  function Reenabled(m: Motion, c: MotionConfig): Motion
  {
    m.(state := Standing, gravityScale := c.gravityMultiplier)
  }

  /** `OnDisable`: the body stops and floats, and the walk animation ends. */
  function Halted(m: Motion): Motion
  {
    m.(velocity := Zero, gravityScale := 0.0, events := m.events + [WalkingAnim(false)])
  }

  /** `StopMoving()`: the body stops and the player stands. */
  function Stopped(m: Motion, c: MotionConfig): Motion
  {
    Entered(m.(velocity := Zero), Standing, c)
  }

  /** `Knockback(direction)`: the knockback impulse, then the knockback state. */
  function KnockedBack(m: Motion, direction: Vec2, c: MotionConfig): Motion
  {
    Entered(m.(events := m.events + [Impulse(direction.Scale(c.knockbackForce))]), MovementType.Knockback, c)
  }

  class PlayerMovement {
    const config: MotionConfig
    var state: MovementType
    var lastOnGroundTime: real
    var knockbackTimer: real
    var minWalkSpeedReached: bool
    var onGround: bool
    var onSlope: bool
    var velocity: Vec2
    var gravityScale: real
    var jumpHeld: bool
    var inputX: real
    var inputY: real
    var events: seq<MotionEvent>

    function Snapshot(): Motion
      reads this
    {
      Motion(state, lastOnGroundTime, knockbackTimer, minWalkSpeedReached, onGround, onSlope,
             velocity, gravityScale, jumpHeld, inputX, inputY, events)
    }

    predicate Valid()
      reads this
    {
      ValidConfig(config)
    }

    /** The component as its field initialisers leave it. */
    constructor (config: MotionConfig)
      requires ValidConfig(config)
      ensures Valid() && this.config == config
      ensures Snapshot() == Motion(Standing, 0.0, 0.0, false, false, false, Zero, 1.0, false, 0.0, 0.0, [])
    {
      this.config := config;
      state := Standing;
      lastOnGroundTime := 0.0;
      knockbackTimer := 0.0;
      minWalkSpeedReached := false;
      onGround := false;
      onSlope := false;
      velocity := Zero;
      gravityScale := 1.0;
      jumpHeld := false;
      inputX := 0.0;
      inputY := 0.0;
      events := [];
    }

    /** `OnEnable`: standing, with the base gravity. */
    method OnEnable()
      modifies this
      ensures Snapshot() == Reenabled(old(Snapshot()), config)
    {
      state := Standing;
      gravityScale := config.gravityMultiplier;
    }

    /** `OnDisable`: the body stops and floats. */
    method OnDisable()
      modifies this
      ensures Snapshot() == Halted(old(Snapshot()))
    {
      velocity := Zero;
      gravityScale := 0.0;
      events := events + [WalkingAnim(false)];
    }

    method StartJump()
      modifies this
      ensures Snapshot() == Jumped(old(Snapshot()), config)
    {
      if lastOnGroundTime >= 0.0 {
        lastOnGroundTime := 0.0;
        gravityScale := config.gravityMultiplier * config.jumpGravityJumpHeld;
        events := events + [JumpTrigger, Impulse(Vec2(0.0, config.jumpForce - velocity.y))];
      }
    }

    method ChangeState(newState: MovementType)
      modifies this
      ensures Snapshot() == Entered(old(Snapshot()), newState, config)
    {
      if state == newState {
        return;
      }
      state := newState;
      match state {
        case Standing =>
          events := events + [WalkingAnim(false)];
          minWalkSpeedReached := false;
        case Walking =>
          events := events + [WalkingAnim(true)] + AimEvents(inputX);
        case SlopeWalk =>
          events := events + [WalkingAnim(true)] + AimEvents(inputX);
        case Jumping =>
          StartJump();
        case Knockback =>
          knockbackTimer := config.maxKnockbackTime;
        case Falling =>
          events := events + [FallTrigger];
        case _ =>
      }
    }

    /** `SetJumpState()`. */
    method SetJumpState()
      modifies this
      ensures Snapshot() == Entered(old(Snapshot()), Jumping, config)
    {
      ChangeState(Jumping);
    }

    /** `SetGrappleState()`. */
    method SetGrappleState()
      modifies this
      ensures Snapshot() == Entered(old(Snapshot()), Grappling, config)
    {
      ChangeState(Grappling);
    }

    /** `StopMoving()`: the body stops and the player stands. */
    method StopMoving()
      modifies this
      ensures Snapshot() == Stopped(old(Snapshot()), config)
    {
      velocity := Zero;
      ChangeState(Standing);
    }

    /** `Knockback(direction)`: the knockback impulse, then the knockback state. */
    method Knockback(direction: Vec2)
      modifies this
      ensures Snapshot() == KnockedBack(old(Snapshot()), direction, config)
    {
      events := events + [Impulse(direction.Scale(config.knockbackForce))];
      ChangeState(MovementType.Knockback);
    }

    /** `ReleaseGrapplingHook()`, with whether the grappling gun is active as
        an input: a release while grappling or jumping frees the hook, and
        grappling turns into jumping. */
    method ReleaseGrapplingHook(grapplingGunActive: bool)
      modifies this
      ensures !grapplingGunActive && old(state) != Grappling ==> Snapshot() == old(Snapshot())
      ensures (grapplingGunActive || old(state) == Grappling) && old(state) == Grappling ==>
        Snapshot() == Entered(old(Snapshot()).(events := old(events) + [GrappleReleased]), Jumping, config)
      ensures (grapplingGunActive || old(state) == Grappling) && old(state) == Jumping ==>
        Snapshot() == old(Snapshot()).(events := old(events) + [GrappleReleased])
      ensures old(state) != Grappling && old(state) != Jumping ==> Snapshot() == old(Snapshot())
    {
      if !grapplingGunActive && state != Grappling {
        return;
      }
      if state == Grappling || state == Jumping {
        events := events + [GrappleReleased];
        if state == Grappling {
          ChangeState(Jumping);
        }
      }
    }

    method GroundCheck(contact: bool)
      modifies this
      ensures Snapshot() == GroundChecked(old(Snapshot()), contact, config)
    {
      onGround := contact && state != Jumping;
      if onGround {
        lastOnGroundTime := config.coyoteTime;
        state := if state == Jumping then Standing else state;
      }
    }

    method UpdateWalk(slopeNormalPerp: Vec2)
      modifies this
      ensures Snapshot() == WalkStep(old(Snapshot()), slopeNormalPerp, config)
    {
      WalkAlong(slopeNormalPerp);
      SettleWalk();
    }

    /** The first half of `UpdateWalk()`. */
    method WalkAlong(slopeNormalPerp: Vec2)
      modifies this
      ensures Snapshot() == WalkMove(old(Snapshot()), slopeNormalPerp, config)
    {
      if state == SlopeWalk {
        velocity := Vec2(config.slopeWalkSpeed * slopeNormalPerp.x * -inputX,
                         config.slopeWalkSpeed * slopeNormalPerp.y * -inputX);
      } else if state == Walking {
        events := events + [Force(WalkForce(Snapshot(), config))];
      }
    }

    /** The second half of `UpdateWalk()`. */
    method SettleWalk()
      modifies this
      ensures Snapshot() == WalkSettle(old(Snapshot()), config)
    {
      if Abs(velocity.x) >= config.minimumWalkSpeed {
        minWalkSpeedReached := true;
      }
      ghost var reached := Snapshot();
      if minWalkSpeedReached {
        if lastOnGroundTime >= 0.0 && Abs(velocity.x) <= config.minimumWalkSpeed && state != Grappling
           && inputX < 1.0 && inputX > -1.0 {
          ChangeState(Standing);
        }
      }
      assert Snapshot() == (
        if reached.minWalkSpeedReached && OnGround(reached) && Abs(reached.velocity.x) <= config.minimumWalkSpeed
           && reached.state != Grappling && reached.inputX < 1.0 && reached.inputX > -1.0
        then Entered(reached, Standing, config) else reached);
      if !(lastOnGroundTime >= 0.0) && velocity.y < 0.0 {
        ChangeState(Falling);
      }
    }

    method UpdateJump()
      modifies this
      ensures Snapshot() == JumpStep(old(Snapshot()), config)
    {
      if velocity.y <= 0.0 {
        ChangeState(Falling);
      }
      if !jumpHeld {
        gravityScale := config.gravityMultiplier * config.jumpGravity;
      }
      events := events + [AirMovement];
    }

    method UpdateFall()
      modifies this
      ensures Snapshot() == FallStep(old(Snapshot()), config)
    {
      if !(lastOnGroundTime >= 0.0) {
        if jumpHeld {
          gravityScale := config.gravityMultiplier * config.fallingGravityJumpHeld;
        } else {
          gravityScale := config.gravityMultiplier * config.fallingGravity;
        }
        velocity := Vec2(velocity.x, Clamp(velocity.y, -config.maximumFallSpeed, 0.0));
        events := events + [AirMovement];
      } else {
        ChangeState(Standing);
        events := events + [LandSound];
      }
    }

    method UpdateKnockback(dt: real)
      requires Valid()
      modifies this
      ensures Snapshot() == KnockbackDecay(old(Snapshot()), dt, config)
    {
      knockbackTimer := knockbackTimer - dt;
      velocity := Vec2(velocity.x / (1.0 + config.knockbackDeceleration), velocity.y);
      if Abs(velocity.x) < config.minKnockbackVelocity {
        ChangeState(Standing);
      }
      if knockbackTimer <= 0.0 {
        ChangeState(Standing);
      }
    }

    /** The walking transitions at the head of `Update()`. */
    method EnterWalking()
      modifies this
      ensures Snapshot() == Prelude(old(Snapshot()), config)
    {
      if inputX != 0.0 && onGround && onSlope && state != SlopeWalk {
        ChangeState(SlopeWalk);
      } else if inputX != 0.0 && onGround && !onSlope && state != Walking && state != MovementType.Knockback {
        if state == Falling {
          events := events + [LandSound];
        }
        ChangeState(Walking);
      }
    }

    /** The state switch of `Update()`. */
    method UpdateState(f: Frame)
      requires Valid()
      modifies this
      ensures Snapshot() == Dispatch(old(Snapshot()), f, config)
    {
      match state {
        case Standing =>
          velocity := Vec2(0.0, velocity.y);
          if !(lastOnGroundTime >= 0.0) {
            ChangeState(Falling);
          }
        case Walking => UpdateWalk(f.slopeNormalPerp);
        case SlopeWalk => UpdateWalk(f.slopeNormalPerp);
        case Jumping => UpdateJump();
        case Falling => UpdateFall();
        case Knockback => UpdateKnockback(f.dt);
        case _ =>
      }
    }

    /** The head of `Update()`: timer, inputs, ground and slope probes. */
    method Probe(f: Frame)
      modifies this
      ensures Snapshot() == Probed(old(Snapshot()), f, config)
    {
      ReadInputs(f);
      GroundCheck(f.groundLeft || f.groundRight);
      onSlope := f.onSlope;
    }

    /** The head of `Update` before the ground check: the body's velocity
        comes from the physics step, the coyote timer runs down and the
        input handler's values are read. */
    method ReadInputs(f: Frame)
      modifies this
      ensures Snapshot() == old(Snapshot()).(velocity := f.bodyVelocity,
        lastOnGroundTime := old(lastOnGroundTime) - f.dt,
        jumpHeld := f.jumpPressed, inputX := f.inputX, inputY := f.inputY)
    {
      velocity := f.bodyVelocity;
      lastOnGroundTime := lastOnGroundTime - f.dt;
      jumpHeld := f.jumpPressed;
      inputX := f.inputX;
      inputY := f.inputY;
    }

    /** `Update()`: one frame of the state machine. */
    method Update(f: Frame)
      requires Valid()
      modifies this
      ensures Snapshot() == Tick(old(Snapshot()), f, config)
    {
      Probe(f);
      EnterWalking();
      UpdateState(f);
    }
  }

  // ----- Properties of the transitions -----

  /** A second knockback while knocked back does not restart the timer:
      only the impulse is added. */
  lemma SecondKnockbackKeepsTimer(m: Motion, impulse: MotionEvent, c: MotionConfig)
    requires m.state == Knockback
    ensures Entered(m.(events := m.events + [impulse]), Knockback, c).knockbackTimer == m.knockbackTimer
  {
  }

  /** Entering Standing clears `minWalkSpeedReached`; entering Knockback arms
      the timer with `maxKnockbackTime`. */
  lemma EntryActions(m: Motion, c: MotionConfig)
    requires m.state != Standing && m.state != Knockback
    ensures !Entered(m, Standing, c).minWalkSpeedReached
    ensures Entered(m, Knockback, c).knockbackTimer == c.maxKnockbackTime
  {
  }

  /** `GroundCheck` never changes the state: the reset of a jumping state to
      standing cannot fire. */
  lemma GroundCheckNeverResetsJump(m: Motion, contact: bool, c: MotionConfig)
    requires m.state == Jumping
    ensures GroundChecked(m, contact, c).state == Jumping
    ensures !GroundChecked(m, contact, c).onGround
  {
  }

  /** Entering a jump from the ground spends the coyote time: after the
      next frame the player is no longer on the ground, so a second jump
      needs a new ground contact, and the player is still jumping exactly
      while the body moves upward, falling otherwise. */
  lemma JumpSpendsCoyoteTime(m: Motion, f: Frame, c: MotionConfig)
    requires ValidConfig(c) && m.state != Jumping && OnGround(m) && f.dt > 0.0
    ensures var r := Tick(Entered(m, Jumping, c), f, c);
      && !OnGround(r) && (r.state == Jumping || r.state == Falling)
      && (r.state == Jumping <==> f.bodyVelocity.y > 0.0)
  {
  }

  /** The prelude: with input on the ground, a slope means slope walking;
      flat ground means walking unless knocked back. */
  lemma PreludeChoice(m: Motion, c: MotionConfig)
    requires m.inputX != 0.0 && m.onGround
    ensures m.onSlope ==> Prelude(m, c).state == SlopeWalk
    ensures !m.onSlope && m.state != Knockback ==> Prelude(m, c).state == Walking
    ensures !m.onSlope && m.state == Knockback ==> Prelude(m, c) == m
  {
  }

  /** Without horizontal input or ground contact the prelude does nothing. */
  lemma PreludeIdle(m: Motion, c: MotionConfig)
    requires m.inputX == 0.0 || !m.onGround
    ensures Prelude(m, c) == m
  {
  }

  /** A jump turns into a fall once the vertical speed is not upward, and not before. */
  lemma JumpToFall(m: Motion, c: MotionConfig)
    requires m.state == Jumping
    ensures (JumpStep(m, c).state == Falling) == (m.velocity.y <= 0.0)
    ensures m.velocity.y > 0.0 ==> JumpStep(m, c).state == Jumping
  {
  }

  /** A fall lands on `OnGround`; in the air the vertical speed ends in
      `[-maximumFallSpeed, 0]` and the state stays falling. */
  lemma FallClampsOrLands(m: Motion, c: MotionConfig)
    requires m.state == Falling && c.maximumFallSpeed >= 0.0
    ensures OnGround(m) ==> FallStep(m, c).state == Standing
    ensures !OnGround(m) ==> (FallStep(m, c).state == Falling
      && -c.maximumFallSpeed <= FallStep(m, c).velocity.y <= 0.0
      && FallStep(m, c).velocity.x == m.velocity.x)
  {
  }

  /** A knockback step shrinks the horizontal speed by the deceleration
      factor and stays knocked back exactly while the speed is at least
      `minKnockbackVelocity` and time is left. */
  lemma KnockbackDecays(m: Motion, dt: real, c: MotionConfig)
    requires ValidConfig(c) && m.state == Knockback
    ensures var r := KnockbackDecay(m, dt, c);
      && r.velocity.x * (1.0 + c.knockbackDeceleration) == m.velocity.x
      && Abs(r.velocity.x) <= Abs(m.velocity.x)
      && (r.state == Knockback <==>
            Abs(m.velocity.x / (1.0 + c.knockbackDeceleration)) >= c.minKnockbackVelocity
            && m.knockbackTimer - dt > 0.0)
      && (r.state != Knockback ==> r.state == Standing)
  {
    var v := m.velocity.x / (1.0 + c.knockbackDeceleration);
    if m.velocity.x >= 0.0 {
      assert 0.0 <= v <= m.velocity.x;
    } else {
      assert m.velocity.x <= v <= 0.0;
    }
  }

  /** `ReleaseGrapplingHook` turns grappling into jumping, and grappling runs
      no movement update. */
  lemma GrapplingHasNoUpdate(m: Motion, f: Frame, c: MotionConfig)
    requires ValidConfig(c) && m.state == Grappling
    ensures Dispatch(m, f, c) == m
    ensures Entered(m, Jumping, c).state == Jumping
  {
  }

  /** The frames of a run. */
  function Run(m: Motion, frames: seq<Frame>, c: MotionConfig): Motion
    requires ValidConfig(c)
    decreases |frames|
  {
    if |frames| == 0 then m else Run(Tick(m, frames[0], c), frames[1..], c)
  }

  /** The time a run of frames takes. */
  function Duration(frames: seq<Frame>): real
    decreases |frames|
  {
    if |frames| == 0 then 0.0 else frames[0].dt + Duration(frames[1..])
  }

  /** Whether the player is still knocked back after every frame of the run. */
  predicate KnockedBackThroughout(m: Motion, frames: seq<Frame>, c: MotionConfig)
    requires ValidConfig(c)
    decreases |frames|
  {
    m.state == Knockback &&
    (|frames| == 0 || KnockedBackThroughout(Tick(m, frames[0], c), frames[1..], c))
  }

  /** Helper: the prelude and the ground check keep a knockback and its timer. */
  lemma TickKeepsTimerUntilDispatch(m: Motion, f: Frame, c: MotionConfig)
    requires ValidConfig(c) && m.state == Knockback
    ensures Tick(m, f, c).state == Knockback ==>
      Tick(m, f, c).knockbackTimer == m.knockbackTimer - f.dt && m.knockbackTimer - f.dt > 0.0
  {
    var m1 := m.(velocity := f.bodyVelocity, lastOnGroundTime := m.lastOnGroundTime - f.dt,
                 jumpHeld := f.jumpPressed, inputX := f.inputX, inputY := f.inputY);
    var m2 := GroundChecked(m1, f.groundLeft || f.groundRight, c);
    var m3 := m2.(onSlope := f.onSlope);
    var p := Prelude(m3, c);
    assert p.state == Knockback || p.state == SlopeWalk;
    if p.state == Knockback {
      assert p == m3;
      KnockbackDecays(p, f.dt, c);
    } else {
      assert Tick(m, f, c) == Dispatch(p, f, c);
      assert Dispatch(p, f, c) == WalkStep(p, f.slopeNormalPerp, c);
    }
  }

  /** The knockback timer counts every frame down: staying knocked back
      through a run means the run took less than the timer had left, so
      after `maxKnockbackTime` of frames the knockback is over. */
  lemma {:induction false} KnockbackTimesOut(m: Motion, frames: seq<Frame>, c: MotionConfig)
    requires ValidConfig(c)
    requires KnockedBackThroughout(m, frames, c)
    ensures Run(m, frames, c).knockbackTimer == m.knockbackTimer - Duration(frames)
    ensures |frames| > 0 ==> Duration(frames) < m.knockbackTimer
    decreases |frames|
  {
    if |frames| > 0 {
      var m1 := Tick(m, frames[0], c);
      TickKeepsTimerUntilDispatch(m, frames[0], c);
      KnockbackTimesOut(m1, frames[1..], c);
    }
  }
}
