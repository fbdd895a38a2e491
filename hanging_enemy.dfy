/** The hanging enemy: crawls along the ceiling, launches when the player is
    below it, lands and runs along the floor, and falls when dead. Each
    state assignment runs an entry action. Probe results and positions come
    in with each frame. */
module HangingEnemies {
  import opened Vectors
  import opened EnemyBase
  import opened EnemyHealth

  datatype EnemyState = Crawling | Launching | Dropping | Falling | Running | Dead

  /** The serialized speeds. */
  datatype HangConfig = HangConfig(crawlSpeed: real, runSpeed: real, dropSpeed: real)

  /** One frame's probes: the floor box, positions, the two wall boxes, the
      ceiling rays above left and right, the ledge rays below left and right,
      and the vision box cast below the enemy. */
  datatype HangView = HangView(
    dt: real, floor: Overlap, position: Vec2, playerPosition: Vec2,
    wallLeft: bool, wallRight: bool,
    tileAboveLeft: bool, tileAboveRight: bool,
    tileBelowLeft: bool, tileBelowRight: bool,
    playerBelow: bool)

  datatype Hanger = Hanger(body: Body, state: EnemyState)

  /** The `State` setter: the state is assigned and its entry action runs. */
  function Enter(h: Hanger, s: EnemyState, v: HangView, c: HangConfig): (r: Hanger)
    ensures r.state == s
  {
    var b := h.body;
    match s
    case Crawling =>
      Hanger(b.(gravityScale := 0.0, flipY := true, events := b.events + [WalkTrigger]), s)
    case Launching =>
      Hanger(b.(velocity := Zero, events := b.events + [JumpTrigger, AttackSound]), s)
    case Falling =>
      Hanger(b.(velocity := Zero, gravityScale := c.dropSpeed, events := b.events + [FallTrigger]), s)
    case Dropping =>
      Hanger(b.(gravityScale := c.dropSpeed, events := b.events + [DroppedOffCeiling]), s)
    case Running =>
      var b1 := b.(flipY := false, gravityScale := 1.0, events := b.events + [LandedUpright]);
      var b2 :=
        if v.playerPosition.x > v.position.x then b1.(moveDirection := Right, flipX := false)
        else if v.playerPosition.x < v.position.x then b1.(moveDirection := Left, flipX := true)
        else b1;
      Hanger(b2.(events := b2.events + [RunTrigger]), s)
    case Dead =>
      var b1 := b.(flipY := false);
      var b2 := if !OnFloor(v.floor) then b1.(velocity := Zero) else b1;
      Hanger(b2.(gravityScale := c.dropSpeed), s)
  }

  /** The turn of a patrol along a ceiling or a floor: a left walker turns
      right at a wall or a missing tile on its left, a right walker turns
      left likewise; any other direction is kept. */
  function Turned(b: Body, wallLeft: bool, wallRight: bool, tileLeft: bool, tileRight: bool): Body
  {
    if b.moveDirection == Left then
      if NextToWall(Left, wallLeft, wallRight) || !tileLeft then b.(moveDirection := Right, flipX := false) else b
    else if b.moveDirection == Right then
      if NextToWall(Right, wallLeft, wallRight) || !tileRight then b.(moveDirection := Left, flipX := true) else b
    else b
  }

  /** `CrawlCeiling()`: crawl, turn at walls and ceiling edges, and launch at
      a player below. */
  function Crawl(h: Hanger, v: HangView, c: HangConfig): Hanger
  {
    var b := h.body.(velocity := h.body.moveDirection.Scale(c.crawlSpeed));
    var h1 := h.(body := Turned(b, v.wallLeft, v.wallRight, v.tileAboveLeft, v.tileAboveRight));
    if v.playerBelow then Enter(h1, Launching, v, c) else h1
  }

  /** `RunAcrossFloor()`: run, turning at walls and ledges. */
  function Run(h: Hanger, v: HangView, c: HangConfig): Hanger
  {
    var b := h.body.(velocity := h.body.moveDirection.Scale(c.runSpeed));
    h.(body := Turned(b, v.wallLeft, v.wallRight, v.tileBelowLeft, v.tileBelowRight))
  }

  /** The base update and the state switch of `Update`: only crawling and
      running have a behaviour. */
  function Behaved(h: Hanger, v: HangView, c: HangConfig, knockBackTime: real, alive: bool): Hanger
  {
    var h1 := h.(body := BaseUpdate(h.body, v.dt, knockBackTime, alive, OnFloor(v.floor)));
    match h1.state
    case Crawling => Crawl(h1, v, c)
    case Running => Run(h1, v, c)
    case _ => h1
  }

  /** One hanging-enemy `Update`: the behaviour runs first, then a dead
      controller puts a living state into Dead. */
  function HangTick(h: Hanger, v: HangView, c: HangConfig, knockBackTime: real, alive: bool): Hanger
  {
    var h1 := Behaved(h, v, c, knockBackTime, alive);
    if !alive && h1.state != Dead then Enter(h1, Dead, v, c) else h1
  }

  /** `DropFromCeiling()`: only a crawler lets go, and it falls. */
  function Dropped(h: Hanger, v: HangView, c: HangConfig): Hanger
  {
    if h.state == Crawling then Enter(h, Falling, v, c) else h
  }

  /** `OnCollisionEnter2D`: reaching the ground (layer 3) while dropping or
      falling starts the run; a dead enemy reaching it comes to rest without
      a collider. */
  function Collide(h: Hanger, layer: int, v: HangView, c: HangConfig): Hanger
  {
    if layer == 3 then
      if h.state == Dropping || h.state == Falling then Enter(h, Running, v, c)
      else if h.state == Dead then
        h.(body := h.body.(colliderEnabled := false, velocity := Zero, isStatic := true, flipY := false))
      else h
    else h
  }

  class HangingEnemy {
    const movement: EnemyMovement
    const controller: EnemyController
    const config: HangConfig
    var state: EnemyState

    function Snapshot(): Hanger
      reads this, movement
    {
      Hanger(movement.body, state)
    }

    /** The component before `Start`: the enum's default, Crawling, without
        its entry action. */
    constructor (movement: EnemyMovement, controller: EnemyController, config: HangConfig)
      ensures this.movement == movement && this.controller == controller && this.config == config
      ensures state == Crawling
    {
      this.movement := movement;
      this.controller := controller;
      this.config := config;
      state := Crawling;
    }

    /** The `State` setter. */
    method SetState(s: EnemyState, v: HangView)
      modifies this, movement
      ensures Snapshot() == Enter(old(Snapshot()), s, v, config)
    {
      state := s;
      match s {
        case Crawling =>
          movement.body := movement.body.(gravityScale := 0.0, flipY := true,
                                          events := movement.body.events + [WalkTrigger]);
        case Launching =>
          movement.StopMoving();
          movement.body := movement.body.(events := movement.body.events + [JumpTrigger, AttackSound]);
        case Falling =>
          movement.body := movement.body.(velocity := Zero, gravityScale := config.dropSpeed,
                                          events := movement.body.events + [FallTrigger]);
        case Dropping =>
          movement.body := movement.body.(events := movement.body.events + [DroppedOffCeiling]);
          movement.body := movement.body.(gravityScale := config.dropSpeed);
        case Running =>
          movement.body := movement.body.(events := movement.body.events + [LandedUpright]);
          movement.body := movement.body.(flipY := false, gravityScale := 1.0);
          if v.playerPosition.x > v.position.x {
            movement.body := movement.body.(moveDirection := Right, flipX := false);
          } else if v.playerPosition.x < v.position.x {
            movement.body := movement.body.(moveDirection := Left, flipX := true);
          }
          movement.body := movement.body.(events := movement.body.events + [RunTrigger]);
        case Dead =>
          movement.body := movement.body.(flipY := false);
          if !OnFloor(v.floor) {
            movement.body := movement.body.(velocity := Zero);
          }
          movement.body := movement.body.(gravityScale := config.dropSpeed);
      }
    }

    /** `Start`: the base start, then crawling. */
    method Start(flipX: bool, v: HangView)
      modifies this, movement
      ensures Snapshot() == Enter(Hanger(old(movement.body).(flipX := flipX, moveDirection := if flipX then Left else Right),
                                         old(state)), Crawling, v, config)
    {
      movement.Start(flipX);
      SetState(Crawling, v);
    }

    method CrawlCeiling(v: HangView)
      modifies this, movement
      ensures Snapshot() == Crawl(old(Snapshot()), v, config)
    {
      movement.body := movement.body.(velocity := movement.body.moveDirection.Scale(config.crawlSpeed));
      Turn(v.wallLeft, v.wallRight, v.tileAboveLeft, v.tileAboveRight);
      if v.playerBelow {
        SetState(Launching, v);
      }
    }

    method RunAcrossFloor(v: HangView)
      modifies movement
      ensures movement.body == Run(old(Snapshot()), v, config).body
    {
      movement.body := movement.body.(velocity := movement.body.moveDirection.Scale(config.runSpeed));
      Turn(v.wallLeft, v.wallRight, v.tileBelowLeft, v.tileBelowRight);
    }

    /** The turning code shared by `CrawlCeiling` and `RunAcrossFloor`. */
    method Turn(wallLeft: bool, wallRight: bool, tileLeft: bool, tileRight: bool)
      modifies movement
      ensures movement.body == Turned(old(movement.body), wallLeft, wallRight, tileLeft, tileRight)
    {
      if movement.body.moveDirection == Left {
        if NextToWall(Left, wallLeft, wallRight) || !tileLeft {
          movement.body := movement.body.(moveDirection := Right, flipX := false);
        }
      } else if movement.body.moveDirection == Right {
        if NextToWall(Right, wallLeft, wallRight) || !tileRight {
          movement.body := movement.body.(moveDirection := Left, flipX := true);
        }
      }
    }

    method Behave(v: HangView)
      modifies this, movement
      ensures Snapshot() == Behaved(old(Snapshot()), v, config, movement.knockBackTime, controller.alive)
    {
      movement.Update(v.dt, controller.alive, v.floor);
      match state {
        case Crawling => CrawlCeiling(v);
        case Dropping =>
        case Falling =>
        case Running => RunAcrossFloor(v);
        case Dead =>
        case Launching =>
      }
    }

    /** `Update()`. */
    method Update(v: HangView)
      modifies this, movement
      ensures Snapshot() == HangTick(old(Snapshot()), v, config, movement.knockBackTime, controller.alive)
    {
      Behave(v);
      if !controller.alive && state != Dead {
        SetState(Dead, v);
      }
    }

    /** `DropFromCeiling()`, with the probes at the time of the call. */
    method DropFromCeiling(v: HangView)
      modifies this, movement
      ensures Snapshot() == Dropped(old(Snapshot()), v, config)
    {
      if state == Crawling {
        SetState(Falling, v);
      }
    }

    /** `OnCollisionEnter2D`, with the layer of the collider hit. */
    method OnCollisionEnter2D(layer: int, v: HangView)
      modifies this, movement
      ensures Snapshot() == Collide(old(Snapshot()), layer, v, config)
    {
      if layer == 3 {
        if state == Dropping || state == Falling {
          SetState(Running, v);
        } else if state == Dead {
          movement.body := movement.body.(colliderEnabled := false);
          movement.StopMoving();
          movement.body := movement.body.(isStatic := true, flipY := false);
        }
      }
    }
  }

  // ----- Properties of the machine -----

  /** `Start` leaves the enemy crawling with gravity off. */
  lemma StartCrawls(h: Hanger, v: HangView, c: HangConfig)
    ensures Enter(h, Crawling, v, c).state == Crawling
    ensures Enter(h, Crawling, v, c).body.gravityScale == 0.0
    ensures Enter(h, Crawling, v, c).body.flipY
  {
  }

  /** A crawler turns exactly at a wall or a missing ceiling tile ahead, and
      launches exactly when the player is below; launching stops it. */
  lemma CrawlTurnsAndLaunches(h: Hanger, v: HangView, c: HangConfig)
    requires h.state == Crawling && Horizontal(h.body.moveDirection)
    ensures var r := Crawl(h, v, c);
      var ahead := if h.body.moveDirection == Left then v.wallLeft || !v.tileAboveLeft
                   else v.wallRight || !v.tileAboveRight;
      && r.body.moveDirection == (if ahead then h.body.moveDirection.Neg() else h.body.moveDirection)
      && (r.state == Launching <==> v.playerBelow)
      && (!v.playerBelow ==> r.state == Crawling)
      && (v.playerBelow ==> r.body.velocity == Zero)
  {
  }

  /** A runner turns exactly at a wall or a ledge ahead, and keeps running. */
  lemma RunTurnsAtWallOrLedge(h: Hanger, v: HangView, c: HangConfig)
    requires Horizontal(h.body.moveDirection)
    ensures var r := Run(h, v, c);
      var ahead := if h.body.moveDirection == Left then v.wallLeft || !v.tileBelowLeft
                   else v.wallRight || !v.tileBelowRight;
      && r.body.moveDirection == (if ahead then h.body.moveDirection.Neg() else h.body.moveDirection)
      && r.state == h.state
      && r.body.velocity == h.body.moveDirection.Scale(c.runSpeed)
  {
  }

  /** `DropFromCeiling` acts only on a crawler, which starts falling. */
  lemma DropOnlyFromCrawling(h: Hanger, v: HangView, c: HangConfig)
    ensures h.state == Crawling ==>
      Dropped(h, v, c).state == Falling && Dropped(h, v, c).body.gravityScale == c.dropSpeed
    ensures h.state != Crawling ==> Dropped(h, v, c) == h
  {
  }

  /** Landing while dropping or falling starts the run; a dead enemy landing
      comes to rest; nothing else reacts to the ground, and nothing at all to
      other layers. */
  lemma GroundCollision(h: Hanger, layer: int, v: HangView, c: HangConfig)
    ensures layer == 3 && (h.state == Dropping || h.state == Falling) ==> Collide(h, layer, v, c).state == Running
    ensures layer == 3 && h.state == Dead ==>
      var r := Collide(h, layer, v, c);
      r.state == Dead && r.body.isStatic && !r.body.colliderEnabled && r.body.velocity == Zero
    ensures layer != 3 || h.state in {Crawling, Launching, Running} ==> Collide(h, layer, v, c) == h
  {
  }

  /** Entering Running faces the player's side, or keeps the direction when
      level with it, and keeps a horizontal direction horizontal. */
  lemma RunningEntryFacesPlayer(h: Hanger, v: HangView, c: HangConfig)
    requires Horizontal(h.body.moveDirection)
    ensures var r := Enter(h, Running, v, c);
      && Horizontal(r.body.moveDirection)
      && (v.playerPosition.x != v.position.x ==> r.body.moveDirection.Dot(v.playerPosition.Minus(v.position)) > 0.0)
      && (v.playerPosition.x == v.position.x ==> r.body.moveDirection == h.body.moveDirection)
      && r.body.gravityScale == 1.0
  {
  }

  /** Entering Dead always sets the drop gravity, but stops the body only
      when it is off the floor. */
  lemma DeadEntry(h: Hanger, v: HangView, c: HangConfig)
    ensures Enter(h, Dead, v, c).body.gravityScale == c.dropSpeed
    ensures !OnFloor(v.floor) ==> Enter(h, Dead, v, c).body.velocity == Zero
    ensures OnFloor(v.floor) ==> Enter(h, Dead, v, c).body.velocity == h.body.velocity
  {
  }

  /** Death is checked after the behaviour: a crawler that dies still turns
      in that frame before entering Dead. */
  lemma DeathCheckedAfterBehaviour(h: Hanger, v: HangView, c: HangConfig, knockBackTime: real)
    requires h.state == Crawling && h.body.moveDirection == Left
    requires v.wallLeft && !v.playerBelow
    ensures HangTick(h, v, c, knockBackTime, false).state == Dead
    ensures HangTick(h, v, c, knockBackTime, false).body.moveDirection == Right
  {
  }

  /** What happens to a hanging enemy. */
  datatype Happening = Frame(view: HangView, alive: bool) | Collision(layer: int, at: HangView) | Drop(at: HangView)

  function Step(h: Hanger, e: Happening, c: HangConfig, knockBackTime: real): Hanger
  {
    match e
    case Frame(v, alive) => HangTick(h, v, c, knockBackTime, alive)
    case Collision(layer, v) => Collide(h, layer, v, c)
    case Drop(v) => Dropped(h, v, c)
  }

  function HangRun(h: Hanger, es: seq<Happening>, c: HangConfig, knockBackTime: real): Hanger
    decreases |es|
  {
    if |es| == 0 then h else HangRun(Step(h, es[0], c, knockBackTime), es[1..], c, knockBackTime)
  }

  /** Nothing leaves Dead. */
  lemma {:induction false} DeadForever(h: Hanger, es: seq<Happening>, c: HangConfig, knockBackTime: real)
    requires h.state == Dead
    ensures HangRun(h, es, c, knockBackTime).state == Dead
    decreases |es|
  {
    if |es| > 0 {
      DeadForever(Step(h, es[0], c, knockBackTime), es[1..], c, knockBackTime);
    }
  }

  /** A quirk of the script: Launching has no behaviour and no transition
      but death. `DropFromCeiling` acts only on a crawler and the ground
      collision only on a dropping or falling enemy, so nothing in the
      scripts moves a launched enemy on; whatever happens, it stays
      launching or dead. */
  lemma {:induction false} LaunchingOnlyEndsInDeath(h: Hanger, es: seq<Happening>, c: HangConfig, knockBackTime: real)
    requires h.state in {Launching, Dead}
    ensures HangRun(h, es, c, knockBackTime).state in {Launching, Dead}
    decreases |es|
  {
    if |es| > 0 {
      var h1 := Step(h, es[0], c, knockBackTime);
      assert h1.state in {Launching, Dead};
      LaunchingOnlyEndsInDeath(h1, es[1..], c, knockBackTime);
    }
  }
}
