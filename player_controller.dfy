/** The player's controller: health with its clamp at zero and death, the
    restore and upgrade operations on health, ammunition and grenades, the
    item selection that walks the item cycle and hands the chosen item to
    the input handler and the gun, and the contact handlers whose damage is
    held back by a cooldown timer. The collision's layer, tag and relative
    position are inputs; the HUD, animator, sounds and the cursor are
    logged or left out. */
module Players {
  import opened CSharpInt
  import opened Vectors
  import opened ItemTypes
  import Guns
  import Grenades
  import Input
  import Locomotion
  import Session

  /** HUD updates, sounds, animator changes and scene effects of the controller. */
  datatype PlayerEvent =
    | HealthDisplay(health: Int32, maxHealth: Int32)
    | HudItem(item: ItemType)
    | AmmoVisible(visible: bool)
    | MaskOn
    | DamageFlash
    | DamagedSound
    | DeathEffects   // death sound, "death" trigger, player-enemy collisions ignored
    | ItemDestroyed
    | BoxOpened

  /** The controller's own fields. */
  datatype PlayerState = PlayerState(
    health: Int32,
    maxHealth: Int32,
    totalAmmo: UInt32,
    maxGunAmmo: UInt32,
    itemSelected: ItemType,
    abilities: Abilities,
    wearingMask: bool,
    isAlive: bool,
    damageTimer: real,
    pollutedTimer: real,
    enabled: bool,
    movementEnabled: bool,
    grenadesEnabled: bool,
    events: seq<PlayerEvent>)

  /** The health after `TakeDamage(amount)`: `health -= (int)amount` in
      unchecked `int` arithmetic, then raised to zero if it went below. */
  function Hurt(health: Int32, amount: UInt32): (r: Int32)
    ensures r >= 0
    ensures INT_MIN <= health - AsInt(amount) <= INT_MAX ==>
      r == if health - AsInt(amount) < 0 then 0 else health - AsInt(amount)
    ensures health - AsInt(amount) > INT_MAX ==> r == 0
  {
    var h := WrapInt32(health - AsInt(amount));
    if h < 0 then 0 else h
  }

  /** The health after `RestoreHealth(amount)`: `health += (int)amount`, unchecked. */
  function Healed(health: Int32, amount: UInt32): (r: Int32)
    ensures INT_MIN <= health + AsInt(amount) <= INT_MAX ==> r == health + AsInt(amount)
  {
    WrapInt32(health + AsInt(amount))
  }

  /** `TakeDamage(amount)` on the controller's fields: health becomes
      `Hurt`'s; a hit that leaves zero kills the player and disables the
      movement component and this one; the damage flash, the heart bar and
      the death effects or the damage sound are logged. */
  function Damaged(s: PlayerState, amount: UInt32): PlayerState
  {
    var h := Hurt(s.health, amount);
    s.(health := h, isAlive := s.isAlive && h > 0,
       movementEnabled := s.movementEnabled && h > 0, enabled := s.enabled && h > 0,
       events := s.events + [DamageFlash, HealthDisplay(h, s.maxHealth), if h == 0 then DeathEffects else DamagedSound])
  }

  /** The movement component after its `enabled` flag is set from `was` to
      `on`: the engine runs `OnEnable` or `OnDisable` only on a change. */
  function MovementToggled(m: Locomotion.Motion, was: bool, on: bool, c: Locomotion.MotionConfig): Locomotion.Motion
  {
    if on == was then m else if on then Locomotion.Reenabled(m, c) else Locomotion.Halted(m)
  }

  /** The movement component after `TakeDamage(amount)` from state `s`. */
  function MotionAfterHit(m: Locomotion.Motion, s: PlayerState, amount: UInt32, c: Locomotion.MotionConfig): Locomotion.Motion
  {
    if Hurt(s.health, amount) == 0 then MovementToggled(m, s.movementEnabled, false, c) else m
  }

  /** The input handler after `TakeDamage(amount)` from state `s`. */
  function InputAfterHit(h: Input.HandlerState, s: PlayerState, amount: UInt32): Input.HandlerState
  {
    if Hurt(s.health, amount) == 0 then Input.WithEnabled(h, false) else h
  }

  /** An enemy contact (layer 7) under the cooldown: refused while the timer
      runs; otherwise the timer is re-armed to `delay` and the enemy's
      damage is taken. */
  function Contacted(s: PlayerState, delay: real, amount: UInt32): PlayerState
  {
    if s.damageTimer <= 0.0 then Damaged(s.(damageTimer := delay), amount) else s
  }

  /** The movement component after an enemy contact: knocked back away from
      the enemy when the contact knocks back, then disabled if the hit kills. */
  function ContactMotion(m: Locomotion.Motion, s: PlayerState, amount: UInt32, knockback: bool,
                         playerRightOfEnemy: bool, c: Locomotion.MotionConfig): Locomotion.Motion
  {
    if s.damageTimer > 0.0 then m
    else MotionAfterHit(if knockback then Locomotion.KnockedBack(m, AwayFromEnemy(playerRightOfEnemy), c) else m, s, amount, c)
  }

  /** The input handler after an enemy contact. */
  function ContactInput(h: Input.HandlerState, s: PlayerState, amount: UInt32): Input.HandlerState
  {
    if s.damageTimer > 0.0 then h else InputAfterHit(h, s, amount)
  }

  /** Whether a fixed step in a polluted zone hurts: not masked, alive, and
      the pollution timer runs out on this step. */
  predicate PollutionHits(s: PlayerState, dt: real)
  {
    !s.wearingMask && s.isAlive && s.pollutedTimer - dt <= 0.0
  }

  /** A fixed step in a polluted zone (layer 11): a masked or dead player is
      left alone; otherwise the pollution timer counts down and, when it
      runs out, is re-armed to `timePerImpact` and the impact's damage is
      taken. */
  function Polluted(s: PlayerState, dt: real, timePerImpact: real, damagePerImpact: UInt32): PlayerState
  {
    if s.wearingMask || !s.isAlive then s
    else if s.pollutedTimer - dt <= 0.0 then Damaged(s.(pollutedTimer := timePerImpact), damagePerImpact)
    else s.(pollutedTimer := s.pollutedTimer - dt)
  }

  /** `OnCollisionEnter2D` on the controller's fields: an enemy contact, or
      an item destroyed. */
  function CollisionEntered(s: PlayerState, layer: int, delay: real, amount: UInt32): PlayerState
  {
    if layer == 7 then Contacted(s, delay, amount)
    else if layer == 8 then s.(events := s.events + [ItemDestroyed])
    else s
  }

  /** `OnTriggerEnter2D` on the controller's fields: a projectile (layer 9)
      hurts with no cooldown, an item box (layer 8) opens and disables
      movement, and the finish disables movement and this component. */
  function TriggerEntered(s: PlayerState, layer: int, finish: bool, amount: UInt32): PlayerState
  {
    var s1 :=
      if layer == 9 then Damaged(s, amount)
      else if layer == 8 then s.(movementEnabled := false, events := s.events + [BoxOpened])
      else s;
    if finish then s1.(movementEnabled := false, enabled := false) else s1
  }

  /** The movement component after `OnTriggerEnter2D`. */
  function TriggerMotion(m: Locomotion.Motion, s: PlayerState, layer: int, finish: bool, amount: UInt32,
                         c: Locomotion.MotionConfig): Locomotion.Motion
  {
    var m1 :=
      if layer == 9 then MotionAfterHit(m, s, amount, c)
      else if layer == 8 then MovementToggled(Locomotion.Stopped(m, c), s.movementEnabled, false, c)
      else m;
    if finish then MovementToggled(m1, TriggerEntered(s, layer, false, amount).movementEnabled, false, c) else m1
  }

  /** The input handler after `OnTriggerEnter2D`. */
  function TriggerInput(h: Input.HandlerState, s: PlayerState, layer: int, finish: bool, amount: UInt32): Input.HandlerState
  {
    var h1 := if layer == 9 then InputAfterHit(h, s, amount) else h;
    if finish then Input.WithEnabled(h1, false) else h1
  }

  /** `OnTriggerStay2D` on the controller's fields: an enemy contact, or a
      step in a polluted zone. */
  function TriggerStayed(s: PlayerState, layer: int, delay: real, amount: UInt32,
                         dt: real, timePerImpact: real, damagePerImpact: UInt32): PlayerState
  {
    if layer == 7 then Contacted(s, delay, amount)
    else if layer == 11 then Polluted(s, dt, timePerImpact, damagePerImpact)
    else s
  }

  /** `UpdateTimers` on the cooldown timer: a running timer counts down, a
      negative one is reset to zero. */
  function Cooled(damageTimer: real, dt: real): real
  {
    if damageTimer > 0.0 then damageTimer - dt
    else if damageTimer < 0.0 then 0.0
    else damageTimer
  }

  /** The direction of the knockback a contact gives: away from the enemy. */
  function AwayFromEnemy(playerRightOfEnemy: bool): Vec2
  {
    if playerRightOfEnemy then Right else Left
  }

  class PlayerController {
    const delayBetweenDamage: real
    const startingAmmo: UInt32
    const gun: Guns.GunController
    const grenades: Grenades.GrenadeController
    const input: Input.InputHandler
    const movement: Locomotion.PlayerMovement
    const game: Session.GameManager
    var health: Int32
    var maxHealth: Int32
    var totalAmmo: UInt32
    var maxGunAmmo: UInt32
    var itemSelected: ItemType
    var abilities: Abilities
    var wearingMask: bool
    var isAlive: bool
    var damageTimer: real
    var pollutedTimer: real
    /** Whether this component, the movement component and the grenade
        controller are enabled. */
    var enabled: bool
    var movementEnabled: bool
    var grenadesEnabled: bool
    var events: seq<PlayerEvent>

    function Snapshot(): PlayerState
      reads this
    {
      PlayerState(health, maxHealth, totalAmmo, maxGunAmmo, itemSelected, abilities, wearingMask,
                  isAlive, damageTimer, pollutedTimer, enabled, movementEnabled, grenadesEnabled, events)
    }

    /** The gun's magazine is within capacity and the thrown-grenade list has no repeats. */
    predicate Valid()
      reads this, gun, grenades
    {
      gun.Valid() && grenades.Valid()
    }

    /** The component as its field initialisers and the inspector leave it,
        with the serialized weapon unlocks. */
    constructor (maxHealth: Int32, startingAmmo: UInt32, maxGunAmmo: UInt32, delayBetweenDamage: real,
                 abilities: Abilities, wearingMask: bool, gun: Guns.GunController, grenades: Grenades.GrenadeController,
                 input: Input.InputHandler, movement: Locomotion.PlayerMovement, game: Session.GameManager)
      ensures this.maxHealth == maxHealth && this.startingAmmo == startingAmmo && this.maxGunAmmo == maxGunAmmo
      ensures this.delayBetweenDamage == delayBetweenDamage && this.wearingMask == wearingMask
      ensures this.gun == gun && this.grenades == grenades && this.input == input
      ensures this.movement == movement && this.game == game
      ensures health == 0 && totalAmmo == 0 && itemSelected == None
      ensures this.abilities == abilities
      ensures isAlive && damageTimer == 0.0 && pollutedTimer == 0.0
      ensures enabled && movementEnabled && grenadesEnabled && events == []
    {
      this.maxHealth := maxHealth;
      this.startingAmmo := startingAmmo;
      this.maxGunAmmo := maxGunAmmo;
      this.delayBetweenDamage := delayBetweenDamage;
      this.wearingMask := wearingMask;
      this.gun := gun;
      this.grenades := grenades;
      this.input := input;
      this.movement := movement;
      this.game := game;
      health := 0;
      totalAmmo := 0;
      itemSelected := None;
      this.abilities := abilities;
      isAlive := true;
      damageTimer := 0.0;
      pollutedTimer := 0.0;
      enabled := true;
      movementEnabled := true;
      grenadesEnabled := true;
      events := [];
    }

    /** `Start`: full health, the starting ammunition, no item selected. */
    method Start()
      modifies this
      ensures Snapshot() == old(Snapshot()).(health := maxHealth, totalAmmo := startingAmmo, itemSelected := None,
        events := old(events) + [HudItem(None)] + (if wearingMask then [MaskOn] else []))
    {
      health := maxHealth;
      totalAmmo := startingAmmo;
      itemSelected := None;
      events := events + [HudItem(None)];
      if wearingMask {
        PutOnMask();
      }
    }

    /** Setting `playerMovement.enabled`: the engine runs the component's
        `OnEnable` or `OnDisable` when the flag actually changes. */
    method SetMovementEnabled(on: bool)
      modifies this, movement
      ensures Snapshot() == old(Snapshot()).(movementEnabled := on)
      ensures movement.Snapshot() == MovementToggled(old(movement.Snapshot()), old(movementEnabled), on, movement.config)
    {
      if on && !movementEnabled {
        movement.OnEnable();
      } else if !on && movementEnabled {
        movement.OnDisable();
      }
      movementEnabled := on;
    }

    /** `TakeDamage(amount)`: health drops and is clamped at zero; at zero
        the player dies, which disables input, movement and this component
        and is never undone. */
    method TakeDamage(amount: UInt32)
      modifies this, input, movement
      ensures Snapshot() == Damaged(old(Snapshot()), amount)
      ensures movement.Snapshot() == MotionAfterHit(old(movement.Snapshot()), old(Snapshot()), amount, movement.config)
      ensures input.Snapshot() == InputAfterHit(old(input.Snapshot()), old(Snapshot()), amount)
    {
      var h := Hurt(health, amount);
      if h == 0 {
        DisableScripts();
        isAlive := false;
      }
      health := h;
      events := events + [DamageFlash, HealthDisplay(h, maxHealth), if h == 0 then DeathEffects else DamagedSound];
    }

    /** Disabling the input handler, the movement component and this
        component, as death and the finish line do. */
    method DisableScripts()
      modifies this, input, movement
      ensures Snapshot() == old(Snapshot()).(movementEnabled := false, enabled := false)
      ensures movement.Snapshot() == MovementToggled(old(movement.Snapshot()), old(movementEnabled), false, movement.config)
      ensures input.Snapshot() == Input.WithEnabled(old(input.Snapshot()), false)
    {
      input.SetEnabled(false);
      SetMovementEnabled(false);
      enabled := false;
    }

    /** `Die()`: the end sequence starts with the game lost. */
    method Die()
      modifies game
      ensures game.Snapshot() == Session.EndSequenceStarted(old(game.Snapshot()), false)
    {
      game.StartEndSequence(false);
    }

    /** `RestoreHealth()`: health back to the maximum. */
    method RestoreHealth()
      modifies this
      ensures Snapshot() == old(Snapshot()).(health := maxHealth,
        events := old(events) + [HealthDisplay(maxHealth, maxHealth)])
    {
      health := maxHealth;
      events := events + [HealthDisplay(health, maxHealth)];
    }

    /** `RestoreHealth(amount)`: `amount` more health, with no cap at the maximum. */
    method RestoreHealthBy(amount: UInt32)
      modifies this
      ensures Snapshot() == old(Snapshot()).(health := Healed(old(health), amount),
        events := old(events) + [HealthDisplay(Healed(old(health), amount), maxHealth)])
    {
      health := WrapInt32(health + AsInt(amount));
      events := events + [HealthDisplay(health, maxHealth)];
    }

    /** `IncreaseMaxHealth(amount, restoreToMax)`. */
    method IncreaseMaxHealth(amount: UInt32, restoreToMax: bool)
      modifies this
      ensures maxHealth == WrapInt32(old(maxHealth) + AsInt(amount))
      ensures health == if restoreToMax then maxHealth else old(health)
      ensures Snapshot() == old(Snapshot()).(maxHealth := maxHealth, health := health,
        events := old(events) + if restoreToMax then [HealthDisplay(maxHealth, maxHealth)] else [])
    {
      maxHealth := WrapInt32(maxHealth + AsInt(amount));
      if restoreToMax {
        RestoreHealth();
      }
    }

    /** `RestoreAmmoAndGrenades()`: the reserve and the grenade stock are refilled. */
    method RestoreAmmoAndGrenades()
      modifies this, grenades
      ensures Snapshot() == old(Snapshot()).(totalAmmo := maxGunAmmo)
      ensures grenades.grenadesLeft == grenades.maximumGrenades
      ensures grenades.maximumGrenades == old(grenades.maximumGrenades)
      ensures grenades.thrownGrenades == old(grenades.thrownGrenades)
      ensures grenades.events == old(grenades.events) + [Grenades.GrenadeTotalText(grenades.maximumGrenades)]
    {
      totalAmmo := maxGunAmmo;
      grenades.RestoreGrenades();
    }

    /** `RestoreAmmo(amount)`: `amount` more in reserve, with no cap at
        `maxGunAmmo`, then a reload. */
    method RestoreAmmoBy(amount: UInt32)
      requires Valid()
      modifies this, gun
      ensures Valid()
      ensures (gun.magazineAmmo, totalAmmo)
        == Guns.Reloaded(old(gun.magazineAmmo), WrapUInt32(old(totalAmmo) + amount), gun.maxAmmoInMagazine)
      ensures Snapshot() == old(Snapshot()).(totalAmmo := totalAmmo)
    {
      totalAmmo := WrapUInt32(totalAmmo + amount);
      totalAmmo := gun.ReloadGun(totalAmmo);
    }

    /** `RestoreAmmo()`: the reserve set to `maxGunAmmo`, the magazine
        emptied, then a reload. */
    method RestoreAmmo()
      requires Valid()
      modifies this, gun
      ensures Valid()
      ensures (gun.magazineAmmo, totalAmmo) == Guns.Reloaded(0, maxGunAmmo, gun.maxAmmoInMagazine)
      ensures Snapshot() == old(Snapshot()).(totalAmmo := totalAmmo)
    {
      totalAmmo := maxGunAmmo;
      gun.EmptyMagazine();
      totalAmmo := gun.ReloadGun(totalAmmo);
    }

    /** `IncreaseMaxAmmo(amount, restoreToMax)`. */
    method IncreaseMaxAmmo(amount: UInt32, restoreToMax: bool)
      requires Valid()
      modifies this, gun
      ensures Valid()
      ensures maxGunAmmo == WrapUInt32(old(maxGunAmmo) + amount)
      ensures restoreToMax ==> (gun.magazineAmmo, totalAmmo) == Guns.Reloaded(0, maxGunAmmo, gun.maxAmmoInMagazine)
      ensures !restoreToMax ==> totalAmmo == old(totalAmmo) && gun.Snapshot() == old(gun.Snapshot())
      ensures Snapshot() == old(Snapshot()).(maxGunAmmo := maxGunAmmo, totalAmmo := totalAmmo)
    {
      maxGunAmmo := WrapUInt32(maxGunAmmo + amount);
      if restoreToMax {
        RestoreAmmo();
      }
    }

    /** `PutOnMask()`. */
    method PutOnMask()
      modifies this
      ensures Snapshot() == old(Snapshot()).(wearingMask := true, events := old(events) + [MaskOn])
    {
      events := events + [MaskOn];
      wearingMask := true;
    }

    /** `SetItem(item)`: the item is selected and shown, the input handler
        switches to its actions, choosing the gun reloads it, and the
        grenade controller is enabled only for grenades. */
    method SetItem(item: ItemType)
      requires Valid()
      modifies this, gun, input
      ensures Valid()
      ensures input.Snapshot() == Input.Switched(old(input.Snapshot()), Ord(item))
      ensures item == Gun ==>
        (gun.magazineAmmo, totalAmmo) == Guns.Reloaded(old(gun.magazineAmmo), old(totalAmmo), gun.maxAmmoInMagazine)
      ensures item != Gun ==> totalAmmo == old(totalAmmo) && gun.Snapshot() == old(gun.Snapshot())
      ensures Snapshot() == old(Snapshot()).(itemSelected := item, totalAmmo := totalAmmo,
        grenadesEnabled := item == Grenade,
        events := old(events) + [HudItem(item), AmmoVisible(item == Gun)])
    {
      itemSelected := item;
      grenadesEnabled := item == Grenade;
      events := events + [HudItem(item), AmmoVisible(item == Gun)];
      input.SwitchItem(Ord(item));
      if item == Gun {
        ReloadFromReserve();
      }
    }

    /** `gunController.ReloadGun(ref totalAmmo)`: the magazine is refilled
        from the reserve. */
    method ReloadFromReserve()
      requires Valid()
      modifies this, gun
      ensures Valid()
      ensures (gun.magazineAmmo, totalAmmo) == Guns.Reloaded(old(gun.magazineAmmo), old(totalAmmo), gun.maxAmmoInMagazine)
      ensures Snapshot() == old(Snapshot()).(totalAmmo := totalAmmo)
    {
      totalAmmo := gun.ReloadGun(totalAmmo);
    }

    /** `NextItem()`: steps forward through the item cycle, passing over
        locked weapons, and selects the first item it may stop on. */
    method NextItem()
      requires Valid()
      modifies this, gun, input
      ensures Valid()
      ensures itemSelected == NextSelected(abilities, old(itemSelected))
      ensures input.enabled == Input.AfterSwitch(old(input.enabled), Ord(itemSelected))
      ensures itemSelected == Gun ==>
        (gun.magazineAmmo, totalAmmo) == Guns.Reloaded(old(gun.magazineAmmo), old(totalAmmo), gun.maxAmmoInMagazine)
      ensures itemSelected != Gun ==> totalAmmo == old(totalAmmo) && gun.Snapshot() == old(gun.Snapshot())
      ensures Snapshot() == old(Snapshot()).(itemSelected := itemSelected, totalAmmo := totalAmmo,
        grenadesEnabled := itemSelected == Grenade,
        events := old(events) + [HudItem(itemSelected), AmmoVisible(itemSelected == Gun)])
    {
      StepForward();
      SetItem(itemSelected);
    }

    /** The stepping of `NextItem`: `itemSelected++` with the wrap past the
        grappling hook, repeated while the item reached is locked. */
    method StepForward()
      modifies this
      ensures Snapshot() == old(Snapshot()).(itemSelected := NextSelected(abilities, old(itemSelected)))
    {
      ghost var target := NextSelected(abilities, itemSelected);
      var i := Succ(itemSelected);
      while !Accepts(abilities, i)
        invariant i != GasMask
        invariant target == if Accepts(abilities, i) then i else NextSelected(abilities, i)
        decreases 5 - Upper(i)
      {
        assert i != None && Upper(i) == Ord(i);
        i := Succ(i);
      }
      itemSelected := i;
    }

    /** `PreviousItem()`: the mirror walk, wrapping from `None` to the grappling hook. */
    method PreviousItem()
      requires Valid()
      modifies this, gun, input
      ensures Valid()
      ensures itemSelected == PreviousSelected(abilities, old(itemSelected))
      ensures input.enabled == Input.AfterSwitch(old(input.enabled), Ord(itemSelected))
      ensures itemSelected == Gun ==>
        (gun.magazineAmmo, totalAmmo) == Guns.Reloaded(old(gun.magazineAmmo), old(totalAmmo), gun.maxAmmoInMagazine)
      ensures itemSelected != Gun ==> totalAmmo == old(totalAmmo) && gun.Snapshot() == old(gun.Snapshot())
      ensures Snapshot() == old(Snapshot()).(itemSelected := itemSelected, totalAmmo := totalAmmo,
        grenadesEnabled := itemSelected == Grenade,
        events := old(events) + [HudItem(itemSelected), AmmoVisible(itemSelected == Gun)])
    {
      StepBackward();
      SetItem(itemSelected);
    }

    /** The stepping of `PreviousItem`: `itemSelected--` with the wrap below
        `None`, repeated while the item reached is locked. */
    method StepBackward()
      modifies this
      ensures Snapshot() == old(Snapshot()).(itemSelected := PreviousSelected(abilities, old(itemSelected)))
    {
      ghost var target := PreviousSelected(abilities, itemSelected);
      var i := Pred(itemSelected);
      while !Accepts(abilities, i)
        invariant i != GasMask
        invariant target == if Accepts(abilities, i) then i else PreviousSelected(abilities, i)
        decreases Ord(i)
      {
        i := Pred(i);
      }
      itemSelected := i;
    }

    /** `GiveUpgrade(item)`: the gas mask is put on; any other item is
        unlocked and selected; either way movement is enabled again. */
    method GiveUpgrade(item: ItemType)
      requires Valid()
      modifies this, gun, input, movement
      ensures Valid()
      ensures item == GasMask ==>
        Snapshot() == old(Snapshot()).(wearingMask := true, events := old(events) + [MaskOn], movementEnabled := true)
      ensures item != GasMask ==>
        Snapshot() == old(Snapshot()).(abilities := Unlocked(old(abilities), item), itemSelected := item,
          totalAmmo := totalAmmo, grenadesEnabled := item == Grenade,
          events := old(events) + [HudItem(item), AmmoVisible(item == Gun)], movementEnabled := true)
      ensures item == Gun ==>
        (gun.magazineAmmo, totalAmmo) == Guns.Reloaded(old(gun.magazineAmmo), old(totalAmmo), gun.maxAmmoInMagazine)
      ensures item != Gun ==> totalAmmo == old(totalAmmo) && gun.Snapshot() == old(gun.Snapshot())
      ensures input.Snapshot() == if item == GasMask then old(input.Snapshot()) else Input.Switched(old(input.Snapshot()), Ord(item))
      ensures movement.Snapshot() == MovementToggled(old(movement.Snapshot()), old(movementEnabled), true, movement.config)
    {
      match item {
        case GasMask => PutOnMask();
        case MeleeWeapon => abilities := abilities.(melee := true);
        case Gun => abilities := abilities.(gun := true);
        case Grenade => abilities := abilities.(grenade := true);
        case GrapplingHook => abilities := abilities.(grapplingHook := true);
        case None =>
      }
      if item != GasMask {
        SetItem(item);
      }
      SetMovementEnabled(true);
    }

    /** `UpdateTimers`, run every fixed step while the component is enabled. */
    method FixedUpdate(dt: real)
      modifies this
      ensures Snapshot() == old(Snapshot()).(damageTimer := if enabled then Cooled(old(damageTimer), dt) else old(damageTimer))
    {
      if !enabled {
        return;
      }
      if damageTimer > 0.0 {
        damageTimer := damageTimer - dt;
      } else if damageTimer < 0.0 {
        damageTimer := 0.0;
      }
    }

    /** An enemy contact (layer 7) under the cooldown: when the timer has run
        out it is re-armed, the player is knocked away from the enemy if
        `knockback`, and takes the enemy's damage. */
    method EnemyContact(damagePerHit: UInt32, knockback: bool, playerRightOfEnemy: bool)
      modifies this, input, movement
      ensures Snapshot() == Contacted(old(Snapshot()), delayBetweenDamage, damagePerHit)
      ensures movement.Snapshot() ==
        ContactMotion(old(movement.Snapshot()), old(Snapshot()), damagePerHit, knockback, playerRightOfEnemy, movement.config)
      ensures input.Snapshot() == ContactInput(old(input.Snapshot()), old(Snapshot()), damagePerHit)
    {
      if damageTimer <= 0.0 {
        damageTimer := delayBetweenDamage;
        if knockback {
          movement.Knockback(AwayFromEnemy(playerRightOfEnemy));
        }
        TakeDamage(damagePerHit);
      }
    }

    /** `OnCollisionEnter2D`: an enemy hurts under the cooldown and knocks
        the player back; an item is destroyed, and a grenade item adds a
        grenade. */
    method OnCollisionEnter2D(layer: int, taggedGrenade: bool, damagePerHit: UInt32, playerRightOfEnemy: bool)
      modifies this, input, movement, grenades
      ensures Snapshot() == CollisionEntered(old(Snapshot()), layer, delayBetweenDamage, damagePerHit)
      ensures movement.Snapshot() == if layer == 7 then
        ContactMotion(old(movement.Snapshot()), old(Snapshot()), damagePerHit, true, playerRightOfEnemy, movement.config)
        else old(movement.Snapshot())
      ensures input.Snapshot() == if layer == 7 then
        ContactInput(old(input.Snapshot()), old(Snapshot()), damagePerHit) else old(input.Snapshot())
      ensures grenades.grenadesLeft ==
        if layer == 8 && taggedGrenade then WrapUInt32(old(grenades.grenadesLeft) + 1) else old(grenades.grenadesLeft)
      ensures grenades.events == old(grenades.events)
        + if layer == 8 && taggedGrenade then [Grenades.GrenadeTotalText(grenades.grenadesLeft)] else []
      ensures grenades.maximumGrenades == old(grenades.maximumGrenades)
      ensures grenades.thrownGrenades == old(grenades.thrownGrenades)
    {
      if layer == 7 {
        EnemyContact(damagePerHit, true, playerRightOfEnemy);
      }
      if layer == 8 {
        events := events + [ItemDestroyed];
        if taggedGrenade {
          grenades.AddGrenade();
        }
      }
    }

    /** `OnCollisionStay2D`: a lasting enemy contact hurts under the cooldown, without knockback. */
    method OnCollisionStay2D(layer: int, damagePerHit: UInt32)
      modifies this, input, movement
      ensures Snapshot() == if layer == 7 then Contacted(old(Snapshot()), delayBetweenDamage, damagePerHit) else old(Snapshot())
      ensures movement.Snapshot() == if layer == 7 then
        ContactMotion(old(movement.Snapshot()), old(Snapshot()), damagePerHit, false, false, movement.config)
        else old(movement.Snapshot())
      ensures input.Snapshot() == if layer == 7 then
        ContactInput(old(input.Snapshot()), old(Snapshot()), damagePerHit) else old(input.Snapshot())
    {
      if layer == 7 {
        EnemyContact(damagePerHit, false, false);
      }
    }

    /** `OnTriggerEnter2D`: an enemy projectile (layer 9) hurts with no
        cooldown; an item box (layer 8) opens and stops the player; the
        finish trigger disables the player and starts the winning end
        sequence. */
    method OnTriggerEnter2D(layer: int, taggedFinish: bool, damagePerHit: UInt32)
      modifies this, input, movement, game
      ensures Snapshot() == TriggerEntered(old(Snapshot()), layer, taggedFinish, damagePerHit)
      ensures movement.Snapshot() ==
        TriggerMotion(old(movement.Snapshot()), old(Snapshot()), layer, taggedFinish, damagePerHit, movement.config)
      ensures input.Snapshot() == TriggerInput(old(input.Snapshot()), old(Snapshot()), layer, taggedFinish, damagePerHit)
      ensures game.Snapshot() ==
        if taggedFinish then Session.EndSequenceStarted(old(game.Snapshot()), true) else old(game.Snapshot())
    {
      if layer == 9 {
        TakeDamage(damagePerHit);
      }
      if layer == 8 {
        OpenBox();
      }
      if taggedFinish {
        DisableScripts();
        game.StartEndSequence(true);
      }
    }

    /** An item box opens: the player stops and movement is disabled. */
    method OpenBox()
      modifies this, movement
      ensures Snapshot() == old(Snapshot()).(movementEnabled := false, events := old(events) + [BoxOpened])
      ensures movement.Snapshot() ==
        MovementToggled(Locomotion.Stopped(old(movement.Snapshot()), movement.config), old(movementEnabled), false, movement.config)
    {
      events := events + [BoxOpened];
      movement.StopMoving();
      SetMovementEnabled(false);
    }

    /** `OnTriggerStay2D`: an enemy hurts under the cooldown with knockback;
        a polluted zone (layer 11), without the gas mask and while alive,
        counts down its own timer and hurts each time it runs out. */
    method OnTriggerStay2D(layer: int, damagePerHit: UInt32, playerRightOfEnemy: bool,
                           dt: real, timePerImpact: real, damagePerImpact: UInt32)
      modifies this, input, movement
      ensures Snapshot() ==
        TriggerStayed(old(Snapshot()), layer, delayBetweenDamage, damagePerHit, dt, timePerImpact, damagePerImpact)
      ensures movement.Snapshot() ==
        if layer == 7 then
          ContactMotion(old(movement.Snapshot()), old(Snapshot()), damagePerHit, true, playerRightOfEnemy, movement.config)
        else if layer == 11 && PollutionHits(old(Snapshot()), dt) then
          MotionAfterHit(old(movement.Snapshot()), old(Snapshot()), damagePerImpact, movement.config)
        else old(movement.Snapshot())
      ensures input.Snapshot() ==
        if layer == 7 then ContactInput(old(input.Snapshot()), old(Snapshot()), damagePerHit)
        else if layer == 11 && PollutionHits(old(Snapshot()), dt) then
          InputAfterHit(old(input.Snapshot()), old(Snapshot()), damagePerImpact)
        else old(input.Snapshot())
    {
      if layer == 7 {
        EnemyContact(damagePerHit, true, playerRightOfEnemy);
      }
      if layer == 11 && !wearingMask {
        if !isAlive {
          return;
        }
        pollutedTimer := pollutedTimer - dt;
        if pollutedTimer <= 0.0 {
          pollutedTimer := timePerImpact;
          TakeDamage(damagePerImpact);
        }
      }
    }
  }

  /** The abilities after `GiveUpgrade(item)`. */
  function Unlocked(ab: Abilities, item: ItemType): (r: Abilities)
    ensures Accepts(r, item) || item == GasMask
    ensures forall i :: Accepts(ab, i) ==> Accepts(r, i)
    ensures forall i :: i != item ==> (Accepts(r, i) <==> Accepts(ab, i))
  {
    match item
    case MeleeWeapon => ab.(melee := true)
    case Gun => ab.(gun := true)
    case Grenade => ab.(grenade := true)
    case GrapplingHook => ab.(grapplingHook := true)
    case _ => ab
  }

  /** An engine callback that reaches the controller's health: the three
      contact handlers, the trigger handler and a fixed step. */
  datatype Callback =
    | CollisionEnter(layer: int, amount: UInt32)
    | CollisionStay(layer: int, amount: UInt32)
    | TriggerEnter(layer: int, finish: bool, amount: UInt32)
    | TriggerStay(layer: int, amount: UInt32, dt: real, timePerImpact: real, damagePerImpact: UInt32)
    | FixedStep(dt: real)

  /** The controller's fields after one callback, as the handler methods
      leave them. */
  function Handled(s: PlayerState, cb: Callback, delay: real): PlayerState
  {
    match cb
    case CollisionEnter(layer, amount) => CollisionEntered(s, layer, delay, amount)
    case CollisionStay(layer, amount) => if layer == 7 then Contacted(s, delay, amount) else s
    case TriggerEnter(layer, finish, amount) => TriggerEntered(s, layer, finish, amount)
    case TriggerStay(layer, amount, dt, timePerImpact, damagePerImpact) =>
      TriggerStayed(s, layer, delay, amount, dt, timePerImpact, damagePerImpact)
    case FixedStep(dt) => s.(damageTimer := if s.enabled then Cooled(s.damageTimer, dt) else s.damageTimer)
  }

  /** The controller's fields after a run of callbacks. */
  function HandledAll(s: PlayerState, cbs: seq<Callback>, delay: real): PlayerState
    decreases |cbs|
  {
    if |cbs| == 0 then s else HandledAll(Handled(s, cbs[0], delay), cbs[1..], delay)
  }

  /** A hit at zero health kills the player and disables the movement
      component and the controller; a hit the player survives leaves life
      and both flags alone. */
  lemma DeathDisablesControls(s: PlayerState, amount: UInt32)
    ensures var r := Damaged(s, amount);
      r.health >= 0
      && (r.health == 0 ==> !r.isAlive && !r.movementEnabled && !r.enabled)
      && (r.health > 0 ==> r.isAlive == s.isAlive && r.movementEnabled == s.movementEnabled && r.enabled == s.enabled)
  {
  }

  /** One callback never revives the player, and kills only by leaving
      health at zero. */
  lemma HandledNeverRevives(s: PlayerState, cb: Callback, delay: real)
    ensures var r := Handled(s, cb, delay);
      (r.isAlive ==> s.isAlive) && (s.isAlive && !r.isAlive ==> r.health == 0)
      && (s.health >= 0 ==> r.health >= 0)
  {
    match cb
    case CollisionEnter(layer, amount) =>
      DeathDisablesControls(s.(damageTimer := delay), amount);
    case CollisionStay(layer, amount) =>
      DeathDisablesControls(s.(damageTimer := delay), amount);
    case TriggerEnter(layer, finish, amount) =>
      DeathDisablesControls(s, amount);
    case TriggerStay(layer, amount, dt, timePerImpact, damagePerImpact) =>
      DeathDisablesControls(s.(damageTimer := delay), amount);
      DeathDisablesControls(s.(pollutedTimer := timePerImpact), damagePerImpact);
    case FixedStep(dt) =>
  }

  /** Through any run of the player's collision, trigger and fixed-step
      callbacks health stays non-negative, and once the player is dead
      nothing sets `IsAlive` back to true. */
  lemma {:induction false} DeathIsFinal(s: PlayerState, cbs: seq<Callback>, delay: real)
    requires s.health >= 0
    ensures HandledAll(s, cbs, delay).health >= 0
    ensures !s.isAlive ==> !HandledAll(s, cbs, delay).isAlive
    decreases |cbs|
  {
    if |cbs| > 0 {
      HandledNeverRevives(s, cbs[0], delay);
      DeathIsFinal(Handled(s, cbs[0], delay), cbs[1..], delay);
    }
  }

  /** A hit the player survives is an exact subtraction; a hit at least as
      large as the health leaves exactly zero and kills. */
  lemma HitOutcome(health: Int32, amount: UInt32)
    requires 0 <= health && amount <= INT_MAX
    ensures amount < health ==> Hurt(health, amount) == health - amount > 0
    ensures amount >= health ==> Hurt(health, amount) == 0
  {
  }

  /** `RestoreHealth(amount)` does not stop at the maximum: from any health
      at or below the maximum, restoring an amount that does not overflow
      gives exactly their sum, which passes the maximum once it exceeds it. */
  lemma RestoreCanExceedMaximum(health: Int32, maxHealth: Int32, amount: UInt32)
    requires health <= maxHealth && health + amount <= INT_MAX
    ensures Healed(health, amount) == health + amount
    ensures health + amount > maxHealth ==> Healed(health, amount) > maxHealth
  {
  }

  /** `n` fixed steps of `UpdateTimers` on the cooldown timer. */
  function CooledFor(damageTimer: real, dt: real, n: nat): real
    decreases n
  {
    if n == 0 then damageTimer else Cooled(CooledFor(damageTimer, dt, n - 1), dt)
  }

  /** Two contacts in the same step deal damage once: the first re-arms
      the cooldown, which refuses the second. */
  lemma ContactsWithinCooldown(s: PlayerState, delay: real, a: UInt32, b: UInt32)
    requires delay > 0.0
    ensures Contacted(Contacted(s, delay, a), delay, b) == Contacted(s, delay, a)
  {
  }

  /** A contact arms the cooldown; for as long as the fixed steps since
      then add up to less than `delayBetweenDamage`, the timer has counted
      them off exactly and every further contact is refused. */
  lemma {:induction false} CooldownHoldsOff(s: PlayerState, delay: real, dt: real, n: nat, amount: UInt32)
    requires dt >= 0.0
    requires (n as real) * dt < delay
    ensures CooledFor(delay, dt, n) == delay - (n as real) * dt
    ensures var t := s.(damageTimer := CooledFor(delay, dt, n));
      Contacted(t, delay, amount) == t
    decreases n
  {
    if n > 0 {
      var m := n - 1;
      assert (m as real) * dt == (n as real) * dt - dt;
      CooldownHoldsOff(s, delay, dt, m, amount);
    }
  }

  /** A running timer never lags behind the steps: after `n` fixed steps
      it is at most what is left of it, or zero. */
  lemma {:induction false} CooledBound(t: real, dt: real, n: nat)
    requires dt >= 0.0
    ensures CooledFor(t, dt, n) <= (if t - (n as real) * dt > 0.0 then t - (n as real) * dt else 0.0)
    decreases n
  {
    if n > 0 {
      var m := n - 1;
      assert (m as real) * dt == (n as real) * dt - dt;
      CooledBound(t, dt, m);
      var c := CooledFor(t, dt, m);
      if c > 0.0 {
        assert c <= t - (m as real) * dt;
        assert Cooled(c, dt) <= t - (n as real) * dt;
      } else {
        assert Cooled(c, dt) <= 0.0;
      }
    }
  }

  /** Once the fixed steps since a contact add up to `delayBetweenDamage`,
      the next contact is accepted: the timer is re-armed and the enemy's
      damage is taken. */
  lemma CooldownExpires(s: PlayerState, delay: real, dt: real, n: nat, amount: UInt32)
    requires dt >= 0.0
    requires (n as real) * dt >= delay
    ensures var t := s.(damageTimer := CooledFor(delay, dt, n));
      Contacted(t, delay, amount) == Damaged(s.(damageTimer := delay), amount)
  {
    CooledBound(delay, dt, n);
  }
}
