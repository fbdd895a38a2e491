/** The shotgun's ammunition: a `uint` magazine refilled from the player's
    `uint` reserve, a shot that spends one round and damages a live enemy the
    ray hits, and the shot-delay flag. The reserve belongs to the player's
    controller; `ReloadGun` takes it and returns its new value. The ray cast,
    particles, sounds and the aim are inputs or logged events. */
module Guns {
  import opened CSharpInt
  import opened EnemyHealth

  /** Sounds, the fire trigger and the ammunition texts the gun writes to the HUD. */
  datatype GunEvent =
    | OutOfAmmoSound
    | FireTrigger
    | FireSound
    | ReloadSound
    | MagazineText(n: UInt32)
    | TotalText(n: UInt32)

  /** The gun's own state. */
  datatype Gun = Gun(magazineAmmo: UInt32, lastShotTime: real, canShoot: bool, events: seq<GunEvent>)

  /** `ReloadGun` on the pair (magazine, reserve), in `uint` arithmetic:
      an empty reserve changes nothing; otherwise the magazine takes what it
      lacks, or the whole reserve when that is less. */
  function Reloaded(mag: UInt32, total: UInt32, max: UInt32): (r: (UInt32, UInt32))
    ensures total == 0 ==> r == (mag, total)
  {
    if total == 0 then (mag, total)
    else
      var ammoToAdd := WrapUInt32(max - mag);
      if total >= ammoToAdd then (WrapUInt32(mag + ammoToAdd), total - ammoToAdd)
      else (WrapUInt32(mag + total), 0)
  }

  /** The HUD texts and sound of a reload that found ammunition, or the
      out-of-ammo sound of one that did not. */
  function ReloadEvents(total: UInt32, after: (UInt32, UInt32)): seq<GunEvent>
  {
    if total == 0 then [OutOfAmmoSound]
    else [MagazineText(after.0), TotalText(after.1), ReloadSound]
  }

  /** Whether `FireShot` gets past its two guards and spends a round. */
  predicate Discharges(g: Gun)
  {
    g.canShoot && g.magazineAmmo > 0
  }

  /** `FireShot` on the gun's state at time `now`. */
  function Fired(g: Gun, now: real): Gun
  {
    if !g.canShoot then g
    else if g.magazineAmmo == 0 then g.(events := g.events + [OutOfAmmoSound])
    else
      var m := g.magazineAmmo - 1;
      g.(magazineAmmo := m, lastShotTime := now, canShoot := true,
         events := g.events + [FireTrigger, FireSound, MagazineText(m)])
  }

  /** `Update`: once `delayBetweenShot` has passed since the last shot the gun may shoot. */
  function Ticked(g: Gun, now: real, delay: real): Gun
  {
    if now - g.lastShotTime >= delay then g.(canShoot := true) else g
  }

  class GunController {
    const maxAmmoInMagazine: UInt32
    const delayBetweenShot: real
    const rangedWeaponDamage: UInt32
    var magazineAmmo: UInt32
    var lastShotTime: real
    var canShoot: bool
    var events: seq<GunEvent>

    function Snapshot(): Gun
      reads this
    {
      Gun(magazineAmmo, lastShotTime, canShoot, events)
    }

    /** The magazine never holds more than it can: the `uint` subtraction
        in `ReloadGun` relies on it. */
    predicate Valid()
      reads this
    {
      magazineAmmo <= maxAmmoInMagazine
    }

    /** The component as its field initialisers leave it: an empty magazine, free to shoot. */
    constructor (maxAmmoInMagazine: UInt32, delayBetweenShot: real, rangedWeaponDamage: UInt32)
      ensures this.maxAmmoInMagazine == maxAmmoInMagazine && this.delayBetweenShot == delayBetweenShot
      ensures this.rangedWeaponDamage == rangedWeaponDamage
      ensures Snapshot() == Gun(0, 0.0, true, [])
      ensures Valid()
    {
      this.maxAmmoInMagazine := maxAmmoInMagazine;
      this.delayBetweenShot := delayBetweenShot;
      this.rangedWeaponDamage := rangedWeaponDamage;
      magazineAmmo := 0;
      lastShotTime := 0.0;
      canShoot := true;
      events := [];
    }

    /** `Update` at time `now`. */
    method Update(now: real)
      modifies this
      ensures Snapshot() == Ticked(old(Snapshot()), now, delayBetweenShot)
    {
      var timeSinceLastShot := now - lastShotTime;
      if timeSinceLastShot >= delayBetweenShot {
        canShoot := true;
      }
    }

    /** `FireShot()` at time `now`; `target` is the enemy on layer 7 the ray
        hit, or null when it hit nothing or something else. */
    method FireShot(now: real, target: EnemyController?)
      requires Valid()
      modifies this, target
      ensures Valid()
      ensures Snapshot() == Fired(old(Snapshot()), now)
      ensures target != null && Discharges(old(Snapshot())) && old(target.alive) ==>
        && target.health == Damaged(old(target.health), rangedWeaponDamage)
        && target.alive == (target.health > 0)
        && target.events == old(target.events) + HitEvents(target.health)
      ensures target != null && !(Discharges(old(Snapshot())) && old(target.alive)) ==>
        target.health == old(target.health) && target.alive == old(target.alive)
        && target.events == old(target.events)
    {
      if !canShoot {
        return;
      }
      if magazineAmmo <= 0 {
        events := events + [OutOfAmmoSound];
        return;
      }
      events := events + [FireTrigger, FireSound];
      if target != null {
        if target.alive {
          target.TakeDamage(rangedWeaponDamage);
        }
      }
      magazineAmmo := magazineAmmo - 1;
      events := events + [MagazineText(magazineAmmo)];
      lastShotTime := now;
      canShoot := true;
    }

    /** `ReloadGun()` with the player's reserve `totalAmmo`; returns the new reserve. */
    method ReloadGun(totalAmmo: UInt32) returns (newTotal: UInt32)
      requires Valid()
      modifies this
      ensures Valid()
      ensures (magazineAmmo, newTotal) == Reloaded(old(magazineAmmo), totalAmmo, maxAmmoInMagazine)
      ensures events == old(events) + ReloadEvents(totalAmmo, (magazineAmmo, newTotal))
      ensures lastShotTime == old(lastShotTime) && canShoot == old(canShoot)
    {
      ReloadBounded(magazineAmmo, totalAmmo, maxAmmoInMagazine);
      newTotal := totalAmmo;
      if newTotal == 0 {
        events := events + [OutOfAmmoSound];
        return;
      }
      var ammoToAdd := WrapUInt32(maxAmmoInMagazine - magazineAmmo);
      if newTotal >= ammoToAdd {
        newTotal := newTotal - ammoToAdd;
        magazineAmmo := WrapUInt32(magazineAmmo + ammoToAdd);
      } else {
        magazineAmmo := WrapUInt32(magazineAmmo + newTotal);
        newTotal := 0;
      }
      events := events + [MagazineText(magazineAmmo), TotalText(newTotal), ReloadSound];
    }

    /** `EmptyMagazine()`: the magazine is emptied and nothing else changes. */
    method EmptyMagazine()
      modifies this
      ensures Valid()
      ensures Snapshot() == old(Snapshot()).(magazineAmmo := 0)
    {
      magazineAmmo := 0;
    }
  }

  /** With the magazine within its capacity, a reload moves ammunition from
      the reserve into the magazine without creating or losing any, fills the
      magazine as far as the reserve allows, and keeps it within capacity. */
  lemma ReloadBounded(mag: UInt32, total: UInt32, max: UInt32)
    requires mag <= max
    ensures var r := Reloaded(mag, total, max);
      && r.0 + r.1 == mag + total
      && r.0 == Min(max, mag + total)
      && r.0 <= max
  {
  }

  /** A reload with enough in reserve fills the magazine; one with less
      empties the reserve. */
  lemma ReloadFillsOrDrains(mag: UInt32, total: UInt32, max: UInt32)
    requires mag <= max && total > 0
    ensures total >= max - mag ==> Reloaded(mag, total, max) == (max, total - (max - mag))
    ensures total < max - mag ==> Reloaded(mag, total, max) == (mag + total, 0)
  {
  }

  /** Reloading twice in a row is reloading once: the second reload finds the
      magazine full or the reserve empty. */
  lemma ReloadIdempotent(mag: UInt32, total: UInt32, max: UInt32)
    requires mag <= max
    ensures var r := Reloaded(mag, total, max);
      Reloaded(r.0, r.1, max) == r
  {
    ReloadBounded(mag, total, max);
  }

  /** A shot spends exactly one round when it discharges and none otherwise;
      an empty magazine stays empty and only logs the out-of-ammo sound. */
  lemma ShotSpendsOneRound(g: Gun, now: real)
    ensures Fired(g, now).magazineAmmo == if Discharges(g) then g.magazineAmmo - 1 else g.magazineAmmo
    ensures g.canShoot && g.magazineAmmo == 0 ==>
      Fired(g, now) == g.(events := g.events + [OutOfAmmoSound])
    ensures Fired(g, now).canShoot == g.canShoot
  {
  }

  /** What can happen to the gun: a shot, a frame, a reload from a reserve,
      or the magazine being emptied. */
  datatype GunOp = Fire(now: real) | Frame(now: real) | Reload(total: UInt32) | Empty

  function GunStep(g: Gun, op: GunOp, max: UInt32, delay: real): Gun
  {
    match op
    case Fire(now) => Fired(g, now)
    case Frame(now) => Ticked(g, now, delay)
    case Reload(total) =>
      var r := Reloaded(g.magazineAmmo, total, max);
      g.(magazineAmmo := r.0, events := g.events + ReloadEvents(total, r))
    case Empty => g.(magazineAmmo := 0)
  }

  function GunRun(g: Gun, ops: seq<GunOp>, max: UInt32, delay: real): Gun
    decreases |ops|
  {
    if |ops| == 0 then g else GunRun(GunStep(g, ops[0], max, delay), ops[1..], max, delay)
  }

  /** `canShoot` starts true and every assignment to it assigns true, so
      after any run the shot-delay guard is open and a shot with a loaded
      magazine always discharges. */
  lemma {:induction false} ShotNeverBlocked(g: Gun, ops: seq<GunOp>, max: UInt32, delay: real)
    requires g.canShoot
    ensures GunRun(g, ops, max, delay).canShoot
    ensures GunRun(g, ops, max, delay).magazineAmmo > 0 ==> Discharges(GunRun(g, ops, max, delay))
    decreases |ops|
  {
    if |ops| > 0 {
      ShotNeverBlocked(GunStep(g, ops[0], max, delay), ops[1..], max, delay);
    }
  }

  /** The magazine stays within capacity through any run of shots, frames,
      reloads and emptyings. */
  lemma {:induction false} MagazineStaysBounded(g: Gun, ops: seq<GunOp>, max: UInt32, delay: real)
    requires g.magazineAmmo <= max
    ensures GunRun(g, ops, max, delay).magazineAmmo <= max
    decreases |ops|
  {
    if |ops| > 0 {
      if ops[0].Reload? {
        ReloadBounded(g.magazineAmmo, ops[0].total, max);
      }
      MagazineStaysBounded(GunStep(g, ops[0], max, delay), ops[1..], max, delay);
    }
  }
}
