/** An enemy's health and life: `Start` fills health to the maximum, and
    `TakeDamage` subtracts with 32-bit wrap-around and kills the enemy when
    health reaches zero or less. Sounds, animator triggers and the damage
    flash are logged as events. */
module EnemyHealth {
  import opened CSharpInt

  datatype EnemyHealthEvent =
    | DeathEffects   // damaged sound, "Die" trigger, rotation reset, player collision ignored
    | DamageFlash    // colour flash and damaged sound
    | OnTakeDamage   // the `OnTakeDamage` UnityEvent

  /** The health after a hit of `amount`: `health -= (int)amount` in unchecked `int` arithmetic. */
  function Damaged(health: Int32, amount: UInt32): (r: Int32)
    ensures (health - AsInt(amount) - r) % TWO_32 == 0
    ensures INT_MIN <= health - AsInt(amount) <= INT_MAX ==> r == health - AsInt(amount)
  {
    WrapInt32(health - AsInt(amount))
  }

  /** The events a hit logs: the death effects when it leaves health at
      zero or below, otherwise the flash and `OnTakeDamage`. */
  function HitEvents(newHealth: int): (r: seq<EnemyHealthEvent>)
    ensures (OnTakeDamage in r) == (newHealth > 0)
    ensures (DeathEffects in r) == (newHealth <= 0)
  {
    if newHealth <= 0 then [DeathEffects] else [DamageFlash, OnTakeDamage]
  }

  class EnemyController {
    const maxHealth: Int32
    const damageDealt: UInt32
    const visionRadius: real
    var health: Int32
    var alive: bool
    var events: seq<EnemyHealthEvent>

    /** The component before `Start`: health still at its default 0, alive. */
    constructor (maxHealth: Int32, damageDealt: UInt32, visionRadius: real)
      ensures this.maxHealth == maxHealth && this.damageDealt == damageDealt && this.visionRadius == visionRadius
      ensures health == 0 && alive && events == []
    {
      this.maxHealth := maxHealth;
      this.damageDealt := damageDealt;
      this.visionRadius := visionRadius;
      health := 0;
      alive := true;
      events := [];
    }

    /** `Start`: health starts at `maxHealth`. */
    method Start()
      modifies this
      ensures health == maxHealth
      ensures alive == old(alive) && events == old(events)
    {
      health := maxHealth;
    }

    /** `TakeDamage(amount)`: subtract without clamping; a result of zero or
        less kills the enemy, anything else flashes and fires `OnTakeDamage`. */
    method TakeDamage(amount: UInt32)
      modifies this
      ensures health == Damaged(old(health), amount)
      ensures alive == (old(alive) && health > 0)
      ensures events == old(events) + HitEvents(health)
    {
      health := WrapInt32(health - AsInt(amount));
      if health <= 0 {
        events := events + [DeathEffects];
        alive := false;
      } else {
        events := events + [DamageFlash, OnTakeDamage];
      }
    }
  }

  /** Health and life after a run of hits. */
  function AfterHits(health: Int32, alive: bool, amounts: seq<UInt32>): (Int32, bool)
    decreases |amounts|
  {
    if |amounts| == 0 then (health, alive)
    else
      var h := Damaged(health, amounts[0]);
      AfterHits(h, alive && h > 0, amounts[1..])
  }

  /** Helper: once dead, no run of hits brings an enemy back to life. */
  lemma {:induction false} DeadStaysDead(health: Int32, amounts: seq<UInt32>)
    ensures !AfterHits(health, false, amounts).1
    decreases |amounts|
  {
    if |amounts| > 0 {
      DeadStaysDead(Damaged(health, amounts[0]), amounts[1..]);
    }
  }

  /** An enemy is alive after a run of hits exactly when it was alive
      before and every hit of the run left its health above zero, whatever
      wrap-around the hits cause: a death is never undone. */
  lemma {:induction false} AliveExactlyWhileHitsSurvived(health: Int32, alive: bool, amounts: seq<UInt32>)
    ensures AfterHits(health, alive, amounts).1 <==>
      alive && forall k :: 1 <= k <= |amounts| ==> AfterHits(health, alive, amounts[..k]).0 > 0
    decreases |amounts|
  {
    if |amounts| > 0 {
      var h := Damaged(health, amounts[0]);
      var rest := amounts[1..];
      var a := alive && h > 0;
      AliveExactlyWhileHitsSurvived(h, a, rest);
      assert amounts[..1][1..] == [];
      assert AfterHits(health, alive, amounts[..1]).0 == h;
      forall k | 1 <= k <= |rest|
        ensures AfterHits(health, alive, amounts[..k + 1]).0 == AfterHits(h, a, rest[..k]).0
      {
        assert amounts[..k + 1][1..] == rest[..k];
      }
      assert (forall k :: 1 <= k <= |amounts| ==> AfterHits(health, alive, amounts[..k]).0 > 0) <==>
             h > 0 && (forall k :: 1 <= k <= |rest| ==> AfterHits(h, a, rest[..k]).0 > 0) by {
        if h > 0 && (forall k :: 1 <= k <= |rest| ==> AfterHits(h, a, rest[..k]).0 > 0) {
          forall k | 1 <= k <= |amounts| ensures AfterHits(health, alive, amounts[..k]).0 > 0 {
            if k > 1 {
              assert AfterHits(health, alive, amounts[..k]).0 == AfterHits(h, a, rest[..k - 1]).0;
            }
          }
        }
      }
    }
  }

  /** The sum of a run of hits. */
  function Total(amounts: seq<UInt32>): nat
  {
    if |amounts| == 0 then 0 else amounts[0] + Total(amounts[1..])
  }

  /** Without wrap-around, a live enemy starting from `health` survives a
      run of hits exactly when their total stays below its health at every
      step, and its health is the exact difference: nothing clamps it. */
  lemma {:induction false} HitsSubtractExactly(health: Int32, amounts: seq<UInt32>)
    requires 0 <= health
    requires forall i :: 0 <= i < |amounts| ==> amounts[i] <= INT_MAX
    requires Total(amounts) <= INT_MAX
    ensures AfterHits(health, true, amounts).0 == health - Total(amounts)
    ensures AfterHits(health, true, amounts).1 ==
      forall k :: 1 <= k <= |amounts| ==> Total(amounts[..k]) < health
    decreases |amounts|
  {
    if |amounts| > 0 {
      var h := Damaged(health, amounts[0]);
      assert h == health - amounts[0];
      var rest := amounts[1..];
      forall k | 1 <= k <= |rest| ensures Total(amounts[..k + 1]) == amounts[0] + Total(rest[..k]) {
        assert amounts[..k + 1][1..] == rest[..k];
      }
      assert amounts[..1][1..] == [];
      if h >= 0 {
        HitsSubtractExactly(h, rest);
        if h > 0 {
          // Surviving the whole run from `h` is surviving every prefix after the first hit.
          assert (forall k :: 1 <= k <= |amounts| ==> Total(amounts[..k]) < health) <==>
                 (forall k :: 1 <= k <= |rest| ==> Total(rest[..k]) < h) by {
            forall k | 1 <= k <= |amounts| && (forall j :: 1 <= j <= |rest| ==> Total(rest[..j]) < h)
              ensures Total(amounts[..k]) < health
            {
              if k > 1 {
                assert Total(amounts[..k]) == amounts[0] + Total(rest[..k - 1]);
              }
            }
          }
        } else {
          DeadStaysDead(h, rest);
          assert Total(amounts[..1]) == amounts[0];
        }
      } else {
        assert Total(amounts[..1]) == amounts[0];
        DeadStaysDead(h, rest);
        NegativeNoWrap(h, rest);
      }
    }
  }

  /** Helper: below zero but within range, further hits within range keep
      subtracting exactly. */
  lemma {:induction false} NegativeNoWrap(health: Int32, amounts: seq<UInt32>)
    requires health - Total(amounts) >= INT_MIN
    requires forall i :: 0 <= i < |amounts| ==> amounts[i] <= INT_MAX
    ensures AfterHits(health, false, amounts).0 == health - Total(amounts)
    decreases |amounts|
  {
    if |amounts| > 0 {
      NegativeNoWrap(Damaged(health, amounts[0]), amounts[1..]);
    }
  }

  /** Health is not clamped at zero: a hit larger than the health leaves
      it negative by the excess, and the death effects run. */
  lemma OverkillGoesNegative(health: Int32, amount: UInt32)
    requires 0 <= health < amount <= INT_MAX
    ensures Damaged(health, amount) == health - amount < 0
    ensures HitEvents(Damaged(health, amount)) == [DeathEffects]
  {
  }

  /** An amount above `int.MaxValue` is cast to a negative `int`, so the
      "hit" heals by `2^32 - amount` whenever that stays in range. */
  lemma HugeAmountHeals(health: Int32, amount: UInt32)
    requires amount > INT_MAX
    requires health + (TWO_32 - amount) <= INT_MAX
    ensures Damaged(health, amount) == health + (TWO_32 - amount) > health
  {
  }
}
