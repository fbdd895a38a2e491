/** The player's grenades: a `uint` stock with an adjustable maximum, the
    throw and the drop that each take one grenade from the stock and add it
    to the list of grenades in flight, and the remote detonation that blows
    up every grenade on that list and clears it. Whether the spawn point
    overlaps a collider is an input; the throw force, aim and sounds are
    left to the engine or logged. */
module Grenades {
  import opened CSharpInt

  /** Sounds, the throw trigger and the grenade count the controller writes to the HUD. */
  datatype GrenadeEvent =
    | OutOfGrenadesSound
    | ThrowSound
    | ThrowTrigger
    | GrenadeTotalText(n: UInt32)
    | ArmHidden   // the "HoldingGrenade" animator flag cleared and the arm sprite hidden

  /** A grenade in the world. `Detonate` explodes it unless it is already
      gone, and destroys it. */
  class Grenade {
    var destroyed: bool
    var explosions: nat

    constructor ()
      ensures !destroyed && explosions == 0
    {
      destroyed := false;
      explosions := 0;
    }

    /** `Detonate()`: a destroyed grenade does nothing; a live one explodes once and is destroyed. */
    method Detonate()
      modifies this
      ensures destroyed
      ensures explosions == if old(destroyed) then old(explosions) else old(explosions) + 1
    {
      if destroyed {
        return;
      }
      explosions := explosions + 1;
      destroyed := true;
    }
  }

  /** Whether a throw or drop attempt takes a grenade from the stock: there
      must be one left and its spawn point must be clear. */
  predicate Spawns(left: UInt32, blocked: bool)
  {
    left > 0 && !blocked
  }

  /** The stock after a throw or drop attempt. */
  function AfterThrow(left: UInt32, blocked: bool): UInt32
  {
    if Spawns(left, blocked) then left - 1 else left
  }

  /** The stock and the number of grenades thrown after a run of attempts,
      `blocked[i]` saying whether attempt `i` found its spawn point occupied. */
  function Throws(left: UInt32, blocked: seq<bool>): (UInt32, nat)
    decreases |blocked|
  {
    if |blocked| == 0 then (left, 0)
    else
      var rest := Throws(AfterThrow(left, blocked[0]), blocked[1..]);
      (rest.0, rest.1 + if Spawns(left, blocked[0]) then 1 else 0)
  }

  class GrenadeController {
    var maximumGrenades: UInt32
    var grenadesLeft: UInt32
    var thrownGrenades: seq<Grenade>
    var events: seq<GrenadeEvent>

    /** Every grenade on the list was spawned once, so none appears twice. */
    predicate Valid()
      reads this
    {
      forall i, j :: 0 <= i < j < |thrownGrenades| ==> thrownGrenades[i] != thrownGrenades[j]
    }

    /** The component as its field initialisers leave it: five grenades, none thrown. */
    constructor (maximumGrenades: UInt32)
      ensures this.maximumGrenades == maximumGrenades
      ensures grenadesLeft == 5 && thrownGrenades == [] && events == []
      ensures Valid()
    {
      this.maximumGrenades := maximumGrenades;
      grenadesLeft := 5;
      thrownGrenades := [];
      events := [];
    }

    /** `Start`: the HUD shows the stock. */
    method Start()
      modifies this
      ensures events == old(events) + [GrenadeTotalText(grenadesLeft)]
      ensures grenadesLeft == old(grenadesLeft) && maximumGrenades == old(maximumGrenades)
      ensures thrownGrenades == old(thrownGrenades)
    {
      events := events + [GrenadeTotalText(grenadesLeft)];
    }

    /** `SetGrenadeTotal(total)`. */
    method SetGrenadeTotal(total: UInt32)
      modifies this
      ensures grenadesLeft == total && events == old(events) + [GrenadeTotalText(total)]
      ensures maximumGrenades == old(maximumGrenades) && thrownGrenades == old(thrownGrenades)
    {
      grenadesLeft := total;
      events := events + [GrenadeTotalText(grenadesLeft)];
    }

    /** `AddGrenade()`: one more, with no cap at the maximum. */
    method AddGrenade()
      modifies this
      ensures grenadesLeft == WrapUInt32(old(grenadesLeft) + 1)
      ensures events == old(events) + [GrenadeTotalText(grenadesLeft)]
      ensures maximumGrenades == old(maximumGrenades) && thrownGrenades == old(thrownGrenades)
    {
      grenadesLeft := WrapUInt32(grenadesLeft + 1);
      events := events + [GrenadeTotalText(grenadesLeft)];
    }

    /** `RestoreGrenades()`: the stock is refilled to the maximum. */
    method RestoreGrenades()
      modifies this
      ensures grenadesLeft == maximumGrenades
      ensures events == old(events) + [GrenadeTotalText(grenadesLeft)]
      ensures maximumGrenades == old(maximumGrenades) && thrownGrenades == old(thrownGrenades)
    {
      grenadesLeft := maximumGrenades;
      events := events + [GrenadeTotalText(grenadesLeft)];
    }

    /** `RestoreGrenades(amount)`: `amount` more, with no cap and no HUD update. */
    method RestoreGrenadesBy(amount: UInt32)
      modifies this
      ensures grenadesLeft == WrapUInt32(old(grenadesLeft) + amount)
      ensures events == old(events)
      ensures maximumGrenades == old(maximumGrenades) && thrownGrenades == old(thrownGrenades)
    {
      grenadesLeft := WrapUInt32(grenadesLeft + amount);
    }

    /** `IncreaseMaxGrenades(amount, restoreToMax)`. */
    method IncreaseMaxGrenades(amount: UInt32, restoreToMax: bool)
      modifies this
      ensures maximumGrenades == WrapUInt32(old(maximumGrenades) + amount)
      ensures grenadesLeft == if restoreToMax then maximumGrenades else old(grenadesLeft)
      ensures events == old(events) + if restoreToMax then [GrenadeTotalText(maximumGrenades)] else []
      ensures thrownGrenades == old(thrownGrenades)
    {
      maximumGrenades := WrapUInt32(maximumGrenades + amount);
      if restoreToMax {
        RestoreGrenades();
      }
    }

    /** `ThrowGrenade()`: only the throw animation, whose event spawns the grenade. */
    method ThrowGrenade()
      modifies this
      ensures events == old(events) + [ThrowTrigger]
      ensures grenadesLeft == old(grenadesLeft) && maximumGrenades == old(maximumGrenades)
      ensures thrownGrenades == old(thrownGrenades)
    {
      events := events + [ThrowTrigger];
    }

    /** `SpawnGrenade()`: with none left, the out-of-grenades sound; with the
        spawn point occupied, nothing; otherwise a new grenade joins the list
        and the stock drops by one, hiding the arm when it reaches zero. */
    method SpawnGrenade(blocked: bool) returns (g: Grenade?)
      requires Valid()
      modifies this
      ensures Valid()
      ensures grenadesLeft == AfterThrow(old(grenadesLeft), blocked)
      ensures !Spawns(old(grenadesLeft), blocked) ==> g == null && thrownGrenades == old(thrownGrenades)
      ensures Spawns(old(grenadesLeft), blocked) ==>
        g != null && fresh(g) && !g.destroyed && g.explosions == 0
        && thrownGrenades == old(thrownGrenades) + [g]
      ensures events == old(events) +
        if old(grenadesLeft) == 0 then [OutOfGrenadesSound]
        else if blocked then []
        else [GrenadeTotalText(grenadesLeft), ThrowSound] + (if grenadesLeft == 0 then [ArmHidden] else [])
      ensures maximumGrenades == old(maximumGrenades)
    {
      g := null;
      if grenadesLeft == 0 {
        events := events + [OutOfGrenadesSound];
        return;
      }
      if blocked {
        return;
      }
      g := new Grenade();
      thrownGrenades := thrownGrenades + [g];
      grenadesLeft := grenadesLeft - 1;
      events := events + [GrenadeTotalText(grenadesLeft), ThrowSound];
      if grenadesLeft <= 0 {
        events := events + [ArmHidden];
      }
    }

    /** `DropGrenade()`: the same guards without the sound; a new grenade
        joins the list and the stock drops by one. */
    method DropGrenade(blocked: bool) returns (g: Grenade?)
      requires Valid()
      modifies this
      ensures Valid()
      ensures grenadesLeft == AfterThrow(old(grenadesLeft), blocked)
      ensures !Spawns(old(grenadesLeft), blocked) ==> g == null && thrownGrenades == old(thrownGrenades)
      ensures Spawns(old(grenadesLeft), blocked) ==>
        g != null && fresh(g) && !g.destroyed && g.explosions == 0
        && thrownGrenades == old(thrownGrenades) + [g]
      ensures events == old(events) + if Spawns(old(grenadesLeft), blocked) then [GrenadeTotalText(grenadesLeft)] else []
      ensures maximumGrenades == old(maximumGrenades)
    {
      g := null;
      if grenadesLeft <= 0 {
        return;
      }
      if blocked {
        return;
      }
      g := new Grenade();
      thrownGrenades := thrownGrenades + [g];
      grenadesLeft := grenadesLeft - 1;
      events := events + [GrenadeTotalText(grenadesLeft)];
    }

    /** `DetonateGrenade()`: every grenade on the list is detonated, each one
        still in the world exploding exactly once, and the list is cleared. */
    method DetonateGrenade()
      requires Valid()
      modifies this, thrownGrenades
      ensures Valid()
      ensures thrownGrenades == []
      ensures forall g :: g in old(thrownGrenades) ==> g.destroyed
      ensures forall g :: g in old(thrownGrenades) ==>
        g.explosions == if old(g.destroyed) then old(g.explosions) else old(g.explosions) + 1
      ensures grenadesLeft == old(grenadesLeft) && maximumGrenades == old(maximumGrenades)
      ensures events == old(events)
    {
      var i := 0;
      while i < |thrownGrenades|
        invariant 0 <= i <= |thrownGrenades|
        invariant thrownGrenades == old(thrownGrenades) && Valid()
        invariant grenadesLeft == old(grenadesLeft) && maximumGrenades == old(maximumGrenades)
        invariant events == old(events)
        invariant forall k :: 0 <= k < i ==> thrownGrenades[k].destroyed
        invariant forall k :: 0 <= k < i ==>
          (thrownGrenades[k].explosions ==
           if old(thrownGrenades[k].destroyed) then old(thrownGrenades[k].explosions) else old(thrownGrenades[k].explosions) + 1)
        invariant forall k :: i <= k < |thrownGrenades| ==>
          thrownGrenades[k].destroyed == old(thrownGrenades[k].destroyed)
          && thrownGrenades[k].explosions == old(thrownGrenades[k].explosions)
      {
        thrownGrenades[i].Detonate();
        i := i + 1;
      }
      thrownGrenades := [];
    }
  }

  /** Every grenade thrown came out of the stock: after any run of attempts
      the stock plus the grenades thrown is what the stock was, so the stock
      never underflows. */
  lemma {:induction false} ThrowsConserve(left: UInt32, blocked: seq<bool>)
    ensures Throws(left, blocked).0 + Throws(left, blocked).1 == left
    ensures Throws(left, blocked).1 <= |blocked|
    decreases |blocked|
  {
    if |blocked| > 0 {
      ThrowsConserve(AfterThrow(left, blocked[0]), blocked[1..]);
    }
  }

  /** With every spawn point clear, a run of attempts throws as many grenades
      as it makes attempts or as the stock holds, whichever is fewer, and
      every attempt beyond the stock throws nothing. */
  lemma {:induction false} ClearThrowsSpendStock(left: UInt32, blocked: seq<bool>)
    requires forall i :: 0 <= i < |blocked| ==> !blocked[i]
    ensures Throws(left, blocked).1 == Min(left, |blocked|)
    decreases |blocked|
  {
    if |blocked| > 0 {
      ClearThrowsSpendStock(AfterThrow(left, blocked[0]), blocked[1..]);
    }
  }

  /** An attempt that finds the stock empty, or its spawn point occupied,
      changes nothing; one that succeeds takes exactly one grenade. */
  lemma ThrowAttempt(left: UInt32, blocked: bool)
    ensures left == 0 || blocked ==> AfterThrow(left, blocked) == left && Throws(left, [blocked]).1 == 0
    ensures left > 0 && !blocked ==> AfterThrow(left, blocked) + 1 == left && Throws(left, [blocked]).1 == 1
  {
  }

  /** Neither `AddGrenade` nor `RestoreGrenades(amount)` respects the
      maximum: from any stock, an addition that fits in a `uint` adds
      exactly and passes the maximum whenever the sum does; only an
      overflow wraps, and then the stock drops below where it was. */
  lemma RefillsIgnoreMaximum(left: UInt32, maximum: UInt32, amount: UInt32)
    ensures left + amount <= UINT_MAX ==> WrapUInt32(left + amount) == left + amount
    ensures left + amount <= UINT_MAX && left + amount > maximum ==> WrapUInt32(left + amount) > maximum
    ensures left + amount > UINT_MAX ==> WrapUInt32(left + amount) == left + amount - TWO_32 < left
  {
    if left + amount > UINT_MAX {
      assert (left + amount - TWO_32) % TWO_32 == (left + amount) % TWO_32;
    }
  }
}
