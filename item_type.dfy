/** The `ItemType` enum of the player's controller and the cyclic item
    selection of `NextItem` / `PreviousItem`. The selection walks the enum's
    integer values, skipping items the player has not unlocked; `None` is
    always accepted, which is what ends the walk. */
module ItemTypes {

  datatype ItemType = None | MeleeWeapon | Gun | Grenade | GrapplingHook | GasMask

  /** The enum's integer value, `(int)item`. */
  function Ord(i: ItemType): (n: nat)
    ensures n <= 5
    ensures (n == 0) == (i == None)
  {
    match i
    case None => 0
    case MeleeWeapon => 1
    case Gun => 2
    case Grenade => 3
    case GrapplingHook => 4
    case GasMask => 5
  }

  function FromOrd(n: nat): (i: ItemType)
    requires n <= 5
    ensures Ord(i) == n
  {
    if n == 0 then None
    else if n == 1 then MeleeWeapon
    else if n == 2 then Gun
    else if n == 3 then Grenade
    else if n == 4 then GrapplingHook
    else GasMask
  }

  /** Helper: items with the same value are the same item. */
  lemma OrdInjective(i: ItemType, j: ItemType)
    requires Ord(i) == Ord(j)
    ensures i == j
  {
  }

  /** `itemSelected++` followed by `if ((int)itemSelected > 4) itemSelected = None`. */
  function Succ(i: ItemType): (r: ItemType)
    ensures r != GasMask
    ensures Ord(i) < 4 ==> Ord(r) == Ord(i) + 1
    ensures Ord(i) >= 4 ==> r == None
  {
    if Ord(i) + 1 > 4 then None else FromOrd(Ord(i) + 1)
  }

  /** `itemSelected--` followed by `if ((int)itemSelected < 0) itemSelected = GrapplingHook`. */
  function Pred(i: ItemType): (r: ItemType)
    ensures r != GasMask
    ensures i == None ==> r == GrapplingHook
    ensures i != None ==> Ord(r) == Ord(i) - 1
  {
    if Ord(i) - 1 < 0 then GrapplingHook else FromOrd(Ord(i) - 1)
  }

  /** The `enableMelee`, `enableGun`, `enableGrenade` and `enableGrapplingHook` flags. */
  datatype Abilities = Abilities(melee: bool, gun: bool, grenade: bool, grapplingHook: bool)

  /** Whether the `switch` in `NextItem` / `PreviousItem` selects `i` (rather than
      moving on): `None` always, a weapon when its ability is enabled. `GasMask`
      has no case, but neither step ever produces it. */
  predicate Accepts(ab: Abilities, i: ItemType)
  {
    match i
    case None => true
    case MeleeWeapon => ab.melee
    case Gun => ab.gun
    case Grenade => ab.grenade
    case GrapplingHook => ab.grapplingHook
    case GasMask => false
  }

  /** The position in the forward walk from which no step is left: `None`
      ends the walk, every other value is followed by larger ones. */
  function Upper(r: ItemType): nat
  {
    if r == None then 5 else Ord(r)
  }

  /** The item `NextItem` settles on: the first enabled weapon after `cur`
      in enum order, or `None` when there is none. */
  function NextSelected(ab: Abilities, cur: ItemType): (r: ItemType)
    ensures Accepts(ab, r)
    ensures r == None || Ord(cur) < Ord(r) <= 4
    ensures forall i :: Ord(cur) < Ord(i) < Upper(r) ==> !Accepts(ab, i)
    decreases 5 - Ord(cur)
  {
    var cand := Succ(cur);
    if Accepts(ab, cand) then cand else NextSelected(ab, cand)
  }

  /** The position in the backward walk from which it starts: from `None`
      (and from `GasMask`) it wraps to `GrapplingHook`. */
  function Lower(cur: ItemType): nat
  {
    if cur == None then 5 else Ord(cur)
  }

  /** The item `PreviousItem` settles on: the last enabled weapon before
      `cur` in enum order (before the end, when `cur` is `None`), or `None`. */
  function PreviousSelected(ab: Abilities, cur: ItemType): (r: ItemType)
    ensures Accepts(ab, r)
    ensures r == None || Ord(r) < Lower(cur)
    ensures r != GasMask
    ensures forall i :: Ord(r) < Ord(i) < Lower(cur) ==> !Accepts(ab, i)
    decreases Lower(cur)
  {
    var cand := Pred(cur);
    if Accepts(ab, cand) then cand else PreviousSelected(ab, cand)
  }

  /** With every weapon unlocked the forward walk is the full cycle
      None -> MeleeWeapon -> Gun -> Grenade -> GrapplingHook -> None. */
  lemma NextCycleAllEnabled()
    ensures var ab := Abilities(true, true, true, true);
      && NextSelected(ab, None) == MeleeWeapon
      && NextSelected(ab, MeleeWeapon) == Gun
      && NextSelected(ab, Gun) == Grenade
      && NextSelected(ab, Grenade) == GrapplingHook
      && NextSelected(ab, GrapplingHook) == None
  {
  }

  /** With every weapon unlocked the backward walk is the mirror cycle. */
  lemma PreviousCycleAllEnabled()
    ensures var ab := Abilities(true, true, true, true);
      && PreviousSelected(ab, None) == GrapplingHook
      && PreviousSelected(ab, GrapplingHook) == Grenade
      && PreviousSelected(ab, Grenade) == Gun
      && PreviousSelected(ab, Gun) == MeleeWeapon
      && PreviousSelected(ab, MeleeWeapon) == None
  {
  }

  /** A selectable item is one the walk can stop on and that the walk itself
      can produce. */
  predicate Selectable(ab: Abilities, i: ItemType)
  {
    i != GasMask && Accepts(ab, i)
  }

  /** `PreviousItem` undoes `NextItem` from any selectable item. */
  lemma {:induction false} PreviousUndoesNext(ab: Abilities, cur: ItemType)
    requires Selectable(ab, cur)
    ensures PreviousSelected(ab, NextSelected(ab, cur)) == cur
  {
    var n := NextSelected(ab, cur);
    var p := PreviousSelected(ab, n);
    // cur is accepted and lies below n, so the backward walk from n cannot pass it ...
    assert Ord(cur) < Lower(n);
    assert Ord(cur) <= Ord(p);
    // ... and nothing accepted lies strictly between cur and n, so it stops at cur.
    assert Ord(p) <= Ord(cur);
    OrdInjective(p, cur);
  }

  /** `NextItem` undoes `PreviousItem` from any selectable item. */
  lemma {:induction false} NextUndoesPrevious(ab: Abilities, cur: ItemType)
    requires Selectable(ab, cur)
    ensures NextSelected(ab, PreviousSelected(ab, cur)) == cur
  {
    var p := PreviousSelected(ab, cur);
    var n := NextSelected(ab, p);
    if cur == None {
      // No weapon is accepted above p, so the forward walk runs off the end.
      assert n == None;
    } else {
      assert Ord(p) < Ord(cur);
      assert n != None && Ord(n) <= Ord(cur);
      assert Ord(cur) <= Ord(n);
      OrdInjective(n, cur);
    }
  }
}
