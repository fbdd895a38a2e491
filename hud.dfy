/** The heads-up display: the heart bar drawn from the player's health and
    the selected-item panel. Only the state the display logic writes is
    kept: each heart icon's visibility and sprite, the item label, whether
    the item icon is shown and which sprite it carries, and whether the
    grenade total is shown. */
module Hud {
  import opened CSharpInt
  import opened ItemTypes

  datatype HeartSprite = EmptyHeart | QuarterHeart | HalfHeart | ThreeQuarterHeart | FullHeart

  /** One `Image` of the heart bar: `gameObject.activeSelf` and `sprite`. */
  datatype HeartIcon = HeartIcon(active: bool, sprite: HeartSprite)

  datatype ItemIcon = NoIcon | MeleeIcon | GunIcon | GrenadeIcon | GrapplingHookIcon

  /** How many quarters of health a sprite shows. */
  function Quarters(s: HeartSprite): nat
  {
    match s
    case EmptyHeart => 0
    case QuarterHeart => 1
    case HalfHeart => 2
    case ThreeQuarterHeart => 3
    case FullHeart => 4
  }

  /** `(int) Mathf.Floor(health / 4)`: the integer division has already
      truncated toward zero, so the floor changes nothing. */
  function FilledHearts(health: int): int
  {
    TruncDiv(health, 4)
  }

  /** `health % 4`, negative for negative health. */
  function Remainder(health: int): int
  {
    TruncRem(health, 4)
  }

  /** `maxHealth / 4`, raised to 1 when it is 0. */
  function MaxHearts(maxHealth: int): int
  {
    var q := TruncDiv(maxHealth, 4);
    if q == 0 then 1 else q
  }

  /** The sprite the remainder overwrites the partly filled heart with, if any. */
  function PartialSprite(remainder: int): (s: HeartSprite)
    requires 1 <= remainder <= 3
    ensures Quarters(s) == remainder
  {
    if remainder == 1 then QuarterHeart
    else if remainder == 2 then HalfHeart
    else ThreeQuarterHeart
  }

  /** Icon `i` as the `for` loop leaves it. */
  function LoopIcon(i: int, health: int): HeartIcon
  {
    HeartIcon(true, if i < FilledHearts(health) then FullHeart else EmptyHeart)
  }

  /** Whether `SetHealthDisplay` runs to the end without indexing past the
      array: the loop needs `maxHearts` icons, and a non-zero remainder
      needs icon `filledHearts`. */
  predicate DisplayFits(health: int, maxHealth: int, length: nat)
  {
    && MaxHearts(maxHealth) <= length
    && (1 <= Remainder(health) <= 3 ==> FilledHearts(health) < length)
  }

  /** The icons after `SetHealthDisplay`. When the loop overruns the array
      the exception leaves every icon it reached written and skips the
      remainder; when only the remainder write overruns, the loop's writes
      stand. */
  function Displayed(icons: seq<HeartIcon>, health: int, maxHealth: int): (r: seq<HeartIcon>)
    ensures |r| == |icons|
  {
    var looped := seq(|icons|, j requires 0 <= j < |icons| =>
      if j < MaxHearts(maxHealth) then LoopIcon(j, health) else icons[j]);
    var f := FilledHearts(health);
    if MaxHearts(maxHealth) <= |icons| && 1 <= Remainder(health) <= 3 && f < |icons| then
      looped[f := looped[f].(sprite := PartialSprite(Remainder(health)))]
    else
      looped
  }

  /** The quarters shown by the visible icons among the first `n`. */
  function ShownQuarters(icons: seq<HeartIcon>, n: nat): nat
    requires n <= |icons|
  {
    if n == 0 then 0
    else ShownQuarters(icons, n - 1) + (if icons[n - 1].active then Quarters(icons[n - 1].sprite) else 0)
  }

  /** The label `SetItem` writes. */
  function ItemLabel(item: ItemType): string
  {
    match item
    case MeleeWeapon => "Melee"
    case Gun => "Shotgun"
    case Grenade => "Grenade"
    case GrapplingHook => "Grappling Hook"
    case _ => "None"
  }

  /** The sprite `SetItem` puts on the item icon, or `NoIcon` when it leaves it alone. */
  function ItemSprite(item: ItemType): ItemIcon
  {
    match item
    case MeleeWeapon => MeleeIcon
    case Gun => GunIcon
    case Grenade => GrenadeIcon
    case GrapplingHook => GrapplingHookIcon
    case _ => NoIcon
  }

  /** The four items that are drawn with an icon. */
  predicate HasIcon(item: ItemType)
  {
    item in {MeleeWeapon, Gun, Grenade, GrapplingHook}
  }

  class HUD {
    var heartIcons: array<HeartIcon>
    var itemText: string
    var itemIconActive: bool
    var itemIconSprite: ItemIcon
    var grenadeTotalVisible: bool

    constructor (icons: array<HeartIcon>)
      ensures heartIcons == icons
      ensures itemText == "None" && !itemIconActive && itemIconSprite == NoIcon && !grenadeTotalVisible
    {
      heartIcons := icons;
      itemText := "None";
      itemIconActive := false;
      itemIconSprite := NoIcon;
      grenadeTotalVisible := false;
    }

    /** Draws the heart bar. `ok` is false when the source would throw
        `IndexOutOfRangeException`; the writes made before the throw stay. */
    method SetHealthDisplay(health: Int32, maxHealth: Int32) returns (ok: bool)
      modifies heartIcons
      ensures ok == DisplayFits(health, maxHealth, heartIcons.Length)
      ensures heartIcons[..] == Displayed(old(heartIcons[..]), health, maxHealth)
    {
      ghost var before := heartIcons[..];
      var filledHearts := TruncDiv(health, 4);
      var maxHearts := TruncDiv(maxHealth, 4);
      if maxHearts == 0 {
        maxHearts := 1;
      }
      var i := 0;
      while i < maxHearts
        invariant 0 <= i <= heartIcons.Length
        invariant maxHearts == MaxHearts(maxHealth)
        invariant i <= maxHearts || i == 0
        invariant forall j :: 0 <= j < heartIcons.Length ==>
          heartIcons[j] == (if j < i then LoopIcon(j, health) else before[j])
        decreases maxHearts - i
      {
        if i >= heartIcons.Length {
          ok := false;
          return;
        }
        heartIcons[i] := HeartIcon(true, if i < filledHearts then FullHeart else EmptyHeart);
        i := i + 1;
      }
      ghost var looped := heartIcons[..];
      assert forall j :: 0 <= j < |before| ==> looped[j] == (if j < MaxHearts(maxHealth) then LoopIcon(j, health) else before[j]);
      var remainder := TruncRem(health, 4);
      if 1 <= remainder <= 3 {
        if filledHearts >= heartIcons.Length {
          ok := false;
          return;
        }
        heartIcons[filledHearts] := heartIcons[filledHearts].(sprite := PartialSprite(remainder));
        assert heartIcons[..] == looped[filledHearts := looped[filledHearts].(sprite := PartialSprite(remainder))];
      }
      ok := true;
    }

    /** Shows the selected item's label and icon. */
    method SetItem(item: ItemType)
      modifies this
      ensures itemText == ItemLabel(item)
      ensures itemIconActive == HasIcon(item)
      ensures itemIconSprite == if HasIcon(item) then ItemSprite(item) else old(itemIconSprite)
      ensures grenadeTotalVisible == (item == Grenade)
      ensures heartIcons == old(heartIcons)
    {
      if !itemIconActive && item != None {
        itemIconActive := true;
      }
      match item {
        case MeleeWeapon =>
          itemText := "Melee";
          itemIconSprite := MeleeIcon;
        case Gun =>
          itemText := "Shotgun";
          itemIconSprite := GunIcon;
        case Grenade =>
          itemText := "Grenade";
          itemIconSprite := GrenadeIcon;
        case GrapplingHook =>
          itemText := "Grappling Hook";
          itemIconSprite := GrapplingHookIcon;
        case _ =>
          itemIconActive := false;
          itemText := "None";
      }
      grenadeTotalVisible := item == Grenade;
    }
  }

  /** `filledHearts` and `remainder` split non-negative health into whole and
      partial hearts: `health == 4 * filledHearts + remainder` with the
      remainder a quarter count. */
  lemma HealthSplit(health: int)
    requires health >= 0
    ensures health == 4 * FilledHearts(health) + Remainder(health)
    ensures 0 <= Remainder(health) < 4 && FilledHearts(health) == health / 4
  {
  }

  /** Negative health draws only empty hearts: its remainder is never 1 to 3. */
  lemma NegativeHealthNoPartial(health: int)
    requires health < 0
    ensures !(1 <= Remainder(health) <= 3)
    ensures FilledHearts(health) <= 0
  {
  }

  /** Helper: the quarters shown by the first `k` heart icons. */
  lemma {:induction false} ShownPrefix(icons: seq<HeartIcon>, health: int, maxHealth: int, k: nat)
    requires MaxHearts(maxHealth) <= |icons|
    requires 0 <= health <= 4 * MaxHearts(maxHealth)
    requires k <= MaxHearts(maxHealth)
    ensures var d := Displayed(icons, health, maxHealth);
      var f := FilledHearts(health);
      ShownQuarters(d, k) ==
        4 * Min(k, f) + (if Remainder(health) != 0 && f < k then Remainder(health) else 0)
  {
    var d := Displayed(icons, health, maxHealth);
    var f := FilledHearts(health);
    HealthSplit(health);
    if k > 0 {
      ShownPrefix(icons, health, maxHealth, k - 1);
      assert d[k - 1].active;
      if k - 1 < f {
        assert d[k - 1].sprite == FullHeart;
      } else if k - 1 == f && Remainder(health) != 0 {
        assert Quarters(d[k - 1].sprite) == Remainder(health);
      } else {
        assert d[k - 1].sprite == EmptyHeart;
      }
    }
  }

  /** When health fits the bar, the visible hearts show exactly `health`
      quarters, and the draw does not throw. */
  lemma HeartsShowHealth(icons: seq<HeartIcon>, health: int, maxHealth: int)
    requires MaxHearts(maxHealth) <= |icons|
    requires 0 <= health <= 4 * MaxHearts(maxHealth)
    ensures DisplayFits(health, maxHealth, |icons|)
    ensures ShownQuarters(Displayed(icons, health, maxHealth), MaxHearts(maxHealth)) == health
  {
    HealthSplit(health);
    ShownPrefix(icons, health, maxHealth, MaxHearts(maxHealth));
  }

  /** Each drawn heart is full iff its index is below `filledHearts`, except
      the partly filled one, whose sprite shows the remainder. */
  lemma LoopedIcons(icons: seq<HeartIcon>, health: int, maxHealth: int, i: int)
    requires 0 <= i < |icons| && i < MaxHearts(maxHealth)
    ensures var d := Displayed(icons, health, maxHealth);
      && d[i].active
      && (i < FilledHearts(health) ==> d[i].sprite == FullHeart)
      && (i > FilledHearts(health) ==> d[i].sprite == EmptyHeart)
      && (i == FilledHearts(health) ==>
            d[i].sprite == (if 1 <= Remainder(health) <= 3 && MaxHearts(maxHealth) <= |icons|
                            then PartialSprite(Remainder(health)) else EmptyHeart))
  {
  }

  /** With `maxHealth` not a multiple of 4 the partial heart lands outside
      the bar: for `maxHealth == 6` and `health == 5` only one heart is
      activated, and the quarter sprite goes to icon 1, which this call
      leaves hidden when it was hidden. */
  lemma PartialHeartOutsideBar(icons: seq<HeartIcon>)
    requires |icons| == 3 && !icons[1].active
    ensures MaxHearts(6) == 1
    ensures DisplayFits(5, 6, |icons|)
    ensures var d := Displayed(icons, 5, 6);
      d[1] == HeartIcon(false, QuarterHeart) && ShownQuarters(d, 2) == 4
  {
    var d := Displayed(icons, 5, 6);
    assert d[0] == HeartIcon(true, FullHeart);
    assert ShownQuarters(d, 1) == 4;
  }

  /** The label names the item: distinct items with an icon get distinct
      labels, and "None" is the label of exactly the items without one. */
  lemma LabelIdentifiesItem(a: ItemType, b: ItemType)
    ensures HasIcon(a) && HasIcon(b) && ItemLabel(a) == ItemLabel(b) ==> a == b
    ensures (ItemLabel(a) == "None") == !HasIcon(a)
  {
  }
}
