/** The player's input handler: which input actions are enabled, the
    per-frame direction events with the up-press/release edge, the aim value
    that lasts one frame, and the `performed` callbacks that turn an enabled
    action into a game event. Device polling is a per-frame parameter. */
module Input {
  import opened CSharpInt
  import opened Vectors

  datatype Action =
    | Move | Aim | Jump | MeleeAttack | Shoot | Reload | GrapplingHookShoot
    | GrapplingHookRelease | GrenadeThrow | GrenadeDrop | GrenadeDetonate
    | ScrollUp | ScrollDown

  /** The `UnityEvent`s the handler invokes. */
  datatype InputEvent =
    | LeftPressed | RightPressed | UpPressed | DownPressed | UpReleased
    | JumpPressed | MeleeAttacked | Shot | Reloaded | GrapplingHookFired
    | GrapplingHookReleased | GrenadeThrown | GrenadeDropped | GrenadeDetonated
    | NextItemSelected | PreviousItemSelected | ItemChanged

  datatype CursorLockMode = CursorNone | CursorLocked | CursorConfined

  /** The actions `SwitchItem` disables before enabling the new item's ones.
      `GrenadeDetonate` is not among them. */
  const SwitchedActions: set<Action> :=
    {MeleeAttack, Shoot, Reload, GrapplingHookShoot, GrapplingHookRelease, GrenadeThrow, GrenadeDrop}

  /** The actions `OnEnable` enables. */
  const AlwaysOnActions: set<Action> := {Move, Aim, Jump, ScrollUp, ScrollDown}

  /** The actions `SwitchItem(number)` enables. */
  function ActionsFor(number: int): set<Action>
  {
    if number == 1 then {MeleeAttack}
    else if number == 2 then {Shoot, Reload}
    else if number == 3 then {GrenadeThrow, GrenadeDrop, GrenadeDetonate}
    else if number == 4 then {GrapplingHookShoot, GrapplingHookRelease}
    else {}
  }

  /** The enabled set after `SwitchItem(number)`, characterised action by action. */
  function AfterSwitch(enabled: set<Action>, number: int): (r: set<Action>)
    ensures (MeleeAttack in r) == (number == 1)
    ensures (Shoot in r) == (number == 2) && (Reload in r) == (number == 2)
    ensures (GrenadeThrow in r) == (number == 3) && (GrenadeDrop in r) == (number == 3)
    ensures (GrapplingHookShoot in r) == (number == 4) && (GrapplingHookRelease in r) == (number == 4)
    ensures (GrenadeDetonate in r) == (GrenadeDetonate in enabled || number == 3)
    ensures forall a :: a !in SwitchedActions && a != GrenadeDetonate ==> (a in r <==> a in enabled)
  {
    (enabled - SwitchedActions) + ActionsFor(number)
  }

  /** The cursor mode after `SwitchItem(number)`. */
  function CursorAfterSwitch(mode: CursorLockMode, number: int): CursorLockMode
  {
    if number == 2 then CursorLocked else if number == 4 then CursorNone else mode
  }

  /** One frame of the up-press edge detector: the new `upPressed` and
      whether `onUpReleased` fires. */
  function UpFrame(upPressed: bool, y: real): (bool, bool)
  {
    var up := if y > 0.0 then true else upPressed;
    if up && y <= 0.0 then (false, true) else (up, false)
  }

  /** The direction events of one frame, in the order `Update` invokes them. */
  function DirectionEvents(upPressed: bool, move: Vec2): seq<InputEvent>
  {
    (if move.x < 0.0 then [LeftPressed] else [])
    + (if move.x > 0.0 then [RightPressed] else [])
    + (if move.y > 0.0 then [UpPressed] else [])
    + (if move.y < 0.0 then [DownPressed] else [])
    + (if UpFrame(upPressed, move.y).1 then [UpReleased] else [])
  }

  /** The event a `performed` callback of `a` invokes, if `a` has one that does. */
  function PerformedEvent(a: Action): seq<InputEvent>
  {
    match a
    case Jump => [JumpPressed]
    case MeleeAttack => [MeleeAttacked]
    case Shoot => [Shot]
    case Reload => [Reloaded]
    case GrapplingHookShoot => [GrapplingHookFired]
    case GrapplingHookRelease => [GrapplingHookReleased]
    case GrenadeThrow => [GrenadeThrown]
    case GrenadeDrop => [GrenadeDropped]
    case GrenadeDetonate => [GrenadeDetonated]
    case ScrollUp => [PreviousItemSelected]
    case ScrollDown => [NextItemSelected]
    case _ => []
  }

  /** `s` repeated `n` times: each subscribed copy of a callback runs once. */
  function Repeat(s: seq<InputEvent>, n: nat): (r: seq<InputEvent>)
    ensures |r| == n * |s|
  {
    if n == 0 then [] else s + Repeat(s, n - 1)
  }

  /** The handler's fields. */
  datatype HandlerState = HandlerState(
    enabled: set<Action>,
    componentEnabled: bool,
    moveDirection: Vec2,
    aimInput: Vec2,
    upPressed: bool,
    cursor: CursorLockMode,
    handlerCopies: nat,
    events: seq<InputEvent>)

  /** `OnEnable` as written: the always-on actions are enabled and one more
      copy of every `performed` callback is subscribed. */
  function Subscribed(s: HandlerState): HandlerState
  {
    s.(enabled := s.enabled + AlwaysOnActions, handlerCopies := s.handlerCopies + 1)
  }

  /** `OnEnable` subscribing its callbacks only the first time. */
  function SubscribedOnce(s: HandlerState): HandlerState
  {
    s.(enabled := s.enabled + AlwaysOnActions, handlerCopies := if s.handlerCopies == 0 then 1 else s.handlerCopies)
  }

  /** `OnDisable`: every action is disabled; the callbacks stay subscribed. */
  function Disabled(s: HandlerState): HandlerState
  {
    s.(enabled := {})
  }

  /** Setting the component's `enabled` flag: the engine runs `OnEnable` or
      `OnDisable` only when the flag changes. */
  function WithEnabled(s: HandlerState, on: bool): HandlerState
  {
    if on == s.componentEnabled then s
    else if on then Subscribed(s).(componentEnabled := true)
    else Disabled(s).(componentEnabled := false)
  }

  /** The same, with the subscribe-once `OnEnable`. */
  function WithEnabledOnce(s: HandlerState, on: bool): HandlerState
  {
    if on == s.componentEnabled then s
    else if on then SubscribedOnce(s).(componentEnabled := true)
    else Disabled(s).(componentEnabled := false)
  }

  /** `SwitchItem(number)`. */
  function Switched(s: HandlerState, number: int): HandlerState
  {
    s.(enabled := AfterSwitch(s.enabled, number), cursor := CursorAfterSwitch(s.cursor, number),
       events := s.events + [ItemChanged])
  }

  /** The events one `performed` of `a` fires: one per subscribed copy, if
      `a` is enabled. */
  function Fired(s: HandlerState, a: Action): seq<InputEvent>
  {
    if a in s.enabled then Repeat(PerformedEvent(a), s.handlerCopies) else []
  }

  class InputHandler {
    var enabled: set<Action>
    /** The component's own `enabled` flag. */
    var componentEnabled: bool
    var moveDirection: Vec2
    var aimInput: Vec2
    var upPressed: bool
    var cursor: CursorLockMode
    /** How many copies of each `performed` callback are subscribed. */
    var handlerCopies: nat
    var events: seq<InputEvent>

    function Snapshot(): HandlerState
      reads this
    {
      HandlerState(enabled, componentEnabled, moveDirection, aimInput, upPressed, cursor, handlerCopies, events)
    }

    /** `Awake`: fresh controls, nothing enabled or subscribed. The engine
        then enables the component, which is `SetEnabled(true)`. */
    constructor ()
      ensures enabled == {} && !componentEnabled && handlerCopies == 0 && !upPressed
      ensures moveDirection == Zero && aimInput == Zero && cursor == CursorNone && events == []
    {
      enabled := {};
      componentEnabled := false;
      moveDirection := Zero;
      aimInput := Zero;
      upPressed := false;
      cursor := CursorNone;
      handlerCopies := 0;
      events := [];
    }

    /** `OnEnable` as written: enables movement, aim, jump and the item
        scroll, and subscribes one more copy of every `performed` callback. */
    method OnEnable()
      modifies this
      ensures Snapshot() == Subscribed(old(Snapshot()))
      ensures handlerCopies == old(handlerCopies) + 1
    {
      enabled := enabled + AlwaysOnActions;
      handlerCopies := handlerCopies + 1;
    }

    /** `OnEnable` subscribing its callbacks only the first time. */
    method OnEnableOnce()
      modifies this
      ensures Snapshot() == SubscribedOnce(old(Snapshot()))
      ensures handlerCopies == if old(handlerCopies) == 0 then 1 else old(handlerCopies)
    {
      enabled := enabled + AlwaysOnActions;
      if handlerCopies == 0 {
        handlerCopies := 1;
      }
    }

    /** `OnDisable`: every action is disabled; the callbacks stay subscribed. */
    method OnDisable()
      modifies this
      ensures Snapshot() == Disabled(old(Snapshot()))
      ensures enabled == {}
    {
      enabled := {};
    }

    /** `enabled = on`, with `OnEnable` as written. */
    method SetEnabled(on: bool)
      modifies this
      ensures Snapshot() == WithEnabled(old(Snapshot()), on)
      ensures componentEnabled == on
      ensures handlerCopies == old(handlerCopies) + if on && !old(componentEnabled) then 1 else 0
    {
      if on && !componentEnabled {
        OnEnable();
      } else if !on && componentEnabled {
        OnDisable();
      }
      componentEnabled := on;
    }

    /** `enabled = on`, with the subscribe-once `OnEnable`. */
    method SetEnabledOnce(on: bool)
      modifies this
      ensures Snapshot() == WithEnabledOnce(old(Snapshot()), on)
      ensures componentEnabled == on
      ensures handlerCopies == if on && !old(componentEnabled) && old(handlerCopies) == 0 then 1 else old(handlerCopies)
    {
      if on && !componentEnabled {
        OnEnableOnce();
      } else if !on && componentEnabled {
        OnDisable();
      }
      componentEnabled := on;
    }

    /** `Start`: shooting and reloading start disabled. */
    method Start()
      modifies this
      ensures enabled == old(enabled) - {Shoot, Reload}
      ensures handlerCopies == old(handlerCopies) && componentEnabled == old(componentEnabled)
      ensures moveDirection == old(moveDirection) && aimInput == old(aimInput)
      ensures upPressed == old(upPressed) && cursor == old(cursor) && events == old(events)
    {
      enabled := enabled - {Shoot, Reload};
    }

    /** `Update`: reads the movement value and fires the direction events. */
    method Update(move: Vec2)
      modifies this
      ensures moveDirection == move
      ensures upPressed == UpFrame(old(upPressed), move.y).0
      ensures events == old(events) + DirectionEvents(old(upPressed), move)
      ensures enabled == old(enabled) && aimInput == old(aimInput)
      ensures handlerCopies == old(handlerCopies) && cursor == old(cursor) && componentEnabled == old(componentEnabled)
    {
      moveDirection := move;
      var fired: seq<InputEvent> := [];
      if move.x < 0.0 {
        fired := fired + [LeftPressed];
      }
      if move.x > 0.0 {
        fired := fired + [RightPressed];
      }
      var up := upPressed;
      if move.y > 0.0 {
        up := true;
        fired := fired + [UpPressed];
      }
      if move.y < 0.0 {
        fired := fired + [DownPressed];
      }
      if up && move.y <= 0.0 {
        fired := fired + [UpReleased];
        up := false;
      }
      upPressed := up;
      events := events + fired;
    }

    /** `LateUpdate`: the aim value lasts one frame. */
    method LateUpdate()
      modifies this
      ensures aimInput == Zero
      ensures enabled == old(enabled) && moveDirection == old(moveDirection) && upPressed == old(upPressed)
      ensures handlerCopies == old(handlerCopies) && cursor == old(cursor) && events == old(events)
      ensures componentEnabled == old(componentEnabled)
    {
      aimInput := Zero;
    }

    /** An action's `performed` callbacks run, once per subscribed copy, if
        the action is enabled; the aim callback stores the aim value. */
    method Perform(a: Action, value: Vec2)
      modifies this
      ensures events == old(events) + Fired(old(Snapshot()), a)
      ensures aimInput == if a == Aim && a in old(enabled) && handlerCopies > 0 then value else old(aimInput)
      ensures enabled == old(enabled) && moveDirection == old(moveDirection) && upPressed == old(upPressed)
      ensures handlerCopies == old(handlerCopies) && cursor == old(cursor) && componentEnabled == old(componentEnabled)
    {
      if a in enabled {
        var k := 0;
        while k < handlerCopies
          invariant 0 <= k <= handlerCopies
          invariant events == old(events) + Repeat(PerformedEvent(a), k)
          invariant aimInput == if a == Aim && k > 0 then value else old(aimInput)
          invariant enabled == old(enabled) && moveDirection == old(moveDirection) && upPressed == old(upPressed)
          invariant cursor == old(cursor) && handlerCopies == old(handlerCopies)
          invariant componentEnabled == old(componentEnabled)
        {
          RepeatSnoc(PerformedEvent(a), k);
          events := events + PerformedEvent(a);
          if a == Aim {
            aimInput := value;
          }
          k := k + 1;
        }
      }
    }

    /** `SwitchItem(number)`: disables every item action except detonation,
        enables the ones of item `number`, sets the cursor mode for the gun
        and the grappling hook, and fires `onItemChanged`. */
    method SwitchItem(number: Int32)
      modifies this
      ensures Snapshot() == Switched(old(Snapshot()), number)
      ensures enabled == AfterSwitch(old(enabled), number)
    {
      enabled := enabled - SwitchedActions;
      if number == 1 {
        enabled := enabled + {MeleeAttack};
      } else if number == 2 {
        enabled := enabled + {Shoot, Reload};
        cursor := CursorLocked;
      } else if number == 3 {
        enabled := enabled + {GrenadeThrow, GrenadeDrop, GrenadeDetonate};
      } else if number == 4 {
        enabled := enabled + {GrapplingHookShoot, GrapplingHookRelease};
        cursor := CursorNone;
      }
      events := events + [ItemChanged];
    }
  }

  lemma {:induction false} RepeatSnoc(s: seq<InputEvent>, n: nat)
    ensures Repeat(s, n + 1) == Repeat(s, n) + s
  {
    if n > 0 {
      RepeatSnoc(s, n - 1);
    }
  }

  /** Once `SwitchItem(3)` has enabled detonation, no later `SwitchItem`
      disables it. */
  lemma {:induction false} DetonateStaysEnabled(enabled: set<Action>, numbers: seq<int>)
    requires GrenadeDetonate in enabled
    ensures GrenadeDetonate in SwitchAll(enabled, numbers)
    decreases |numbers|
  {
    if |numbers| > 0 {
      DetonateStaysEnabled(AfterSwitch(enabled, numbers[0]), numbers[1..]);
    }
  }

  /** The enabled set after a run of `SwitchItem` calls. */
  function SwitchAll(enabled: set<Action>, numbers: seq<int>): set<Action>
    decreases |numbers|
  {
    if |numbers| == 0 then enabled else SwitchAll(AfterSwitch(enabled, numbers[0]), numbers[1..])
  }

  /** The `onUpReleased` flags of a run of frames with vertical inputs `ys`,
      starting from `upPressed`. */
  function Releases(upPressed: bool, ys: seq<real>): (r: seq<bool>)
    ensures |r| == |ys|
    decreases |ys|
  {
    if |ys| == 0 then []
    else
      var (up, released) := UpFrame(upPressed, ys[0]);
      [released] + Releases(up, ys[1..])
  }

  /** After any frame `upPressed` holds exactly when that frame's input points up. */
  lemma UpPressedIsCurrentUp(upPressed: bool, y: real)
    ensures UpFrame(upPressed, y).0 == (y > 0.0)
    ensures UpFrame(upPressed, y).1 == (upPressed && y <= 0.0)
  {
  }

  /** `onUpReleased` fires on frame `k` exactly when the input stops pointing
      up there: once per up-press episode, on its first frame without up. */
  lemma {:induction false} ReleaseOnFallingEdge(upPressed: bool, ys: seq<real>, k: nat)
    requires k < |ys|
    ensures Releases(upPressed, ys)[k] ==
      ((if k == 0 then upPressed else ys[k - 1] > 0.0) && ys[k] <= 0.0)
    decreases k
  {
    UpPressedIsCurrentUp(upPressed, ys[0]);
    if k > 0 {
      ReleaseOnFallingEdge(UpFrame(upPressed, ys[0]).0, ys[1..], k - 1);
    }
  }

  /** The engine enables a fresh handler, the gun is selected, and the game
      is paused and resumed `n` times, each resume re-enabling the handler
      and switching back to the gun. With `OnEnable` as written every resume
      subscribes one more copy of each callback, so a single shot press
      then fires `onShoot` `n + 1` times. */
  method ShotsAfterReenabling(n: nat) returns (fired: seq<InputEvent>)
    ensures fired == Repeat([Shot], n + 1)
  {
    var h := new InputHandler();
    h.SetEnabled(true);
    h.SwitchItem(2);
    var k := 0;
    while k < n
      invariant 0 <= k <= n
      invariant h.componentEnabled && Shoot in h.enabled && h.handlerCopies == k + 1
    {
      h.SetEnabled(false);
      h.SetEnabled(true);
      h.SwitchItem(2);
      k := k + 1;
    }
    var before := h.events;
    h.Perform(Shoot, Zero);
    fired := h.events[|before|..];
  }

  /** With callbacks subscribed once, the same run leaves one `onShoot` per
      press however many times the game was paused. */
  method ShotsAfterReenablingOnce(n: nat) returns (fired: seq<InputEvent>)
    ensures fired == [Shot]
  {
    var h := new InputHandler();
    h.SetEnabledOnce(true);
    h.SwitchItem(2);
    var k := 0;
    while k < n
      invariant 0 <= k <= n
      invariant h.componentEnabled && Shoot in h.enabled && h.handlerCopies == 1
    {
      h.SetEnabledOnce(false);
      h.SetEnabledOnce(true);
      h.SwitchItem(2);
      k := k + 1;
    }
    var before := h.events;
    h.Perform(Shoot, Zero);
    fired := h.events[|before|..];
    assert Repeat([Shot], 1) == [Shot] + Repeat([Shot], 0);
  }
}
