/** The game session: the pause toggle, the end sequence that fades the
    screen to black, and the end of the game with its win or game-over
    dialog. Time scale, the pause menu and the dialogs are fields; the
    player's input handler is the one object the session reaches into.
    Scene loading, the singleton and the music are left to the engine. */
module Session {
  import opened ItemTypes
  import Input
  import Vectors

  datatype SessionEvent =
    | EnemiesDisabled
    | BlackScreen(alpha: real)
    | WinDialogShown
    | GameOverDialogShown
    | MusicStopped

  /** The session's state; `endings` counts the calls of `EndGame`. */
  datatype State = State(
    running: bool,
    pauseMenu: bool,
    fading: bool,
    won: bool,
    alpha: real,
    timeScale: real,
    endings: nat,
    events: seq<SessionEvent>)

  /** `EndGame(won)`: the matching dialog, the music stopped, time frozen
      and the game no longer running. */
  function Ended(s: State, won: bool): State
  {
    s.(running := false, timeScale := 0.0, endings := s.endings + 1,
       events := s.events + [if won then WinDialogShown else GameOverDialogShown, MusicStopped])
  }

  /** `StartEndSequence(won)`: enemies disabled, the fade begins, the outcome recorded. */
  function EndSequenceStarted(s: State, won: bool): State
  {
    s.(fading := true, won := won, events := s.events + [EnemiesDisabled])
  }

  /** `Update` with `fadeToBlackSpeed`: while fading the screen darkens by
      `speed / 255` a frame; the frame that makes it opaque stops the fade
      and ends the game with the recorded outcome. */
  function Faded(s: State, speed: real): State
  {
    if !s.fading then s
    else
      var a := s.alpha + speed / 255.0;
      var s1 := s.(alpha := a, events := s.events + [BlackScreen(a)]);
      if a >= 1.0 then Ended(s1.(fading := false), s1.won) else s1
  }

  /** The pausing half of `TogglePause`. */
  function Paused(s: State): State
  {
    s.(pauseMenu := true, timeScale := 0.0, running := false)
  }

  /** `ResumeGame()`, on the session's own fields. */
  function Resumed(s: State): State
  {
    s.(pauseMenu := false, timeScale := 1.0, running := true)
  }

  /** `TogglePause`: pause a running game, resume any other. */
  function Toggled(s: State): State
  {
    if s.running then Paused(s) else Resumed(s)
  }

  class GameManager {
    const fadeToBlackSpeed: real
    const input: Input.InputHandler
    var running: bool
    var pauseMenu: bool
    var fading: bool
    var won: bool
    var alpha: real
    var timeScale: real
    var endings: nat
    var events: seq<SessionEvent>

    function Snapshot(): State
      reads this
    {
      State(running, pauseMenu, fading, won, alpha, timeScale, endings, events)
    }

    /** The component as its initialisers leave it: running, not fading, transparent. */
    constructor (fadeToBlackSpeed: real, input: Input.InputHandler)
      ensures this.fadeToBlackSpeed == fadeToBlackSpeed && this.input == input
      ensures Snapshot() == State(true, false, false, false, 0.0, 1.0, 0, [])
    {
      this.fadeToBlackSpeed := fadeToBlackSpeed;
      this.input := input;
      running := true;
      pauseMenu := false;
      fading := false;
      won := false;
      alpha := 0.0;
      timeScale := 1.0;
      endings := 0;
      events := [];
    }

    /** `Start`: time runs at normal speed. */
    method Start()
      modifies this
      ensures Snapshot() == old(Snapshot()).(timeScale := 1.0)
    {
      timeScale := 1.0;
    }

    /** `Update`: one frame of the fade. */
    method Update()
      modifies this
      ensures Snapshot() == Faded(old(Snapshot()), fadeToBlackSpeed)
    {
      if fading {
        alpha := alpha + fadeToBlackSpeed / 255.0;
        events := events + [BlackScreen(alpha)];
        if alpha >= 1.0 {
          fading := false;
          EndGame(won);
        }
      }
    }

    /** `StartEndSequence(won)`. */
    method StartEndSequence(gameWon: bool)
      modifies this
      ensures Snapshot() == EndSequenceStarted(old(Snapshot()), gameWon)
    {
      events := events + [EnemiesDisabled];
      fading := true;
      won := gameWon;
    }

    /** `EndGame(won)`. */
    method EndGame(gameWon: bool)
      modifies this
      ensures Snapshot() == Ended(old(Snapshot()), gameWon)
    {
      events := events + [if gameWon then WinDialogShown else GameOverDialogShown, MusicStopped];
      timeScale := 0.0;
      running := false;
      endings := endings + 1;
    }

    /** `ResumeGame()`, with the player's selected item as an input: the
        input handler's component is enabled again, which runs its
        `OnEnable` as written if it was disabled, and re-applies that
        item's actions. */
    method ResumeGame(selected: ItemType)
      modifies this, input
      ensures Snapshot() == Resumed(old(Snapshot()))
      ensures input.Snapshot() == Input.Switched(Input.WithEnabled(old(input.Snapshot()), true), Ord(selected))
      ensures input.handlerCopies == old(input.handlerCopies) + if old(input.componentEnabled) then 0 else 1
    {
      pauseMenu := false;
      timeScale := 1.0;
      running := true;
      input.SetEnabled(true);
      input.SwitchItem(Ord(selected));
    }

    /** `TogglePause`: a running game pauses and its input handler's
        component is disabled; any other game resumes. */
    method TogglePause(selected: ItemType)
      modifies this, input
      ensures Snapshot() == Toggled(old(Snapshot()))
      ensures old(running) ==> input.Snapshot() == Input.WithEnabled(old(input.Snapshot()), false)
      ensures !old(running) ==>
        input.Snapshot() == Input.Switched(Input.WithEnabled(old(input.Snapshot()), true), Ord(selected))
      ensures input.handlerCopies == old(input.handlerCopies) + if old(running) || old(input.componentEnabled) then 0 else 1
    {
      if running {
        pauseMenu := true;
        timeScale := 0.0;
        running := false;
        input.SetEnabled(false);
      } else {
        ResumeGame(selected);
      }
    }
  }

  /** Pausing flips `GameRunning` and stops time; toggling again resumes at
      normal speed with the menu closed. */
  lemma PauseThenResume(s: State)
    requires s.running
    ensures var p := Toggled(s);
      !p.running && p.timeScale == 0.0 && p.pauseMenu
    ensures var r := Toggled(Toggled(s));
      r.running && r.timeScale == 1.0 && !r.pauseMenu
      && r == s.(timeScale := 1.0, pauseMenu := false)
  {
  }

  /** After the game has ended, the pause toggle resumes it: nothing in
      `TogglePause` tells an ended game from a paused one. */
  lemma ToggleAfterEndResumes(s: State, won: bool)
    ensures var r := Toggled(Ended(s, won));
      r.running && r.timeScale == 1.0 && r.endings == s.endings + 1
  {
  }

  /** `n` frames of `Update`. */
  function Frames(s: State, speed: real, n: nat): State
    decreases n
  {
    if n == 0 then s else Faded(Frames(s, speed, n - 1), speed)
  }

  /** Helper: a session that is not fading is left alone by any number of
      frames. */
  lemma {:induction false} IdleFrames(s: State, speed: real, n: nat)
    requires !s.fading
    ensures Frames(s, speed, n) == s
    decreases n
  {
    if n > 0 {
      IdleFrames(s, speed, n - 1);
    }
  }

  /** While the accumulated darkening stays below opaque, the fade goes on:
      alpha has grown by exactly `speed / 255` a frame and the game has not
      ended. */
  lemma {:induction false} FadeContinues(s: State, speed: real, n: nat)
    requires s.fading && speed >= 0.0
    requires s.alpha + (n as real) * (speed / 255.0) < 1.0
    ensures var f := Frames(s, speed, n);
      f.fading && f.alpha == s.alpha + (n as real) * (speed / 255.0)
      && f.endings == s.endings && f.running == s.running && f.won == s.won
    decreases n
  {
    if n > 0 {
      var k := speed / 255.0;
      assert s.alpha + ((n - 1) as real) * k <= s.alpha + (n as real) * k;
      FadeContinues(s, speed, n - 1);
    }
  }

  /** The first frame on which the screen becomes opaque ends the game
      exactly once, with the outcome recorded by `StartEndSequence`, and
      later frames change nothing more. */
  lemma FadeEndsGameOnce(s: State, speed: real, n: nat, later: nat)
    requires s.fading && speed >= 0.0
    requires s.alpha + (n as real) * (speed / 255.0) < 1.0
    requires s.alpha + ((n + 1) as real) * (speed / 255.0) >= 1.0
    ensures var f := Frames(s, speed, n + 1);
      !f.fading && !f.running && f.timeScale == 0.0 && f.endings == s.endings + 1
      && |f.events| >= 2 && f.events[|f.events| - 2] == (if s.won then WinDialogShown else GameOverDialogShown)
    ensures Frames(Frames(s, speed, n + 1), speed, later) == Frames(s, speed, n + 1)
  {
    FadeContinues(s, speed, n);
    IdleFrames(Frames(s, speed, n + 1), speed, later);
  }

  /** The engine enables the player's input handler and the gun is
      selected; then the game is paused and resumed `n` times with the
      pause toggle. Each resume re-enables the handler, whose `OnEnable`
      subscribes the callbacks again, so one shot press fires `onShoot`
      `n + 1` times. */
  method ShotsAfterPauses(n: nat) returns (fired: seq<Input.InputEvent>)
    ensures fired == Input.Repeat([Input.Shot], n + 1)
  {
    var h := new Input.InputHandler();
    h.SetEnabled(true);
    h.SwitchItem(Ord(Gun));
    var g := new GameManager(1.0, h);
    var k := 0;
    while k < n
      invariant 0 <= k <= n
      invariant g.input == h && g.running
      invariant h.componentEnabled && Input.Shoot in h.enabled && h.handlerCopies == k + 1
    {
      g.TogglePause(Gun);
      g.TogglePause(Gun);
      k := k + 1;
    }
    var before := h.events;
    h.Perform(Input.Shoot, Vectors.Zero);
    fired := h.events[|before|..];
  }
}
