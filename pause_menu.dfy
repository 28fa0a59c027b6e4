/**
 * The game's run-time state: the pause toggle with the flags derived from it,
 * the escape-key handler and the per-frame speed selection
 * (dungeon_maze.py, lines 42-72 and 148-171).
 *
 * The script keeps this state in module globals (`paused`, `player`) and in
 * engine singletons (`pause_menu`, `application`, `mouse`); here it is the
 * fields of one `Game` object and of its optional `Player`. Each mutating
 * method is specified by a pure function on `GameState`, a value snapshot of
 * those fields, and the properties are proved about the pure functions.
 */
module PauseMenu {
  import opened MazeLayout

  datatype Option<T> = None | Some(value: T)

  /** The player controller's fields that the script reads or writes. */
  datatype PlayerState = PlayerState(enabled: bool, cursorEnabled: bool, speed: int)

  /** Snapshot of the pause-related state: the flag, the four engine flags and the player. */
  datatype GameState = GameState(
    paused: bool,
    menuEnabled: bool,
    appPaused: bool,
    mouseLocked: bool,
    mouseVisible: bool,
    player: Option<PlayerState>)

  /** The menu, the engine's pause, the mouse and the player all follow `paused`. */
  predicate FlagsAgree(s: GameState) {
    s.menuEnabled == s.paused && s.appPaused == s.paused &&
    s.mouseVisible == s.paused && s.mouseLocked == !s.paused &&
    (s.player.Some? ==> s.player.value.enabled == !s.paused)
  }

  /** The flags agree and the player's reticle is hidden, as the script leaves it after start-up. */
  predicate Settled(s: GameState) {
    FlagsAgree(s) && (s.player.Some? ==> !s.player.value.cursorEnabled)
  }

  /** The effect of one toggle of the pause state. */
  function Toggled(s: GameState): (r: GameState)
    ensures r.paused == !s.paused
    ensures FlagsAgree(r)
    ensures r.player.Some? <==> s.player.Some?
    ensures r.player.Some? ==> r.player.value.speed == s.player.value.speed
    ensures r.player.Some? && !r.paused ==> !r.player.value.cursorEnabled
    ensures r.player.Some? && r.paused ==> r.player.value.cursorEnabled == s.player.value.cursorEnabled
  {
    var paused := !s.paused;
    var player := match s.player
      case None => None
      case Some(p) => Some(PlayerState(!paused, if !paused then false else p.cursorEnabled, p.speed));
    GameState(paused, paused, paused, !paused, paused, player)
  }

  /** Toggling twice restores the pause flag, whatever the state was. */
  lemma ToggleTwiceRestoresPaused(s: GameState)
    ensures Toggled(Toggled(s)).paused == s.paused
  {
  }

  /** From a settled state, a toggle leads to a settled state. */
  lemma ToggleKeepsSettled(s: GameState)
    requires Settled(s)
    ensures Settled(Toggled(s))
  {
  }

  /** From a settled state, toggling twice restores every field. */
  lemma ToggleTwiceIsIdentity(s: GameState)
    requires Settled(s)
    ensures Toggled(Toggled(s)) == s
  {
  }

  /** The speed the update picks: running while shift is held, walking otherwise. */
  function SpeedFor(shiftHeld: bool): (speed: int)
    ensures speed == RUN_SPEED <==> shiftHeld
    ensures speed == WALK_SPEED <==> !shiftHeld
  {
    if shiftHeld then RUN_SPEED else WALK_SPEED
  }

  /** The effect of one frame's update: only the player's speed changes, if there is a player. */
  function Updated(s: GameState, shiftHeld: bool): (r: GameState)
    ensures s.player.None? ==> r == s
    ensures r.player.Some? <==> s.player.Some?
    ensures r.player.Some? ==> r.player.value.speed == SpeedFor(shiftHeld)
    ensures r.player.Some? ==> r.player.value.enabled == s.player.value.enabled &&
                               r.player.value.cursorEnabled == s.player.value.cursorEnabled
    ensures r.(player := s.player) == s
  {
    match s.player
    case None => s
    case Some(p) => s.(player := Some(p.(speed := SpeedFor(shiftHeld))))
  }

  /** Updating again with the same keys held changes nothing. */
  lemma UpdateIdempotent(s: GameState, shiftHeld: bool)
    ensures Updated(Updated(s, shiftHeld), shiftHeld) == Updated(s, shiftHeld)
  {
  }

  /** A frame's update leaves the pause flags alone, so a settled state stays settled. */
  lemma UpdateKeepsSettled(s: GameState, shiftHeld: bool)
    requires Settled(s)
    ensures Settled(Updated(s, shiftHeld))
  {
  }

  /** The first-person controller, reduced to the fields the script touches. */
  class Player {
    var enabled: bool
    var cursorEnabled: bool
    var speed: int

    /** Created walking; the script then hides the reticle. */
    constructor ()
      ensures enabled && !cursorEnabled && speed == WALK_SPEED
    {
      enabled := true;
      cursorEnabled := false;
      speed := WALK_SPEED;
    }

    function State(): PlayerState
      reads this
    {
      PlayerState(enabled, cursorEnabled, speed)
    }
  }

  /** The script's globals and the engine flags it sets. */
  class Game {
    var paused: bool
    var menuEnabled: bool
    var appPaused: bool
    var mouseLocked: bool
    var mouseVisible: bool
    var player: Player?

    /**
     * Start-up: not paused, no player yet, the menu created disabled. The
     * engine's own pause and mouse flags are whatever the engine starts with.
     */
    constructor (engineAppPaused: bool, engineMouseLocked: bool, engineMouseVisible: bool)
      ensures !paused && !menuEnabled && player == null
      ensures appPaused == engineAppPaused && mouseLocked == engineMouseLocked
      ensures mouseVisible == engineMouseVisible
    {
      paused := false;
      menuEnabled := false;
      appPaused := engineAppPaused;
      mouseLocked := engineMouseLocked;
      mouseVisible := engineMouseVisible;
      player := null;
    }

    function State(): GameState
      reads this, player
    {
      GameState(paused, menuEnabled, appPaused, mouseLocked, mouseVisible,
                if player == null then None else Some(player.State()))
    }

    /** Creates the player controller; its fields are set as the script sets them. */
    method SpawnPlayer()
      modifies this
      ensures player != null && fresh(player)
      ensures State() == old(State()).(player := Some(PlayerState(true, false, WALK_SPEED)))
    {
      player := new Player();
    }

    /** Flips `paused` and brings the menu, engine, mouse and player in line with it. */
    method TogglePause()
      modifies this, player
      ensures player == old(player)
      ensures State() == Toggled(old(State()))
    {
      paused := !paused;
      menuEnabled := paused;
      appPaused := paused;
      mouseLocked := !paused;
      mouseVisible := paused;
      if player != null {
        player.enabled := !paused;
        if !paused {
          player.cursorEnabled := false;
        }
      }
    }

    /** The menu's Resume button. */
    method ResumeGame()
      modifies this, player
      ensures player == old(player)
      ensures State() == Toggled(old(State()))
    {
      TogglePause();
    }

    /** The per-frame update: picks the player's speed from the shift key. */
    method Update(shiftHeld: bool)
      modifies player
      ensures player == old(player)
      ensures State() == Updated(old(State()), shiftHeld)
    {
      if player != null {
        if shiftHeld {
          player.speed := RUN_SPEED;
        } else {
          player.speed := WALK_SPEED;
        }
      }
    }
  }

  /**
   * The input listener that stays active while the game is paused: escape
   * toggles the pause state, every other key is ignored. It does not consult
   * `appPaused`, which is how it keeps working while the engine is paused.
   */
  class PauseHandler {
    const game: Game

    constructor (game: Game)
      ensures this.game == game
    {
      this.game := game;
    }

    method Input(key: string)
      modifies game, game.player
      ensures game.player == old(game.player)
      ensures game.State() == if key == "escape" then Toggled(old(game.State())) else old(game.State())
    {
      if key == "escape" {
        game.TogglePause();
      }
    }
  }
}
