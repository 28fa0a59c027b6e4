# Spooky maze: a Dafny model of the dungeon builder and pause logic

`dungeon_maze.py` is a single script for the ursina game engine. It holds a
literal 15-by-15 tile grid (`MAZE_LAYOUT`, 1 = wall, 0 = open). At start-up it
turns that grid into one wall block per wall tile, one floor plane under the
whole grid and a first-person player placed in cell (1,1). At run time it keeps
a pause flag that the escape key or the menu's Resume button flips. Several
engine flags follow that pause flag. A per-frame `update` picks the player's
speed from the shift key.

This project models that logic in three modules:

- `maze_layout.dfy` (`MazeLayout`): the grid constant, the numeric constants and
  the grid predicates `Rectangular` and `Binary`.
- `world_builder.dfy` (`WorldBuilder`): wall, floor and spawn geometry as plain
  records (`Instance`: kind, position triple, scale triple) in exact `real`
  arithmetic.
  - The nested row/tile loop is the method `EmitWalls`. It is proved to emit
    exactly `WallAt(c)` for each cell `c` of `WallCells(g)`, the row-major list
    of wall tiles.
  - The facts about that list are lemmas: it has every wall tile and nothing
    else, it is in strict row-major order, and its length is the number of
    wall tiles.
  - These hold for any grid. Corridor width (10) and wall height (20) are the
    script's constants.
- `pause_menu.dfy` (`PauseMenu`): the script's globals (`paused`, `player`) and
  the engine flags it writes (`pause_menu.enabled`, `application.paused`,
  `mouse.locked`, `mouse.visible`) are fields of a `Game` object with an
  optional `Player`.
  - `TogglePause`, `ResumeGame`, `Update` and `PauseHandler.Input` are methods
    that change those fields.
  - Each method is specified by a pure function on the value snapshot
    `GameState` (`Toggled`, `Updated`). The invariants, the double-toggle
    round trip and idempotence are proved about those functions.

Wall blocks are centred on `(x*10, _, z*10)`, so cell (1,1) covers x and z from
5 to 15. The spawn point `(10.1, _, 10.1)` is therefore 0.1 off the cell's
centre, not off its corner as the constant's comment says. It is still inside
the open cell and outside every wall. `WorldBuilder.StartClearOfWalls` proves
this.

## Model

| member | source | states |
|---|---|---|
| `MazeLayout.LayoutShape` | dungeon_maze.py:12-28 | The layout has 15 rows of 15 tiles, is rectangular, holds only 0 and 1, and cell (1,1) is open |
| `WorldBuilder.WallAt` | dungeon_maze.py:129-130 | A wall block covers exactly its cell's square of the ground plane, is `WALL_HEIGHT` tall and has its base on the floor plane's height (-0.5) |
| `WorldBuilder.EmitWalls` | dungeon_maze.py:123-133 | The loop emits one block per listed wall cell, in order: the i-th block is `WallAt` of the i-th cell of `WallCells(g)`, and there are no others |
| `WorldBuilder.RowCellsMembers` | dungeon_maze.py:124-125 | A cell is collected from a row prefix if and only if it lies in that row and prefix and its tile is 1 |
| `WorldBuilder.GridCellsMembers` | dungeon_maze.py:123-125 | A cell is collected from the first m rows if and only if its row is below m, its column is within its row and its tile is 1 |
| `WorldBuilder.WallCellsMembers` | dungeon_maze.py:123-125 | A cell is emitted if and only if it is in the set of wall tiles of the grid |
| `WorldBuilder.RowCellsOrdered` | dungeon_maze.py:124 | Cells collected from one row all lie in that row, left of the prefix end, in strictly ascending x |
| `WorldBuilder.GridCellsOrdered` | dungeon_maze.py:123-124 | Cells collected from the first m rows lie in those rows and are in strict row-major order |
| `WorldBuilder.WallCellsOrdered` | dungeon_maze.py:123-124 | Walls are emitted z ascending, then x ascending within a row, with no cell repeated |
| `WorldBuilder.WallCount` | dungeon_maze.py:123-125 | The number of emitted walls equals the number of tiles equal to 1 |
| `WorldBuilder.WallPositionsDistinct` | dungeon_maze.py:129 | Any two emitted walls are at different positions |
| `WorldBuilder.FloorFor` | dungeon_maze.py:136-144 | The floor's texture scale is (columns, rows); it lies at height -0.5 with y-scale 1; its ground footprint runs from the outer edge of cell (0,0) to the outer edge of the last column and row |
| `WorldBuilder.WallsOnFloor` | dungeon_maze.py:129-144 | For a rectangular grid, every wall's footprint lies within the floor's footprint |
| `WorldBuilder.PlayerStart` | dungeon_maze.py:149-152 | The spawn point lies strictly inside the square of cell (1,1), at the height 0.5 given to the controller |
| `WorldBuilder.StartClearOfWalls` | dungeon_maze.py:149-152 | For any grid whose cell (1,1) is not a wall, the spawn point lies outside the closed footprint of every emitted wall |
| `WorldBuilder.DungeonFloor` | dungeon_maze.py:136-144 | For the layout constant the floor is scaled (150,1,150), centred at (70,-0.5,70), with texture scale (15,15) |
| `WorldBuilder.DungeonWalls` | dungeon_maze.py:123-133 | For the layout constant the wall count is the number of 1-tiles and every wall lies on the floor |
| `WorldBuilder.DungeonSpawn` | dungeon_maze.py:149-152 | For the layout constant the spawn point is (10.1,0.5,10.1) and lies outside every wall |
| `PauseMenu.Toggled` | dungeon_maze.py:57-68 | A toggle negates `paused`; the menu, the engine's pause and mouse visibility equal the new value and mouse lock its negation; a present player is enabled exactly when not paused; on resume its reticle is off; on pause its reticle and speed are kept |
| `PauseMenu.ToggleTwiceRestoresPaused` | dungeon_maze.py:60 | Two toggles restore `paused` from any state |
| `PauseMenu.ToggleKeepsSettled` | dungeon_maze.py:57-68 | From a state where the flags agree with `paused` and the reticle is off, a toggle keeps that so |
| `PauseMenu.ToggleTwiceIsIdentity` | dungeon_maze.py:57-68 | From such a settled state, two toggles restore every field |
| `PauseMenu.SpeedFor` | dungeon_maze.py:168-171 | The speed is `RUN_SPEED` exactly when shift is held and `WALK_SPEED` exactly when it is not |
| `PauseMenu.Updated` | dungeon_maze.py:165-171 | Without a player nothing changes; with one, only its speed changes, to `SpeedFor(shift)` |
| `PauseMenu.UpdateIdempotent` | dungeon_maze.py:165-171 | Repeating the update with the same key state changes nothing |
| `PauseMenu.UpdateKeepsSettled` | dungeon_maze.py:165-171 | The update never disturbs the pause flags or the reticle |
| `PauseMenu.Player.constructor` | dungeon_maze.py:151-161 | A new player is enabled, walking, with its reticle hidden |
| `PauseMenu.Game.constructor` | dungeon_maze.py:42-44 | The game starts unpaused, with no player and the menu disabled; the engine flags are the engine's own |
| `PauseMenu.Game.SpawnPlayer` | dungeon_maze.py:151-161 | Attaches a fresh player, enabled, reticle hidden, at walking speed, and changes nothing else |
| `PauseMenu.Game.TogglePause` | dungeon_maze.py:57-68 | The new state is `Toggled` of the old one; the player reference is unchanged |
| `PauseMenu.Game.ResumeGame` | dungeon_maze.py:70-72 | Exactly the effect of `TogglePause` |
| `PauseMenu.Game.Update` | dungeon_maze.py:165-171 | The new state is `Updated` of the old one for the given shift state |
| `PauseMenu.PauseHandler.constructor` | dungeon_maze.py:47-50 | The handler is bound to the game whose pause state it toggles |
| `PauseMenu.PauseHandler.Input` | dungeon_maze.py:52-54 | On `"escape"` the new state is `Toggled` of the old one; on any other key nothing changes |

## Left out

- Engine construction and behaviour are not modelled: `Ursina()`, `Audio`, `Sky`, window, camera and lighting settings, the `Panel` and `Button` widgets, textures, colours and `app.run()`. Only the numbers passed to the wall, floor and player constructors are modelled.
- Collision, physics, rendering and mouse sensitivity are engine-internal. This includes `PLAYER_HEIGHT`, `DEFAULT_SENSITIVITY`, `jump_height` and the collider scale and `player.y = 1` adjustment at dungeon_maze.py:159-160. `PlayerStart` keeps the height 0.5 given to the controller.
- `quit_game` (`sys.exit()`) is process I/O.
- Floating-point rounding is not modelled: the script's quantities (10, 20, 9.5, 0.1, 0.5) are exact `real`s here.
- Corridor width and wall height are the script's constants, not parameters. Products of a cell index with an unknown width are nonlinear arithmetic, which the solver does not handle reliably.
- `WorldBuilder.WallCount` states the wall count as the size of the set of 1-tiles. The number for the layout constant (133) is not computed, because the verifier does not evaluate the recursive cell list over a 225-tile literal.
- The engine's input dispatch is not modelled: `held_keys['shift']` is the parameter `shiftHeld`, and the key pressed is the parameter of `Input`. `ignore_paused=True` is modelled only in that `Input` ignores `appPaused`. `if player:` is read as "a player exists".
- The engine's initial `application.paused`, `mouse.locked` and `mouse.visible` values are constructor parameters of `Game`. The first-person controller also changes the mouse flags when it is created, which `SpawnPlayer` does not model.
- A grid-building interface with errors for empty or jagged grids and bad units, and spawning at the first open cell, is not what the script does. The script validates nothing and always spawns at cell (1,1), and the model follows the script. `FloorFor` requires a non-empty grid because the script reads `len(MAZE_LAYOUT[0])`.
