/**
 * The dungeon's fixed configuration: the tile grid and the numeric constants
 * that the world builder and the game loop read (dungeon_maze.py, lines 12-40).
 */
module MazeLayout {

  /** A tile grid: rows indexed by z, tiles within a row indexed by x. A tile equal to 1 is a wall. */
  type Grid = seq<seq<int>>

  const WALL_TILE: int := 1

  /** The literal floor plan: 15 rows of 15 tiles, walls all around the border. */
  const MAZE_LAYOUT: Grid := [
    [1, 1, 1, 1, 1, 1, 1, 1, 1, 1, 1, 1, 1, 1, 1],
    [1, 0, 0, 0, 1, 0, 0, 0, 0, 0, 1, 0, 0, 0, 1],
    [1, 0, 1, 0, 1, 0, 1, 1, 1, 0, 1, 0, 1, 0, 1],
    [1, 0, 1, 1, 1, 0, 1, 0, 0, 0, 0, 0, 1, 0, 1],
    [1, 0, 0, 0, 0, 0, 1, 0, 1, 1, 1, 1, 1, 0, 1],
    [1, 1, 1, 1, 1, 1, 1, 0, 1, 0, 0, 0, 0, 0, 1],
    [1, 0, 0, 0, 0, 0, 0, 0, 1, 0, 1, 1, 1, 1, 1],
    [1, 0, 1, 1, 1, 1, 1, 1, 1, 0, 1, 0, 0, 0, 1],
    [1, 0, 1, 0, 0, 0, 0, 0, 0, 0, 1, 0, 1, 0, 1],
    [1, 0, 1, 0, 1, 1, 1, 1, 1, 1, 1, 0, 1, 0, 1],
    [1, 0, 1, 0, 1, 0, 0, 0, 1, 0, 0, 0, 1, 0, 1],
    [1, 0, 1, 1, 1, 0, 1, 0, 1, 0, 1, 1, 1, 0, 1],
    [1, 0, 0, 0, 1, 0, 1, 0, 0, 0, 0, 0, 0, 0, 1],
    [1, 1, 1, 0, 1, 1, 1, 1, 1, 1, 1, 1, 1, 0, 1],
    [1, 1, 1, 1, 1, 1, 1, 1, 1, 1, 1, 1, 1, 1, 1]
  ]

  /** World-space size of one grid cell, and the height of a wall block. */
  const CORRIDOR_WIDTH: real := 10.0
  const WALL_HEIGHT: real := 20.0
  /** How far the spawn point is pushed from the corner of its cell. */
  const PLAYER_START_OFFSET: real := 0.1

  /** Player speeds, in engine units per second. */
  const WALK_SPEED: int := 5
  const RUN_SPEED: int := 8

  /** Every row has the length of the first, and there is at least one row. */
  predicate Rectangular(g: Grid) {
    |g| > 0 && forall z :: 0 <= z < |g| ==> |g[z]| == |g[0]|
  }

  /** Every tile is open (0) or wall (1). */
  predicate Binary(g: Grid) {
    forall z, x :: 0 <= z < |g| && 0 <= x < |g[z]| ==> g[z][x] == 0 || g[z][x] == WALL_TILE
  }

  /** The layout constant is a 15-by-15 grid of zeros and ones whose cell (1,1) is open. */
  lemma LayoutShape()
    ensures |MAZE_LAYOUT| == 15 && |MAZE_LAYOUT[0]| == 15
    ensures Rectangular(MAZE_LAYOUT)
    ensures Binary(MAZE_LAYOUT)
    ensures MAZE_LAYOUT[1][1] == 0
  {
  }
}
