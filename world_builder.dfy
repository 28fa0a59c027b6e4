/**
 * Compiling a tile grid into placed geometry: one wall block per wall tile,
 * one floor plane under the whole grid, and the player's spawn point
 * (dungeon_maze.py, lines 123-152). Engine entities are replaced by plain
 * records holding the numbers the script passes to the engine. Grids are
 * arbitrary; the corridor width and wall height are the script's constants.
 */
module WorldBuilder {
  import opened MazeLayout

  datatype Vec2 = Vec2(u: real, v: real)
  datatype Vec3 = Vec3(x: real, y: real, z: real)

  /** What a placed instance is; the floor also carries its texture tiling. */
  datatype Kind = Wall | Floor(textureScale: Vec2)

  /** A placed, never-mutated piece of geometry: a box or plane centred at `position`. */
  datatype Instance = Instance(kind: Kind, position: Vec3, scale: Vec3)

  /** The height of the floor plane; walls stand on it. */
  const FLOOR_Y: real := -0.5

  /** A grid cell: column x, row z. */
  datatype Cell = Cell(x: nat, z: nat)

  /** A closed axis-aligned rectangle on the ground (x/z) plane. */
  datatype Rect = Rect(minX: real, maxX: real, minZ: real, maxZ: real)

  /** The ground-plane rectangle an instance covers. */
  function Footprint(i: Instance): Rect {
    Rect(i.position.x - i.scale.x / 2.0, i.position.x + i.scale.x / 2.0,
         i.position.z - i.scale.z / 2.0, i.position.z + i.scale.z / 2.0)
  }

  /** The square of the ground plane that grid cell `c` stands for. */
  function CellSquare(c: Cell): Rect {
    Rect(c.x as real * CORRIDOR_WIDTH - CORRIDOR_WIDTH / 2.0, c.x as real * CORRIDOR_WIDTH + CORRIDOR_WIDTH / 2.0,
         c.z as real * CORRIDOR_WIDTH - CORRIDOR_WIDTH / 2.0, c.z as real * CORRIDOR_WIDTH + CORRIDOR_WIDTH / 2.0)
  }

  predicate Within(inner: Rect, outer: Rect) {
    outer.minX <= inner.minX && inner.maxX <= outer.maxX &&
    outer.minZ <= inner.minZ && inner.maxZ <= outer.maxZ
  }

  /** Point (px, pz) lies in the closed rectangle. */
  predicate Covers(r: Rect, px: real, pz: real) {
    r.minX <= px <= r.maxX && r.minZ <= pz <= r.maxZ
  }

  /** Point (px, pz) lies in the open interior of the rectangle. */
  predicate StrictlyInside(r: Rect, px: real, pz: real) {
    r.minX < px < r.maxX && r.minZ < pz < r.maxZ
  }

  /** Row-major order: z ascending, then x ascending within a row. */
  predicate Before(a: Cell, b: Cell) {
    a.z < b.z || (a.z == b.z && a.x < b.x)
  }

  /** The wall block emitted for cell `c`: it fills the cell's square and stands on the floor. */
  function WallAt(c: Cell): (w: Instance)
    ensures w.kind == Wall
    ensures Footprint(w) == CellSquare(c)
    ensures w.position.y - w.scale.y / 2.0 == FLOOR_Y
    ensures w.scale.y == WALL_HEIGHT
  {
    Instance(Wall,
             Vec3(c.x as real * CORRIDOR_WIDTH, WALL_HEIGHT / 2.0 - 0.5, c.z as real * CORRIDOR_WIDTH),
             Vec3(CORRIDOR_WIDTH, WALL_HEIGHT, CORRIDOR_WIDTH))
  }

  /** Wall cells among the first `n` tiles of row `z`, in ascending x. */
  function RowCells(row: seq<int>, z: nat, n: nat): seq<Cell>
    requires n <= |row|
    decreases n
  {
    if n == 0 then []
    else RowCells(row, z, n - 1) + (if row[n - 1] == WALL_TILE then [Cell(n - 1, z)] else [])
  }

  /** Wall cells of the first `m` rows of the grid, in row-major order. */
  function GridCells(g: Grid, m: nat): seq<Cell>
    requires m <= |g|
    decreases m
  {
    if m == 0 then [] else GridCells(g, m - 1) + RowCells(g[m - 1], m - 1, |g[m - 1]|)
  }

  /** The cells, in emission order, whose tile is a wall. */
  function WallCells(g: Grid): seq<Cell> {
    GridCells(g, |g|)
  }

  /** The set of wall tiles of the grid, as cells. */
  ghost function OneCells(g: Grid): set<Cell> {
    set z: nat, x: nat | z < |g| && x < |g[z]| && g[z][x] == WALL_TILE :: Cell(x, z)
  }

  /**
   * The wall-emission loop: scan the rows in order and, within each row, the
   * tiles in order, appending one wall block for each wall tile.
   */
  method EmitWalls(g: Grid) returns (walls: seq<Instance>)
    ensures |walls| == |WallCells(g)|
    ensures forall i :: 0 <= i < |walls| ==> walls[i] == WallAt(WallCells(g)[i])
  {
    walls := [];
    var z := 0;
    while z < |g|
      invariant 0 <= z <= |g|
      invariant |walls| == |GridCells(g, z)|
      invariant forall i :: 0 <= i < |walls| ==> walls[i] == WallAt(GridCells(g, z)[i])
    {
      var row := g[z];
      var x := 0;
      while x < |row|
        invariant 0 <= x <= |row|
        invariant |walls| == |GridCells(g, z) + RowCells(row, z, x)|
        invariant forall i :: 0 <= i < |walls| ==>
          walls[i] == WallAt((GridCells(g, z) + RowCells(row, z, x))[i])
      {
        ghost var before := GridCells(g, z) + RowCells(row, z, x);
        if row[x] == WALL_TILE {
          walls := walls + [WallAt(Cell(x, z))];
          assert GridCells(g, z) + RowCells(row, z, x + 1) == before + [Cell(x, z)];
        } else {
          assert GridCells(g, z) + RowCells(row, z, x + 1) == before;
        }
        x := x + 1;
      }
      z := z + 1;
    }
  }

  /** A cell is listed for a row prefix exactly when it is a wall tile of that prefix. */
  lemma {:induction false} RowCellsMembers(row: seq<int>, z: nat, n: nat, c: Cell)
    requires n <= |row|
    ensures c in RowCells(row, z, n) <==> c.z == z && c.x < n && row[c.x] == WALL_TILE
  {
    if n > 0 {
      RowCellsMembers(row, z, n - 1, c);
    }
  }

  /** A cell is listed for the first `m` rows exactly when it is a wall tile of those rows. */
  lemma {:induction false} GridCellsMembers(g: Grid, m: nat, c: Cell)
    requires m <= |g|
    ensures c in GridCells(g, m) <==> c.z < m && c.x < |g[c.z]| && g[c.z][c.x] == WALL_TILE
  {
    if m > 0 {
      GridCellsMembers(g, m - 1, c);
      RowCellsMembers(g[m - 1], m - 1, |g[m - 1]|, c);
    }
  }

  /** Every wall cell is emitted, and only wall cells are. */
  lemma WallCellsMembers(g: Grid, c: Cell)
    ensures c in WallCells(g) <==> c in OneCells(g)
  {
    GridCellsMembers(g, |g|, c);
  }

  /** Cells of a row prefix lie in row z, left of n, strictly increasing in x. */
  lemma {:induction false} RowCellsOrdered(row: seq<int>, z: nat, n: nat)
    requires n <= |row|
    ensures forall i :: 0 <= i < |RowCells(row, z, n)| ==>
      RowCells(row, z, n)[i].z == z && RowCells(row, z, n)[i].x < n
    ensures forall i, j :: 0 <= i < j < |RowCells(row, z, n)| ==>
      RowCells(row, z, n)[i].x < RowCells(row, z, n)[j].x
  {
    if n > 0 {
      RowCellsOrdered(row, z, n - 1);
    }
  }

  /** Cells of the first m rows lie above row m and are listed in strict row-major order. */
  lemma {:induction false} GridCellsOrdered(g: Grid, m: nat)
    requires m <= |g|
    ensures forall i :: 0 <= i < |GridCells(g, m)| ==> GridCells(g, m)[i].z < m
    ensures forall i, j :: 0 <= i < j < |GridCells(g, m)| ==> Before(GridCells(g, m)[i], GridCells(g, m)[j])
  {
    if m > 0 {
      GridCellsOrdered(g, m - 1);
      RowCellsOrdered(g[m - 1], m - 1, |g[m - 1]|);
    }
  }

  /** Walls are emitted in strict row-major order, so no cell is emitted twice. */
  lemma WallCellsOrdered(g: Grid)
    ensures forall i, j :: 0 <= i < j < |WallCells(g)| ==> Before(WallCells(g)[i], WallCells(g)[j])
  {
    GridCellsOrdered(g, |g|);
  }

  /** A sequence without repetitions has as many distinct elements as entries. */
  lemma {:induction false} DistinctCardinality(s: seq<Cell>)
    requires forall i, j :: 0 <= i < j < |s| ==> s[i] != s[j]
    ensures |set c | c in s| == |s|
  {
    if s != [] {
      var t := s[..|s| - 1];
      DistinctCardinality(t);
      assert (set c | c in s) == (set c | c in t) + {s[|s| - 1]};
      assert s[|s| - 1] !in (set c | c in t);
    }
  }

  /** The number of emitted walls is the number of wall tiles in the grid. */
  lemma WallCount(g: Grid)
    ensures |WallCells(g)| == |OneCells(g)|
  {
    var s := WallCells(g);
    WallCellsOrdered(g);
    DistinctCardinality(s);
    forall c
      ensures c in (set c | c in s) <==> c in OneCells(g)
    {
      WallCellsMembers(g, c);
    }
    assert (set c | c in s) == OneCells(g);
  }

  /** Different cells give walls at different positions, since the corridor width is not zero. */
  lemma WallPositionsDistinct(g: Grid)
    ensures forall i, j :: 0 <= i < j < |WallCells(g)| ==>
      WallAt(WallCells(g)[i]).position != WallAt(WallCells(g)[j]).position
  {
    WallCellsOrdered(g);
  }

  /** From the outer corner of cell (0,0) to the outer corner of cell (cols-1, rows-1). */
  function GridSpan(g: Grid): Rect
    requires |g| > 0
  {
    Rect(CellSquare(Cell(0, 0)).minX, CellSquare(Cell(|g[0]|, 0)).minX,
         CellSquare(Cell(0, 0)).minZ, CellSquare(Cell(0, |g|)).minZ)
  }

  /**
   * The floor plane under the grid: as wide as the first row has tiles and as
   * deep as the grid has rows, textured once per cell. The column count is read
   * from the first row, so the grid must have one.
   */
  function FloorFor(g: Grid): (f: Instance)
    requires |g| > 0
    ensures f.kind == Floor(Vec2(|g[0]| as real, |g| as real))
    ensures f.position.y == FLOOR_Y && f.scale.y == 1.0
    ensures Footprint(f) == GridSpan(g)
  {
    var worldWidth := |g[0]| as real * CORRIDOR_WIDTH;
    var worldDepth := |g| as real * CORRIDOR_WIDTH;
    Instance(Floor(Vec2(worldWidth / CORRIDOR_WIDTH, worldDepth / CORRIDOR_WIDTH)),
             Vec3(worldWidth / 2.0 - CORRIDOR_WIDTH / 2.0, FLOOR_Y, worldDepth / 2.0 - CORRIDOR_WIDTH / 2.0),
             Vec3(worldWidth, 1.0, worldDepth))
  }

  /** Every wall of a rectangular grid lies on the floor. */
  lemma WallsOnFloor(g: Grid)
    requires Rectangular(g)
    ensures forall c :: c in WallCells(g) ==> Within(Footprint(WallAt(c)), Footprint(FloorFor(g)))
  {
    forall c | c in WallCells(g)
      ensures Within(Footprint(WallAt(c)), Footprint(FloorFor(g)))
    {
      GridCellsMembers(g, |g|, c);
    }
  }

  /**
   * The spawn point handed to the player controller: the centre of cell (1,1)
   * pushed by the start offset along x and z. Wall blocks are centred on their
   * cell's coordinates, so this point lies just off the centre of that cell.
   */
  function PlayerStart(): (p: Vec3)
    ensures StrictlyInside(CellSquare(Cell(1, 1)), p.x, p.z)
    ensures p.y == 0.5
  {
    Vec3(1.0 * CORRIDOR_WIDTH + PLAYER_START_OFFSET, 0.5, 1.0 * CORRIDOR_WIDTH + PLAYER_START_OFFSET)
  }

  /** If cell (1,1) of the grid is open, the spawn point lies outside every wall's footprint. */
  lemma StartClearOfWalls(g: Grid)
    requires |g| > 1 && |g[1]| > 1 && g[1][1] != WALL_TILE
    ensures forall c :: c in WallCells(g) ==>
      !Covers(Footprint(WallAt(c)), PlayerStart().x, PlayerStart().z)
  {
    forall c | c in WallCells(g)
      ensures !Covers(Footprint(WallAt(c)), PlayerStart().x, PlayerStart().z)
    {
      GridCellsMembers(g, |g|, c);
    }
  }

  /** The dungeon's floor, as the script builds it from the layout constant. */
  lemma DungeonFloor()
    ensures FloorFor(MAZE_LAYOUT) ==
      Instance(Floor(Vec2(15.0, 15.0)), Vec3(70.0, -0.5, 70.0), Vec3(150.0, 1.0, 150.0))
  {
  }

  /** The dungeon's walls: one per wall tile of the layout constant, all on the floor. */
  lemma DungeonWalls()
    ensures |WallCells(MAZE_LAYOUT)| == |OneCells(MAZE_LAYOUT)|
    ensures forall c :: c in WallCells(MAZE_LAYOUT) ==>
      Within(Footprint(WallAt(c)), Footprint(FloorFor(MAZE_LAYOUT)))
  {
    LayoutShape();
    WallCount(MAZE_LAYOUT);
    WallsOnFloor(MAZE_LAYOUT);
  }

  /** The dungeon's spawn point, clear of every wall of the layout constant. */
  lemma DungeonSpawn()
    ensures PlayerStart() == Vec3(10.1, 0.5, 10.1)
    ensures forall c :: c in WallCells(MAZE_LAYOUT) ==> !Covers(Footprint(WallAt(c)), 10.1, 10.1)
  {
    LayoutShape();
    StartClearOfWalls(MAZE_LAYOUT);
  }
}
