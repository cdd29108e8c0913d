/** The primitives the drawing routines hand to OpenGL, and what the sequence
    each routine emits is made of. A quad is its colour (the glColor3f in
    effect) and its four glVertex3f corners in emission order. */
module Mesh {
  import opened PyMath
  import opened Terrain

  datatype Quad = Quad(color: Color, a: Point, b: Point, c: Point, d: Point)
  datatype Segment = Segment(color: Color, from: Point, to: Point)

  /** Earth brown of the side walls and the bottom cap. */
  const DIRT: Color := Color(0.35, 0.2, 0.05)
  /** Colour of the road markings. */
  const LINE_WHITE: Color := Color(1.0, 1.0, 1.0)
  /** Markings float this far above the road to avoid z-fighting. */
  const LINE_HEIGHT: real := 0.05
  /** step_check of draw_road_lines. */
  const DASH_STEP: real := 0.5
  /** int(ISLAND_SIZE / step_check): markings are drawn for i in [-DASH_RANGE, DASH_RANGE). */
  const DASH_RANGE: int := 80

  /** A grid the drawing routines can walk: at least one row, every row as
      long as the first, and that length at least one. */
  predicate IsMesh(grid: seq<seq<Vertex>>)
  {
    |grid| >= 1 && |grid[0]| >= 1 &&
    forall r :: 0 <= r < |grid| ==> |grid[r]| == |grid[0]|
  }

  // ---- Terrain surface -------------------------------------------------

  /** The quad of the 2x2 neighbourhood whose first corner is [r][c]: corners
      [r][c], [r+1][c], [r+1][c+1], [r][c+1], flat-shaded with [r][c]'s colour. */
  function SurfaceQuad(grid: seq<seq<Vertex>>, r: int, c: int): Quad
    requires IsMesh(grid)
    requires 0 <= r < |grid| - 1 && 0 <= c < |grid[0]| - 1
  {
    Quad(grid[r][c].color,
         grid[r][c].coords, grid[r + 1][c].coords,
         grid[r + 1][c + 1].coords, grid[r][c + 1].coords)
  }

  /** Row-major position of neighbourhood [r][c] when every row holds w quads. */
  function SurfaceIndex(r: int, c: int, w: int): int
  {
    r * w + c
  }

  /** quads holds one quad per 2x2 neighbourhood, row by row: (rows - 1) * (cols - 1)
      of them, the one for [r][c] at position r * (cols - 1) + c. */
  predicate IsSurface(grid: seq<seq<Vertex>>, quads: seq<Quad>)
    requires IsMesh(grid)
  {
    var h, w := |grid| - 1, |grid[0]| - 1;
    |quads| == h * w &&
    forall r, c :: 0 <= r < h && 0 <= c < w ==>
      SurfaceIndex(r, c, w) < |quads| && quads[SurfaceIndex(r, c, w)] == SurfaceQuad(grid, r, c)
  }

  // ---- Dirt walls ------------------------------------------------------

  /** A surface point carried straight down to the floor y = -DIRT_DEPTH. */
  function Drop(p: Point): Point
  {
    Point(p.x, -DIRT_DEPTH as real, p.z)
  }

  /** A wall panel under the boundary edge top1-top2: the two top corners,
      then the floor corners under top2 and under top1. */
  function Wall(top1: Point, top2: Point): Quad
  {
    Quad(DIRT, top1, top2, Drop(top2), Drop(top1))
  }

  /** Panel c of the wall along the first row. */
  function FirstRowWall(grid: seq<seq<Vertex>>, c: int): Quad
    requires IsMesh(grid) && 0 <= c < |grid[0]| - 1
  {
    Wall(grid[0][c].coords, grid[0][c + 1].coords)
  }

  /** Panel c of the wall along the last row (its top edge runs backwards). */
  function LastRowWall(grid: seq<seq<Vertex>>, c: int): Quad
    requires IsMesh(grid) && 0 <= c < |grid[0]| - 1
  {
    Wall(grid[|grid| - 1][c + 1].coords, grid[|grid| - 1][c].coords)
  }

  /** Panel r of the wall along the first column (its top edge runs backwards). */
  function FirstColumnWall(grid: seq<seq<Vertex>>, r: int): Quad
    requires IsMesh(grid) && 0 <= r < |grid| - 1
  {
    Wall(grid[r + 1][0].coords, grid[r][0].coords)
  }

  /** Panel r of the wall along the last column. */
  function LastColumnWall(grid: seq<seq<Vertex>>, r: int): Quad
    requires IsMesh(grid) && 0 <= r < |grid| - 1
  {
    Wall(grid[r][|grid[0]| - 1].coords, grid[r + 1][|grid[0]| - 1].coords)
  }

  /** The bottom cap: the square [-40, 40] x [-40, 40] at y = -10. */
  const CAP: Quad :=
    var s, f := ISLAND_SIZE as real, -DIRT_DEPTH as real;
    Quad(DIRT, Point(-s, f, -s), Point(s, f, -s), Point(s, f, s), Point(-s, f, s))

  /** quads holds the four wall strips (first row, last row, first column,
      last column, one panel per boundary edge) followed by the cap. */
  predicate IsDirtWalls(grid: seq<seq<Vertex>>, quads: seq<Quad>)
    requires IsMesh(grid)
  {
    var w, h := |grid[0]| - 1, |grid| - 1;
    |quads| == 2 * w + 2 * h + 1 &&
    (forall c :: 0 <= c < w ==> quads[c] == FirstRowWall(grid, c)) &&
    (forall c :: 0 <= c < w ==> quads[w + c] == LastRowWall(grid, c)) &&
    (forall r :: 0 <= r < h ==> quads[2 * w + r] == FirstColumnWall(grid, r)) &&
    (forall r :: 0 <= r < h ==> quads[2 * w + h + r] == LastColumnWall(grid, r)) &&
    quads[2 * w + 2 * h] == CAP
  }

  // ---- Road markings ---------------------------------------------------

  /** Whether index i of draw_road_lines emits a dash: i % 8 < 4 and the
      centreline at x = i * 0.5 strictly inside (-40, 40). */
  predicate Dashed(m: MathLib, i: int)
  {
    i % 8 < 4 && -(ISLAND_SIZE as real) < RoadCenter(m, i as real * DASH_STEP) < ISLAND_SIZE as real
  }

  /** The dash drawn at index i: along the centreline from x = i * 0.5 to x + 0.5,
      both ends at y = 0.05. */
  function DashAt(m: MathLib, i: int): Segment
  {
    var x := i as real * DASH_STEP;
    Segment(LINE_WHITE,
            Point(x, LINE_HEIGHT, RoadCenter(m, x)),
            Point(x + DASH_STEP, LINE_HEIGHT, RoadCenter(m, x + DASH_STEP)))
  }
}
