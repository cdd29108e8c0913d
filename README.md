# Island terrain: a Dafny model

`main.py` draws a floating island with pygame and OpenGL. At start-up
`generate_terrain_geometry` samples an 80 x 80 square of ground at half-unit
resolution, giving a 161 x 161 grid of vertices. Each vertex is classified as:

- **road**: within 3.5 of the sine-shaped centreline `z = x + 10 sin(x / 12)`;
- **mountain**: not road, and within 40 of the point (32, -32), where it rises
  by a clamped cosine profile up to 15;
- **flat land**: everything else.

Each vertex receives a height with a little random noise, and a colour. Road
is asphalt grey. Mountain is snow above 13, rock above 10, and a grass-to-forest
blend below that. Flat land is grass green. Every frame, three routines walk the
stored grid and emit OpenGL primitives:

- `draw_terrain_surface` emits one flat-shaded quad per 2 x 2 neighbourhood;
- `draw_dirt_walls` emits earth-brown panels hanging from the four boundary
  edges down to y = -10, then a bottom cap;
- `draw_road_lines` emits white dashes along the road's centreline.

The model is laid out as follows:

- `pymath.dfy` (module `PyMath`) holds what the program takes from Python's
  `math` and `random`:
  - `sin`, `cos` and `sqrt` are uninterpreted functions passed as a
    `MathLib` value. Their range facts are the predicates `Lawful` and
    `CosFallsOnQuarter`. Lemmas that need them take them as preconditions.
  - `random.uniform(a, b)` is `a + (b - a) * u` for a unit draw `u`.
- `terrain.dfy` (module `Terrain`) holds the configuration, the road, the
  cell classification and the height and colour of a cell. It also has the
  inner loop body of the generator as an imperative method, proved equal to
  the declarative `CellVertex`.
- `terrain_facts.dfy` (module `TerrainFacts`) has the lemmas about cells and
  about the generated grid.
- `mesh.dfy` (module `Mesh`) describes what each drawing routine emits. A
  `glBegin`/`glEnd` block becomes a sequence of `Quad`s or `Segment`s, in
  emission order.
- `scene.dfy` (module `Scene`) has the program's state and its routines:
  - the class `Island` holds `vertex_data`;
  - `GenerateTerrainGeometry` fills it with nested loops;
  - the surface and wall emitters walk it with loops, each proved against its
    specification predicate;
  - `DrawRoadLines` is a module-level method, because it does not read the grid.
- `mesh_facts.dfy` (module `MeshFacts`) has the lemmas about the emitted
  geometry of the generated terrain and the dash-counting argument.

Each cell's random draws are an explicit `Sample(base, jitter)` input. So
every statement holds for every outcome of the random generator.

## Model

| member | source | states |
|---|---|---|
| PyMath.Uniform | main.py:67 | a draw from a unit sample lies in [a, b]; the zero draw gives a |
| Terrain.RoadCenter | main.py:27-32 | the road's centreline at x stays within 10 of z = x |
| Terrain.Lerp | main.py:39-41 | one channel of the blend: factor 0 gives the first colour, factor 1 the second, and factors in [0, 1] give a value between them |
| Terrain.InterpolateColor | main.py:34-42 | factor 0 returns color1, factor 1 returns color2, and for factors in [0, 1] every channel lies between the two colours' channels |
| Terrain.ZoneOf | main.py:79-96 | every cell is exactly one of road (iff within 3.5 of the centreline), mountain (iff not road and nearer than 40 to (32, -32)) or flat (iff neither) |
| Terrain.Elevation | main.py:89-91 | the mountain's rise is never negative and never above 15, and is exactly 15 at the centre |
| Terrain.BaseNoise | main.py:67-68 | the base noise of every cell lies in [0, 0.3] |
| Terrain.ComputeVertex | main.py:60-140 | the step-by-step computation of one vertex (flags, height updates, colour branches) yields exactly the declarative `CellVertex` |
| Scene.Island.GenerateTerrainGeometry | main.py:44-141 | vertex_data becomes 161 rows of 161 vertices, vertex [r][c] being the cell of index (r - 80, c - 80) |
| TerrainFacts.HeightNonNegative | main.py:67-96 | no cell is below y = 0 |
| TerrainFacts.GridLayout | main.py:57-64 | the generated grid is 161 x 161 and vertex [r][c] sits at x = (r - 80) / 2, z = (c - 80) / 2 |
| TerrainFacts.RoadCells | main.py:79-102 | a cell is on the road if and only if it is painted asphalt, and road cells lie at y = 0 |
| TerrainFacts.FlatCells | main.py:130-134 | flat cells keep their base noise as height (in [0, 0.3]), have r = b = 0.1, and their green is within 0.05 of 0.6 |
| TerrainFacts.MountainCells | main.py:85-96 | a mountain cell's height is its base noise plus the clamped elevation at its distance from the centre, so it lies between its base noise and base noise + 15 |
| TerrainFacts.MountainBands | main.py:104-128 | on the mountain: above 13 snow; in (10, 13] rock; at or below 10, red and blue of the grass-to-forest blend at min(y / 10, 1), and green within 0.02 of it |
| TerrainFacts.GreenSeam | main.py:120-128 | low on the mountain the green channel is within 0.02 + 0.035 y below, and 0.02 above, the flat land's 0.6 |
| TerrainFacts.ColorsInUnitRange | main.py:100-134 | every colour channel of every cell lies in [0, 1], the noise included |
| TerrainFacts.GridColorsInUnitRange | main.py:137-141 | every colour stored in the generated grid lies in [0, 1] |
| TerrainFacts.ElevationFalls | main.py:89-91 | if cosine falls on [0, pi/2], the elevation does not grow with distance |
| TerrainFacts.MountainDistanceInRange | main.py:85-87 | mountain cells lie at a distance in [0, 40) from the centre |
| TerrainFacts.CloserIsHigher | main.py:85-96 | of two mountain cells, the one nearer the centre rises at least as far above its base noise |
| TerrainFacts.PeakIsSnow | main.py:85-116 | the cell at the centre (32, -32) is a mountain cell at full elevation 15, at least 15 high and painted snow |
| TerrainFacts.PeakInGrid | main.py:53-64 | in the generated grid that peak is vertex [144][16] |
| Scene.Island.DrawTerrainSurface | main.py:147-168 | emits (rows - 1) x (cols - 1) quads row by row; the quad at r * (cols - 1) + c has corners [r][c], [r+1][c], [r+1][c+1], [r][c+1] and the colour of [r][c] |
| Scene.Island.DrawDirtWalls | main.py:170-227 | emits the first-row, last-row, first-column and last-column wall strips (one panel per boundary edge, corners in the source's order) and then the bottom cap |
| Scene.DrawRoadLines | main.py:229-249 | emits, in increasing order of i in [-80, 80), exactly the dashes whose slot i % 8 < 4 is on and whose centreline z lies strictly inside (-40, 40); there are at most 80 |
| MeshFacts.TerrainIsMesh | main.py:149-150 | the generated grid has the shape the drawing routines index into |
| MeshFacts.WallsHangFromTops | main.py:184-219 | every wall quad is earth brown, and every panel's floor corners are its top corners dropped to y = -10 |
| MeshFacts.SkirtMeetsCap | main.py:184-225 | for the generated terrain there are 641 wall quads; every panel's floor edge lies on the rim of the bottom cap, under its top edge; the last quad is the cap |
| MeshFacts.SurfaceTiles | main.py:153-167 | for the generated terrain there are 160 x 160 surface quads, and quad (r, c) covers the half-unit square at ((r - 80) / 2, (c - 80) / 2) in the colour of [r][c] |
| MeshFacts.DashesOnRoad | main.py:241-248 | every dash drawn is white, 0.05 above ground, half a unit long in x, starts inside the island and has both ends on the road |
| MeshFacts.CentralDashesDrawn | main.py:241-243 | for x strictly between -30 and 30 the road cannot leave the island, so every index whose pattern slot is on draws its dash |
| MeshFacts.DashSlotsOfRoadLines | main.py:236-241 | the draw-4-skip-4 pattern leaves exactly 80 of the 160 indices able to draw |

## Left out

- The window, the event loop, the camera and the GL state setup (`main`,
  `glLineWidth`, `glColor3f`, `glBegin`, `glEnd`) are not modelled. The
  emitters return the primitives they would draw instead of calling OpenGL.
- `draw_team_objects` is an empty placeholder and has no model.
- Floating point is modelled with exact reals. The real values of `sin`,
  `cos`, `sqrt` and `pi` are not modelled. The trigonometric functions and
  the square root are parameters, constrained only by the range facts each
  lemma names.
- The random source is modelled as one `Sample` of unit draws per cell. The
  model does not capture that a single shared stream is consumed in row-major
  order, nor that only flat cells and low mountain cells consume a second draw.
  `random.random()` never returns 1.0; the model also admits 1.0, a superset.
- `STEP` is never read by the program (the generator hard-codes the half step).
- `mount_height_factor` is written but never read, so it is not modelled.
- Scene.Island.DrawTerrainSurface: requires a non-empty grid with rows of equal,
  non-zero length. The generator always produces one; on an empty grid the
  source fails with an index error.
- Scene.Island.DrawDirtWalls: the same requirement as above.

## Notes

- The program's colours stay in [0, 1] with its constants. This is proved
  (`ColorsInUnitRange`), not assumed.
- The wall strips are named in the model after the grid row or column they
  follow. The program's comments call the row-0 strip the "north" border at
  minimum z, but row 0 is the line x = -40. The emitted geometry is the same
  either way.
- Python's `i % 8` and Dafny's `%` agree here, because the divisor is positive.
- The mountain radius is 40, as the generator sets it.
