/** The terrain generator: configuration, the road and mountain geometry, the
    classification of a grid cell and the height and colour it receives. */
module Terrain {
  import opened PyMath

  // Configuration (main.py:16-18). STEP is declared there but never read:
  // the generator hard-codes the half-unit step, so it is not modelled.
  const ISLAND_SIZE: int := 40
  const DIRT_DEPTH: int := 10

  /** int(ISLAND_SIZE * 2): the grid index runs over [-RANGE_LIMIT, RANGE_LIMIT]. */
  const RANGE_LIMIT: int := ISLAND_SIZE * 2
  /** Number of rows, and of vertices in every row. */
  const GRID_SIZE: int := 2 * RANGE_LIMIT + 1

  const ROAD_WIDTH: real := 3.5
  const MOUNT_X: real := 32.0
  const MOUNT_Z: real := -32.0
  const MOUNT_RADIUS: real := 40.0
  const MOUNT_HEIGHT: real := 15.0
  const SNOW_LINE: real := 13.0
  const ROCK_LINE: real := 10.0

  datatype Point = Point(x: real, y: real, z: real)
  datatype Color = Color(r: real, g: real, b: real)
  datatype Vertex = Vertex(coords: Point, color: Color)

  const ASPHALT: Color := Color(0.25, 0.25, 0.25)
  const GRASS: Color := Color(0.1, 0.6, 0.1)
  const FOREST: Color := Color(0.05, 0.25, 0.05)
  const ROCK: Color := Color(0.4, 0.35, 0.25)
  const SNOW: Color := Color(0.95, 0.95, 1.0)

  /** The values random.random() returned for one cell: `base` feeds the base
      noise every cell draws, `jitter` the green-channel noise drawn by flat
      cells and by mountain cells below the rock line. */
  datatype Sample = Sample(base: real, jitter: real)

  predicate UnitSample(s: Sample)
  {
    0.0 <= s.base <= 1.0 && 0.0 <= s.jitter <= 1.0
  }

  /** One sample per grid cell, laid out like the grid itself. */
  predicate SamplesFit(samples: seq<seq<Sample>>)
  {
    |samples| == GRID_SIZE &&
    forall r :: 0 <= r < GRID_SIZE ==> |samples[r]| == GRID_SIZE
  }

  /** Every sample is a value random.random() can return. */
  predicate UnitSamples(samples: seq<seq<Sample>>)
    requires SamplesFit(samples)
  {
    forall r, c :: 0 <= r < GRID_SIZE && 0 <= c < GRID_SIZE ==> UnitSample(samples[r][c])
  }

  /** World coordinate of grid index k: k / 2.0. */
  function Coord(k: int): real
  {
    k as real / 2.0
  }

  /** get_road_center: the z of the road's centreline at x. */
  function RoadCenter(m: MathLib, x: real): (z: real)
    ensures Lawful(m) ==> x - 10.0 <= z <= x + 10.0
  {
    x + 10.0 * m.sin(x / 12.0)
  }

  function Between(a: real, b: real, v: real): bool
  {
    (a <= v <= b) || (b <= v <= a)
  }

  /** One channel of interpolate_color: a + (b - a) * factor. */
  function Lerp(a: real, b: real, factor: real): (v: real)
    ensures 0.0 <= factor <= 1.0 ==> Between(a, b, v)
    ensures factor == 0.0 ==> v == a
    ensures factor == 1.0 ==> v == b
  {
    if 0.0 <= factor <= 1.0 then
      ScaleByFraction(b - a, factor);
      a + (b - a) * factor
    else
      a + (b - a) * factor
  }

  /** interpolate_color: channel-wise linear blend from c1 (factor 0) to c2 (factor 1). */
  function InterpolateColor(c1: Color, c2: Color, factor: real): (c: Color)
    ensures factor == 0.0 ==> c == c1
    ensures factor == 1.0 ==> c == c2
    ensures 0.0 <= factor <= 1.0 ==>
      Between(c1.r, c2.r, c.r) && Between(c1.g, c2.g, c.g) && Between(c1.b, c2.b, c.b)
  {
    Color(Lerp(c1.r, c2.r, factor), Lerp(c1.g, c2.g, factor), Lerp(c1.b, c2.b, factor))
  }

  /** The three kinds of terrain a cell can be. */
  datatype Zone = Road | Mountain | Flat

  /** |z - get_road_center(x)| */
  function RoadDistance(m: MathLib, x: real, z: real): real
  {
    Abs(z - RoadCenter(m, x))
  }

  predicate OnRoad(m: MathLib, x: real, z: real)
  {
    RoadDistance(m, x, z) < ROAD_WIDTH
  }

  /** Euclidean distance from (x, z) to the mountain's centre. */
  function MountainDistance(m: MathLib, x: real, z: real): real
  {
    m.sqrt((x - MOUNT_X) * (x - MOUNT_X) + (z - MOUNT_Z) * (z - MOUNT_Z))
  }

  /** The classification of main.py:79-96: road first, then mountain, else flat. */
  function ZoneOf(m: MathLib, x: real, z: real): (k: Zone)
    ensures k == Road <==> OnRoad(m, x, z)
    ensures k == Mountain <==> !OnRoad(m, x, z) && MountainDistance(m, x, z) < MOUNT_RADIUS
    ensures k == Flat <==> !OnRoad(m, x, z) && MountainDistance(m, x, z) >= MOUNT_RADIUS
  {
    if OnRoad(m, x, z) then Road
    else if MountainDistance(m, x, z) < MOUNT_RADIUS then Mountain
    else Flat
  }

  /** The cosine fall-off of the mountain at distance d from its centre,
      clamped at zero. */
  function Elevation(m: MathLib, d: real): (e: real)
    ensures 0.0 <= e
    ensures Lawful(m) ==> e <= MOUNT_HEIGHT
    ensures Lawful(m) && d == 0.0 ==> e == MOUNT_HEIGHT
  {
    var elevation := MOUNT_HEIGHT * m.cos((d / MOUNT_RADIUS) * (PI / 2.0));
    if elevation < 0.0 then 0.0 else elevation
  }

  /** random.uniform(0.0, 0.3): the noise every cell starts from. */
  function BaseNoise(s: Sample): (n: real)
    ensures UnitSample(s) ==> 0.0 <= n <= 0.3
  {
    Uniform(0.0, 0.3, s.base)
  }

  /** The height of the cell at (x, z). */
  function Height(m: MathLib, x: real, z: real, s: Sample): real
  {
    match ZoneOf(m, x, z)
    case Road => 0.0
    case Mountain => BaseNoise(s) + Elevation(m, MountainDistance(m, x, z))
    case Flat => BaseNoise(s)
  }

  /** Mountain colour, banded on the height y. */
  function MountainColor(y: real, s: Sample): Color
  {
    if y > SNOW_LINE then SNOW
    else if y > ROCK_LINE then ROCK
    else
      var c := InterpolateColor(GRASS, FOREST, Min(y / 10.0, 1.0));
      c.(g := c.g + Uniform(-0.02, 0.02, s.jitter))
  }

  /** Grass green with a jittered green channel: the flat land's colour. */
  function FlatColor(s: Sample): Color
  {
    Color(0.1, 0.6 + Uniform(-0.05, 0.05, s.jitter), 0.1)
  }

  function ZoneColor(k: Zone, y: real, s: Sample): Color
  {
    match k
    case Road => ASPHALT
    case Mountain => MountainColor(y, s)
    case Flat => FlatColor(s)
  }

  /** The vertex the generator builds for grid index (i, j) given its samples. */
  function CellVertex(m: MathLib, i: int, j: int, s: Sample): Vertex
  {
    var x := Coord(i);
    var z := Coord(j);
    var y := Height(m, x, z, s);
    Vertex(Point(x, y, z), ZoneColor(ZoneOf(m, x, z), y, s))
  }

  /** One pass of the inner loop body of generate_terrain_geometry (main.py:64-140),
      with the is_road / is_mount flags and the step-by-step updates of y, r, g, b. */
  method ComputeVertex(m: MathLib, i: int, j: int, s: Sample) returns (v: Vertex)
    ensures v == CellVertex(m, i, j, s)
  {
    var x := i as real / 2.0;
    var z := j as real / 2.0;

    var baseNoise := Uniform(0.0, 0.3, s.base);
    var y := baseNoise;

    var roadZ := RoadCenter(m, x);
    var distToRoad := Abs(z - roadZ);

    var isRoad := false;
    var isMount := false;

    if distToRoad < ROAD_WIDTH {
      y := 0.0;
      isRoad := true;
    } else {
      var distToMount := m.sqrt((x - MOUNT_X) * (x - MOUNT_X) + (z - MOUNT_Z) * (z - MOUNT_Z));
      if distToMount < MOUNT_RADIUS {
        var factor := (distToMount / MOUNT_RADIUS) * (PI / 2.0);
        var elevation := MOUNT_HEIGHT * m.cos(factor);
        if elevation < 0.0 {
          elevation := 0.0;
        }
        y := y + elevation;
        isMount := true;
      }
    }

    var r, g, b;
    if isRoad {
      r, g, b := 0.25, 0.25, 0.25;
    } else if isMount {
      if y > SNOW_LINE {
        r, g, b := SNOW.r, SNOW.g, SNOW.b;
      } else if y > ROCK_LINE {
        r, g, b := ROCK.r, ROCK.g, ROCK.b;
      } else {
        var gradFactor := Min(y / 10.0, 1.0);
        var c := InterpolateColor(GRASS, FOREST, gradFactor);
        r, g, b := c.r, c.g, c.b;
        var noise := Uniform(-0.02, 0.02, s.jitter);
        g := g + noise;
      }
    } else {
      var noise := Uniform(-0.05, 0.05, s.jitter);
      r, g, b := 0.1, 0.6 + noise, 0.1;
    }

    assert x == Coord(i) && z == Coord(j);
    assert y == Height(m, x, z, s);
    assert Color(r, g, b) == ZoneColor(ZoneOf(m, x, z), y, s);
    v := Vertex(Point(x, y, z), Color(r, g, b));
  }

  /** The grid generate_terrain_geometry leaves in vertex_data: GRID_SIZE rows of
      GRID_SIZE vertices, vertex [r][c] built from index (r - 80, c - 80). */
  predicate IsTerrain(grid: seq<seq<Vertex>>, m: MathLib, samples: seq<seq<Sample>>)
    requires SamplesFit(samples)
  {
    |grid| == GRID_SIZE &&
    (forall r :: 0 <= r < GRID_SIZE ==> |grid[r]| == GRID_SIZE) &&
    forall r, c :: 0 <= r < GRID_SIZE && 0 <= c < GRID_SIZE ==>
      grid[r][c] == CellVertex(m, r - RANGE_LIMIT, c - RANGE_LIMIT, samples[r][c])
  }
}
