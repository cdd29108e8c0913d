/** What the generator promises about every cell: its position, its class, its
    height and its colour. */
module TerrainFacts {
  import opened PyMath
  import opened Terrain

  /** Every channel of a colour lies in [0, 1]. */
  predicate InUnitRange(c: Color)
  {
    0.0 <= c.r <= 1.0 && 0.0 <= c.g <= 1.0 && 0.0 <= c.b <= 1.0
  }

  /** No cell is ever lower than the sea level y = 0. */
  lemma HeightNonNegative(m: MathLib, x: real, z: real, s: Sample)
    requires UnitSample(s)
    ensures 0.0 <= Height(m, x, z, s)
  {
  }

  /** The generated grid is 161 x 161 and vertex [r][c] sits at
      x = (r - 80) / 2, z = (c - 80) / 2. */
  lemma GridLayout(grid: seq<seq<Vertex>>, m: MathLib, samples: seq<seq<Sample>>)
    requires SamplesFit(samples) && IsTerrain(grid, m, samples)
    ensures |grid| == 161
    ensures forall r :: 0 <= r < |grid| ==> |grid[r]| == 161
    ensures forall r, c :: 0 <= r < 161 && 0 <= c < 161 ==>
      grid[r][c].coords.x == (r - 80) as real / 2.0 &&
      grid[r][c].coords.z == (c - 80) as real / 2.0
  {
  }

  /** A cell is road exactly when it is painted asphalt; road cells lie at y = 0. */
  lemma RoadCells(m: MathLib, i: int, j: int, s: Sample)
    requires UnitSample(s)
    ensures OnRoad(m, Coord(i), Coord(j)) <==> CellVertex(m, i, j, s).color == ASPHALT
    ensures OnRoad(m, Coord(i), Coord(j)) ==> CellVertex(m, i, j, s).coords.y == 0.0
  {
    var x, z := Coord(i), Coord(j);
    var y := Height(m, x, z, s);
    if ZoneOf(m, x, z) == Mountain && y <= ROCK_LINE {
      HeightNonNegative(m, x, z, s);
      var f := Min(y / 10.0, 1.0);
      assert 0.0 <= f <= 1.0;
      assert FOREST.r <= InterpolateColor(GRASS, FOREST, f).r;
    }
  }

  /** Flat cells keep the base noise as their height and are grass green with
      the green channel jittered by at most 0.05. */
  lemma FlatCells(m: MathLib, i: int, j: int, s: Sample)
    requires UnitSample(s)
    requires ZoneOf(m, Coord(i), Coord(j)) == Flat
    ensures CellVertex(m, i, j, s).coords.y == BaseNoise(s)
    ensures 0.0 <= CellVertex(m, i, j, s).coords.y <= 0.3
    ensures CellVertex(m, i, j, s).color.r == GRASS.r == CellVertex(m, i, j, s).color.b
    ensures Abs(CellVertex(m, i, j, s).color.g - GRASS.g) <= 0.05
  {
  }

  /** Mountain cells rise by the clamped elevation above their base noise,
      which is never negative and never above the peak height. */
  lemma MountainCells(m: MathLib, i: int, j: int, s: Sample)
    requires Lawful(m)
    requires ZoneOf(m, Coord(i), Coord(j)) == Mountain
    ensures CellVertex(m, i, j, s).coords.y - BaseNoise(s)
         == Elevation(m, MountainDistance(m, Coord(i), Coord(j)))
    ensures BaseNoise(s) <= CellVertex(m, i, j, s).coords.y <= BaseNoise(s) + MOUNT_HEIGHT
  {
  }

  /** The mountain's colour bands: snow above 13, rock above 10, and below that
      the grass-to-forest blend by min(y / 10, 1) with at most 0.02 of green jitter. */
  lemma MountainBands(m: MathLib, i: int, j: int, s: Sample)
    requires UnitSample(s)
    requires ZoneOf(m, Coord(i), Coord(j)) == Mountain
    ensures var v := CellVertex(m, i, j, s);
      v.coords.y > SNOW_LINE ==> v.color == SNOW
    ensures var v := CellVertex(m, i, j, s);
      ROCK_LINE < v.coords.y <= SNOW_LINE ==> v.color == ROCK
    ensures var v := CellVertex(m, i, j, s);
      v.coords.y <= ROCK_LINE ==>
        var f := Min(v.coords.y / 10.0, 1.0);
        var blend := InterpolateColor(GRASS, FOREST, f);
        0.0 <= f <= 1.0 &&
        v.color.r == blend.r && v.color.b == blend.b &&
        Abs(v.color.g - blend.g) <= 0.02 &&
        FOREST.r <= v.color.r <= GRASS.r &&
        FOREST.b <= v.color.b <= GRASS.b &&
        FOREST.g <= blend.g <= GRASS.g
  {
    var x, z := Coord(i), Coord(j);
    HeightNonNegative(m, x, z, s);
  }

  /** Low on the mountain the green channel stays close to the flat land's
      green: at height y it is at most 0.02 + 0.035 y away from 0.6 below,
      and at most 0.02 above. */
  lemma GreenSeam(m: MathLib, i: int, j: int, s: Sample)
    requires UnitSample(s)
    requires ZoneOf(m, Coord(i), Coord(j)) == Mountain
    ensures var v := CellVertex(m, i, j, s);
      v.coords.y <= ROCK_LINE ==>
        GRASS.g - 0.02 - 0.035 * v.coords.y <= v.color.g <= GRASS.g + 0.02
  {
    var x, z := Coord(i), Coord(j);
    HeightNonNegative(m, x, z, s);
    var y := Height(m, x, z, s);
    if y <= ROCK_LINE {
      var f := Min(y / 10.0, 1.0);
      assert f <= y / 10.0;
      assert InterpolateColor(GRASS, FOREST, f).g == 0.6 - 0.35 * f;
    }
  }

  /** Every colour the generator assigns lies in [0, 1]: the noise added to the
      green channel cannot push it out of range. */
  lemma ColorsInUnitRange(m: MathLib, i: int, j: int, s: Sample)
    requires UnitSample(s)
    ensures InUnitRange(CellVertex(m, i, j, s).color)
  {
    var x, z := Coord(i), Coord(j);
    if ZoneOf(m, x, z) == Mountain {
      MountainBands(m, i, j, s);
    }
  }

  /** The same for the whole generated grid. */
  lemma GridColorsInUnitRange(grid: seq<seq<Vertex>>, m: MathLib, samples: seq<seq<Sample>>)
    requires SamplesFit(samples) && UnitSamples(samples) && IsTerrain(grid, m, samples)
    ensures forall r, c :: 0 <= r < |grid| && 0 <= c < |grid[r]| ==> InUnitRange(grid[r][c].color)
  {
    forall r, c | 0 <= r < |grid| && 0 <= c < |grid[r]|
      ensures InUnitRange(grid[r][c].color)
    {
      ColorsInUnitRange(m, r - RANGE_LIMIT, c - RANGE_LIMIT, samples[r][c]);
    }
  }

  /** The elevation does not grow with the distance from the mountain's centre. */
  lemma ElevationFalls(m: MathLib, d1: real, d2: real)
    requires CosFallsOnQuarter(m)
    requires 0.0 <= d1 <= d2 < MOUNT_RADIUS
    ensures Elevation(m, d2) <= Elevation(m, d1)
  {
    var a := (d1 / MOUNT_RADIUS) * (PI / 2.0);
    var b := (d2 / MOUNT_RADIUS) * (PI / 2.0);
    assert 0.0 <= a <= b <= PI / 2.0;
    assert m.cos(b) <= m.cos(a);
  }

  /** Mountain cells lie at a distance in [0, 40) from the mountain's centre. */
  lemma MountainDistanceInRange(m: MathLib, x: real, z: real)
    requires Lawful(m)
    requires ZoneOf(m, x, z) == Mountain
    ensures 0.0 <= MountainDistance(m, x, z) < MOUNT_RADIUS
  {
    var dx, dz := x - MOUNT_X, z - MOUNT_Z;
    assert 0.0 <= dx * dx + dz * dz;
  }

  /** Of two mountain cells, the one nearer the centre rises at least as far
      above its base noise. */
  lemma CloserIsHigher(m: MathLib, i1: int, j1: int, s1: Sample, i2: int, j2: int, s2: Sample)
    requires Lawful(m) && CosFallsOnQuarter(m)
    ensures ZoneOf(m, Coord(i1), Coord(j1)) == Mountain &&
            ZoneOf(m, Coord(i2), Coord(j2)) == Mountain &&
            MountainDistance(m, Coord(i1), Coord(j1)) <= MountainDistance(m, Coord(i2), Coord(j2)) ==>
      CellVertex(m, i2, j2, s2).coords.y - BaseNoise(s2)
        <= CellVertex(m, i1, j1, s1).coords.y - BaseNoise(s1)
  {
    var d1, d2 := MountainDistance(m, Coord(i1), Coord(j1)), MountainDistance(m, Coord(i2), Coord(j2));
    if ZoneOf(m, Coord(i1), Coord(j1)) == Mountain && ZoneOf(m, Coord(i2), Coord(j2)) == Mountain && d1 <= d2 {
      MountainDistanceInRange(m, Coord(i1), Coord(j1));
      MountainDistanceInRange(m, Coord(i2), Coord(j2));
      ElevationFalls(m, d1, d2);
    }
  }

  /** The cell at the mountain's centre (32, -32), grid index (64, -64), is a
      mountain cell at full elevation 15 and is painted snow. */
  lemma PeakIsSnow(m: MathLib, s: Sample)
    requires Lawful(m) && UnitSample(s)
    ensures Coord(64) == MOUNT_X && Coord(-64) == MOUNT_Z
    ensures ZoneOf(m, MOUNT_X, MOUNT_Z) == Mountain
    ensures Elevation(m, MountainDistance(m, MOUNT_X, MOUNT_Z)) == MOUNT_HEIGHT
    ensures CellVertex(m, 64, -64, s).coords.y >= MOUNT_HEIGHT
    ensures CellVertex(m, 64, -64, s).color == SNOW
  {
    assert RoadCenter(m, MOUNT_X) >= MOUNT_X - 10.0;
    assert MountainDistance(m, MOUNT_X, MOUNT_Z) == m.sqrt(0.0);
  }

  /** In the generated grid the peak is vertex [144][16]. */
  lemma PeakInGrid(grid: seq<seq<Vertex>>, m: MathLib, samples: seq<seq<Sample>>)
    requires Lawful(m) && SamplesFit(samples) && UnitSamples(samples) && IsTerrain(grid, m, samples)
    ensures grid[144][16].coords.x == MOUNT_X && grid[144][16].coords.z == MOUNT_Z
    ensures grid[144][16].coords.y >= MOUNT_HEIGHT
    ensures grid[144][16].color == SNOW
  {
    assert UnitSample(samples[144][16]);
    PeakIsSnow(m, samples[144][16]);
  }
}
