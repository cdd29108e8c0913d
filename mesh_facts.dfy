/** What the emitted primitives look like when the grid is the generated terrain,
    and the counting facts behind the dashed road markings. */
module MeshFacts {
  import opened PyMath
  import opened Terrain
  import opened Mesh
  import opened TerrainFacts

  /** The generated terrain is a grid the drawing routines can walk. */
  lemma TerrainIsMesh(grid: seq<seq<Vertex>>, m: MathLib, samples: seq<seq<Sample>>)
    requires SamplesFit(samples) && IsTerrain(grid, m, samples)
    ensures IsMesh(grid)
  {
  }

  /** Every wall panel is earth brown and hangs straight down from its top
      edge: its floor corners are its top corners dropped to y = -DIRT_DEPTH. */
  lemma WallsHangFromTops(grid: seq<seq<Vertex>>, quads: seq<Quad>)
    requires IsMesh(grid) && IsDirtWalls(grid, quads)
    ensures forall k :: 0 <= k < |quads| ==> quads[k].color == DIRT
    ensures forall k :: 0 <= k < |quads| - 1 ==>
      quads[k].c == Drop(quads[k].b) && quads[k].d == Drop(quads[k].a)
  {
    var w, h := |grid[0]| - 1, |grid| - 1;
    forall k | 0 <= k < |quads| - 1
      ensures quads[k].color == DIRT
      ensures quads[k].c == Drop(quads[k].b) && quads[k].d == Drop(quads[k].a)
    {
      if k < w {
        assert quads[k] == FirstRowWall(grid, k);
      } else if k < 2 * w {
        assert quads[w + (k - w)] == LastRowWall(grid, k - w);
      } else if k < 2 * w + h {
        assert quads[2 * w + (k - 2 * w)] == FirstColumnWall(grid, k - 2 * w);
      } else {
        assert quads[2 * w + h + (k - 2 * w - h)] == LastColumnWall(grid, k - 2 * w - h);
      }
    }
  }

  /** A point of the rim of the bottom cap: at y = -10 on the border of the
      square [-40, 40] x [-40, 40]. */
  predicate OnCapRim(p: Point)
  {
    var s := ISLAND_SIZE as real;
    p.y == -DIRT_DEPTH as real &&
    -s <= p.x <= s && -s <= p.z <= s &&
    (p.x == -s || p.x == s || p.z == -s || p.z == s)
  }

  /** For the generated terrain the walls close the block: 641 quads, every
      wall panel's floor edge runs along the rim of the cap, right under its
      top edge, and the last quad is the cap. */
  lemma SkirtMeetsCap(grid: seq<seq<Vertex>>, m: MathLib, samples: seq<seq<Sample>>, quads: seq<Quad>)
    requires SamplesFit(samples) && IsTerrain(grid, m, samples)
    requires IsMesh(grid) && IsDirtWalls(grid, quads)
    ensures |quads| == 641
    ensures forall k :: 0 <= k < 640 ==>
      OnCapRim(quads[k].c) && OnCapRim(quads[k].d) &&
      quads[k].a.x == quads[k].d.x && quads[k].a.z == quads[k].d.z &&
      quads[k].b.x == quads[k].c.x && quads[k].b.z == quads[k].c.z
    ensures quads[640] == CAP
  {
    GridLayout(grid, m, samples);
    forall k | 0 <= k < 640
      ensures OnCapRim(quads[k].c) && OnCapRim(quads[k].d)
      ensures quads[k].a.x == quads[k].d.x && quads[k].a.z == quads[k].d.z
      ensures quads[k].b.x == quads[k].c.x && quads[k].b.z == quads[k].c.z
    {
      if k < 160 {
        assert quads[k] == FirstRowWall(grid, k);
      } else if k < 320 {
        assert quads[160 + (k - 160)] == LastRowWall(grid, k - 160);
      } else if k < 480 {
        assert quads[320 + (k - 320)] == FirstColumnWall(grid, k - 320);
      } else {
        assert quads[480 + (k - 480)] == LastColumnWall(grid, k - 480);
      }
    }
  }

  /** For the generated terrain the surface is 160 x 160 quads, and the quad of
      neighbourhood [r][c] covers the half-unit square from (x, z) to
      (x + 0.5, z + 0.5), x = (r - 80) / 2, z = (c - 80) / 2, in the colour of [r][c]. */
  lemma SurfaceTiles(grid: seq<seq<Vertex>>, m: MathLib, samples: seq<seq<Sample>>, quads: seq<Quad>)
    requires SamplesFit(samples) && IsTerrain(grid, m, samples)
    requires IsMesh(grid) && IsSurface(grid, quads)
    ensures |quads| == 160 * 160
    ensures forall r, c :: 0 <= r < 160 && 0 <= c < 160 ==>
      SurfaceIndex(r, c, 160) < |quads| &&
      quads[SurfaceIndex(r, c, 160)].color == grid[r][c].color &&
      quads[SurfaceIndex(r, c, 160)].a == grid[r][c].coords &&
      quads[SurfaceIndex(r, c, 160)].a.x == Coord(r - 80) &&
      quads[SurfaceIndex(r, c, 160)].a.z == Coord(c - 80) &&
      quads[SurfaceIndex(r, c, 160)].b.x == Coord(r - 80) + 0.5 &&
      quads[SurfaceIndex(r, c, 160)].b.z == Coord(c - 80) &&
      quads[SurfaceIndex(r, c, 160)].c.x == Coord(r - 80) + 0.5 &&
      quads[SurfaceIndex(r, c, 160)].c.z == Coord(c - 80) + 0.5 &&
      quads[SurfaceIndex(r, c, 160)].d.x == Coord(r - 80) &&
      quads[SurfaceIndex(r, c, 160)].d.z == Coord(c - 80) + 0.5
  {
    GridLayout(grid, m, samples);
  }

  // ---- Road markings ---------------------------------------------------

  /** Every dash lies on the road's centreline, inside the island, 0.05 above
      the ground, and spans half a unit of x. */
  lemma DashesOnRoad(m: MathLib, i: int)
    requires Dashed(m, i)
    ensures DashAt(m, i).color == LINE_WHITE
    ensures DashAt(m, i).from.y == LINE_HEIGHT && DashAt(m, i).to.y == LINE_HEIGHT
    ensures DashAt(m, i).to.x == DashAt(m, i).from.x + DASH_STEP
    ensures OnRoad(m, DashAt(m, i).from.x, DashAt(m, i).from.z)
    ensures OnRoad(m, DashAt(m, i).to.x, DashAt(m, i).to.z)
    ensures -(ISLAND_SIZE as real) < DashAt(m, i).from.z < ISLAND_SIZE as real
  {
  }

  /** Through the middle of the island (|x| < 30) the road cannot leave it,
      so every index whose pattern slot is on gets its dash. */
  lemma CentralDashesDrawn(m: MathLib, i: int)
    requires Lawful(m)
    requires -60 < i < 60 && i % 8 < 4
    ensures Dashed(m, i)
  {
    var x := i as real * DASH_STEP;
    assert -30.0 < x < 30.0;
    assert x - 10.0 <= RoadCenter(m, x) <= x + 10.0;
  }

  /** How many indices in [lo, hi) have their pattern slot on (i % 8 < 4). */
  function DashSlots(lo: int, hi: int): nat
    decreases hi - lo
  {
    if hi <= lo then 0 else DashSlots(lo, hi - 1) + (if (hi - 1) % 8 < 4 then 1 else 0)
  }

  lemma {:induction false} DashSlotsSplit(lo: int, mid: int, hi: int)
    requires lo <= mid <= hi
    ensures DashSlots(lo, hi) == DashSlots(lo, mid) + DashSlots(mid, hi)
    decreases hi - mid
  {
    if mid < hi {
      DashSlotsSplit(lo, mid, hi - 1);
    }
  }

  /** Any eight consecutive indices starting at a multiple of 8 hold four dash slots. */
  lemma DashSlotsPeriod(b: int)
    requires b % 8 == 0
    ensures DashSlots(b, b + 8) == 4
  {
    assert DashSlots(b, b + 1) == 1;
    assert DashSlots(b, b + 2) == 2;
    assert DashSlots(b, b + 3) == 3;
    assert DashSlots(b, b + 4) == 4;
    assert DashSlots(b, b + 5) == 4;
    assert DashSlots(b, b + 6) == 4;
    assert DashSlots(b, b + 7) == 4;
  }

  lemma {:induction false} DashSlotsPeriods(b: int, n: nat)
    requires b % 8 == 0
    ensures DashSlots(b, b + 8 * n) == 4 * n
  {
    if n > 0 {
      DashSlotsPeriods(b, n - 1);
      DashSlotsSplit(b, b + 8 * (n - 1), b + 8 * n);
      DashSlotsPeriod(b + 8 * (n - 1));
    }
  }

  /** The pattern "draw 4, skip 4" leaves 80 of the 160 indices of
      draw_road_lines able to draw a dash. */
  lemma DashSlotsOfRoadLines()
    ensures DashSlots(-DASH_RANGE, DASH_RANGE) == 80
  {
    DashSlotsPeriods(-DASH_RANGE, 20);
  }
}
