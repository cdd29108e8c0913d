/** The program's state and routines: the global vertex_data, the generator
    that fills it and the three routines that walk it and emit primitives. */
module Scene {
  import opened PyMath
  import opened Terrain
  import opened Mesh
  import opened MeshFacts

  /** The module-level state of main.py: the vertex_data grid. */
  class Island {
    var vertexData: seq<seq<Vertex>>

    constructor ()
      ensures vertexData == []
    {
      vertexData := [];
    }

    /** generate_terrain_geometry: reset vertex_data and fill it row by row. */
    method GenerateTerrainGeometry(m: MathLib, samples: seq<seq<Sample>>)
      requires SamplesFit(samples)
      modifies this
      ensures IsTerrain(vertexData, m, samples)
      ensures IsMesh(vertexData)
    {
      vertexData := [];
      for i := -RANGE_LIMIT to RANGE_LIMIT + 1
        invariant |vertexData| == i + RANGE_LIMIT
        invariant forall r :: 0 <= r < |vertexData| ==> |vertexData[r]| == GRID_SIZE
        invariant forall r, c :: 0 <= r < |vertexData| && 0 <= c < GRID_SIZE ==>
          vertexData[r][c] == CellVertex(m, r - RANGE_LIMIT, c - RANGE_LIMIT, samples[r][c])
      {
        ghost var done := vertexData;
        var row: seq<Vertex> := [];
        for j := -RANGE_LIMIT to RANGE_LIMIT + 1
          invariant vertexData == done
          invariant |row| == j + RANGE_LIMIT
          invariant forall c :: 0 <= c < |row| ==>
            row[c] == CellVertex(m, i, c - RANGE_LIMIT, samples[i + RANGE_LIMIT][c])
        {
          var v := ComputeVertex(m, i, j, samples[i + RANGE_LIMIT][j + RANGE_LIMIT]);
          row := row + [v];
        }
        vertexData := vertexData + [row];
      }
    }

    /** draw_terrain_surface: one quad per 2x2 neighbourhood, row by row. */
    method DrawTerrainSurface() returns (quads: seq<Quad>)
      requires IsMesh(vertexData)
      ensures IsSurface(vertexData, quads)
    {
      var grid := vertexData;
      var rows := |grid|;
      var cols := |grid[0]|;
      ghost var w := cols - 1;
      quads := [];
      for r := 0 to rows - 1
        invariant |quads| == SurfaceIndex(r, 0, w)
        invariant forall r', c' :: 0 <= r' < r && 0 <= c' < w ==>
          SurfaceIndex(r', c', w) < |quads| && quads[SurfaceIndex(r', c', w)] == SurfaceQuad(grid, r', c')
      {
        ghost var done := quads;
        for c := 0 to cols - 1
          invariant |quads| == SurfaceIndex(r, c, w)
          invariant quads[..SurfaceIndex(r, 0, w)] == done
          invariant forall c' :: 0 <= c' < c ==> quads[SurfaceIndex(r, c', w)] == SurfaceQuad(grid, r, c')
        {
          var p1 := grid[r][c];
          var p2 := grid[r + 1][c];
          var p3 := grid[r + 1][c + 1];
          var p4 := grid[r][c + 1];
          quads := quads + [Quad(p1.color, p1.coords, p2.coords, p3.coords, p4.coords)];
        }
        assert SurfaceIndex(r, w, w) == SurfaceIndex(r + 1, 0, w);
      }
    }

    /** draw_dirt_walls: the four boundary wall strips, then the bottom cap. */
    method DrawDirtWalls() returns (quads: seq<Quad>)
      requires IsMesh(vertexData)
      ensures IsDirtWalls(vertexData, quads)
    {
      var rows := |vertexData|;
      var cols := |vertexData[0]|;
      var depth := -DIRT_DEPTH as real;
      quads := [];

      for c := 0 to cols - 1
        invariant |quads| == c
        invariant forall k :: 0 <= k < c ==> quads[k] == FirstRowWall(vertexData, k)
      {
        var p1 := vertexData[0][c].coords;
        var p2 := vertexData[0][c + 1].coords;
        quads := quads + [Quad(DIRT, p1, p2, Point(p2.x, depth, p2.z), Point(p1.x, depth, p1.z))];
      }

      for c := 0 to cols - 1
        invariant |quads| == (cols - 1) + c
        invariant forall k :: 0 <= k < cols - 1 ==> quads[k] == FirstRowWall(vertexData, k)
        invariant forall k :: 0 <= k < c ==> quads[(cols - 1) + k] == LastRowWall(vertexData, k)
      {
        var p1 := vertexData[rows - 1][c].coords;
        var p2 := vertexData[rows - 1][c + 1].coords;
        quads := quads + [Quad(DIRT, p2, p1, Point(p1.x, depth, p1.z), Point(p2.x, depth, p2.z))];
      }

      for r := 0 to rows - 1
        invariant |quads| == 2 * (cols - 1) + r
        invariant forall k :: 0 <= k < cols - 1 ==> quads[k] == FirstRowWall(vertexData, k)
        invariant forall k :: 0 <= k < cols - 1 ==> quads[(cols - 1) + k] == LastRowWall(vertexData, k)
        invariant forall k :: 0 <= k < r ==> quads[2 * (cols - 1) + k] == FirstColumnWall(vertexData, k)
      {
        var p1 := vertexData[r][0].coords;
        var p2 := vertexData[r + 1][0].coords;
        quads := quads + [Quad(DIRT, p2, p1, Point(p1.x, depth, p1.z), Point(p2.x, depth, p2.z))];
      }

      for r := 0 to rows - 1
        invariant |quads| == 2 * (cols - 1) + (rows - 1) + r
        invariant forall k :: 0 <= k < cols - 1 ==> quads[k] == FirstRowWall(vertexData, k)
        invariant forall k :: 0 <= k < cols - 1 ==> quads[(cols - 1) + k] == LastRowWall(vertexData, k)
        invariant forall k :: 0 <= k < rows - 1 ==> quads[2 * (cols - 1) + k] == FirstColumnWall(vertexData, k)
        invariant forall k :: 0 <= k < r ==>
          quads[2 * (cols - 1) + (rows - 1) + k] == LastColumnWall(vertexData, k)
      {
        var p1 := vertexData[r][cols - 1].coords;
        var p2 := vertexData[r + 1][cols - 1].coords;
        quads := quads + [Quad(DIRT, p1, p2, Point(p2.x, depth, p2.z), Point(p1.x, depth, p1.z))];
      }

      var s := ISLAND_SIZE as real;
      quads := quads + [Quad(DIRT, Point(-s, depth, -s), Point(s, depth, -s),
                                   Point(s, depth, s), Point(-s, depth, s))];
    }
  }

  /** draw_road_lines: walk i over [-80, 80) and emit a dash wherever the
      pattern i % 8 < 4 is on and the centreline is inside the island. The
      ghost `drawn` lists the indices that drew, in the order they drew: it
      holds exactly the indices that pass both tests, in increasing order. */
  method DrawRoadLines(m: MathLib) returns (segs: seq<Segment>, ghost drawn: seq<int>)
    ensures |drawn| == |segs|
    ensures forall k :: 0 <= k < |segs| ==>
      -DASH_RANGE <= drawn[k] < DASH_RANGE && Dashed(m, drawn[k]) && segs[k] == DashAt(m, drawn[k])
    ensures forall i :: -DASH_RANGE <= i < DASH_RANGE && Dashed(m, i) ==> i in drawn
    ensures forall k, l :: 0 <= k < l < |segs| ==> drawn[k] < drawn[l]
    ensures |segs| <= 80
  {
    segs, drawn := [], [];
    for i := -DASH_RANGE to DASH_RANGE
      invariant |drawn| == |segs|
      invariant forall k :: 0 <= k < |segs| ==>
        -DASH_RANGE <= drawn[k] < i && Dashed(m, drawn[k]) && segs[k] == DashAt(m, drawn[k])
      invariant forall i' :: -DASH_RANGE <= i' < i && Dashed(m, i') ==> i' in drawn
      invariant forall k, l :: 0 <= k < l < |segs| ==> drawn[k] < drawn[l]
      invariant |segs| <= DashSlots(-DASH_RANGE, i)
    {
      assert DashSlots(-DASH_RANGE, i + 1) == DashSlots(-DASH_RANGE, i) + if i % 8 < 4 then 1 else 0;
      var x := i as real * DASH_STEP;
      if i % 8 < 4 {
        var z := RoadCenter(m, x);
        if -(ISLAND_SIZE as real) < z < ISLAND_SIZE as real {
          var nextX := x + DASH_STEP;
          var nextZ := RoadCenter(m, nextX);
          segs := segs + [Segment(LINE_WHITE, Point(x, LINE_HEIGHT, z), Point(nextX, LINE_HEIGHT, nextZ))];
          drawn := drawn + [i];
          assert Dashed(m, i) && segs[|segs| - 1] == DashAt(m, i);
        }
      }
    }
    DashSlotsOfRoadLines();
  }
}
