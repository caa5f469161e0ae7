/** The terrain map: three noise grids fused into a flat, column-major list
    of centred points with optional biomes (src/terrain/TerrainMap.ts). */
module Terrain {
  import opened Wrappers
  import opened Biomes
  import opened MapInterpreter
  import opened NoiseGenerator
  import opened MathUtil

  /** A point in model space. */
  datatype Vec3 = Vec3(x: real, y: real, z: real)

  /** A terrain point and its biome, absent when no classification ran. */
  datatype TerrainPoint = TerrainPoint(point: Vec3, biome: Option<Biome>)

  /** `points` (the source's `map` array) lists the points column by
      column; `width` counts columns and `height` rows. */
  datatype TerrainMap = TerrainMap(points: seq<TerrainPoint>, width: nat, height: nat) {
    /** One point per cell. */
    predicate WellFormed() {
      |points| == Mul(width, height)
    }
  }

  /** Why construction throws. */
  datatype TerrainError =
    | DimensionMismatch   // the three maps differ in width or first-column length
    | ReadOfUndefined     // all three maps are empty, so `temperatureMap[0].length` reads undefined

  /** The number of elevation columns, 0 without an elevation map. */
  function MapWidth(elevation: Option<Grid>): nat {
    if elevation.Some? then |elevation.value| else 0
  }

  /** The length of the first elevation column, 0 without one. */
  function MapHeight(elevation: Option<Grid>): nat {
    if elevation.Some? && |elevation.value| > 0 then |elevation.value[0]| else 0
  }

  /** Every column of `g` is as long as the first. */
  predicate Rectangular(g: Grid) {
    forall c | 0 <= c < |g| :: |g[c]| == |g[0]|
  }

  predicate RectangularIfGiven(g: Option<Grid>) {
    g.None? || Rectangular(g.value)
  }

  /** The position of cell (col, row) in the column-major list:
      col * height + row. */
  function FlatIndex(height: nat, col: nat, row: nat): nat {
    Mul(col, height) + row
  }

  /** A cell of a `width` by `height` grid has a position inside the list. */
  lemma FlatIndexInBounds(width: nat, height: nat, col: nat, row: nat)
    requires col < width && row < height
    ensures FlatIndex(height, col, row) < Mul(width, height)
  {
    MulIndexBound(col, width, height, row);
  }

  /** Every position of the list belongs to exactly one cell, so the
      column-major layout is a bijection between cells and positions. */
  lemma FlatIndexOnto(width: nat, height: nat, i: nat) returns (col: nat, row: nat)
    requires i < Mul(width, height)
    ensures col < width && row < height && FlatIndex(height, col, row) == i
  {
    col, row := MulSplit(i, width, height);
  }

  lemma FlatIndexInjective(height: nat, c1: nat, r1: nat, c2: nat, r2: nat)
    requires r1 < height && r2 < height
    requires FlatIndex(height, c1, r1) == FlatIndex(height, c2, r2)
    ensures c1 == c2 && r1 == r2
  {
    if c1 < c2 {
      MulMonotone(c1 + 1, c2, height);
    } else if c2 < c1 {
      MulMonotone(c2 + 1, c1, height);
    }
  }

  /** The point of cell (col, row) of a well-formed map. */
  function At(tm: TerrainMap, col: nat, row: nat): TerrainPoint
    requires tm.WellFormed() && col < tm.width && row < tm.height
  {
    FlatIndexInBounds(tm.width, tm.height, col, row);
    tm.points[FlatIndex(tm.height, col, row)]
  }

  /** The position construction gives cell (col, row): x and z centred by
      half the width and height (real division), y the raw elevation. */
  function CellPosition(elevation: Grid, width: nat, height: nat, col: nat, row: nat): Vec3
    requires IsGrid(elevation, width, height) && col < width && row < height
  {
    Vec3(col as real - width as real / 2.0, elevation[col][row], row as real - height as real / 2.0)
  }

  /** The biome construction gives cell (col, row): classified only when both
      temperature and moisture maps are given. */
  function CellBiome(elevation: Grid, temperature: Option<Grid>, moisture: Option<Grid>,
                     width: nat, height: nat, col: nat, row: nat): Option<Biome>
    requires IsGrid(elevation, width, height) && col < width && row < height
    requires temperature.Some? && moisture.Some? ==>
      IsGrid(temperature.value, width, height) && IsGrid(moisture.value, width, height)
  {
    if temperature.Some? && moisture.Some?
    then Some(GetBiome(elevation[col][row], temperature.value[col][row], moisture.value[col][row]))
    else None
  }

  /** The point construction makes for cell (col, row). */
  function ExpectedPoint(elevation: Grid, temperature: Option<Grid>, moisture: Option<Grid>,
                         width: nat, height: nat, col: nat, row: nat): TerrainPoint
    requires IsGrid(elevation, width, height) && col < width && row < height
    requires temperature.Some? && moisture.Some? ==>
      IsGrid(temperature.value, width, height) && IsGrid(moisture.value, width, height)
  {
    TerrainPoint(CellPosition(elevation, width, height, col, row),
                 CellBiome(elevation, temperature, moisture, width, height, col, row))
  }

  /** Every cell of `tm` holds its centred position. */
  ghost predicate HasCellPositions(tm: TerrainMap, elevation: Grid) {
    && tm.WellFormed()
    && IsGrid(elevation, tm.width, tm.height)
    && forall col, row | 0 <= col < tm.width && 0 <= row < tm.height ::
         At(tm, col, row).point == CellPosition(elevation, tm.width, tm.height, col, row)
  }

  /** True when construction from the three maps must throw. */
  predicate Mismatched(elevation: Option<Grid>, temperature: Option<Grid>, moisture: Option<Grid>) {
    && elevation.Some? && temperature.Some? && moisture.Some?
    && var w := MapWidth(elevation);
       var h := MapHeight(elevation);
       var t := temperature.value;
       var m := moisture.value;
       w != |t| || w != |m| || |t| == 0 || h != |t[0]| || h != |m[0]|
  }

  /** `tm` is the map built from the given grids: one point per cell,
      column-major, each the expected point of its cell. */
  ghost predicate IsTerrainOf(tm: TerrainMap, elevation: Option<Grid>, temperature: Option<Grid>, moisture: Option<Grid>) {
    && tm.width == MapWidth(elevation)
    && tm.height == MapHeight(elevation)
    && tm.WellFormed()
    && (elevation.Some? ==>
          && IsGrid(elevation.value, tm.width, tm.height)
          && (temperature.Some? && moisture.Some? ==>
                IsGrid(temperature.value, tm.width, tm.height) && IsGrid(moisture.value, tm.width, tm.height))
          && forall col, row | 0 <= col < tm.width && 0 <= row < tm.height ::
               At(tm, col, row) == ExpectedPoint(elevation.value, temperature, moisture, tm.width, tm.height, col, row))
  }

  /** The constructor's size check: an error exactly when all three maps
      are given and their sizes differ. */
  function SizeError(elevation: Option<Grid>, temperature: Option<Grid>, moisture: Option<Grid>)
    : (e: Option<TerrainError>)
    ensures e.Some? <==> Mismatched(elevation, temperature, moisture)
    ensures e.Some? ==> (e.value == TerrainError.ReadOfUndefined <==>
      |elevation.value| == |temperature.value| == |moisture.value| == 0)
  {
    if elevation.Some? && temperature.Some? && moisture.Some? then
      var w, h := MapWidth(elevation), MapHeight(elevation);
      var t, m := temperature.value, moisture.value;
      if w != |t| || w != |m| then Some(DimensionMismatch)
      else if |t| == 0 then Some(TerrainError.ReadOfUndefined)
      else if h != |t[0]| || h != |m[0]| then Some(DimensionMismatch)
      else None
    else None
  }

  /** Maps that pass the size check have the elevation map's shape. */
  lemma MatchedShapes(elevation: Option<Grid>, temperature: Option<Grid>, moisture: Option<Grid>)
    requires RectangularIfGiven(elevation) && RectangularIfGiven(temperature) && RectangularIfGiven(moisture)
    requires elevation.Some? && !Mismatched(elevation, temperature, moisture)
    ensures IsGrid(elevation.value, MapWidth(elevation), MapHeight(elevation))
    ensures temperature.Some? && moisture.Some? ==>
      && IsGrid(temperature.value, MapWidth(elevation), MapHeight(elevation))
      && IsGrid(moisture.value, MapWidth(elevation), MapHeight(elevation))
  {
  }

  /** The two nested loops of the constructor: column by column, row by row,
      one expected point per cell. */
  method FusePoints(elevation: Grid, temperature: Option<Grid>, moisture: Option<Grid>, w: nat, h: nat)
    returns (points: seq<TerrainPoint>)
    requires IsGrid(elevation, w, h)
    requires temperature.Some? && moisture.Some? ==>
      IsGrid(temperature.value, w, h) && IsGrid(moisture.value, w, h)
    ensures |points| == Mul(w, h)
    ensures forall c, rw | 0 <= c < w && 0 <= rw < h ::
      FlatIndex(h, c, rw) < |points| && points[FlatIndex(h, c, rw)] == ExpectedPoint(elevation, temperature, moisture, w, h, c, rw)
  {
    points := [];
    var col := 0;
    while col < w
      invariant 0 <= col <= w
      invariant |points| == Mul(col, h)
      invariant forall c, rw | 0 <= c < col && 0 <= rw < h ::
        FlatIndex(h, c, rw) < |points| && points[FlatIndex(h, c, rw)] == ExpectedPoint(elevation, temperature, moisture, w, h, c, rw)
    {
      var row := 0;
      while row < h
        invariant 0 <= row <= h
        invariant |points| == Mul(col, h) + row
        invariant forall c, rw | 0 <= c < col && 0 <= rw < h ::
          FlatIndex(h, c, rw) < |points| && points[FlatIndex(h, c, rw)] == ExpectedPoint(elevation, temperature, moisture, w, h, c, rw)
        invariant forall rw | 0 <= rw < row ::
          FlatIndex(h, col, rw) < |points| && points[FlatIndex(h, col, rw)] == ExpectedPoint(elevation, temperature, moisture, w, h, col, rw)
      {
        points := points + [ExpectedPoint(elevation, temperature, moisture, w, h, col, row)];
        row := row + 1;
      }
      col := col + 1;
    }
  }

  /** The constructor. It throws when all three maps are given and their
      sizes differ; otherwise it builds one point per elevation cell. */
  method Build(elevation: Option<Grid>, temperature: Option<Grid>, moisture: Option<Grid>)
    returns (r: Result<TerrainMap, TerrainError>)
    requires RectangularIfGiven(elevation) && RectangularIfGiven(temperature) && RectangularIfGiven(moisture)
    ensures r.Err? <==> Mismatched(elevation, temperature, moisture)
    ensures r.Err? ==> (r.error == TerrainError.ReadOfUndefined <==>
      |elevation.value| == |temperature.value| == |moisture.value| == 0)
    ensures r.Ok? ==> IsTerrainOf(r.value, elevation, temperature, moisture)
    ensures r.Ok? && elevation.None? ==> r.value.points == []
  {
    var failure := SizeError(elevation, temperature, moisture);
    if failure.Some? {
      return Err(failure.value);
    }
    var w, h := MapWidth(elevation), MapHeight(elevation);
    if elevation.None? {
      return Ok(TerrainMap([], w, h));
    }
    MatchedShapes(elevation, temperature, moisture);
    var points := FusePoints(elevation.value, temperature, moisture, w, h);
    r := Ok(TerrainMap(points, w, h));
  }

  /** The first column sits at x = -width/2, and mirrored columns sum to -1:
      the grid is centred on -1/2, not on 0. */
  lemma Centering(elevation: Grid, temperature: Option<Grid>, moisture: Option<Grid>,
                  width: nat, height: nat, col: nat, row: nat)
    requires IsGrid(elevation, width, height) && col < width && row < height
    requires temperature.Some? && moisture.Some? ==>
      IsGrid(temperature.value, width, height) && IsGrid(moisture.value, width, height)
    ensures ExpectedPoint(elevation, temperature, moisture, width, height, 0, row).point.x == -(width as real) / 2.0
    ensures ExpectedPoint(elevation, temperature, moisture, width, height, col, row).point.x
          + ExpectedPoint(elevation, temperature, moisture, width, height, width - 1 - col, row).point.x == -1.0
  {
  }

  /** `getPoint(x, y)`: reads `map[x * width + y]`, undefined past the end. */
  function GetPoint(tm: TerrainMap, x: nat, y: nat): (r: Option<TerrainPoint>)
    ensures r.Some? <==> x * tm.width + y < |tm.points|
    ensures r.Some? ==> r.value == tm.points[x * tm.width + y]
  {
    MulIsProduct(x, tm.width);
    var i := Mul(x, tm.width) + y;
    if i < |tm.points| then Some(tm.points[i]) else None
  }

  /** On a square map getPoint returns the point of cell (x, y). */
  lemma GetPointSquare(tm: TerrainMap, x: nat, y: nat)
    requires tm.WellFormed() && tm.width == tm.height
    requires x < tm.width && y < tm.height
    ensures GetPoint(tm, x, y) == Some(At(tm, x, y))
  {
    FlatIndexInBounds(tm.width, tm.height, x, y);
    MulIsProduct(x, tm.width);
  }

  /** On a built map getPoint agrees with the layout on every cell exactly
      when the map is square, has at most one column, or has no rows. */
  lemma GetPointAgreesIff(tm: TerrainMap, elevation: Option<Grid>, temperature: Option<Grid>, moisture: Option<Grid>)
    requires IsTerrainOf(tm, elevation, temperature, moisture)
    ensures (forall x, y | 0 <= x < tm.width && 0 <= y < tm.height :: GetPoint(tm, x, y) == Some(At(tm, x, y)))
        <==> (tm.width == tm.height || tm.width <= 1 || tm.height == 0)
  {
    if tm.width == tm.height || tm.width <= 1 || tm.height == 0 {
      GetPointAgrees(tm);
    } else {
      var elev := elevation.value;
      forall col, row | 0 <= col < tm.width && 0 <= row < tm.height
        ensures At(tm, col, row).point == CellPosition(elev, tm.width, tm.height, col, row)
      {
        assert At(tm, col, row) == ExpectedPoint(elev, temperature, moisture, tm.width, tm.height, col, row);
      }
      GetPointMisreads(tm, elev);
    }
  }

  lemma GetPointAgrees(tm: TerrainMap)
    requires tm.WellFormed()
    requires tm.width == tm.height || tm.width <= 1 || tm.height == 0
    ensures forall x, y | 0 <= x < tm.width && 0 <= y < tm.height :: GetPoint(tm, x, y) == Some(At(tm, x, y))
  {
    forall x, y | 0 <= x < tm.width && 0 <= y < tm.height
      ensures GetPoint(tm, x, y) == Some(At(tm, x, y))
    {
      FlatIndexInBounds(tm.width, tm.height, x, y);
      MulIsProduct(x, tm.width);
      if tm.width <= 1 {
        assert x == 0;
      }
    }
  }

  /** On a built map with at least two columns, at least one row and
      width != height, getPoint(1, 0) is not the point of cell (1, 0): the
      cell sits at index height, but getPoint reads index width. */
  lemma GetPointMisreads(tm: TerrainMap, elevation: Grid)
    requires HasCellPositions(tm, elevation)
    requires tm.width != tm.height && tm.width >= 2 && tm.height >= 1
    ensures GetPoint(tm, 1, 0) != Some(At(tm, 1, 0))
  {
    var w, h := tm.width, tm.height;
    var cell := At(tm, 1, 0);
    assert cell.point.x == 1.0 - w as real / 2.0 && cell.point.z == - (h as real) / 2.0;
    MulIsProduct(1, w);
    if w < Mul(w, h) {
      var c, rw := FlatIndexOnto(w, h, w);
      var other := At(tm, c, rw);
      assert GetPoint(tm, 1, 0) == Some(other);
      assert FlatIndex(h, 1, 0) == h by {
        assert Mul(1, h) == Mul(0, h) + h;
      }
      assert c != 1 || rw != 0;
      assert other.point.x == c as real - w as real / 2.0 && other.point.z == rw as real - h as real / 2.0;
    } else {
      assert GetPoint(tm, 1, 0).None?;
    }
  }

  /** The column-major read `getPoint` evidently intends: stride `height`. */
  function PointAt(tm: TerrainMap, col: nat, row: nat): (r: Option<TerrainPoint>)
    requires tm.WellFormed()
    ensures r.Some? <==> col < tm.width && row < tm.height
    ensures r.Some? ==> FlatIndex(tm.height, col, row) < |tm.points|
                        && r.value == tm.points[FlatIndex(tm.height, col, row)]
  {
    if col < tm.width && row < tm.height then
      FlatIndexInBounds(tm.width, tm.height, col, row);
      Some(At(tm, col, row))
    else None
  }
}
