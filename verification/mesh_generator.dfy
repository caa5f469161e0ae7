/** Mesh structure of a terrain map (src/util/MeshGenerator.ts): scaled
    wireframe lines, quad vertex/index/colour buffers, and the centre point
    the wireframe pass records. Cells are read through `Terrain.At`, the
    column-major layout the map is built in. */
module MeshGenerator {
  import opened Wrappers
  import opened Biomes
  import opened Terrain
  import opened MathUtil

  /** Optional scaling: `scaleLengthAndWidth` for x and z, `scaleHeight` for y. */
  datatype ScaleSettings = ScaleSettings(scaleHeight: real, scaleLengthAndWidth: real)

  /** Both factors are non-zero, so scaling can be undone. */
  predicate Invertible(s: ScaleSettings) {
    s.scaleHeight != 0.0 && s.scaleLengthAndWidth != 0.0
  }

  /** `_scalePoint`: the point itself without settings, otherwise a copy with
      x and z scaled by `scaleLengthAndWidth` and y by `scaleHeight`. */
  function ScalePoint(p: Vec3, scale: Option<ScaleSettings>): (r: Vec3)
    ensures scale.None? ==> r == p
    ensures scale.Some? ==>
      && r.x == p.x * scale.value.scaleLengthAndWidth
      && r.y == p.y * scale.value.scaleHeight
      && r.z == p.z * scale.value.scaleLengthAndWidth
  {
    match scale
    case None => p
    case Some(s) => Vec3(p.x * s.scaleLengthAndWidth, p.y * s.scaleHeight, p.z * s.scaleLengthAndWidth)
  }

  /** The reciprocal settings. */
  function Reciprocal(s: ScaleSettings): ScaleSettings
    requires Invertible(s)
  {
    ScaleSettings(1.0 / s.scaleHeight, 1.0 / s.scaleLengthAndWidth)
  }

  /** Scaling by invertible settings and then by their reciprocals gives the
      original point back. */
  lemma ScaleRoundTrip(p: Vec3, s: ScaleSettings)
    requires Invertible(s)
    ensures ScalePoint(ScalePoint(p, Some(s)), Some(Reciprocal(s))) == p
  {
    var q := ScalePoint(p, Some(s));
    var t := ScalePoint(q, Some(Reciprocal(s)));
    assert t.x == p.x by { CancelFactor(p.x, s.scaleLengthAndWidth); }
    assert t.y == p.y by { CancelFactor(p.y, s.scaleHeight); }
    assert t.z == p.z by { CancelFactor(p.z, s.scaleLengthAndWidth); }
  }

  lemma CancelFactor(v: real, f: real)
    requires f != 0.0
    ensures v * f * (1.0 / f) == v
  {
  }

  /** Invertible settings never send two points to the same point. */
  lemma ScaleInjective(p: Vec3, q: Vec3, s: ScaleSettings)
    requires Invertible(s)
    ensures ScalePoint(p, Some(s)) == ScalePoint(q, Some(s)) <==> p == q
  {
    if ScalePoint(p, Some(s)) == ScalePoint(q, Some(s)) {
      ScaleRoundTrip(p, s);
      ScaleRoundTrip(q, s);
    }
  }

  /** The scaled position of cell (col, row). */
  function CellVertex(tm: TerrainMap, scale: Option<ScaleSettings>, col: nat, row: nat): Vec3
    requires tm.WellFormed() && col < tm.width && row < tm.height
  {
    ScalePoint(At(tm, col, row).point, scale)
  }

  /** The centre point after a wireframe pass: the scaled cell at column
      width/2 and row height/2 (floor division) on a non-empty grid, otherwise
      the centre recorded before. */
  function CenterAfterWireframe(tm: TerrainMap, scale: Option<ScaleSettings>, previous: Vec3): Vec3
    requires tm.WellFormed()
  {
    if tm.width > 0 && tm.height > 0 then CellVertex(tm, scale, tm.width / 2, tm.height / 2) else previous
  }

  /** `rows` are the row lines of `tm`: `height` lines of `width` points,
      line r holding the scaled cells of row r from left to right. */
  ghost predicate IsRowLines(tm: TerrainMap, scale: Option<ScaleSettings>, rows: seq<seq<Vec3>>)
    requires tm.WellFormed()
  {
    && |rows| == tm.height
    && (forall row | 0 <= row < tm.height :: |rows[row]| == tm.width)
    && (forall row, col | 0 <= row < tm.height && 0 <= col < tm.width ::
          rows[row][col] == CellVertex(tm, scale, col, row))
  }

  /** `cols` are the column lines of `tm`: `width` lines of `height` points,
      line c holding the scaled cells of column c from bottom to top. */
  ghost predicate IsColumnLines(tm: TerrainMap, scale: Option<ScaleSettings>, cols: seq<seq<Vec3>>)
    requires tm.WellFormed()
  {
    && |cols| == tm.width
    && (forall col | 0 <= col < tm.width :: |cols[col]| == tm.height)
    && (forall row, col | 0 <= row < tm.height && 0 <= col < tm.width ::
          cols[col][row] == CellVertex(tm, scale, col, row))
  }

  /** `lines` is the wireframe of `tm`: the row lines, then the column lines. */
  ghost predicate IsWireframeOf(tm: TerrainMap, scale: Option<ScaleSettings>, lines: seq<seq<Vec3>>)
    requires tm.WellFormed()
  {
    && |lines| == tm.height + tm.width
    && IsRowLines(tm, scale, lines[..tm.height])
    && IsColumnLines(tm, scale, lines[tm.height..])
  }

  /** Row line `row` and column line `col` of a wireframe cross at the cell
      (col, row). */
  lemma WireframeCrossing(tm: TerrainMap, scale: Option<ScaleSettings>, lines: seq<seq<Vec3>>, row: nat, col: nat)
    requires tm.WellFormed() && IsWireframeOf(tm, scale, lines)
    requires row < tm.height && col < tm.width
    ensures |lines[row]| == tm.width && |lines[tm.height + col]| == tm.height
    ensures lines[row][col] == lines[tm.height + col][row] == CellVertex(tm, scale, col, row)
  {
    assert lines[..tm.height][row] == lines[row];
    assert lines[tm.height..][col] == lines[tm.height + col];
  }

  /** The centre seen after visiting cells of rows before `row` and cells of
      `row` before `col`, in the row-line order. */
  function CenterSoFar(tm: TerrainMap, scale: Option<ScaleSettings>, previous: Vec3, row: nat, col: nat): Vec3
    requires tm.WellFormed()
  {
    var cr, cc := tm.height / 2, tm.width / 2;
    if tm.width > 0 && tm.height > 0 && (cr < row || (cr == row && cc < col))
    then CellVertex(tm, scale, cc, cr)
    else previous
  }

  /** One row line, recording the centre when it passes the centre cell. */
  method RowLine(tm: TerrainMap, scale: Option<ScaleSettings>, row: nat, center: Vec3, ghost previous: Vec3)
    returns (line: seq<Vec3>, center': Vec3)
    requires tm.WellFormed() && row < tm.height
    requires center == CenterSoFar(tm, scale, previous, row, 0)
    ensures |line| == tm.width
    ensures forall col | 0 <= col < tm.width :: line[col] == CellVertex(tm, scale, col, row)
    ensures center' == CenterSoFar(tm, scale, previous, row + 1, 0)
  {
    line, center' := [], center;
    var col := 0;
    while col < tm.width
      invariant col <= tm.width
      invariant |line| == col
      invariant forall c | 0 <= c < col :: line[c] == CellVertex(tm, scale, c, row)
      invariant center' == CenterSoFar(tm, scale, previous, row, col)
    {
      var point := CellVertex(tm, scale, col, row);
      if row == tm.height / 2 && col == tm.width / 2 {
        center' := point;
      }
      line := line + [point];
      col := col + 1;
    }
  }

  /** One column line. */
  method ColumnLine(tm: TerrainMap, scale: Option<ScaleSettings>, col: nat) returns (line: seq<Vec3>)
    requires tm.WellFormed() && col < tm.width
    ensures |line| == tm.height
    ensures forall row | 0 <= row < tm.height :: line[row] == CellVertex(tm, scale, col, row)
  {
    line := [];
    var row := 0;
    while row < tm.height
      invariant row <= tm.height
      invariant |line| == row
      invariant forall r | 0 <= r < row :: line[r] == CellVertex(tm, scale, col, r)
    {
      line := line + [CellVertex(tm, scale, col, row)];
      row := row + 1;
    }
  }

  /** The row-line loop of `_genWireframe`. */
  method RowLines(tm: TerrainMap, scale: Option<ScaleSettings>, previous: Vec3)
    returns (rows: seq<seq<Vec3>>, center: Vec3)
    requires tm.WellFormed()
    ensures IsRowLines(tm, scale, rows)
    ensures center == CenterAfterWireframe(tm, scale, previous)
  {
    rows, center := [], previous;
    var row := 0;
    while row < tm.height
      invariant row <= tm.height
      invariant |rows| == row
      invariant forall r | 0 <= r < row :: |rows[r]| == tm.width
      invariant forall r, c | 0 <= r < row && 0 <= c < tm.width :: rows[r][c] == CellVertex(tm, scale, c, r)
      invariant center == CenterSoFar(tm, scale, previous, row, 0)
    {
      var line;
      line, center := RowLine(tm, scale, row, center, previous);
      rows := rows + [line];
      row := row + 1;
    }
  }

  /** The column-line loop of `_genWireframe`. */
  method ColumnLines(tm: TerrainMap, scale: Option<ScaleSettings>) returns (cols: seq<seq<Vec3>>)
    requires tm.WellFormed()
    ensures IsColumnLines(tm, scale, cols)
  {
    cols := [];
    var col := 0;
    while col < tm.width
      invariant col <= tm.width
      invariant |cols| == col
      invariant forall c | 0 <= c < col :: |cols[c]| == tm.height
      invariant forall r, c | 0 <= r < tm.height && 0 <= c < col :: cols[c][r] == CellVertex(tm, scale, c, r)
    {
      var line := ColumnLine(tm, scale, col);
      cols := cols + [line];
      col := col + 1;
    }
  }

  /** `_genWireframe`: the row lines, then the column lines; the centre point
      (a static field in the source) is passed in and handed back, and on a
      non-empty grid it is the middle point of the middle row line. */
  method GenWireframe(tm: TerrainMap, scale: Option<ScaleSettings>, previous: Vec3)
    returns (lines: seq<seq<Vec3>>, center: Vec3)
    requires tm.WellFormed()
    ensures IsWireframeOf(tm, scale, lines)
    ensures center == CenterAfterWireframe(tm, scale, previous)
    ensures tm.width > 0 && tm.height > 0 ==>
      |lines[tm.height / 2]| == tm.width && center == lines[tm.height / 2][tm.width / 2]
  {
    var rows, cols;
    rows, center := RowLines(tm, scale, previous);
    cols := ColumnLines(tm, scale);
    lines := rows + cols;
    assert lines[..tm.height] == rows && lines[tm.height..] == cols;
    if tm.width > 0 && tm.height > 0 {
      WireframeCrossing(tm, scale, lines, tm.height / 2, tm.width / 2);
    }
  }

  /** A grid cell, addressed the way `Terrain.At` reads it. */
  datatype Cell = Cell(col: nat, row: nat)

  predicate InGrid(tm: TerrainMap, c: Cell) {
    c.col < tm.width && c.row < tm.height
  }

  /** The colour of a cell's biome. */
  function CellColor(tm: TerrainMap, c: Cell): Rgb
    requires tm.WellFormed() && InGrid(tm, c)
  {
    BiomeColor(At(tm, c.col, c.row).biome)
  }

  /** Quads per row and per column: `col < width - 1` runs no times for an
      empty grid. */
  function QuadCols(tm: TerrainMap): nat {
    if tm.width > 0 then tm.width - 1 else 0
  }

  function QuadRows(tm: TerrainMap): nat {
    if tm.height > 0 then tm.height - 1 else 0
  }

  /** The number of quads: `quadRows` rows of `quadCols` each. */
  function QuadCount(tm: TerrainMap): nat {
    Mul(QuadRows(tm), QuadCols(tm))
  }

  /** The bottom-left cell of quad number `q`, quads numbered row by row:
      the first `quadCols` numbers are row 0, the rest continue a row up. */
  function QuadOf(quadCols: nat, q: nat): Cell
    requires quadCols > 0
  {
    if q < quadCols then Cell(q, 0)
    else
      var below := QuadOf(quadCols, q - quadCols);
      Cell(below.col, below.row + 1)
  }

  /** The number of the quad whose bottom-left cell is `c`:
      row * quadCols + col. */
  function QuadNumber(quadCols: nat, c: Cell): nat {
    Mul(c.row, quadCols) + c.col
  }

  /** Corner `k` of the quad at `origin`: bottom left, top left, top right,
      bottom right. */
  function Corner(origin: Cell, k: nat): Cell
    requires k < 4
  {
    match k
    case 0 => origin
    case 1 => Cell(origin.col, origin.row + 1)
    case 2 => Cell(origin.col + 1, origin.row + 1)
    case _ => Cell(origin.col + 1, origin.row)
  }

  /** The vertex slots of a quad's two triangles, (0, 1, 3) and (1, 2, 3). */
  const TriangleSlots: seq<nat> := [0, 1, 3, 1, 2, 3]

  /** Entry `k` of quad `q`'s six indices. */
  function TriangleIndex(q: nat, k: nat): nat
    requires k < 6
  {
    4 * q + TriangleSlots[k]
  }

  /** The quad buffers. Vertices are kept as the cells they come from:
      the source normalises the vertex objects in place afterwards, so their
      final positions are not the scaled cell positions. */
  datatype QuadMesh = QuadMesh(vertices: seq<Cell>, indices: seq<nat>, colors: seq<Rgb>)

  /** The first `n` quads are in the buffers, four vertices, four colours and
      six indices each. */
  ghost predicate QuadsUpTo(tm: TerrainMap, quadCols: nat, n: nat, m: QuadMesh)
    requires tm.WellFormed()
  {
    && |m.vertices| == 4 * n && |m.colors| == 4 * n && |m.indices| == 6 * n
    && (n > 0 ==> quadCols > 0)
    && (forall j, k | 0 <= j < n && 0 <= k < 4 :: m.vertices[4 * j + k] == Corner(QuadOf(quadCols, j), k))
    && (forall j, k | 0 <= j < n && 0 <= k < 6 :: m.indices[6 * j + k] == TriangleIndex(j, k))
    && (forall i | 0 <= i < |m.vertices| :: InGrid(tm, m.vertices[i]) && m.colors[i] == CellColor(tm, m.vertices[i]))
  }

  /** `m` holds exactly the quads of `tm`. */
  ghost predicate IsQuadMeshOf(tm: TerrainMap, m: QuadMesh)
    requires tm.WellFormed()
  {
    QuadsUpTo(tm, QuadCols(tm), QuadCount(tm), m)
  }

  /** `row * quadCols + col` splits back into `col` and `row`. */
  lemma {:induction false} QuadOfNumber(quadCols: nat, row: nat, col: nat)
    requires col < quadCols
    ensures QuadOf(quadCols, QuadNumber(quadCols, Cell(col, row))) == Cell(col, row)
  {
    if row > 0 {
      QuadOfNumber(quadCols, row - 1, col);
    }
  }

  /** Appending the quad at cell (col, row), which is quad number `n`. */
  lemma QuadsStep(tm: TerrainMap, quadCols: nat, n: nat, m: QuadMesh, col: nat, row: nat)
    requires tm.WellFormed() && QuadsUpTo(tm, quadCols, n, m)
    requires col < quadCols && n == QuadNumber(quadCols, Cell(col, row))
    requires col + 1 < tm.width && row + 1 < tm.height
    ensures var o, vl := Cell(col, row), |m.vertices|;
      QuadsUpTo(tm, quadCols, n + 1, QuadMesh(
        m.vertices + [Corner(o, 0), Corner(o, 1), Corner(o, 2), Corner(o, 3)],
        m.indices + [vl, vl + 1, vl + 3, vl + 1, vl + 2, vl + 3],
        m.colors + [CellColor(tm, Corner(o, 0)), CellColor(tm, Corner(o, 1)),
                    CellColor(tm, Corner(o, 2)), CellColor(tm, Corner(o, 3))]))
  {
    QuadOfNumber(quadCols, row, col);
    var o, vl := Cell(col, row), |m.vertices|;
    var m' := QuadMesh(
      m.vertices + [Corner(o, 0), Corner(o, 1), Corner(o, 2), Corner(o, 3)],
      m.indices + [vl, vl + 1, vl + 3, vl + 1, vl + 2, vl + 3],
      m.colors + [CellColor(tm, Corner(o, 0)), CellColor(tm, Corner(o, 1)),
                  CellColor(tm, Corner(o, 2)), CellColor(tm, Corner(o, 3))]);
    forall j, k | 0 <= j < n + 1 && 0 <= k < 4
      ensures m'.vertices[4 * j + k] == Corner(QuadOf(quadCols, j), k)
    {
      if j < n {
        assert m'.vertices[4 * j + k] == m.vertices[4 * j + k];
      }
    }
    forall j, k | 0 <= j < n + 1 && 0 <= k < 6
      ensures m'.indices[6 * j + k] == TriangleIndex(j, k)
    {
      if j < n {
        assert m'.indices[6 * j + k] == m.indices[6 * j + k];
      }
    }
  }

  /** Quads of the rows before `row`, then of `row` before `col`. */
  method QuadRow(tm: TerrainMap, row: nat, m: QuadMesh) returns (m': QuadMesh)
    requires tm.WellFormed() && row < QuadRows(tm)
    requires QuadsUpTo(tm, QuadCols(tm), Mul(row, QuadCols(tm)), m)
    ensures QuadsUpTo(tm, QuadCols(tm), Mul(row + 1, QuadCols(tm)), m')
  {
    var quadCols := QuadCols(tm);
    m' := m;
    var col := 0;
    while col < quadCols
      invariant col <= quadCols
      invariant QuadsUpTo(tm, quadCols, Mul(row, quadCols) + col, m')
    {
      QuadsStep(tm, quadCols, Mul(row, quadCols) + col, m', col, row);
      var o, vl := Cell(col, row), |m'.vertices|;
      m' := QuadMesh(
        m'.vertices + [Corner(o, 0), Corner(o, 1), Corner(o, 2), Corner(o, 3)],
        m'.indices + [vl, vl + 1, vl + 3, vl + 1, vl + 2, vl + 3],
        m'.colors + [CellColor(tm, Corner(o, 0)), CellColor(tm, Corner(o, 1)),
                     CellColor(tm, Corner(o, 2)), CellColor(tm, Corner(o, 3))]);
      col := col + 1;
    }
  }

  /** `_genQuads`: one quad per pair of adjacent rows and columns, rows
      outermost; each adds its four corner cells, their colours in the same
      order, and two triangles over them. */
  method GenQuads(tm: TerrainMap) returns (m: QuadMesh)
    requires tm.WellFormed()
    ensures IsQuadMeshOf(tm, m)
    ensures |m.vertices| == 4 * QuadCount(tm) && |m.colors| == 4 * QuadCount(tm)
    ensures |m.indices| == 6 * QuadCount(tm)
  {
    var quadRows := QuadRows(tm);
    m := QuadMesh([], [], []);
    var row := 0;
    while row < quadRows
      invariant row <= quadRows
      invariant QuadsUpTo(tm, QuadCols(tm), Mul(row, QuadCols(tm)), m)
    {
      m := QuadRow(tm, row, m);
      row := row + 1;
    }
  }

  /** Quad numbering is a bijection between numbers below the quad count and
      the bottom-left cells of the quads. */
  lemma QuadNumbering(tm: TerrainMap, q: nat, c: Cell)
    requires QuadCols(tm) > 0
    ensures q < QuadCount(tm) ==>
      var o := QuadOf(QuadCols(tm), q);
      o.col < QuadCols(tm) && o.row < QuadRows(tm) && QuadNumber(QuadCols(tm), o) == q
    ensures c.col < QuadCols(tm) && c.row < QuadRows(tm) ==>
      QuadNumber(QuadCols(tm), c) < QuadCount(tm) && QuadOf(QuadCols(tm), QuadNumber(QuadCols(tm), c)) == c
  {
    var qc := QuadCols(tm);
    if q < QuadCount(tm) {
      var row, col := MulSplit(q, QuadRows(tm), qc);
      QuadOfNumber(qc, row, col);
    }
    if c.col < qc && c.row < QuadRows(tm) {
      QuadOfNumber(qc, c.row, c.col);
      MulIndexBound(c.row, QuadRows(tm), qc, c.col);
    }
  }

  /** Every index in a quad mesh names one of its vertices, and each
      triangle stays within its own quad's four vertices. */
  lemma IndicesInRange(tm: TerrainMap, m: QuadMesh)
    requires tm.WellFormed() && IsQuadMeshOf(tm, m)
    ensures forall i | 0 <= i < |m.indices| :: m.indices[i] < |m.vertices|
    ensures forall i | 0 <= i < |m.indices| :: 4 * (i / 6) <= m.indices[i] < 4 * (i / 6) + 4
  {
    forall i | 0 <= i < |m.indices|
      ensures 4 * (i / 6) <= m.indices[i] < 4 * (i / 6) + 4
      ensures m.indices[i] < |m.vertices|
    {
      var j, k := i / 6, i % 6;
      assert i == 6 * j + k;
      assert m.indices[6 * j + k] == TriangleIndex(j, k);
    }
  }

  /** The two triangles of a quad share its diagonal from the top-left to
      the bottom-right corner, and together use all four corners. */
  lemma TrianglesShareDiagonal(q: nat)
    ensures TriangleIndex(q, 1) == TriangleIndex(q, 3) == 4 * q + 1
    ensures TriangleIndex(q, 2) == TriangleIndex(q, 5) == 4 * q + 3
    ensures {TriangleIndex(q, 0), TriangleIndex(q, 1), TriangleIndex(q, 2), TriangleIndex(q, 4)}
         == {4 * q, 4 * q + 1, 4 * q + 2, 4 * q + 3}
  {
  }

  /** What `generateMeshFor` returns. */
  datatype Mesh = Lines(lines: seq<seq<Vec3>>) | Quads(quads: QuadMesh)

  /** `generateMeshFor`: the wireframe exactly when `wireframeOnly`,
      otherwise the quad mesh; only the wireframe pass moves the centre.
      The source's default `wireframeOnly = false` is the caller passing
      `false`. */
  method GenerateMeshFor(tm: TerrainMap, wireframeOnly: bool, scale: Option<ScaleSettings>, previous: Vec3)
    returns (mesh: Mesh, center: Vec3)
    requires tm.WellFormed()
    ensures mesh.Lines? <==> wireframeOnly
    ensures mesh.Lines? ==> IsWireframeOf(tm, scale, mesh.lines) && center == CenterAfterWireframe(tm, scale, previous)
    ensures mesh.Quads? ==> IsQuadMeshOf(tm, mesh.quads) && center == previous
  {
    if wireframeOnly {
      var lines;
      lines, center := GenWireframe(tm, scale, previous);
      mesh := Lines(lines);
    } else {
      var quads := GenQuads(tm);
      mesh, center := Quads(quads), previous;
    }
  }

  // The source reads cells as `map[row][col]` (wireframe) and `map[x1][y1]`
  // (quads) although `map` is the flat point list: `map[i]` is a point
  // record, or undefined past the end, and indexing either again never
  // yields a point. The members below model those reads as written.

  /** Why an as-written read fails. */
  datatype ReadFailure =
    | PropertyOfUndefined   // `map[i][j]` is undefined, so `.point` throws
    | IndexIntoUndefined    // `map[i]` is undefined, so `[j]` throws

  /** `map[i][j].point` on the flat list. */
  function ReadAsWritten(tm: TerrainMap, i: nat, j: nat): (r: Result<Vec3, ReadFailure>)
    ensures r.Err?
    ensures r.error == PropertyOfUndefined <==> i < |tm.points|
  {
    if i < |tm.points| then Err(PropertyOfUndefined) else Err(IndexIntoUndefined)
  }

  /** `_genWireframe` as written: it succeeds only when no cell is read. */
  function WireframeAsWritten(tm: TerrainMap): (r: Result<seq<seq<Vec3>>, ReadFailure>)
    ensures r.Err? <==> tm.width > 0 && tm.height > 0
    ensures r.Err? ==> (r.error == PropertyOfUndefined <==> |tm.points| > 0)
    ensures r.Ok? ==> |r.value| == tm.height + tm.width && forall i | 0 <= i < |r.value| :: r.value[i] == []
  {
    if tm.width == 0 || tm.height == 0 then Ok(seq(tm.height + tm.width, _ => []))
    else Err(ReadAsWritten(tm, 0, 0).error)
  }

  /** `_genQuads` as written: it succeeds only when no quad is built. */
  function QuadsAsWritten(tm: TerrainMap): (r: Result<QuadMesh, ReadFailure>)
    ensures r.Err? <==> QuadCount(tm) > 0
    ensures r.Ok? ==> r.value == QuadMesh([], [], [])
  {
    if QuadCount(tm) == 0 then Ok(QuadMesh([], [], []))
    else Err(ReadAsWritten(tm, 0, 0).error)
  }

  /** As written, every map with a cell makes the wireframe throw and every
      map with at least two rows and two columns makes the quads throw; the
      corrected passes read all those cells. */
  lemma MeshReadsAsWrittenFail(tm: TerrainMap)
    requires tm.WellFormed()
    ensures WireframeAsWritten(tm).Err? <==> tm.width > 0 && tm.height > 0
    ensures QuadsAsWritten(tm).Err? <==> tm.width >= 2 && tm.height >= 2
    ensures tm.width > 0 && tm.height > 0 ==> WireframeAsWritten(tm).error == PropertyOfUndefined
  {
    if tm.width >= 2 && tm.height >= 2 {
      assert QuadCount(tm) > 0 by {
        MulMonotone(1, QuadRows(tm), QuadCols(tm));
      }
    } else if QuadCols(tm) == 0 {
      assert QuadCount(tm) == 0 by {
        MulIsProduct(QuadRows(tm), 0);
      }
    }
  }
}
