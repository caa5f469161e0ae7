/** The canvas-to-map coordinate conversion of the noise map view
    (`canvasPointToMapPoint` in src/components/renderers/NoiseMapRenderer.tsx):
    scale each canvas coordinate by map size over canvas size, round to the
    nearest integer, and clamp into the map. */
module NoiseMapRenderer {

  /** A canvas position. */
  datatype CanvasPoint = CanvasPoint(x: real, y: real)

  /** A canvas size in pixels. */
  datatype CanvasSize = CanvasSize(width: real, height: real)

  /** A noise map's size: its number of columns and the length of the first. */
  datatype MapSize = MapSize(width: nat, height: nat)

  /** A map cell. */
  datatype MapPoint = MapPoint(x: int, y: int)

  /** `Math.round`: the nearest integer, halves rounded up. */
  function Round(v: real): (r: int)
    ensures v - 0.5 < r as real <= v + 0.5
  {
    (v + 0.5).Floor
  }

  /** The only integer in (v - 1/2, v + 1/2] is the rounding of `v`. */
  lemma RoundUnique(v: real, k: int)
    requires v - 0.5 < k as real <= v + 0.5
    ensures Round(v) == k
  {
  }

  /** Rounding an integer gives it back. */
  lemma RoundInteger(k: int)
    ensures Round(k as real) == k
  {
    RoundUnique(k as real, k);
  }

  /** Rounding never reverses the order of two values. */
  lemma RoundMonotone(u: real, v: real)
    requires u <= v
    ensures Round(u) <= Round(v)
  {
  }

  /** Map cells per canvas pixel along one axis; 0 for an empty canvas. */
  function AxisScale(canvasLength: real, mapLength: nat): real {
    if canvasLength > 0.0 then mapLength as real / canvasLength else 0.0
  }

  /** One coordinate: `max(min(round(c * scale), mapLength - 1), 0)`. */
  function MapAxis(c: real, canvasLength: real, mapLength: nat): (r: int)
    ensures mapLength >= 1 ==> 0 <= r < mapLength
    ensures canvasLength <= 0.0 || mapLength <= 1 ==> r == 0
    ensures 0 <= Round(c * AxisScale(canvasLength, mapLength)) < mapLength ==>
      r == Round(c * AxisScale(canvasLength, mapLength))
    ensures r == 0 || r == mapLength - 1 || r == Round(c * AxisScale(canvasLength, mapLength))
    ensures Round(c * AxisScale(canvasLength, mapLength)) > mapLength - 1 ==>
      r == if mapLength == 0 then 0 else mapLength - 1
    ensures Round(c * AxisScale(canvasLength, mapLength)) < 0 ==> r == 0
  {
    var rounded := Round(c * AxisScale(canvasLength, mapLength));
    var upper := mapLength - 1;
    var capped := if rounded <= upper then rounded else upper;
    if capped >= 0 then capped else 0
  }

  /** `canvasPointToMapPoint`: each coordinate converted along its own axis. */
  function CanvasPointToMapPoint(p: CanvasPoint, canvas: CanvasSize, size: MapSize): (r: MapPoint)
    ensures size.width >= 1 ==> 0 <= r.x < size.width
    ensures size.height >= 1 ==> 0 <= r.y < size.height
    ensures canvas.width <= 0.0 || size.width <= 1 ==> r.x == 0
    ensures canvas.height <= 0.0 || size.height <= 1 ==> r.y == 0
  {
    MapPoint(MapAxis(p.x, canvas.width, size.width), MapAxis(p.y, canvas.height, size.height))
  }

  /** With a canvas the size of the map, a cell's own integer coordinates
      map to that cell. */
  lemma SameSizeIdentity(col: nat, row: nat, size: MapSize)
    requires col < size.width && row < size.height
    ensures CanvasPointToMapPoint(CanvasPoint(col as real, row as real),
                                  CanvasSize(size.width as real, size.height as real), size)
         == MapPoint(col, row)
  {
    UnitScale(size.width);
    UnitScale(size.height);
    RoundInteger(col);
    RoundInteger(row);
  }

  /** A canvas as long as the map has one cell per pixel. */
  lemma UnitScale(n: nat)
    requires n > 0
    ensures AxisScale(n as real, n) == 1.0
  {
    var r := n as real;
    assert r > 0.0;
    assert r / r == 1.0;
  }

  /** For fixed sizes, moving right or down on the canvas never moves left or
      up on the map. */
  lemma CanvasPointToMapPointMonotone(p: CanvasPoint, q: CanvasPoint, canvas: CanvasSize, size: MapSize)
    requires p.x <= q.x && p.y <= q.y
    ensures CanvasPointToMapPoint(p, canvas, size).x <= CanvasPointToMapPoint(q, canvas, size).x
    ensures CanvasPointToMapPoint(p, canvas, size).y <= CanvasPointToMapPoint(q, canvas, size).y
  {
    MapAxisMonotone(p.x, q.x, canvas.width, size.width);
    MapAxisMonotone(p.y, q.y, canvas.height, size.height);
  }

  lemma MapAxisMonotone(c: real, d: real, canvasLength: real, mapLength: nat)
    requires c <= d
    ensures MapAxis(c, canvasLength, mapLength) <= MapAxis(d, canvasLength, mapLength)
  {
    var s := AxisScale(canvasLength, mapLength);
    assert s >= 0.0;
    assert c * s <= d * s by {
      assert (d - c) * s >= 0.0;
    }
    RoundMonotone(c * s, d * s);
  }
}
