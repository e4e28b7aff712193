/**
 * The map camera frame: which tiles to draw, at what sub-tile offset, and the
 * four screen edges in map grid units, derived each frame from the effective
 * camera position and clamped at the map's borders.
 */
module CameraFrame {

  /**
   * The screen geometry constants of the map mode: tiles and collision-grid
   * units visible on each axis, their halves, and the standard resolution.
   */
  datatype ScreenConfig = ScreenConfig(
    tilesOnXAxis: int, halfTilesOnXAxis: int,
    tilesOnYAxis: int, halfTilesOnYAxis: int,
    screenGridXLength: real, halfScreenGridXLength: real,
    screenGridYLength: real, halfScreenGridYLength: real,
    resWidth: real, resHeight: real)
  {
    predicate WellFormed()
    {
      && tilesOnXAxis > 0 && halfTilesOnXAxis >= 0
      && tilesOnYAxis > 0 && halfTilesOnYAxis >= 0
      && screenGridXLength > 0.0 && halfScreenGridXLength * 2.0 == screenGridXLength
      && screenGridYLength > 0.0 && halfScreenGridYLength * 2.0 == screenGridYLength
      && resWidth > 0.0 && resHeight > 0.0
    }
  }

  /** The screen edges in map grid units. */
  datatype ScreenEdges = ScreenEdges(top: real, bottom: real, left: real, right: real)

  /** What the tile and object renderers read each frame. */
  datatype MapFrame = MapFrame(
    tileXOffset: real, tileYOffset: real,
    tileXStart: int, tileYStart: int,
    numDrawXAxis: int, numDrawYAxis: int,
    screenEdges: ScreenEdges)

  /** A float-to-integer conversion: truncation toward zero. */
  function Trunc(f: real): (i: int)
    ensures f >= 0.0 ==> 0 <= i && i as real <= f < i as real + 1.0
    ensures f < 0.0 ==> i <= 0 && i as real - 1.0 < f <= i as real
  {
    if f >= 0.0 then f.Floor else -((-f).Floor)
  }

  /** Conversion of an integer to a 16-bit unsigned value: reduction modulo 2^16. */
  function ToUint16(i: int): (u: int)
    ensures 0 <= u < 0x1_0000
    ensures 0 <= i < 0x1_0000 ==> u == i
  {
    i % 0x1_0000
  }

  /** The integer part of a position, as the 16-bit unsigned value the frame computation uses. */
  function FloatInteger(f: real): int
  {
    ToUint16(Trunc(f))
  }

  /** The part of a number after its integer part, with the number's sign. */
  function FloatFraction(f: real): (r: real)
    ensures f >= 0.0 ==> 0.0 <= r < 1.0
    ensures f == Trunc(f) as real + r
  {
    f - Trunc(f) as real
  }

  /** Size of one screen pixel in map grid units. */
  const PixelLength: real := 0.04

  /** The largest multiple of the pixel length not above `v`. */
  function FloorToPixel(v: real): (r: real)
    ensures r <= v < r + PixelLength
    ensures (r * 25.0).Floor as real == r * 25.0
  {
    var k := (v * 25.0).Floor;
    assert k as real * PixelLength == k as real / 25.0;
    k as real * PixelLength
  }

  predicate IsOddNumber(i: int)
  {
    i % 2 == 1
  }

  /** Inclusive range test, as the engine's helper does it. */
  predicate IsFloatInRange(v: real, lower: real, upper: real)
  {
    lower <= v <= upper
  }

  /** The per-axis constants: the axis' visible tiles, visible grid length and the offset of a tile-aligned view. */
  datatype AxisConfig = AxisConfig(tiles: int, halfTiles: int, gridLength: real, halfGridLength: real, alignedOffset: real)
  {
    predicate WellFormed()
    {
      tiles > 0 && halfTiles >= 0 && gridLength > 0.0 && halfGridLength * 2.0 == gridLength
    }
  }

  function XAxis(screen: ScreenConfig): AxisConfig
  {
    AxisConfig(screen.tilesOnXAxis, screen.halfTilesOnXAxis, screen.screenGridXLength, screen.halfScreenGridXLength, 1.0)
  }

  function YAxis(screen: ScreenConfig): AxisConfig
  {
    AxisConfig(screen.tilesOnYAxis, screen.halfTilesOnYAxis, screen.screenGridYLength, screen.halfScreenGridYLength, 2.0)
  }

  /** One axis of the frame: the low edge is `left` or `top`, the high edge `right` or `bottom`. */
  datatype AxisFrame = AxisFrame(tileStart: int, tileOffset: real, numDraw: int, lowEdge: real, highEdge: real, pinned: bool)

  /** How many tiles to draw for a given offset: one fewer when the tiles line up with the screen. */
  function NumDraw(ax: AxisConfig, offset: real): int
  {
    if IsFloatInRange(offset, ax.alignedOffset - 0.001, ax.alignedOffset + 0.001) then ax.tiles else ax.tiles + 1
  }

  /**
   * The frame along one axis for an effective camera position `pos`, on a map
   * of `numTiles` tiles and `gridExtent` grid units along that axis. The axis
   * is pinned exactly when the unclamped start falls off either end of the
   * map; a pinned axis is tile-aligned and draws exactly the visible tiles;
   * the edges always span the visible grid length; on a map at least one
   * screen wide the drawn tiles stay inside the map.
   */
  function AxisFrameFor(pos: real, ax: AxisConfig, numTiles: int, gridExtent: real): (f: AxisFrame)
    requires ax.WellFormed()
    ensures var start := FloatInteger(pos) / 2 - ax.halfTiles;
      && (f.pinned <==> start < 0 || start + ax.tiles >= numTiles)
      && (!f.pinned ==> f.tileStart == start && f.lowEdge == pos - ax.halfGridLength)
      && (start < 0 ==> f.tileStart == 0 && f.lowEdge == 0.0)
      && (start >= 0 && start + ax.tiles >= numTiles ==> f.tileStart == numTiles - ax.tiles && f.highEdge == gridExtent)
    ensures f.pinned ==> f.tileOffset == ax.alignedOffset && f.numDraw == ax.tiles
    ensures f.highEdge - f.lowEdge == ax.gridLength
    ensures ax.tiles <= f.numDraw <= ax.tiles + 1
    ensures numTiles >= ax.tiles ==> 0 <= f.tileStart && f.tileStart + f.numDraw <= numTiles
  {
    var current := FloatInteger(pos);
    var start := current / 2 - ax.halfTiles;
    if start < 0 then
      AxisFrame(0, ax.alignedOffset, NumDraw(ax, ax.alignedOffset), 0.0, ax.gridLength, true)
    else if start + ax.tiles >= numTiles then
      AxisFrame(numTiles - ax.tiles, ax.alignedOffset, NumDraw(ax, ax.alignedOffset), gridExtent - ax.gridLength, gridExtent, true)
    else
      var offset := ax.alignedOffset - FloorToPixel(FloatFraction(pos)) - (if IsOddNumber(current) then 1.0 else 0.0);
      AxisFrame(start, offset, NumDraw(ax, offset), pos - ax.halfGridLength, pos + ax.halfGridLength, false)
  }

  /** The whole frame from its two axes. */
  function Combine(fx: AxisFrame, fy: AxisFrame): MapFrame
  {
    MapFrame(fx.tileOffset, fy.tileOffset, fx.tileStart, fy.tileStart, fx.numDraw, fy.numDraw,
             ScreenEdges(fy.lowEdge, fy.highEdge, fx.lowEdge, fx.highEdge))
  }

  /**
   * Away from the map's borders, a non-negative position draws one tile fewer
   * exactly when its integer part is even and its fraction rounds down to
   * zero pixels.
   */
  lemma AlignedOnlyOnEvenWholePixel(pos: real, ax: AxisConfig, numTiles: int, gridExtent: real)
    requires ax.WellFormed() && pos >= 0.0
    requires !AxisFrameFor(pos, ax, numTiles, gridExtent).pinned
    ensures AxisFrameFor(pos, ax, numTiles, gridExtent).numDraw == ax.tiles
      <==> !IsOddNumber(FloatInteger(pos)) && FloatFraction(pos) < PixelLength
  {
    var q := FloorToPixel(FloatFraction(pos));
    var k := (FloatFraction(pos) * 25.0).Floor;
    assert q == k as real * PixelLength;
    assert 0 <= k;
    if k >= 1 {
      assert q >= PixelLength;
    }
  }

  /** Where a map position lands on the screen, in standard-resolution pixels. */
  function ScreenXCoordinate(tileX: real, edges: ScreenEdges, screen: ScreenConfig): (r: real)
    requires screen.WellFormed()
    ensures tileX == edges.left ==> r == 0.0
    ensures tileX == edges.left + screen.screenGridXLength ==> r == screen.resWidth
  {
    (tileX - edges.left) * screen.resWidth / screen.screenGridXLength
  }

  function ScreenYCoordinate(tileY: real, edges: ScreenEdges, screen: ScreenConfig): (r: real)
    requires screen.WellFormed()
    ensures tileY == edges.top ==> r == 0.0
    ensures tileY == edges.top + screen.screenGridYLength ==> r == screen.resHeight
  {
    (tileY - edges.top) * screen.resHeight / screen.screenGridYLength
  }
}
