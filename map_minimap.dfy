/**
 * The collision minimap of the map mode: it follows the camera, keeps its
 * projection from rolling past the map's edges, fades while the camera is
 * under it, and turns its location marker to the camera's facing.
 */
module MapMinimap {
  import opened Common
  import opened MapSprites
  import opened CameraFrame

  /** Top-left corner of the minimap on a standard-resolution screen. */
  const MinimapPosX: real := 775.0
  const MinimapPosY: real := 545.0

  /** The two opacities the minimap is drawn with. */
  datatype Opacity = DefaultOpacity | OverlapOpacity
  {
    function Alpha(): real
    {
      match this
      case DefaultOpacity => 0.75
      case OverlapOpacity => 0.45
    }
  }

  /** The minimap fades when the camera's screen position lies in the minimap's corner of the screen. */
  function OpacityAt(screenX: real, screenY: real): (o: Opacity)
    ensures o == OverlapOpacity <==> screenX >= MinimapPosX && screenY >= MinimapPosY
  {
    if screenX >= MinimapPosX && screenY >= MinimapPosY then OverlapOpacity else DefaultOpacity
  }

  /**
   * The projection centre along one axis, for a camera at `pos`, cells of
   * `box` pixels, a half-window of `half` pixels and a map of `cells` cells:
   * never past the map's far edge, not before its near edge when the map is
   * wide enough, and right on the camera when no clamp is needed.
   */
  function ClampedCentre(pos: real, box: real, half: real, cells: real): (c: real)
    ensures c + half <= cells * box
    ensures cells * box >= 2.0 * half ==> c - half >= 0.0
    ensures box * pos - half >= 0.0 && box * pos + half <= cells * box ==> c == box * pos
  {
    var c0 := box * pos;
    var c1 := if c0 - half < 0.0 then half else c0;
    if c1 + half > cells * box then cells * box - half else c1
  }

  /** The location marker's frame for a facing: north 0, west 1, south 2, east 3; a diagonal movement request keeps the current frame. */
  function MarkerFrame(d: Direction, current: nat): (f: nat)
    ensures d in {North, NwNorth, NeNorth} ==> f == 0
    ensures d in {West, NwWest, SwWest} ==> f == 1
    ensures d in {South, SwSouth, SeSouth} ==> f == 2
    ensures d in {East, NeEast, SeEast} ==> f == 3
    ensures d in {MovingNorthwest, MovingNortheast, MovingSouthwest, MovingSoutheast} ==> f == current
  {
    match d
    case North | NwNorth | NeNorth => 0
    case East | NeEast | SeEast => 3
    case South | SwSouth | SeSouth => 2
    case West | NwWest | SwWest => 1
    case _ => current
  }

  class Minimap {
    var currentPositionX: real
    var currentPositionY: real
    const boxXLength: real
    const boxYLength: real
    var xCent: real
    var yCent: real
    const xHalfLen: real
    const yHalfLen: real
    var mapAlphaScale: real
    var opacity: Opacity
    var markerFrame: nat
    /** The collision grid's size in cells. */
    const gridWidth: real
    const gridHeight: real

    /** Field set-up only: the image and viewport preparation is not part of this model. */
    constructor (gridWidth: nat, gridHeight: nat, screen: ScreenConfig)
      ensures currentPositionX == -1.0 && currentPositionY == -1.0
      ensures boxXLength == 10.0 && boxYLength == 7.5
      ensures xHalfLen == 1.75 * screen.tilesOnXAxis as real * boxXLength
      ensures yHalfLen == 1.75 * screen.tilesOnYAxis as real * boxYLength
      ensures mapAlphaScale == 1.0 && opacity == DefaultOpacity && markerFrame == 0
      ensures this.gridWidth == gridWidth as real && this.gridHeight == gridHeight as real
    {
      currentPositionX := -1.0;
      currentPositionY := -1.0;
      boxXLength := 10.0;
      boxYLength := 10.0 * 0.75;
      xCent := 0.0;
      yCent := 0.0;
      xHalfLen := 1.75 * screen.tilesOnXAxis as real * 10.0;
      yHalfLen := 1.75 * screen.tilesOnYAxis as real * (10.0 * 0.75);
      mapAlphaScale := 1.0;
      opacity := DefaultOpacity;
      markerFrame := 0;
      this.gridWidth := gridWidth as real;
      this.gridHeight := gridHeight as real;
    }

    /**
     * Follow the camera: record its position and the alpha scale, pick the
     * opacity from the camera's place on screen (given by the map frame's
     * edges), clamp the projection centre, turn the marker. Without a camera
     * nothing changes.
     */
    method Update(camera: VirtualSprite?, alphaScale: real, edges: ScreenEdges, screen: ScreenConfig)
      requires screen.WellFormed()
      modifies this
      ensures camera == null ==> unchanged(this)
      ensures camera != null ==>
        && currentPositionX == camera.x && currentPositionY == camera.y
        && mapAlphaScale == alphaScale
        && opacity == OpacityAt(ScreenXCoordinate(camera.x, edges, screen), ScreenYCoordinate(camera.y, edges, screen))
        && xCent == ClampedCentre(camera.x, boxXLength, xHalfLen, gridWidth)
        && yCent == ClampedCentre(camera.y, boxYLength, yHalfLen, gridHeight)
        && markerFrame == MarkerFrame(camera.direction, old(markerFrame))
    {
      if camera == null {
        return;
      }
      mapAlphaScale := alphaScale;
      currentPositionX := camera.x;
      currentPositionY := camera.y;

      if ScreenXCoordinate(currentPositionX, edges, screen) >= MinimapPosX
        && ScreenYCoordinate(currentPositionY, edges, screen) >= MinimapPosY
      {
        opacity := OverlapOpacity;
      } else {
        opacity := DefaultOpacity;
      }

      RecentreX();
      RecentreY();

      match camera.direction {
        case North | NwNorth | NeNorth => markerFrame := 0;
        case East | NeEast | SeEast => markerFrame := 3;
        case South | SwSouth | SeSouth => markerFrame := 2;
        case West | NwWest | SwWest => markerFrame := 1;
        case _ =>
      }
    }

    /** Centre the horizontal projection on the camera, then lock it inside the map. */
    method RecentreX()
      modifies this`xCent
      ensures xCent == ClampedCentre(currentPositionX, boxXLength, xHalfLen, gridWidth)
    {
      xCent := boxXLength * currentPositionX;
      if xCent - xHalfLen < 0.0 {
        xCent := xHalfLen;
      }
      if xCent + xHalfLen > gridWidth * boxXLength {
        xCent := gridWidth * boxXLength - xHalfLen;
      }
    }

    /** Centre the vertical projection on the camera, then lock it inside the map. */
    method RecentreY()
      modifies this`yCent
      ensures yCent == ClampedCentre(currentPositionY, boxYLength, yHalfLen, gridHeight)
    {
      yCent := boxYLength * currentPositionY;
      if yCent - yHalfLen < 0.0 {
        yCent := yHalfLen;
      }
      if yCent + yHalfLen > gridHeight * boxYLength {
        yCent := gridHeight * boxYLength - yHalfLen;
      }
    }

    /**
     * The alpha the minimap is drawn with, or nothing before the first
     * update placed it: the opacity's alpha, lowered to the map's alpha scale
     * when that is smaller.
     */
    method Draw() returns (alpha: Option<real>)
      ensures alpha.None? <==> currentPositionX <= -1.0
      ensures alpha.Some? ==> alpha.value <= opacity.Alpha() && alpha.value <= mapAlphaScale
      ensures alpha.Some? ==> alpha.value == opacity.Alpha() || alpha.value == mapAlphaScale
    {
      if currentPositionX <= -1.0 {
        return None;
      }
      var resultant := opacity.Alpha();
      if mapAlphaScale < resultant {
        resultant := mapAlphaScale;
      }
      return Some(resultant);
    }
  }
}
