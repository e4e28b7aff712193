/**
 * The part of a map sprite that the map mode and the minimap read and write:
 * its position, facing direction and movement flags.
 */
module MapSprites {

  /**
   * The twelve facing directions plus the four diagonal movement requests
   * that the explore step hands to the sprite.
   */
  datatype Direction =
    | North | South | West | East
    | NwNorth | NwWest | NeNorth | NeEast
    | SwSouth | SwWest | SeSouth | SeEast
    | MovingNorthwest | MovingNortheast | MovingSouthwest | MovingSoutheast

  class VirtualSprite {
    var x: real
    var y: real
    var direction: Direction
    var moving: bool
    var isRunning: bool
    var movedPosition: bool

    constructor (x: real, y: real, direction: Direction)
      ensures this.x == x && this.y == y && this.direction == direction
      ensures !moving && !isRunning && !movedPosition
    {
      this.x := x;
      this.y := y;
      this.direction := direction;
      moving := false;
      isRunning := false;
      movedPosition := false;
    }
  }
}
