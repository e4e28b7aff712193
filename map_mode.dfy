/**
 * The map mode's per-frame logic: its stack of states, the GUI fade, the
 * camera frame with its smooth retargeting, the explore step's stamina and
 * facing rules, and the hand-over to the minimap.
 */
module MapModes {
  import opened Common
  import opened Timers
  import opened MapSprites
  import opened CameraFrame
  import opened MapMinimap

  datatype MapState = Invalid | Explore | Scene | Dialogue | Treasure

  /** The stamina gauge's full value. */
  const MaxStamina: int := 10000

  /** GUI alpha change per millisecond. */
  const GuiFadeRate: real := 0.005

  /** The input manager's answers for one frame: presses are edges, states are held keys. */
  datatype Input = Input(
    quitPress: bool, pausePress: bool, minimapPress: bool, menuPress: bool, confirmPress: bool,
    cancelState: bool, upState: bool, downState: bool, leftState: bool, rightState: bool)
  {
    predicate AnyDirection()
    {
      upState || downState || leftState || rightState
    }
  }

  /** The object nearest to the camera that it may interact with, as far as the explore step tells kinds apart. */
  datatype Interaction =
    | NoObject
    | PhysicalObject(hasTalkEvent: bool, eventActive: bool)
    | SpriteObject(hasDialogue: bool)
    | TreasureObject(taken: bool)
    | SavePoint(x: real, y: real)
    | OtherObject
  {
    /** Talking to it ends the explore step on the spot. */
    predicate StopsExplore()
    {
      (PhysicalObject? && hasTalkEvent) || (SpriteObject? && hasDialogue)
    }

    /**
     * What confirming next to it asks for: its talk event unless that is
     * already running, its dialogue, its treasure unless already taken, or
     * the save menu one unit above a save point.
     */
    function ConfirmRequest(): Request
    {
      match this
      case PhysicalObject(hasTalkEvent, eventActive) => if hasTalkEvent && !eventActive then StartEvent else NoRequest
      case SpriteObject(hasDialogue) => if hasDialogue then InitiateDialogue else NoRequest
      case TreasureObject(taken) => if !taken then OpenTreasure else NoRequest
      case SavePoint(x, y) => SaveAt(x, y - 1.0)
      case _ => NoRequest
    }
  }

  /** What a frame asks of the rest of the game: a mode to push, a flag to flip, an event or dialogue to start. */
  datatype Request =
    | NoRequest
    | PauseRequest(quit: bool)
    | ToggleMinimap
    | OpenMenu
    | StartEvent
    | InitiateDialogue
    | OpenTreasure
    | SaveAt(x: real, y: real)

  // ---------------------------------------------------------------- stamina

  datatype RunOutcome = RunOutcome(stamina: int, running: bool)

  /** The stamina gauge with the camera's movement flags and facing: what the explore step changes. */
  datatype Gait = Gait(stamina: int, moving: bool, running: bool, direction: Direction)

  /**
   * One frame of the running rule. A run is wanted when the camera moved,
   * running is allowed and cancel is held with a direction. Unlimited
   * stamina runs for free; otherwise a run costs twice the frame time and is
   * refused, draining the gauge, when the gauge cannot pay for it. A frame
   * without a run refills the gauge by the frame time, up to full.
   */
  function RunStep(stamina: int, unlimited: bool, wantsToRun: bool, elapsed: nat): (r: RunOutcome)
    requires 0 <= stamina <= MaxStamina
    ensures 0 <= r.stamina <= MaxStamina
    ensures r.running <==> wantsToRun && (unlimited || stamina > 2 * elapsed)
    ensures r.running ==> r.stamina <= stamina
    ensures wantsToRun && unlimited ==> r.stamina == stamina
    ensures !wantsToRun ==> r.stamina >= stamina
  {
    if !wantsToRun then RunOutcome(Min(stamina + elapsed, MaxStamina), false)
    else if unlimited then RunOutcome(stamina, true)
    else RunOutcome(Max(stamina - 2 * elapsed, 0), stamina > 2 * elapsed)
  }

  /** The gauge after a series of frames without running. */
  function Rested(stamina: int, es: seq<nat>): (s: int)
    requires 0 <= stamina <= MaxStamina
    ensures 0 <= s <= MaxStamina
    decreases |es|
  {
    if es == [] then stamina else Rested(RunStep(stamina, false, false, es[0]).stamina, es[1..])
  }

  /** The gauge after a series of frames of running with limited stamina. */
  function Ran(stamina: int, es: seq<nat>): (s: int)
    requires 0 <= stamina <= MaxStamina
    ensures 0 <= s <= MaxStamina
    decreases |es|
  {
    if es == [] then stamina else Ran(RunStep(stamina, false, true, es[0]).stamina, es[1..])
  }

  /** Resting refills the gauge by the total time, up to full. */
  lemma {:induction false} RestRefills(stamina: int, es: seq<nat>)
    requires 0 <= stamina <= MaxStamina
    ensures Rested(stamina, es) == Min(stamina + Sum(es), MaxStamina)
    decreases |es|
  {
    if es != [] {
      RestRefills(RunStep(stamina, false, false, es[0]).stamina, es[1..]);
    }
  }

  /** Running drains the gauge by twice the total time, down to empty and no further. */
  lemma {:induction false} RunningDrains(stamina: int, es: seq<nat>)
    requires 0 <= stamina <= MaxStamina
    ensures Ran(stamina, es) == Max(stamina - 2 * Sum(es), 0)
    decreases |es|
  {
    if es != [] {
      RunningDrains(RunStep(stamina, false, true, es[0]).stamina, es[1..]);
    }
  }

  // ---------------------------------------------------------------- facing

  /** The unit step a direction points along: x grows eastward, y grows southward. */
  function Heading(d: Direction): (int, int)
  {
    match d
    case North | NwNorth | NeNorth => (0, -1)
    case South | SwSouth | SeSouth => (0, 1)
    case West | NwWest | SwWest => (-1, 0)
    case East | NeEast | SeEast => (1, 0)
    case MovingNorthwest => (-1, -1)
    case MovingNortheast => (1, -1)
    case MovingSouthwest => (-1, 1)
    case MovingSoutheast => (1, 1)
  }

  /** One axis of the keyboard: the first key wins over the second. */
  function AxisOf(first: bool, second: bool): int
  {
    if first then -1 else if second then 1 else 0
  }

  /**
   * The direction the held keys ask for, if any: up wins over down and left
   * over right, and a vertical key with a horizontal one asks for the
   * diagonal movement between them.
   */
  function FacingFor(up: bool, down: bool, left: bool, right: bool): (d: Option<Direction>)
    ensures d.None? <==> !(up || down || left || right)
    ensures d.Some? ==> Heading(d.value) == (AxisOf(left, right), AxisOf(up, down))
    ensures d.Some? ==> d.value in {North, South, West, East, MovingNorthwest, MovingNortheast, MovingSouthwest, MovingSoutheast}
  {
    if up then
      if left then Some(MovingNorthwest) else if right then Some(MovingNortheast) else Some(North)
    else if down then
      if left then Some(MovingSouthwest) else if right then Some(MovingSoutheast) else Some(South)
    else if left then Some(West)
    else if right then Some(East)
    else None
  }

  /**
   * What one explore frame does to the gauge and the camera, from `before`
   * to `after`: a menu press changes nothing and asks for the menu;
   * otherwise the gauge follows `RunStep`, a talk stops the camera where it
   * faces, and any other frame runs per `RunStep`, moves exactly when a key
   * is held and faces `FacingFor` of the keys.
   */
  predicate Explored(input: Input, elapsed: nat, nearest: Interaction, wantsToRun: bool, unlimited: bool,
                     before: Gait, after: Gait, request: Request)
    requires 0 <= before.stamina <= MaxStamina
  {
    var run := RunStep(before.stamina, unlimited, wantsToRun, elapsed);
    var facing := FacingFor(input.upState, input.downState, input.leftState, input.rightState);
    if input.menuPress then
      after == before && request == OpenMenu
    else if input.confirmPress && nearest.StopsExplore() then
      after == Gait(run.stamina, false, false, before.direction) && request == nearest.ConfirmRequest()
    else
      && after == Gait(run.stamina, input.AnyDirection(), run.running,
                       if facing.Some? then facing.value else before.direction)
      && request == (if input.confirmPress then nearest.ConfirmRequest() else NoRequest)
  }

  // ---------------------------------------------------------------- GUI fade

  /** Scenes and dialogues fade the GUI out; every other state fades it in. */
  predicate HidesGui(state: MapState)
  {
    state == Scene || state == Dialogue
  }

  /**
   * One frame of the GUI fade: while hidden it falls by the rate times the
   * frame time as long as it is positive, otherwise it rises the same way as
   * long as it is below one. The last step may overshoot.
   */
  function GuiAlphaStep(state: MapState, alpha: real, elapsed: nat): (a: real)
    ensures HidesGui(state) ==> a <= alpha && (alpha > 0.0 ==> alpha - a == elapsed as real * GuiFadeRate)
    ensures !HidesGui(state) ==> a >= alpha && (alpha < 1.0 ==> a - alpha == elapsed as real * GuiFadeRate)
    ensures (HidesGui(state) && alpha <= 0.0) || (!HidesGui(state) && alpha >= 1.0) ==> a == alpha
  {
    if HidesGui(state) then
      if alpha > 0.0 then alpha - elapsed as real * GuiFadeRate else alpha
    else
      if alpha < 1.0 then alpha + elapsed as real * GuiFadeRate else alpha
  }

  /** The GUI alpha after a series of frames in one state. */
  function GuiAlphaAfter(state: MapState, alpha: real, es: seq<nat>): real
    decreases |es|
  {
    if es == [] then alpha else GuiAlphaAfter(state, GuiAlphaStep(state, alpha, es[0]), es[1..])
  }

  /** Outside scenes and dialogues the GUI comes back: it reaches full alpha once the frames add up to the missing part. */
  lemma {:induction false} GuiFadesIn(state: MapState, alpha: real, es: seq<nat>)
    requires !HidesGui(state)
    ensures GuiAlphaAfter(state, alpha, es) >= MinReal(1.0, alpha + Sum(es) as real * GuiFadeRate)
    decreases |es|
  {
    if es != [] {
      GuiFadesIn(state, GuiAlphaStep(state, alpha, es[0]), es[1..]);
    }
  }

  /** During scenes and dialogues the GUI goes away: it reaches zero once the frames add up to what is left. */
  lemma {:induction false} GuiFadesOut(state: MapState, alpha: real, es: seq<nat>)
    requires HidesGui(state)
    ensures GuiAlphaAfter(state, alpha, es) <= MaxReal(0.0, alpha - Sum(es) as real * GuiFadeRate)
    decreases |es|
  {
    if es != [] {
      GuiFadesOut(state, GuiAlphaStep(state, alpha, es[0]), es[1..]);
    }
  }

  // ---------------------------------------------------------------- one frame

  /** What a frame of the map mode changes besides the camera frame and the minimap. */
  datatype ModeSnapshot = ModeSnapshot(stack: seq<MapState>, guiAlpha: real, timer: Timer, gait: Gait)

  /** The request a quit, pause or minimap press makes; a quit wins over a pause, a pause over the minimap. */
  function PressRequest(input: Input): Request
  {
    if input.quitPress then PauseRequest(true)
    else if input.pausePress then PauseRequest(false)
    else if input.minimapPress then ToggleMinimap
    else NoRequest
  }

  /**
   * One frame after the presses, from `before` to `after`, for the state
   * on top of the stack: the GUI fades for that state, an unknown state
   * resets the stack, the camera timer takes one tick, exploring is
   * `Explored`, a treasure stops the camera, and every other state leaves
   * the gauge and the camera alone and asks for nothing.
   */
  predicate FrameRan(input: Input, elapsed: nat, nearest: Interaction, wantsToRun: bool, unlimited: bool,
                     before: ModeSnapshot, after: ModeSnapshot, request: Request)
    requires before.stack != [] && before.timer.Valid() && 0 <= before.gait.stamina <= MaxStamina
  {
    var top := before.stack[|before.stack| - 1];
    && after.guiAlpha == GuiAlphaStep(top, before.guiAlpha, elapsed)
    && after.stack == (if top == Invalid then [Invalid] else before.stack)
    && after.timer == before.timer.Tick(elapsed)
    && if top == Explore then Explored(input, elapsed, nearest, wantsToRun, unlimited, before.gait, after.gait, request)
       else request == NoRequest && after.gait == before.gait.(moving := before.gait.moving && top != Treasure)
  }

  // ---------------------------------------------------------------- frame

  /**
   * The frame along one axis, built as the map mode builds it: centre on the
   * position, then overwrite with the near-edge clamp or else the far-edge
   * clamp, then count the tiles to draw from the final offset.
   */
  method FrameAxis(pos: real, ax: AxisConfig, numTiles: int, gridExtent: real) returns (f: AxisFrame)
    requires ax.WellFormed()
    ensures f == AxisFrameFor(pos, ax, numTiles, gridExtent)
  {
    var current := FloatInteger(pos);
    var offset := FloorToPixel(FloatFraction(pos));
    var tileOffset := ax.alignedOffset - offset;
    if IsOddNumber(current) {
      tileOffset := tileOffset - 1.0;
    }
    var tileStart := current / 2 - ax.halfTiles;
    var lowEdge := pos - ax.halfGridLength;
    var highEdge := pos + ax.halfGridLength;
    var pinned := false;
    if tileStart < 0 {
      tileStart := 0;
      tileOffset := ax.alignedOffset;
      lowEdge := 0.0;
      highEdge := ax.gridLength;
      pinned := true;
    } else if tileStart + ax.tiles >= numTiles {
      tileStart := numTiles - ax.tiles;
      tileOffset := ax.alignedOffset;
      highEdge := gridExtent;
      lowEdge := highEdge - ax.gridLength;
      pinned := true;
    }
    var numDraw := ax.tiles + 1;
    if IsFloatInRange(tileOffset, ax.alignedOffset - 0.001, ax.alignedOffset + 0.001) {
      numDraw := ax.tiles;
    }
    f := AxisFrame(tileStart, tileOffset, numDraw, lowEdge, highEdge, pinned);
  }

  // ---------------------------------------------------------------- map mode

  class MapMode {
    /** The state stack; its top is the current state. */
    var stateStack: seq<MapState>
    /** The sprite the view follows. */
    var camera: VirtualSprite
    /** The invisible sprite scripts move the view with. */
    const virtualFocus: VirtualSprite
    /** Retargeting: the view slides from `camera + delta` to `camera` while the timer runs. */
    var cameraTimer: Timer
    var deltaX: real
    var deltaY: real
    var mapFrame: MapFrame
    var cameraXInMapCorner: bool
    var cameraYInMapCorner: bool
    var runStamina: int
    var runningDisabled: bool
    var unlimitedStamina: bool
    var guiAlpha: real
    var showMinimap: bool
    var minimap: Minimap?
    const screen: ScreenConfig
    /** The map's size in tiles and in collision-grid units. */
    const numTilesX: int
    const numTilesY: int
    const numGridX: int
    const numGridY: int

    /** The camera timer only runs with a positive duration. */
    ghost predicate TimerSane()
      reads this`cameraTimer
    {
      cameraTimer.Valid() && (cameraTimer.IsRunning() ==> cameraTimer.duration > 0)
    }

    ghost predicate Valid()
      reads this`stateStack, this`runStamina, this`cameraTimer
    {
      && |stateStack| > 0
      && 0 <= runStamina <= MaxStamina
      && TimerSane()
      && screen.WellFormed()
    }

    /** Field set-up only, with the values the map mode starts from; loading is not part of this model. */
    constructor (camera: VirtualSprite, virtualFocus: VirtualSprite, screen: ScreenConfig,
                 numTilesX: int, numTilesY: int, numGridX: int, numGridY: int)
      requires screen.WellFormed()
      ensures Valid()
      ensures stateStack == [Invalid, Explore] && runStamina == MaxStamina && guiAlpha == 0.0
      ensures this.camera == camera && this.virtualFocus == virtualFocus && minimap == null
      ensures !cameraTimer.IsRunning()
    {
      stateStack := [Invalid, Explore];
      this.camera := camera;
      this.virtualFocus := virtualFocus;
      cameraTimer := Timer(Initial, 0, 0);
      deltaX := 0.0;
      deltaY := 0.0;
      mapFrame := MapFrame(0.0, 0.0, 0, 0, 0, 0, ScreenEdges(0.0, 0.0, 0.0, 0.0));
      cameraXInMapCorner := false;
      cameraYInMapCorner := false;
      runStamina := MaxStamina;
      runningDisabled := false;
      unlimitedStamina := false;
      guiAlpha := 0.0;
      showMinimap := false;
      minimap := null;
      this.screen := screen;
      this.numTilesX := numTilesX;
      this.numTilesY := numTilesY;
      this.numGridX := numGridX;
      this.numGridY := numGridY;
    }

    /** The current state, for specifications. */
    function Top(): MapState
      reads this`stateStack
      requires stateStack != []
    {
      stateStack[|stateStack| - 1]
    }

    // ------------------------------------------------------------ state stack

    method ResetState()
      modifies this`stateStack
      ensures stateStack == [Invalid]
    {
      stateStack := [];
      stateStack := stateStack + [Invalid];
    }

    method PushState(state: MapState)
      modifies this`stateStack
      ensures stateStack == old(stateStack) + [state]
      ensures Top() == state
    {
      stateStack := stateStack + [state];
    }

    /** Drop the top state; a stack left empty is reset to the invalid state. */
    method PopState()
      requires stateStack != []
      modifies this`stateStack
      ensures |old(stateStack)| == 1 ==> stateStack == [Invalid]
      ensures |old(stateStack)| > 1 ==> stateStack == old(stateStack)[..|old(stateStack)| - 1]
      ensures stateStack != []
    {
      stateStack := stateStack[..|stateStack| - 1];
      if stateStack == [] {
        stateStack := stateStack + [Invalid];
      }
    }

    /** The top state; an empty stack is first reset to the invalid state. */
    method CurrentState() returns (state: MapState)
      modifies this`stateStack
      ensures old(stateStack) == [] ==> stateStack == [Invalid]
      ensures old(stateStack) != [] ==> stateStack == old(stateStack)
      ensures stateStack != [] && state == Top()
    {
      if stateStack == [] {
        stateStack := stateStack + [Invalid];
      }
      state := stateStack[|stateStack| - 1];
    }

    // ------------------------------------------------------------ camera

    /** Where the view is centred: the camera, shifted back along the retargeting path while the timer runs. */
    ghost function ViewX(): real
      reads this`camera, this`cameraTimer, this`deltaX, this`deltaY, camera`x, camera`y
      requires TimerSane()
    {
      camera.x + (if cameraTimer.IsRunning() then (1.0 - cameraTimer.PercentComplete()) * deltaX else 0.0)
    }

    ghost function ViewY(): real
      reads this`camera, this`cameraTimer, this`deltaX, this`deltaY, camera`x, camera`y
      requires TimerSane()
    {
      camera.y + (if cameraTimer.IsRunning() then (1.0 - cameraTimer.PercentComplete()) * deltaY else 0.0)
    }

    /** The frame for a view centred at (vx, vy) on this map. */
    ghost function FrameFor(vx: real, vy: real): MapFrame
      requires screen.WellFormed()
    {
      Combine(AxisFrameFor(vx, XAxis(screen), numTilesX, numGridX as real),
              AxisFrameFor(vy, YAxis(screen), numTilesY, numGridY as real))
    }

    /** The state a frame changes, as one value. */
    ghost function Snapshot(): ModeSnapshot
      reads this`stateStack, this`guiAlpha, this`cameraTimer, this`runStamina, this`camera
      reads camera`moving, camera`isRunning, camera`direction
    {
      ModeSnapshot(stateStack, guiAlpha, cameraTimer, GaitNow())
    }

    /** The frame for the current view centre, with whether each axis is pinned at a map edge. */
    ghost function FrameTarget(): (MapFrame, bool, bool)
      reads this`camera, this`cameraTimer, this`deltaX, this`deltaY, camera`x, camera`y
      requires TimerSane() && screen.WellFormed()
    {
      var vx, vy := ViewX(), ViewY();
      (FrameFor(vx, vy),
       AxisFrameFor(vx, XAxis(screen), numTilesX, numGridX as real).pinned,
       AxisFrameFor(vy, YAxis(screen), numTilesY, numGridY as real).pinned)
    }

    /** The view's centre, as the frame update computes it. */
    method ViewCentre() returns (cameraX: real, cameraY: real)
      requires TimerSane()
      ensures cameraX == ViewX() && cameraY == ViewY()
    {
      cameraX := camera.x;
      cameraY := camera.y;
      if cameraTimer.IsRunning() {
        cameraX := cameraX + (1.0 - cameraTimer.PercentComplete()) * deltaX;
        cameraY := cameraY + (1.0 - cameraTimer.PercentComplete()) * deltaY;
      }
    }

    /**
     * Recompute the frame from the view's centre, record which axes are
     * pinned at a map edge and, while retargeting, report the parallax shift
     * of this frame.
     */
    method UpdateMapFrame(elapsed: nat) returns (parallax: Option<(real, real)>)
      requires Valid()
      modifies this`mapFrame, this`cameraXInMapCorner, this`cameraYInMapCorner
      ensures Valid()
      ensures mapFrame == FrameFor(ViewX(), ViewY())
      ensures cameraXInMapCorner == AxisFrameFor(ViewX(), XAxis(screen), numTilesX, numGridX as real).pinned
      ensures cameraYInMapCorner == AxisFrameFor(ViewY(), YAxis(screen), numTilesY, numGridY as real).pinned
      ensures parallax == Parallax(cameraTimer, cameraXInMapCorner, cameraYInMapCorner, deltaX, deltaY, screen, elapsed)
    {
      var cameraX, cameraY := ViewCentre();
      SetFrame(cameraX, cameraY);
      parallax := Parallax(cameraTimer, cameraXInMapCorner, cameraYInMapCorner, deltaX, deltaY, screen, elapsed);
    }

    /** The frame and the corner flags for a view centred at the given position. */
    method SetFrame(cameraX: real, cameraY: real)
      requires screen.WellFormed()
      modifies this`mapFrame, this`cameraXInMapCorner, this`cameraYInMapCorner
      ensures mapFrame == FrameFor(cameraX, cameraY)
      ensures cameraXInMapCorner == AxisFrameFor(cameraX, XAxis(screen), numTilesX, numGridX as real).pinned
      ensures cameraYInMapCorner == AxisFrameFor(cameraY, YAxis(screen), numTilesY, numGridY as real).pinned
    {
      var fx := FrameAxis(cameraX, XAxis(screen), numTilesX, numGridX as real);
      var fy := FrameAxis(cameraY, YAxis(screen), numTilesY, numGridY as real);
      mapFrame := Combine(fx, fy);
      cameraXInMapCorner := fx.pinned;
      cameraYInMapCorner := fy.pinned;
    }

    /**
     * Follow another sprite. With a duration the view slides there from where
     * the old camera stood, so it does not jump; without one it cuts.
     * Choosing the current camera again changes nothing.
     */
    method SetCamera(sprite: VirtualSprite, duration: nat)
      requires Valid()
      modifies this
      ensures Valid()
      ensures sprite == old(camera) ==> unchanged(this)
      ensures sprite != old(camera) ==> camera == sprite
      ensures sprite != old(camera) && duration > 0 ==>
        && deltaX == old(camera.x) - sprite.x && deltaY == old(camera.y) - sprite.y
        && cameraTimer == Started(duration)
        && ViewX() == old(camera.x) && ViewY() == old(camera.y)
      ensures sprite != old(camera) && duration == 0 ==>
        cameraTimer == old(cameraTimer) && deltaX == old(deltaX) && deltaY == old(deltaY)
      ensures stateStack == old(stateStack) && runStamina == old(runStamina) && guiAlpha == old(guiAlpha)
      ensures mapFrame == old(mapFrame) && minimap == old(minimap)
    {
      if camera == sprite {
        return;
      }
      if duration > 0 {
        deltaX := camera.x - sprite.x;
        deltaY := camera.y - sprite.y;
        cameraTimer := cameraTimer.Reset();
        cameraTimer := cameraTimer.WithDuration(duration);
        cameraTimer := cameraTimer.Run();
        StartedAtZero(cameraTimer);
      }
      camera := sprite;
    }

    /** Put the virtual focus at a map position. */
    method MoveVirtualFocus(x: real, y: real)
      modifies virtualFocus`x, virtualFocus`y
      ensures virtualFocus.x == x && virtualFocus.y == y
    {
      virtualFocus.x := x;
      virtualFocus.y := y;
    }

    /**
     * Slide the virtual focus, and the view with it, to a map position over
     * a duration; the view starts from where the focus stood. Nothing happens
     * unless the camera is the virtual focus.
     */
    method MoveVirtualFocusDuring(x: real, y: real, duration: nat)
      requires Valid()
      modifies this, virtualFocus`x, virtualFocus`y
      ensures Valid()
      ensures old(camera) != virtualFocus ==> unchanged(this) && unchanged(virtualFocus)
      ensures old(camera) == virtualFocus ==> camera == virtualFocus && virtualFocus.x == x && virtualFocus.y == y
      ensures old(camera) == virtualFocus && duration > 0 ==>
        && cameraTimer == Started(duration)
        && ViewX() == old(virtualFocus.x) && ViewY() == old(virtualFocus.y)
      ensures old(camera) == virtualFocus && duration == 0 ==>
        cameraTimer == old(cameraTimer) && deltaX == old(deltaX) && deltaY == old(deltaY)
      ensures camera == old(camera) && stateStack == old(stateStack) && runStamina == old(runStamina)
      ensures guiAlpha == old(guiAlpha) && mapFrame == old(mapFrame) && minimap == old(minimap)
    {
      if camera != virtualFocus {
        return;
      }
      if duration > 0 {
        deltaX := virtualFocus.x - x;
        deltaY := virtualFocus.y - y;
        cameraTimer := cameraTimer.Reset();
        cameraTimer := cameraTimer.WithDuration(duration);
        cameraTimer := cameraTimer.Run();
        StartedAtZero(cameraTimer);
      }
      MoveVirtualFocus(x, y);
    }

    /** The player may attack only while exploring and while the view follows a real sprite. */
    method AttackAllowed() returns (allowed: bool)
      modifies this`stateStack
      ensures old(stateStack) != [] ==> stateStack == old(stateStack)
      ensures allowed <==> old(stateStack) != [] && old(Top()) == Explore && camera != virtualFocus
    {
      var state := CurrentState();
      allowed := state == Explore && camera != virtualFocus;
    }

    // ------------------------------------------------------------ explore

    /**
     * The running rule for one frame: the camera runs only when a run is
     * wanted and the gauge allows it; the gauge pays for the run, drains when
     * it cannot, and refills on a frame without a run.
     */
    method UpdateRunning(wantsToRun: bool, elapsed: nat)
      requires Valid()
      modifies this`runStamina, camera`isRunning
      ensures Valid()
      ensures runStamina == RunStep(old(runStamina), unlimitedStamina, wantsToRun, elapsed).stamina
      ensures camera.isRunning == RunStep(old(runStamina), unlimitedStamina, wantsToRun, elapsed).running
    {
      camera.isRunning := false;
      if wantsToRun {
        if unlimitedStamina {
          camera.isRunning := true;
        } else if runStamina > elapsed * 2 {
          runStamina := runStamina - elapsed * 2;
          camera.isRunning := true;
        } else {
          runStamina := 0;
        }
      } else if runStamina < MaxStamina {
        runStamina := runStamina + elapsed;
        if runStamina > MaxStamina {
          runStamina := MaxStamina;
        }
      }
    }

    /**
     * A confirm press next to an object: talking to an object with a talk
     * event or to a sprite with a dialogue stops the camera and ends the
     * explore step; an unopened treasure stops the camera and is opened; a
     * save point asks for the save menu one unit above it.
     */
    method Interact(nearest: Interaction) returns (request: Request, stop: bool)
      modifies camera`moving, camera`isRunning
      ensures stop <==> nearest.StopsExplore()
      ensures request == nearest.ConfirmRequest()
      ensures stop ==> !camera.moving && !camera.isRunning
      ensures !stop ==> camera.isRunning == old(camera.isRunning)
      ensures !stop ==> camera.moving == (old(camera.moving) && !(nearest.TreasureObject? && !nearest.taken))
    {
      request, stop := NoRequest, false;
      match nearest {
        case PhysicalObject(hasTalkEvent, eventActive) =>
          if hasTalkEvent {
            camera.moving := false;
            camera.isRunning := false;
            if !eventActive {
              request := StartEvent;
            }
            stop := true;
          }
        case SpriteObject(hasDialogue) =>
          if hasDialogue {
            camera.moving := false;
            camera.isRunning := false;
            request := InitiateDialogue;
            stop := true;
          }
        case TreasureObject(taken) =>
          if !taken {
            camera.moving := false;
            request := OpenTreasure;
          }
        case SavePoint(x, y) =>
          request := SaveAt(x, y - 1.0);
        case _ =>
      }
    }

    /** The held keys decide whether the camera moves and, when it does, where it faces. */
    method Steer(input: Input)
      modifies camera`moving, camera`direction
      ensures camera.moving == input.AnyDirection()
      ensures var facing := FacingFor(input.upState, input.downState, input.leftState, input.rightState);
        camera.direction == (if facing.Some? then facing.value else old(camera.direction))
    {
      camera.moving := input.AnyDirection();

      if camera.moving {
        if input.upState {
          if input.leftState {
            camera.direction := MovingNorthwest;
          } else if input.rightState {
            camera.direction := MovingNortheast;
          } else {
            camera.direction := North;
          }
        } else if input.downState {
          if input.leftState {
            camera.direction := MovingSouthwest;
          } else if input.rightState {
            camera.direction := MovingSoutheast;
          } else {
            camera.direction := South;
          }
        } else if input.leftState {
          camera.direction := West;
        } else if input.rightState {
          camera.direction := East;
        }
      }
    }

    /** Whether this frame's input asks the camera to run. */
    predicate WantsToRun(input: Input)
      reads this`camera, this`runningDisabled, camera`movedPosition
    {
      camera.movedPosition && !runningDisabled && input.cancelState && input.AnyDirection()
    }

    /** The gauge and the camera's movement flags and facing, as one value. */
    ghost function GaitNow(): Gait
      reads this`runStamina, this`camera, camera`moving, camera`isRunning, camera`direction
    {
      Gait(runStamina, camera.moving, camera.isRunning, camera.direction)
    }

    /**
     * One explore frame: a menu press leaves at once; otherwise the running
     * rule updates the gauge, a confirm press deals with the nearest object
     * (talking stops the camera and ends the frame), and the held keys set
     * whether the camera moves and where it faces.
     */
    method UpdateExplore(input: Input, elapsed: nat, nearest: Interaction) returns (request: Request)
      requires Valid()
      modifies this`runStamina, camera`isRunning, camera`moving, camera`direction
      ensures Valid()
      ensures Explored(input, elapsed, nearest, WantsToRun(input), unlimitedStamina, old(GaitNow()), GaitNow(), request)
    {
      if input.menuPress {
        return OpenMenu;
      }
      request := NoRequest;
      UpdateRunning(WantsToRun(input), elapsed);

      if input.confirmPress {
        var stop;
        request, stop := Interact(nearest);
        if stop {
          return;
        }
      }

      Steer(input);
    }

    // ------------------------------------------------------------ frame update

    /** The GUI fade for one frame in the given state. */
    method FadeGui(state: MapState, elapsed: nat)
      modifies this`guiAlpha
      ensures guiAlpha == GuiAlphaStep(state, old(guiAlpha), elapsed)
    {
      if HidesGui(state) {
        if guiAlpha > 0.0 {
          guiAlpha := guiAlpha - elapsed as real * GuiFadeRate;
        }
      } else {
        if guiAlpha < 1.0 {
          guiAlpha := guiAlpha + elapsed as real * GuiFadeRate;
        }
      }
    }

    /**
     * Run the current state for one frame: explore, do nothing for a scene
     * or a dialogue, hold the camera still while a treasure is shown, and
     * reset the stack when the state is not one the map knows.
     */
    method RunState(input: Input, elapsed: nat, nearest: Interaction) returns (request: Request)
      requires Valid()
      modifies this`stateStack, this`runStamina, camera`isRunning, camera`moving, camera`direction
      ensures Valid()
      ensures stateStack == (if old(Top()) == Invalid then [Invalid] else old(stateStack))
      ensures old(Top()) == Explore ==>
        Explored(input, elapsed, nearest, WantsToRun(input), unlimitedStamina, old(GaitNow()), GaitNow(), request)
      ensures old(Top()) != Explore ==>
        && request == NoRequest
        && GaitNow() == old(GaitNow()).(moving := old(camera.moving) && old(Top()) != Treasure)
    {
      request := NoRequest;
      var state := CurrentState();
      match state {
        case Explore =>
          request := UpdateExplore(input, elapsed, nearest);
        case Scene =>
        case Dialogue =>
        case Treasure =>
          camera.moving := false;
        case Invalid =>
          ResetState();
      }
    }

    /** While exploring, and when shown, the minimap follows the camera under the GUI's alpha. */
    method FollowWithMinimap(globalShowMinimap: bool)
      requires Valid()
      modifies this`stateStack, minimap
      ensures stateStack == old(stateStack)
      ensures minimap != null && showMinimap && Top() == Explore && globalShowMinimap ==>
        && minimap.mapAlphaScale == guiAlpha
        && minimap.currentPositionX == camera.x && minimap.currentPositionY == camera.y
      ensures minimap != null && !(showMinimap && Top() == Explore && globalShowMinimap) ==> unchanged(minimap)
    {
      var state := CurrentState();
      if showMinimap && minimap != null && state == Explore && globalShowMinimap {
        minimap.Update(camera, guiAlpha, mapFrame.screenEdges, screen);
      }
    }

    /** Fade the GUI for the current state, then run that state for one frame. */
    method FadeAndRunState(input: Input, elapsed: nat, nearest: Interaction) returns (request: Request)
      requires Valid()
      modifies this`stateStack, this`guiAlpha, this`runStamina, camera`isRunning, camera`moving, camera`direction
      ensures Valid()
      ensures guiAlpha == GuiAlphaStep(old(Top()), old(guiAlpha), elapsed)
      ensures stateStack == (if old(Top()) == Invalid then [Invalid] else old(stateStack))
      ensures old(Top()) == Explore ==>
        Explored(input, elapsed, nearest, WantsToRun(input), unlimitedStamina, old(GaitNow()), GaitNow(), request)
      ensures old(Top()) != Explore ==>
        && request == NoRequest
        && GaitNow() == old(GaitNow()).(moving := old(camera.moving) && old(Top()) != Treasure)
    {
      var state := CurrentState();
      FadeGui(state, elapsed);
      request := RunState(input, elapsed, nearest);
    }

    /**
     * The part of a frame after the quit, pause and minimap presses: fade
     * the GUI for the current state, run that state, advance the camera
     * timer and let the minimap follow the camera while exploring.
     */
    method RunFrame(input: Input, elapsed: nat, nearest: Interaction, globalShowMinimap: bool) returns (request: Request)
      requires Valid()
      modifies this`stateStack, this`guiAlpha, this`runStamina, this`cameraTimer
      modifies camera`isRunning, camera`moving, camera`direction, minimap
      ensures Valid()
      ensures FrameRan(input, elapsed, nearest, WantsToRun(input), unlimitedStamina, old(Snapshot()), Snapshot(), request)
      ensures minimap != null && showMinimap && old(Top()) == Explore && globalShowMinimap ==>
        && minimap.mapAlphaScale == guiAlpha
        && minimap.currentPositionX == camera.x && minimap.currentPositionY == camera.y
      ensures minimap != null && !(showMinimap && old(Top()) == Explore && globalShowMinimap) ==> unchanged(minimap)
    {
      request := FadeAndRunState(input, elapsed, nearest);
      ghost var gait := GaitNow();

      cameraTimer := cameraTimer.Tick(elapsed);

      FollowWithMinimap(globalShowMinimap);
      assert GaitNow() == gait;
    }

    /**
     * One map frame: recompute the camera frame; a quit, pause or minimap
     * press ends the frame there, otherwise the rest of the frame runs.
     */
    method Update(input: Input, elapsed: nat, nearest: Interaction, globalShowMinimap: bool)
      returns (request: Request, parallax: Option<(real, real)>)
      requires Valid()
      modifies this`mapFrame, this`cameraXInMapCorner, this`cameraYInMapCorner, this`stateStack
      modifies this`guiAlpha, this`runStamina, this`cameraTimer
      modifies camera`isRunning, camera`moving, camera`direction, minimap
      ensures Valid()
      ensures (mapFrame, cameraXInMapCorner, cameraYInMapCorner) == old(FrameTarget())
      ensures parallax == Parallax(old(cameraTimer), cameraXInMapCorner, cameraYInMapCorner, deltaX, deltaY, screen, elapsed)
      ensures input.quitPress || input.pausePress || input.minimapPress ==>
        && request == PressRequest(input) && Snapshot() == old(Snapshot())
        && (minimap != null ==> unchanged(minimap))
      ensures !(input.quitPress || input.pausePress || input.minimapPress) ==>
        && FrameRan(input, elapsed, nearest, WantsToRun(input), unlimitedStamina, old(Snapshot()), Snapshot(), request)
        && (minimap != null && showMinimap && old(Top()) == Explore && globalShowMinimap ==>
              && minimap.mapAlphaScale == guiAlpha
              && minimap.currentPositionX == camera.x && minimap.currentPositionY == camera.y)
        && (minimap != null && !(showMinimap && old(Top()) == Explore && globalShowMinimap) ==> unchanged(minimap))
    {
      ghost var target, before := FrameTarget(), Snapshot();
      parallax := UpdateMapFrame(elapsed);
      assert (mapFrame, cameraXInMapCorner, cameraYInMapCorner) == target && Snapshot() == before;
      request := HandleInput(input, elapsed, nearest, globalShowMinimap);
    }

    /** The rest of a map frame: a quit, pause or minimap press ends it, otherwise the state runs. */
    method HandleInput(input: Input, elapsed: nat, nearest: Interaction, globalShowMinimap: bool) returns (request: Request)
      requires Valid()
      modifies this`stateStack, this`guiAlpha, this`runStamina, this`cameraTimer
      modifies camera`isRunning, camera`moving, camera`direction, minimap
      ensures Valid()
      ensures input.quitPress || input.pausePress || input.minimapPress ==>
        && request == PressRequest(input) && Snapshot() == old(Snapshot())
        && (minimap != null ==> unchanged(minimap))
      ensures !(input.quitPress || input.pausePress || input.minimapPress) ==>
        && FrameRan(input, elapsed, nearest, WantsToRun(input), unlimitedStamina, old(Snapshot()), Snapshot(), request)
        && (minimap != null && showMinimap && old(Top()) == Explore && globalShowMinimap ==>
              && minimap.mapAlphaScale == guiAlpha
              && minimap.currentPositionX == camera.x && minimap.currentPositionY == camera.y)
        && (minimap != null && !(showMinimap && old(Top()) == Explore && globalShowMinimap) ==> unchanged(minimap))
    {
      if input.quitPress {
        return PauseRequest(true);
      } else if input.pausePress {
        return PauseRequest(false);
      } else if input.minimapPress {
        return ToggleMinimap;
      }

      request := RunFrame(input, elapsed, nearest, globalShowMinimap);
    }
  }

  /**
   * While retargeting, the parallax shift of a frame of `elapsed`
   * milliseconds in screen pixels: the frame's share of the slide on each
   * axis, or nothing on an axis pinned at a map edge.
   */
  function Parallax(timer: Timer, xPinned: bool, yPinned: bool, deltaX: real, deltaY: real,
                    screen: ScreenConfig, elapsed: nat): (parallax: Option<(real, real)>)
    requires timer.Valid() && (timer.IsRunning() ==> timer.duration > 0) && screen.WellFormed()
    ensures parallax.Some? <==> timer.IsRunning()
    ensures parallax.Some? && xPinned ==> parallax.value.0 == 0.0
    ensures parallax.Some? && yPinned ==> parallax.value.1 == 0.0
    ensures parallax.Some? && !xPinned ==>
      parallax.value.0 * timer.duration as real * screen.screenGridXLength == deltaX * elapsed as real * screen.resWidth
    ensures parallax.Some? && !yPinned ==>
      parallax.value.1 * timer.duration as real * screen.screenGridYLength == deltaY * elapsed as real * screen.resHeight
  {
    if timer.IsRunning() then
      var duration := timer.duration as real;
      Some((ParallaxShift(xPinned, deltaX, elapsed as real, duration, screen.screenGridXLength, screen.resWidth),
            ParallaxShift(yPinned, deltaY, elapsed as real, duration, screen.screenGridYLength, screen.resHeight)))
    else None
  }

  /** A timer reset, given a duration and run is started afresh, with none of its time spent. */
  lemma StartedAtZero(t: Timer)
    requires t == Started(t.duration) && t.duration > 0
    ensures t.PercentComplete() == 0.0
  {
    assert t.PercentComplete() * t.duration as real == 0.0;
  }

  /**
   * The parallax shift along one axis for a frame of `elapsed` out of a
   * retargeting of `duration`: nothing on a pinned axis, else the frame's
   * share of the slide, converted from grid units to screen pixels.
   */
  function ParallaxShift(pinned: bool, delta: real, elapsed: real, duration: real, gridLength: real, resolution: real): (p: real)
    requires duration > 0.0 && gridLength > 0.0
    ensures pinned ==> p == 0.0
    ensures !pinned ==> p * duration * gridLength == delta * elapsed * resolution
  {
    if pinned then 0.0 else delta * elapsed / duration / gridLength * resolution
  }
}
