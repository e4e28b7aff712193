# ValyriaTear map mode and indicator supervisor, modelled in Dafny

This project models three pieces of per-frame state-update logic from the
ValyriaTear engine:

- **Indicator supervisor** (`src/engine/indicator_supervisor.cpp`). This covers
  the floating damage, healing, "Miss", status and item indicators shown over
  battle sprites.
  - Each `IndicatorElement` is a class. It has a one-shot 3000 ms timer, a
    per-kind motion (a bouncing, gravity-bound damage number, or a constant
    drift), a piecewise fade alpha, and a five-phase draw schedule for
    blended status icons.
  - The `IndicatorSupervisor` owns a FIFO wait queue and an active queue.
  - `Update` goes through these steps in order:
    - it ticks every active element;
    - it drops expired elements from the front of the active queue only;
    - it starts each waiting element and nudges it right until no active
      element shares its origin;
    - it moves that element to the active queue;
    - if anything moved over, it sorts the active queue by descending x
      origin.
- **Map mode** (`src/modes/map/map_mode.cpp`).
  - The state stack.
  - The GUI fade.
  - The per-frame camera frame, with clamping at the map edges and the
    corner flags.
  - The smooth camera retargeting (`SetCamera`, `MoveVirtualFocus`) and the
    parallax it reports.
  - The explore step's stamina rule and its key-to-facing rule.
  - The state dispatch of `Update`.
- **Minimap** (`src/modes/map/map_minimap.cpp`).
  - `Update`: the centre clamp, the opacity choice and the marker frame.
  - The guard and the alpha rule of `Draw`.

## Files

| File | Contents |
|---|---|
| `common.dfy` | Module `Common`: `Option`, min/max helpers, `Sum` of frame times. |
| `timers.dfy` | Module `Timers`: the engine's one-shot timer as a value. |
| `map_sprites.dfy` | Module `MapSprites`: directions and the sprite fields the map reads and writes. |
| `indicator_elements.dfy` | Module `IndicatorElements`: the element class and the pure motion, alpha and schedule functions. |
| `indicator_supervisor.dfy` | Module `IndicatorSupervision`: the supervisor class, its queue invariant and its sort. |
| `camera_frame.dfy` | Module `CameraFrame`: the per-axis frame function and the float helpers it uses. |
| `map_minimap.dfy` | Module `MapMinimap`: the minimap class. |
| `map_mode.dfy` | Module `MapModes`: the map mode class and its pure per-frame rules. |

**Timer.** The engine's `SystemTimer` is not part of this model. It appears
as the `Timer` value with these properties:

- `expired` counts milliseconds and never passes `duration`;
- `Tick(elapsed)` advances only a running timer and finishes it at the
  duration;
- `Started(d)` is the result of reset, set duration and run.

**Inputs.** These are parameters:

- the frame time;
- the input manager's presses and held keys (`Input`);
- the kind of the nearest interaction object (`Interaction`);
- the global show-minimap flag;
- the random x-force of an indicator start, chosen non-deterministically in
  [-20, 20].

**Outputs.** The calls the source makes to other managers are returned as
values:

- pushing the pause, menu or save mode;
- starting events and dialogues;
- opening treasures;
- toggling the minimap.

These become a `Request`. The parallax shift becomes an optional pair.

## Model

| member | source | states |
|---|---|---|
| `Timers.Timer.Tick` | src/engine/indicator_supervisor.cpp:76 | Only a running timer advances. Its expired time becomes min(expired + elapsed, duration). It stays running exactly while that sum is below the duration. A stopped timer is returned unchanged. |
| `Timers.Started` | src/engine/indicator_supervisor.cpp:65-67 | Reset followed by run leaves a valid running timer with nothing expired. |
| `Timers.ExpiresExactlyAtDuration` | src/engine/indicator_supervisor.cpp:76 | Over any series of frames, a running timer's expired time is min(start + total, duration). It is expired exactly when the total reaches the time it had left. |
| `Timers.StoppedTimerStaysPut` | src/engine/indicator_supervisor.cpp:76 | A timer that is not running is unchanged by any series of frames. |
| `IndicatorElements.DamageMove` | src/engine/indicator_supervisor.cpp:87-115 | A damage number never goes below the ground line. Its fall force stays between -15 and the larger of its previous force and the strongest bounce. The force strictly falls while airborne above terminal speed. x does not advance on the ground. |
| `IndicatorElements.Move` | src/engine/indicator_supervisor.cpp:81-132 | The x force is kept. Non-damage kinds keep their y force. Damage motion stays within its bounds. |
| `IndicatorElements.DamageStaysBounded` | src/engine/indicator_supervisor.cpp:87-115 | Over any series of frames, a damage number stays on or above the ground with its force in bounds. |
| `IndicatorElements.DriftIsLinear` | src/engine/indicator_supervisor.cpp:118-131 | Over any series of frames, healing and positive-status indicators rise by 5 units per second of total time. Item and negative-status indicators sink at that rate. "Miss" text slides left at that rate. Forces are unchanged. |
| `IndicatorElements.DrawAlpha` | src/engine/indicator_supervisor.cpp:134-152 | The alpha lies in [0, 1]. Over the 3000 ms life it is 0 exactly at the start and at the end. It is 1 exactly between 500 ms and 2000 ms. The running-and-paused branch never applies. |
| `IndicatorElements.AlphaRisesThenFalls` | src/engine/indicator_supervisor.cpp:141-151 | The alpha never decreases before the fade-out starts, and never increases after the fade-in ends. |
| `IndicatorElements.CrossfadeAlpha` | src/engine/indicator_supervisor.cpp:258-259 | In the cross-fade phase the first image's alpha lies in [0, 0.75). |
| `IndicatorElements.BlendedBlits` | src/engine/indicator_supervisor.cpp:243-272 | Phases end at 500, 750, 1500 and 2000 ms. The first image is drawn exactly up to 1500 ms, and the second exactly after 750 ms. When both are drawn their alphas sum to 1. The first phase uses the fade alpha on the first image, and the last phase uses it on the second. |
| `IndicatorElements.Step` | src/engine/indicator_supervisor.cpp:74-79 | One update keeps an element's state valid and its origin unchanged. The timer saturates at the 3000 ms life. |
| `IndicatorElements.IndicatorElement.constructor` | src/engine/indicator_supervisor.cpp:49-60 | A new element has an initial 3000 ms timer, zero alpha and no motion except the 12.0 upward force. |
| `IndicatorElements.IndicatorElement.Start` | src/engine/indicator_supervisor.cpp:63-72 | The timer is running with nothing expired. The x force lies in [-20, 20] and the y force is 12.0. Position and alphas are kept. |
| `IndicatorElements.IndicatorElement.Update` | src/engine/indicator_supervisor.cpp:74-79 | The element's new state is one `Step` of its old state. |
| `IndicatorElements.IndicatorElement.UpdateDrawPosition` | src/engine/indicator_supervisor.cpp:81-132 | The motion fields become `Move` of the old motion. Nothing else changes. |
| `IndicatorElements.IndicatorElement.ComputeDrawAlpha` | src/engine/indicator_supervisor.cpp:134-152 | The alpha becomes `DrawAlpha` of the timer. |
| `IndicatorElements.IndicatorElement.Draw` | src/engine/indicator_supervisor.cpp:167-272 | The draw position is origin plus relative offset, with y pointing up. Text and single images draw once with the fade alpha. Blended icons follow `BlendedBlits`, and only the cross-fade phase rewrites the two alphas. |
| `IndicatorSupervision.IndicatorSupervisor.Dispose` | src/engine/indicator_supervisor.cpp:278-287 | Both queues end up empty. |
| `IndicatorSupervision.IndicatorSupervisor.Enqueue` | src/engine/indicator_supervisor.cpp:371 | The element is appended to the back of the wait queue. The active queue is untouched and the invariant is kept. |
| `IndicatorSupervision.IndicatorSupervisor.AddDamageIndicator` | src/engine/indicator_supervisor.cpp:363-372 | An amount of 0 changes nothing. Otherwise exactly one new damage element showing the amount is appended to the wait queue. The active queue is untouched. |
| `IndicatorSupervision.IndicatorSupervisor.AddHealingIndicator` | src/engine/indicator_supervisor.cpp:376-385 | As for damage, with a healing element. |
| `IndicatorSupervision.IndicatorSupervisor.AddMissIndicator` | src/engine/indicator_supervisor.cpp:387-392 | Exactly one new "Miss" text element is appended to the wait queue. |
| `IndicatorSupervision.IndicatorSupervisor.AddStatusIndicator` | src/engine/indicator_supervisor.cpp:394-411 | Exactly one new element is appended, with the kind and image given by `StatusIndicatorFor`. |
| `IndicatorSupervision.IndicatorSupervisor.AddItemIndicator` | src/engine/indicator_supervisor.cpp:413-417 | Exactly one new item element is appended. |
| `IndicatorSupervision.StatusIndicatorFor` | src/engine/indicator_supervisor.cpp:398-410 | Equal intensities give a single icon of the new intensity. Different intensities give a blended pair. The kind is positive exactly when old ≤ new, else negative. |
| `IndicatorSupervision.IndicatorSupervisor.FixPotentialIndicatorOverlapping` | src/engine/indicator_supervisor.cpp:329-355 | The result is false for null. Otherwise it is true exactly when some active element has the same (x, y) origin. In that case x moves right by 1 for damage and 15 for other kinds. Nothing else about the element changes. |
| `IndicatorSupervision.IndicatorSupervisor.UpdateActive` | src/engine/indicator_supervisor.cpp:296-298 | Every active element has taken exactly one `Step`. The wait queue is untouched and the invariant is kept. |
| `IndicatorSupervision.IndicatorSupervisor.RemoveExpired` | src/engine/indicator_supervisor.cpp:300-309 | The active queue loses exactly its longest expired prefix. This stops at the first live element, so expired elements behind it stay. |
| `IndicatorSupervision.ExpiredPrefix` | src/engine/indicator_supervisor.cpp:301-309 | Every element in the prefix is expired, and the element just after it is not. |
| `IndicatorSupervision.IndicatorSupervisor.Place` | src/engine/indicator_supervisor.cpp:315-317 | After start and the nudge loop, the element's origin is shared with no active element. It has been nudged by a whole number of steps, and it stops at the first such position: every whole-step position it passed on the way is taken by an active element. It is started with its forces in range. The loop terminates because the number of active origins at or right of x strictly drops. |
| `IndicatorSupervision.CountAtLeastDrops` | src/engine/indicator_supervisor.cpp:316-317 | Moving past an active element's x origin strictly lowers the count of active origins at or right of x. This is the nudge loop's termination measure. |
| `IndicatorSupervision.NudgeOnce` | src/engine/indicator_supervisor.cpp:350-353 | A further nudge keeps the origin a whole number of steps from where it started. |
| `IndicatorSupervision.NudgeGap` | src/engine/indicator_supervisor.cpp:350-353 | Two whole-step positions from the same start that lie less than one step apart are the same position, so the nudge loop cannot jump over a free position. |
| `IndicatorSupervision.SkipOccupied` | src/engine/indicator_supervisor.cpp:316-317 | Nudging on from a taken position keeps the fact that every whole-step position passed so far is taken. |
| `IndicatorSupervision.PromotedInTurnExtends` | src/engine/indicator_supervisor.cpp:311-322 | Promoting one more element, placed at the first free position among the active elements and those promoted before it, extends the record of in-order promotion. |
| `IndicatorSupervision.IndicatorSupervisor.PromoteFront` | src/engine/indicator_supervisor.cpp:315-320 | The front waiting element moves to the back of the active queue, placed as `Place` says: at the first free whole-step position against the active queue as it stood, which includes the elements promoted before it. The queue invariant (distinct elements, disjoint queues, distinct active origins) is kept. |
| `IndicatorSupervision.IndicatorSupervisor.PromoteWaiting` | src/engine/indicator_supervisor.cpp:311-322 | The wait queue is drained in order onto the back of the active queue. Each element is started and sits at the first free whole-step position from its old origin, judged against the old active queue plus the elements promoted before it. Elements already active are untouched. A sort is requested exactly when something waited. |
| `IndicatorSupervision.SortByDescendingX` | src/engine/indicator_supervisor.cpp:325-326 | The result is sorted by descending x origin and is a permutation of the input. |
| `IndicatorSupervision.InsertByDescendingX` | src/engine/indicator_supervisor.cpp:289-292 | Inserting into a sorted queue keeps it sorted and adds exactly the element. |
| `IndicatorSupervision.UniquePermuted` | src/engine/indicator_supervisor.cpp:326 | A permutation of a queue of distinct elements holds distinct elements. |
| `IndicatorSupervision.ReorderActive` | src/engine/indicator_supervisor.cpp:326 | Reordering the active queue keeps the queue invariant. |
| `IndicatorSupervision.AppendActive` | src/engine/indicator_supervisor.cpp:319 | Appending a fresh, valid element whose origin is free keeps the queue invariant. |
| `IndicatorSupervision.IndicatorSupervisor.SortActive` | src/engine/indicator_supervisor.cpp:325-326 | The active queue becomes a sorted permutation of itself. |
| `IndicatorSupervision.IndicatorSupervisor.Rearrange` | src/engine/indicator_supervisor.cpp:300-326 | The wait queue ends empty. The active queue holds exactly the survivors of front removal plus the promoted elements, each promoted at its first free position in turn. It is sorted if anything waited, and otherwise it is the survivors in order. Survivors are untouched. |
| `IndicatorSupervision.IndicatorSupervisor.Update` | src/engine/indicator_supervisor.cpp:294-327 | Every old active element takes one step. Expired ones are dropped from the front only. Every waiting element is started, placed at its first free position against the survivors and the elements promoted before it, and promoted. The active queue is sorted by descending x origin when anything was promoted. The invariant, including pairwise distinct active origins, is kept. |
| `CameraFrame.Trunc` | src/modes/map/map_mode.cpp:830-831 | Truncation toward zero: the result is within one of the value, on the value's side of zero. |
| `CameraFrame.ToUint16` | src/modes/map/map_mode.cpp:830-831 | The result lies in [0, 65536) and keeps values already in range. |
| `CameraFrame.FloatFraction` | src/modes/map/map_mode.cpp:843-844 | Integer part plus fraction gives back the value. The fraction of a non-negative value lies in [0, 1). |
| `CameraFrame.FloorToPixel` | src/modes/map/map_mode.cpp:843-844 | The result is a whole number of 0.04 pixels. It is at most the value and within one pixel below it. |
| `CameraFrame.AxisFrameFor` | src/modes/map/map_mode.cpp:829-919 | The axis is pinned exactly when the unclamped tile start is negative or reaches the map's far end. The near clamp gives start 0 and edge 0. The far clamp gives start `numTiles - TILES` and far edge equal to the grid size. A pinned axis has the aligned offset (1.0 for x, 2.0 for y) and draws exactly `TILES`. The edges always span the visible grid length. `TILES ≤ numDraw ≤ TILES + 1`. On a map at least a screen wide, drawn tiles stay inside the map. |
| `CameraFrame.AlignedOnlyOnEvenWholePixel` | src/modes/map/map_mode.cpp:843-919 | Away from the edges, a non-negative position draws one tile fewer exactly when its integer part is even and its fraction is under one pixel. |
| `CameraFrame.ScreenXCoordinate` | src/modes/map/map_mode.cpp:561-565 | The left screen edge maps to pixel 0, and the right edge maps to the standard resolution width. |
| `CameraFrame.ScreenYCoordinate` | src/modes/map/map_mode.cpp:567-571 | The top screen edge maps to pixel 0, and the bottom edge maps to the standard resolution height. |
| `MapMinimap.OpacityAt` | src/modes/map/map_minimap.cpp:273-279 | The overlap opacity (alpha 0.45) is used exactly when both screen coordinates are at least (775, 545). Otherwise the default (0.75) is used. |
| `MapMinimap.ClampedCentre` | src/modes/map/map_minimap.cpp:270-292 | The projection never rolls past the map's far edge. It stays off the near edge when the map is at least a window wide. With no clamp it is `box × position`. |
| `MapMinimap.MarkerFrame` | src/modes/map/map_minimap.cpp:295-319 | The north facings give 0, west 1, south 2 and east 3. The four diagonal movement requests keep the current frame. |
| `MapMinimap.Minimap.constructor` | src/modes/map/map_minimap.cpp:56-65 | Position starts at (-1, -1). Boxes are 10 × 7.5. Half windows are 1.75 × tiles × box. Alpha scale is 1. |
| `MapMinimap.Minimap.Update` | src/modes/map/map_minimap.cpp:257-321 | A null camera changes nothing. Otherwise the position and alpha scale are recorded. The opacity is `OpacityAt` of the camera's screen position. The centres are `ClampedCentre` per axis. The marker frame is `MarkerFrame` of the camera's direction. |
| `MapMinimap.Minimap.RecentreX` | src/modes/map/map_minimap.cpp:270-287 | The x centre becomes `ClampedCentre` of the recorded x position. |
| `MapMinimap.Minimap.RecentreY` | src/modes/map/map_minimap.cpp:271-292 | The y centre becomes `ClampedCentre` of the recorded y position. |
| `MapMinimap.Minimap.Draw` | src/modes/map/map_minimap.cpp:218-226 | Nothing is drawn while the x position is at most -1, its value before the first update. Otherwise the alpha is the smaller of the opacity's alpha and the map alpha scale. |
| `MapModes.RunStep` | src/modes/map/map_mode.cpp:723-740 | Stamina stays in [0, 10000]. The camera runs exactly when a run is wanted and either stamina is unlimited or the gauge exceeds twice the frame time. Running never raises the gauge, running with unlimited stamina leaves it as it was, and a frame without a run never lowers it. |
| `MapModes.RestRefills` | src/modes/map/map_mode.cpp:735-740 | Over any series of frames without running, the gauge becomes min(start + total time, 10000). |
| `MapModes.RunningDrains` | src/modes/map/map_mode.cpp:726-734 | Over any series of limited-stamina running frames, the gauge becomes max(start − 2 × total time, 0). |
| `MapModes.FacingFor` | src/modes/map/map_mode.cpp:784-812 | No direction key gives no direction. Otherwise the direction's heading is (left-over-right, up-over-down), so up beats down, left beats right, and vertical plus horizontal gives the diagonal. The result is always one of the four plain directions or the four diagonal movements, never a mixed facing such as north-of-northeast. |
| `MapModes.GuiAlphaStep` | src/modes/map/map_mode.cpp:274-285 | In scenes and dialogues the alpha never rises, and while positive it falls by 0.005 × frame time. Elsewhere it never falls, and while below 1 it rises by that amount. Past its bound it is left alone. |
| `MapModes.GuiFadesIn` | src/modes/map/map_mode.cpp:280-284 | Outside scenes and dialogues, after any series of frames the alpha is at least min(1, start + 0.005 × total time). |
| `MapModes.GuiFadesOut` | src/modes/map/map_mode.cpp:274-279 | In scenes and dialogues, after any series of frames the alpha is at most max(0, start − 0.005 × total time). |
| `MapModes.FrameAxis` | src/modes/map/map_mode.cpp:829-919 | The sequential centre, clamp and count steps for one axis produce exactly `AxisFrameFor`. |
| `MapModes.ParallaxShift` | src/modes/map/map_mode.cpp:926-933 | A pinned axis has no parallax. Otherwise the shift, scaled by duration and grid length, equals delta × frame time × resolution. That is the frame's share of the slide, in pixels. |
| `MapModes.MapMode.constructor` | src/modes/map/map_mode.cpp:60-128 | The stack starts as [invalid, explore], with full stamina, GUI alpha 0, no minimap and a timer that is not running. |
| `MapModes.MapMode.ResetState` | src/modes/map/map_mode.cpp:379-383 | The stack becomes exactly [invalid]. |
| `MapModes.MapMode.PushState` | src/modes/map/map_mode.cpp:387-390 | The state is appended, and it becomes the top. |
| `MapModes.MapMode.PopState` | src/modes/map/map_mode.cpp:394-403 | Popping a one-element stack leaves exactly [invalid]. Otherwise only the top is removed. The stack is never left empty. |
| `MapModes.MapMode.CurrentState` | src/modes/map/map_mode.cpp:407-415 | The top state is returned. An empty stack is first reset to [invalid], and otherwise the stack is unchanged. |
| `MapModes.MapMode.ViewCentre` | src/modes/map/map_mode.cpp:819-827 | The view centre is the camera position, shifted by (1 − fraction complete) × delta while the camera timer runs. |
| `MapModes.MapMode.SetFrame` | src/modes/map/map_mode.cpp:829-919 | The frame and both corner flags are those of the two axes' `AxisFrameFor`. |
| `MapModes.MapMode.UpdateMapFrame` | src/modes/map/map_mode.cpp:817-936 | The frame is derived from the view centre. Each corner flag is true exactly when that axis is pinned. The parallax is `Parallax` of the camera timer, the new corner flags and the retargeting deltas. |
| `MapModes.Parallax` | src/modes/map/map_mode.cpp:921-936 | Parallax is present exactly while the camera timer runs. It is 0 on a pinned axis, and otherwise it is the frame's share of the slide in pixels. |
| `MapModes.MapMode.SetCamera` | src/modes/map/map_mode.cpp:511-526 | The same sprite changes nothing. With a duration, delta is old camera minus new, the timer restarts, and the view centre stays where the old camera was, so the view does not jump. Without a duration only the camera changes. |
| `MapModes.MapMode.MoveVirtualFocus` | src/modes/map/map_mode.cpp:528-531 | The virtual focus is put at the given position. |
| `MapModes.MapMode.MoveVirtualFocusDuring` | src/modes/map/map_mode.cpp:533-548 | Nothing happens unless the camera is the virtual focus. Otherwise the focus moves there. With a duration the timer restarts and the view starts from the focus's old position. |
| `MapModes.MapMode.AttackAllowed` | src/modes/map/map_mode.cpp:556-559 | Attacking is allowed exactly while the current state is explore and the camera is not the virtual focus. |
| `MapModes.MapMode.UpdateRunning` | src/modes/map/map_mode.cpp:723-740 | The gauge and the camera's running flag become those of `RunStep`. |
| `MapModes.MapMode.Interact` | src/modes/map/map_mode.cpp:744-781 | Talking to an object with a talk event, or to a sprite with a dialogue, stops the camera and ends the step. An unopened treasure stops the camera. The request is the object's `ConfirmRequest`: a talk event not already active, a dialogue, an unopened treasure, or the save menu one unit above a save point. |
| `MapModes.MapMode.Steer` | src/modes/map/map_mode.cpp:783-812 | The camera moves exactly when a direction key is held. It then faces `FacingFor` of the keys, and otherwise keeps its direction. |
| `MapModes.MapMode.UpdateExplore` | src/modes/map/map_mode.cpp:712-813 | The gauge and the camera's moving, running and facing go from their old values as `Explored` says. A menu press leaves at once with nothing changed. Otherwise the gauge follows `RunStep`. A talk interaction stops the camera and keeps its facing. In every other case the camera runs per `RunStep`, moves exactly when a key is held, and faces `FacingFor`. The request is the menu, the object's `ConfirmRequest` on a confirm press, or nothing. |
| `MapModes.MapMode.FadeGui` | src/modes/map/map_mode.cpp:273-285 | The GUI alpha becomes `GuiAlphaStep` for the state. |
| `MapModes.MapMode.RunState` | src/modes/map/map_mode.cpp:287-307 | An unknown state resets the stack to [invalid]. Explore changes the gauge and the camera exactly as `Explored` says and yields its request. A treasure stops the camera and changes nothing else of it. Scenes, dialogues and unknown states leave the gauge and the camera alone. Every state but explore requests nothing. |
| `MapModes.MapMode.FadeAndRunState` | src/modes/map/map_mode.cpp:273-307 | The GUI fades for the state at entry, and then that state runs with the effects `RunState` states. |
| `MapModes.MapMode.FollowWithMinimap` | src/modes/map/map_mode.cpp:315-318 | When shown and exploring, the minimap records the camera position and the GUI alpha. Otherwise it is untouched. |
| `MapModes.MapMode.RunFrame` | src/modes/map/map_mode.cpp:273-318 | The stack, GUI alpha, camera timer, gauge and camera flags go from their old values as `FrameRan` says: the GUI fades for the state, the state runs as `RunState` states, and the camera timer takes one tick. The minimap follows while exploring and is untouched otherwise. |
| `MapModes.MapMode.Update` | src/modes/map/map_mode.cpp:242-318 | The frame and both corner flags are always recomputed first, from the view centre at entry. The parallax is `Parallax` of the camera timer at entry and the new corner flags. A quit, pause or minimap press returns its request with the stack, GUI alpha, timer, gauge, camera and minimap unchanged. Otherwise the rest of the frame runs as `RunFrame` states. |
| `MapModes.MapMode.HandleInput` | src/modes/map/map_mode.cpp:249-318 | A quit wins over a pause, and a pause over the minimap press. Any of them returns its request and changes nothing. Otherwise the rest of the frame runs as `RunFrame` states. |
| `MapModes.StartedAtZero` | src/modes/map/map_mode.cpp:519-521 | A freshly started timer has completed none of its duration. |

## Left out

- Rendering is not modelled. This covers every `VideoManager` and SDL call, the supervisor's `Draw`, the map's layer and GUI drawing, and the minimap's image and viewport work. Only the numeric choices they use are kept: draw position, alphas, blended phases and the minimap alpha.
- Other modes and managers are not modelled: the map script, audio, input polling, `ModeManager`, the event, dialogue and treasure supervisors, and the object and tile supervisors' own updates. Input comes in as parameters. Their effects come out as `Request` values, or are assumed not to touch the state stack, the stamina, the camera timer or the camera sprite's position and flags. The object supervisor does move the camera sprite between the frame computation and the minimap update; the model keeps the camera where the explore step left it.
- Map mode construction beyond field set-up, `_Load`, `Reset`, `Deactivate` and the music state are script and asset loading.
- `Add*Object`, `AddZone` and `AddLight` only reach into object-supervisor internals that are not part of this model.
- The minimap constructor's image loading, procedural generation and debug export are not modelled. The constructor only sets up fields.
- IEEE single-precision rounding is not modelled; positions, forces and alphas are exact reals. In particular the tile offset range test uses exact ±0.001 and the pixel floor is exact.
- The engine's timer internals are not modelled, including looping timers and auto-update. The timer is the abstract value described above.
- Unsigned 32-bit arithmetic is not modelled. Frame times, amounts and stamina use unbounded integers, so `elapsed * 2` cannot wrap.
- The `int16` cast of the far-edge tile start is not modelled (values are assumed to fit).
- `VirtualSprite::SetDirection` and `SetPosition` are not part of this model. The sprite stores the requested direction and position as given, without the diagonal facing resolution the sprite class may do.
- The map mode's camera is modelled as never null. The source dereferences it unguarded in `_UpdateMapFrame` and `_UpdateExplore`.
- Null image lookups in `AddStatusIndicator` are left out. Icon lookup is a media-manager call; indicators carry the status and intensities instead of images.
- `Timers.Timer.PercentComplete`: states only that the fraction times the duration gives the expired time, which is all the camera proofs need; its bounds in [0, 1] are not stated.
- `IndicatorSupervision.SortByDescendingX`: an insertion sort stands in for `std::sort`; the contract states sortedness and permutation only, since `std::sort` promises no stability.
- `IndicatorSupervision.IndicatorSupervisor.Update`: front-only removal means that, after a sort, an expired element can stay behind a live one until the elements in front of it expire; the model keeps this behaviour as the source has it.
- `MapModes.GuiAlphaStep`: the GUI alpha is not clamped, so the last step of a fade can overshoot below 0 or above 1, as in the source.
- `CameraFrame.AxisFrameFor`: on a map narrower than the screen the far clamp gives a negative tile start; the in-map bound is only stated for maps at least a screen wide.
- `MapModes.MapMode.Update`: the debug-text update after the minimap step is left out, since it only formats text for display.
