/**
 * The application glue of main.cpp: the motion-event filter that turns
 * touches into renderer state (the two on-screen buttons, double taps,
 * drags), the cycling through the three bundled scenes, and the layout of
 * one pose row read for profiling.
 *
 * Coordinates are reals (the source's floats, without rounding); times are
 * integer milliseconds of the steady clock, passed in as `now`.
 */
module Input {
  import opened Frame

  datatype MotionAction = Down | Move | Up | Cancel | OtherAction

  /** The masked action and the first pointer's coordinates of a motion event. */
  datatype MotionEvent = MotionEvent(action: MotionAction, x: real, y: real)

  /** Size of both buttons, as GUIManager draws them (main.cpp:48-49). */
  const ButtonWidth: real := 300.0
  const ButtonHeight: real := 70.0
  /** Milliseconds within which a second touch counts as a double tap (main.cpp:81). */
  const DoubleTapMillis: int := 300

  /** Closed rectangle test with top-left corner (left, top). */
  predicate InRectangle(left: real, top: real, x: real, y: real)
  {
    left <= x <= left + ButtonWidth && top <= y <= top + ButtonHeight
  }

  /** The resolution button: a quarter of the free width from the left, 80 above the bottom (main.cpp:52-58). */
  predicate InResolutionButton(width: real, height: real, x: real, y: real)
  {
    InRectangle((width - ButtonWidth) / 4.0, height - 80.0, x, y)
  }

  /** The GUI button: three quarters of the free width from the left, same row (main.cpp:61-66). */
  predicate InGuiButton(width: real, height: real, x: real, y: real)
  {
    InRectangle(3.0 * (width - ButtonWidth) / 4.0, height - 80.0, x, y)
  }

  /**
   * The two buttons are separate exactly on screens wider than 900 pixels
   * (for any screen width that is not negative); on narrower screens some
   * touches fall in both, and those only toggle the resolution because that
   * button is tested first.
   */
  lemma ButtonsOverlapIffNarrow(width: real, height: real)
    ensures (exists x, y :: InResolutionButton(width, height, x, y) && InGuiButton(width, height, x, y))
        <==> -300.0 <= width <= 900.0
  {
    var y := height - 80.0;
    if -300.0 <= width <= 900.0 {
      var x := if width >= ButtonWidth then 3.0 * (width - ButtonWidth) / 4.0 else (width - ButtonWidth) / 4.0;
      assert InResolutionButton(width, height, x, y) && InGuiButton(width, height, x, y);
    }
  }

  /** The renderer, when there is one, as a frame. */
  function Present(renderer: Renderer?): set<Renderer>
  {
    if renderer != null then {renderer} else {}
  }

  /**
   * VulkanMotionEventFilter (main.cpp:30-127). Without a renderer it
   * declines the event. On DOWN it starts a touch, detects a double tap
   * against the previous touch time, then toggles half resolution if the
   * touch is on the resolution button, or else requests a scene switch if
   * it is on the GUI button. MOVE during a touch records the drag delta;
   * UP and CANCEL end the touch. Every other event is accepted unchanged.
   */
  method MotionEventFilter(renderer: Renderer?, ev: MotionEvent, now: int) returns (handled: bool)
    modifies Present(renderer)`isTouching, Present(renderer)`initialTouchX, Present(renderer)`initialTouchY,
             Present(renderer)`lastX, Present(renderer)`lastY, Present(renderer)`touchDeltaX,
             Present(renderer)`touchDeltaY, Present(renderer)`lastDownTime, Present(renderer)`lastTapTime,
             Present(renderer)`doubleTap, Present(renderer)`holdTap, Present(renderer)`switchScene,
             (set r <- Present(renderer) :: r.gui)`useHalfResolution
    ensures renderer == null <==> !handled
    ensures renderer != null ==> Filtered(renderer, ev, now)
    ensures renderer != null && old(renderer.Valid()) ==> renderer.Valid()
  {
    if renderer == null {
      return false;
    }
    match ev.action {
      case Down => OnDown(renderer, ev, now);
      case Move => OnMove(renderer, ev);
      case Up => OnRelease(renderer);
      case Cancel => OnRelease(renderer);
      case OtherAction =>
    }
    return true;
  }

  /** What the filter promises for each action, as a relation between the state before and after. */
  twostate predicate Filtered(renderer: Renderer, ev: MotionEvent, now: int)
    reads renderer, renderer.gui
  {
    && renderer.extent == old(renderer.extent) && renderer.buffers == old(renderer.buffers)
    && renderer.running == old(renderer.running) && renderer.gui.showMetrics == old(renderer.gui.showMetrics)
    && (ev.action == Down ==> Pressed(renderer, ev, now))
    && (ev.action == Move ==> Dragged(renderer, ev))
    && (ev.action in {Up, Cancel} ==> Released(renderer))
    && (ev.action != Down ==> ButtonsUntouched(renderer) && TapUntouched(renderer))
    && (ev.action == OtherAction ==> DragUntouched(renderer) && renderer.isTouching == old(renderer.isTouching)
                                      && renderer.holdTap == old(renderer.holdTap))
  }

  twostate predicate ButtonsUntouched(renderer: Renderer)
    reads renderer, renderer.gui
  {
    renderer.gui.useHalfResolution == old(renderer.gui.useHalfResolution) && renderer.switchScene == old(renderer.switchScene)
  }

  twostate predicate TapUntouched(renderer: Renderer)
    reads renderer
  {
    && renderer.doubleTap == old(renderer.doubleTap)
    && renderer.initialTouchX == old(renderer.initialTouchX) && renderer.initialTouchY == old(renderer.initialTouchY)
    && renderer.lastDownTime == old(renderer.lastDownTime) && renderer.lastTapTime == old(renderer.lastTapTime)
  }

  twostate predicate DragUntouched(renderer: Renderer)
    reads renderer
  {
    && renderer.touchDeltaX == old(renderer.touchDeltaX) && renderer.touchDeltaY == old(renderer.touchDeltaY)
    && renderer.lastX == old(renderer.lastX) && renderer.lastY == old(renderer.lastY)
  }

  /**
   * DOWN: a touch starts at (x, y), its time is recorded, it is a double
   * tap iff the previous touch was less than 300 ms before, and then
   * exactly one button acts: resolution first, else the GUI button.
   */
  twostate predicate Pressed(renderer: Renderer, ev: MotionEvent, now: int)
    reads renderer, renderer.gui
  {
    var w, h := old(renderer.GetWindowWidth()) as real, old(renderer.GetWindowHeight()) as real;
    && renderer.isTouching && renderer.initialTouchX == renderer.lastX == ev.x
    && renderer.initialTouchY == renderer.lastY == ev.y
    && renderer.lastDownTime == renderer.lastTapTime == now
    && (renderer.doubleTap <==> now - old(renderer.lastTapTime) < DoubleTapMillis)
    && renderer.touchDeltaX == old(renderer.touchDeltaX) && renderer.touchDeltaY == old(renderer.touchDeltaY)
    && renderer.holdTap == old(renderer.holdTap)
    && (InResolutionButton(w, h, ev.x, ev.y) ==>
          renderer.gui.useHalfResolution == !old(renderer.gui.useHalfResolution)
          && renderer.switchScene == old(renderer.switchScene))
    && (!InResolutionButton(w, h, ev.x, ev.y) && InGuiButton(w, h, ev.x, ev.y) ==>
          renderer.gui.useHalfResolution == old(renderer.gui.useHalfResolution) && renderer.switchScene)
    && (!InResolutionButton(w, h, ev.x, ev.y) && !InGuiButton(w, h, ev.x, ev.y) ==> ButtonsUntouched(renderer))
  }

  /** MOVE: during a touch the delta from the last position is recorded; otherwise nothing changes. */
  twostate predicate Dragged(renderer: Renderer, ev: MotionEvent)
    reads renderer
  {
    && renderer.isTouching == old(renderer.isTouching) && renderer.holdTap == old(renderer.holdTap)
    && (old(renderer.isTouching) ==>
          renderer.touchDeltaX == ev.x - old(renderer.lastX) && renderer.touchDeltaY == ev.y - old(renderer.lastY)
          && renderer.lastX == ev.x && renderer.lastY == ev.y)
    && (!old(renderer.isTouching) ==> DragUntouched(renderer))
  }

  /** UP or CANCEL: the touch and any hold end. */
  twostate predicate Released(renderer: Renderer)
    reads renderer
  {
    !renderer.isTouching && !renderer.holdTap && DragUntouched(renderer)
  }

  /** The DOWN case of the filter (main.cpp:70-106). */
  method OnDown(renderer: Renderer, ev: MotionEvent, now: int)
    requires ev.action == Down
    modifies renderer`isTouching, renderer`initialTouchX, renderer`initialTouchY, renderer`lastX, renderer`lastY,
             renderer`lastDownTime, renderer`lastTapTime, renderer`doubleTap, renderer`switchScene,
             renderer.gui`useHalfResolution
    ensures Filtered(renderer, ev, now)
  {
    var screenHeight := renderer.GetWindowHeight() as real;
    var screenWidth := renderer.GetWindowWidth() as real;
    var inResolution := InResolutionButton(screenWidth, screenHeight, ev.x, ev.y);
    var inGui := InGuiButton(screenWidth, screenHeight, ev.x, ev.y);
    renderer.isTouching := true;
    renderer.initialTouchX := ev.x;
    renderer.initialTouchY := ev.y;
    renderer.lastX := ev.x;
    renderer.lastY := ev.y;
    renderer.lastDownTime := now;
    var dt := now - renderer.lastTapTime;
    renderer.doubleTap := dt < DoubleTapMillis;
    renderer.lastTapTime := now;
    if inResolution {
      var currentRes := renderer.IsUsingHalfResolution();
      renderer.SetHalfResolution(!currentRes);
    } else if inGui {
      var currentGui := renderer.IsUsingGui();
      renderer.SetGui(!currentGui);
    }
  }

  /** The MOVE case of the filter (main.cpp:107-114). */
  method OnMove(renderer: Renderer, ev: MotionEvent)
    requires ev.action == Move
    modifies renderer`touchDeltaX, renderer`touchDeltaY, renderer`lastX, renderer`lastY
    ensures Filtered(renderer, ev, 0)
  {
    if renderer.isTouching {
      renderer.touchDeltaX := ev.x - renderer.lastX;
      renderer.touchDeltaY := ev.y - renderer.lastY;
      renderer.lastX := ev.x;
      renderer.lastY := ev.y;
    }
  }

  /** The UP and CANCEL cases of the filter (main.cpp:115-122). */
  method OnRelease(renderer: Renderer)
    modifies renderer`isTouching, renderer`holdTap
    ensures !renderer.isTouching && !renderer.holdTap
  {
    renderer.isTouching := false;
    renderer.holdTap := false;
  }

  /**
   * Two touches less than 300 ms apart: the second one is a double tap,
   * whatever the events in between.
   */
  method TapTwice(renderer: Renderer, first: MotionEvent, second: MotionEvent, t1: int, t2: int)
    returns (h1: bool, h2: bool)
    requires first.action == Down && second.action == Down
    modifies renderer`isTouching, renderer`initialTouchX, renderer`initialTouchY, renderer`lastX, renderer`lastY,
             renderer`touchDeltaX, renderer`touchDeltaY, renderer`lastDownTime, renderer`lastTapTime,
             renderer`doubleTap, renderer`holdTap, renderer`switchScene, renderer.gui`useHalfResolution
    ensures h1 && h2
    ensures renderer.doubleTap <==> t2 - t1 < DoubleTapMillis
  {
    h1 := MotionEventFilter(renderer, first, t1);
    h2 := MotionEventFilter(renderer, second, t2);
  }

  // ---------------------------------------------------------------- scenes

  /** The scenes bundled as assets, in load order (main.cpp:210). */
  const ScenePaths: seq<string> := ["point_cloud.ply", "export.ply", "afshin_27k.ply"]

  /**
   * The scene indices main_cpp hands to initialize over `rounds` rounds of
   * its loop (main.cpp:209-211, 269-271): it starts at 0 and steps to
   * (i + 1) mod 3 after each initialize, so round r loads scene r mod 3 and
   * every index names a bundled scene and an initial camera pose.
   */
  method SceneIndices(rounds: nat) returns (used: seq<nat>)
    ensures |used| == rounds
    ensures forall r :: 0 <= r < rounds ==> used[r] == r % |ScenePaths|
    ensures forall r :: 0 <= r < rounds ==> used[r] < |ScenePaths| && used[r] < InitialCameraPoseCount
  {
    var scenePathIndex: nat := 0;
    var numScenes := |ScenePaths|;
    used := [];
    while |used| < rounds
      invariant |used| <= rounds
      invariant scenePathIndex == |used| % numScenes
      invariant forall r :: 0 <= r < |used| ==> used[r] == r % numScenes
    {
      used := used + [scenePathIndex];
      scenePathIndex := (scenePathIndex + 1) % numScenes;
    }
  }

  // ---------------------------------------------------------- pose layout

  /** A glm::mat3x3 as three columns of three entries. */
  type Mat3 = seq<seq<real>>

  /** Offset within a pose row of column j, entry c: rotation entries are c < 3, the translation is c == 3. */
  function PoseOffset(j: nat, c: nat): nat
  {
    5 * j + c
  }

  /** The twelve offsets read from a pose row are distinct and all below 15. */
  lemma PoseOffsetsDistinct(j1: nat, c1: nat, j2: nat, c2: nat)
    requires j1 < 3 && c1 <= 3 && j2 < 3 && c2 <= 3
    ensures PoseOffset(j1, c1) < 15
    ensures PoseOffset(j1, c1) == PoseOffset(j2, c2) ==> j1 == j2 && c1 == c2
  {
  }

  /**
   * processForProfiler (main.cpp:146-178): in PSNR mode, one pose row
   * (elems_to_read is 1) of the poses array yields rotation column j entry
   * k from offset 5j + k and the translation from offsets 3, 8 and 13;
   * nothing is read in any other mode or when a row is empty. The source
   * indexes the data without checks, so a non-empty row must hold at least
   * 14 values.
   */
  method ProcessForProfiler(mode: ProfilingMode, shape: seq<nat>, values: seq<real>)
    returns (rotations: seq<Mat3>, translations: seq<seq<real>>)
    requires mode == Psnr ==> |shape| >= 2 && (shape[1] > 0 ==> |values| >= 14)
    ensures |rotations| == |translations|
    ensures mode != Psnr || shape[1] == 0 ==> rotations == [] && translations == []
    ensures mode == Psnr && shape[1] > 0 ==>
      && |rotations| == 1 && |rotations[0]| == 3
      && (forall j :: 0 <= j < 3 ==> |rotations[0][j]| == 3)
      && (forall j, k :: 0 <= j < 3 && 0 <= k < 3 ==> rotations[0][j][k] == values[PoseOffset(j, k)])
      && translations[0] == [values[PoseOffset(0, 3)], values[PoseOffset(1, 3)], values[PoseOffset(2, 3)]]
  {
    rotations, translations := [], [];
    if mode != Psnr {
      return;
    }
    var elemsToRead := 1;
    var viewI := 0;
    while viewI < elemsToRead * shape[1]
      invariant viewI == 0 || viewI == shape[1]
      invariant |rotations| == |translations|
      invariant viewI == 0 ==> rotations == []
      invariant viewI > 0 ==>
        && |rotations| == 1 && |rotations[0]| == 3
        && (forall j :: 0 <= j < 3 ==> |rotations[0][j]| == 3)
        && (forall j, k :: 0 <= j < 3 && 0 <= k < 3 ==> rotations[0][j][k] == values[PoseOffset(j, k)])
        && translations[0] == [values[PoseOffset(0, 3)], values[PoseOffset(1, 3)], values[PoseOffset(2, 3)]]
      decreases elemsToRead * shape[1] - viewI
    {
      var rotation: Mat3 := [];
      var j := 0;
      while j < 3
        invariant 0 <= j <= 3 && |rotation| == j
        invariant forall j' :: 0 <= j' < j ==> |rotation[j']| == 3
        invariant forall j', k :: 0 <= j' < j && 0 <= k < 3 ==> rotation[j'][k] == values[PoseOffset(j', k)]
      {
        var column: seq<real> := [];
        var k := 0;
        while k < 3
          invariant 0 <= k <= 3 && |column| == k
          invariant forall k' :: 0 <= k' < k ==> column[k'] == values[PoseOffset(j, k')]
        {
          var index := viewI + j * 5;
          column := column + [values[index + k]];
          k := k + 1;
        }
        rotation := rotation + [column];
        j := j + 1;
      }
      rotations := rotations + [rotation];
      translations := translations + [[values[viewI + 3], values[viewI + 8], values[viewI + 13]]];
      viewI := viewI + shape[1];
    }
  }
}
