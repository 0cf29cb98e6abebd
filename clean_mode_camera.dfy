/** `CleanModeCamera`: a simple orthographic pan-and-zoom camera that doubles as
    the clean-mode lock. While its controls are enabled the camera moves and the
    dirt cleaner (which only cleans while the camera is locked) is idle; pressing
    or toggling the clean button locks the camera and switches the cleaner to its
    brush, and releasing or toggling again restores what was there before. The
    camera's screen-to-world mapping and `Vector2.magnitude` are parameters. */
module CleanCamera {
  import opened Engine
  import opened Cleaner

  /** The two cleaner flags the clean mode saves and overrides. */
  datatype CleanerFlags = CleanerFlags(useBrushMode: bool, onlyWhenCameraLocked: bool)

  /** What the clean button sets on the cleaner: brush mode, cleaning only while the
      camera is locked. */
  const CleaningFlags: CleanerFlags := CleanerFlags(true, true)

  /** The clean-mode state: the camera's `controlsEnabled` and `toggleOn`, the saved
      `wasControlsBefore` and cleaner flags, and the cleaner's live flags (`None`
      without a cleaner). */
  datatype ModeState = ModeState(controlsEnabled: bool, toggleOn: bool, wasControlsBefore: bool,
                                 cached: CleanerFlags, cleaner: Option<CleanerFlags>)

  /** Entering clean mode (`OnCleanButtonDown`, and the first half of
      `OnCleanToggle`): the camera is locked and the cleaner is switched to
      cleaning, after the previous values were saved. */
  function Engage(m: ModeState): (r: ModeState)
    ensures !r.controlsEnabled && r.toggleOn == m.toggleOn
    ensures r.cleaner.Some? <==> m.cleaner.Some?
    ensures r.cleaner.Some? ==> r.cleaner.value == CleaningFlags
  {
    ModeState(false, m.toggleOn, m.controlsEnabled,
              if m.cleaner.Some? then m.cleaner.value else m.cached,
              if m.cleaner.Some? then Some(CleaningFlags) else None)
  }

  /** Leaving clean mode (`OnCleanButtonUp`, and the second half of
      `OnCleanToggle`): the saved values are written back. */
  function Disengage(m: ModeState): (r: ModeState)
    ensures r.controlsEnabled == m.wasControlsBefore && r.toggleOn == m.toggleOn
    ensures r.cleaner.Some? <==> m.cleaner.Some?
    ensures r.cleaner.Some? ==> r.cleaner.value == m.cached
    ensures r.wasControlsBefore == m.wasControlsBefore && r.cached == m.cached
  {
    m.(controlsEnabled := m.wasControlsBefore,
       cleaner := if m.cleaner.Some? then Some(m.cached) else None)
  }

  /** `OnCleanToggle`: engages when off, disengages when on. */
  function Toggle(m: ModeState): (r: ModeState)
    ensures r.toggleOn == !m.toggleOn
    ensures !m.toggleOn ==> r == Engage(m).(toggleOn := true)
    ensures m.toggleOn ==> r == Disengage(m).(toggleOn := false)
  {
    if !m.toggleOn then Engage(m).(toggleOn := true)
    else Disengage(m).(toggleOn := false)
  }

  /** Pressing and then releasing the clean button gives back the camera's
      `controlsEnabled` and the cleaner's two flags as they were before the press. */
  lemma HoldRestores(m: ModeState)
    ensures var r := Disengage(Engage(m));
      r.controlsEnabled == m.controlsEnabled && r.cleaner == m.cleaner && r.toggleOn == m.toggleOn
  {
  }

  /** Two toggles give back `controlsEnabled`, `toggleOn` and the cleaner's flags;
      while toggled on, the camera is locked and the cleaner cleans with its brush. */
  lemma ToggleTwiceRestores(m: ModeState)
    requires !m.toggleOn
    ensures var on := Toggle(m);
      on.toggleOn && !on.controlsEnabled && (on.cleaner.Some? ==> on.cleaner.value == CleaningFlags)
    ensures var r := Toggle(Toggle(m));
      r.controlsEnabled == m.controlsEnabled && r.cleaner == m.cleaner && !r.toggleOn
  {
  }

  /** The hold and the toggle share one saved `wasControlsBefore`: a press and
      release while toggled on overwrites it with the locked state, so the toggle
      that follows leaves the camera locked even though it was free before. */
  lemma HoldDuringToggleKeepsLocked(m: ModeState)
    requires !m.toggleOn && m.controlsEnabled
    ensures !Toggle(Disengage(Engage(Toggle(m)))).controlsEnabled
  {
  }

  /** `Mathf.Clamp(current - step, minOrthoSize, maxOrthoSize)`: the zoom target. */
  function ZoomTarget(current: real, step: real, lo: real, hi: real): (r: real)
    ensures lo <= hi ==> lo <= r <= hi
    ensures lo <= current - step <= hi ==> r == current - step
  {
    Clamp(current - step, lo, hi)
  }

  /** A larger step never gives a larger zoom target; a non-negative step from a
      size inside an ordered range never enlarges it. */
  lemma ZoomAntitone(current: real, a: real, b: real, lo: real, hi: real)
    requires a <= b
    ensures ZoomTarget(current, b, lo, hi) <= ZoomTarget(current, a, lo, hi) || lo > hi
    ensures lo <= hi && lo <= current <= hi && 0.0 <= a ==> ZoomTarget(current, a, lo, hi) <= current
  {
  }

  /** `Rect(x, y, width, height)`: `xMin`/`yMin` are `x`/`y`, the maxima add the
      width and height. */
  datatype Rect = Rect(x: real, y: real, width: real, height: real)

  function HalfWidth(halfHeight: real, aspect: real): real {
    halfHeight * aspect
  }

  /** The clamp window of the camera position for a view `halfHeight` high: the
      bounds shrunk by half the view on each side. */
  datatype Window = Window(minX: real, maxX: real, minY: real, maxY: real)

  function ClampWindow(b: Rect, halfHeight: real, aspect: real): (w: Window)
    ensures w.minX == b.x + HalfWidth(halfHeight, aspect) && w.maxX == b.x + b.width - HalfWidth(halfHeight, aspect)
    ensures w.minY == b.y + halfHeight && w.maxY == b.y + b.height - halfHeight
  {
    var halfW := HalfWidth(halfHeight, aspect);
    Window(b.x + halfW, b.x + b.width - halfW, b.y + halfHeight, b.y + b.height - halfHeight)
  }

  predicate Ordered(w: Window) {
    w.minX <= w.maxX && w.minY <= w.maxY
  }

  predicate Inside(p: Vec3, w: Window) {
    w.minX <= p.x <= w.maxX && w.minY <= p.y <= w.maxY
  }

  /** The window is non-empty exactly when the view fits into the bounds, both
      across and up. */
  lemma WindowOrderedIffViewFits(b: Rect, halfHeight: real, aspect: real)
    ensures Ordered(ClampWindow(b, halfHeight, aspect)) <==>
      2.0 * HalfWidth(halfHeight, aspect) <= b.width && 2.0 * halfHeight <= b.height
  {
  }

  /** `ClampCameraToBounds` on a position: x and y are clamped into the window, z is
      kept. */
  function ClampedPosition(p: Vec3, w: Window): (q: Vec3)
    ensures q.z == p.z
    ensures Ordered(w) ==> Inside(q, w)
    ensures Inside(p, w) ==> q == p
  {
    Vec3(Clamp(p.x, w.minX, w.maxX), Clamp(p.y, w.minY, w.maxY), p.z)
  }

  /** Clamping an already clamped position changes nothing. */
  lemma ClampIdempotent(p: Vec3, w: Window)
    requires Ordered(w)
    ensures ClampedPosition(ClampedPosition(p, w), w) == ClampedPosition(p, w)
  {
  }

  /** Componentwise vector arithmetic. */
  function Sub2(a: Vec2, b: Vec2): Vec2 {
    Vec2(a.x - b.x, a.y - b.y)
  }

  function Sub3(a: Vec3, b: Vec3): Vec3 {
    Vec3(a.x - b.x, a.y - b.y, a.z - b.z)
  }

  function Add3(a: Vec3, b: Vec3): Vec3 {
    Vec3(a.x + b.x, a.y + b.y, a.z + b.z)
  }

  function Scale3(a: Vec3, k: real): Vec3 {
    Vec3(a.x * k, a.y * k, a.z * k)
  }

  /** One pan step: the position moves by the world-space drag from `now` back to
      `prev`, times `panSpeed`, so the scene follows the finger. */
  function Panned(position: Vec3, prevWorld: Vec3, nowWorld: Vec3, panSpeed: real): (q: Vec3)
    ensures prevWorld == nowWorld ==> q == position
  {
    Add3(position, Scale3(Sub3(prevWorld, nowWorld), panSpeed))
  }

  /** One frame of desktop input: the pointer over UI, the legacy scroll axis (0
      when the legacy input manager is off), `mouseScrollDelta.y`, the middle
      button pressed this frame and held, and the pointer position. */
  datatype PcInput = PcInput(overUI: bool, scrollAxis: real, scrollDeltaY: real,
                             middleDown: bool, middleHeld: bool, position: Vec2)

  /** One touch: phase, position, `deltaPosition` and whether it is over UI. */
  datatype PanTouch = PanTouch(phase: TouchPhase, position: Vec2, deltaPosition: Vec2, overUI: bool)

  predicate AnyOverUI(touches: seq<PanTouch>) {
    exists j :: 0 <= j < |touches| && touches[j].overUI
  }

  /** The scroll amount of a frame: the legacy axis, or a tenth of the scroll delta
      when the axis reads zero. */
  function ScrollAmount(scrollAxis: real, scrollDeltaY: real): (s: real)
    ensures scrollAxis != 0.0 ==> s == scrollAxis
  {
    if scrollAxis == 0.0 then scrollDeltaY * 0.1 else scrollAxis
  }

  /** The pan-and-zoom settings: `panSpeed`, `blockWhenPointerOverUI`, the zoom
      range, `pinchZoomSpeed` and `mouseScrollStep`. */
  datatype PanZoom = PanZoom(panSpeed: real, blockWhenPointerOverUI: bool, minOrthoSize: real,
                             maxOrthoSize: real, pinchZoomSpeed: real, mouseScrollStep: real)

  /** The part of the camera's state its input changes: the zoom target, the last
      pointer position, the position, and whether a single finger was down on the
      previous frame. */
  datatype View = View(targetOrtho: real, lastTouchPos: Vec2, position: Vec3, hadSingleTouch: bool)

  /** The view after one frame of `HandleMousePC`, zooming from `zoomBase`: over UI
      (when blocking) nothing happens; a scroll moves the zoom target; the middle
      button pressed this frame restarts the pan at the pointer, and held pans by
      the pointer's world-space movement since the last frame. */
  function PcFrame(v: View, c: PanZoom, zoomBase: real, input: PcInput, screenToWorld: Vec2 -> Vec3): View {
    if c.blockWhenPointerOverUI && input.overUI then v
    else MiddlePan(ScrollZoom(v, c, zoomBase, ScrollAmount(input.scrollAxis, input.scrollDeltaY)), c, input, screenToWorld)
  }

  /** `scroll * mouseScrollStep`: how far a scroll moves the zoom target. */
  function ScrollStep(scroll: real, mouseScrollStep: real): real {
    scroll * mouseScrollStep
  }

  /** A scroll of `s` beyond 1e-5 moves the zoom target by `s` steps from
      `zoomBase`, clamped to the zoom range. */
  function ScrollZoom(v: View, c: PanZoom, zoomBase: real, s: real): View {
    if Abs(s) > 0.00001
    then v.(targetOrtho := ZoomTarget(zoomBase, ScrollStep(s, c.mouseScrollStep), c.minOrthoSize, c.maxOrthoSize))
    else v
  }

  /** The middle button: pressed this frame, the pan restarts at the pointer; held,
      the camera pans by the pointer's world-space movement since the last frame. */
  function MiddlePan(v: View, c: PanZoom, input: PcInput, screenToWorld: Vec2 -> Vec3): View {
    var v1 := if input.middleDown then v.(lastTouchPos := input.position) else v;
    if input.middleHeld
    then v1.(position := Panned(v1.position, screenToWorld(v1.lastTouchPos), screenToWorld(input.position), c.panSpeed),
             lastTouchPos := input.position)
    else v1
  }

  /** How much farther apart the first two fingers are than on the previous frame. */
  function PinchDelta(touches: seq<PanTouch>, magnitude: Vec2 -> real): real
    requires |touches| >= 2
  {
    var t0 := touches[0];
    var t1 := touches[1];
    magnitude(Sub2(t0.position, t1.position)) -
    magnitude(Sub2(Sub2(t0.position, t0.deltaPosition), Sub2(t1.position, t1.deltaPosition)))
  }

  /** The view after one frame of `HandleTouchMobile`, zooming from `zoomBase`: no
      touch forgets the single-finger drag; a touch over UI (when blocking)
      freezes the frame; two or more fingers pinch-zoom; one finger starts a pan,
      or pans by its world-space movement since the last frame. */
  function TouchFrame(v: View, c: PanZoom, zoomBase: real, touches: seq<PanTouch>, hasEventSystem: bool,
                      deltaTime: real, screenToWorld: Vec2 -> Vec3, magnitude: Vec2 -> real): View {
    if |touches| == 0 then v.(hadSingleTouch := false)
    else if c.blockWhenPointerOverUI && hasEventSystem && AnyOverUI(touches) then v
    else if |touches| >= 2 then
      v.(targetOrtho := ZoomTarget(zoomBase, PinchDelta(touches, magnitude) * c.pinchZoomSpeed * deltaTime * 60.0,
                                   c.minOrthoSize, c.maxOrthoSize),
         hadSingleTouch := false)
    else
      var t := touches[0];
      if t.phase == Began || !v.hadSingleTouch then v.(lastTouchPos := t.position, hadSingleTouch := true)
      else v.(position := Panned(v.position, screenToWorld(v.lastTouchPos), screenToWorld(t.position), c.panSpeed),
              lastTouchPos := t.position)
  }

  /** The size a zoom step starts from: the camera's, or the zoom target without a
      camera. */
  function ZoomFrom(hasCam: bool, orthoSize: real, v: View): real {
    if hasCam then orthoSize else v.targetOrtho
  }

  /** The view after one frame of input: desktop input first on desktop builds,
      then touch input, each zooming from the size current when it runs. */
  function InputFrame(v: View, c: PanZoom, hasCam: bool, orthoSize: real, standalone: bool, pc: PcInput,
                      touches: seq<PanTouch>, hasEventSystem: bool, deltaTime: real,
                      screenToWorld: Vec2 -> Vec3, magnitude: Vec2 -> real): View {
    var v1 := if standalone then PcFrame(v, c, ZoomFrom(hasCam, orthoSize, v), pc, screenToWorld) else v;
    TouchFrame(v1, c, ZoomFrom(hasCam, orthoSize, v1), touches, hasEventSystem, deltaTime, screenToWorld, magnitude)
  }

  /** Consecutive pan steps add up: panning from `a` to `b` and then from `b` to
      `c` is one pan from `a` to `c`. */
  lemma PanComposes(p: Vec3, a: Vec3, b: Vec3, c: Vec3, k: real)
    ensures Panned(Panned(p, a, b, k), b, c, k) == Panned(p, a, c, k)
  {
    assert (a.x - b.x) * k + (b.x - c.x) * k == (a.x - c.x) * k;
    assert (a.y - b.y) * k + (b.y - c.y) * k == (a.y - c.y) * k;
    assert (a.z - b.z) * k + (b.z - c.z) * k == (a.z - c.z) * k;
  }

  /** Dragging back to where the pan started puts the camera back. */
  lemma PanBackRestores(p: Vec3, a: Vec3, b: Vec3, k: real)
    ensures Panned(Panned(p, a, b, k), b, a, k) == p
  {
    PanComposes(p, a, b, a, k);
  }

  /** A finger put down at `p` and moved through `q` to `r` pans the camera by the
      world-space drag from `p` to `r` alone, whatever the path, and leaves the
      zoom target alone. */
  lemma TouchPanFollowsFinger(v: View, c: PanZoom, zoomBase: real, p: Vec2, q: Vec2, r: Vec2, deltaTime: real,
                              screenToWorld: Vec2 -> Vec3, magnitude: Vec2 -> real)
    ensures var d := Vec2(0.0, 0.0);
      var v1 := TouchFrame(v, c, zoomBase, [PanTouch(Began, p, d, false)], true, deltaTime, screenToWorld, magnitude);
      var v2 := TouchFrame(v1, c, zoomBase, [PanTouch(Moved, q, d, false)], true, deltaTime, screenToWorld, magnitude);
      var v3 := TouchFrame(v2, c, zoomBase, [PanTouch(Moved, r, d, false)], true, deltaTime, screenToWorld, magnitude);
      v3.position == Panned(v.position, screenToWorld(p), screenToWorld(r), c.panSpeed) &&
      v3.lastTouchPos == r && v3.targetOrtho == v.targetOrtho
  {
    var d := Vec2(0.0, 0.0);
    assert !AnyOverUI([PanTouch(Began, p, d, false)]);
    assert !AnyOverUI([PanTouch(Moved, q, d, false)]);
    assert !AnyOverUI([PanTouch(Moved, r, d, false)]);
    PanComposes(v.position, screenToWorld(p), screenToWorld(q), screenToWorld(r), c.panSpeed);
  }

  /** Spreading two fingers apart (with non-negative speeds) never zooms out from a
      size inside an ordered zoom range. */
  lemma PinchOutZoomsIn(v: View, c: PanZoom, zoomBase: real, touches: seq<PanTouch>, hasEventSystem: bool,
                        deltaTime: real, screenToWorld: Vec2 -> Vec3, magnitude: Vec2 -> real)
    requires |touches| >= 2 && PinchDelta(touches, magnitude) >= 0.0
    requires c.pinchZoomSpeed >= 0.0 && deltaTime >= 0.0
    requires c.minOrthoSize <= zoomBase <= c.maxOrthoSize
    ensures TouchFrame(v, c, zoomBase, touches, hasEventSystem, deltaTime, screenToWorld, magnitude).targetOrtho <= zoomBase ||
            TouchFrame(v, c, zoomBase, touches, hasEventSystem, deltaTime, screenToWorld, magnitude) == v
  {
    var m := PinchDelta(touches, magnitude);
    var a := m * c.pinchZoomSpeed;
    assert a >= 0.0;
    var b := a * deltaTime;
    assert b >= 0.0;
    assert b * 60.0 >= 0.0;
    ZoomAntitone(zoomBase, b * 60.0, b * 60.0, c.minOrthoSize, c.maxOrthoSize);
  }

  class CleanModeCamera {
    /** The cleaner the clean mode drives, once set or found. */
    var dirtCleaner: DirtCleaner?
    /** This controller's own object, linked into the cleaner by `Awake`. */
    const selfId: ObjId
    /** A camera is set, and its aspect ratio. */
    const hasCam: bool
    const aspect: real
    var controlsEnabled: bool
    const panSpeed: real
    const blockWhenPointerOverUI: bool
    const minOrthoSize: real
    const maxOrthoSize: real
    const pinchZoomSpeed: real
    const mouseScrollStep: real
    const clampToBounds: bool
    const worldBounds: Rect
    /** `cam.orthographicSize` and `transform.position`. */
    var orthoSize: real
    var position: Vec3
    var lastTouchPos: Vec2
    var hadSingleTouchLastFrame: bool
    var targetOrtho: real
    var toggleOn: bool
    var wasControlsBefore: bool
    var cachedUseBrush: bool
    var cachedOnlyWhenLocked: bool

    /** The clean-mode part of the state. */
    function Mode(): ModeState
      reads this, dirtCleaner
    {
      ModeState(controlsEnabled, toggleOn, wasControlsBefore, CleanerFlags(cachedUseBrush, cachedOnlyWhenLocked),
                if dirtCleaner == null then None
                else Some(CleanerFlags(dirtCleaner.useBrushMode, dirtCleaner.onlyWhenCameraLocked)))
    }

    function Config(): PanZoom
      reads this
    {
      PanZoom(panSpeed, blockWhenPointerOverUI, minOrthoSize, maxOrthoSize, pinchZoomSpeed, mouseScrollStep)
    }

    /** The input-driven part of the state. */
    function ViewState(): View
      reads this
    {
      View(targetOrtho, lastTouchPos, position, hadSingleTouchLastFrame)
    }

    /** The inspector values and the field initialisers. */
    constructor (dirtCleaner: DirtCleaner?, selfId: ObjId, hasCam: bool, aspect: real, orthoSize: real,
                 position: Vec3, panSpeed: real, blockWhenPointerOverUI: bool, minOrthoSize: real,
                 maxOrthoSize: real, pinchZoomSpeed: real, mouseScrollStep: real, clampToBounds: bool,
                 worldBounds: Rect)
      ensures this.dirtCleaner == dirtCleaner && this.selfId == selfId && this.hasCam == hasCam
      ensures this.aspect == aspect && this.orthoSize == orthoSize && this.position == position
      ensures this.panSpeed == panSpeed && this.blockWhenPointerOverUI == blockWhenPointerOverUI
      ensures this.minOrthoSize == minOrthoSize && this.maxOrthoSize == maxOrthoSize
      ensures this.pinchZoomSpeed == pinchZoomSpeed && this.mouseScrollStep == mouseScrollStep
      ensures this.clampToBounds == clampToBounds && this.worldBounds == worldBounds
      ensures controlsEnabled && !toggleOn && wasControlsBefore && !hadSingleTouchLastFrame
    {
      this.dirtCleaner := dirtCleaner;
      this.selfId := selfId;
      this.hasCam := hasCam;
      this.aspect := aspect;
      this.orthoSize := orthoSize;
      this.position := position;
      this.panSpeed := panSpeed;
      this.blockWhenPointerOverUI := blockWhenPointerOverUI;
      this.minOrthoSize := minOrthoSize;
      this.maxOrthoSize := maxOrthoSize;
      this.pinchZoomSpeed := pinchZoomSpeed;
      this.mouseScrollStep := mouseScrollStep;
      this.clampToBounds := clampToBounds;
      this.worldBounds := worldBounds;
      controlsEnabled := true;
      lastTouchPos := Vec2(0.0, 0.0);
      hadSingleTouchLastFrame := false;
      targetOrtho := 0.0;
      toggleOn := false;
      wasControlsBefore := true;
      cachedUseBrush := false;
      cachedOnlyWhenLocked := false;
    }

    /** `Awake`: finds the cleaner when none is set (`found` is the scene's), links
        this controller into it when it has none, saves its two flags and makes it
        clean only while the camera is locked; the zoom target starts at the
        camera's size. */
    method Awake(found: DirtCleaner?)
      modifies this`dirtCleaner, this`cachedUseBrush, this`cachedOnlyWhenLocked, this`targetOrtho
      modifies found, dirtCleaner
      ensures dirtCleaner == if old(dirtCleaner) == null then found else old(dirtCleaner)
      ensures var dc := dirtCleaner; dc != null ==>
        dc.onlyWhenCameraLocked && dc.useBrushMode == old(dc.useBrushMode) &&
        dc.cameraController == (if old(dc.cameraController).None? then Some(selfId) else old(dc.cameraController)) &&
        cachedUseBrush == old(dc.useBrushMode) && cachedOnlyWhenLocked == old(dc.onlyWhenCameraLocked) &&
        dc.dirtItems == old(dc.dirtItems) && dc.cleaned == old(dc.cleaned)
      ensures dirtCleaner == null ==>
        cachedUseBrush == old(cachedUseBrush) && cachedOnlyWhenLocked == old(cachedOnlyWhenLocked)
      ensures targetOrtho == if hasCam then orthoSize else old(targetOrtho)
    {
      if dirtCleaner == null {
        dirtCleaner := found;
      }
      if dirtCleaner != null {
        if dirtCleaner.cameraController.None? {
          dirtCleaner.cameraController := Some(selfId);
        }
        cachedUseBrush := dirtCleaner.useBrushMode;
        cachedOnlyWhenLocked := dirtCleaner.onlyWhenCameraLocked;
        dirtCleaner.onlyWhenCameraLocked := true;
      }
      if hasCam {
        targetOrtho := orthoSize;
      }
    }

    /** `OnCleanButtonDown`. */
    method OnCleanButtonDown()
      modifies this`wasControlsBefore, this`controlsEnabled, this`cachedUseBrush, this`cachedOnlyWhenLocked
      modifies dirtCleaner
      ensures Mode() == Engage(old(Mode()))
      ensures var dc := dirtCleaner; dc != null ==> dc.dirtItems == old(dc.dirtItems) && dc.cleaned == old(dc.cleaned)
    {
      wasControlsBefore := controlsEnabled;
      controlsEnabled := false;
      if dirtCleaner != null {
        cachedUseBrush := dirtCleaner.useBrushMode;
        cachedOnlyWhenLocked := dirtCleaner.onlyWhenCameraLocked;
        dirtCleaner.onlyWhenCameraLocked := true;
        dirtCleaner.useBrushMode := true;
      }
    }

    /** `OnCleanButtonUp`. */
    method OnCleanButtonUp()
      modifies this`controlsEnabled, dirtCleaner
      ensures Mode() == Disengage(old(Mode()))
      ensures var dc := dirtCleaner; dc != null ==> dc.dirtItems == old(dc.dirtItems) && dc.cleaned == old(dc.cleaned)
    {
      controlsEnabled := wasControlsBefore;
      if dirtCleaner != null {
        dirtCleaner.useBrushMode := cachedUseBrush;
        dirtCleaner.onlyWhenCameraLocked := cachedOnlyWhenLocked;
      }
    }

    /** `OnCleanToggle`. */
    method OnCleanToggle()
      modifies this`wasControlsBefore, this`controlsEnabled, this`cachedUseBrush, this`cachedOnlyWhenLocked
      modifies this`toggleOn, dirtCleaner
      ensures Mode() == Toggle(old(Mode()))
      ensures var dc := dirtCleaner; dc != null ==> dc.dirtItems == old(dc.dirtItems) && dc.cleaned == old(dc.cleaned)
    {
      if !toggleOn {
        wasControlsBefore := controlsEnabled;
        controlsEnabled := false;
        if dirtCleaner != null {
          cachedUseBrush := dirtCleaner.useBrushMode;
          cachedOnlyWhenLocked := dirtCleaner.onlyWhenCameraLocked;
          dirtCleaner.onlyWhenCameraLocked := true;
          dirtCleaner.useBrushMode := true;
        }
        toggleOn := true;
      } else {
        controlsEnabled := wasControlsBefore;
        if dirtCleaner != null {
          dirtCleaner.useBrushMode := cachedUseBrush;
          dirtCleaner.onlyWhenCameraLocked := cachedOnlyWhenLocked;
        }
        toggleOn := false;
      }
    }

    /** The size the zoom starts from: the camera's, or the last target without a
        camera. */
    function ZoomBase(): real
      reads this
    {
      if hasCam then orthoSize else targetOrtho
    }

    /** `HandleMousePC`: nothing over UI (when blocking); a scroll moves the zoom
        target by `mouseScrollStep` per unit, clamped to the zoom range; the middle
        button pans. */
    method HandleMousePC(input: PcInput, screenToWorld: Vec2 -> Vec3)
      modifies this`targetOrtho, this`lastTouchPos, this`position
      ensures ViewState() == PcFrame(old(ViewState()), Config(), old(ZoomBase()), input, screenToWorld)
      ensures targetOrtho == old(targetOrtho) || (minOrthoSize <= maxOrthoSize ==> minOrthoSize <= targetOrtho <= maxOrthoSize)
    {
      if blockWhenPointerOverUI && input.overUI {
        return;
      }
      var scroll := input.scrollAxis;
      if scroll == 0.0 {
        scroll := input.scrollDeltaY * 0.1;
      }
      var target := targetOrtho;
      if Abs(scroll) > 0.00001 {
        target := ZoomTarget(if hasCam then orthoSize else targetOrtho, ScrollStep(scroll, mouseScrollStep),
                             minOrthoSize, maxOrthoSize);
      }
      var last := lastTouchPos;
      if input.middleDown {
        last := input.position;
      }
      var pos := position;
      if input.middleHeld {
        var now := input.position;
        pos := Panned(pos, screenToWorld(last), screenToWorld(now), panSpeed);
        last := now;
      }
      targetOrtho, lastTouchPos, position := target, last, pos;
    }

    /** `HandleTouchMobile`: no touch forgets the single-finger drag; a touch over UI
        (when blocking) stops the frame; two or more fingers pinch-zoom; one finger
        pans from its position on the previous frame, or starts a pan. */
    method HandleTouchMobile(touches: seq<PanTouch>, hasEventSystem: bool, deltaTime: real,
                             screenToWorld: Vec2 -> Vec3, magnitude: Vec2 -> real)
      modifies this`targetOrtho, this`lastTouchPos, this`position, this`hadSingleTouchLastFrame
      ensures ViewState() == TouchFrame(old(ViewState()), Config(), old(ZoomBase()), touches, hasEventSystem,
                                         deltaTime, screenToWorld, magnitude)
      ensures targetOrtho == old(targetOrtho) || (minOrthoSize <= maxOrthoSize ==> minOrthoSize <= targetOrtho <= maxOrthoSize)
    {
      if |touches| == 0 {
        hadSingleTouchLastFrame := false;
        return;
      }
      if blockWhenPointerOverUI && hasEventSystem {
        for i := 0 to |touches|
          invariant forall j :: 0 <= j < i ==> !touches[j].overUI
        {
          if touches[i].overUI {
            return;
          }
        }
      }
      if |touches| >= 2 {
        var t0 := touches[0];
        var t1 := touches[1];
        var prevDist := Sub2(Sub2(t0.position, t0.deltaPosition), Sub2(t1.position, t1.deltaPosition));
        var currDist := Sub2(t0.position, t1.position);
        var deltaMag := magnitude(currDist) - magnitude(prevDist);
        targetOrtho := ZoomTarget(if hasCam then orthoSize else targetOrtho,
                                  deltaMag * pinchZoomSpeed * deltaTime * 60.0, minOrthoSize, maxOrthoSize);
        hadSingleTouchLastFrame := false;
      } else {
        var t := touches[0];
        if t.phase == Began || !hadSingleTouchLastFrame {
          lastTouchPos := t.position;
          hadSingleTouchLastFrame := true;
          return;
        }
        position := Panned(position, screenToWorld(lastTouchPos), screenToWorld(t.position), panSpeed);
        lastTouchPos := t.position;
      }
    }

    /** The current clamp window. */
    function CurrentWindow(): Window
      reads this
    {
      ClampWindow(worldBounds, orthoSize, aspect)
    }

    /** `ClampCameraToBounds`: with a camera, the position is clamped into the
        window of the current view size. */
    method ClampCameraToBounds()
      modifies this`position
      ensures position == if hasCam then ClampedPosition(old(position), CurrentWindow()) else old(position)
      ensures hasCam && Ordered(CurrentWindow()) ==> Inside(position, CurrentWindow())
    {
      if !hasCam {
        return;
      }
      var halfH := orthoSize;
      var halfW := HalfWidth(halfH, aspect);
      var minX := worldBounds.x + halfW;
      var maxX := worldBounds.x + worldBounds.width - halfW;
      var minY := worldBounds.y + halfH;
      var maxY := worldBounds.y + worldBounds.height - halfH;
      var p := position;
      p := p.(x := Clamp(p.x, minX, maxX));
      p := p.(y := Clamp(p.y, minY, maxY));
      position := p;
    }

    /** `Update`: nothing at all while the camera is locked; otherwise desktop
        input (on desktop builds), touch input, one smoothing step of the view size
        towards the zoom target, and the bounds clamp when enabled. */
    method Update(standalone: bool, pc: PcInput, touches: seq<PanTouch>, hasEventSystem: bool,
                  deltaTime: real, screenToWorld: Vec2 -> Vec3, magnitude: Vec2 -> real)
      modifies this`targetOrtho, this`lastTouchPos, this`position, this`hadSingleTouchLastFrame, this`orthoSize
      ensures !old(controlsEnabled) ==>
        targetOrtho == old(targetOrtho) && lastTouchPos == old(lastTouchPos) && position == old(position) &&
        hadSingleTouchLastFrame == old(hadSingleTouchLastFrame) && orthoSize == old(orthoSize)
      ensures minOrthoSize <= maxOrthoSize && minOrthoSize <= old(targetOrtho) <= maxOrthoSize ==>
        minOrthoSize <= targetOrtho <= maxOrthoSize
      ensures MinR(old(orthoSize), targetOrtho) <= orthoSize <= MaxR(old(orthoSize), targetOrtho)
      ensures old(controlsEnabled) && clampToBounds && hasCam && Ordered(CurrentWindow()) ==> Inside(position, CurrentWindow())
      ensures old(controlsEnabled) ==>
        var v := InputFrame(old(ViewState()), Config(), hasCam, old(orthoSize), standalone, pc, touches, hasEventSystem,
                            deltaTime, screenToWorld, magnitude);
        targetOrtho == v.targetOrtho && lastTouchPos == v.lastTouchPos && hadSingleTouchLastFrame == v.hadSingleTouch &&
        orthoSize == (if hasCam && Abs(v.targetOrtho - old(orthoSize)) > 0.0001
                      then Lerp(old(orthoSize), v.targetOrtho, 0.3) else old(orthoSize)) &&
        position == (if clampToBounds && hasCam then ClampedPosition(v.position, CurrentWindow()) else v.position)
    {
      if !controlsEnabled {
        return;
      }
      if standalone {
        HandleMousePC(pc, screenToWorld);
      }
      HandleTouchMobile(touches, hasEventSystem, deltaTime, screenToWorld, magnitude);
      if hasCam && Abs(targetOrtho - orthoSize) > 0.0001 {
        orthoSize := Lerp(orthoSize, targetOrtho, 0.3);
      }
      if clampToBounds {
        ClampCameraToBounds();
      }
    }
  }
}
