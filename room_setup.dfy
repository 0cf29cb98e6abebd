/** The room of `RoomSetup`: four walls, a camera that sits on one of four corners
    (`kameraKosesi`), and a horizontal swipe that turns the camera to the next or
    previous corner. On every corner change the camera gets a new target position
    and the two walls between the camera and the room are hidden. Camera smoothing,
    rotations and the automatic orthographic framing are not part of this model. */
module Room {
  import opened Engine

  /** Wall indices: 0 is `duvar1` (front, +z), 1 is `duvar2` (right, +x), 2 is
      `duvar3` (back, -z), 3 is `duvar4` (left, -x). */
  const WallCount: nat := 4

  /** `(k + 1) % 4`. */
  function NextIndex(k: int): (r: int)
    requires 0 <= k < 4
    ensures 0 <= r < 4
    ensures r == if k == 3 then 0 else k + 1
  {
    (k + 1) % 4
  }

  /** `(k - 1 + 4) % 4`. */
  function PrevIndex(k: int): (r: int)
    requires 0 <= k < 4
    ensures 0 <= r < 4
    ensures r == if k == 0 then 3 else k - 1
  {
    (k - 1 + 4) % 4
  }

  /** Turning forward then back, or back then forward, returns to the same corner;
      four turns forward are a full circle. */
  lemma CornerRoundTrips(k: int)
    requires 0 <= k < 4
    ensures PrevIndex(NextIndex(k)) == k
    ensures NextIndex(PrevIndex(k)) == k
    ensures NextIndex(NextIndex(NextIndex(NextIndex(k)))) == k
    ensures NextIndex(k) != k && PrevIndex(k) != k
  {
  }

  /** The walls hidden at each corner (the `switch` of `DuvarlariGuncelle`). */
  predicate HiddenAt(corner: int, w: int) {
    match corner
    case 0 => w == 0 || w == 1
    case 1 => w == 0 || w == 3
    case 2 => w == 2 || w == 3
    case 3 => w == 1 || w == 2
    case _ => false
  }

  /** The camera position for a corner: distance `d` out on both horizontal axes,
      with the sign pattern of the corner, at height `h`. */
  function CameraTarget(corner: int, d: real, h: real): (p: Vec3)
    requires 0 <= corner < 4
    ensures p.y == h
    ensures p.x == (if corner == 0 || corner == 3 then d else -d)
    ensures p.z == (if corner == 0 || corner == 1 then d else -d)
  {
    match corner
    case 0 => Vec3(d, h, d)
    case 1 => Vec3(-d, h, d)
    case 2 => Vec3(-d, h, -d)
    case 3 => Vec3(d, h, -d)
  }

  /** Wall `w` stands on the side of the room the camera at `p` looks from. */
  predicate FacesCamera(w: int, p: Vec3) {
    match w
    case 0 => p.z > 0.0
    case 1 => p.x > 0.0
    case 2 => p.z < 0.0
    case 3 => p.x < 0.0
    case _ => false
  }

  /** With a positive camera distance, the walls hidden at a corner are exactly the
      two walls on the camera's side, and successive corners differ by one swapped
      wall. */
  lemma HiddenWallsFaceCamera(corner: int, d: real, h: real, w: int)
    requires 0 <= corner < 4 && d > 0.0 && 0 <= w < WallCount
    ensures HiddenAt(corner, w) <==> FacesCamera(w, CameraTarget(corner, d, h))
  {
  }

  /** Exactly two walls are hidden at every corner. */
  lemma TwoWallsHidden(corner: int)
    requires 0 <= corner < 4
    ensures |set w | 0 <= w < WallCount && HiddenAt(corner, w)| == 2
  {
    var hs := set w | 0 <= w < WallCount && HiddenAt(corner, w);
    match corner {
      case 0 => assert hs == {0, 1};
      case 1 => assert hs == {0, 3};
      case 2 => assert hs == {2, 3};
      case 3 => assert hs == {1, 2};
    }
  }

  /** The `n`-th multiple of a grid step. */
  function GridLine(n: int, step: real): real {
    n as real * step
  }

  /** `Snap` on one coordinate: the nearest multiple of `step` (ties to the even
      multiple), or the coordinate itself when snapping is off or `step <= 0`. */
  function SnapCoord(v: real, enabled: bool, step: real): (r: real)
    ensures !enabled || step <= 0.0 ==> r == v
    ensures enabled && step > 0.0 ==> exists n: int :: r == GridLine(n, step)
    ensures enabled && step > 0.0 ==> -step / 2.0 <= v - r <= step / 2.0
  {
    if !enabled || step <= 0.0 then v
    else
      var n := RoundHalfEven(v / step);
      SnapBound(v, step, n);
      GridLine(n, step)
  }

  lemma SnapBound(v: real, step: real, n: int)
    requires step > 0.0 && -0.5 <= v / step - n as real <= 0.5
    ensures -step / 2.0 <= v - GridLine(n, step) <= step / 2.0
  {
    var e := v / step - n as real;
    assert v == (v / step) * step;
    assert v - GridLine(n, step) == e * step;
    NonNegProduct(e + 0.5, step);
    NonNegProduct(0.5 - e, step);
    assert (e + 0.5) * step == e * step + step / 2.0;
    assert (0.5 - e) * step == step / 2.0 - e * step;
  }

  lemma NonNegProduct(a: real, b: real)
    requires a >= 0.0 && b >= 0.0
    ensures a * b >= 0.0
  {
  }

  /** A grid line snaps to itself. */
  lemma SnapGridLine(n: int, step: real)
    requires step > 0.0
    ensures SnapCoord(GridLine(n, step), true, step) == GridLine(n, step)
  {
    assert GridLine(n, step) / step == n as real;
    assert (n as real).Floor == n;
    assert RoundHalfEven(n as real) == n;
  }

  /** `Snap` (the three coordinates of a position). */
  function Snap(p: Vec3, enabled: bool, step: real): (r: Vec3)
    ensures !enabled || step <= 0.0 ==> r == p
  {
    Vec3(SnapCoord(p.x, enabled, step), SnapCoord(p.y, enabled, step), SnapCoord(p.z, enabled, step))
  }

  /** Snapping a snapped value changes nothing. */
  lemma SnapIdempotent(v: real, enabled: bool, step: real)
    ensures SnapCoord(SnapCoord(v, enabled, step), enabled, step) == SnapCoord(v, enabled, step)
  {
    if enabled && step > 0.0 {
      SnapGridLine(RoundHalfEven(v / step), step);
    }
  }

  const SafeDivEpsilon: real := 0.000001

  /** `SafeDiv`: divide by `b`, or by 1e-6 when `|b| < 1e-6`. */
  function SafeDiv(a: real, b: real): (r: real)
    ensures var d := if Abs(b) < SafeDivEpsilon then SafeDivEpsilon else b;
      Abs(d) >= SafeDivEpsilon && r * d == a
    ensures Abs(b) >= SafeDivEpsilon ==> r == a / b
  {
    var d := if Abs(b) < SafeDivEpsilon then SafeDivEpsilon else b;
    a / d
  }

  /** One frame of mouse input for the swipe: button 0 pressed or released this
      frame, and the pointer position. */
  datatype SwipeMouse = SwipeMouse(down: bool, up: bool, position: Vec2)

  /** The swipe part of the room's state: the corner, where the swipe started,
      whether one is under way, and when the last one turned the camera. */
  datatype Swipe = Swipe(corner: int, start: Vec2, active: bool, lastTime: real)

  /** What `HandleSwipeInput` reacts to in a frame: a press, a release, or
      nothing. */
  datatype SwipeEvent = NoEvent | PressAt(position: Vec2) | ReleaseAt(position: Vec2)

  /** The event of a frame: on desktop builds (`standalone`) button 0 going down,
      else going up; elsewhere the first touch beginning, else ending or being
      cancelled. */
  function EventOf(standalone: bool, mouse: SwipeMouse, touches: seq<Touch>): SwipeEvent {
    if standalone then
      if mouse.down then PressAt(mouse.position)
      else if mouse.up then ReleaseAt(mouse.position)
      else NoEvent
    else if |touches| == 0 then NoEvent
    else if touches[0].phase == Began then PressAt(touches[0].position)
    else if touches[0].phase == Ended || touches[0].phase == Canceled then ReleaseAt(touches[0].position)
    else NoEvent
  }

  /** A drag `deltaX` wide at time `now` turns the camera: the cooldown since the
      last turn has passed and the drag is at least the threshold wide. */
  predicate SwipeFires(lastTime: real, now: real, cooldown: real, deltaX: real, threshold: real) {
    now - lastTime >= cooldown && Abs(deltaX) >= threshold
  }

  /** The swipe state after `TrySwipe(delta)` at time `now`: a drag to the right
      turns to the next corner, any other to the previous one. */
  function Tried(s: Swipe, delta: Vec2, now: real, cooldown: real, threshold: real): (r: Swipe)
    requires 0 <= s.corner < 4
    ensures 0 <= r.corner < 4
  {
    if !SwipeFires(s.lastTime, now, cooldown, delta.x, threshold) then s
    else s.(corner := if delta.x > 0.0 then NextIndex(s.corner) else PrevIndex(s.corner), lastTime := now)
  }

  /** The swipe state after one frame of `HandleSwipeInput`: nothing happens while
      an object is inspected; a press starts a swipe; a release during one tries it
      with the drag from its start and ends it. */
  function SwipeStep(s: Swipe, inspecting: bool, ev: SwipeEvent, now: real, cooldown: real, threshold: real): (r: Swipe)
    requires 0 <= s.corner < 4
    ensures 0 <= r.corner < 4
  {
    if inspecting then s
    else
      match ev
      case NoEvent => s
      case PressAt(p) => s.(start := p, active := true)
      case ReleaseAt(p) =>
        if s.active then Tried(s, Vec2(p.x - s.start.x, p.y - s.start.y), now, cooldown, threshold).(active := false)
        else s
  }

  /** A swipe turns the camera exactly when it fires, and then always to a
      different corner; otherwise nothing changes. */
  lemma TriedTurnsIffFires(s: Swipe, delta: Vec2, now: real, cooldown: real, threshold: real)
    requires 0 <= s.corner < 4
    ensures Tried(s, delta, now, cooldown, threshold).corner != s.corner <==>
      SwipeFires(s.lastTime, now, cooldown, delta.x, threshold)
    ensures !SwipeFires(s.lastTime, now, cooldown, delta.x, threshold) ==> Tried(s, delta, now, cooldown, threshold) == s
  {
    CornerRoundTrips(s.corner);
  }

  /** A press at `p` and a later release at `q` turn the camera to the next corner
      for a drag to the right at least the threshold wide (cooldown permitting),
      to the previous one for such a drag to the left, and nowhere otherwise; the
      swipe is over afterwards. */
  lemma SwipeGesture(s: Swipe, p: Vec2, q: Vec2, t1: real, t2: real, cooldown: real, threshold: real)
    requires 0 <= s.corner < 4
    ensures var r := SwipeStep(SwipeStep(s, false, PressAt(p), t1, cooldown, threshold), false, ReleaseAt(q), t2, cooldown, threshold);
      !r.active &&
      r.corner == (if !SwipeFires(s.lastTime, t2, cooldown, q.x - p.x, threshold) then s.corner
                   else if q.x - p.x > 0.0 then NextIndex(s.corner) else PrevIndex(s.corner))
  {
  }

  /** A swipe to the right followed, after the cooldown, by one to the left (both
      wide enough) brings the camera back to the corner it started at. */
  lemma SwipeBackRestores(s: Swipe, d: Vec2, e: Vec2, t1: real, t2: real, cooldown: real, threshold: real)
    requires 0 <= s.corner < 4
    requires SwipeFires(s.lastTime, t1, cooldown, d.x, threshold) && d.x > 0.0
    requires t2 - t1 >= cooldown && Abs(e.x) >= threshold && e.x < 0.0
    ensures Tried(Tried(s, d, t1, cooldown, threshold), e, t2, cooldown, threshold).corner == s.corner
  {
    CornerRoundTrips(s.corner);
  }

  /** With a positive cooldown a second swipe at the same moment never turns the
      camera again. */
  lemma CooldownBlocksSecond(s: Swipe, d: Vec2, e: Vec2, now: real, cooldown: real, threshold: real)
    requires 0 <= s.corner < 4 && cooldown > 0.0
    requires SwipeFires(s.lastTime, now, cooldown, d.x, threshold)
    ensures Tried(Tried(s, d, now, cooldown, threshold), e, now, cooldown, threshold) == Tried(s, d, now, cooldown, threshold)
  {
  }

  class RoomSetup {
    /** Which of `duvar1`..`duvar4` are assigned. */
    const wallPresent: seq<bool>
    /** `SetActive` state of the four walls. */
    const wallActive: array<bool>
    /** `duvarGizlemeAktif`. */
    const wallHiding: bool
    /** `odaGenisligi`, `odaDerinligi`, and the room centre (`odaMerkeziReferansi` or
        the object's own position). */
    const roomWidth: real
    const roomDepth: real
    const roomCenter: Vec3
    /** `gridSnapAktif`, `gridAdimi`. */
    const gridSnap: bool
    const gridStep: real
    /** `kameraMesafesi`, `kameraYuksekligi`. */
    const cameraDistance: real
    const cameraHeight: real
    /** `izometrikKameraKullan`. */
    const isometric: bool
    /** `swipeThresholdPixels`, `swipeCooldown`. */
    const swipeThresholdPixels: real
    const swipeCooldown: real
    /** `kameraKosesi`. */
    var corner: int
    /** `hedefPozisyon`. */
    var targetPosition: Vec3
    /** `kameraHareketEdiyor`. */
    var cameraMoving: bool
    /** `swipeStartPos`, `swipeActive`, `lastSwipeTime`. */
    var swipeStart: Vec2
    var swipeActive: bool
    var lastSwipeTime: real

    ghost predicate Valid()
      reads this
    {
      0 <= corner < 4 && |wallPresent| == WallCount && wallActive.Length == WallCount
    }

    /** The wall flags `DuvarlariGuncelle` leaves for corner `k`: a present wall is
        active unless hiding is on and the corner hides it; a missing wall keeps
        whatever flag it had. */
    ghost predicate WallsShownFor(k: int, before: seq<bool>)
      reads this, wallActive
      requires Valid() && |before| == WallCount
    {
      forall w :: 0 <= w < WallCount ==>
        wallActive[w] == if wallPresent[w] then !(wallHiding && HiddenAt(k, w)) else before[w]
    }

    constructor (wallPresent: seq<bool>, wallHiding: bool, roomWidth: real, roomDepth: real, roomCenter: Vec3,
                 gridSnap: bool, gridStep: real, cameraDistance: real, cameraHeight: real, isometric: bool,
                 swipeThresholdPixels: real, swipeCooldown: real)
      requires |wallPresent| == WallCount
      ensures Valid() && fresh(wallActive)
      ensures this.wallPresent == wallPresent && this.wallHiding == wallHiding
      ensures this.roomWidth == roomWidth && this.roomDepth == roomDepth && this.roomCenter == roomCenter
      ensures this.gridSnap == gridSnap && this.gridStep == gridStep
      ensures this.cameraDistance == cameraDistance && this.cameraHeight == cameraHeight
      ensures this.isometric == isometric
      ensures this.swipeThresholdPixels == swipeThresholdPixels && this.swipeCooldown == swipeCooldown
      ensures corner == 0 && !cameraMoving && !swipeActive && lastSwipeTime == -999.0
      ensures forall w :: 0 <= w < WallCount ==> wallActive[w]
    {
      this.wallPresent := wallPresent;
      this.wallHiding := wallHiding;
      this.roomWidth := roomWidth;
      this.roomDepth := roomDepth;
      this.roomCenter := roomCenter;
      this.gridSnap := gridSnap;
      this.gridStep := gridStep;
      this.cameraDistance := cameraDistance;
      this.cameraHeight := cameraHeight;
      this.isometric := isometric;
      this.swipeThresholdPixels := swipeThresholdPixels;
      this.swipeCooldown := swipeCooldown;
      wallActive := new bool[WallCount](_ => true);
      corner := 0;
      targetPosition := Vec3(0.0, 0.0, 0.0);
      cameraMoving := false;
      swipeStart := Vec2(0.0, 0.0);
      swipeActive := false;
      lastSwipeTime := -999.0;
    }

    /** `HedefKameraPozisyonunuAyarla`: the target position of the current corner;
        the camera starts moving. */
    method SetCameraTarget()
      requires Valid()
      modifies this`targetPosition, this`cameraMoving
      ensures targetPosition == CameraTarget(corner, cameraDistance, cameraHeight)
      ensures cameraMoving
    {
      var position := Vec3(0.0, 0.0, 0.0);
      match corner {
        case 0 => position := Vec3(cameraDistance, cameraHeight, cameraDistance);
        case 1 => position := Vec3(-cameraDistance, cameraHeight, cameraDistance);
        case 2 => position := Vec3(-cameraDistance, cameraHeight, -cameraDistance);
        case 3 => position := Vec3(cameraDistance, cameraHeight, -cameraDistance);
      }
      targetPosition := position;
      cameraMoving := true;
    }

    /** `DuvarlariGuncelle`: show every present wall, then hide the corner's two. */
    method UpdateWalls()
      requires Valid()
      modifies wallActive
      ensures WallsShownFor(corner, old(wallActive[..]))
    {
      if wallPresent[0] { wallActive[0] := true; }
      if wallPresent[1] { wallActive[1] := true; }
      if wallPresent[2] { wallActive[2] := true; }
      if wallPresent[3] { wallActive[3] := true; }
      if !wallHiding {
        return;
      }
      match corner {
        case 0 =>
          if wallPresent[0] { wallActive[0] := false; }
          if wallPresent[1] { wallActive[1] := false; }
        case 1 =>
          if wallPresent[0] { wallActive[0] := false; }
          if wallPresent[3] { wallActive[3] := false; }
        case 2 =>
          if wallPresent[2] { wallActive[2] := false; }
          if wallPresent[3] { wallActive[3] := false; }
        case 3 =>
          if wallPresent[1] { wallActive[1] := false; }
          if wallPresent[2] { wallActive[2] := false; }
      }
    }

    /** `NextCorner`. */
    method NextCorner()
      requires Valid()
      modifies this`corner, this`targetPosition, this`cameraMoving, wallActive
      ensures Valid()
      ensures corner == NextIndex(old(corner))
      ensures targetPosition == CameraTarget(corner, cameraDistance, cameraHeight) && cameraMoving
      ensures WallsShownFor(corner, old(wallActive[..]))
    {
      corner := (corner + 1) % 4;
      SetCameraTarget();
      UpdateWalls();
    }

    /** `PrevCorner`. */
    method PrevCorner()
      requires Valid()
      modifies this`corner, this`targetPosition, this`cameraMoving, wallActive
      ensures Valid()
      ensures corner == PrevIndex(old(corner))
      ensures targetPosition == CameraTarget(corner, cameraDistance, cameraHeight) && cameraMoving
      ensures WallsShownFor(corner, old(wallActive[..]))
    {
      corner := (corner - 1 + 4) % 4;
      SetCameraTarget();
      UpdateWalls();
    }

    /** `SetCorner`: any requested index is clamped into 0..3. */
    method SetCorner(k: int)
      requires Valid()
      modifies this`corner, this`targetPosition, this`cameraMoving, wallActive
      ensures Valid()
      ensures corner == ClampI(k, 0, 3)
      ensures 0 <= k <= 3 ==> corner == k
      ensures targetPosition == CameraTarget(corner, cameraDistance, cameraHeight) && cameraMoving
      ensures WallsShownFor(corner, old(wallActive[..]))
    {
      corner := ClampI(k, 0, 3);
      SetCameraTarget();
      UpdateWalls();
    }

    /** The fields a swipe changes. */
    function SwipeState(): Swipe
      reads this
    {
      Swipe(corner, swipeStart, swipeActive, lastSwipeTime)
    }

    /** `TrySwipe` at time `now`: ignored inside the cooldown or for a horizontal drag
        shorter than the threshold; otherwise a drag to the right turns to the next
        corner, any other to the previous one. */
    method TrySwipe(delta: Vec2, now: real)
      requires Valid()
      modifies this`corner, this`targetPosition, this`cameraMoving, this`lastSwipeTime, wallActive
      ensures Valid()
      ensures SwipeState() == Tried(old(SwipeState()), delta, now, swipeCooldown, swipeThresholdPixels)
      ensures corner == old(corner) ==>
        targetPosition == old(targetPosition) && cameraMoving == old(cameraMoving) &&
        wallActive[..] == old(wallActive[..])
      ensures corner != old(corner) ==>
        targetPosition == CameraTarget(corner, cameraDistance, cameraHeight) && cameraMoving &&
        WallsShownFor(corner, old(wallActive[..]))
    {
      TriedTurnsIffFires(SwipeState(), delta, now, swipeCooldown, swipeThresholdPixels);
      if now - lastSwipeTime < swipeCooldown {
        return;
      }
      if Abs(delta.x) < swipeThresholdPixels {
        return;
      }
      if delta.x > 0.0 {
        NextCorner();
      } else {
        PrevCorner();
      }
      lastSwipeTime := now;
    }

    /** `HandleSwipeInput`: nothing while an object is being inspected; otherwise a
        press starts a swipe and the next release tries it. A turn moves the camera
        target and the hidden walls with it; a frame without a turn leaves them. */
    method HandleSwipeInput(inspecting: bool, standalone: bool, mouse: SwipeMouse, touches: seq<Touch>, now: real)
      requires Valid()
      modifies this`corner, this`targetPosition, this`cameraMoving, this`lastSwipeTime, this`swipeStart,
               this`swipeActive, wallActive
      ensures Valid()
      ensures SwipeState() == SwipeStep(old(SwipeState()), inspecting, EventOf(standalone, mouse, touches),
                                        now, swipeCooldown, swipeThresholdPixels)
      ensures corner == old(corner) ==>
        targetPosition == old(targetPosition) && cameraMoving == old(cameraMoving) &&
        wallActive[..] == old(wallActive[..])
      ensures corner != old(corner) ==>
        targetPosition == CameraTarget(corner, cameraDistance, cameraHeight) && cameraMoving &&
        WallsShownFor(corner, old(wallActive[..]))
    {
      if inspecting {
        return;
      }
      if standalone {
        if mouse.down {
          swipeStart := mouse.position;
          swipeActive := true;
        } else if mouse.up && swipeActive {
          var end := mouse.position;
          TrySwipe(Vec2(end.x - swipeStart.x, end.y - swipeStart.y), now);
          swipeActive := false;
        }
      } else {
        if |touches| > 0 {
          var t := touches[0];
          if t.phase == Began {
            swipeStart := t.position;
            swipeActive := true;
          } else if (t.phase == Ended || t.phase == Canceled) && swipeActive {
            TrySwipe(Vec2(t.position.x - swipeStart.x, t.position.y - swipeStart.y), now);
            swipeActive := false;
          }
        }
      }
    }
  }
}
