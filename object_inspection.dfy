/** The close-up inspection mode of `ObjectInspectionSystem`. In the normal view a
    press on an inspectable object starts an animated transition that flies it in
    front of the camera, hides every other renderer and the UI; while inspecting,
    drags rotate it; leaving flies it back to the pose saved on entry and shows
    what was hidden. The animations are tweens whose `OnComplete` callbacks are the
    explicit `CompleteEnter` and `CompleteExit` methods here. The scene's renderers
    are numbered 0..n-1 and renderer i belongs to scene object i (a Unity object
    carries at most one renderer). */
module Inspection {
  import opened Engine

  datatype GameState = NormalView | Inspecting

  /** The transition tween that is running, if any. */
  datatype Tween = Idle | Entering(obj: ObjId) | Leaving

  /** A transform: position, Euler rotation and local scale. */
  datatype Pose = Pose(position: Vec3, rotation: Vec3, scale: Vec3)

  /** The camera's position and its forward, right and up axes. */
  datatype CameraFrame = CameraFrame(position: Vec3, forward: Vec3, right: Vec3, up: Vec3)

  /** What the selection ray hit: the object, whether it carries the inspectable
      tag, and its current pose and parent. */
  datatype Hit = Hit(obj: ObjId, inspectable: bool, pose: Pose, parent: Option<ObjId>)

  /** `activeSelf` of the UI canvas, the background panel and the back button, and
      the canvas state saved on entry (`wasCanvasActive`). */
  datatype Overlay = Overlay(canvasActive: bool, wasCanvasActive: bool, panelActive: bool, backButtonActive: bool)

  /** The inspector settings of the component. */
  datatype Settings = Settings(
    inspectionOffset: Vec3, inspectionScale: real,
    hideOtherObjects: bool, hideUIElements: bool,
    rotationSensitivity: real, rotationSpeed: real, canRotateX: bool, canRotateY: bool,
    ignoreUIClicks: bool,
    hasCanvas: bool, hasBackgroundPanel: bool, hasBackButton: bool)

  function Plus(a: Vec3, b: Vec3): Vec3 {
    Vec3(a.x + b.x, a.y + b.y, a.z + b.z)
  }

  function Times(a: Vec3, k: real): Vec3 {
    Vec3(a.x * k, a.y * k, a.z * k)
  }

  /** The point `offset` away from the camera along its own axes. */
  function InspectionPoint(cam: CameraFrame, offset: Vec3): Vec3 {
    Plus(Plus(Plus(cam.position, Times(cam.forward, offset.z)), Times(cam.right, offset.x)), Times(cam.up, offset.y))
  }

  /** The rotation one frame of drag `d` adds around one axis. */
  function RotationStep(d: real, speed: real, dt: real): real {
    d * speed * dt
  }

  /** Pointer movement from `b` to `a`. */
  function Minus(a: Vec2, b: Vec2): Vec2 {
    Vec2(a.x - b.x, a.y - b.y)
  }

  /** The target rotation after `RotateByDelta(delta)` with an object inspected: a
      vertical drag turns it about x if `canRotateX`, a horizontal drag about y
      (the other way) if `canRotateY`. */
  function Rotated(rot: Vec3, delta: Vec2, s: Settings, dt: real): Vec3 {
    var speed := s.rotationSpeed * s.rotationSensitivity;
    Vec3(if s.canRotateX then rot.x + RotationStep(delta.y, speed, dt) else rot.x,
         if s.canRotateY then rot.y + RotationStep(-delta.x, speed, dt) else rot.y,
         rot.z)
  }

  /** Two drags rotate as much as one drag by their total movement. */
  lemma RotateComposes(rot: Vec3, a: Vec2, b: Vec2, s: Settings, dt: real)
    ensures Rotated(Rotated(rot, a, s, dt), b, s, dt) == Rotated(rot, Vec2(a.x + b.x, a.y + b.y), s, dt)
  {
    var speed := s.rotationSpeed * s.rotationSensitivity;
    assert (a.y + b.y) * speed * dt == a.y * speed * dt + b.y * speed * dt;
    assert (-(a.x + b.x)) * speed * dt == (-a.x) * speed * dt + (-b.x) * speed * dt;
  }

  /** A drag back by the same movement restores the rotation, and no movement does
      not rotate; z is never touched. */
  lemma RotateBackRestores(rot: Vec3, delta: Vec2, s: Settings, dt: real)
    ensures Rotated(Rotated(rot, delta, s, dt), Vec2(-delta.x, -delta.y), s, dt) == rot
    ensures Rotated(rot, Vec2(0.0, 0.0), s, dt) == rot
    ensures Rotated(rot, delta, s, dt).z == rot.z
  {
    RotateComposes(rot, delta, Vec2(-delta.x, -delta.y), s, dt);
  }

  /** The rotation drag part of the inspector's state: whether a drag is on, the
      last pointer position, and the target rotation. */
  datatype Drag = Drag(dragging: bool, last: Vec2, target: Vec3)

  /** The drag state after one frame of `HandleMouseRotation` (`hasObject`: an
      object is inspected, which `RotateByDelta` checks). Over UI nothing
      happens; a press starts a drag at the pointer; a held button during a drag
      rotates by the movement since the last frame; a release ends the drag. */
  function MouseDrag(d: Drag, s: Settings, hasObject: bool, overUI: bool, down: bool, held: bool, up: bool,
                     position: Vec2, dt: real): Drag {
    if s.ignoreUIClicks && overUI then d
    else
      var d1 := if down then d.(last := position, dragging := true) else d;
      var d2 := if held && d1.dragging
        then d1.(target := if hasObject then Rotated(d1.target, Minus(position, d1.last), s, dt) else d1.target,
                 last := position)
        else d1;
      if up then d2.(dragging := false) else d2
  }

  /** The drag state after one frame of `HandleTouchRotation`: a first touch over
      UI is ignored; with exactly one touch, Began starts a drag, Moved rotates
      during one, Ended and Canceled stop it; any other touch count ends the drag. */
  function TouchDrag(d: Drag, s: Settings, hasObject: bool, touches: seq<Touch>, overUI: bool, eventSystem: bool,
                     dt: real): Drag {
    if |touches| > 0 && s.ignoreUIClicks && eventSystem && overUI then d
    else if |touches| != 1 then d.(dragging := false)
    else
      var t := touches[0];
      match t.phase
      case Began => d.(last := t.position, dragging := true)
      case Moved =>
        if d.dragging
        then d.(target := if hasObject then Rotated(d.target, Minus(t.position, d.last), s, dt) else d.target,
                last := t.position)
        else d
      case Ended => d.(dragging := false)
      case Canceled => d.(dragging := false)
      case Stationary => d
  }

  /** A mouse drag pressed at `p` and held through `q` to `r` rotates the object
      by the total movement from `p` to `r`, whatever the path; releasing then
      ends the drag and rotates no further. */
  lemma MouseDragFollowsPointer(d: Drag, s: Settings, p: Vec2, q: Vec2, r: Vec2, dt: real)
    requires !s.ignoreUIClicks
    ensures var d1 := MouseDrag(d, s, true, false, true, true, false, p, dt);
      var d2 := MouseDrag(d1, s, true, false, false, true, false, q, dt);
      var d3 := MouseDrag(d2, s, true, false, false, true, false, r, dt);
      var d4 := MouseDrag(d3, s, true, false, false, false, true, r, dt);
      d3.dragging && d3.last == r && d3.target == Rotated(d.target, Minus(r, p), s, dt) &&
      !d4.dragging && d4.target == d3.target
  {
    RotateBackRestores(d.target, Vec2(0.0, 0.0), s, dt);
    assert Minus(p, p) == Vec2(0.0, 0.0);
    RotateComposes(d.target, Minus(q, p), Minus(r, q), s, dt);
    assert Vec2(Minus(q, p).x + Minus(r, q).x, Minus(q, p).y + Minus(r, q).y) == Minus(r, p);
  }

  /** A one-finger drag that begins at `p` and moves through `q` to `r` rotates
      the object by the total movement from `p` to `r`; lifting the finger ends
      the drag and rotates no further. */
  lemma TouchDragFollowsPointer(d: Drag, s: Settings, p: Vec2, q: Vec2, r: Vec2, dt: real)
    ensures var d1 := TouchDrag(d, s, true, [Touch(Began, p)], false, true, dt);
      var d2 := TouchDrag(d1, s, true, [Touch(Moved, q)], false, true, dt);
      var d3 := TouchDrag(d2, s, true, [Touch(Moved, r)], false, true, dt);
      var d4 := TouchDrag(d3, s, true, [Touch(Ended, r)], false, true, dt);
      d3.dragging && d3.last == r && d3.target == Rotated(d.target, Minus(r, p), s, dt) &&
      !d4.dragging && d4.target == d3.target
  {
    RotateComposes(d.target, Minus(q, p), Minus(r, q), s, dt);
    assert Vec2(Minus(q, p).x + Minus(r, q).x, Minus(q, p).y + Minus(r, q).y) == Minus(r, p);
  }

  // ---- Hiding and showing the rest of the scene ----

  /** The renderer-enabled flags after hiding, for the hide rule `hides`. */
  function AfterHide(enabled: seq<bool>, hides: seq<bool>): (r: seq<bool>)
    requires |hides| == |enabled|
    ensures |r| == |enabled|
    ensures forall i :: 0 <= i < |r| ==> (r[i] <==> enabled[i] && !hides[i])
  {
    seq(|enabled|, i requires 0 <= i < |enabled| => enabled[i] && !hides[i])
  }

  /** The renderers a hide records, in scene order. */
  function HiddenList(hides: seq<bool>): seq<nat> {
    HiddenUpTo(hides, |hides|)
  }

  /** The renderers among the first `k` that the rule hides. */
  function HiddenUpTo(hides: seq<bool>, k: nat): seq<nat>
    requires k <= |hides|
  {
    if k == 0 then []
    else HiddenUpTo(hides, k - 1) + (if hides[k - 1] then [k - 1] else [])
  }

  /** The list records exactly the renderers the rule hides, each once, in
      increasing order. */
  lemma {:induction false} HiddenUpToSpec(hides: seq<bool>, k: nat)
    requires k <= |hides|
    ensures forall i :: i in HiddenUpTo(hides, k) <==> 0 <= i < k && hides[i]
    ensures forall m :: 0 <= m < |HiddenUpTo(hides, k)| ==> HiddenUpTo(hides, k)[m] < k
    ensures forall a, b :: 0 <= a < b < |HiddenUpTo(hides, k)| ==>
      HiddenUpTo(hides, k)[a] < HiddenUpTo(hides, k)[b]
  {
    if k > 0 {
      HiddenUpToSpec(hides, k - 1);
    }
  }

  /** The renderer-enabled flags after showing the recorded list: every recorded
      renderer whose object still exists is enabled again. */
  function AfterShow(enabled: seq<bool>, hidden: seq<nat>, destroyed: set<ObjId>): (r: seq<bool>)
    ensures |r| == |enabled|
    ensures forall i :: 0 <= i < |r| ==> (r[i] <==> enabled[i] || (i in hidden && i !in destroyed))
  {
    seq(|enabled|, i requires 0 <= i < |enabled| => enabled[i] || (i in hidden && i !in destroyed))
  }

  /** Hiding and then showing, with no object destroyed in between, leaves every
      renderer the hide rule skipped as it was, and turns every renderer it hid
      on. So the scene is restored exactly when every renderer the rule hides was
      enabled before. */
  lemma HideShowRoundTrip(enabled: seq<bool>, hides: seq<bool>)
    requires |hides| == |enabled|
    ensures forall i :: 0 <= i < |enabled| ==>
      AfterShow(AfterHide(enabled, hides), HiddenList(hides), {})[i] == (enabled[i] || hides[i])
    ensures (forall i :: 0 <= i < |enabled| && hides[i] ==> enabled[i]) ==>
      AfterShow(AfterHide(enabled, hides), HiddenList(hides), {}) == enabled
  {
    HiddenUpToSpec(hides, |hides|);
  }

  /** The static `Instance` slot and the components `Awake` destroyed. */
  class InstanceSlot {
    var instance: Option<ObjId>
    var destroyed: set<ObjId>

    constructor ()
      ensures instance == None && destroyed == {}
    {
      instance := None;
      destroyed := {};
    }

    /** `Awake` of component `self`: the first component claims the slot; a second one
        destroys its own object and the slot keeps the first. */
    method Awake(self: ObjId)
      modifies this
      ensures old(instance).Some? && old(instance) != Some(self) ==>
        instance == old(instance) && destroyed == old(destroyed) + {self}
      ensures old(instance).None? || old(instance) == Some(self) ==>
        instance == Some(self) && destroyed == old(destroyed)
      ensures old(instance).Some? ==> instance == old(instance)
    {
      if instance.Some? && instance != Some(self) {
        destroyed := destroyed + {self};
        return;
      }
      instance := Some(self);
    }
  }

  class ObjectInspectionSystem {
    const settings: Settings
    /** `rend.enabled` for every renderer in the scene. */
    const rendererEnabled: array<bool>
    /** For each renderer: its object is active in the hierarchy (`FindObjectsOfType`
        sees no other renderer, and its `activeSelf` must hold as well), lies under
        the back button, lies under the background panel. */
    const objectActive: seq<bool>
    const underBackButton: seq<bool>
    const underPanel: seq<bool>

    var currentState: GameState
    var isTransitioning: bool
    var tween: Tween
    var currentObject: Option<ObjId>
    /** The pose and parent saved by `InspectObject`. */
    var original: Pose
    var originalParent: Option<ObjId>
    /** The pose the running or last transition tweens the object to. */
    var tweenTarget: Pose
    /** Rotation drag state. */
    var isDragging: bool
    var lastInputPosition: Vec2
    var targetRotation: Vec3
    /** `hiddenObjects`. */
    var hiddenObjects: seq<nat>
    var overlay: Overlay
    /** How often `onInspectionStarted` and `onInspectionEnded` fired. */
    var startedEvents: nat
    var endedEvents: nat

    ghost predicate Valid()
      reads this, rendererEnabled
    {
      |objectActive| == rendererEnabled.Length && |underBackButton| == rendererEnabled.Length &&
      |underPanel| == rendererEnabled.Length &&
      (forall k :: 0 <= k < |hiddenObjects| ==> hiddenObjects[k] < rendererEnabled.Length) &&
      (isTransitioning <==> tween != Idle) &&
      (currentState == Inspecting <==> currentObject.Some?) &&
      (tween.Entering? ==> currentObject == Some(tween.obj)) &&
      (tween == Leaving ==> currentObject.Some?)
    }

    /** The hide rule of `HideSceneObjects(except)` for every renderer: not the
        inspected object, active, and under neither the back button nor the panel. */
    function Hides(except: ObjId): (r: seq<bool>)
      requires |objectActive| == rendererEnabled.Length && |underBackButton| == rendererEnabled.Length &&
        |underPanel| == rendererEnabled.Length
      ensures |r| == rendererEnabled.Length
      ensures forall i :: 0 <= i < |r| ==>
        (r[i] <==> i != except && objectActive[i] &&
                   !(settings.hasBackButton && underBackButton[i]) && !(settings.hasBackgroundPanel && underPanel[i]))
    {
      seq(rendererEnabled.Length, i requires 0 <= i < rendererEnabled.Length =>
        i != except && objectActive[i] &&
        !(settings.hasBackButton && underBackButton[i]) && !(settings.hasBackgroundPanel && underPanel[i]))
    }

    /** The UI after entering: the canvas is saved and hidden when `hideUIElements`
        and a canvas is set, and the background panel (if any) is shown. */
    function EnterOverlay(u: Overlay): (r: Overlay)
      ensures r.backButtonActive == u.backButtonActive
      ensures settings.hideUIElements && settings.hasCanvas ==> r.wasCanvasActive == u.canvasActive && !r.canvasActive
      ensures !(settings.hideUIElements && settings.hasCanvas) ==>
        r.wasCanvasActive == u.wasCanvasActive && r.canvasActive == u.canvasActive
      ensures r.panelActive == (settings.hasBackgroundPanel || u.panelActive)
    {
      var v := if settings.hideUIElements && settings.hasCanvas
        then u.(wasCanvasActive := u.canvasActive, canvasActive := false) else u;
      if settings.hasBackgroundPanel then v.(panelActive := true) else v
    }

    /** The UI after leaving: the canvas comes back if it was active when hidden; the
        panel and the back button (if set) are hidden. */
    function ExitOverlay(u: Overlay): (r: Overlay)
      ensures r.wasCanvasActive == u.wasCanvasActive
      ensures r.canvasActive == (u.canvasActive || (settings.hideUIElements && settings.hasCanvas && u.wasCanvasActive))
      ensures r.panelActive == (u.panelActive && !settings.hasBackgroundPanel)
      ensures r.backButtonActive == (u.backButtonActive && !settings.hasBackButton)
    {
      var v := if settings.hideUIElements && settings.hasCanvas && u.wasCanvasActive then u.(canvasActive := true) else u;
      var w := if settings.hasBackgroundPanel then v.(panelActive := false) else v;
      if settings.hasBackButton then w.(backButtonActive := false) else w
    }

    /** A full enter and exit give the canvas back the state it had before, and
        leave the panel (if set) hidden. */
    lemma OverlayRoundTrip(u: Overlay)
      ensures ExitOverlay(EnterOverlay(u)).canvasActive == u.canvasActive
      ensures settings.hasBackgroundPanel ==> !ExitOverlay(EnterOverlay(u)).panelActive
    {
    }

    constructor (settings: Settings, rendererEnabled: array<bool>, objectActive: seq<bool>,
                 underBackButton: seq<bool>, underPanel: seq<bool>, canvasActive: bool)
      requires |objectActive| == rendererEnabled.Length && |underBackButton| == rendererEnabled.Length
      requires |underPanel| == rendererEnabled.Length
      ensures Valid()
      ensures this.settings == settings && this.rendererEnabled == rendererEnabled
      ensures this.objectActive == objectActive && this.underBackButton == underBackButton
      ensures this.underPanel == underPanel && overlay.canvasActive == canvasActive
      ensures currentState == NormalView && !isTransitioning && currentObject == None
      ensures hiddenObjects == [] && !isDragging && startedEvents == 0 && endedEvents == 0
      ensures !overlay.backButtonActive
    {
      this.settings := settings;
      this.rendererEnabled := rendererEnabled;
      this.objectActive := objectActive;
      this.underBackButton := underBackButton;
      this.underPanel := underPanel;
      currentState := NormalView;
      isTransitioning := false;
      tween := Idle;
      currentObject := None;
      original := Pose(Vec3(0.0, 0.0, 0.0), Vec3(0.0, 0.0, 0.0), Vec3(1.0, 1.0, 1.0));
      originalParent := None;
      tweenTarget := original;
      isDragging := false;
      lastInputPosition := Vec2(0.0, 0.0);
      targetRotation := Vec3(0.0, 0.0, 0.0);
      hiddenObjects := [];
      // `Start` hides the back button.
      overlay := Overlay(canvasActive, false, false, false);
      startedEvents := 0;
      endedEvents := 0;
    }

    /** `HideSceneObjects(except)`: clear the list, then disable and record every
        renderer the hide rule selects. */
    method HideSceneObjects(except: ObjId)
      requires Valid()
      modifies this`hiddenObjects, rendererEnabled
      ensures Valid()
      ensures rendererEnabled[..] == AfterHide(old(rendererEnabled[..]), Hides(except))
      ensures hiddenObjects == HiddenList(Hides(except))
    {
      ghost var before := rendererEnabled[..];
      ghost var hides := Hides(except);
      var n := rendererEnabled.Length;
      hiddenObjects := [];
      for i := 0 to n
        invariant hiddenObjects == HiddenUpTo(hides, i)
        invariant forall k :: 0 <= k < |hiddenObjects| ==> hiddenObjects[k] < i
        invariant forall j :: 0 <= j < i ==> rendererEnabled[j] == (before[j] && !hides[j])
        invariant forall j :: i <= j < n ==> rendererEnabled[j] == before[j]
      {
        if i != except && objectActive[i] {
          if settings.hasBackButton && underBackButton[i] {
            continue;
          }
          if settings.hasBackgroundPanel && underPanel[i] {
            continue;
          }
          rendererEnabled[i] := false;
          hiddenObjects := hiddenObjects + [i];
        }
      }
    }

    /** `ShowSceneObjects`: enable the renderer of every recorded object that still
        exists, then clear the list. */
    method ShowSceneObjects(destroyed: set<ObjId>)
      requires Valid()
      modifies this`hiddenObjects, rendererEnabled
      ensures Valid()
      ensures rendererEnabled[..] == AfterShow(old(rendererEnabled[..]), old(hiddenObjects), destroyed)
      ensures hiddenObjects == []
    {
      ghost var before := rendererEnabled[..];
      var list := hiddenObjects;
      for k := 0 to |list|
        invariant forall j :: 0 <= j < rendererEnabled.Length ==>
          rendererEnabled[j] == (before[j] || (j in list[..k] && j !in destroyed))
      {
        var obj := list[k];
        if obj !in destroyed {
          rendererEnabled[obj] := true;
        }
        assert list[..k + 1] == list[..k] + [obj];
      }
      assert list[..|list|] == list;
      hiddenObjects := [];
    }

    /** `InspectObject`: ignored for no object or during a transition; otherwise the
        object becomes current, its pose is saved, the scene and UI are hidden and
        the enter tween starts towards the inspection point, zero rotation and the
        enlarged scale. */
    method InspectObject(obj: Option<ObjId>, pose: Pose, parent: Option<ObjId>, cam: CameraFrame)
      requires Valid()
      modifies this`currentObject, this`isTransitioning, this`currentState, this`tween, this`original,
        this`originalParent, this`hiddenObjects, this`overlay, this`tweenTarget, rendererEnabled
      ensures Valid()
      ensures obj.None? || old(isTransitioning) ==>
        currentState == old(currentState) && isTransitioning == old(isTransitioning) && tween == old(tween) &&
        currentObject == old(currentObject) && original == old(original) && tweenTarget == old(tweenTarget) &&
        hiddenObjects == old(hiddenObjects) && rendererEnabled[..] == old(rendererEnabled[..]) &&
        overlay == old(overlay) && originalParent == old(originalParent)
      ensures obj.Some? && !old(isTransitioning) ==>
        currentObject == obj && currentState == Inspecting && isTransitioning && tween == Entering(obj.value) &&
        original == pose && originalParent == parent && overlay == EnterOverlay(old(overlay)) &&
        tweenTarget == Pose(InspectionPoint(cam, settings.inspectionOffset), Vec3(0.0, 0.0, 0.0),
                            Times(pose.scale, settings.inspectionScale))
      ensures obj.Some? && !old(isTransitioning) && settings.hideOtherObjects ==>
        rendererEnabled[..] == AfterHide(old(rendererEnabled[..]), Hides(obj.value)) &&
        hiddenObjects == HiddenList(Hides(obj.value))
      ensures obj.Some? && !old(isTransitioning) && !settings.hideOtherObjects ==>
        rendererEnabled[..] == old(rendererEnabled[..]) && hiddenObjects == old(hiddenObjects)
    {
      if obj.None? || isTransitioning {
        return;
      }
      var o := obj.value;
      currentObject := obj;
      isTransitioning := true;
      currentState := Inspecting;
      tween := Entering(o);
      original := pose;
      originalParent := parent;
      var target := InspectionPoint(cam, settings.inspectionOffset);
      if settings.hideOtherObjects {
        HideSceneObjects(o);
      }
      overlay := EnterOverlay(overlay);
      tweenTarget := Pose(target, Vec3(0.0, 0.0, 0.0), Times(pose.scale, settings.inspectionScale));
    }

    /** The enter tween's `OnComplete`: the transition ends (the state stays
        Inspecting), the drag rotation starts from the object's final angles, the
        back button appears and `onInspectionStarted` fires. */
    method CompleteEnter(finalAngles: Vec3)
      requires Valid() && tween.Entering?
      modifies this`isTransitioning, this`tween, this`targetRotation, this`overlay, this`startedEvents
      ensures Valid()
      ensures !isTransitioning && tween == Idle && currentState == Inspecting
      ensures targetRotation == finalAngles
      ensures overlay == old(overlay).(backButtonActive := settings.hasBackButton || old(overlay).backButtonActive)
      ensures startedEvents == old(startedEvents) + 1
    {
      isTransitioning := false;
      tween := Idle;
      targetRotation := finalAngles;
      if settings.hasBackButton {
        overlay := overlay.(backButtonActive := true);
      }
      startedEvents := startedEvents + 1;
    }

    /** `ExitInspection`: ignored with no current object or during a transition;
        otherwise the exit tween starts towards exactly the saved pose. */
    method ExitInspection()
      requires Valid()
      modifies this`isTransitioning, this`tween, this`isDragging, this`tweenTarget
      ensures Valid()
      ensures old(currentObject).None? || old(isTransitioning) ==>
        isTransitioning == old(isTransitioning) && tween == old(tween) && isDragging == old(isDragging) &&
        tweenTarget == old(tweenTarget)
      ensures old(currentObject).Some? && !old(isTransitioning) ==>
        isTransitioning && tween == Leaving && !isDragging && tweenTarget == original
    {
      if currentObject.None? || isTransitioning {
        return;
      }
      isTransitioning := true;
      tween := Leaving;
      isDragging := false;
      tweenTarget := original;
    }

    /** The exit tween's `OnComplete`: back to the normal view with no current
        object; the hidden renderers (of objects not destroyed meanwhile) come back,
        the UI is restored and `onInspectionEnded` fires. */
    method CompleteExit(destroyed: set<ObjId>)
      requires Valid() && tween == Leaving
      modifies this`isTransitioning, this`tween, this`currentState, this`currentObject, this`hiddenObjects,
        this`overlay, this`endedEvents, rendererEnabled
      ensures Valid()
      ensures !isTransitioning && tween == Idle && currentState == NormalView && currentObject == None
      ensures rendererEnabled[..] == AfterShow(old(rendererEnabled[..]), old(hiddenObjects), destroyed)
      ensures hiddenObjects == []
      ensures overlay == ExitOverlay(old(overlay))
      ensures endedEvents == old(endedEvents) + 1
    {
      isTransitioning := false;
      tween := Idle;
      currentState := NormalView;
      currentObject := None;
      ShowSceneObjects(destroyed);
      overlay := ExitOverlay(overlay);
      endedEvents := endedEvents + 1;
    }

    /** The fields a rotation drag changes. */
    function DragState(): Drag
      reads this
    {
      Drag(isDragging, lastInputPosition, targetRotation)
    }

    /** `RotateByDelta`: nothing without a current object. */
    method RotateByDelta(delta: Vec2, dt: real)
      modifies this`targetRotation
      ensures targetRotation == if currentObject.None? then old(targetRotation)
                                else Rotated(old(targetRotation), delta, settings, dt)
    {
      if currentObject.None? {
        return;
      }
      var speed := settings.rotationSpeed * settings.rotationSensitivity;
      if settings.canRotateY {
        targetRotation := targetRotation.(y := targetRotation.y + RotationStep(-delta.x, speed, dt));
      }
      if settings.canRotateX {
        targetRotation := targetRotation.(x := targetRotation.x + RotationStep(delta.y, speed, dt));
      }
    }

    /** `HandleMouseRotation`. */
    method HandleMouseRotation(overUI: bool, down: bool, held: bool, up: bool, position: Vec2, dt: real)
      modifies this`targetRotation, this`isDragging, this`lastInputPosition
      ensures DragState() == MouseDrag(old(DragState()), settings, currentObject.Some?, overUI, down, held, up, position, dt)
    {
      if settings.ignoreUIClicks && overUI {
        return;
      }
      if down {
        lastInputPosition := position;
        isDragging := true;
      }
      if held && isDragging {
        RotateByDelta(Vec2(position.x - lastInputPosition.x, position.y - lastInputPosition.y), dt);
        lastInputPosition := position;
      }
      if up {
        isDragging := false;
      }
    }

    /** `HandleTouchRotation`. */
    method HandleTouchRotation(touches: seq<Touch>, overUI: bool, eventSystem: bool, dt: real)
      modifies this`targetRotation, this`isDragging, this`lastInputPosition
      ensures DragState() == TouchDrag(old(DragState()), settings, currentObject.Some?, touches, overUI, eventSystem, dt)
    {
      if |touches| > 0 && settings.ignoreUIClicks && eventSystem {
        if overUI {
          return;
        }
      }
      if |touches| == 1 {
        var touch := touches[0];
        match touch.phase {
          case Began =>
            lastInputPosition := touch.position;
            isDragging := true;
          case Moved =>
            if isDragging {
              RotateByDelta(Vec2(touch.position.x - lastInputPosition.x, touch.position.y - lastInputPosition.y), dt);
              lastInputPosition := touch.position;
            }
          case Ended =>
            isDragging := false;
          case Canceled =>
            isDragging := false;
          case Stationary =>
        }
      } else {
        isDragging := false;
      }
    }

    /** A press (the mouse button in the standalone player, else a Began first
        touch) not over UI whose ray hits an inspectable object. */
    predicate Selects(standalone: bool, mouseDown: bool, touches: seq<Touch>, overUI: bool, eventSystem: bool,
                      hit: Option<Hit>)
    {
      (if standalone then mouseDown else |touches| > 0 && touches[0].phase == Began) &&
      !(settings.ignoreUIClicks && eventSystem && overUI) && hit.Some? && hit.value.inspectable
    }

    /** `HandleObjectSelection`: a selecting press inspects the object hit, as
        `InspectObject` does; anything else changes nothing. */
    method HandleObjectSelection(standalone: bool, mouseDown: bool, touches: seq<Touch>,
                                 overUI: bool, eventSystem: bool, hit: Option<Hit>, cam: CameraFrame)
      requires Valid()
      modifies this`currentObject, this`isTransitioning, this`currentState, this`tween, this`original,
        this`originalParent, this`hiddenObjects, this`overlay, this`tweenTarget, rendererEnabled
      ensures Valid()
      ensures Selects(standalone, mouseDown, touches, overUI, eventSystem, hit) && !old(isTransitioning) ==>
        var h := hit.value;
        currentObject == Some(h.obj) && currentState == Inspecting && isTransitioning && tween == Entering(h.obj) &&
        original == h.pose && originalParent == h.parent && overlay == EnterOverlay(old(overlay)) &&
        tweenTarget == Pose(InspectionPoint(cam, settings.inspectionOffset), Vec3(0.0, 0.0, 0.0),
                            Times(h.pose.scale, settings.inspectionScale)) &&
        (settings.hideOtherObjects ==>
           rendererEnabled[..] == AfterHide(old(rendererEnabled[..]), Hides(h.obj)) &&
           hiddenObjects == HiddenList(Hides(h.obj))) &&
        (!settings.hideOtherObjects ==>
           rendererEnabled[..] == old(rendererEnabled[..]) && hiddenObjects == old(hiddenObjects))
      ensures !Selects(standalone, mouseDown, touches, overUI, eventSystem, hit) || old(isTransitioning) ==>
        currentObject == old(currentObject) && currentState == old(currentState) &&
        isTransitioning == old(isTransitioning) && tween == old(tween) && original == old(original) &&
        originalParent == old(originalParent) && hiddenObjects == old(hiddenObjects) && overlay == old(overlay) &&
        tweenTarget == old(tweenTarget) && rendererEnabled[..] == old(rendererEnabled[..])
    {
      var inputDown := false;
      if standalone {
        if mouseDown {
          inputDown := true;
        }
      } else {
        if |touches| > 0 && touches[0].phase == Began {
          inputDown := true;
        }
      }
      if !inputDown {
        return;
      }
      if settings.ignoreUIClicks && eventSystem && overUI {
        return;
      }
      if hit.Some? && hit.value.inspectable {
        InspectObject(Some(hit.value.obj), hit.value.pose, hit.value.parent, cam);
      }
    }

    /** `Update`: selection runs only in the normal view and rotation only while
        inspecting, both only outside a transition. */
    method Update(standalone: bool, mouseDown: bool, mouseHeld: bool, mouseUp: bool, mousePosition: Vec2,
                  touches: seq<Touch>, overUI: bool, eventSystem: bool, hit: Option<Hit>, cam: CameraFrame, dt: real)
      requires Valid()
      modifies this, rendererEnabled
      ensures Valid()
      ensures old(isTransitioning) ==>
        currentState == old(currentState) && currentObject == old(currentObject) && isTransitioning &&
        targetRotation == old(targetRotation) && isDragging == old(isDragging) &&
        rendererEnabled[..] == old(rendererEnabled[..]) && tween == old(tween) && tweenTarget == old(tweenTarget) &&
        overlay == old(overlay) && original == old(original) && hiddenObjects == old(hiddenObjects)
      ensures old(currentState) == Inspecting && !old(isTransitioning) ==>
        currentState == Inspecting && currentObject == old(currentObject) && !isTransitioning &&
        original == old(original) && hiddenObjects == old(hiddenObjects) &&
        rendererEnabled[..] == old(rendererEnabled[..]) && tween == old(tween) && tweenTarget == old(tweenTarget) &&
        overlay == old(overlay)
      ensures old(currentState) == Inspecting && !old(isTransitioning) ==>
        DragState() == if standalone
          then MouseDrag(old(DragState()), settings, true, overUI && eventSystem, mouseDown, mouseHeld, mouseUp,
                         mousePosition, dt)
          else TouchDrag(old(DragState()), settings, true, touches, overUI, eventSystem, dt)
      ensures old(currentState) == NormalView && !old(isTransitioning) ==>
        targetRotation == old(targetRotation) && isDragging == old(isDragging)
      ensures old(currentState) == NormalView && !old(isTransitioning) &&
              Selects(standalone, mouseDown, touches, overUI, eventSystem, hit) ==>
        var h := hit.value;
        currentObject == Some(h.obj) && currentState == Inspecting && isTransitioning && tween == Entering(h.obj) &&
        original == h.pose && originalParent == h.parent && overlay == EnterOverlay(old(overlay)) &&
        tweenTarget == Pose(InspectionPoint(cam, settings.inspectionOffset), Vec3(0.0, 0.0, 0.0),
                            Times(h.pose.scale, settings.inspectionScale)) &&
        (settings.hideOtherObjects ==>
           rendererEnabled[..] == AfterHide(old(rendererEnabled[..]), Hides(h.obj)) &&
           hiddenObjects == HiddenList(Hides(h.obj))) &&
        (!settings.hideOtherObjects ==>
           rendererEnabled[..] == old(rendererEnabled[..]) && hiddenObjects == old(hiddenObjects))
      ensures old(currentState) == NormalView && !old(isTransitioning) &&
              !Selects(standalone, mouseDown, touches, overUI, eventSystem, hit) ==>
        currentObject == old(currentObject) && currentState == NormalView && !isTransitioning &&
        original == old(original) && hiddenObjects == old(hiddenObjects) && overlay == old(overlay) &&
        rendererEnabled[..] == old(rendererEnabled[..]) && tween == old(tween) && tweenTarget == old(tweenTarget)
    {
      if currentState == NormalView && !isTransitioning {
        HandleObjectSelection(standalone, mouseDown, touches, overUI, eventSystem, hit, cam);
      }
      if currentState == Inspecting && !isTransitioning {
        if currentObject.Some? {
          if standalone {
            HandleMouseRotation(overUI && eventSystem, mouseDown, mouseHeld, mouseUp, mousePosition, dt);
          } else {
            HandleTouchRotation(touches, overUI, eventSystem, dt);
          }
        }
      }
    }
  }
}
