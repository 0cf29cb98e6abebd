/** The decisions of `DirtPainter`: whether a frame's pointer input leads to a
    paint call on the `DirtPaintable` under the pointer, and with which arguments.
    It is active only while the object inspection is showing an object (when so
    configured); on desktop builds it follows the mouse, elsewhere the first
    touch. In continuous mode it paints while the pointer is held down; otherwise
    only when the pointer is let go. The raycast is a parameter. */
module Painter {
  import opened Engine
  import Inspection

  /** The `Update` gate: `system` is the inspection singleton's state, `None` when
      there is no instance. */
  function Active(onlyWhileInspecting: bool, system: Option<Inspection.GameState>): (r: bool)
    ensures r <==> !onlyWhileInspecting || system == Some(Inspection.Inspecting)
  {
    if onlyWhileInspecting then
      if system.None? || system.value != Inspection.Inspecting then false else true
    else true
  }

  /** One frame of mouse input: button 0 held, button 0 let go this frame, and the
      pointer position. */
  datatype MouseFrame = MouseFrame(pressed: bool, released: bool, position: Vec2)

  /** A call to `TryPaint`: the screen position and its `doIt` argument. */
  datatype PaintRequest = PaintRequest(position: Vec2, doIt: bool)

  /** What the raycast at a screen position finds: the `DirtPaintable` in the
      parents of the collider hit (if any) and the texture coordinate hit. */
  datatype PaintHit = PaintHit(paintable: Option<ObjId>, uv: Vec2)

  /** A `PaintAtUV` call: the paintable, the texture coordinate, radius and
      strength. */
  datatype PaintCall = PaintCall(target: ObjId, uv: Vec2, radius: real, strength: real)

  /** `HandleMouse` as written: no call unless the button is held or let go;
      `doIt` is `pressed && continuous`. */
  function MouseRequestAsWritten(m: MouseFrame, continuous: bool): (r: Option<PaintRequest>)
    ensures r.Some? <==> m.pressed || m.released
    ensures r.Some? ==> r.value.position == m.position && (r.value.doIt <==> m.pressed && continuous)
  {
    if !m.pressed && !m.released then None
    else Some(PaintRequest(m.position, m.pressed && continuous))
  }

  /** As written, a non-continuous painter never paints with the mouse: the only
      frames that reach `TryPaint` say `doIt == false`, the release frame
      included (button let go, no longer held). */
  lemma MouseAsWrittenNeverPaintsOnRelease(m: MouseFrame)
    ensures var r := MouseRequestAsWritten(m, false); r.None? || !r.value.doIt
    ensures MouseRequestAsWritten(MouseFrame(false, true, m.position), false) ==
            Some(PaintRequest(m.position, false))
  {
  }

  /** `HandleMouse` as intended by the tooltip of `continuous` ("paints
      continuously while dragging; else only on release") and as the touch path
      does: while held in continuous mode, on the release frame otherwise. */
  function MouseRequest(m: MouseFrame, continuous: bool): (r: Option<PaintRequest>)
    ensures r.Some? <==> m.pressed || m.released
    ensures r.Some? ==> r.value.position == m.position
    ensures r.Some? && continuous ==> (r.value.doIt <==> m.pressed)
    ensures r.Some? && !continuous ==> (r.value.doIt <==> m.released)
  {
    if !m.pressed && !m.released then None
    else Some(PaintRequest(m.position, if continuous then m.pressed else m.released))
  }

  /** With the intended rule the two modes differ only in when they paint: the
      continuous mode agrees with the code as written, and the non-continuous mode
      paints on a release frame. */
  lemma MouseRequestAgreesWhenContinuous(m: MouseFrame)
    ensures MouseRequest(m, true) == MouseRequestAsWritten(m, true)
    ensures MouseRequest(MouseFrame(false, true, m.position), false) == Some(PaintRequest(m.position, true))
  {
  }

  /** `HandleTouch`: no call without touches; in continuous mode the first touch
      paints while it moves or rests; otherwise there is a call only when it ends,
      and that call paints. */
  function TouchRequest(touches: seq<Touch>, continuous: bool): (r: Option<PaintRequest>)
    ensures |touches| == 0 ==> r.None?
    ensures |touches| > 0 && continuous ==>
      r == Some(PaintRequest(touches[0].position, touches[0].phase == Moved || touches[0].phase == Stationary))
    ensures |touches| > 0 && !continuous ==>
      (r.Some? <==> touches[0].phase == Ended) && (r.Some? ==> r.value == PaintRequest(touches[0].position, true))
  {
    if |touches| == 0 then None
    else
      var t := touches[0];
      var doPaint := t.phase == Moved || t.phase == Stationary;
      if !continuous && t.phase != Ended then None
      else Some(PaintRequest(t.position, if continuous then doPaint else true))
  }

  /** `TryPaint`: nothing unless `doIt`, the ray hits something, and what it hits
      has a paintable parent; then the paintable is painted at the texture
      coordinate hit with the configured radius and strength. */
  function TryPaint(req: PaintRequest, raycast: Vec2 -> Option<PaintHit>, brushRadiusUV: real, brushStrength: real)
    : (r: Option<PaintCall>)
    ensures r.Some? <==> req.doIt && raycast(req.position).Some? && raycast(req.position).value.paintable.Some?
    ensures r.Some? ==>
      r.value.target == raycast(req.position).value.paintable.value &&
      r.value.uv == raycast(req.position).value.uv &&
      r.value.radius == brushRadiusUV && r.value.strength == brushStrength
  {
    if !req.doIt then None
    else
      match raycast(req.position)
      case None => None
      case Some(hit) =>
        if hit.paintable.None? then None
        else Some(PaintCall(hit.paintable.value, hit.uv, brushRadiusUV, brushStrength))
  }

  /** The painter's settings. */
  datatype Settings = Settings(onlyWhileInspecting: bool, brushRadiusUV: real, brushStrength: real,
                               continuous: bool)

  /** `Update` as written: the gate, then the mouse on desktop builds
      (`standalone`) or the touches elsewhere, then `TryPaint`. */
  function Update(s: Settings, system: Option<Inspection.GameState>, standalone: bool, mouse: MouseFrame,
                  touches: seq<Touch>, raycast: Vec2 -> Option<PaintHit>): (r: Option<PaintCall>)
    ensures r.Some? ==> Active(s.onlyWhileInspecting, system)
    ensures r.Some? ==> r.value.radius == s.brushRadiusUV && r.value.strength == s.brushStrength
    ensures r.Some? && standalone ==> s.continuous && mouse.pressed
    ensures r.Some? && !standalone ==>
      |touches| > 0 &&
      (if s.continuous then touches[0].phase == Moved || touches[0].phase == Stationary
       else touches[0].phase == Ended)
  {
    if !Active(s.onlyWhileInspecting, system) then None
    else
      var req := if standalone then MouseRequestAsWritten(mouse, s.continuous) else TouchRequest(touches, s.continuous);
      if req.None? then None
      else TryPaint(req.value, raycast, s.brushRadiusUV, s.brushStrength)
  }

  /** `Update` with the intended mouse rule. */
  function UpdateIntended(s: Settings, system: Option<Inspection.GameState>, standalone: bool, mouse: MouseFrame,
                          touches: seq<Touch>, raycast: Vec2 -> Option<PaintHit>): (r: Option<PaintCall>)
    ensures r.Some? ==> Active(s.onlyWhileInspecting, system)
    ensures r.Some? ==> r.value.radius == s.brushRadiusUV && r.value.strength == s.brushStrength
    ensures r.Some? && standalone ==> (if s.continuous then mouse.pressed else mouse.released)
    ensures r.Some? && !standalone ==>
      |touches| > 0 &&
      (if s.continuous then touches[0].phase == Moved || touches[0].phase == Stationary
       else touches[0].phase == Ended)
  {
    if !Active(s.onlyWhileInspecting, system) then None
    else
      var req := if standalone then MouseRequest(mouse, s.continuous) else TouchRequest(touches, s.continuous);
      if req.None? then None
      else TryPaint(req.value, raycast, s.brushRadiusUV, s.brushStrength)
  }

  /** The two rules agree except for the mouse of a non-continuous painter, and
      there they differ on every release frame over a paintable: as written
      nothing is painted, as intended the paintable under the pointer is. */
  lemma UpdateAsWrittenMissesRelease(s: Settings, system: Option<Inspection.GameState>, standalone: bool,
                                     mouse: MouseFrame, touches: seq<Touch>, raycast: Vec2 -> Option<PaintHit>)
    ensures s.continuous || !standalone ==>
      Update(s, system, standalone, mouse, touches, raycast) == UpdateIntended(s, system, standalone, mouse, touches, raycast)
    ensures !s.continuous && standalone && Active(s.onlyWhileInspecting, system) &&
            !mouse.pressed && mouse.released &&
            raycast(mouse.position).Some? && raycast(mouse.position).value.paintable.Some? ==>
      Update(s, system, standalone, mouse, touches, raycast).None? &&
      UpdateIntended(s, system, standalone, mouse, touches, raycast) ==
        Some(PaintCall(raycast(mouse.position).value.paintable.value, raycast(mouse.position).value.uv,
                       s.brushRadiusUV, s.brushStrength))
  {
    if s.continuous && standalone {
      MouseRequestAgreesWhenContinuous(mouse);
    }
  }

  /** Outside an inspection a painter restricted to inspections never paints,
      whatever the input. */
  lemma NoPaintOutsideInspection(s: Settings, system: Option<Inspection.GameState>, standalone: bool,
                                 mouse: MouseFrame, touches: seq<Touch>, raycast: Vec2 -> Option<PaintHit>)
    requires s.onlyWhileInspecting && system != Some(Inspection.Inspecting)
    ensures Update(s, system, standalone, mouse, touches, raycast).None?
  {
  }
}
