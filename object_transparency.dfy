/** `ObjectTransparencyOnTouch`: a tap on the object (while the camera is locked)
    toggles it between see-through and its original look. Going see-through gives
    every material of every child renderer the configured alpha and an
    alpha-blended render mode and switches off the object's colliders; going back
    writes back the colors captured at `Awake`, an opaque render mode, and switches
    the colliders on again. Raycasts and the reflective read of the camera
    controller's `controlsEnabled` are inputs. */
module Transparency {
  import opened Engine
  import opened Cleaner

  datatype Color = Color(r: real, g: real, b: real, a: real)

  /** One material: its color, and whether its render mode is the alpha-blended one
      (`SetMaterialTransparent`) rather than the opaque one (`SetMaterialOpaque`). */
  datatype Material = Material(color: Color, blended: bool)

  /** The colors of a renderer's materials, in order. */
  function ColorsOf(ms: seq<Material>): (cs: seq<Color>)
    ensures |cs| == |ms|
    ensures forall i :: 0 <= i < |ms| ==> cs[i] == ms[i].color
  {
    seq(|ms|, i requires 0 <= i < |ms| => ms[i].color)
  }

  /** A renderer's materials after `MakeTransparent`: the same red, green and blue,
      alpha `alpha`, alpha-blended. */
  function Faded(ms: seq<Material>, alpha: real): (fs: seq<Material>)
    ensures |fs| == |ms|
    ensures forall i :: 0 <= i < |ms| ==>
      fs[i].blended && fs[i].color.a == alpha &&
      fs[i].color.r == ms[i].color.r && fs[i].color.g == ms[i].color.g && fs[i].color.b == ms[i].color.b
  {
    seq(|ms|, i requires 0 <= i < |ms| => Material(ms[i].color.(a := alpha), true))
  }

  /** A renderer's materials after `Restore`: the captured colors, opaque. */
  function Restored(ms: seq<Material>, cols: seq<Color>): (rs: seq<Material>)
    requires |cols| == |ms|
    ensures |rs| == |ms|
    ensures forall i :: 0 <= i < |ms| ==> rs[i].color == cols[i] && !rs[i].blended
  {
    seq(|ms|, i requires 0 <= i < |ms| => Material(cols[i], false))
  }

  /** Every captured renderer has materials, as many as were captured. */
  predicate Matches(materials: map<ObjId, seq<Material>>, original: map<ObjId, seq<Color>>) {
    forall r :: r in original ==> r in materials && |original[r]| == |materials[r]|
  }

  /** `MakeTransparent` over all renderers: the captured ones are faded, the others
      untouched. */
  function FadeAll(materials: map<ObjId, seq<Material>>, captured: set<ObjId>, alpha: real)
    : (m: map<ObjId, seq<Material>>)
    ensures m.Keys == materials.Keys
    ensures forall r :: r in materials ==> m[r] == if r in captured then Faded(materials[r], alpha) else materials[r]
  {
    map r | r in materials :: if r in captured then Faded(materials[r], alpha) else materials[r]
  }

  /** `Restore` over all renderers: the captured ones among `keys` get their
      captured colors back, the others are untouched. */
  function RestoreAll(materials: map<ObjId, seq<Material>>, original: map<ObjId, seq<Color>>, keys: set<ObjId>)
    : (m: map<ObjId, seq<Material>>)
    requires Matches(materials, original)
    ensures m.Keys == materials.Keys
    ensures forall r :: r in materials ==>
      m[r] == if r in keys && r in original then Restored(materials[r], original[r]) else materials[r]
  {
    map r | r in materials :: if r in keys && r in original then Restored(materials[r], original[r]) else materials[r]
  }

  /** Fading one more renderer extends the faded map by that renderer. */
  lemma FadeAllStep(materials: map<ObjId, seq<Material>>, done: set<ObjId>, r: ObjId, alpha: real)
    requires r in materials && r !in done
    ensures FadeAll(materials, done + {r}, alpha) == FadeAll(materials, done, alpha)[r := Faded(materials[r], alpha)]
  {
    var a := FadeAll(materials, done + {r}, alpha);
    var b := FadeAll(materials, done, alpha)[r := Faded(materials[r], alpha)];
    assert a.Keys == b.Keys;
    assert forall q :: q in a ==> a[q] == b[q];
  }

  /** Restoring one more renderer extends the restored map by that renderer. */
  lemma RestoreAllStep(materials: map<ObjId, seq<Material>>, original: map<ObjId, seq<Color>>, done: set<ObjId>,
                       r: ObjId)
    requires Matches(materials, original) && r in original && r !in done
    ensures RestoreAll(materials, original, done + {r}) ==
            RestoreAll(materials, original, done)[r := Restored(materials[r], original[r])]
  {
    var a := RestoreAll(materials, original, done + {r});
    var b := RestoreAll(materials, original, done)[r := Restored(materials[r], original[r])];
    assert a.Keys == b.Keys;
    assert forall q :: q in a ==> a[q] == b[q];
  }

  /** Capturing one more renderer extends the captured map by that renderer. */
  lemma CapturedStep(materials: map<ObjId, seq<Material>>, renderers: seq<ObjId>, r: ObjId)
    requires r in materials
    ensures Captured(materials, renderers + [r]) == Captured(materials, renderers)[r := ColorsOf(materials[r])]
  {
    var a := Captured(materials, renderers + [r]);
    var b := Captured(materials, renderers)[r := ColorsOf(materials[r])];
    assert a.Keys == b.Keys;
  }

  /** The colors `Awake` captures: one per material, for every child renderer. */
  function Captured(materials: map<ObjId, seq<Material>>, renderers: seq<ObjId>): (c: map<ObjId, seq<Color>>)
    ensures forall r :: r in c <==> r in materials && r in renderers
    ensures forall r :: r in c ==> c[r] == ColorsOf(materials[r])
  {
    map r | r in materials && r in renderers :: ColorsOf(materials[r])
  }

  /** The captured colors match the materials they were captured from. */
  lemma CapturedMatches(materials: map<ObjId, seq<Material>>, renderers: seq<ObjId>)
    ensures Matches(materials, Captured(materials, renderers))
  {
  }

  /** Fading does not change which renderers there are or how many materials each
      has, so the captured colors still match. */
  lemma FadeKeepsMatch(materials: map<ObjId, seq<Material>>, original: map<ObjId, seq<Color>>, alpha: real)
    requires Matches(materials, original)
    ensures Matches(FadeAll(materials, original.Keys, alpha), original)
  {
  }

  /** Restoring does not change which renderers there are or how many materials
      each has. */
  lemma RestoreKeepsMatch(materials: map<ObjId, seq<Material>>, original: map<ObjId, seq<Color>>, keys: set<ObjId>)
    requires Matches(materials, original)
    ensures Matches(RestoreAll(materials, original, keys), original)
  {
  }

  /** Round trip: capturing the colors, fading, then restoring gives every captured
      renderer its original colors back, opaque; the other renderers keep theirs. */
  lemma FadeRestoreRoundTrip(materials: map<ObjId, seq<Material>>, renderers: seq<ObjId>, alpha: real)
    ensures var original := Captured(materials, renderers);
      Matches(FadeAll(materials, original.Keys, alpha), original) &&
      var back := RestoreAll(FadeAll(materials, original.Keys, alpha), original, original.Keys);
      back.Keys == materials.Keys &&
      forall r :: r in materials ==>
        ColorsOf(back[r]) == ColorsOf(materials[r]) &&
        (r in original ==> forall i :: 0 <= i < |back[r]| ==> !back[r][i].blended) &&
        (r !in original ==> back[r] == materials[r])
  {
    var original := Captured(materials, renderers);
    CapturedMatches(materials, renderers);
    FadeKeepsMatch(materials, original, alpha);
    var back := RestoreAll(FadeAll(materials, original.Keys, alpha), original, original.Keys);
    forall r | r in materials
      ensures ColorsOf(back[r]) == ColorsOf(materials[r])
    {
    }
  }

  /** `FadeAll` is idempotent on the captured renderers' colors and modes, so a
      second `MakeTransparent` would change nothing even without its guard. */
  lemma FadeIdempotent(materials: map<ObjId, seq<Material>>, captured: set<ObjId>, alpha: real)
    ensures FadeAll(FadeAll(materials, captured, alpha), captured, alpha) == FadeAll(materials, captured, alpha)
  {
    var once := FadeAll(materials, captured, alpha);
    forall r | r in materials && r in captured
      ensures Faded(once[r], alpha) == once[r]
    {
      var f := once[r];
      assert forall i :: 0 <= i < |f| ==> Faded(f, alpha)[i] == f[i];
    }
  }

  /** Collider `enabled` flags after switching every still existing one to `on`. */
  function Switched(flags: seq<bool>, present: seq<bool>, on: bool): (r: seq<bool>)
    requires |flags| == |present|
    ensures |r| == |flags|
  {
    seq(|flags|, k requires 0 <= k < |flags| => if present[k] then on else flags[k])
  }

  /** Switching twice is switching once, the second way: the last switch wins. */
  lemma SwitchLastWins(flags: seq<bool>, present: seq<bool>, a: bool, b: bool)
    requires |flags| == |present|
    ensures Switched(Switched(flags, present, a), present, b) == Switched(flags, present, b)
  {
  }

  /** Everything a tap changes: the materials, the 3D and 2D collider flags and
      `isTransparent`. */
  datatype Look = Look(materials: map<ObjId, seq<Material>>, colliders: seq<bool>, colliders2D: seq<bool>,
                       transparent: bool)

  /** No collider of a list that still exists is enabled. */
  predicate AllOff(flags: seq<bool>, present: seq<bool>) {
    forall k :: 0 <= k < |flags| && k < |present| && present[k] ==> !flags[k]
  }

  /** The colliders of both lists are as long as their presence lists, the
      captured colors match the materials, and a see-through object has every
      existing collider switched off. */
  predicate Fits(l: Look, original: map<ObjId, seq<Color>>, present: seq<bool>, present2D: seq<bool>) {
    Matches(l.materials, original) && |l.colliders| == |present| && |l.colliders2D| == |present2D| &&
    (l.transparent ==> AllOff(l.colliders, present) && AllOff(l.colliders2D, present2D))
  }

  /** The look after `ToggleTransparency`: an opaque object fades and loses its
      colliders; a see-through one gets its captured colors, the opaque mode and
      its colliders back. */
  function Toggled(l: Look, original: map<ObjId, seq<Color>>, alpha: real, present: seq<bool>, present2D: seq<bool>)
    : (r: Look)
    requires Fits(l, original, present, present2D)
    ensures Fits(r, original, present, present2D) && r.transparent == !l.transparent
  {
    FadeKeepsMatch(l.materials, original, alpha);
    RestoreKeepsMatch(l.materials, original, original.Keys);
    if l.transparent
    then Look(RestoreAll(l.materials, original, original.Keys), Switched(l.colliders, present, true),
              Switched(l.colliders2D, present2D, true), false)
    else Look(FadeAll(l.materials, original.Keys, alpha), Switched(l.colliders, present, false),
              Switched(l.colliders2D, present2D, false), true)
  }

  /** What a screen point's ray (or 2D overlap query) reaches, nearest first:
      collider `k` of this object's list, or a collider of some other object. */
  datatype Target = Own(k: int) | Other

  /** What `IsTouched` queries at one screen point: whether there is a main
      camera, what the 3D ray reaches, and what the 2D overlap at the point
      reaches. */
  datatype Probe = Probe(hasCamera: bool, ray: seq<Target>, overlap: seq<Target>)

  /** The physics query answers with the first target whose collider is enabled
      (a disabled or destroyed collider is not seen); this holds when that is one
      of this object's colliders. */
  predicate FirstHitOwn(ts: seq<Target>, flags: seq<bool>, present: seq<bool>)
    decreases |ts|
  {
    |ts| > 0 &&
    match ts[0]
    case Other => false
    case Own(k) =>
      if 0 <= k < |flags| && k < |present| && present[k] && flags[k] then true
      else FirstHitOwn(ts[1..], flags, present)
  }

  /** `IsTouched` against the colliders as they are at the moment of the query:
      with a main camera, the 3D ray or else the 2D overlap lands on the object. */
  predicate Touched(pr: Probe, l: Look, present: seq<bool>, present2D: seq<bool>) {
    pr.hasCamera &&
    (FirstHitOwn(pr.ray, l.colliders, present) || FirstHitOwn(pr.overlap, l.colliders2D, present2D))
  }

  /** A query never lands on an object whose existing colliders are all off. */
  lemma {:induction false} AllOffMisses(ts: seq<Target>, flags: seq<bool>, present: seq<bool>)
    requires AllOff(flags, present)
    ensures !FirstHitOwn(ts, flags, present)
    decreases |ts|
  {
    if |ts| > 0 && ts[0].Own? {
      AllOffMisses(ts[1..], flags, present);
    }
  }

  /** A see-through object cannot be touched, wherever the tap lands. */
  lemma SeeThroughIsUntouchable(pr: Probe, l: Look, original: map<ObjId, seq<Color>>, present: seq<bool>,
                                present2D: seq<bool>)
    requires Fits(l, original, present, present2D) && l.transparent
    ensures !Touched(pr, l, present, present2D)
  {
    AllOffMisses(pr.ray, l.colliders, present);
    AllOffMisses(pr.overlap, l.colliders2D, present2D);
  }

  /** The look after one frame of `Update`: nothing while the camera forbids it;
      a mouse press that touches the object toggles it; then a touch beginning on
      the object toggles it, the touch query seeing the colliders as the mouse
      toggle left them. */
  function Tapped(l: Look, original: map<ObjId, seq<Color>>, alpha: real, present: seq<bool>, present2D: seq<bool>,
                  allowed: bool, mouseDown: bool, mouseProbe: Probe, touchBegan: bool, touchProbe: Probe): (r: Look)
    requires Fits(l, original, present, present2D)
    ensures Fits(r, original, present, present2D)
  {
    if !allowed then l
    else
      var l1 := if mouseDown && Touched(mouseProbe, l, present, present2D)
                then Toggled(l, original, alpha, present, present2D) else l;
      if touchBegan && Touched(touchProbe, l1, present, present2D)
      then Toggled(l1, original, alpha, present, present2D) else l1
  }

  /** Taps never bring a see-through object back: its colliders are off, so
      neither query lands on it. */
  lemma SeeThroughStaysSeeThrough(l: Look, original: map<ObjId, seq<Color>>, alpha: real, present: seq<bool>,
                                  present2D: seq<bool>, allowed: bool, mouseDown: bool, mouseProbe: Probe,
                                  touchBegan: bool, touchProbe: Probe)
    requires Fits(l, original, present, present2D) && l.transparent
    ensures Tapped(l, original, alpha, present, present2D, allowed, mouseDown, mouseProbe, touchBegan, touchProbe) == l
  {
    SeeThroughIsUntouchable(mouseProbe, l, original, present, present2D);
    SeeThroughIsUntouchable(touchProbe, l, original, present, present2D);
  }

  /** A tap that raises both a mouse press and a beginning touch at the same point
      (the engine's mouse emulation of touches) fades an opaque object once: the
      touch query comes after the fade and misses. */
  lemma EmulatedTapFades(l: Look, original: map<ObjId, seq<Color>>, alpha: real, present: seq<bool>,
                         present2D: seq<bool>, pr: Probe)
    requires Fits(l, original, present, present2D) && !l.transparent && Touched(pr, l, present, present2D)
    ensures Tapped(l, original, alpha, present, present2D, true, true, pr, true, pr) ==
            Toggled(l, original, alpha, present, present2D)
    ensures Tapped(l, original, alpha, present, present2D, true, true, pr, true, pr).transparent
  {
    var l1 := Toggled(l, original, alpha, present, present2D);
    SeeThroughIsUntouchable(pr, l1, original, present, present2D);
  }

  /** The object shows exactly its captured colors, opaque, and every collider
      still existing is on. */
  predicate AtRest(l: Look, original: map<ObjId, seq<Color>>, present: seq<bool>, present2D: seq<bool>)
    requires Fits(l, original, present, present2D)
  {
    !l.transparent &&
    (forall r, i :: r in original && 0 <= i < |original[r]| ==> l.materials[r][i] == Material(original[r][i], false)) &&
    (forall k :: 0 <= k < |present| && present[k] ==> l.colliders[k]) &&
    (forall k :: 0 <= k < |present2D| && present2D[k] ==> l.colliders2D[k])
  }

  /** Tapping twice from rest gives the whole look back: materials, colliders and
      flag. */
  lemma ToggleTwiceRestores(l: Look, original: map<ObjId, seq<Color>>, alpha: real, present: seq<bool>,
                            present2D: seq<bool>)
    requires Fits(l, original, present, present2D) && AtRest(l, original, present, present2D)
    ensures Toggled(Toggled(l, original, alpha, present, present2D), original, alpha, present, present2D) == l
  {
    var f := Toggled(l, original, alpha, present, present2D);
    var b := Toggled(f, original, alpha, present, present2D);
    assert b.materials.Keys == l.materials.Keys;
    forall r | r in l.materials
      ensures b.materials[r] == l.materials[r]
    {
      if r in original {
        assert |b.materials[r]| == |l.materials[r]|;
        assert forall i :: 0 <= i < |l.materials[r]| ==> b.materials[r][i] == l.materials[r][i];
      }
    }
    assert b.colliders == l.colliders;
    assert b.colliders2D == l.colliders2D;
  }

  class ObjectTransparencyOnTouch {
    const transparentAlpha: real
    /** The camera controller set on the component, if any, and whether
        interaction waits for a locked camera. */
    const cameraController: Option<ObjId>
    const onlyWhenCameraLocked: bool
    /** The child renderers, in hierarchy order, and every renderer's materials. */
    const renderers: seq<ObjId>
    var materials: map<ObjId, seq<Material>>
    /** The `enabled` flags of the child colliders (3D and 2D), and which of them
        still exist (a destroyed collider compares equal to null and is skipped). */
    const colliderEnabled: array<bool>
    const colliderPresent: seq<bool>
    const collider2DEnabled: array<bool>
    const collider2DPresent: seq<bool>
    var originalColors: map<ObjId, seq<Color>>
    var isTransparent: bool

    ghost predicate Valid()
      reads this, colliderEnabled, collider2DEnabled
    {
      colliderEnabled != collider2DEnabled &&
      colliderEnabled.Length == |colliderPresent| && collider2DEnabled.Length == |collider2DPresent| &&
      Fits(CurrentLook(), originalColors, colliderPresent, collider2DPresent)
    }

    /** What a tap changes. */
    function CurrentLook(): Look
      reads this, colliderEnabled, collider2DEnabled
    {
      Look(materials, colliderEnabled[..], collider2DEnabled[..], isTransparent)
    }

    /** The inspector values, the scene's renderers and colliders, and the field
        initialisers. */
    constructor (transparentAlpha: real, cameraController: Option<ObjId>, onlyWhenCameraLocked: bool,
                 renderers: seq<ObjId>, materials: map<ObjId, seq<Material>>,
                 colliderEnabled: array<bool>, colliderPresent: seq<bool>,
                 collider2DEnabled: array<bool>, collider2DPresent: seq<bool>)
      requires colliderEnabled != collider2DEnabled
      requires colliderEnabled.Length == |colliderPresent| && collider2DEnabled.Length == |collider2DPresent|
      ensures Valid()
      ensures this.transparentAlpha == transparentAlpha && this.cameraController == cameraController
      ensures this.onlyWhenCameraLocked == onlyWhenCameraLocked && this.renderers == renderers
      ensures this.materials == materials
      ensures this.colliderEnabled == colliderEnabled && this.colliderPresent == colliderPresent
      ensures this.collider2DEnabled == collider2DEnabled && this.collider2DPresent == collider2DPresent
      ensures originalColors == map[] && !isTransparent
    {
      this.transparentAlpha := transparentAlpha;
      this.cameraController := cameraController;
      this.onlyWhenCameraLocked := onlyWhenCameraLocked;
      this.renderers := renderers;
      this.materials := materials;
      this.colliderEnabled := colliderEnabled;
      this.colliderPresent := colliderPresent;
      this.collider2DEnabled := collider2DEnabled;
      this.collider2DPresent := collider2DPresent;
      originalColors := map[];
      isTransparent := false;
    }

    /** The inner loop of `Awake`: a new array with the color of each material. */
    static method CaptureColors(ms: seq<Material>) returns (cols: seq<Color>)
      ensures cols == ColorsOf(ms)
    {
      var a := new Color[|ms|];
      for i := 0 to |ms|
        invariant forall k :: 0 <= k < i ==> a[k] == ms[k].color
      {
        a[i] := ms[i].color;
      }
      cols := a[..];
    }

    /** The inner loop of `MakeTransparent` over one renderer's materials: each
        keeps its red, green and blue, takes alpha `alpha` and the blended mode. */
    static method FadeMaterials(ms: seq<Material>, alpha: real) returns (out: seq<Material>)
      ensures out == Faded(ms, alpha)
    {
      out := ms;
      for i := 0 to |ms|
        invariant |out| == |ms|
        invariant forall k :: 0 <= k < i ==> out[k] == Material(ms[k].color.(a := alpha), true)
        invariant forall k :: i <= k < |ms| ==> out[k] == ms[k]
      {
        var c := out[i].color;
        c := c.(a := alpha);
        out := out[i := Material(c, true)];
      }
    }

    /** The inner loop of `Restore` over one renderer's materials: each gets its
        captured color back and the opaque mode. */
    static method RestoreMaterials(ms: seq<Material>, cols: seq<Color>) returns (out: seq<Material>)
      requires |cols| == |ms|
      ensures out == Restored(ms, cols)
    {
      out := ms;
      for i := 0 to |ms|
        invariant |out| == |ms|
        invariant forall k :: 0 <= k < i ==> out[k] == Material(cols[k], false)
        invariant forall k :: i <= k < |ms| ==> out[k] == ms[k]
      {
        out := out[i := Material(cols[i], false)];
      }
    }

    /** `Awake`: records one color per material for every child renderer. */
    method Awake()
      requires Valid()
      requires forall j :: 0 <= j < |renderers| ==> renderers[j] in materials
      modifies this`originalColors
      ensures Valid()
      ensures originalColors == old(originalColors) + Captured(materials, renderers)
    {
      var j := 0;
      ghost var start := originalColors;
      while j < |renderers|
        invariant 0 <= j <= |renderers|
        invariant originalColors == start + Captured(materials, renderers[..j])
        invariant Matches(materials, originalColors)
      {
        var r := renderers[j];
        var ms := materials[r];
        var cols := CaptureColors(ms);
        CapturedStep(materials, renderers[..j], r);
        assert renderers[..j + 1] == renderers[..j] + [r];
        ghost var sofar := Captured(materials, renderers[..j]);
        assert (start + sofar)[r := cols] == start + sofar[r := cols];
        originalColors := originalColors[r := cols];
        j := j + 1;
      }
      assert renderers[..j] == renderers;
    }

    /** `CameraAllowsInteraction`: `controlsField` is what reading the controller's
        public `controlsEnabled` field gives, `None` when it has no such field. */
    function CameraAllowsInteraction(controlsField: Option<bool>): (r: bool)
      reads this
      ensures !r <==> onlyWhenCameraLocked && cameraController.Some? && controlsField == Some(true)
    {
      if !onlyWhenCameraLocked || cameraController.None? then true
      else if controlsField.None? then true
      else !controlsField.value
    }

    /** Switches every still existing collider of one list on or off. */
    method SetColliders(flags: array<bool>, present: seq<bool>, on: bool)
      requires flags.Length == |present|
      modifies flags
      ensures forall k :: 0 <= k < flags.Length ==> flags[k] == if present[k] then on else old(flags[k])
    {
      for k := 0 to flags.Length
        invariant forall m :: 0 <= m < k ==> flags[m] == if present[m] then on else old(flags[m])
        invariant forall m :: k <= m < flags.Length ==> flags[m] == old(flags[m])
      {
        if present[k] {
          flags[k] := on;
        }
      }
    }

    /** `MakeTransparent`: nothing when already see-through; otherwise every captured
        renderer's materials are faded, the colliders switched off. */
    method MakeTransparent()
      requires Valid()
      modifies this`materials, this`isTransparent, colliderEnabled, collider2DEnabled
      ensures Valid() && isTransparent
      ensures old(isTransparent) ==>
        materials == old(materials) && colliderEnabled[..] == old(colliderEnabled[..]) &&
        collider2DEnabled[..] == old(collider2DEnabled[..])
      ensures !old(isTransparent) ==> materials == FadeAll(old(materials), originalColors.Keys, transparentAlpha)
      ensures !old(isTransparent) ==>
        (forall k :: 0 <= k < colliderEnabled.Length ==>
           colliderEnabled[k] == (old(colliderEnabled[k]) && !colliderPresent[k])) &&
        (forall k :: 0 <= k < collider2DEnabled.Length ==>
           collider2DEnabled[k] == (old(collider2DEnabled[k]) && !collider2DPresent[k]))
    {
      if isTransparent {
        return;
      }
      var pending := originalColors.Keys;
      while pending != {}
        invariant pending <= originalColors.Keys
        invariant materials == FadeAll(old(materials), originalColors.Keys - pending, transparentAlpha)
        invariant unchanged(colliderEnabled) && unchanged(collider2DEnabled)
        decreases pending
      {
        var r :| r in pending;
        FadeAllStep(old(materials), originalColors.Keys - pending, r, transparentAlpha);
        assert originalColors.Keys - (pending - {r}) == (originalColors.Keys - pending) + {r};
        var ms := FadeMaterials(materials[r], transparentAlpha);
        materials := materials[r := ms];
        pending := pending - {r};
      }
      assert originalColors.Keys - pending == originalColors.Keys;
      FadeKeepsMatch(old(materials), originalColors, transparentAlpha);
      SetColliders(colliderEnabled, colliderPresent, false);
      SetColliders(collider2DEnabled, collider2DPresent, false);
      isTransparent := true;
    }

    /** `Restore`: nothing when already opaque; otherwise every captured renderer's
        materials get their captured colors back, opaque, and the colliders are
        switched on. */
    method Restore()
      requires Valid()
      modifies this`materials, this`isTransparent, colliderEnabled, collider2DEnabled
      ensures Valid() && !isTransparent
      ensures !old(isTransparent) ==>
        materials == old(materials) && colliderEnabled[..] == old(colliderEnabled[..]) &&
        collider2DEnabled[..] == old(collider2DEnabled[..])
      ensures old(isTransparent) ==> materials == RestoreAll(old(materials), originalColors, originalColors.Keys)
      ensures old(isTransparent) ==>
        (forall k :: 0 <= k < colliderEnabled.Length ==>
           colliderEnabled[k] == (old(colliderEnabled[k]) || colliderPresent[k])) &&
        (forall k :: 0 <= k < collider2DEnabled.Length ==>
           collider2DEnabled[k] == (old(collider2DEnabled[k]) || collider2DPresent[k]))
    {
      if !isTransparent {
        return;
      }
      var pending := originalColors.Keys;
      while pending != {}
        invariant pending <= originalColors.Keys
        invariant Matches(old(materials), originalColors)
        invariant materials == RestoreAll(old(materials), originalColors, originalColors.Keys - pending)
        invariant unchanged(colliderEnabled) && unchanged(collider2DEnabled)
        decreases pending
      {
        var r :| r in pending;
        RestoreAllStep(old(materials), originalColors, originalColors.Keys - pending, r);
        assert originalColors.Keys - (pending - {r}) == (originalColors.Keys - pending) + {r};
        var ms := RestoreMaterials(materials[r], originalColors[r]);
        materials := materials[r := ms];
        pending := pending - {r};
      }
      assert originalColors.Keys - pending == originalColors.Keys;
      RestoreKeepsMatch(old(materials), originalColors, originalColors.Keys);
      SetColliders(colliderEnabled, colliderPresent, true);
      SetColliders(collider2DEnabled, collider2DPresent, true);
      isTransparent := false;
    }

    /** `ToggleTransparency`. */
    method ToggleTransparency()
      requires Valid()
      modifies this`materials, this`isTransparent, colliderEnabled, collider2DEnabled
      ensures Valid()
      ensures CurrentLook() == Toggled(old(CurrentLook()), originalColors, transparentAlpha, colliderPresent,
                                       collider2DPresent)
    {
      if isTransparent {
        Restore();
        assert colliderEnabled[..] == Switched(old(colliderEnabled[..]), colliderPresent, true);
        assert collider2DEnabled[..] == Switched(old(collider2DEnabled[..]), collider2DPresent, true);
      } else {
        MakeTransparent();
        assert colliderEnabled[..] == Switched(old(colliderEnabled[..]), colliderPresent, false);
        assert collider2DEnabled[..] == Switched(old(collider2DEnabled[..]), collider2DPresent, false);
      }
    }

    /** `IsTouched`: the probe answered against the colliders as they are now. */
    function IsTouched(pr: Probe): (r: bool)
      reads this, colliderEnabled, collider2DEnabled
      requires Valid()
      ensures r ==> pr.hasCamera && !isTransparent
    {
      var r := Touched(pr, CurrentLook(), colliderPresent, collider2DPresent);
      if isTransparent then
        SeeThroughIsUntouchable(pr, CurrentLook(), originalColors, colliderPresent, collider2DPresent);
        r
      else r
    }

    /** `Update`: nothing while the camera forbids interaction; a mouse press whose
        point touches the object toggles it, and then so does a touch that begins
        on it, queried after the mouse toggle (`mouseProbe` and `touchProbe` are
        what the physics queries at the two points reach). */
    method Update(controlsField: Option<bool>, mouseDown: bool, mouseProbe: Probe, touches: seq<Touch>,
                  touchProbe: Probe)
      requires Valid()
      modifies this`materials, this`isTransparent, colliderEnabled, collider2DEnabled
      ensures Valid()
      ensures CurrentLook() ==
        Tapped(old(CurrentLook()), originalColors, transparentAlpha, colliderPresent, collider2DPresent,
               CameraAllowsInteraction(controlsField), mouseDown, mouseProbe,
               |touches| > 0 && touches[0].phase == Began, touchProbe)
    {
      if !CameraAllowsInteraction(controlsField) {
        return;
      }
      if mouseDown {
        var hit := IsTouched(mouseProbe);
        if hit {
          ToggleTransparency();
        }
      }
      if |touches| > 0 {
        var t := touches[0];
        if t.phase == Began {
          var hit := IsTouched(touchProbe);
          if hit {
            ToggleTransparency();
          }
        }
      }
    }
  }

  /** The object accepts taps exactly when a dirt cleaner with the same camera
      settings would clean. */
  lemma SameGateAsCleaner(t: ObjectTransparencyOnTouch, c: DirtCleaner, controlsField: Option<bool>)
    requires t.onlyWhenCameraLocked == c.onlyWhenCameraLocked && t.cameraController == c.cameraController
    ensures t.CameraAllowsInteraction(controlsField) == !c.CleaningBlocked(controlsField)
  {
  }
}
