/** The swipe-to-clean registry of `DirtCleaner`: a list of dirt objects, the set
    of those already cleaned, and the press/release state of one pointer. A press
    picks the dirt under the pointer; a release at least `swipeThresholdPixels` away
    horizontally marks it cleaned and starts its shrink tween, whose completion
    destroys it. Raycasts, the UI check and the reflected `controlsEnabled` field of
    the camera controller are inputs. */
module Cleaner {
  import opened Engine

  /** One 3D raycast hit: the transform hit and its distance along the ray. */
  datatype RayHit = RayHit(transform: ObjId, distance: real)

  /** One frame of mouse input: whether the pointer is over UI, button 0 pressed or
      released this frame, the pointer position, and what a pick at that position
      would hit (2D overlaps in engine order, 3D ray hits in engine order). */
  datatype MouseInput = MouseInput(overUI: bool, down: bool, up: bool, position: Vec2,
                                   hits2D: seq<ObjId>, hits3D: seq<RayHit>)

  /** One frame of touch input: the touches, whether the first one is over UI, and
      what a pick at its position would hit. */
  datatype TouchInput = TouchInput(touches: seq<Touch>, overUI: bool,
                                   hits2D: seq<ObjId>, hits3D: seq<RayHit>)

  /** A transform the cleaner may pick: registered and not yet cleaned. */
  predicate Eligible(t: ObjId, items: seq<ObjId>, cleaned: set<ObjId>) {
    t in items && t !in cleaned
  }

  /** The 2D rule: the eligible overlap nearest the END of the list (the engine
      lists the topmost collider last). */
  function LastEligible(hits: seq<ObjId>, items: seq<ObjId>, cleaned: set<ObjId>): Option<ObjId>
    decreases |hits|
  {
    if |hits| == 0 then None
    else if Eligible(hits[|hits| - 1], items, cleaned) then Some(hits[|hits| - 1])
    else LastEligible(hits[..|hits| - 1], items, cleaned)
  }

  /** The 3D rule: the eligible hit of least distance; of equally near hits, the one
      listed first. */
  function Nearest(hits: seq<RayHit>, items: seq<ObjId>, cleaned: set<ObjId>): Option<RayHit>
    decreases |hits|
  {
    if |hits| == 0 then None
    else
      var best := Nearest(hits[..|hits| - 1], items, cleaned);
      var h := hits[|hits| - 1];
      if Eligible(h.transform, items, cleaned) && (best.None? || h.distance < best.value.distance)
      then Some(h) else best
  }

  /** `PickDirtUnderPointer`: the 2D rule first, then the 3D rule. */
  function Pick(hits2D: seq<ObjId>, hits3D: seq<RayHit>, items: seq<ObjId>, cleaned: set<ObjId>): Option<ObjId> {
    match LastEligible(hits2D, items, cleaned)
    case Some(t) => Some(t)
    case None =>
      match Nearest(hits3D, items, cleaned)
      case Some(h) => Some(h.transform)
      case None => None
  }

  /** The 2D rule finds nothing exactly when no overlap is eligible; otherwise it
      finds an eligible overlap after which no overlap is eligible. */
  lemma {:induction false} LastEligibleSpec(hits: seq<ObjId>, items: seq<ObjId>, cleaned: set<ObjId>)
    ensures LastEligible(hits, items, cleaned).None? <==>
      forall k :: 0 <= k < |hits| ==> !Eligible(hits[k], items, cleaned)
    ensures LastEligible(hits, items, cleaned).Some? ==>
      exists j :: 0 <= j < |hits| && hits[j] == LastEligible(hits, items, cleaned).value &&
        Eligible(hits[j], items, cleaned) &&
        forall k :: j < k < |hits| ==> !Eligible(hits[k], items, cleaned)
    decreases |hits|
  {
    if |hits| > 0 {
      var init := hits[..|hits| - 1];
      LastEligibleSpec(init, items, cleaned);
      assert forall k :: 0 <= k < |init| ==> init[k] == hits[k];
      if !Eligible(hits[|hits| - 1], items, cleaned) && LastEligible(init, items, cleaned).Some? {
        var j :| 0 <= j < |init| && init[j] == LastEligible(init, items, cleaned).value &&
          Eligible(init[j], items, cleaned) &&
          forall k :: j < k < |init| ==> !Eligible(init[k], items, cleaned);
        assert hits[j] == init[j];
      }
    }
  }

  /** The 3D rule finds nothing exactly when no hit is eligible; otherwise it finds
      an eligible hit no farther than any other eligible hit and strictly nearer
      than every eligible hit listed before it. */
  lemma {:induction false} NearestSpec(hits: seq<RayHit>, items: seq<ObjId>, cleaned: set<ObjId>)
    ensures Nearest(hits, items, cleaned).None? <==>
      forall k :: 0 <= k < |hits| ==> !Eligible(hits[k].transform, items, cleaned)
    ensures Nearest(hits, items, cleaned).Some? ==>
      var r := Nearest(hits, items, cleaned).value;
      exists j :: 0 <= j < |hits| && hits[j] == r && Eligible(r.transform, items, cleaned) &&
        (forall k :: 0 <= k < |hits| && Eligible(hits[k].transform, items, cleaned) ==> r.distance <= hits[k].distance) &&
        (forall k :: 0 <= k < j && Eligible(hits[k].transform, items, cleaned) ==> r.distance < hits[k].distance)
    decreases |hits|
  {
    if |hits| > 0 {
      var init := hits[..|hits| - 1];
      var h := hits[|hits| - 1];
      NearestSpec(init, items, cleaned);
      assert forall k :: 0 <= k < |init| ==> init[k] == hits[k];
      var best := Nearest(init, items, cleaned);
      if Eligible(h.transform, items, cleaned) && (best.None? || h.distance < best.value.distance) {
        assert hits[|hits| - 1] == h;
      } else if best.Some? {
        var b := best.value;
        var j :| 0 <= j < |init| && init[j] == b && Eligible(b.transform, items, cleaned) &&
          (forall k :: 0 <= k < |init| && Eligible(init[k].transform, items, cleaned) ==> b.distance <= init[k].distance) &&
          (forall k :: 0 <= k < j && Eligible(init[k].transform, items, cleaned) ==> b.distance < init[k].distance);
        assert hits[j] == b;
      }
    }
  }

  /** The pick returns only a registered, uncleaned transform, and one of the hits;
      it returns nothing exactly when no hit of either list is eligible. */
  lemma PickOnlyEligible(hits2D: seq<ObjId>, hits3D: seq<RayHit>, items: seq<ObjId>, cleaned: set<ObjId>)
    ensures Pick(hits2D, hits3D, items, cleaned).Some? ==>
      Eligible(Pick(hits2D, hits3D, items, cleaned).value, items, cleaned) &&
      (Pick(hits2D, hits3D, items, cleaned).value in hits2D ||
       exists k :: 0 <= k < |hits3D| && hits3D[k].transform == Pick(hits2D, hits3D, items, cleaned).value)
    ensures Pick(hits2D, hits3D, items, cleaned).None? <==>
      (forall k :: 0 <= k < |hits2D| ==> !Eligible(hits2D[k], items, cleaned)) &&
      (forall k :: 0 <= k < |hits3D| ==> !Eligible(hits3D[k].transform, items, cleaned))
  {
    LastEligibleSpec(hits2D, items, cleaned);
    NearestSpec(hits3D, items, cleaned);
  }

  /** An eligible 2D overlap wins over every 3D hit. */
  lemma TwoDFirst(hits2D: seq<ObjId>, hits3D: seq<RayHit>, items: seq<ObjId>, cleaned: set<ObjId>, k: int)
    requires 0 <= k < |hits2D| && Eligible(hits2D[k], items, cleaned)
    ensures Pick(hits2D, hits3D, items, cleaned) == LastEligible(hits2D, items, cleaned)
    ensures Pick(hits2D, hits3D, items, cleaned).Some?
  {
    LastEligibleSpec(hits2D, items, cleaned);
  }

  /** `dirtItems` after `AddDirt(d)`. */
  function Added(items: seq<ObjId>, d: ObjId): seq<ObjId> {
    if d in items then items else items + [d]
  }

  /** The first occurrence of `d` taken out, as `List.Remove` does. */
  function RemoveFirst(items: seq<ObjId>, d: ObjId): seq<ObjId>
    decreases |items|
  {
    if |items| == 0 then []
    else if items[0] == d then items[1..]
    else [items[0]] + RemoveFirst(items[1..], d)
  }

  predicate NoDup(items: seq<ObjId>) {
    forall i, j :: 0 <= i < j < |items| ==> items[i] != items[j]
  }

  /** Adding keeps a duplicate-free list duplicate-free, always leaves `d` in the
      list, and adding a second time changes nothing. */
  lemma AddedSpec(items: seq<ObjId>, d: ObjId)
    ensures d in Added(items, d)
    ensures multiset(Added(items, d)) == if d in items then multiset(items) else multiset(items) + multiset{d}
    ensures NoDup(items) ==> NoDup(Added(items, d))
    ensures Added(Added(items, d), d) == Added(items, d)
  {
    if d !in items {
      var r := items + [d];
      assert r[|items|] == d;
      assert multiset(r) == multiset(items) + multiset([d]);
    }
  }

  /** Removing takes exactly one copy of `d` out of the list (none when it is
      absent), and keeps the others in order. */
  lemma RemoveFirstSpec(items: seq<ObjId>, d: ObjId)
    ensures multiset(RemoveFirst(items, d)) == multiset(items) - multiset{d}
    ensures d !in items ==> RemoveFirst(items, d) == items
    ensures d in items ==> |RemoveFirst(items, d)| == |items| - 1
  {
    RemoveFirstSplit(items, d);
    if d !in items {
      assert multiset(items)[d] == 0;
    }
  }

  /** The list is what `RemoveFirst` keeps plus the one copy of `d` it takes. */
  lemma {:induction false} RemoveFirstSplit(items: seq<ObjId>, d: ObjId)
    ensures multiset(items) == multiset(RemoveFirst(items, d)) + (if d in items then multiset{d} else multiset{})
    ensures d !in items ==> RemoveFirst(items, d) == items
    ensures d in items ==> |RemoveFirst(items, d)| == |items| - 1
    decreases |items|
  {
    if |items| > 0 {
      var h, t := items[0], items[1..];
      RemoveFirstSplit(t, d);
      assert items == [h] + t;
      assert multiset(items) == multiset{h} + multiset(t);
      if h == d {
        assert RemoveFirst(items, d) == t;
      } else {
        var rt := RemoveFirst(t, d);
        assert RemoveFirst(items, d) == [h] + rt;
        assert multiset([h] + rt) == multiset{h} + multiset(rt);
        assert d in items <==> d in t;
      }
    }
  }

  /** A removed element of a duplicate-free list is gone for good, and the list
      stays duplicate-free. */
  lemma RemoveFirstNoDup(items: seq<ObjId>, d: ObjId)
    requires NoDup(items)
    ensures d !in RemoveFirst(items, d)
    ensures NoDup(RemoveFirst(items, d))
  {
    RemoveFirstSpec(items, d);
    var r := RemoveFirst(items, d);
    if d in items {
      assert multiset(items)[d] == 1 by {
        var i :| 0 <= i < |items| && items[i] == d;
        CountOne(items, i);
      }
    } else {
      assert multiset(items)[d] == 0;
    }
    assert multiset(r)[d] == 0;
    forall i, j | 0 <= i < j < |r|
      ensures r[i] != r[j]
    {
      if r[i] == r[j] {
        var v: ObjId := r[i];
        TwoCopies(r, i, j);
        var mr, mi := multiset(r), multiset(items);
        assert mr[v] <= mi[v];
        assert v in items by {
          assert v in mr;
        }
        var p :| 0 <= p < |items| && items[p] == v;
        CountOne(items, p);
        assert false;
      }
    }
  }

  /** In a duplicate-free list every element occurs once. */
  lemma {:induction false} CountOne(items: seq<ObjId>, i: int)
    requires NoDup(items) && 0 <= i < |items|
    ensures multiset(items)[items[i]] == 1
    decreases |items|
  {
    assert items == [items[0]] + items[1..];
    assert multiset(items) == multiset([items[0]]) + multiset(items[1..]);
    if i == 0 {
      assert items[0] !in items[1..];
    } else {
      CountOne(items[1..], i - 1);
    }
  }

  /** Two positions holding the same value make it occur at least twice. */
  lemma TwoCopies(r: seq<ObjId>, i: int, j: int)
    requires 0 <= i < j < |r| && r[i] == r[j]
    ensures multiset(r)[r[i]] >= 2
  {
    assert r == r[..i] + [r[i]] + r[i + 1..j] + [r[j]] + r[j + 1..];
    assert multiset(r) == multiset(r[..i]) + multiset([r[i]]) + multiset(r[i + 1..j]) + multiset([r[j]]) + multiset(r[j + 1..]);
  }

  /** Removing what was just added to a list that lacked it gives the list back. */
  lemma {:induction false} RemoveAfterAdd(items: seq<ObjId>, d: ObjId)
    requires d !in items
    ensures RemoveFirst(Added(items, d), d) == items
    decreases |items|
  {
    if |items| == 0 {
      assert Added(items, d) == [d];
    } else {
      assert (items + [d])[1..] == items[1..] + [d];
      RemoveAfterAdd(items[1..], d);
      assert d !in items[1..];
    }
  }

  /** The pointer part of the cleaner's state: where the press was, whether a drag
      is on, the dirt pressed, the cleaned set, the shrink tweens still running
      (oldest first; they all last `cleanDuration`, so they end in that order), and
      the dirt objects destroyed so far. */
  datatype Pointer = Pointer(startPos: Vec2, dragging: bool, activeDirt: Option<ObjId>,
                             cleaned: set<ObjId>, cleanTweens: seq<ObjId>, destroyed: set<ObjId>)

  /** A reference as Unity's `== null` sees it: a reference to a destroyed object
      compares equal to null. */
  function Live(a: Option<ObjId>, destroyed: set<ObjId>): (r: Option<ObjId>)
    ensures r.Some? <==> a.Some? && a.value !in destroyed
    ensures r.Some? ==> r == a
  {
    if a.Some? && a.value !in destroyed then a else None
  }

  /** `dragging` is set from `activeDirt != null` on every press and both are
      cleared together. */
  predicate Agrees(p: Pointer) {
    p.dragging <==> p.activeDirt.Some?
  }

  /** A release at `endPos` cleans the pressed dirt: there is one, its object has
      not been destroyed since the press, it is not yet cleaned, and the pointer
      moved at least `threshold` horizontally. */
  predicate SwipeCleans(p: Pointer, endPos: Vec2, threshold: real) {
    Live(p.activeDirt, p.destroyed).Some? && p.activeDirt.value !in p.cleaned &&
    Abs(endPos.x - p.startPos.x) >= threshold
  }

  /** The state after `TryCleanBySwipe(endPos)`. */
  function Swiped(p: Pointer, endPos: Vec2, threshold: real): Pointer {
    if SwipeCleans(p, endPos, threshold)
    then p.(cleaned := p.cleaned + {p.activeDirt.value}, cleanTweens := p.cleanTweens + [p.activeDirt.value])
    else p
  }

  /** The state after `ResetDrag`. */
  function DragReset(p: Pointer): Pointer {
    p.(dragging := false, activeDirt := None)
  }

  /** The state after a press at `pos` over the given hits. */
  function Pressed(p: Pointer, pos: Vec2, hits2D: seq<ObjId>, hits3D: seq<RayHit>, items: seq<ObjId>): Pointer {
    var a := Pick(hits2D, hits3D, items, p.cleaned);
    p.(startPos := pos, activeDirt := a, dragging := a.Some?)
  }

  /** The state after a release at `pos` during a drag: the swipe, then the reset. */
  function Released(p: Pointer, pos: Vec2, threshold: real): Pointer {
    DragReset(Swiped(p, pos, threshold))
  }

  /** The state after one frame of `HandleMouse`. */
  function MouseStep(p: Pointer, input: MouseInput, items: seq<ObjId>, threshold: real): Pointer {
    if input.overUI then p
    else
      var q := if input.down then Pressed(p, input.position, input.hits2D, input.hits3D, items) else p;
      if input.up && q.dragging then Released(q, input.position, threshold) else q
  }

  /** The state after one frame of `HandleTouch`: only the first touch is read. */
  function TouchStep(p: Pointer, input: TouchInput, items: seq<ObjId>, threshold: real): Pointer {
    if |input.touches| == 0 || input.overUI then p
    else
      var t := input.touches[0];
      match t.phase
      case Began => Pressed(p, t.position, input.hits2D, input.hits3D, items)
      case Ended => if p.dragging then Released(p, t.position, threshold) else p
      case Canceled => if p.dragging then Released(p, t.position, threshold) else p
      case Moved => p
      case Stationary => p
  }

  /** Nothing is cleaned, or exactly one dirt that was not cleaned before is, and
      its shrink tween is the one started. */
  ghost predicate CleansAtMostOne(p: Pointer, q: Pointer) {
    (q.cleaned == p.cleaned && q.cleanTweens == p.cleanTweens) ||
    (exists d :: d !in p.cleaned && q.cleaned == p.cleaned + {d} && q.cleanTweens == p.cleanTweens + [d])
  }

  /** A release keeps `dragging` and `activeDirt` in agreement, ends the drag and
      cleans at most one dirt, the pressed one. */
  lemma ReleasedSpec(p: Pointer, pos: Vec2, threshold: real)
    ensures Agrees(Released(p, pos, threshold)) && Released(p, pos, threshold).activeDirt.None?
    ensures CleansAtMostOne(p, Released(p, pos, threshold))
    ensures Released(p, pos, threshold).cleaned != p.cleaned ==>
      p.activeDirt.Some? && Released(p, pos, threshold).cleaned == p.cleaned + {p.activeDirt.value}
  {
    if SwipeCleans(p, pos, threshold) {
      var d := p.activeDirt.value;
      assert d !in p.cleaned && Released(p, pos, threshold).cleaned == p.cleaned + {d};
    }
  }

  /** A frame of mouse input keeps `dragging` and `activeDirt` in agreement and
      cleans at most one dirt, starting exactly its tween. */
  lemma MouseStepSpec(p: Pointer, input: MouseInput, items: seq<ObjId>, threshold: real)
    requires Agrees(p)
    ensures Agrees(MouseStep(p, input, items, threshold))
    ensures CleansAtMostOne(p, MouseStep(p, input, items, threshold))
  {
    if !input.overUI {
      var q := if input.down then Pressed(p, input.position, input.hits2D, input.hits3D, items) else p;
      assert q.cleaned == p.cleaned && q.cleanTweens == p.cleanTweens;
      if input.up && q.dragging {
        ReleasedSpec(q, input.position, threshold);
      }
    }
  }

  /** A frame of touch input keeps `dragging` and `activeDirt` in agreement and
      cleans at most one dirt, starting exactly its tween. */
  lemma TouchStepSpec(p: Pointer, input: TouchInput, items: seq<ObjId>, threshold: real)
    requires Agrees(p)
    ensures Agrees(TouchStep(p, input, items, threshold))
    ensures CleansAtMostOne(p, TouchStep(p, input, items, threshold))
  {
    if |input.touches| > 0 && !input.overUI && p.dragging {
      ReleasedSpec(p, input.touches[0].position, threshold);
    }
  }

  /** A mouse press over an eligible dirt followed by a release cleans that dirt,
      and starts its tween, exactly when the release is at least the threshold
      away horizontally; either way the drag ends. */
  lemma SwipeGesture(p: Pointer, press: MouseInput, release: MouseInput, items: seq<ObjId>, threshold: real)
    requires !press.overUI && press.down && !press.up
    requires !release.overUI && !release.down && release.up
    ensures var d := Pick(press.hits2D, press.hits3D, items, p.cleaned);
      var q := MouseStep(MouseStep(p, press, items, threshold), release, items, threshold);
      !q.dragging &&
      (Live(d, p.destroyed).Some? && Abs(release.position.x - press.position.x) >= threshold ==>
         q.cleaned == p.cleaned + {d.value} && q.cleanTweens == p.cleanTweens + [d.value]) &&
      (Live(d, p.destroyed).None? || Abs(release.position.x - press.position.x) < threshold ==>
         q.cleaned == p.cleaned && q.cleanTweens == p.cleanTweens)
  {
    PickOnlyEligible(press.hits2D, press.hits3D, items, p.cleaned);
  }

  /** A release whose pressed dirt has been destroyed since the press (a tween's
      completion destroys whatever `activeDirt` names) only ends the drag: it
      cleans nothing and starts no tween. */
  lemma DestroyedDirtIsNotCleaned(p: Pointer, pos: Vec2, threshold: real)
    requires p.activeDirt.Some? && p.activeDirt.value in p.destroyed
    ensures Released(p, pos, threshold) == DragReset(p)
    ensures !SwipeCleans(p, pos, threshold)
  {
  }

  /** A press and a release in the same frame never clean: the pointer has not
      moved, and the threshold is positive. */
  lemma TapNeverCleans(p: Pointer, input: MouseInput, items: seq<ObjId>, threshold: real)
    requires threshold > 0.0 && input.down && input.up
    ensures MouseStep(p, input, items, threshold).cleaned == p.cleaned
    ensures MouseStep(p, input, items, threshold).cleanTweens == p.cleanTweens
  {
  }

  /** What the tween's `OnComplete` destroys, as written: it reads the field
      `activeDirt` when the tween ends, not the dirt the tween was started on. */
  function CompletionTargetAsWritten(destroyAfterClean: bool, activeDirtAtCompletion: Option<ObjId>): (r: Option<ObjId>)
    ensures r.Some? <==> destroyAfterClean && activeDirtAtCompletion.Some?
    ensures r.Some? ==> r == activeDirtAtCompletion
  {
    if destroyAfterClean && activeDirtAtCompletion.Some? then activeDirtAtCompletion else None
  }

  /** Every release runs `ResetDrag` right after the swipe, so by the time the tween
      ends `activeDirt` is null (and the swiped dirt survives), or it names a dirt
      pressed since, which is destroyed although it was never swiped: in neither
      case is the swiped dirt `d` the one destroyed. */
  lemma CompletionAsWrittenMissesTarget(d: ObjId, e: ObjId)
    requires d != e
    ensures CompletionTargetAsWritten(true, None) == None != Some(d)
    ensures CompletionTargetAsWritten(true, Some(e)) == Some(e) != Some(d)
  {
  }

  class DirtCleaner {
    /** `onlyWhenCameraLocked`. */
    var onlyWhenCameraLocked: bool
    /** `cameraController`: the controller object, if one is set. */
    var cameraController: Option<ObjId>
    /** `useBrushMode`, written by the clean-mode camera; the shown cleaner does not
        read it. */
    var useBrushMode: bool
    /** `dirtItems`. */
    var dirtItems: seq<ObjId>
    /** `cleaned`. */
    var cleaned: set<ObjId>
    /** `swipeThresholdPixels`. */
    const swipeThresholdPixels: real
    /** `destroyAfterClean`. */
    const destroyAfterClean: bool
    /** `startPos`. */
    var startPos: Vec2
    /** `dragging`. */
    var dragging: bool
    /** `activeDirt`. */
    var activeDirt: Option<ObjId>
    /** Dirt objects whose `GameObject` has been destroyed. */
    var destroyed: set<ObjId>
    /** Shrink tweens started and not yet completed, oldest first. */
    var cleanTweens: seq<ObjId>

    /** The fields one pointer gesture changes. */
    function PointerState(): Pointer
      reads this
    {
      Pointer(startPos, dragging, activeDirt, cleaned, cleanTweens, destroyed)
    }

    ghost predicate Valid()
      reads this
    {
      Agrees(PointerState())
    }

    constructor (swipeThresholdPixels: real, destroyAfterClean: bool, dirtItems: seq<ObjId>,
                 cameraController: Option<ObjId>)
      ensures Valid()
      ensures this.swipeThresholdPixels == swipeThresholdPixels && this.destroyAfterClean == destroyAfterClean
      ensures this.dirtItems == dirtItems && this.cameraController == cameraController
      ensures onlyWhenCameraLocked && !useBrushMode && cleaned == {} && !dragging && activeDirt.None?
      ensures destroyed == {} && cleanTweens == []
    {
      this.swipeThresholdPixels := swipeThresholdPixels;
      this.destroyAfterClean := destroyAfterClean;
      this.dirtItems := dirtItems;
      this.cameraController := cameraController;
      onlyWhenCameraLocked := true;
      useBrushMode := false;
      cleaned := {};
      startPos := Vec2(0.0, 0.0);
      dragging := false;
      activeDirt := None;
      destroyed := {};
      cleanTweens := [];
    }

    /** The camera-lock gate of `Update`: `controlsField` is what reading the public
        `controlsEnabled` field of the controller gives, `None` when it has none. */
    predicate CleaningBlocked(controlsField: Option<bool>)
      reads this
    {
      onlyWhenCameraLocked && cameraController.Some? && controlsField == Some(true)
    }

    /** `PickDirtUnderPointer`, scanning the 2D overlaps from the last one down, then
        the 3D hits for the nearest eligible one. */
    method PickDirtUnderPointer(hits2D: seq<ObjId>, hits3D: seq<RayHit>) returns (r: Option<ObjId>)
      ensures r == Pick(hits2D, hits3D, dirtItems, cleaned)
      ensures r.Some? ==> Eligible(r.value, dirtItems, cleaned)
    {
      PickOnlyEligible(hits2D, hits3D, dirtItems, cleaned);
      var i := |hits2D|;
      assert hits2D[..i] == hits2D;
      while i > 0
        invariant 0 <= i <= |hits2D|
        invariant LastEligible(hits2D[..i], dirtItems, cleaned) == LastEligible(hits2D, dirtItems, cleaned)
      {
        var tr := hits2D[i - 1];
        assert hits2D[..i][..i - 1] == hits2D[..i - 1];
        if tr in dirtItems && tr !in cleaned {
          return Some(tr);
        }
        i := i - 1;
      }
      assert hits2D[..0] == [];
      var best: Option<RayHit> := None;
      var j := 0;
      while j < |hits3D|
        invariant 0 <= j <= |hits3D|
        invariant best == Nearest(hits3D[..j], dirtItems, cleaned)
      {
        var hit := hits3D[j];
        assert hits3D[..j + 1][..j] == hits3D[..j];
        if hit.transform in dirtItems && hit.transform !in cleaned && (best.None? || hit.distance < best.value.distance) {
          best := Some(hit);
        }
        j := j + 1;
      }
      assert hits3D[..j] == hits3D;
      if best.Some? {
        return Some(best.value.transform);
      }
      return None;
    }

    /** `TryCleanBySwipe`: a release far enough, horizontally, from the press cleans
        the active dirt and starts its shrink tween; a destroyed active dirt counts
        as null. */
    method TryCleanBySwipe(endPos: Vec2)
      modifies this`cleaned, this`cleanTweens
      ensures PointerState() == Swiped(old(PointerState()), endPos, swipeThresholdPixels)
    {
      if Live(activeDirt, destroyed).None? || activeDirt.value in cleaned {
        return;
      }
      var deltaX := Abs(endPos.x - startPos.x);
      if deltaX >= swipeThresholdPixels {
        cleaned := cleaned + {activeDirt.value};
        cleanTweens := cleanTweens + [activeDirt.value];
      }
    }

    /** `ResetDrag`. */
    method ResetDrag()
      modifies this`dragging, this`activeDirt
      ensures PointerState() == DragReset(old(PointerState()))
    {
      dragging := false;
      activeDirt := None;
    }

    /** A press at `position`: remember it and pick the dirt under it. */
    method Press(position: Vec2, hits2D: seq<ObjId>, hits3D: seq<RayHit>)
      modifies this`startPos, this`activeDirt, this`dragging
      ensures PointerState() == Pressed(old(PointerState()), position, hits2D, hits3D, dirtItems)
    {
      startPos := position;
      activeDirt := PickDirtUnderPointer(hits2D, hits3D);
      dragging := activeDirt.Some?;
    }

    /** A release at `position`: try the swipe, then end the drag. */
    method Release(position: Vec2)
      modifies this`cleaned, this`cleanTweens, this`dragging, this`activeDirt
      ensures PointerState() == Released(old(PointerState()), position, swipeThresholdPixels)
    {
      TryCleanBySwipe(position);
      ResetDrag();
    }

    /** `HandleMouse`. */
    method HandleMouse(input: MouseInput)
      modifies this`startPos, this`cleaned, this`cleanTweens, this`dragging, this`activeDirt
      ensures PointerState() == MouseStep(old(PointerState()), input, dirtItems, swipeThresholdPixels)
    {
      if input.overUI {
        return;
      }
      if input.down {
        Press(input.position, input.hits2D, input.hits3D);
      }
      if input.up && dragging {
        Release(input.position);
      }
    }

    /** `HandleTouch`: only the first touch is read. */
    method HandleTouch(input: TouchInput)
      modifies this`startPos, this`cleaned, this`cleanTweens, this`dragging, this`activeDirt
      ensures PointerState() == TouchStep(old(PointerState()), input, dirtItems, swipeThresholdPixels)
    {
      if |input.touches| == 0 {
        return;
      }
      if input.overUI {
        return;
      }
      var t := input.touches[0];
      match t.phase {
        case Began =>
          Press(t.position, input.hits2D, input.hits3D);
        case Ended =>
          if dragging {
            Release(t.position);
          }
        case Canceled =>
          if dragging {
            Release(t.position);
          }
        case Moved =>
        case Stationary =>
      }
    }

    /** `Update`: when the camera controls are live and cleaning waits for a locked
        camera, only the drag is reset; otherwise the platform's input is handled
        (`standalone` is the editor / desktop build). The agreement of `dragging`
        and `activeDirt` is kept, and at most one dirt is cleaned per frame. */
    method Update(controlsField: Option<bool>, standalone: bool, mouse: MouseInput, touch: TouchInput)
      requires Valid()
      modifies this`startPos, this`cleaned, this`cleanTweens, this`dragging, this`activeDirt
      ensures PointerState() ==
        if old(CleaningBlocked(controlsField)) then DragReset(old(PointerState()))
        else if standalone then MouseStep(old(PointerState()), mouse, dirtItems, swipeThresholdPixels)
        else TouchStep(old(PointerState()), touch, dirtItems, swipeThresholdPixels)
      ensures Valid() && CleansAtMostOne(old(PointerState()), PointerState())
    {
      if onlyWhenCameraLocked && cameraController.Some? {
        if controlsField.Some? {
          if controlsField.value {
            ResetDrag();
            return;
          }
        }
      }
      if standalone {
        MouseStepSpec(PointerState(), mouse, dirtItems, swipeThresholdPixels);
        HandleMouse(mouse);
      } else {
        TouchStepSpec(PointerState(), touch, dirtItems, swipeThresholdPixels);
        HandleTouch(touch);
      }
    }

    /** The oldest shrink tween ends, and its `OnComplete` runs as written: the
        object destroyed is whatever `activeDirt` names at that moment, when that
        object still exists. */
    method CompleteCleanTween()
      requires |cleanTweens| > 0
      modifies this`cleanTweens, this`destroyed
      ensures cleanTweens == old(cleanTweens[1..])
      ensures destroyed == if destroyAfterClean && Live(activeDirt, old(destroyed)).Some?
                           then old(destroyed) + {activeDirt.value} else old(destroyed)
    {
      cleanTweens := cleanTweens[1..];
      var victim := CompletionTargetAsWritten(destroyAfterClean, Live(activeDirt, destroyed));
      if victim.Some? {
        destroyed := destroyed + {victim.value};
      }
    }

    /** The oldest shrink tween ends, and the dirt it shrank is destroyed when
        `destroyAfterClean` is set: the evidently intended completion. */
    method CompleteCleanTweenIntended()
      requires |cleanTweens| > 0
      modifies this`cleanTweens, this`destroyed
      ensures cleanTweens == old(cleanTweens[1..])
      ensures destroyed == if destroyAfterClean then old(destroyed) + {old(cleanTweens[0])} else old(destroyed)
    {
      var target := cleanTweens[0];
      cleanTweens := cleanTweens[1..];
      if destroyAfterClean {
        destroyed := destroyed + {target};
      }
    }

    /** A swipe that cleans, released at `position`, and then the end of its tween
        with no input in between: as written, the swiped dirt is cleaned but never
        destroyed. */
    method SwipeThenComplete(position: Vec2)
      requires cleanTweens == [] && SwipeCleans(PointerState(), position, swipeThresholdPixels)
      modifies this`cleaned, this`cleanTweens, this`dragging, this`activeDirt, this`destroyed
      ensures old(activeDirt).value in cleaned && cleanTweens == []
      ensures destroyed == old(destroyed)
    {
      Release(position);
      CompleteCleanTween();
    }

    /** The same scenario with the intended completion: the swiped dirt is cleaned
        and, when `destroyAfterClean` is set, destroyed. */
    method SwipeThenCompleteIntended(position: Vec2)
      requires cleanTweens == [] && SwipeCleans(PointerState(), position, swipeThresholdPixels)
      modifies this`cleaned, this`cleanTweens, this`dragging, this`activeDirt, this`destroyed
      ensures old(activeDirt).value in cleaned && cleanTweens == []
      ensures destroyed == if destroyAfterClean then old(destroyed) + {old(activeDirt).value} else old(destroyed)
    {
      Release(position);
      CompleteCleanTweenIntended();
    }

    /** `AddDirt`. */
    method AddDirt(dirt: ObjId)
      modifies this`dirtItems
      ensures dirtItems == Added(old(dirtItems), dirt)
      ensures dirt in dirtItems
      ensures NoDup(old(dirtItems)) ==> NoDup(dirtItems)
    {
      AddedSpec(dirtItems, dirt);
      if dirt !in dirtItems {
        dirtItems := dirtItems + [dirt];
      }
    }

    /** `RemoveDirt`. */
    method RemoveDirt(dirt: ObjId)
      modifies this`dirtItems, this`cleaned
      ensures dirtItems == RemoveFirst(old(dirtItems), dirt)
      ensures cleaned == old(cleaned) - {dirt}
      ensures NoDup(old(dirtItems)) ==> dirt !in dirtItems && NoDup(dirtItems)
    {
      if NoDup(dirtItems) {
        RemoveFirstNoDup(dirtItems, dirt);
      }
      dirtItems := RemoveFirst(dirtItems, dirt);
      cleaned := cleaned - {dirt};
    }
  }
}
