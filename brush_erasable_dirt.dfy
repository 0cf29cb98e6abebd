/** The brush-erasable dirt mask of `BrushErasableDirt`: a square mask of
    `res × res` texels, held row-major in one array, whose red channel is 1 where the
    surface is dirty and 0 where it has been wiped. A stroke darkens the texels of a
    clipped disc around the brush centre by multiplication; a sparse sample of every
    fourth texel estimates how much has been erased; the surface becomes fully
    cleaned once, when that estimate reaches the threshold. */
module BrushDirt {
  import opened Engine

  /** One texel write keeps `1 - 0.3·alpha` of the texel's value. */
  const DarkenStrength: real := 0.3
  /** The brush is never smaller than this many texels across. */
  const MinBrushPixels: int := 10
  /** The progress estimate looks at texels 0, 4, 8, … only. */
  const SampleStride: nat := 4
  /** The progress estimate runs on frames whose number is a multiple of this. */
  const ProgressPeriod: nat := 10
  /** A sampled texel whose red value is below this counts as erased. */
  const DarkLevel: real := 0.5

  /** The brush weight at an offset (x, y) from the centre. The source computes it as
      `(1 - dist)^(1 / hardness)`; all the model relies on is that it lies in [0,1]. */
  type Falloff = (int, int) -> real

  ghost predicate ValidFalloff(f: Falloff) {
    forall x: int, y: int :: 0.0 <= f(x, y) <= 1.0
  }

  /** The brush diameter in texels: `brushSize · res / 10`, rounded, and at least 10. */
  function BrushPixelSize(brushSize: real, res: int): (size: int)
    ensures size >= MinBrushPixels
    ensures size == MinBrushPixels || size == RoundHalfEven(brushSize * res as real / 10.0)
    ensures size >= RoundHalfEven(brushSize * res as real / 10.0)
  {
    MaxI(MinBrushPixels, RoundHalfEven(brushSize * res as real / 10.0))
  }

  /** A texture coordinate inside [0,1] × [0,1]; anything else is rejected. */
  predicate InUnitSquare(uv: Vec2) {
    0.0 <= uv.x <= 1.0 && 0.0 <= uv.y <= 1.0
  }

  /** The texel column (or row) a coordinate lands on: `RoundToInt(u · res)` clamped
      into the texture. */
  function PixelCoord(u: real, res: int): (p: int)
    requires res > 0
    ensures 0 <= p < res
    ensures 0 <= RoundHalfEven(u * res as real) < res ==> p == RoundHalfEven(u * res as real)
  {
    ClampI(RoundHalfEven(u * res as real), 0, res - 1)
  }

  /** Normalised distance at most 1: `sqrt(x² + y²) / (size / 2) <= 1`, squared. */
  predicate InDisc(x: int, y: int, size: int) {
    (x * x + y * y) as real <= (size as real / 2.0) * (size as real / 2.0)
  }

  /** The offsets the stroke loops visit, `[-size/2, size/2)` on both axes (integer
      division), that also lie in the disc. */
  predicate InBrush(x: int, y: int, size: int) {
    -(size / 2) <= x < size / 2 && -(size / 2) <= y < size / 2 && InDisc(x, y, size)
  }

  /** Texel `i` is written by a stroke centred on texel (cx, cy). Bounds on the texture
      are implicit: `i % res` and `i / res` of an index in the array are in range. */
  predicate Covered(res: int, cx: int, cy: int, size: int, i: int)
    requires res > 0
  {
    InBrush(i % res - cx, i / res - cy, size)
  }

  /** One texel write: `currentPixel.r · (1 - alpha · darkenStrength)`. */
  function Darken(v: real, a: real): real {
    v * (1.0 - a * DarkenStrength)
  }

  /** The value of one texel after a stroke: itself, or, when the stroke covers it,
      its value times the darkening factor for the brush weight `a` at its offset. */
  function StrokeTexel(v: real, covered: bool, a: real): (r: real)
    requires 0.0 <= a <= 1.0
    ensures !covered ==> r == v
    ensures covered ==> r == Darken(v, a)
  {
    if covered then Darken(v, a) else v
  }

  lemma DarkenBounds(v: real, a: real)
    requires 0.0 <= a <= 1.0
    ensures 0.0 <= v ==> 0.7 * v <= Darken(v, a) <= v
  {
    assert Darken(v, a) == v - 0.3 * (v * a);
    if 0.0 <= v {
      assert 0.0 <= v * a <= v;
    }
  }

  /** The mask after one stroke. */
  function Stroked(s: seq<real>, res: int, cx: int, cy: int, size: int, f: Falloff): (r: seq<real>)
    requires res > 0 && ValidFalloff(f)
    ensures |r| == |s|
    ensures forall i :: 0 <= i < |s| ==>
      r[i] == StrokeTexel(s[i], Covered(res, cx, cy, size, i), f(i % res - cx, i / res - cy))
  {
    seq(|s|, i requires 0 <= i < |s| =>
      StrokeTexel(s[i], Covered(res, cx, cy, size, i), f(i % res - cx, i / res - cy)))
  }

  /** What a stroke does to each texel: texels outside the clipped disc keep their
      value; a texel inside it keeps at least 70% of its value and never gets lighter,
      so a mask in [0,1] stays in [0,1]. */
  lemma StrokeEffect(s: seq<real>, res: int, cx: int, cy: int, size: int, f: Falloff, i: int)
    requires res > 0 && ValidFalloff(f) && 0 <= i < |s|
    ensures var r := Stroked(s, res, cx, cy, size, f);
      && (!Covered(res, cx, cy, size, i) ==> r[i] == s[i])
      && (0.0 <= s[i] ==> 0.7 * s[i] <= r[i] <= s[i])
      && (0.0 <= s[i] <= 1.0 ==> 0.0 <= r[i] <= 1.0)
  {
    var r := Stroked(s, res, cx, cy, size, f);
    assert r[i] == StrokeTexel(s[i], Covered(res, cx, cy, size, i), f(i % res - cx, i / res - cy));
    DarkenBounds(s[i], f(i % res - cx, i / res - cy));
  }

  /** A stroke keeps every texel of a mask in [0,1] inside [0,1]. */
  lemma StrokeKeepsUnit(s: seq<real>, res: int, cx: int, cy: int, size: int, f: Falloff)
    requires res > 0 && ValidFalloff(f)
    requires forall i :: 0 <= i < |s| ==> 0.0 <= s[i] <= 1.0
    ensures forall i :: 0 <= i < |s| ==> 0.0 <= Stroked(s, res, cx, cy, size, f)[i] <= 1.0
  {
    forall i | 0 <= i < |s|
      ensures 0.0 <= Stroked(s, res, cx, cy, size, f)[i] <= 1.0
    {
      StrokeEffect(s, res, cx, cy, size, f, i);
    }
  }

  /** Texel `i` was already written when the stroke loops stand at offset (x, y):
      rows before `y`, and columns before `x` on row `y`. */
  ghost predicate WrittenBefore(res: int, cx: int, cy: int, size: int, i: int, y: int, x: int)
    requires res > 0
  {
    Covered(res, cx, cy, size, i) && (i / res - cy < y || (i / res - cy == y && i % res - cx < x))
  }

  /** `t` is the mask `s` part-way through a stroke whose loops stand at offset
      (x, y): the texels already visited are darkened, the others untouched. */
  ghost predicate StrokedUpTo(t: seq<real>, s: seq<real>, res: int, cx: int, cy: int, size: int, f: Falloff, y: int, x: int)
    requires res > 0 && ValidFalloff(f)
  {
    && |t| == |s|
    && forall i :: 0 <= i < |s| ==>
         t[i] == StrokeTexel(s[i], WrittenBefore(res, cx, cy, size, i, y, x), f(i % res - cx, i / res - cy))
  }

  lemma IndexSplit(i: int, res: int)
    requires res > 0 && 0 <= i < res * res
    ensures 0 <= i % res < res && 0 <= i / res < res
    ensures i == (i / res) * res + i % res
  {
  }

  /** Texel (px, py) of the texture sits at index `py · res + px` of the array. */
  lemma TexelIndex(px: int, py: int, res: int)
    requires 0 <= px < res && 0 <= py < res
    ensures 0 <= py * res + px < res * res
    ensures (py * res + px) % res == px && (py * res + px) / res == py
  {
    RowMajor(py, px, res);
    MulMonotone(0, py, res);
    MulMonotone(py, res - 1, res);
    assert (res - 1) * res == res * res - res;
  }

  /** Index `i` names texel (px, py) exactly when it is `py · res + px`. */
  lemma SameTexel(i: int, px: int, py: int, res: int)
    requires 0 <= px < res && 0 <= py < res && 0 <= i < res * res
    ensures (i % res == px && i / res == py) <==> i == py * res + px
  {
    TexelIndex(px, py, res);
    IndexSplit(i, res);
  }

  lemma WrittenNext(res: int, cx: int, cy: int, size: int, i: int, y: int, x: int)
    requires res > 0
    requires -(size / 2) <= y < size / 2 && -(size / 2) <= x < size / 2
    ensures WrittenBefore(res, cx, cy, size, i, y, x + 1) <==>
      WrittenBefore(res, cx, cy, size, i, y, x) ||
      (i % res == cx + x && i / res == cy + y && InDisc(x, y, size))
  {
  }

  /** One visit of the inner loop at offset (x, y), when texel (cx + x, cy + y) lies in
      the texture and in the disc: that texel, still untouched, is written, which
      moves the loops on to (x + 1, y). */
  lemma StepHit(t: seq<real>, s: seq<real>, res: int, cx: int, cy: int, size: int, f: Falloff, y: int, x: int, k: int, v: real)
    requires res > 0 && |s| == res * res && ValidFalloff(f)
    requires -(size / 2) <= y < size / 2 && -(size / 2) <= x < size / 2
    requires 0 <= cx + x < res && 0 <= cy + y < res && InDisc(x, y, size)
    requires k == (cy + y) * res + (cx + x)
    requires StrokedUpTo(t, s, res, cx, cy, size, f, y, x)
    requires 0 <= k < |t| ==> v == Darken(t[k], f(x, y))
    ensures 0 <= k < |t| && t[k] == s[k]
    ensures StrokedUpTo(t[k := v], s, res, cx, cy, size, f, y, x + 1)
  {
    var px, py := cx + x, cy + y;
    TexelIndex(px, py, res);
    WrittenNext(res, cx, cy, size, k, y, x);
    assert !WrittenBefore(res, cx, cy, size, k, y, x);
    var t' := t[k := v];
    forall i | 0 <= i < |s|
      ensures t'[i] == StrokeTexel(s[i], WrittenBefore(res, cx, cy, size, i, y, x + 1), f(i % res - cx, i / res - cy))
    {
      if i == k {
        assert WrittenBefore(res, cx, cy, size, k, y, x + 1);
      } else {
        WrittenNext(res, cx, cy, size, i, y, x);
        SameTexel(i, px, py, res);
        assert WrittenBefore(res, cx, cy, size, i, y, x + 1) == WrittenBefore(res, cx, cy, size, i, y, x);
      }
    }
  }

  /** The same visit when texel (cx + x, cy + y) is off the texture or outside the
      disc: nothing is written. */
  lemma StepMiss(t: seq<real>, s: seq<real>, res: int, cx: int, cy: int, size: int, f: Falloff, y: int, x: int)
    requires res > 0 && |s| == res * res && ValidFalloff(f)
    requires -(size / 2) <= y < size / 2 && -(size / 2) <= x < size / 2
    requires !(0 <= cx + x < res && 0 <= cy + y < res && InDisc(x, y, size))
    requires StrokedUpTo(t, s, res, cx, cy, size, f, y, x)
    ensures StrokedUpTo(t, s, res, cx, cy, size, f, y, x + 1)
  {
    forall i | 0 <= i < |s|
      ensures WrittenBefore(res, cx, cy, size, i, y, x + 1) == WrittenBefore(res, cx, cy, size, i, y, x)
    {
      WrittenNext(res, cx, cy, size, i, y, x);
      IndexSplit(i, res);
    }
  }

  lemma StrokeStart(s: seq<real>, res: int, cx: int, cy: int, size: int, f: Falloff)
    requires res > 0 && ValidFalloff(f)
    ensures StrokedUpTo(s, s, res, cx, cy, size, f, -(size / 2), -(size / 2))
  {
  }

  lemma StrokeNextRow(t: seq<real>, s: seq<real>, res: int, cx: int, cy: int, size: int, f: Falloff, y: int)
    requires res > 0 && ValidFalloff(f)
    requires StrokedUpTo(t, s, res, cx, cy, size, f, y, size / 2)
    ensures StrokedUpTo(t, s, res, cx, cy, size, f, y + 1, -(size / 2))
  {
  }

  lemma StrokeEnd(t: seq<real>, s: seq<real>, res: int, cx: int, cy: int, size: int, f: Falloff)
    requires res > 0 && ValidFalloff(f) && size >= 0
    requires StrokedUpTo(t, s, res, cx, cy, size, f, size / 2, -(size / 2))
    ensures t == Stroked(s, res, cx, cy, size, f)
  {
  }

  /** Number of sampled texels (indices `from`, `from + 4`, …) darker than 0.5. */
  function SampledDark(s: seq<real>, from: nat): nat
    decreases |s| - from
  {
    if from >= |s| then 0
    else (if s[from] < DarkLevel then 1 else 0) + SampledDark(s, from + SampleStride)
  }

  /** At most one texel in four is sampled. */
  lemma {:induction false} SampledDarkBound(s: seq<real>, from: nat)
    requires from <= |s|
    ensures 4 * SampledDark(s, from) <= |s| - from + 3
    decreases |s| - from
  {
    if from < |s| {
      if from + SampleStride <= |s| {
        SampledDarkBound(s, from + SampleStride);
      } else {
        assert SampledDark(s, from + SampleStride) == 0;
      }
    }
  }

  /** When the texel count is a multiple of 4 (every even resolution, e.g. the default
      256²), `count · 4 / total` never exceeds 1. */
  lemma ProgressAtMostOne(s: seq<real>)
    requires |s| % 4 == 0
    ensures 4 * SampledDark(s, 0) <= |s|
  {
    SampledDarkBound(s, 0);
  }

  /** Darkening texels never lowers the count of sampled dark texels. */
  lemma {:induction false} DarkerMaskCountsMore(s: seq<real>, t: seq<real>, from: nat)
    requires |s| == |t|
    requires forall i :: 0 <= i < |s| ==> t[i] <= s[i]
    ensures SampledDark(s, from) <= SampledDark(t, from)
    decreases |s| - from
  {
    if from < |s| {
      DarkerMaskCountsMore(s, t, from + SampleStride);
    }
  }

  /** A stroke never lowers the sampled progress of a mask whose values are in [0,1]. */
  lemma StrokeNeverLowersProgress(s: seq<real>, res: int, cx: int, cy: int, size: int, f: Falloff)
    requires res > 0 && ValidFalloff(f)
    requires forall i :: 0 <= i < |s| ==> 0.0 <= s[i] <= 1.0
    ensures SampledDark(s, 0) <= SampledDark(Stroked(s, res, cx, cy, size, f), 0)
  {
    var t := Stroked(s, res, cx, cy, size, f);
    forall i | 0 <= i < |s|
      ensures t[i] <= s[i]
    {
      StrokeEffect(s, res, cx, cy, size, f, i);
    }
    DarkerMaskCountsMore(s, t, 0);
  }

  lemma EvenSquare(res: int)
    requires res % 2 == 0
    ensures (res * res) % 4 == 0
  {
    var k := res / 2;
    assert res == 2 * k;
    assert res * res == 4 * (k * k);
  }

  /** `count · 4 / total` as a real number. */
  function Ratio(count: nat, total: nat): (r: real)
    requires total > 0
    ensures r >= 0.0
    ensures 4 * count <= total ==> r <= 1.0
  {
    var r := (count * 4) as real / total as real;
    assert r * total as real == (count * 4) as real;
    r
  }

  class BrushErasableDirt {
    /** `textureResolution`. */
    const res: nat
    /** `brushSize`, in world units. */
    const brushSize: real
    /** `cleanThreshold`. */
    const cleanThreshold: real
    /** Red channel of the mask texture, row-major: texel (px, py) at `py · res + px`. */
    const pixels: array<real>
    /** `erasedPixels`: the last progress estimate. */
    var erasedPixels: real
    /** `isFullyCleaned`. */
    var isFullyCleaned: bool
    /** How many times the completion handling (`OnFullyCleaned`) has run. */
    var completionNotices: nat

    ghost predicate Valid()
      reads this, pixels
    {
      && res > 0
      && pixels.Length == res * res
      && (forall i :: 0 <= i < pixels.Length ==> 0.0 <= pixels[i] <= 1.0)
      && 0.0 <= erasedPixels
      && (res % 2 == 0 ==> erasedPixels <= 1.0)
      && completionNotices == (if isFullyCleaned then 1 else 0)
    }

    /** `Start`: a fresh mask, filled white (nothing erased). */
    constructor (res: nat, brushSize: real, cleanThreshold: real)
      requires res > 0
      ensures Valid() && fresh(pixels)
      ensures this.res == res && this.brushSize == brushSize && this.cleanThreshold == cleanThreshold
      ensures forall i :: 0 <= i < pixels.Length ==> pixels[i] == 1.0
      ensures erasedPixels == 0.0 && !isFullyCleaned
    {
      this.res := res;
      this.brushSize := brushSize;
      this.cleanThreshold := cleanThreshold;
      pixels := new real[res * res](_ => 1.0);
      erasedPixels := 0.0;
      isFullyCleaned := false;
      completionNotices := 0;
    }

    /** `GetCleanProgress`. */
    function GetCleanProgress(): (r: real)
      reads this, pixels
      requires Valid()
      ensures r >= 0.0
      ensures res % 2 == 0 ==> r <= 1.0
      ensures IsFullyCleaned() ==> completionNotices == 1
    {
      erasedPixels
    }

    /** `IsFullyCleaned`. */
    function IsFullyCleaned(): (r: bool)
      reads this, pixels
      requires Valid()
      ensures r <==> completionNotices == 1
    {
      isFullyCleaned
    }

    /** `DrawBrush`: darken the texels of the clipped disc around (centerX, centerY). */
    method DrawBrush(centerX: int, centerY: int, falloff: Falloff)
      requires Valid() && ValidFalloff(falloff)
      modifies pixels
      ensures Valid()
      ensures pixels[..] == Stroked(old(pixels[..]), res, centerX, centerY, BrushPixelSize(brushSize, res), falloff)
    {
      var size := BrushPixelSize(brushSize, res);
      var half := size / 2;
      ghost var before := pixels[..];
      StrokeStart(before, res, centerX, centerY, size, falloff);
      var y := -half;
      while y < half
        invariant -half <= y <= half
        invariant StrokedUpTo(pixels[..], before, res, centerX, centerY, size, falloff, y, -half)
      {
        StrokeRow(centerX, centerY, falloff, size, y, before);
        StrokeNextRow(pixels[..], before, res, centerX, centerY, size, falloff, y);
        y := y + 1;
      }
      StrokeEnd(pixels[..], before, res, centerX, centerY, size, falloff);
      StrokeKeepsUnit(before, res, centerX, centerY, size, falloff);
    }

    /** The inner loop of `DrawBrush`: row `y` of the disc, left to right. */
    method StrokeRow(centerX: int, centerY: int, falloff: Falloff, size: int, y: int, ghost before: seq<real>)
      requires res > 0 && pixels.Length == res * res && |before| == res * res && ValidFalloff(falloff)
      requires size >= 0 && -(size / 2) <= y < size / 2
      requires StrokedUpTo(pixels[..], before, res, centerX, centerY, size, falloff, y, -(size / 2))
      modifies pixels
      ensures StrokedUpTo(pixels[..], before, res, centerX, centerY, size, falloff, y, size / 2)
    {
      var half := size / 2;
      var x := -half;
      while x < half
        invariant -half <= x <= half
        invariant StrokedUpTo(pixels[..], before, res, centerX, centerY, size, falloff, y, x)
      {
        var px, py := centerX + x, centerY + y;
        if px >= 0 && px < res && py >= 0 && py < res && InDisc(x, y, size) {
          var alpha := falloff(x, y);
          var index := py * res + px;
          TexelIndex(px, py, res);
          var currentValue := pixels[index];
          StepHit(pixels[..], before, res, centerX, centerY, size, falloff, y, x, index, Darken(currentValue, alpha));
          pixels[index] := Darken(currentValue, alpha);
        } else {
          StepMiss(pixels[..], before, res, centerX, centerY, size, falloff, y, x);
        }
        x := x + 1;
      }
    }

    /** The sampling loop of `CheckCleanProgress`: count sampled texels darker than 0.5. */
    method CountSampledDark() returns (count: nat)
      requires Valid()
      ensures count == SampledDark(pixels[..], 0)
      ensures 4 * count <= pixels.Length + 3
    {
      count := 0;
      var i := 0;
      while i < pixels.Length
        invariant i % SampleStride == 0 && i <= pixels.Length + 3
        invariant count + SampledDark(pixels[..], i) == SampledDark(pixels[..], 0)
        decreases pixels.Length - i
      {
        if pixels[i] < DarkLevel {
          count := count + 1;
        }
        i := i + SampleStride;
      }
      SampledDarkBound(pixels[..], 0);
    }

    /** `CheckCleanProgress`: on every tenth frame, re-estimate the erased ratio and
        become fully cleaned (once) when it reaches the threshold. */
    method CheckCleanProgress(frameCount: nat) returns (fired: bool)
      requires Valid()
      modifies this
      ensures Valid()
      ensures frameCount % ProgressPeriod != 0 ==> erasedPixels == old(erasedPixels)
      ensures frameCount % ProgressPeriod == 0 ==>
        erasedPixels == Ratio(SampledDark(pixels[..], 0), res * res)
      ensures isFullyCleaned ==
        (old(isFullyCleaned) || (frameCount % ProgressPeriod == 0 && erasedPixels >= cleanThreshold))
      ensures fired <==> !old(isFullyCleaned) && isFullyCleaned
      ensures completionNotices == old(completionNotices) + (if fired then 1 else 0)
    {
      fired := false;
      if frameCount % ProgressPeriod != 0 {
        return;
      }
      var blackPixels := CountSampledDark();
      if res % 2 == 0 {
        EvenSquare(res);
        ProgressAtMostOne(pixels[..]);
      }
      erasedPixels := Ratio(blackPixels, res * res);
      if erasedPixels >= cleanThreshold && !isFullyCleaned {
        isFullyCleaned := true;
        OnFullyCleaned();
        fired := true;
      }
    }

    /** `OnFullyCleaned`: the notification to the cleaner and the shrink animation
        are recorded as one completion notice. */
    method OnFullyCleaned()
      modifies this`completionNotices
      ensures completionNotices == old(completionNotices) + 1
    {
      completionNotices := completionNotices + 1;
    }

    /** `EraseBrushStroke`: `hit` is the texture coordinate the pointer ray hit on
        this surface, or `None` when the ray missed it. */
    method EraseBrushStroke(hit: Option<Vec2>, frameCount: nat, falloff: Falloff) returns (fired: bool)
      requires Valid() && ValidFalloff(falloff)
      modifies this, pixels
      ensures Valid()
      ensures old(isFullyCleaned) || hit.None? || !InUnitSquare(hit.value) ==>
        pixels[..] == old(pixels[..]) && erasedPixels == old(erasedPixels) &&
        isFullyCleaned == old(isFullyCleaned) && !fired
      ensures !old(isFullyCleaned) && hit.Some? && InUnitSquare(hit.value) ==>
        pixels[..] == Stroked(old(pixels[..]), res, PixelCoord(hit.value.x, res), PixelCoord(hit.value.y, res),
                              BrushPixelSize(brushSize, res), falloff) &&
        (frameCount % ProgressPeriod == 0 ==> erasedPixels == Ratio(SampledDark(pixels[..], 0), res * res)) &&
        (frameCount % ProgressPeriod != 0 ==> erasedPixels == old(erasedPixels)) &&
        isFullyCleaned == (frameCount % ProgressPeriod == 0 && erasedPixels >= cleanThreshold)
      ensures fired <==> !old(isFullyCleaned) && isFullyCleaned
      ensures old(isFullyCleaned) ==> isFullyCleaned
      ensures completionNotices == old(completionNotices) + (if fired then 1 else 0)
    {
      fired := false;
      if isFullyCleaned {
        return;
      }
      if hit.None? {
        return;
      }
      var uv := hit.value;
      if uv.x < 0.0 || uv.x > 1.0 || uv.y < 0.0 || uv.y > 1.0 {
        return;
      }
      var pixelX := PixelCoord(uv.x, res);
      var pixelY := PixelCoord(uv.y, res);
      DrawBrush(pixelX, pixelY, falloff);
      fired := CheckCleanProgress(frameCount);
    }
  }
}
