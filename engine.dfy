/** Values and helpers shared by the game's components: the engine's small value
    types (2D and 3D vectors, touch phases), the `Mathf` clamps and roundings the
    scripts use, and C#'s 32-bit signed integer arithmetic. Engine `float`s are
    modelled as `real`s. */
module Engine {

  datatype Option<+T> = None | Some(value: T)

  /** Identity of a scene object (a `Transform`, `GameObject` or `Renderer`). */
  type ObjId = nat

  datatype Vec2 = Vec2(x: real, y: real)
  datatype Vec3 = Vec3(x: real, y: real, z: real)

  /** `UnityEngine.TouchPhase`. */
  datatype TouchPhase = Began | Moved | Stationary | Ended | Canceled

  /** One touch of `Input.touches`: its phase and screen position. */
  datatype Touch = Touch(phase: TouchPhase, position: Vec2)

  function Abs(x: real): (r: real)
    ensures r >= 0.0 && (r == x || r == -x)
  {
    if x < 0.0 then -x else x
  }

  function MaxR(a: real, b: real): (r: real)
    ensures r >= a && r >= b && (r == a || r == b)
  {
    if a >= b then a else b
  }

  function MinR(a: real, b: real): (r: real)
    ensures r <= a && r <= b && (r == a || r == b)
  {
    if a <= b then a else b
  }

  function MaxI(a: int, b: int): (r: int)
    ensures r >= a && r >= b && (r == a || r == b)
  {
    if a >= b then a else b
  }

  /** `Mathf.Clamp(value, min, max)` for floats: below `min` gives `min`, otherwise
      above `max` gives `max`. With `min > max` the result is `min` or `max`, not
      necessarily inside both. */
  function Clamp(v: real, lo: real, hi: real): (r: real)
    ensures lo <= hi ==> lo <= r <= hi
    ensures lo <= v <= hi ==> r == v
    ensures v < lo ==> r == lo
    ensures lo <= v && v > hi ==> r == hi
  {
    if v < lo then lo else if v > hi then hi else v
  }

  /** `Mathf.Clamp(value, min, max)` for ints. */
  function ClampI(v: int, lo: int, hi: int): (r: int)
    ensures lo <= hi ==> lo <= r <= hi
    ensures lo <= v <= hi ==> r == v
    ensures v < lo ==> r == lo
    ensures lo <= v && v > hi ==> r == hi
  {
    if v < lo then lo else if v > hi then hi else v
  }

  /** `Mathf.Clamp01`. */
  function Clamp01(v: real): (r: real)
    ensures 0.0 <= r <= 1.0
    ensures 0.0 <= v <= 1.0 ==> r == v
  {
    Clamp(v, 0.0, 1.0)
  }

  /** `Mathf.Lerp(a, b, t)`: the interpolation parameter is clamped to [0,1]. */
  function Lerp(a: real, b: real, t: real): (r: real)
    ensures a <= b ==> a <= r <= b
    ensures b <= a ==> b <= r <= a
  {
    var u := Clamp01(t);
    ScaleWithinUnit(b - a, u);
    a + (b - a) * u
  }

  /** Scaling by a factor in [0,1] moves a value towards zero. */
  lemma ScaleWithinUnit(d: real, u: real)
    requires 0.0 <= u <= 1.0
    ensures d >= 0.0 ==> 0.0 <= d * u <= d
    ensures d <= 0.0 ==> d <= d * u <= 0.0
  {
    assert d - d * u == d * (1.0 - u);
  }

  /** `Mathf.Round` / `Mathf.RoundToInt`, which use .NET's `Math.Round`: the nearest
      integer, and on a tie the even one. */
  function RoundHalfEven(x: real): (r: int)
    ensures -0.5 <= x - r as real <= 0.5
    ensures x - r as real == 0.5 || x - r as real == -0.5 ==> r % 2 == 0
  {
    var f := x.Floor;
    var d := x - f as real;
    if d < 0.5 then f
    else if d > 0.5 then f + 1
    else if f % 2 == 0 then f
    else f + 1
  }

  const Int32Modulus: int := 0x1_0000_0000
  const Int32Min: int := -0x8000_0000
  const Int32Max: int := 0x7FFF_FFFF

  predicate IsInt32(x: int) {
    Int32Min <= x <= Int32Max
  }

  /** The value C#'s unchecked `int` arithmetic keeps of a mathematical result:
      two's-complement wrap-around into [-2^31, 2^31). */
  function Wrap32(x: int): (r: int)
    ensures IsInt32(r)
    ensures (r - x) % Int32Modulus == 0
    ensures IsInt32(x) ==> r == x
  {
    var m := (x - Int32Min) % Int32Modulus;
    m + Int32Min
  }

  /** Row-major addressing: cell (row, col) of a grid `width` wide sits at index
      `row * width + col`, and division and remainder by `width` recover it. */
  lemma RowMajor(row: int, col: int, width: int)
    requires width > 0 && 0 <= col < width
    ensures (row * width + col) / width == row
    ensures (row * width + col) % width == col
  {
    var i := row * width + col;
    var q, m := i / width, i % width;
    assert i == q * width + m;
    assert 0 <= m < width;
    var k := q - row;
    assert k * width == col - m by {
      assert q * width == (row + k) * width == row * width + k * width;
    }
    if k > 0 {
      MulAtLeast(k, width);
    } else if k < 0 {
      MulAtLeast(-k, width);
    }
  }

  lemma MulAtLeast(k: int, w: int)
    requires k >= 1 && w > 0
    ensures k * w >= w
  {
    if k > 1 {
      MulAtLeast(k - 1, w);
      assert k * w == (k - 1) * w + w;
    }
  }

  /** Multiplying by a non-negative factor keeps the order. */
  lemma MulMonotone(a: int, b: int, c: int)
    requires a <= b && c >= 0
    ensures a * c <= b * c
  {
    assert b * c - a * c == (b - a) * c;
  }
}
