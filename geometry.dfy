/** Values shared by the safe-area components: the engine's 2- and 3-vectors,
    its pixel-space `Rect`, the screen size, the clamping linear interpolation,
    the `[Flags]` edge set, and the part of a UI rectangle the components touch.
    Every float of the source is a `real` here (no rounding, no NaN). */
module Geometry {

  datatype Vector2 = Vector2(x: real, y: real)

  datatype Vector3 = Vector3(x: real, y: real, z: real)

  const Zero2: Vector2 := Vector2(0.0, 0.0)
  const One2: Vector2 := Vector2(1.0, 1.0)
  const One3: Vector3 := Vector3(1.0, 1.0, 1.0)

  function Add(a: Vector2, b: Vector2): Vector2 { Vector2(a.x + b.x, a.y + b.y) }

  function Sub(a: Vector2, b: Vector2): Vector2 { Vector2(a.x - b.x, a.y - b.y) }

  /** Component-wise product. */
  function Mul(a: Vector2, b: Vector2): Vector2 { Vector2(a.x * b.x, a.y * b.y) }

  /** The engine's `Rect`: a corner (x, y) with a width and a height, in pixels,
      origin bottom-left. `xMin` is `x` and `xMax` is `x + width` (no reordering),
      and `==` compares the four fields exactly. */
  datatype Rect = Rect(x: real, y: real, width: real, height: real)
  {
    function XMin(): real { x }
    function YMin(): real { y }
    function XMax(): real { x + width }
    function YMax(): real { y + height }
    function Position(): Vector2 { Vector2(x, y) }
    function Size(): Vector2 { Vector2(width, height) }
  }

  /** The default value of a `Rect` field. */
  const RectZero: Rect := Rect(0.0, 0.0, 0.0, 0.0)

  /** `Screen.width` and `Screen.height`, which are integers in the engine. */
  datatype Screen = Screen(width: int, height: int)
  {
    /** Both dimensions positive: the code divides by them without a guard. */
    predicate Valid() { width > 0 && height > 0 }

    function W(): real { width as real }
    function H(): real { height as real }

    /** The safe area lies within the screen. */
    predicate Contains(r: Rect) {
      0.0 <= r.x && 0.0 <= r.width && r.x + r.width <= W()
      && 0.0 <= r.y && 0.0 <= r.height && r.y + r.height <= H()
    }
  }

  /** A pair of normalised corners. */
  datatype Bounds = Bounds(min: Vector2, max: Vector2)
  {
    predicate InUnitSquare() {
      0.0 <= min.x <= 1.0 && 0.0 <= min.y <= 1.0
      && 0.0 <= max.x <= 1.0 && 0.0 <= max.y <= 1.0
    }
  }

  /** `r` lies between `a` and `b`, whatever their order. */
  predicate Between(a: real, b: real, r: real) {
    (a <= r <= b) || (b <= r <= a)
  }

  /** The engine's `Mathf.Clamp01`. */
  function Clamp01(t: real): (r: real)
    ensures 0.0 <= r <= 1.0
    ensures 0.0 <= t <= 1.0 ==> r == t
    ensures t <= 0.0 ==> r == 0.0
    ensures t >= 1.0 ==> r == 1.0
  {
    if t < 0.0 then 0.0 else if t > 1.0 then 1.0 else t
  }

  /** The product of a span and a factor in [0, 1] stays between 0 and the span. */
  lemma ScaledSpan(d: real, c: real)
    requires 0.0 <= c <= 1.0
    ensures Between(0.0, d, d * c)
  {
  }

  /** The engine's `Mathf.Lerp`: interpolation with the parameter clamped to [0, 1]. */
  function Lerp(a: real, b: real, t: real): (r: real)
    ensures t <= 0.0 ==> r == a
    ensures t >= 1.0 ==> r == b
    ensures Between(a, b, r)
    ensures a == b ==> r == a
  {
    ScaledSpan(b - a, Clamp01(t));
    a + (b - a) * Clamp01(t)
  }

  /** The `[Flags] enum Edge` of both components, over the enum's `int`. */
  type EdgeFlags = bv32

  const Top: EdgeFlags := 1
  const Bottom: EdgeFlags := 2
  const Left: EdgeFlags := 4
  const Right: EdgeFlags := 8

  /** `Top | Bottom | Left | Right`, the default of both components. */
  const AllEdges: EdgeFlags := Top | Bottom | Left | Right

  /** `Enum.HasFlag`: every bit of `flag` is set in `e`. */
  predicate HasFlag(e: EdgeFlags, flag: EdgeFlags) { e & flag == flag }

  /** The number of the four edges that `e` enables. */
  function EdgeCount(e: EdgeFlags): nat {
    (if HasFlag(e, Top) then 1 else 0) + (if HasFlag(e, Bottom) then 1 else 0)
    + (if HasFlag(e, Left) then 1 else 0) + (if HasFlag(e, Right) then 1 else 0)
  }

  /** The fields of a `RectTransform` that the components read or write, as a
      plain record (the engine's coupling between anchors and offsets is not
      modelled). */
  datatype RectTransformState = RectTransformState(
    anchorMin: Vector2,
    anchorMax: Vector2,
    offsetMin: Vector2,
    offsetMax: Vector2,
    localScale: Vector3)
}
