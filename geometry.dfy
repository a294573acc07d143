/** Value-level geometry shared by every entity of the simulation: the libGDX
    rectangle as a record, its overlap test, and the clamps the game applies. */
module Geometry {

  /** A libGDX Rectangle: origin (x, y) at the lower-left corner and a size. */
  datatype Rect = Rect(x: real, y: real, width: real, height: real)

  /** Rectangle.overlaps: the two boxes share interior points (strict on every side). */
  predicate Overlaps(a: Rect, b: Rect)
  {
    a.x < b.x + b.width && a.x + a.width > b.x &&
    a.y < b.y + b.height && a.y + a.height > b.y
  }

  function Min(a: real, b: real): (r: real)
    ensures r <= a && r <= b
    ensures r == a || r == b
  {
    if a <= b then a else b
  }

  function Max(a: real, b: real): (r: real)
    ensures r >= a && r >= b
    ensures r == a || r == b
  {
    if a >= b then a else b
  }

  /** Math.max on the int score. */
  function MaxInt(a: int, b: int): (r: int)
    ensures r >= a && r >= b
    ensures r == a || r == b
  {
    if a >= b then a else b
  }

  function Abs(v: real): (r: real)
    ensures r >= 0.0
    ensures r == v || r == -v
  {
    if v >= 0.0 then v else -v
  }

  /** MathUtils.clamp: below the range gives the lower end, above it the upper end. */
  function Clamp(value: real, lo: real, hi: real): (r: real)
    ensures lo <= hi ==> lo <= r <= hi
    ensures lo <= value <= hi ==> r == value
    ensures value < lo ==> r == lo
    ensures lo <= hi && value > hi ==> r == hi
  {
    if value < lo then lo else if value > hi then hi else value
  }

  /** What the model knows of Math.sin / MathUtils.sin: its values lie in [-1, 1]
      and it vanishes at zero. */
  ghost predicate IsSine(sine: real -> real)
  {
    sine(0.0) == 0.0 && forall t :: -1.0 <= sine(t) <= 1.0
  }
}
