/** ZigZagProp: an obstacle that falls down the screen at a constant speed while
    swaying left and right around the column it was created in. */
module ZigZag {
  import opened Geometry

  const Speed: real := 200.0
  const Amplitude: real := 10.0
  const Frequency: real := 2.7
  const PropWidth: real := 75.0
  const PropHeight: real := 77.0

  /** The sway around `anchor` after `time` seconds. */
  function Sway(anchor: real, time: real, sine: real -> real): (r: real)
    requires IsSine(sine)
    ensures anchor - Amplitude <= r <= anchor + Amplitude
    ensures time == 0.0 ==> r == anchor
  {
    assert -1.0 <= sine(time * Frequency) <= 1.0;
    anchor + sine(time * Frequency) * Amplitude
  }

  class ZigZagProp {
    var x: real
    var y: real
    var width: real
    var height: real
    const initialX: real
    /** The starting height; the source only keeps it implicitly in y. */
    ghost const initialY: real
    var bounds: Rect
    var isLava: bool
    var time: real
    /** MathUtils.sin */
    const sine: real -> real

    /** The prop sits on its sway curve, has fallen Speed times the elapsed time, and
        its bounds are its own box. */
    ghost predicate Valid()
      reads this
    {
      IsSine(sine) && width == PropWidth && height == PropHeight &&
      x == Sway(initialX, time, sine) && y == initialY - Speed * time &&
      bounds == Rect(x, y, width, height)
    }

    constructor (startX: real, startY: real, sine: real -> real)
      requires IsSine(sine)
      ensures Valid() && x == startX && y == startY && time == 0.0 && !isLava
      ensures initialX == startX && initialY == startY
    {
      x, y := startX, startY;
      width, height := PropWidth, PropHeight;
      initialX, initialY := startX, startY;
      bounds := Rect(startX, startY, PropWidth, PropHeight);
      isLava := false;
      time := 0.0;
      this.sine := sine;
    }

    /** update: one frame of falling and swaying. */
    method Update(delta: real)
      requires Valid()
      modifies this`x, this`y, this`time, this`bounds
      ensures Valid() && time == old(time) + delta
      ensures y == old(y) - Speed * delta
      ensures initialX - Amplitude <= x <= initialX + Amplitude
    {
      time := time + delta;
      x := initialX + sine(time * Frequency) * Amplitude;
      y := y - Speed * delta;
      bounds := Rect(x, y, width, height);
    }
  }
}
