/** The random draws of the game (java.util.Random.nextFloat / nextBoolean,
    Math.random and MathUtils.random) taken from one injected, seedable stream of
    values in [0, 1), consumed in order. */
module Random {

  /** MathUtils.random(start, end): start + nextFloat() * (end - start). */
  function Between(lo: real, hi: real, u: real): (r: real)
    requires 0.0 <= u < 1.0
    ensures lo <= hi ==> lo <= r <= hi
    ensures lo < hi ==> r < hi
    ensures lo == hi ==> r == lo
  {
    lo + Fraction(u, hi - lo)
  }

  /** The share `u` of a width `w`: for a non-negative width it lies in [0, w], and
      strictly below a positive one. */
  function Fraction(u: real, w: real): (p: real)
    requires 0.0 <= u < 1.0
    ensures w >= 0.0 ==> 0.0 <= p <= w
    ensures w > 0.0 ==> p < w
    ensures w == 0.0 ==> p == 0.0
  {
    if w > 0.0 then ScaleBelow(u, w); u * w
    else if w == 0.0 then 0.0
    else u * w
  }

  /** A fraction of a non-negative width stays within that width. */
  lemma ScaleBelow(u: real, w: real)
    requires 0.0 <= u < 1.0
    ensures w >= 0.0 ==> 0.0 <= u * w <= w
    ensures w > 0.0 ==> u * w < w
    ensures w == 0.0 ==> u * w == 0.0
  {
    if w > 0.0 {
      assert 0.0 <= u * w;
      assert (1.0 - u) * w > 0.0;
    }
  }

  class Source {
    /** The stream the source replays; `drawn` counts the values already used. */
    const stream: nat -> real
    var drawn: nat

    ghost predicate Valid()
    {
      forall k: nat :: 0.0 <= stream(k) < 1.0
    }

    constructor (stream: nat -> real)
      requires forall k: nat :: 0.0 <= stream(k) < 1.0
      ensures Valid() && this.stream == stream && drawn == 0
    {
      this.stream := stream;
      drawn := 0;
    }

    /** Random.nextFloat / Math.random: the next value of the stream. */
    method NextFloat() returns (u: real)
      requires Valid()
      modifies this`drawn
      ensures 0.0 <= u < 1.0
      ensures u == stream(old(drawn)) && drawn == old(drawn) + 1
    {
      u := stream(drawn);
      drawn := drawn + 1;
    }

    /** MathUtils.random(start, end). */
    method Range(lo: real, hi: real) returns (r: real)
      requires Valid()
      modifies this`drawn
      ensures r == Between(lo, hi, stream(old(drawn))) && drawn == old(drawn) + 1
      ensures lo <= hi ==> lo <= r <= hi
    {
      var u := NextFloat();
      r := Between(lo, hi, u);
    }

    /** Random.nextBoolean: one draw, true on its lower half. */
    method NextBoolean() returns (b: bool)
      requires Valid()
      modifies this`drawn
      ensures b == (stream(old(drawn)) < 0.5) && drawn == old(drawn) + 1
    {
      var u := NextFloat();
      b := u < 0.5;
    }
  }
}
