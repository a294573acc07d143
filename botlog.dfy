/** BotLog: the log obstacle that slides toward the avalanche, fades out once it has
    passed the avalanche edge, and reports the completed fade (a dodge) to the world,
    which then respawns it off the right edge of the screen. Both copies of the class
    in the repository have the same logic and are modelled once here. */
module Log {
  import opened Geometry
  import Random

  const FadeSpeed: real := 3.0
  const BaseSpeed: real := 200.0
  const MinSpeedOffset: real := -80.0
  const MaxSpeedOffset: real := 120.0
  const DefaultWidth: real := 70.0
  const DefaultHeight: real := 75.0
  const CollisionWidth: real := 40.0
  const CollisionHeight: real := 40.0
  const CollisionOffsetX: real := (DefaultWidth - CollisionWidth) / 2.0
  const CollisionOffsetY: real := (DefaultHeight - CollisionHeight) / 2.0

  /** What update reads and writes: the sprite corner, the speed offset, the fade. */
  datatype LogState = LogState(x: real, y: real, speedOffset: real, alpha: real, fading: bool)

  /** The invariant every BotLog keeps: a log that is not fading is fully opaque,
      and a fading one is still partly visible. */
  predicate Consistent(s: LogState)
  {
    MinSpeedOffset <= s.speedOffset <= MaxSpeedOffset &&
    0.0 < s.alpha <= 1.0 && (!s.fading ==> s.alpha == 1.0)
  }

  /** The leftward speed: difficulty-scaled base, the log's own offset, and 0.7 of the
      player's speed in either direction. */
  function LogSpeed(difficulty: real, speedOffset: real, playerSpeedX: real): (r: real)
    ensures r >= BaseSpeed * difficulty + speedOffset
    ensures difficulty >= 1.0 && speedOffset >= MinSpeedOffset ==> r >= BaseSpeed + MinSpeedOffset
  {
    BaseSpeed * difficulty + speedOffset + Abs(playerSpeedX) * 0.7
  }

  lemma ScaleAtLeast(a: real, b: real, t: real)
    ensures a >= b && t >= 0.0 ==> a * t >= b * t
  {
    if a >= b && t >= 0.0 {
      assert (a - b) * t >= 0.0;
    }
  }

  /** One call of update: the new state and whether the log has just finished fading. */
  function Advance(s: LogState, delta: real, playerSpeedX: real, avalancheWidth: real,
                   difficulty: real): (r: (LogState, bool))
    ensures r.1 <==> s.fading && s.alpha - FadeSpeed * delta <= 0.0
    ensures r.1 ==> r.0 == s.(alpha := 1.0, fading := false)
    ensures s.fading && !r.1 ==> r.0 == s.(alpha := s.alpha - FadeSpeed * delta)
    ensures r.0.y == s.y && r.0.speedOffset == s.speedOffset
    ensures !s.fading ==> r.0.x == s.x - LogSpeed(difficulty, s.speedOffset, playerSpeedX) * delta
    ensures !s.fading ==> r.0.alpha == s.alpha && (r.0.fading <==> r.0.x + DefaultWidth < avalancheWidth)
    ensures !s.fading && delta >= 0.0 && difficulty >= 1.0 && s.speedOffset >= MinSpeedOffset ==>
              r.0.x <= s.x - (BaseSpeed + MinSpeedOffset) * delta
    ensures Consistent(s) && delta >= 0.0 ==> Consistent(r.0)
  {
    if s.fading then
      var a := s.alpha - FadeSpeed * delta;
      if a <= 0.0 then (s.(alpha := 1.0, fading := false), true)
      else (s.(alpha := a), false)
    else
      var speed := LogSpeed(difficulty, s.speedOffset, playerSpeedX);
      var newX := s.x - speed * delta;
      ScaleAtLeast(speed, BaseSpeed + MinSpeedOffset, delta);
      (s.(x := newX, fading := newX + DefaultWidth < avalancheWidth), false)
  }

  /** getRandomPositionInTrack, given its draw: the sprite fits between the track limits,
      or sits on the bottom one when the track is narrower than the log. */
  function PositionInTrack(trackBottom: real, trackTop: real, u: real): (y: real)
    requires 0.0 <= u < 1.0
    ensures trackBottom <= y
    ensures trackTop - DefaultHeight > trackBottom ==> y + DefaultHeight < trackTop
    ensures trackTop - DefaultHeight <= trackBottom ==> y == trackBottom
  {
    var effectiveTop := trackTop - DefaultHeight;
    if effectiveTop <= trackBottom then trackBottom
    else Random.Between(trackBottom, effectiveTop, u)
  }

  /** The draws respawn takes: the distance, the track position when the track is wide
      enough for the log, and the speed offset. */
  function RespawnDraws(trackBottom: real, trackTop: real): nat
  {
    if trackTop - DefaultHeight <= trackBottom then 2 else 3
  }

  /** respawn, given the draws from index `d` of `stream`: the log ahead of the right edge
      by the first draw's distance, on the track at the second, with the offset of the
      last; the fade is left as it is. */
  function Respawned(s: LogState, virtualWidth: real, minSpawnDistance: real, maxSpawnDistance: real,
                     trackBottom: real, trackTop: real, stream: nat -> real, d: nat): (r: LogState)
    requires forall k: nat :: 0.0 <= stream(k) < 1.0
    ensures r.alpha == s.alpha && r.fading == s.fading
    ensures minSpawnDistance <= maxSpawnDistance ==>
              virtualWidth + minSpawnDistance <= r.x <= virtualWidth + maxSpawnDistance
    ensures trackBottom <= r.y
    ensures trackTop - DefaultHeight > trackBottom ==> r.y + DefaultHeight < trackTop
    ensures MinSpeedOffset <= r.speedOffset <= MaxSpeedOffset
    ensures Consistent(s) ==> Consistent(r)
  {
    LogState(virtualWidth + Random.Between(minSpawnDistance, maxSpawnDistance, stream(d)),
             PositionInTrack(trackBottom, trackTop, stream(d + 1)),
             Random.Between(MinSpeedOffset, MaxSpeedOffset, stream(d + RespawnDraws(trackBottom, trackTop) - 1)),
             s.alpha, s.fading)
  }

  // ---------------------------------------------------------------------
  // Several frames in a row

  function Sum(deltas: seq<real>): real
    decreases |deltas|
  {
    if deltas == [] then 0.0 else deltas[0] + Sum(deltas[1..])
  }

  /** update called once per delta with the other arguments fixed: the final state and
      how many dodges were reported. */
  function Run(s: LogState, deltas: seq<real>, playerSpeedX: real, avalancheWidth: real,
               difficulty: real): (r: (LogState, nat))
    ensures r.1 <= |deltas|
    ensures r.1 <= (|deltas| + 1) / 2
    ensures !s.fading ==> r.1 <= |deltas| / 2
    decreases |deltas|
  {
    if deltas == [] then (s, 0)
    else
      var step := Advance(s, deltas[0], playerSpeedX, avalancheWidth, difficulty);
      var rest := Run(step.0, deltas[1..], playerSpeedX, avalancheWidth, difficulty);
      (rest.0, rest.1 + if step.1 then 1 else 0)
  }

  /** A fading log stays where it is and reports exactly one dodge, on the frame where its
      alpha is used up; it then comes back fully opaque and moving. */
  lemma {:induction false} FadeReportsOnce(s: LogState, deltas: seq<real>, playerSpeedX: real,
                                           avalancheWidth: real, difficulty: real)
    requires s.fading && 0.0 < s.alpha
    requires |deltas| > 0 && forall k :: 0 <= k < |deltas| ==> deltas[k] >= 0.0
    requires FadeSpeed * Sum(deltas[..|deltas| - 1]) < s.alpha <= FadeSpeed * Sum(deltas)
    ensures Run(s, deltas, playerSpeedX, avalancheWidth, difficulty) == (s.(alpha := 1.0, fading := false), 1)
    decreases |deltas|
  {
    var d := deltas[0];
    var step := Advance(s, d, playerSpeedX, avalancheWidth, difficulty);
    if |deltas| == 1 {
      assert deltas[1..] == [];
      assert Sum(deltas) == d + Sum(deltas[1..]);
      assert step.1;
    } else {
      var tail := deltas[1..];
      var init := deltas[..|deltas| - 1];
      assert init[1..] == tail[..|tail| - 1];
      assert Sum(init) == d + Sum(tail[..|tail| - 1]);
      assert Sum(deltas) == d + Sum(tail);
      SumNonNegative(tail[..|tail| - 1]);
      assert s.alpha - FadeSpeed * d > 0.0;
      assert step == (s.(alpha := s.alpha - FadeSpeed * d), false);
      FadeReportsOnce(step.0, tail, playerSpeedX, avalancheWidth, difficulty);
    }
  }

  lemma {:induction false} SumNonNegative(deltas: seq<real>)
    requires forall k :: 0 <= k < |deltas| ==> deltas[k] >= 0.0
    ensures Sum(deltas) >= 0.0
    decreases |deltas|
  {
    if deltas != [] {
      SumNonNegative(deltas[1..]);
    }
  }

  // ---------------------------------------------------------------------
  // The object

  class BotLog {
    /** The collision box; the sprite corner is recovered through the offsets. */
    var rect: Rect
    var speedOffset: real
    var alpha: real
    var isFadingOut: bool
    const collisionOffsetX: real
    const collisionOffsetY: real

    ghost predicate Valid()
      reads this
    {
      collisionOffsetX == CollisionOffsetX && collisionOffsetY == CollisionOffsetY &&
      rect.width == CollisionWidth && rect.height == CollisionHeight &&
      Consistent(State())
    }

    function GetX(): real
      reads this
    {
      rect.x - collisionOffsetX
    }

    function GetY(): real
      reads this
    {
      rect.y - collisionOffsetY
    }

    /** getAlpha: never negative. */
    function GetAlpha(): (a: real)
      reads this
      ensures a >= 0.0 && (alpha >= 0.0 ==> a == alpha)
      ensures Valid() ==> 0.0 < a <= 1.0
    {
      Max(0.0, alpha)
    }

    ghost function State(): LogState
      reads this
    {
      LogState(GetX(), GetY(), speedOffset, alpha, isFadingOut)
    }

    /** BotLog(texture, x, y) and BotLog(texturePath, x, y): the sprite at (x, y). */
    constructor (x: real, y: real, rng: Random.Source)
      requires rng.Valid()
      modifies rng`drawn
      ensures Valid() && GetX() == x && GetY() == y && !isFadingOut && alpha == 1.0
      ensures speedOffset == Random.Between(MinSpeedOffset, MaxSpeedOffset, rng.stream(old(rng.drawn)))
      ensures rng.drawn == old(rng.drawn) + 1
    {
      var offset := rng.Range(MinSpeedOffset, MaxSpeedOffset);
      collisionOffsetX := CollisionOffsetX;
      collisionOffsetY := CollisionOffsetY;
      rect := Rect(x + CollisionOffsetX, y + CollisionOffsetY, CollisionWidth, CollisionHeight);
      alpha := 1.0;
      isFadingOut := false;
      speedOffset := offset;
    }

    /** BotLog(): the collision box itself at the origin, so the sprite corner sits
        at minus the offsets. */
    constructor Placeholder(rng: Random.Source)
      requires rng.Valid()
      modifies rng`drawn
      ensures Valid() && rect.x == 0.0 && rect.y == 0.0
      ensures GetX() == -CollisionOffsetX && GetY() == -CollisionOffsetY
      ensures !isFadingOut && alpha == 1.0
      ensures speedOffset == Random.Between(MinSpeedOffset, MaxSpeedOffset, rng.stream(old(rng.drawn)))
      ensures rng.drawn == old(rng.drawn) + 1
    {
      var offset := rng.Range(MinSpeedOffset, MaxSpeedOffset);
      collisionOffsetX := CollisionOffsetX;
      collisionOffsetY := CollisionOffsetY;
      rect := Rect(0.0, 0.0, CollisionWidth, CollisionHeight);
      alpha := 1.0;
      isFadingOut := false;
      speedOffset := offset;
    }

    /** update: moves or fades the log; true when a fade has just completed. */
    method Update(delta: real, playerSpeedX: real, avalancheWidth: real, virtualWidth: real,
                  difficultyScalar: real) returns (dodged: bool)
      requires Valid() && delta >= 0.0
      modifies this`rect, this`alpha, this`isFadingOut
      ensures Valid()
      ensures (State(), dodged) == Advance(old(State()), delta, playerSpeedX, avalancheWidth, difficultyScalar)
    {
      ghost var r := Advance(State(), delta, playerSpeedX, avalancheWidth, difficultyScalar);
      if isFadingOut {
        alpha := alpha - FadeSpeed * delta;
        if alpha <= 0.0 {
          isFadingOut := false;
          alpha := 1.0;
          return true;
        }
        return false;
      }
      var speed := LogSpeed(difficultyScalar, speedOffset, playerSpeedX);
      var newX := GetX() - speed * delta;
      assert newX == r.0.x;
      UpdatePosition(newX, GetY());
      if newX + DefaultWidth < avalancheWidth {
        isFadingOut := true;
      }
      assert State() == r.0;
      return false;
    }

    /** updatePosition: places the sprite corner at (x, y). */
    method UpdatePosition(x: real, y: real)
      requires Valid()
      modifies this`rect
      ensures Valid() && GetX() == x && GetY() == y
      ensures rect.width == old(rect.width) && rect.height == old(rect.height)
    {
      rect := rect.(x := x + collisionOffsetX, y := y + collisionOffsetY);
    }

    /** respawn: off the right edge by a random distance, on a random spot of the track,
        with a fresh speed offset; the fade state is left as it is. */
    method Respawn(virtualWidth: real, minSpawnDistance: real, maxSpawnDistance: real,
                   trackBottom: real, trackTop: real, rng: Random.Source)
      requires Valid() && rng.Valid()
      modifies this`rect, this`speedOffset, rng`drawn
      ensures Valid() && alpha == old(alpha) && isFadingOut == old(isFadingOut)
      ensures GetX() == virtualWidth + Random.Between(minSpawnDistance, maxSpawnDistance, rng.stream(old(rng.drawn)))
      ensures minSpawnDistance <= maxSpawnDistance ==>
                virtualWidth + minSpawnDistance <= GetX() <= virtualWidth + maxSpawnDistance
      ensures trackBottom <= GetY()
      ensures trackTop - DefaultHeight > trackBottom ==> GetY() + DefaultHeight < trackTop
      ensures trackTop - DefaultHeight <= trackBottom ==> GetY() == trackBottom
      ensures MinSpeedOffset <= speedOffset <= MaxSpeedOffset
      ensures State() == Respawned(old(State()), virtualWidth, minSpawnDistance, maxSpawnDistance,
                                   trackBottom, trackTop, rng.stream, old(rng.drawn))
      ensures rng.drawn == old(rng.drawn) + RespawnDraws(trackBottom, trackTop)
    {
      var distance := rng.Range(minSpawnDistance, maxSpawnDistance);
      var newX := virtualWidth + distance;
      var newY := RandomPositionInTrack(trackBottom, trackTop, rng);
      speedOffset := rng.Range(MinSpeedOffset, MaxSpeedOffset);
      UpdatePosition(newX, newY);
    }

    /** getRandomPositionInTrack: draws only when the track is wide enough. */
    static method RandomPositionInTrack(trackBottom: real, trackTop: real, rng: Random.Source)
      returns (y: real)
      requires rng.Valid()
      modifies rng`drawn
      ensures y == PositionInTrack(trackBottom, trackTop, rng.stream(old(rng.drawn)))
      ensures rng.drawn == old(rng.drawn) + (if trackTop - DefaultHeight <= trackBottom then 0 else 1)
    {
      var effectiveTop := trackTop - DefaultHeight;
      if effectiveTop <= trackBottom {
        return trackBottom;
      }
      y := rng.Range(trackBottom, effectiveTop);
    }
  }
}
