/** The visual-effect particles both GameWorld variants keep in lists (the inner
    classes PlayerDashLine, WindLine and SnowEffect), as values, and the backward
    sweep that updates a list and drops every particle whose death predicate holds. */
module Particles {
  import opened Geometry
  import opened Physics
  import Random

  // ---------------------------------------------------------------------
  // PlayerDashLine

  datatype DashLine = DashLine(x: real, y: real, length: real, alpha: real)

  const DashSpeed: real := 1000.0
  const DashFadeRate: real := 3.0
  const DashStartAlpha: real := 0.7

  /** new PlayerDashLine(startX, startY), given its two MathUtils.random draws. */
  function NewDashLine(startX: real, startY: real, uOffset: real, uLength: real): (d: DashLine)
    requires 0.0 <= uOffset < 1.0 && 0.0 <= uLength < 1.0
    ensures d.x == startX && startY - PlayerHeight / 4.0 <= d.y <= startY + PlayerHeight / 4.0
    ensures 20.0 <= d.length <= 40.0
    ensures d.alpha == DashStartAlpha && !DashDead(d)
  {
    DashLine(startX, startY + Random.Between(-PlayerHeight / 4.0, PlayerHeight / 4.0, uOffset),
             Random.Between(20.0, 40.0, uLength), DashStartAlpha)
  }

  /** PlayerDashLine.update: slides left and fades. */
  function DashStep(d: DashLine, delta: real): DashLine
  {
    d.(x := d.x - DashSpeed * delta, alpha := d.alpha - DashFadeRate * delta)
  }

  /** PlayerDashLine.isDead */
  predicate DashDead(d: DashLine)
  {
    d.alpha <= 0.0
  }

  /** new PlayerDashLine(startX, startY): two draws, the vertical jitter then the length. */
  method SpawnDashLine(startX: real, startY: real, rng: Random.Source) returns (d: DashLine)
    requires rng.Valid()
    modifies rng`drawn
    ensures d == NewDashLine(startX, startY, rng.stream(old(rng.drawn)), rng.stream(old(rng.drawn) + 1))
    ensures rng.drawn == old(rng.drawn) + 2 && !DashDead(d)
  {
    var uOffset := rng.NextFloat();
    var uLength := rng.NextFloat();
    d := NewDashLine(startX, startY, uOffset, uLength);
  }

  /** The update applied to every dash line in one tick, as a value. */
  function DashStepper(delta: real): DashLine -> DashLine
  {
    d => DashStep(d, delta)
  }

  // ---------------------------------------------------------------------
  // WindLine

  datatype WindLine = WindLine(x: real, y: real, length: real, speed: real, thickness: real, alpha: real)

  const WindFadeRate: real := 0.5

  /** WindLine.reset, given its Math.random draws for y, length, speed, thickness and alpha. */
  function NewWindLine(uy: real, uLength: real, uSpeed: real, uThickness: real, uAlpha: real): (w: WindLine)
    requires 0.0 <= uy < 1.0 && 0.0 <= uLength < 1.0 && 0.0 <= uSpeed < 1.0
    requires 0.0 <= uThickness < 1.0 && 0.0 <= uAlpha < 1.0
    ensures w.x == -50.0 && 0.0 <= w.y < VirtualHeight
    ensures 50.0 <= w.length < 150.0 && 250.0 <= w.speed < 450.0
    ensures 1.0 <= w.thickness < 3.0 && 0.1 <= w.alpha < 0.3
    ensures !WindExpired(w)
  {
    WindLine(-50.0, uy * VirtualHeight, uLength * 100.0 + 50.0, uSpeed * 200.0 + 250.0,
             uThickness * 2.0 + 1.0, uAlpha * 0.2 + 0.1)
  }

  /** new WindLine() / WindLine.reset: five draws in a row. */
  method ResetWindLine(rng: Random.Source) returns (w: WindLine)
    requires rng.Valid()
    modifies rng`drawn
    ensures var d := old(rng.drawn);
            w == NewWindLine(rng.stream(d), rng.stream(d + 1), rng.stream(d + 2), rng.stream(d + 3), rng.stream(d + 4))
    ensures rng.drawn == old(rng.drawn) + 5 && !WindExpired(w)
  {
    var uy := rng.NextFloat();
    var uLength := rng.NextFloat();
    var uSpeed := rng.NextFloat();
    var uThickness := rng.NextFloat();
    var uAlpha := rng.NextFloat();
    w := NewWindLine(uy, uLength, uSpeed, uThickness, uAlpha);
  }

  /** The `count` new WindLines of GameWorld's constructor, made one after another, five
      draws each. */
  method NewWindLines(count: nat, rng: Random.Source) returns (lines: seq<WindLine>)
    requires rng.Valid()
    modifies rng`drawn
    ensures |lines| == count && rng.drawn == old(rng.drawn) + 5 * count
    ensures forall k :: 0 <= k < count ==>
              var d := old(rng.drawn) + 5 * k;
              lines[k] == NewWindLine(rng.stream(d), rng.stream(d + 1), rng.stream(d + 2), rng.stream(d + 3),
                                      rng.stream(d + 4))
    ensures forall k :: 0 <= k < |lines| ==> !WindExpired(lines[k])
  {
    lines := [];
    while |lines| < count
      invariant |lines| <= count && rng.drawn == old(rng.drawn) + 5 * |lines|
      invariant forall k :: 0 <= k < |lines| ==>
                  var d := old(rng.drawn) + 5 * k;
                  lines[k] == NewWindLine(rng.stream(d), rng.stream(d + 1), rng.stream(d + 2), rng.stream(d + 3),
                                          rng.stream(d + 4))
      invariant forall k :: 0 <= k < |lines| ==> !WindExpired(lines[k])
      decreases count - |lines|
    {
      var w := ResetWindLine(rng);
      lines := lines + [w];
    }
  }

  /** The movement half of WindLine.update: speed scaled by 1 + (difficulty - 1) * 0.8. */
  function WindAdvance(w: WindLine, delta: real, difficulty: real): WindLine
  {
    w.(x := w.x + w.speed * (1.0 + (difficulty - 1.0) * 0.8) * delta, alpha := w.alpha - WindFadeRate * delta)
  }

  /** The reset condition of WindLine.update. */
  predicate WindExpired(w: WindLine)
  {
    w.x > VirtualWidth + 100.0 || w.alpha <= 0.0
  }

  /** How many of `lines` run out on this tick and are reset, five draws each. */
  function WindResets(lines: seq<WindLine>, delta: real, difficulty: real): (n: nat)
    ensures n <= |lines|
    decreases |lines|
  {
    if lines == [] then 0
    else WindResets(lines[..|lines| - 1], delta, difficulty) +
         (if WindExpired(WindAdvance(lines[|lines| - 1], delta, difficulty)) then 1 else 0)
  }

  /** WindLine.update for one line whose reset, if it has run out, takes the five draws
      from index `e` of `stream`: the line is never left expired. */
  function WindNext(line: WindLine, delta: real, difficulty: real, stream: nat -> real, e: nat): (r: WindLine)
    requires forall k: nat :: 0.0 <= stream(k) < 1.0
    ensures !WindExpired(r)
    ensures !WindExpired(WindAdvance(line, delta, difficulty)) ==> r == WindAdvance(line, delta, difficulty)
    ensures WindExpired(WindAdvance(line, delta, difficulty)) ==>
              r == NewWindLine(stream(e), stream(e + 1), stream(e + 2), stream(e + 3), stream(e + 4))
  {
    var w := WindAdvance(line, delta, difficulty);
    if WindExpired(w) then NewWindLine(stream(e), stream(e + 1), stream(e + 2), stream(e + 3), stream(e + 4))
    else w
  }

  /** One tick of the wind lines, first to last, with the draws taken from index `d` of
      `stream`: each line is updated, and a line that runs out is reset from the draws
      left after the resets of the lines before it. */
  function WindTick(lines: seq<WindLine>, delta: real, difficulty: real, stream: nat -> real, d: nat)
    : (r: seq<WindLine>)
    requires forall k: nat :: 0.0 <= stream(k) < 1.0
    ensures |r| == |lines|
    ensures forall k :: 0 <= k < |r| ==> !WindExpired(r[k])
    decreases |lines|
  {
    if lines == [] then []
    else
      var init := lines[..|lines| - 1];
      WindTick(init, delta, difficulty, stream, d) +
      [WindNext(lines[|lines| - 1], delta, difficulty, stream, d + 5 * WindResets(init, delta, difficulty))]
  }

  /** updateWindEffect's loop: every line moves and fades, and a line that has left the
      screen or faded out is reset in place from the next five draws. */
  method UpdateWindLines(lines: seq<WindLine>, delta: real, difficulty: real, rng: Random.Source)
    returns (r: seq<WindLine>)
    requires rng.Valid()
    modifies rng`drawn
    ensures r == WindTick(lines, delta, difficulty, rng.stream, old(rng.drawn))
    ensures rng.drawn == old(rng.drawn) + 5 * WindResets(lines, delta, difficulty)
  {
    ghost var d := rng.drawn;
    r := lines;
    var i := 0;
    while i < |r|
      invariant 0 <= i <= |lines| && |r| == |lines|
      invariant r[..i] == WindTick(lines[..i], delta, difficulty, rng.stream, d)
      invariant r[i..] == lines[i..]
      invariant rng.drawn == d + 5 * WindResets(lines[..i], delta, difficulty)
    {
      assert r[i] == lines[i] by { assert r[i] == r[i..][0]; }
      var w := WindAdvance(r[i], delta, difficulty);
      if WindExpired(w) {
        w := ResetWindLine(rng);
      }
      WindTickStep(lines, r, i, w, delta, difficulty, rng.stream, d);
      r := r[i := w];
      i := i + 1;
    }
    assert r[..i] == r && lines[..i] == lines;
  }

  /** One iteration of that loop: writing line i's update over it extends the tick by
      one line and leaves the rest of the list alone. */
  lemma WindTickStep(lines: seq<WindLine>, r: seq<WindLine>, i: nat, w: WindLine, delta: real, difficulty: real,
                     stream: nat -> real, d: nat)
    requires forall k: nat :: 0.0 <= stream(k) < 1.0
    requires i < |lines| == |r|
    requires r[..i] == WindTick(lines[..i], delta, difficulty, stream, d) && r[i..] == lines[i..]
    requires w == WindNext(lines[i], delta, difficulty, stream, d + 5 * WindResets(lines[..i], delta, difficulty))
    ensures r[i := w][..i + 1] == WindTick(lines[..i + 1], delta, difficulty, stream, d)
    ensures r[i := w][i + 1..] == lines[i + 1..]
    ensures WindResets(lines[..i + 1], delta, difficulty) ==
            WindResets(lines[..i], delta, difficulty) +
            (if WindExpired(WindAdvance(lines[i], delta, difficulty)) then 1 else 0)
  {
    assert lines[..i + 1][..i] == lines[..i];
    assert r[i := w][..i + 1] == r[..i] + [w];
    assert r[i := w][i + 1..] == r[i..][1..];
  }

  /** Line k after a tick is line k updated, reset from the draws left after the resets
      of the lines before it; so no line is left expired. */
  lemma {:induction false} WindTickLine(lines: seq<WindLine>, delta: real, difficulty: real,
                                        stream: nat -> real, d: nat, k: int)
    requires forall k: nat :: 0.0 <= stream(k) < 1.0
    requires 0 <= k < |lines|
    ensures WindTick(lines, delta, difficulty, stream, d)[k] ==
            WindNext(lines[k], delta, difficulty, stream, d + 5 * WindResets(lines[..k], delta, difficulty))
    ensures !WindExpired(WindTick(lines, delta, difficulty, stream, d)[k])
    decreases |lines|
  {
    var init := lines[..|lines| - 1];
    var rest := WindTick(init, delta, difficulty, stream, d);
    assert WindTick(lines, delta, difficulty, stream, d) ==
           rest + [WindNext(lines[|lines| - 1], delta, difficulty, stream, d + 5 * WindResets(init, delta, difficulty))];
    if k < |init| {
      WindTickLine(init, delta, difficulty, stream, d, k);
      assert init[k] == lines[k] && init[..k] == lines[..k];
    } else {
      assert lines[..k] == init;
    }
  }

  // ---------------------------------------------------------------------
  // SnowEffect (rotation and colour are purely visual and not modelled)

  datatype SnowEffect = SnowEffect(x: real, y: real, size: real, speed: real,
                                   life: real, maxLife: real, isSnowball: bool)

  /** avalancheIntensity = min(1, avalancheTimer * 0.1). */
  function Intensity(avalancheTimer: real): (r: real)
    ensures r <= 1.0
    ensures avalancheTimer >= 0.0 ==> 0.0 <= r
  {
    Min(1.0, avalancheTimer * 0.1)
  }

  /** new SnowEffect(avalancheHeight), given its draws (a snowball or a puff). */
  function NewSnowEffect(isSnowball: bool, ux: real, uSize: real, uy: real, uSpeed: real, uLife: real,
                         intensity: real, avalancheHeight: real): (s: SnowEffect)
    requires 0.0 <= ux < 1.0 && 0.0 <= uSize < 1.0 && 0.0 <= uy < 1.0 && 0.0 <= uSpeed < 1.0 && 0.0 <= uLife < 1.0
    requires 0.0 <= intensity <= 1.0
    ensures s.isSnowball == isSnowball && 0.0 <= s.x < AvalancheWidth + 20.0
    ensures s.life == s.maxLife && s.maxLife >= 1.0
    ensures !SnowDead(s)
  {
    var x := ux * (AvalancheWidth + 20.0);
    if isSnowball then
      SnowEffect(x, uy * avalancheHeight, uSize * 12.0 + 8.0, uSpeed * 80.0 + 40.0 + intensity * 80.0,
                 uLife * 4.0 + 3.0, uLife * 4.0 + 3.0, true)
    else
      SnowEffect(x, uy * avalancheHeight, uSize * 40.0 + 20.0, uSpeed * 60.0 + 30.0 + intensity * 60.0,
                 uLife * 1.5 + 1.0, uLife * 1.5 + 1.0, false)
  }

  /** new SnowEffect(avalancheHeight): the kind, then x, size, y, speed and lifetime,
      then the two draws of the purely visual rotation. */
  method SpawnSnowEffect(intensity: real, avalancheHeight: real, rng: Random.Source)
    returns (s: SnowEffect)
    requires rng.Valid() && 0.0 <= intensity <= 1.0
    modifies rng`drawn
    ensures var d := old(rng.drawn);
            s == NewSnowEffect(rng.stream(d) < 0.5, rng.stream(d + 1), rng.stream(d + 2), rng.stream(d + 3),
                               rng.stream(d + 4), rng.stream(d + 5), intensity, avalancheHeight)
    ensures rng.drawn == old(rng.drawn) + 8 && !SnowDead(s)
  {
    var isSnowball := rng.NextBoolean();
    var ux := rng.NextFloat();
    var uSize := rng.NextFloat();
    var uy := rng.NextFloat();
    var uSpeed := rng.NextFloat();
    var uLife := rng.NextFloat();
    var rotation := rng.NextFloat();
    var rotationSpeed := rng.NextFloat();
    s := NewSnowEffect(isSnowball, ux, uSize, uy, uSpeed, uLife, intensity, avalancheHeight);
  }

  /** The spawn of updateAvalanche, given the draws from index `d` of `stream`: a snow
      effect is added when the first draw is below 0.9 + intensity / 10, made from the
      next eight. */
  function SnowSpawned(intensity: real, avalancheHeight: real, stream: nat -> real, d: nat)
    : (r: seq<SnowEffect>)
    requires forall k: nat :: 0.0 <= stream(k) < 1.0
    requires 0.0 <= intensity <= 1.0
    ensures |r| <= 1 && (|r| == 1 <==> stream(d) < 0.9 + intensity * 0.1)
    ensures forall k :: 0 <= k < |r| ==> !SnowDead(r[k])
  {
    if stream(d) < 0.9 + intensity * 0.1 then
      [NewSnowEffect(stream(d + 1) < 0.5, stream(d + 2), stream(d + 3), stream(d + 4), stream(d + 5),
                     stream(d + 6), intensity, avalancheHeight)]
    else []
  }

  /** The spawn draw, and the eight of the effect when one is spawned. */
  method SpawnSnowWhenDue(intensity: real, avalancheHeight: real, rng: Random.Source)
    returns (spawned: seq<SnowEffect>)
    requires rng.Valid() && 0.0 <= intensity <= 1.0
    modifies rng`drawn
    ensures spawned == SnowSpawned(intensity, avalancheHeight, rng.stream, old(rng.drawn))
    ensures rng.drawn == old(rng.drawn) + 1 + 8 * |spawned|
  {
    var u := rng.NextFloat();
    spawned := [];
    if u < 0.9 + intensity * 0.1 {
      var s := SpawnSnowEffect(intensity, avalancheHeight, rng);
      spawned := [s];
    }
  }

  /** The snow of one avalanche tick, with the draws from index `d` of `stream`: the
      survivors of the list with the spawned effect, if any, at its end. */
  function SnowTick(effects: seq<SnowEffect>, intensity: real, avalancheHeight: real, delta: real,
                    difficulty: real, avalancheTimer: real, sine: real -> real, stream: nat -> real, d: nat)
    : (r: seq<SnowEffect>)
    requires forall k: nat :: 0.0 <= stream(k) < 1.0
    requires 0.0 <= intensity <= 1.0
    ensures |r| <= |effects| + 1
    ensures forall k :: 0 <= k < |r| ==> !SnowDead(r[k])
  {
    Survivors(effects + SnowSpawned(intensity, avalancheHeight, stream, d),
              SnowStepper(delta, difficulty, avalancheTimer, sine), SnowDead)
  }

  /** The draws of one avalanche tick: the spawn draw, and eight more for a spawned effect. */
  function SnowDraws(intensity: real, stream: nat -> real, d: nat): nat
  {
    if stream(d) < 0.9 + intensity * 0.1 then 9 else 1
  }

  /** The snow part of updateAvalanche: the spawn, then the backward sweep over the list
      with the new effect at its end. */
  method TickSnow(effects: seq<SnowEffect>, intensity: real, avalancheHeight: real, delta: real,
                  difficulty: real, avalancheTimer: real, sine: real -> real, rng: Random.Source)
    returns (r: seq<SnowEffect>)
    requires rng.Valid() && 0.0 <= intensity <= 1.0
    modifies rng`drawn
    ensures r == SnowTick(effects, intensity, avalancheHeight, delta, difficulty, avalancheTimer, sine,
                          rng.stream, old(rng.drawn))
    ensures rng.drawn == old(rng.drawn) + SnowDraws(intensity, rng.stream, old(rng.drawn))
  {
    var spawned := SpawnSnowWhenDue(intensity, avalancheHeight, rng);
    r := SweepParticles(effects + spawned, SnowStepper(delta, difficulty, avalancheTimer, sine), SnowDead);
  }

  /** SnowEffect.update: drifts right at a difficulty-scaled speed, ages and grows;
      a puff also wobbles vertically along the sine of the avalanche clock. */
  function SnowStep(s: SnowEffect, delta: real, difficulty: real, avalancheTimer: real,
                    sine: real -> real): SnowEffect
  {
    var x := s.x + s.speed * difficulty * delta;
    if s.isSnowball then
      s.(x := x, life := s.life - delta, size := s.size + 8.0 * delta)
    else
      s.(x := x, life := s.life - delta, size := s.size + 40.0 * delta,
         y := s.y + sine(avalancheTimer * 3.0 + x * 0.01) * 20.0 * delta)
  }

  /** SnowEffect.isDead */
  predicate SnowDead(s: SnowEffect)
  {
    s.life <= 0.0 || s.x > AvalancheWidth + 100.0 ||
    (s.isSnowball && s.size > 50.0) || (!s.isSnowball && s.size > 80.0)
  }

  function SnowStepper(delta: real, difficulty: real, avalancheTimer: real,
                       sine: real -> real): SnowEffect -> SnowEffect
  {
    s => SnowStep(s, delta, difficulty, avalancheTimer, sine)
  }

  // ---------------------------------------------------------------------
  // Update-and-remove sweeps

  /** What survives one tick: every item updated by `step`, in order, without those
      that are then `dead`. */
  function Survivors<T>(items: seq<T>, step: T -> T, dead: T -> bool): (r: seq<T>)
    ensures |r| <= |items|
    ensures forall k :: 0 <= k < |r| ==> !dead(r[k])
    ensures forall k :: 0 <= k < |items| && !dead(step(items[k])) ==> step(items[k]) in r
    decreases |items|
  {
    if items == [] then []
    else
      var rest := Survivors(items[1..], step, dead);
      assert forall k :: 1 <= k < |items| ==> items[k] == items[1..][k - 1];
      (if dead(step(items[0])) then [] else [step(items[0])]) + rest
  }

  /** The survivors of a list are those of its first part followed by those of the
      rest: the sweep keeps list order. */
  lemma {:induction false} SurvivorsAppend<T>(a: seq<T>, b: seq<T>, step: T -> T, dead: T -> bool)
    ensures Survivors(a + b, step, dead) == Survivors(a, step, dead) + Survivors(b, step, dead)
    decreases |a|
  {
    if a == [] {
      assert a + b == b;
    } else {
      assert (a + b)[1..] == a[1..] + b;
      SurvivorsAppend(a[1..], b, step, dead);
    }
  }

  /** A single item survives exactly when its updated self is not dead. */
  lemma SurvivorsOne<T>(x: T, step: T -> T, dead: T -> bool)
    ensures Survivors([x], step, dead) == if dead(step(x)) then [] else [step(x)]
  {
  }

  /** The list loops of updateAvalanche and updateDashLines: walk the list from the
      back, update each item, remove it in place when it is dead. */
  method SweepParticles<T>(items: seq<T>, step: T -> T, dead: T -> bool) returns (kept: seq<T>)
    ensures kept == Survivors(items, step, dead)
    ensures forall k :: 0 <= k < |kept| ==> !dead(kept[k])
  {
    kept := items;
    var i := |items|;
    while i > 0
      invariant 0 <= i <= |items|
      invariant kept == items[..i] + Survivors(items[i..], step, dead)
    {
      i := i - 1;
      assert kept[i] == items[i];
      assert kept[..i] == items[..i];
      assert kept[i + 1..] == Survivors(items[i + 1..], step, dead);
      assert items[i..][1..] == items[i + 1..];
      var x := step(kept[i]);
      if dead(x) {
        kept := kept[..i] + kept[i + 1..];
      } else {
        kept := kept[..i] + [x] + kept[i + 1..];
      }
    }
    assert items[0..] == items;
  }
}
