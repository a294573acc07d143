/** The three-level GameWorld (snow, cave, lava): the log obstacle on level 1, rocks and
    zig-zagging props on levels 2 and 3, a 40-point target on levels 1 and 2, and a
    two-second invincibility window after every hit. */
module ThreeLevelWorld {
  import opened Geometry
  import opened Physics
  import opened Particles
  import opened Hazards
  import Random
  import Log

  // PONTUACAO_LIMITE_FASE1, PONTUACAO_LIMITE_FASE2, TEMPO_INVENCIBILIDADE
  const LevelOneTarget: int := 40
  const LevelTwoTarget: int := 40
  const Invincibility: real := 2.0

  const WindLineCount: nat := 15
  const LogReward: int := 10
  const LogMinSpawnDistance: real := 50.0
  const LogMaxSpawnDistance: real := 600.0

  // ---------------------------------------------------------------------
  // Tracks

  /** getTrackBottom: level 3, then level 2, otherwise level 1. */
  function TrackBottom(level: int): real
  {
    if level == 3 then 225.0 else if level == 2 then 20.0 else 275.0
  }

  /** getTrackTop: every track fits the player, a rock with its margins and the log. */
  function TrackTop(level: int): (r: real)
    ensures TrackBottom(level) + PlayerHeight <= r
    ensures TrackBottom(level) + RockHeight + 10.0 <= r
    ensures TrackBottom(level) + Log.DefaultHeight < r
  {
    if level == 3 then 405.0 else if level == 2 then 267.0 else 505.0
  }

  /** getAvalancheHeight */
  function AvalancheHeight(level: int): (r: real)
    ensures r > 0.0
  {
    if level == 3 then 368.0 else if level == 2 then 225.0 else 517.0
  }

  // ---------------------------------------------------------------------
  // Rocks (levels 2 and 3)

  const RockMinSpawn: real := 1.0
  const RockMaxSpawn: real := 2.5
  const RockBaseSpeed: real := 225.0
  const RockWidth: real := 55.0
  const RockHeight: real := 55.0
  const RockCollisionWidth: real := 17.0
  const RockCollisionHeight: real := 17.0
  const RockCollisionOffsetX: real := (RockWidth - RockCollisionWidth) / 2.0
  const RockCollisionOffsetY: real := (RockHeight - RockCollisionHeight) / 2.0

  datatype Rock = Rock(x: real, y: real, width: real, height: real, speed: real, isLava: bool)

  /** The rock's collision rectangle, kept at the collision offset from its corner. */
  function RockRect(r: Rock): (b: Rect)
    ensures b.width == RockCollisionWidth && b.height == RockCollisionHeight
    ensures r.x < b.x && b.x + b.width < r.x + RockWidth
    ensures r.y < b.y && b.y + b.height < r.y + RockHeight
  {
    Rect(r.x + RockCollisionOffsetX, r.y + RockCollisionOffsetY, RockCollisionWidth, RockCollisionHeight)
  }

  /** spawnRock, given its three draws (y, then x, then speed): just off the right edge,
      inside the track with a 5-pixel margin, lava on level 3. */
  function RockFromDraws(level: int, trackBottom: real, trackTop: real, uy: real, ux: real, us: real): (r: Rock)
    requires 0.0 <= uy < 1.0 && 0.0 <= ux < 1.0 && 0.0 <= us < 1.0
    ensures VirtualWidth + 30.0 <= r.x < VirtualWidth + 110.0
    ensures RockBaseSpeed <= r.speed < RockBaseSpeed + 80.0
    ensures trackBottom + 5.0 <= r.y
    ensures trackTop - trackBottom - RockHeight - 10.0 >= 0.0 ==> r.y + RockHeight <= trackTop - 5.0
    ensures r.width == RockWidth && r.height == RockHeight
    ensures r.isLava <==> level == 3
    ensures !RockGone(r)
  {
    var room := Max(0.0, trackTop - trackBottom - RockHeight - 10.0);
    var y := Random.Between(trackBottom + 5.0, trackBottom + 5.0 + room, uy);
    var x := Random.Between(VirtualWidth + 30.0, VirtualWidth + 110.0, ux);
    var speed := Random.Between(RockBaseSpeed, RockBaseSpeed + 80.0, us);
    Rock(x, y, RockWidth, RockHeight, speed, level == 3)
  }

  function MoveRock(r: Rock, delta: real, multiplier: real): Rock
  {
    r.(x := r.x - r.speed * delta * multiplier)
  }

  /** Off the left edge by more than 50 pixels. */
  predicate RockGone(r: Rock)
  {
    r.x + r.width < -50.0
  }

  /** updateRocks' loop: passing a rock scores, and may complete level 2. */
  function Rocks(delta: real, multiplier: real): Hazard<Rock>
  {
    Hazard(r => MoveRock(r, delta, multiplier), RockGone, RockRect, true, 2, LevelTwoTarget)
  }

  /** With points at 40 or more after the passes, a frame in which rocks leave the screen
      on level 2 while the player is invincible completes the level. */
  lemma RockPassesCompleteLevelTwo(rocks: seq<Rock>, delta: real, multiplier: real, playerRect: Rect,
                                   v: Vitals, levelComplete: bool)
    requires !v.podeLevarDano
    requires Passed(Rocks(delta, multiplier), rocks) > 0
    requires v.pontos + PassReward * Passed(Rocks(delta, multiplier), rocks) >= LevelTwoTarget
    ensures Sweep(Rocks(delta, multiplier), rocks, playerRect, Invincibility, 2, Pass([], v, levelComplete)).levelComplete
  {
    SweepCompletesLevel(Rocks(delta, multiplier), rocks, playerRect, Invincibility, 2, Pass([], v, levelComplete));
  }

  /** Conversely, rocks complete the level only on level 2, in a frame in which some rock
      leaves the screen, and only from a score that those passes alone lift to 40. */
  lemma RockCompletionNeedsTarget(rocks: seq<Rock>, delta: real, multiplier: real, playerRect: Rect,
                                  level: int, v: Vitals)
    requires v.pontos >= 0
    requires Sweep(Rocks(delta, multiplier), rocks, playerRect, Invincibility, level, Pass([], v, false)).levelComplete
    ensures level == 2 && Passed(Rocks(delta, multiplier), rocks) > 0
    ensures v.pontos + PassReward * Passed(Rocks(delta, multiplier), rocks) >= LevelTwoTarget
  {
    CompletionNeedsPass(Rocks(delta, multiplier), rocks, playerRect, Invincibility, level, Pass([], v, false));
    CompletionReachesTarget(Rocks(delta, multiplier), rocks, playerRect, Invincibility, level, Pass([], v, false));
  }

  // ---------------------------------------------------------------------
  // The inner class ZigZagProp (levels 2 and 3), here Prop: flies right, bobbing around its start height

  const PropSpeed: real := 140.0
  const PropAmplitude: real := 36.0
  const PropFrequency: real := 2.6
  const PropWidth: real := 50.0
  const PropHeight: real := 43.0
  const ZigZagSpawnInterval: real := 2.5

  datatype Prop = Prop(x: real, y: real, width: real, height: real,
                                   initialY: real, time: real, isLava: bool)

  /** The prop's bounds, kept equal to its own box. */
  function PropBounds(p: Prop): Rect
  {
    Rect(p.x, p.y, p.width, p.height)
  }

  /** new ZigZagProp(texture, startX, startY) */
  function NewProp(startX: real, startY: real): (p: Prop)
    ensures p.x == startX && p.y == startY && p.initialY == startY && p.time == 0.0
    ensures p.width == PropWidth && p.height == PropHeight && !p.isLava
  {
    Prop(startX, startY, PropWidth, PropHeight, startY, 0.0, false)
  }

  /** ZigZagProp.update: moves right at a difficulty-scaled speed and bobs on the sine of
      its own clock, never more than the amplitude from its start height. */
  function StepProp(p: Prop, delta: real, difficulty: real, sine: real -> real): (q: Prop)
    ensures q.time == p.time + delta && q.initialY == p.initialY
    ensures q.width == p.width && q.height == p.height
    ensures IsSine(sine) ==> p.initialY - PropAmplitude <= q.y <= p.initialY + PropAmplitude
    ensures delta >= 0.0 && difficulty >= 0.0 ==> q.x >= p.x
  {
    var time := p.time + delta;
    NonNegativeProduct(delta, difficulty);
    assert PropSpeed * delta * difficulty == PropSpeed * (delta * difficulty);
    var y := p.initialY + sine(time * PropFrequency) * PropAmplitude;
    p.(time := time, x := p.x + PropSpeed * delta * difficulty, y := y)
  }

  /** Past the right edge by more than 50 pixels. */
  predicate PropGone(p: Prop)
  {
    p.x > VirtualWidth + 50.0
  }

  /** updateZigZagProps' loop: props score nothing and complete nothing. */
  function Props(delta: real, difficulty: real, sine: real -> real): Hazard<Prop>
  {
    Hazard(p => StepProp(p, delta, difficulty, sine), PropGone, PropBounds, false, 0, 0)
  }

  /** The spawn position of a zig-zag prop, given its two draws: a little right of the
      avalanche, in the upper part of the avalanche's height, clamped to the track. */
  function PropStart(level: int, ux: real, uy: real): (p: Prop)
    requires 0.0 <= ux < 1.0 && 0.0 <= uy < 1.0
    ensures AvalancheWidth + 40.0 <= p.x < AvalancheWidth + 70.0
    ensures TrackBottom(level) <= p.y <= TrackTop(level) - 40.0
    ensures p.time == 0.0 && p.initialY == p.y && !PropGone(p)
  {
    var startX := Random.Between(AvalancheWidth + 40.0, AvalancheWidth + 70.0, ux);
    var h := AvalancheHeight(level);
    var startY := Clamp(h * 0.5 + uy * (h * 0.4), TrackBottom(level), TrackTop(level) - 40.0);
    NewProp(startX, startY)
  }

  // ---------------------------------------------------------------------
  // The world

  class GameWorld {
    var currentLevel: int
    var isLevelComplete: bool

    var pontos: int
    var vidas: int
    var isPaused: bool
    var isGameOver: bool

    var playerX: real
    var playerY: real
    var playerSpeedX: real
    var playerSpeedY: real
    var playerRect: Rect

    /** The log; present only in a world created on level 1. */
    var bot: Log.BotLog?

    var podeLevarDano: bool
    var tempoInvencivel: real
    var tempoUltimoDanoAvalanche: real

    var maxSpeed: real
    var acceleration: real
    var friction: real
    var driftSpeed: real
    var currentDifficulty: real

    var snowEffects: seq<SnowEffect>
    var windLines: seq<WindLine>
    var dashLines: seq<DashLine>
    var avalancheTimer: real
    var avalancheIntensity: real
    var windTimer: real
    var backgroundOffsetX: real

    var rocks: seq<Rock>
    var rockSpawnTimer: real
    var nextRockSpawnInterval: real

    var zigzagProps: seq<Prop>
    var zigzagSpawnTimer: real

    /** java.util.Random, Math.random and MathUtils.random, as one stream of draws. */
    const random: Random.Source
    /** Math.sin */
    const sine: real -> real

    /** The physics variables follow the difficulty, which is between 1 and 2.5. */
    ghost predicate PhysicsOk()
      reads this`currentDifficulty, this`maxSpeed, this`acceleration, this`friction, this`driftSpeed
    {
      1.0 <= currentDifficulty <= 2.5 &&
      maxSpeed == BaseMaxSpeed * currentDifficulty && acceleration == BaseAcceleration * currentDifficulty &&
      friction == BaseFriction * currentDifficulty && driftSpeed == BaseDriftSpeed * currentDifficulty
    }

    /** Lives, score, the damage timers and the horizontal play strip, which hold
        throughout a frame. */
    ghost predicate Playing()
      reads this`vidas, this`pontos, this`podeLevarDano, this`tempoInvencivel,
            this`tempoUltimoDanoAvalanche, this`playerX
    {
      0 <= vidas <= 3 && pontos >= 0 &&
      (!podeLevarDano ==> 0.0 < tempoInvencivel <= Invincibility) &&
      tempoUltimoDanoAvalanche >= 0.0 && InPlayStrip(playerX)
    }

    /** Between frames, in addition, the game is over exactly when no life is left. */
    ghost predicate StatusOk()
      reads this`vidas, this`isGameOver, this`pontos, this`podeLevarDano, this`tempoInvencivel,
            this`tempoUltimoDanoAvalanche, this`playerX
    {
      Playing() && (isGameOver <==> vidas == 0)
    }

    /** Fifteen live wind lines, and no dead dash line or snow effect left in a list. */
    ghost predicate EffectsOk()
      reads this`windLines, this`dashLines, this`snowEffects, this`avalancheTimer, this`avalancheIntensity
    {
      |windLines| == WindLineCount && (forall k :: 0 <= k < |windLines| ==> !WindExpired(windLines[k])) &&
      (forall k :: 0 <= k < |dashLines| ==> !DashDead(dashLines[k])) &&
      (forall k :: 0 <= k < |snowEffects| ==> !SnowDead(snowEffects[k])) &&
      avalancheTimer >= 0.0 && 0.0 <= avalancheIntensity <= 1.0
    }

    /** No obstacle that has left the screen is kept, obstacles exist only on levels 2
        and 3, and the next rock comes 1 to 2.5 seconds after the last. */
    ghost predicate ObstaclesOk()
      reads this`rocks, this`zigzagProps, this`currentLevel, this`nextRockSpawnInterval
    {
      (forall k :: 0 <= k < |rocks| ==> !RockGone(rocks[k])) &&
      (forall k :: 0 <= k < |zigzagProps| ==> !PropGone(zigzagProps[k])) &&
      (currentLevel != 2 && currentLevel != 3 ==> rocks == [] && zigzagProps == []) &&
      RockMinSpawn <= nextRockSpawnInterval <= RockMaxSpawn
    }

    /** The part of the invariant that the player's half of a frame leaves alone. */
    ghost predicate Scenery()
      reads this`currentDifficulty, this`maxSpeed, this`acceleration, this`friction, this`driftSpeed,
            this`windLines, this`dashLines, this`snowEffects, this`avalancheTimer, this`avalancheIntensity,
            this`rocks, this`zigzagProps, this`currentLevel, this`nextRockSpawnInterval
    {
      PhysicsOk() && EffectsOk() && ObstaclesOk()
    }

    ghost predicate Valid()
      reads this, bot
    {
      random.Valid() && IsSine(sine) && (bot != null ==> bot.Valid()) && Scenery() && StatusOk()
    }

    /** The part of the state that damage reads and writes. */
    function CurrentVitals(): Vitals
      reads this`vidas, this`pontos, this`podeLevarDano, this`tempoInvencivel, this`playerX, this`playerSpeedX
    {
      Vitals(vidas, pontos, podeLevarDano, tempoInvencivel, playerX, playerSpeedX)
    }

    /** GameWorld(game, level): the player in the middle of the screen and of the track,
        the log only on level 1, fifteen wind lines, and a first rock interval. */
    constructor (level: int, random: Random.Source, sine: real -> real)
      requires random.Valid() && IsSine(sine)
      modifies random`drawn
      ensures Valid()
      ensures currentLevel == level && !isLevelComplete && !isPaused && !isGameOver
      ensures pontos == 0 && vidas == 3 && podeLevarDano && currentDifficulty == 1.0
      ensures playerX == VirtualWidth / 2.0 - PlayerWidth / 2.0
      ensures playerY == (TrackBottom(level) + TrackTop(level)) / 2.0 - PlayerHeight / 2.0
      ensures playerRect == PlayerRectAt(playerX, playerY)
      ensures (bot != null <==> level == 1) && (bot != null ==> fresh(bot))
      ensures bot != null ==> bot.GetX() == VirtualWidth + 50.0 && bot.GetY() == TrackBottom(level) + 10.0
      ensures rocks == [] && zigzagProps == [] && dashLines == [] && snowEffects == []
    {
      var x := VirtualWidth / 2.0 - PlayerWidth / 2.0;
      var y := (TrackBottom(level) + TrackTop(level)) / 2.0 - PlayerHeight / 2.0;
      var log: Log.BotLog? := null;
      if level == 1 {
        log := new Log.BotLog(VirtualWidth + 50.0, TrackBottom(level) + 10.0, random);
      }
      var lines := NewWindLines(WindLineCount, random);
      var u := random.NextFloat();
      currentLevel, isLevelComplete := level, false;
      pontos, vidas, isPaused, isGameOver := 0, 3, false, false;
      playerX, playerY, playerSpeedX, playerSpeedY := x, y, 0.0, 0.0;
      playerRect := PlayerRectAt(x, y);
      bot := log;
      podeLevarDano, tempoInvencivel, tempoUltimoDanoAvalanche := true, 0.0, 0.0;
      var difficulty := Difficulty(0);
      currentDifficulty := difficulty;
      maxSpeed := BaseMaxSpeed * difficulty;
      acceleration := BaseAcceleration * difficulty;
      friction := BaseFriction * difficulty;
      driftSpeed := BaseDriftSpeed * difficulty;
      snowEffects, windLines, dashLines := [], lines, [];
      avalancheTimer, avalancheIntensity, windTimer, backgroundOffsetX := 0.0, 0.0, 0.0, 0.0;
      rocks, rockSpawnTimer := [], 0.0;
      nextRockSpawnInterval := Random.Between(RockMinSpawn, RockMaxSpawn, u);
      zigzagProps, zigzagSpawnTimer := [], 0.0;
      this.random := random;
      this.sine := sine;
    }

    /** update(delta): one frame of the game, frozen once the game is over or the level
        is complete. */
    method Update(delta: real)
      requires Valid() && delta >= 0.0
      modifies this, bot, random`drawn
      ensures Valid()
      ensures bot == old(bot) && currentLevel == old(currentLevel)
      ensures old(isGameOver || isLevelComplete) ==>
                unchanged(this) && (bot != null ==> unchanged(bot)) && unchanged(random)
      ensures !old(isGameOver || isLevelComplete) ==>
                currentDifficulty == Difficulty(old(pontos)) &&
                avalancheTimer == old(avalancheTimer) + delta &&
                TrackBottom(currentLevel) <= playerY <= TrackTop(currentLevel) - PlayerHeight
      ensures old(vidas) - 1 <= vidas <= old(vidas)
      ensures vidas < old(vidas) ==> !podeLevarDano && tempoInvencivel == Invincibility
      ensures !old(podeLevarDano) && old(tempoInvencivel) > delta ==> vidas == old(vidas)
      ensures isLevelComplete && !old(isLevelComplete) ==>
                (currentLevel == 1 && bot != null) || currentLevel == 2
    {
      if isGameOver || isLevelComplete {
        return;
      }
      StepWorld(delta);
      StepPlayer(delta);
    }

    /** The first part of update: the clocks, then the scenery, which lands at most one
        hit. */
    method StepWorld(delta: real)
      requires Valid() && !isGameOver && delta >= 0.0
      modifies this`currentDifficulty, this`maxSpeed, this`acceleration, this`friction, this`driftSpeed,
               this`podeLevarDano, this`tempoInvencivel, this`tempoUltimoDanoAvalanche,
               this`avalancheTimer, this`avalancheIntensity, this`snowEffects, this`windTimer, this`windLines,
               this`backgroundOffsetX, this`dashLines,
               this`rocks, this`rockSpawnTimer, this`nextRockSpawnInterval, this`zigzagProps, this`zigzagSpawnTimer,
               this`vidas, this`pontos, this`playerX, this`playerSpeedX, this`isLevelComplete, random`drawn
      ensures Scenery() && Playing()
      ensures currentDifficulty == Difficulty(old(pontos)) && avalancheTimer == old(avalancheTimer) + delta
      ensures old(vidas) - 1 <= vidas <= old(vidas)
      ensures vidas < old(vidas) ==> !podeLevarDano && tempoInvencivel == Invincibility
      ensures !old(podeLevarDano) && old(tempoInvencivel) > delta ==> vidas == old(vidas) && !podeLevarDano
      ensures old(isLevelComplete) ==> isLevelComplete
      ensures isLevelComplete && !old(isLevelComplete) ==> old(currentLevel) == 2
      ensures unchanged(this`bot, this`currentLevel, this`isGameOver, this`playerY)
    {
      TickTimers(delta);
      StepScenery(delta);
    }

    /** The scenery of update: the effects, then on levels 2 and 3 the obstacles. */
    method StepScenery(delta: real)
      requires PhysicsOk() && EffectsOk() && ObstaclesOk() && pontos >= 0 && random.Valid() && IsSine(sine)
      requires delta >= 0.0
      modifies this`avalancheTimer, this`avalancheIntensity, this`snowEffects, this`windTimer, this`windLines,
               this`backgroundOffsetX, this`dashLines,
               this`rocks, this`rockSpawnTimer, this`nextRockSpawnInterval, this`zigzagProps, this`zigzagSpawnTimer,
               this`vidas, this`pontos, this`podeLevarDano, this`tempoInvencivel, this`playerX, this`playerSpeedX,
               this`isLevelComplete, random`drawn
      ensures EffectsOk() && ObstaclesOk() && avalancheTimer == old(avalancheTimer) + delta
      ensures Hit(old(CurrentVitals()), CurrentVitals(), Invincibility)
      ensures old(isLevelComplete) ==> isLevelComplete
      ensures isLevelComplete && !old(isLevelComplete) ==> old(currentLevel) == 2
      ensures unchanged(this`currentDifficulty, this`maxSpeed, this`acceleration, this`friction,
                        this`driftSpeed, this`tempoUltimoDanoAvalanche, this`currentLevel)
    {
      UpdateEffects(delta);
      if currentLevel == 2 || currentLevel == 3 {
        UpdateObstacles(delta, TrackBottom(currentLevel), TrackTop(currentLevel));
      } else {
        NoHit(CurrentVitals(), Invincibility);
      }
    }

    /** The second part of update: the player moves, then the avalanche and the log may
        each hit, but no more than once between them; the game ends when no life is left. */
    method StepPlayer(delta: real)
      requires Playing() && (vidas > 0 || !podeLevarDano) && !isGameOver
      requires (bot != null ==> bot.Valid()) && random.Valid() && delta >= 0.0
      modifies bot, this`playerX, this`playerY, this`playerRect, this`vidas, this`pontos, this`podeLevarDano,
               this`tempoInvencivel, this`playerSpeedX, this`tempoUltimoDanoAvalanche, this`isLevelComplete,
               this`isGameOver, random`drawn
      ensures StatusOk() && (bot != null ==> bot.Valid())
      ensures unchanged(this`currentDifficulty, this`maxSpeed, this`acceleration, this`friction,
                        this`driftSpeed, this`windLines, this`dashLines, this`snowEffects, this`avalancheTimer,
                        this`avalancheIntensity, this`rocks, this`zigzagProps, this`currentLevel,
                        this`nextRockSpawnInterval, this`bot)
      ensures Hit(old(CurrentVitals()), CurrentVitals(), Invincibility)
      ensures TrackBottom(currentLevel) <= playerY <= TrackTop(currentLevel) - PlayerHeight
      ensures old(isLevelComplete) ==> isLevelComplete
      ensures isLevelComplete && !old(isLevelComplete) ==> old(currentLevel) == 1 && bot != null
    {
      var trackBottom := TrackBottom(currentLevel);
      var trackTop := TrackTop(currentLevel);
      ghost var v0 := CurrentVitals();
      MoveAndAvalanche(delta, trackBottom, trackTop);
      ghost var v1 := CurrentVitals();
      LogAndStatus(delta, trackBottom, trackTop);
      HitThenHit(v0, v1, CurrentVitals(), Invincibility);
    }

    /** The player's move and the avalanche check of update. */
    method MoveAndAvalanche(delta: real, trackBottom: real, trackTop: real)
      requires Playing() && (vidas > 0 || !podeLevarDano) && trackBottom <= trackTop - PlayerHeight
      modifies this`playerX, this`playerY, this`playerRect, this`vidas, this`pontos, this`podeLevarDano,
               this`tempoInvencivel, this`playerSpeedX, this`tempoUltimoDanoAvalanche
      ensures Playing() && (vidas > 0 || !podeLevarDano) && trackBottom <= playerY <= trackTop - PlayerHeight
      ensures unchanged(this`currentDifficulty, this`maxSpeed, this`acceleration, this`friction,
                        this`driftSpeed, this`windLines, this`dashLines, this`snowEffects, this`avalancheTimer,
                        this`avalancheIntensity, this`rocks, this`zigzagProps, this`currentLevel,
                        this`nextRockSpawnInterval)
      ensures Hit(old(CurrentVitals()), CurrentVitals(), Invincibility)
    {
      MovePlayer(delta, trackBottom, trackTop);
      CheckAvalancheDamage();
    }

    /** The log of update, then the end-of-frame check: the game is over exactly when no
        life is left. */
    method LogAndStatus(delta: real, trackBottom: real, trackTop: real)
      requires Playing() && (vidas > 0 || !podeLevarDano) && !isGameOver
      requires (bot != null ==> bot.Valid()) && random.Valid() && delta >= 0.0
      modifies bot, this`vidas, this`pontos, this`podeLevarDano, this`tempoInvencivel, this`playerX,
               this`playerSpeedX, this`isLevelComplete, this`isGameOver, random`drawn
      ensures StatusOk() && (bot != null ==> bot.Valid())
      ensures unchanged(this`currentDifficulty, this`maxSpeed, this`acceleration, this`friction,
                        this`driftSpeed, this`windLines, this`dashLines, this`snowEffects, this`avalancheTimer,
                        this`avalancheIntensity, this`rocks, this`zigzagProps, this`currentLevel,
                        this`nextRockSpawnInterval, this`playerY)
      ensures Hit(old(CurrentVitals()), CurrentVitals(), Invincibility)
      ensures old(isLevelComplete) ==> isLevelComplete
      ensures isLevelComplete && !old(isLevelComplete) ==> old(currentLevel) == 1 && bot != null
    {
      LogPhase(delta, trackBottom, trackTop);
      if vidas <= 0 {
        isGameOver := true;
      }
    }

    /** The effects of update: avalanche, wind, parallax and dash lines. */
    method UpdateEffects(delta: real)
      requires EffectsOk() && PhysicsOk() && random.Valid() && delta >= 0.0
      modifies this`avalancheTimer, this`avalancheIntensity, this`snowEffects, this`windTimer, this`windLines,
               this`backgroundOffsetX, this`dashLines, random`drawn
      ensures EffectsOk() && avalancheTimer == old(avalancheTimer) + delta
      ensures unchanged(this`currentDifficulty, this`maxSpeed, this`acceleration, this`friction,
                        this`driftSpeed, this`rocks, this`zigzagProps, this`currentLevel,
                        this`nextRockSpawnInterval, this`vidas, this`pontos, this`podeLevarDano,
                        this`tempoInvencivel, this`playerX, this`playerSpeedX, this`isLevelComplete)
    {
      UpdateAvalanche(delta);
      UpdateWindEffect(delta);
      UpdateParallax(delta);
      UpdateDashLines(delta);
    }

    /** The obstacles of update on levels 2 and 3: rocks, then props. Together they land
        at most one hit, and only rock passes can complete the level, on level 2. */
    method UpdateObstacles(delta: real, trackBottom: real, trackTop: real)
      requires ObstaclesOk() && pontos >= 0 && random.Valid() && IsSine(sine) && (currentLevel == 2 || currentLevel == 3)
      modifies this`rocks, this`rockSpawnTimer, this`nextRockSpawnInterval, this`zigzagProps,
               this`zigzagSpawnTimer, this`vidas, this`pontos, this`podeLevarDano, this`tempoInvencivel,
               this`playerX, this`playerSpeedX, this`isLevelComplete, random`drawn
      ensures ObstaclesOk()
      ensures Hit(old(CurrentVitals()), CurrentVitals(), Invincibility)
      ensures old(isLevelComplete) ==> isLevelComplete
      ensures isLevelComplete && !old(isLevelComplete) ==> old(currentLevel) == 2
      ensures unchanged(this`currentDifficulty, this`maxSpeed, this`acceleration, this`friction,
                        this`driftSpeed, this`windLines, this`dashLines, this`snowEffects, this`avalancheTimer,
                        this`avalancheIntensity)
    {
      ghost var v0 := CurrentVitals();
      UpdateRocks(delta, trackBottom, trackTop);
      ghost var v1 := CurrentVitals();
      UpdateZigZagProps(delta);
      HitThenHit(v0, v1, CurrentVitals(), Invincibility);
    }

    /** The clocks at the top of update: the difficulty follows the score, the
        invincibility window runs down and closes at zero, and the avalanche-damage
        clock runs. */
    method TickTimers(delta: real)
      requires StatusOk() && delta >= 0.0
      modifies this`currentDifficulty, this`maxSpeed, this`acceleration, this`friction, this`driftSpeed,
               this`podeLevarDano, this`tempoInvencivel, this`tempoUltimoDanoAvalanche
      ensures PhysicsOk() && StatusOk() && currentDifficulty == Difficulty(pontos)
      ensures tempoUltimoDanoAvalanche == old(tempoUltimoDanoAvalanche) + delta
      ensures old(podeLevarDano) ==> podeLevarDano && tempoInvencivel == old(tempoInvencivel)
      ensures !old(podeLevarDano) ==>
                tempoInvencivel == old(tempoInvencivel) - delta && (podeLevarDano <==> tempoInvencivel <= 0.0)
      ensures unchanged(this`windLines, this`dashLines, this`snowEffects, this`avalancheTimer,
                        this`avalancheIntensity, this`rocks, this`zigzagProps, this`currentLevel,
                        this`nextRockSpawnInterval)
    {
      UpdateDifficulty();
      if !podeLevarDano {
        tempoInvencivel := tempoInvencivel - delta;
        if tempoInvencivel <= 0.0 {
          podeLevarDano := true;
        }
      }
      tempoUltimoDanoAvalanche := tempoUltimoDanoAvalanche + delta;
    }

    /** The movement of update: the speeds move the player, who is then clamped between
        the avalanche and the right edge and onto the track. */
    method MovePlayer(delta: real, trackBottom: real, trackTop: real)
      requires trackBottom <= trackTop - PlayerHeight
      modifies this`playerX, this`playerY, this`playerRect
      ensures playerX == Clamp(old(playerX) + playerSpeedX * delta, AvalancheWidth, VirtualWidth - PlayerWidth)
      ensures playerY == Clamp(old(playerY) + playerSpeedY * delta, trackBottom, trackTop - PlayerHeight)
      ensures InPlayStrip(playerX) && trackBottom <= playerY <= trackTop - PlayerHeight
      ensures playerRect == PlayerRectAt(playerX, playerY)
      ensures unchanged(this`currentDifficulty, this`maxSpeed, this`acceleration, this`friction,
                        this`driftSpeed, this`windLines, this`dashLines, this`snowEffects, this`avalancheTimer,
                        this`avalancheIntensity, this`rocks, this`zigzagProps, this`currentLevel,
                        this`nextRockSpawnInterval)
    {
      var x := playerX + playerSpeedX * delta;
      var y := playerY + playerSpeedY * delta;
      playerX := Clamp(x, AvalancheWidth, VirtualWidth - PlayerWidth);
      playerY := Clamp(y, trackBottom, trackTop - PlayerHeight);
      UpdatePlayerRect();
    }

    /** The avalanche check of update: at most 5 pixels into the avalanche, able to take
        damage and with 0.3 seconds since the last avalanche hit. */
    method CheckAvalancheDamage()
      modifies this`vidas, this`pontos, this`podeLevarDano, this`tempoInvencivel, this`playerX,
               this`playerSpeedX, this`tempoUltimoDanoAvalanche
      ensures if old(playerX) <= AvalancheReach && old(podeLevarDano) &&
                 old(tempoUltimoDanoAvalanche) >= AvalancheDamageInterval
              then CurrentVitals() == DanoAvalanche(old(CurrentVitals()), Invincibility) &&
                   tempoUltimoDanoAvalanche == 0.0
              else CurrentVitals() == old(CurrentVitals()) &&
                   tempoUltimoDanoAvalanche == old(tempoUltimoDanoAvalanche)
      ensures unchanged(this`currentDifficulty, this`maxSpeed, this`acceleration, this`friction,
                        this`driftSpeed, this`windLines, this`dashLines, this`snowEffects, this`avalancheTimer,
                        this`avalancheIntensity, this`rocks, this`zigzagProps, this`currentLevel,
                        this`nextRockSpawnInterval)
    {
      if playerX <= AvalancheReach && podeLevarDano && tempoUltimoDanoAvalanche >= AvalancheDamageInterval {
        AplicarDanoAvalanche();
        tempoUltimoDanoAvalanche := 0.0;
      }
    }

    /** The log part of update: the dodge, then the collision. Together they land at
        most one hit, and only a dodge on level 1 can complete the level. */
    method LogPhase(delta: real, trackBottom: real, trackTop: real)
      requires (bot != null ==> bot.Valid()) && random.Valid() && delta >= 0.0 && pontos >= 0
      modifies bot, this`vidas, this`pontos, this`podeLevarDano, this`tempoInvencivel, this`playerX,
               this`playerSpeedX, this`isLevelComplete, random`drawn
      ensures bot != null ==> bot.Valid()
      ensures Hit(old(CurrentVitals()), CurrentVitals(), Invincibility)
      ensures old(isLevelComplete) ==> isLevelComplete
      ensures isLevelComplete && !old(isLevelComplete) ==> old(currentLevel) == 1 && bot != null
      ensures unchanged(this`currentDifficulty, this`maxSpeed, this`acceleration, this`friction,
                        this`driftSpeed, this`windLines, this`dashLines, this`snowEffects, this`avalancheTimer,
                        this`avalancheIntensity, this`rocks, this`zigzagProps, this`currentLevel,
                        this`nextRockSpawnInterval)
    {
      ghost var v0 := CurrentVitals();
      UpdateLog(delta, trackBottom, trackTop);
      ghost var v1 := CurrentVitals();
      assert Hit(v0, v1, Invincibility);
      CheckLogCollision(trackBottom, trackTop);
      HitThenHit(v0, v1, CurrentVitals(), Invincibility);
    }

    /** The log of update, on level 1: a finished fade is a dodge worth 10 points, which
        respawns the log and may complete the level at 40 points. */
    method UpdateLog(delta: real, trackBottom: real, trackTop: real)
      requires (bot != null ==> bot.Valid()) && random.Valid() && delta >= 0.0
      modifies bot, this`pontos, this`isLevelComplete, random`drawn
      ensures bot != null ==> bot.Valid()
      ensures var dodged := bot != null && currentLevel == 1 &&
                            Log.Advance(old(bot.State()), delta, playerSpeedX, AvalancheWidth, currentDifficulty).1;
              pontos == old(pontos) + (if dodged then LogReward else 0) &&
              isLevelComplete == (old(isLevelComplete) || (dodged && pontos >= LevelOneTarget)) &&
              random.drawn == old(random.drawn) + (if dodged then Log.RespawnDraws(trackBottom, trackTop) else 0)
      ensures bot != null && currentLevel != 1 ==> bot.State() == old(bot.State())
      ensures bot != null && currentLevel == 1 ==>
                var (s, dodged) := Log.Advance(old(bot.State()), delta, playerSpeedX, AvalancheWidth, currentDifficulty);
                bot.State() == if dodged then Log.Respawned(s, VirtualWidth, LogMinSpawnDistance, LogMaxSpawnDistance,
                                                            trackBottom, trackTop, random.stream, old(random.drawn))
                               else s
      ensures unchanged(this`currentDifficulty, this`maxSpeed, this`acceleration, this`friction,
                        this`driftSpeed, this`windLines, this`dashLines, this`snowEffects, this`avalancheTimer,
                        this`avalancheIntensity, this`rocks, this`zigzagProps, this`currentLevel,
                        this`nextRockSpawnInterval)
    {
      if bot != null && currentLevel == 1 {
        var dodged := bot.Update(delta, playerSpeedX, AvalancheWidth, VirtualWidth, currentDifficulty);
        if dodged {
          pontos := pontos + LogReward;
          bot.Respawn(VirtualWidth, LogMinSpawnDistance, LogMaxSpawnDistance, trackBottom, trackTop, random);
          if currentLevel == 1 && pontos >= LevelOneTarget && !isLevelComplete {
            isLevelComplete := true;
          }
        }
      }
    }

    /** The log collision of update: touching the log while able to take damage costs a
        life and respawns the log. */
    method CheckLogCollision(trackBottom: real, trackTop: real)
      requires (bot != null ==> bot.Valid()) && random.Valid()
      modifies bot, this`vidas, this`pontos, this`podeLevarDano, this`tempoInvencivel, this`playerX,
               this`playerSpeedX, random`drawn
      ensures bot != null ==> bot.Valid()
      ensures CurrentVitals() ==
              if bot != null && Overlaps(playerRect, old(bot.rect)) && old(podeLevarDano)
              then Dano(old(CurrentVitals()), Invincibility)
              else old(CurrentVitals())
      ensures var hit := bot != null && Overlaps(playerRect, old(bot.rect)) && old(podeLevarDano);
              random.drawn == old(random.drawn) + (if hit then Log.RespawnDraws(trackBottom, trackTop) else 0) &&
              (bot != null ==>
                 bot.State() == if hit then Log.Respawned(old(bot.State()), VirtualWidth, LogMinSpawnDistance,
                                                          LogMaxSpawnDistance, trackBottom, trackTop, random.stream,
                                                          old(random.drawn))
                                else old(bot.State()))
      ensures unchanged(this`currentDifficulty, this`maxSpeed, this`acceleration, this`friction,
                        this`driftSpeed, this`windLines, this`dashLines, this`snowEffects, this`avalancheTimer,
                        this`avalancheIntensity, this`rocks, this`zigzagProps, this`currentLevel,
                        this`nextRockSpawnInterval)
    {
      if bot != null && Overlaps(playerRect, bot.rect) && podeLevarDano {
        AplicarDano();
        bot.Respawn(VirtualWidth, LogMinSpawnDistance, LogMaxSpawnDistance, trackBottom, trackTop, random);
      }
    }

    /** updateDifficulty: the difficulty follows the score, and the physics follow it. */
    method UpdateDifficulty()
      requires pontos >= 0
      modifies this`currentDifficulty, this`maxSpeed, this`acceleration, this`friction, this`driftSpeed
      ensures PhysicsOk() && currentDifficulty == Difficulty(pontos)
      ensures unchanged(this`windLines, this`dashLines, this`snowEffects, this`avalancheTimer,
                        this`avalancheIntensity, this`rocks, this`zigzagProps, this`currentLevel,
                        this`nextRockSpawnInterval, this`vidas, this`pontos, this`podeLevarDano,
                        this`tempoInvencivel, this`playerX, this`playerSpeedX)
    {
      currentDifficulty := Difficulty(pontos);
      maxSpeed := BaseMaxSpeed * currentDifficulty;
      acceleration := BaseAcceleration * currentDifficulty;
      friction := BaseFriction * currentDifficulty;
      driftSpeed := BaseDriftSpeed * currentDifficulty;
    }

    /** handlePlayerInput: the speed rules of the input, with dt the engine's frame time;
        while accelerating past half the top speed, seven draws in ten leave a dash line
        behind the player. */
    method HandlePlayerInput(isMovingUp: bool, isMovingDown: bool, isAccelerating: bool, isBraking: bool,
                             dt: real)
      requires random.Valid() && PhysicsOk() && EffectsOk() && dt >= 0.0
      modifies this`playerSpeedX, this`playerSpeedY, this`dashLines, random`drawn
      ensures EffectsOk()
      ensures playerSpeedX == SpeedXAfterInput(old(playerSpeedX), isAccelerating, isBraking, acceleration,
                                               maxSpeed, driftSpeed, friction, dt)
      ensures playerSpeedY == SpeedYAfterInput(old(playerSpeedY), isMovingUp, isMovingDown, maxSpeed, friction, dt)
      ensures var d := old(random.drawn);
              var fast := isAccelerating &&
                          SteerX(old(playerSpeedX), true, false, acceleration, maxSpeed, driftSpeed, dt) > maxSpeed * 0.5;
              random.drawn == d + (if !fast then 0 else if random.stream(d) > 0.3 then 3 else 1) &&
              dashLines == if fast && random.stream(d) > 0.3
                           then old(dashLines) + [NewDashLine(playerX - 10.0, playerY + PlayerHeight / 2.0,
                                                              random.stream(d + 1), random.stream(d + 2))]
                           else old(dashLines)
    {
      MoveHorizontally(isAccelerating, isBraking, dt);
      MoveVertically(isMovingUp, isMovingDown, dt);
    }

    /** The horizontal half of handlePlayerInput. */
    method MoveHorizontally(isAccelerating: bool, isBraking: bool, dt: real)
      requires random.Valid() && PhysicsOk() && EffectsOk() && dt >= 0.0
      modifies this`playerSpeedX, this`dashLines, random`drawn
      ensures EffectsOk()
      ensures playerSpeedX == SpeedXAfterInput(old(playerSpeedX), isAccelerating, isBraking, acceleration,
                                               maxSpeed, driftSpeed, friction, dt)
      ensures var d := old(random.drawn);
              var fast := isAccelerating &&
                          SteerX(old(playerSpeedX), true, false, acceleration, maxSpeed, driftSpeed, dt) > maxSpeed * 0.5;
              random.drawn == d + (if !fast then 0 else if random.stream(d) > 0.3 then 3 else 1) &&
              dashLines == if fast && random.stream(d) > 0.3
                           then old(dashLines) + [NewDashLine(playerX - 10.0, playerY + PlayerHeight / 2.0,
                                                              random.stream(d + 1), random.stream(d + 2))]
                           else old(dashLines)
    {
      var speedX := SpeedXAfterInput(playerSpeedX, isAccelerating, isBraking, acceleration, maxSpeed,
                                     driftSpeed, friction, dt);
      if isAccelerating && SteerX(playerSpeedX, true, false, acceleration, maxSpeed, driftSpeed, dt) > maxSpeed * 0.5 {
        MaybeDashLine();
      }
      playerSpeedX := speedX;
    }

    /** The vertical half of handlePlayerInput: up and down set the speed outright,
        otherwise friction brings it toward zero. */
    method MoveVertically(isMovingUp: bool, isMovingDown: bool, dt: real)
      requires PhysicsOk() && dt >= 0.0
      modifies this`playerSpeedY
      ensures playerSpeedY == SpeedYAfterInput(old(playerSpeedY), isMovingUp, isMovingDown, maxSpeed, friction, dt)
    {
      NonNegativeProduct(friction, dt);
      if isMovingUp {
        playerSpeedY := maxSpeed * 0.7;
      } else if isMovingDown {
        playerSpeedY := -maxSpeed * 0.7;
      } else if playerSpeedY > 0.0 {
        playerSpeedY := Max(0.0, playerSpeedY - friction * dt);
      } else if playerSpeedY < 0.0 {
        playerSpeedY := Min(0.0, playerSpeedY + friction * dt);
      }
    }

    /** The dash-line draw of handlePlayerInput: a draw above 0.3 leaves a dash line ten
        pixels behind the player, at half the player's height. */
    method MaybeDashLine()
      requires random.Valid() && EffectsOk()
      modifies this`dashLines, random`drawn
      ensures EffectsOk()
      ensures var d := old(random.drawn);
              if random.stream(d) > 0.3 then
                dashLines == old(dashLines) + [NewDashLine(playerX - 10.0, playerY + PlayerHeight / 2.0,
                                                           random.stream(d + 1), random.stream(d + 2))] &&
                random.drawn == d + 3
              else
                dashLines == old(dashLines) && random.drawn == d + 1
      ensures unchanged(this`playerSpeedX, this`maxSpeed, this`acceleration, this`driftSpeed, this`friction)
    {
      var u := random.NextFloat();
      if u > 0.3 {
        var line := SpawnDashLine(playerX - 10.0, playerY + PlayerHeight / 2.0, random);
        dashLines := dashLines + [line];
      }
    }

    /** updatePlayerRect */
    method UpdatePlayerRect()
      modifies this`playerRect
      ensures playerRect == PlayerRectAt(playerX, playerY)
      ensures unchanged(this`currentDifficulty, this`maxSpeed, this`acceleration, this`friction,
                        this`driftSpeed, this`windLines, this`dashLines, this`snowEffects, this`avalancheTimer,
                        this`avalancheIntensity, this`rocks, this`zigzagProps, this`currentLevel,
                        this`nextRockSpawnInterval)
    {
      playerRect := PlayerRectAt(playerX, playerY);
    }

    /** aplicarDano */
    method AplicarDano()
      modifies this`vidas, this`pontos, this`podeLevarDano, this`tempoInvencivel, this`playerX, this`playerSpeedX
      ensures CurrentVitals() == Dano(old(CurrentVitals()), Invincibility)
      ensures unchanged(this`currentDifficulty, this`maxSpeed, this`acceleration, this`friction,
                        this`driftSpeed, this`windLines, this`dashLines, this`snowEffects, this`avalancheTimer,
                        this`avalancheIntensity, this`rocks, this`zigzagProps, this`currentLevel,
                        this`nextRockSpawnInterval)
    {
      if podeLevarDano {
        vidas := vidas - 1;
        pontos := MaxInt(0, pontos - DanoPenalty);
        podeLevarDano := false;
        tempoInvencivel := Invincibility;
        playerX := Min(KnockbackMaxX, playerX + KnockbackDistance);
        playerSpeedX := KnockbackSpeed;
      }
    }

    /** aplicarDanoAvalanche */
    method AplicarDanoAvalanche()
      modifies this`vidas, this`pontos, this`podeLevarDano, this`tempoInvencivel, this`playerX, this`playerSpeedX
      ensures CurrentVitals() == DanoAvalanche(old(CurrentVitals()), Invincibility)
      ensures unchanged(this`currentDifficulty, this`maxSpeed, this`acceleration, this`friction,
                        this`driftSpeed, this`windLines, this`dashLines, this`snowEffects, this`avalancheTimer,
                        this`avalancheIntensity, this`rocks, this`zigzagProps, this`currentLevel,
                        this`nextRockSpawnInterval)
    {
      if podeLevarDano {
        vidas := vidas - 1;
        pontos := MaxInt(0, pontos - AvalanchePenalty);
        podeLevarDano := false;
        tempoInvencivel := Invincibility;
        playerX := AvalancheKnockbackX;
        playerSpeedX := AvalancheKnockbackSpeed;
      }
    }

    /** updateAvalanche: the avalanche clock and intensity advance, a snow effect is
        spawned with probability 0.9 + intensity / 10, and the dead ones are dropped. */
    method UpdateAvalanche(delta: real)
      requires EffectsOk() && random.Valid() && delta >= 0.0
      modifies this`avalancheTimer, this`avalancheIntensity, this`snowEffects, random`drawn
      ensures EffectsOk()
      ensures avalancheTimer == old(avalancheTimer) + delta && avalancheIntensity == Intensity(avalancheTimer)
      ensures snowEffects == SnowTick(old(snowEffects), avalancheIntensity, AvalancheHeight(currentLevel), delta,
                                     currentDifficulty, avalancheTimer, sine, random.stream, old(random.drawn))
      ensures random.drawn == old(random.drawn) + SnowDraws(avalancheIntensity, random.stream, old(random.drawn))
      ensures unchanged(this`currentDifficulty, this`maxSpeed, this`acceleration, this`friction,
                        this`driftSpeed, this`rocks, this`zigzagProps, this`currentLevel,
                        this`nextRockSpawnInterval, this`vidas, this`pontos, this`podeLevarDano,
                        this`tempoInvencivel, this`playerX, this`playerSpeedX, this`isLevelComplete)
    {
      var timer := avalancheTimer + delta;
      var intensity := Intensity(timer);
      var effects := TickSnow(snowEffects, intensity, AvalancheHeight(currentLevel), delta, currentDifficulty,
                              timer, sine, random);
      avalancheTimer, avalancheIntensity, snowEffects := timer, intensity, effects;
    }

    /** updateWindEffect: the wind clock advances and every line is updated in place,
        each line that runs out reset from the next five draws. */
    method UpdateWindEffect(delta: real)
      requires EffectsOk() && random.Valid()
      modifies this`windTimer, this`windLines, random`drawn
      ensures EffectsOk() && windTimer == old(windTimer) + delta
      ensures windLines == WindTick(old(windLines), delta, currentDifficulty, random.stream, old(random.drawn))
      ensures random.drawn == old(random.drawn) + 5 * WindResets(old(windLines), delta, currentDifficulty)
      ensures unchanged(this`currentDifficulty, this`maxSpeed, this`acceleration, this`friction,
                        this`driftSpeed, this`rocks, this`zigzagProps, this`currentLevel,
                        this`nextRockSpawnInterval, this`vidas, this`pontos, this`podeLevarDano,
                        this`tempoInvencivel, this`playerX, this`playerSpeedX, this`isLevelComplete)
    {
      windTimer := windTimer + delta;
      windLines := UpdateWindLines(windLines, delta, currentDifficulty, random);
    }

    /** updateDashLines */
    method UpdateDashLines(delta: real)
      requires EffectsOk()
      modifies this`dashLines
      ensures EffectsOk() && dashLines == Survivors(old(dashLines), DashStepper(delta), DashDead)
      ensures unchanged(this`currentDifficulty, this`maxSpeed, this`acceleration, this`friction,
                        this`driftSpeed, this`rocks, this`zigzagProps, this`currentLevel,
                        this`nextRockSpawnInterval, this`vidas, this`pontos, this`podeLevarDano,
                        this`tempoInvencivel, this`playerX, this`playerSpeedX, this`isLevelComplete)
    {
      dashLines := SweepParticles(dashLines, DashStepper(delta), DashDead);
    }

    /** updateParallax */
    method UpdateParallax(delta: real)
      requires PhysicsOk()
      modifies this`backgroundOffsetX
      ensures backgroundOffsetX == Parallax(old(backgroundOffsetX), playerSpeedX, maxSpeed, delta)
      ensures unchanged(this`currentDifficulty, this`maxSpeed, this`acceleration, this`friction,
                        this`driftSpeed, this`windLines, this`dashLines, this`snowEffects, this`avalancheTimer,
                        this`avalancheIntensity, this`rocks, this`zigzagProps, this`currentLevel,
                        this`nextRockSpawnInterval, this`vidas, this`pontos, this`podeLevarDano,
                        this`tempoInvencivel, this`playerX, this`playerSpeedX, this`isLevelComplete)
    {
      backgroundOffsetX := Parallax(backgroundOffsetX, playerSpeedX, maxSpeed, delta);
    }

    /** spawnRock: three draws, one new rock at the end of the list. */
    method SpawnRock(trackBottom: real, trackTop: real)
      requires random.Valid()
      modifies this`rocks, random`drawn
      ensures var d := old(random.drawn);
              rocks == old(rocks) + [RockFromDraws(currentLevel, trackBottom, trackTop,
                                                   random.stream(d), random.stream(d + 1), random.stream(d + 2))]
      ensures random.drawn == old(random.drawn) + 3
      ensures unchanged(this`currentDifficulty, this`maxSpeed, this`acceleration, this`friction,
                        this`driftSpeed, this`windLines, this`dashLines, this`snowEffects, this`avalancheTimer,
                        this`avalancheIntensity, this`vidas, this`pontos, this`podeLevarDano,
                        this`tempoInvencivel, this`playerX, this`playerSpeedX)
      ensures unchanged(this`zigzagProps, this`currentLevel, this`playerRect, this`isLevelComplete)
    {
      var uy := random.NextFloat();
      var ux := random.NextFloat();
      var us := random.NextFloat();
      rocks := rocks + [RockFromDraws(currentLevel, trackBottom, trackTop, uy, ux, us)];
    }

    /** updateRocks: a rock spawns when the spawn timer runs out, then the loop moves,
        scores, removes and collides as Sweep states. */
    method UpdateRocks(delta: real, trackBottom: real, trackTop: real)
      requires ObstaclesOk() && pontos >= 0 && random.Valid() && (currentLevel == 2 || currentLevel == 3)
      modifies this`rocks, this`rockSpawnTimer, this`nextRockSpawnInterval, this`vidas, this`pontos,
               this`podeLevarDano, this`tempoInvencivel, this`playerX, this`playerSpeedX,
               this`isLevelComplete, random`drawn
      ensures ObstaclesOk()
      ensures var d := old(random.drawn);
              var spawned := old(rockSpawnTimer) + delta >= old(nextRockSpawnInterval);
              var before := if spawned
                            then old(rocks) + [RockFromDraws(currentLevel, trackBottom, trackTop, random.stream(d),
                                                              random.stream(d + 1), random.stream(d + 2))]
                            else old(rocks);
              Pass(rocks, CurrentVitals(), isLevelComplete) ==
              Sweep(Rocks(delta, currentDifficulty), before, playerRect, Invincibility, currentLevel,
                    Pass([], old(CurrentVitals()), old(isLevelComplete)))
      ensures var d := old(random.drawn);
              if old(rockSpawnTimer) + delta >= old(nextRockSpawnInterval) then
                rockSpawnTimer == 0.0 && random.drawn == d + 4 &&
                nextRockSpawnInterval == Random.Between(RockMinSpawn, RockMaxSpawn, random.stream(d + 3))
              else
                rockSpawnTimer == old(rockSpawnTimer) + delta &&
                nextRockSpawnInterval == old(nextRockSpawnInterval) && random.drawn == d
      ensures Hit(old(CurrentVitals()), CurrentVitals(), Invincibility)
      ensures old(isLevelComplete) ==> isLevelComplete
      ensures isLevelComplete && !old(isLevelComplete) ==> old(currentLevel) == 2
      ensures unchanged(this`currentDifficulty, this`maxSpeed, this`acceleration, this`friction,
                        this`driftSpeed, this`windLines, this`dashLines, this`snowEffects, this`avalancheTimer,
                        this`avalancheIntensity)
    {
      SpawnRockWhenDue(delta, trackBottom, trackTop);
      MoveRocks(delta);
    }

    /** The spawn half of updateRocks: when the timer reaches the interval, one rock is
        added, the timer restarts and a new interval of 1 to 2.5 seconds is drawn. */
    method SpawnRockWhenDue(delta: real, trackBottom: real, trackTop: real)
      requires random.Valid() && RockMinSpawn <= nextRockSpawnInterval <= RockMaxSpawn
      modifies this`rocks, this`rockSpawnTimer, this`nextRockSpawnInterval, random`drawn
      ensures RockMinSpawn <= nextRockSpawnInterval <= RockMaxSpawn
      ensures var d := old(random.drawn);
              if old(rockSpawnTimer) + delta >= old(nextRockSpawnInterval) then
                rocks == old(rocks) + [RockFromDraws(currentLevel, trackBottom, trackTop, random.stream(d),
                                                     random.stream(d + 1), random.stream(d + 2))] &&
                rockSpawnTimer == 0.0 && random.drawn == d + 4 &&
                nextRockSpawnInterval == Random.Between(RockMinSpawn, RockMaxSpawn, random.stream(d + 3))
              else
                rocks == old(rocks) && rockSpawnTimer == old(rockSpawnTimer) + delta &&
                nextRockSpawnInterval == old(nextRockSpawnInterval) && random.drawn == d
      ensures unchanged(this`currentDifficulty, this`maxSpeed, this`acceleration, this`friction,
                        this`driftSpeed, this`windLines, this`dashLines, this`snowEffects, this`avalancheTimer,
                        this`avalancheIntensity, this`vidas, this`pontos, this`podeLevarDano,
                        this`tempoInvencivel, this`playerX, this`playerSpeedX)
      ensures unchanged(this`zigzagProps, this`currentLevel, this`playerRect, this`isLevelComplete)
    {
      rockSpawnTimer := rockSpawnTimer + delta;
      if rockSpawnTimer >= nextRockSpawnInterval {
        SpawnRock(trackBottom, trackTop);
        rockSpawnTimer := 0.0;
        var u := random.NextFloat();
        nextRockSpawnInterval := Random.Between(RockMinSpawn, RockMaxSpawn, u);
      }
    }

    /** The loop half of updateRocks, at the difficulty's speed multiplier. */
    method MoveRocks(delta: real)
      requires pontos >= 0
      modifies this`rocks, this`vidas, this`pontos, this`podeLevarDano, this`tempoInvencivel,
               this`playerX, this`playerSpeedX, this`isLevelComplete
      ensures forall k :: 0 <= k < |rocks| ==> !RockGone(rocks[k])
      ensures Pass(rocks, CurrentVitals(), isLevelComplete) ==
              Sweep(Rocks(delta, currentDifficulty), old(rocks), playerRect, Invincibility, currentLevel,
                    Pass([], old(CurrentVitals()), old(isLevelComplete)))
      ensures Hit(old(CurrentVitals()), CurrentVitals(), Invincibility)
      ensures old(isLevelComplete) ==> isLevelComplete
      ensures isLevelComplete && !old(isLevelComplete) ==> old(currentLevel) == 2
      ensures unchanged(this`currentDifficulty, this`maxSpeed, this`acceleration, this`friction,
                        this`driftSpeed, this`windLines, this`dashLines, this`snowEffects, this`avalancheTimer,
                        this`avalancheIntensity)
      ensures unchanged(this`zigzagProps, this`currentLevel, this`nextRockSpawnInterval, this`playerRect)
    {
      var h := Rocks(delta, currentDifficulty);
      SweepLandsOneHit(h, rocks, playerRect, Invincibility, currentLevel, Pass([], CurrentVitals(), isLevelComplete));
      var kept, after, complete := SweepObstacles(h, rocks, playerRect, Invincibility, currentLevel,
                                                  CurrentVitals(), isLevelComplete);
      assert forall k :: 0 <= k < |kept| ==> !h.gone(kept[k]);
      rocks, isLevelComplete := kept, complete;
      SetVitals(after);
    }

    /** Writes back the vitals a damage-dealing loop computed. */
    method SetVitals(v: Vitals)
      modifies this`vidas, this`pontos, this`podeLevarDano, this`tempoInvencivel, this`playerX, this`playerSpeedX
      ensures CurrentVitals() == v
      ensures unchanged(this`currentDifficulty, this`maxSpeed, this`acceleration, this`friction,
                        this`driftSpeed, this`windLines, this`dashLines, this`snowEffects, this`avalancheTimer,
                        this`avalancheIntensity, this`rocks, this`zigzagProps, this`currentLevel,
                        this`nextRockSpawnInterval, this`isLevelComplete, this`playerRect)
    {
      vidas, pontos, podeLevarDano, tempoInvencivel := v.vidas, v.pontos, v.podeLevarDano, v.tempoInvencivel;
      playerX, playerSpeedX := v.playerX, v.playerSpeedX;
    }

    /** updateZigZagProps: a prop spawns every 2.5 seconds, then the loop moves, removes
        and collides as Sweep states. */
    method UpdateZigZagProps(delta: real)
      requires ObstaclesOk() && pontos >= 0 && random.Valid() && IsSine(sine) && (currentLevel == 2 || currentLevel == 3)
      modifies this`zigzagProps, this`zigzagSpawnTimer, this`vidas, this`pontos,
               this`podeLevarDano, this`tempoInvencivel, this`playerX, this`playerSpeedX, random`drawn
      ensures ObstaclesOk()
      ensures var d := old(random.drawn);
              var spawned := old(zigzagSpawnTimer) + delta >= ZigZagSpawnInterval;
              var before := if spawned
                            then old(zigzagProps) + [PropStart(currentLevel, random.stream(d), random.stream(d + 1))]
                            else old(zigzagProps);
              (zigzagProps, CurrentVitals()) ==
              (var r := Sweep(Props(delta, currentDifficulty, sine), before, playerRect, Invincibility, currentLevel,
                              Pass([], old(CurrentVitals()), isLevelComplete));
               (r.kept, r.v))
      ensures if old(zigzagSpawnTimer) + delta >= ZigZagSpawnInterval then
                zigzagSpawnTimer == 0.0 && random.drawn == old(random.drawn) + 2
              else
                zigzagSpawnTimer == old(zigzagSpawnTimer) + delta && random.drawn == old(random.drawn)
      ensures Hit(old(CurrentVitals()), CurrentVitals(), Invincibility)
      ensures isLevelComplete == old(isLevelComplete)
      ensures unchanged(this`currentDifficulty, this`maxSpeed, this`acceleration, this`friction,
                        this`driftSpeed, this`windLines, this`dashLines, this`snowEffects, this`avalancheTimer,
                        this`avalancheIntensity)
    {
      SpawnPropWhenDue(delta);
      MoveProps(delta);
    }

    /** The spawn half of updateZigZagProps: every 2.5 seconds on levels 2 and 3 one prop
        is added at PropStart and the timer restarts. */
    method SpawnPropWhenDue(delta: real)
      requires random.Valid()
      modifies this`zigzagProps, this`zigzagSpawnTimer, random`drawn
      ensures var d := old(random.drawn);
              if (currentLevel == 2 || currentLevel == 3) && old(zigzagSpawnTimer) + delta >= ZigZagSpawnInterval then
                zigzagProps == old(zigzagProps) + [PropStart(currentLevel, random.stream(d), random.stream(d + 1))] &&
                zigzagSpawnTimer == 0.0 && random.drawn == d + 2
              else
                zigzagProps == old(zigzagProps) && zigzagSpawnTimer == old(zigzagSpawnTimer) + delta &&
                random.drawn == d
      ensures unchanged(this`currentDifficulty, this`maxSpeed, this`acceleration, this`friction,
                        this`driftSpeed, this`windLines, this`dashLines, this`snowEffects, this`avalancheTimer,
                        this`avalancheIntensity, this`vidas, this`pontos, this`podeLevarDano,
                        this`tempoInvencivel, this`playerX, this`playerSpeedX)
      ensures unchanged(this`rocks, this`currentLevel, this`nextRockSpawnInterval, this`playerRect)
    {
      zigzagSpawnTimer := zigzagSpawnTimer + delta;
      if (currentLevel == 2 || currentLevel == 3) && zigzagSpawnTimer >= ZigZagSpawnInterval {
        zigzagSpawnTimer := 0.0;
        var ux := random.NextFloat();
        var uy := random.NextFloat();
        zigzagProps := zigzagProps + [PropStart(currentLevel, ux, uy)];
      }
    }

    /** The loop half of updateZigZagProps: props score nothing, so the level flag stays. */
    method MoveProps(delta: real)
      requires IsSine(sine) && pontos >= 0
      modifies this`zigzagProps, this`vidas, this`pontos, this`podeLevarDano, this`tempoInvencivel,
               this`playerX, this`playerSpeedX
      ensures forall k :: 0 <= k < |zigzagProps| ==> !PropGone(zigzagProps[k])
      ensures var r := Sweep(Props(delta, currentDifficulty, sine), old(zigzagProps), playerRect, Invincibility,
                             currentLevel, Pass([], old(CurrentVitals()), isLevelComplete));
              zigzagProps == r.kept && CurrentVitals() == r.v
      ensures Hit(old(CurrentVitals()), CurrentVitals(), Invincibility)
      ensures unchanged(this`currentDifficulty, this`maxSpeed, this`acceleration, this`friction,
                        this`driftSpeed, this`windLines, this`dashLines, this`snowEffects, this`avalancheTimer,
                        this`avalancheIntensity, this`rocks, this`currentLevel, this`nextRockSpawnInterval)
    {
      var h := Props(delta, currentDifficulty, sine);
      SweepLandsOneHit(h, zigzagProps, playerRect, Invincibility, currentLevel, Pass([], CurrentVitals(), isLevelComplete));
      var kept, after, _ := SweepObstacles(h, zigzagProps, playerRect, Invincibility, currentLevel,
                                           CurrentVitals(), isLevelComplete);
      assert forall k :: 0 <= k < |kept| ==> !h.gone(kept[k]);
      zigzagProps := kept;
      SetVitals(after);
    }

    /** togglePause (the music it pauses and resumes is not modelled). */
    method TogglePause()
      modifies this`isPaused
      ensures isPaused == !old(isPaused)
    {
      isPaused := !isPaused;
    }

    /** setPaused */
    method SetPaused(paused: bool)
      modifies this`isPaused
      ensures isPaused == paused
    {
      isPaused := paused;
    }

    /** setCurrentLevel: the new level starts without obstacles and not complete. */
    method SetCurrentLevel(level: int)
      requires Valid()
      modifies this`currentLevel, this`isLevelComplete, this`rocks, this`zigzagProps
      ensures Valid()
      ensures currentLevel == level && !isLevelComplete && rocks == [] && zigzagProps == []
    {
      currentLevel := level;
      isLevelComplete := false;
      rocks := [];
      zigzagProps := [];
    }

    /** resetLevelComplete */
    method ResetLevelComplete()
      modifies this`isLevelComplete
      ensures !isLevelComplete
    {
      isLevelComplete := false;
    }
  }
}
