/** The rules both GameWorld variants share: screen and player geometry, the
    score-derived difficulty, the input-driven velocity rules and the two kinds
    of damage. Values that differ between the variants (invincibility window,
    tracks, thresholds) are parameters here and constants in each world module. */
module Physics {
  import opened Geometry

  // MainGame.VIRTUAL_WIDTH / VIRTUAL_HEIGHT
  const VirtualWidth: real := 800.0
  const VirtualHeight: real := 800.0

  // PLAYER_WIDTH, PLAYER_HEIGHT and the centred collision box
  const PlayerWidth: real := 70.0
  const PlayerHeight: real := 90.0
  const PlayerCollisionWidth: real := 40.0
  const PlayerCollisionHeight: real := 40.0
  const PlayerCollisionOffsetX: real := (PlayerWidth - PlayerCollisionWidth) / 2.0
  const PlayerCollisionOffsetY: real := (PlayerHeight - PlayerCollisionHeight) / 2.0

  // BASE_MAX_SPEED, BASE_ACCELERATION, BASE_FRICTION, BASE_DRIFT_SPEED
  const BaseMaxSpeed: real := 400.0
  const BaseAcceleration: real := 280.0
  const BaseFriction: real := 180.0
  const BaseDriftSpeed: real := 190.0

  // LARGURA_AVALANCHE, ALTURA_AVALANCHE, INTERVALO_DANO_AVALANCHE
  const AvalancheWidth: real := 120.0
  const AvalancheFullHeight: real := 720.0
  const AvalancheDamageInterval: real := 0.3
  /** The player takes avalanche damage at or left of this x. */
  const AvalancheReach: real := AvalancheWidth + 5.0

  /** The horizontal play strip: right of the avalanche, left of the screen edge. */
  const PlayerMinX: real := AvalancheWidth
  const PlayerMaxX: real := VirtualWidth - PlayerWidth

  predicate InPlayStrip(x: real)
  {
    PlayerMinX <= x <= PlayerMaxX
  }

  /** The player's collision box for a sprite at (x, y) (updatePlayerRect). */
  function PlayerRectAt(x: real, y: real): (r: Rect)
    ensures r.width == PlayerCollisionWidth && r.height == PlayerCollisionHeight
    ensures x < r.x && r.x + r.width < x + PlayerWidth
    ensures y < r.y && r.y + r.height < y + PlayerHeight
  {
    Rect(x + PlayerCollisionOffsetX, y + PlayerCollisionOffsetY, PlayerCollisionWidth, PlayerCollisionHeight)
  }

  // ---------------------------------------------------------------------
  // Difficulty (updateDifficulty)

  /** min(2.5, 1 + pontos/100 * 0.05), with float division. */
  function Difficulty(pontos: int): (d: real)
    ensures pontos >= 0 ==> 1.0 <= d <= 2.5
    ensures pontos >= 3000 ==> d == 2.5
    ensures pontos == 0 ==> d == 1.0
  {
    Min(2.5, 1.0 + (pontos as real / 100.0) * 0.05)
  }

  /** More points never make the game easier. */
  lemma DifficultyMonotone(a: int, b: int)
    requires a <= b
    ensures Difficulty(a) <= Difficulty(b)
  {
  }

  // ---------------------------------------------------------------------
  // Player input (handlePlayerInput)

  /** Pull toward zero by `amount`, stopping at zero. */
  function Friction(v: real, amount: real): (r: real)
    requires amount >= 0.0
    ensures 0.0 <= v ==> 0.0 <= r <= v
    ensures v <= 0.0 ==> v <= r <= 0.0
    ensures amount <= Abs(v) ==> Abs(r) == Abs(v) - amount
    ensures amount >= Abs(v) ==> r == 0.0
  {
    if v > 0.0 then Max(0.0, v - amount)
    else if v < 0.0 then Min(0.0, v + amount)
    else v
  }

  /** The horizontal speed after the accelerate / brake / drift branch, before friction. */
  function SteerX(speedX: real, accelerating: bool, braking: bool,
                  acceleration: real, maxSpeed: real, driftSpeed: real, dt: real): (r: real)
    ensures accelerating ==> r <= maxSpeed
    ensures accelerating && acceleration * dt >= 0.0 && speedX <= maxSpeed ==> speedX <= r
    ensures !accelerating && braking ==> r >= -maxSpeed * 0.5
    ensures !accelerating && braking && acceleration * dt >= 0.0 && speedX >= -maxSpeed * 0.5 ==> r <= speedX
    ensures !accelerating && !braking ==> r + driftSpeed * dt == speedX
  {
    if accelerating then Min(maxSpeed, speedX + acceleration * dt)
    else if braking then Max(-maxSpeed * 0.5, speedX - acceleration * 1.5 * dt)
    else speedX - driftSpeed * dt
  }

  /** The horizontal speed at the end of handlePlayerInput: the branch, then half-rate friction. */
  function SpeedXAfterInput(speedX: real, accelerating: bool, braking: bool, acceleration: real,
                            maxSpeed: real, driftSpeed: real, friction: real, dt: real): (r: real)
    requires friction >= 0.0 && dt >= 0.0
    ensures accelerating && maxSpeed >= 0.0 ==> r <= maxSpeed
    ensures !accelerating && braking && maxSpeed >= 0.0 ==> r >= -maxSpeed * 0.5
    ensures var s := SteerX(speedX, accelerating, braking, acceleration, maxSpeed, driftSpeed, dt);
            (s >= 0.0 ==> 0.0 <= r <= s) && (s <= 0.0 ==> s <= r <= 0.0)
  {
    NonNegativeProduct(friction, dt);
    Friction(SteerX(speedX, accelerating, braking, acceleration, maxSpeed, driftSpeed, dt), friction * dt * 0.5)
  }

  /** The vertical speed at the end of handlePlayerInput. */
  function SpeedYAfterInput(speedY: real, up: bool, down: bool, maxSpeed: real,
                            friction: real, dt: real): (r: real)
    requires friction >= 0.0 && dt >= 0.0
    ensures up ==> r == maxSpeed * 0.7
    ensures !up && down ==> r == -maxSpeed * 0.7
    ensures !up && !down ==> (speedY >= 0.0 ==> 0.0 <= r <= speedY) && (speedY <= 0.0 ==> speedY <= r <= 0.0)
  {
    NonNegativeProduct(friction, dt);
    if up then maxSpeed * 0.7
    else if down then -maxSpeed * 0.7
    else Friction(speedY, friction * dt)
  }

  lemma NonNegativeProduct(a: real, b: real)
    ensures a >= 0.0 && b >= 0.0 ==> a * b >= 0.0 && a * b * 0.5 >= 0.0
  {
  }

  /** The horizontal speed after `frames` frames without input, at a fixed difficulty. */
  function IdleSpeedX(speedX: real, frames: nat, difficulty: real, dt: real): real
    requires difficulty >= 0.0 && dt >= 0.0
    decreases frames
  {
    if frames == 0 then speedX
    else
      NonNegativeProduct(BaseFriction * difficulty, dt);
      IdleSpeedX(SpeedXAfterInput(speedX, false, false, BaseAcceleration * difficulty,
                                  BaseMaxSpeed * difficulty, BaseDriftSpeed * difficulty,
                                  BaseFriction * difficulty, dt),
                 frames - 1, difficulty, dt)
  }

  /** Without input the drift outweighs half-rate friction: a non-positive speed loses
      (190 - 90) * difficulty * dt every frame, so no lower bound on the speed holds. */
  lemma {:induction false} IdleDriftUnbounded(speedX: real, frames: nat, difficulty: real, dt: real)
    requires speedX <= 0.0 && difficulty >= 0.0 && dt >= 0.0
    ensures IdleSpeedX(speedX, frames, difficulty, dt) == speedX - Repeated(frames, 100.0 * (difficulty * dt))
    decreases frames
  {
    if frames > 0 {
      var k := 100.0 * (difficulty * dt);
      IdleFrame(speedX, difficulty, dt);
      IdleDriftUnbounded(speedX - k, frames - 1, difficulty, dt);
    }
  }

  /** `k` added up `n` times. */
  function Repeated(n: nat, k: real): real
  {
    if n == 0 then 0.0 else Repeated(n - 1, k) + k
  }

  /** Adding `k` up `n` times is multiplying it by `n`, so the idle loss grows without
      bound once difficulty * dt is positive. */
  lemma {:induction false} RepeatedIsProduct(n: nat, k: real)
    ensures Repeated(n, k) == (n as real) * k
  {
    if n > 0 {
      RepeatedIsProduct(n - 1, k);
      assert ((n - 1) as real) * k + k == (n as real) * k;
    }
  }

  /** One idle frame from a non-positive speed: the drift of 190 * difficulty * dt, less
      the half-rate friction of 90 * difficulty * dt. */
  lemma IdleFrame(speedX: real, difficulty: real, dt: real)
    requires speedX <= 0.0 && difficulty >= 0.0 && dt >= 0.0
    ensures 100.0 * (difficulty * dt) >= 0.0
    ensures SpeedXAfterInput(speedX, false, false, BaseAcceleration * difficulty, BaseMaxSpeed * difficulty,
                             BaseDriftSpeed * difficulty, BaseFriction * difficulty, dt) ==
            speedX - 100.0 * (difficulty * dt)
  {
    var m := difficulty * dt;
    NonNegativeProduct(difficulty, dt);
    assert BaseDriftSpeed * difficulty * dt == 190.0 * m;
    assert BaseFriction * difficulty * dt * 0.5 == 90.0 * m;
  }

  // ---------------------------------------------------------------------
  // Background scroll (updateParallax)

  /** How far the background scrolls left this frame: 300 px/s at half speed, scaled by
      the player's share of twice the top speed. */
  function ParallaxScroll(playerSpeedX: real, maxSpeed: real, delta: real): real
    requires maxSpeed > 0.0
  {
    300.0 * (0.5 + playerSpeedX / (maxSpeed * 2.0)) * delta
  }

  /** The new background offset: scrolled, then wrapped by one screen width once it has
      gone a full screen to the left. A scroll of at most one screen per frame keeps an
      offset in [-VirtualWidth, 0] in that range. */
  function Parallax(offset: real, playerSpeedX: real, maxSpeed: real, delta: real): (r: real)
    requires maxSpeed > 0.0
    ensures var moved := offset - ParallaxScroll(playerSpeedX, maxSpeed, delta);
            r == moved || (moved < -VirtualWidth && r == moved + VirtualWidth)
    ensures var scroll := ParallaxScroll(playerSpeedX, maxSpeed, delta);
            -VirtualWidth <= offset <= 0.0 && 0.0 <= scroll <= VirtualWidth ==> -VirtualWidth <= r <= 0.0
  {
    var moved := offset - ParallaxScroll(playerSpeedX, maxSpeed, delta);
    if moved < -VirtualWidth then moved + VirtualWidth else moved
  }

  // ---------------------------------------------------------------------
  // Damage (aplicarDano / aplicarDanoAvalanche)

  /** The part of the world state that damage reads and writes. */
  datatype Vitals = Vitals(vidas: int, pontos: int, podeLevarDano: bool, tempoInvencivel: real,
                           playerX: real, playerSpeedX: real)

  const DanoPenalty: int := 20
  const AvalanchePenalty: int := 15
  /** VIRTUAL_WIDTH - PLAYER_WIDTH - 100: the furthest right a hazard hit throws the player. */
  const KnockbackMaxX: real := VirtualWidth - PlayerWidth - 100.0
  const KnockbackDistance: real := 80.0
  const KnockbackSpeed: real := 100.0
  /** LARGURA_AVALANCHE + 30: where an avalanche hit puts the player. */
  const AvalancheKnockbackX: real := AvalancheWidth + 30.0
  const AvalancheKnockbackSpeed: real := 200.0

  /** A hit while damage is allowed: one life, a floored score penalty, the
      invincibility window, and a knockback; otherwise nothing. */
  function Wound(v: Vitals, penalty: int, invincibility: real, knockX: real, knockSpeed: real): Vitals
  {
    if v.podeLevarDano then
      Vitals(v.vidas - 1, MaxInt(0, v.pontos - penalty), false, invincibility, knockX, knockSpeed)
    else v
  }

  /** aplicarDano: a log, rock or zig-zag hit. */
  function Dano(v: Vitals, invincibility: real): (r: Vitals)
    ensures !v.podeLevarDano ==> r == v
    ensures v.podeLevarDano ==> r.vidas == v.vidas - 1 && !r.podeLevarDano && r.tempoInvencivel == invincibility
    ensures v.podeLevarDano ==> r.playerSpeedX == KnockbackSpeed
    ensures v.pontos >= 0 ==> 0 <= r.pontos <= v.pontos
    ensures v.podeLevarDano && v.pontos >= DanoPenalty ==> r.pontos == v.pontos - DanoPenalty
    ensures v.podeLevarDano && v.pontos < DanoPenalty ==> r.pontos == 0
    ensures v.podeLevarDano && v.playerX + KnockbackDistance <= KnockbackMaxX ==>
              r.playerX == v.playerX + KnockbackDistance
    ensures v.podeLevarDano && v.playerX + KnockbackDistance > KnockbackMaxX ==> r.playerX == KnockbackMaxX
    ensures InPlayStrip(v.playerX) ==> InPlayStrip(r.playerX)
  {
    Wound(v, DanoPenalty, invincibility, Min(KnockbackMaxX, v.playerX + KnockbackDistance), KnockbackSpeed)
  }

  /** aplicarDanoAvalanche: a hit from the avalanche strip. */
  function DanoAvalanche(v: Vitals, invincibility: real): (r: Vitals)
    ensures !v.podeLevarDano ==> r == v
    ensures v.podeLevarDano ==> r.vidas == v.vidas - 1 && !r.podeLevarDano && r.tempoInvencivel == invincibility
    ensures v.podeLevarDano ==> r.playerX == AvalancheKnockbackX && r.playerSpeedX == AvalancheKnockbackSpeed
    ensures v.pontos >= 0 ==> 0 <= r.pontos <= v.pontos
    ensures v.podeLevarDano && v.pontos >= AvalanchePenalty ==> r.pontos == v.pontos - AvalanchePenalty
    ensures v.podeLevarDano && v.pontos < AvalanchePenalty ==> r.pontos == 0
    ensures InPlayStrip(v.playerX) ==> InPlayStrip(r.playerX)
  {
    Wound(v, AvalanchePenalty, invincibility, AvalancheKnockbackX, AvalancheKnockbackSpeed)
  }

  /** Within one invincibility window every further hit is a no-op, whatever its kind. */
  lemma SecondHitIsNoOp(v: Vitals, invincibility: real)
    ensures Dano(Dano(v, invincibility), invincibility) == Dano(v, invincibility)
    ensures DanoAvalanche(Dano(v, invincibility), invincibility) == Dano(v, invincibility)
    ensures Dano(DanoAvalanche(v, invincibility), invincibility) == DanoAvalanche(v, invincibility)
    ensures DanoAvalanche(DanoAvalanche(v, invincibility), invincibility) == DanoAvalanche(v, invincibility)
  {
  }

  /** One stretch of a frame's damage bookkeeping: at most one hit, and a hit starts the
      invincibility window. */
  ghost predicate Hit(before: Vitals, after: Vitals, invincibility: real)
  {
    before.vidas - 1 <= after.vidas <= before.vidas &&
    (after.vidas < before.vidas ==> before.podeLevarDano && !after.podeLevarDano && after.tempoInvencivel == invincibility) &&
    (after.vidas == before.vidas ==> after.podeLevarDano == before.podeLevarDano &&
                                     after.tempoInvencivel == before.tempoInvencivel) &&
    (after.pontos >= 0 || before.pontos < 0) && (InPlayStrip(before.playerX) ==> InPlayStrip(after.playerX))
  }

  /** Two stretches of a frame that each land at most one hit land at most one hit
      between them: after a hit the player cannot be hit again. */
  lemma HitThenHit(a: Vitals, b: Vitals, c: Vitals, invincibility: real)
    requires Hit(a, b, invincibility) && Hit(b, c, invincibility)
    ensures Hit(a, c, invincibility)
  {
  }

  /** A stretch of a frame without damage lands no hit. */
  lemma NoHit(v: Vitals, invincibility: real)
    requires v.pontos >= 0
    ensures Hit(v, v, invincibility)
  {
  }
}
