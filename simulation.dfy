/**
 * The per-frame simulation step of src/components/GameCanvas.tsx as pure functions on a
 * value that holds everything the canvas component keeps in refs between frames.
 *
 * Each phase of the PLAYING branch of `loop` is one function, applied in the source's order
 * by Tick. The four list passes walk their list from the last index down to the first and
 * splice out what they remove; here each pass is a tail-recursive function that consumes the
 * unprocessed prefix from its end (`todo`) and prepends what it keeps to the already processed
 * suffix, which the World value itself carries in the list's own field.
 *
 * The imperative model in module GameCanvas is proved to compute exactly these functions.
 */
module Simulation {
  import opened Types
  import opened Constants
  import opened Collision

  /** Everything the component keeps between frames: the game state and all of its refs. */
  datatype World = World(
    gameState: GameState,
    player: Player,
    dog: Dog,
    obstacles: seq<Obstacle>,
    coins: seq<Coin>,
    powerUps: seq<PowerUp>,
    particles: seq<Particle>,
    gameSpeed: real,
    score: int,
    distance: real,
    coinsCollected: nat,
    bgOffset: real,
    frameCount: nat)

  /** The Math.random() draws of one run of the spawner, named after what they decide. */
  datatype SpawnRolls = SpawnRolls(
    gate: real, obstacleKind: real, birdLift: real,
    item: real, powerUpKind: real, itemX: real, itemY: real, wobble: real)

  /**
   * What the step asks of its host: the two Math.random() draws that set the velocity of the
   * k-th particle of a burst, the magnet's pull (the displacement (dx/dist*15, dy/dist*15) for
   * a coin at offset (dx, dy) from the runner, which needs Math.sqrt) and Math.sin.
   */
  datatype Host = Host(
    spray: nat -> (real, real),
    pull: (real, real) -> (real, real),
    sine: real -> real)

  // ---------------------------------------------------------------------------------------
  // Initial values, reset and the game state machine
  // ---------------------------------------------------------------------------------------

  /** The runner as resetGame builds it: standing on the ground at its default lane. */
  const InitialPlayer: Player := Player(
    PLAYER_DEFAULT_X, GROUND_Y - PLAYER_SIZE, PLAYER_SIZE, PLAYER_SIZE,
    0.0,
    false, true, true, 0,
    false, 0,
    false, 0, 0,
    PLAYER_DEFAULT_X,
    0, 0, 0)

  const InitialDog: Dog := Dog(DOG_X, GROUND_Y - DOG_SIZE, DOG_SIZE, DOG_SIZE, 0, 0)

  /** The refs as the component creates them, in the MENU state the app starts in. */
  const InitialWorld: World :=
    World(Menu, InitialPlayer, InitialDog, [], [], [], [], INITIAL_SPEED, 0, 0.0, 0, 0.0, 0)

  /**
   * resetGame: a fresh runner, the dog back at DOG_X (its animation is kept), all four lists
   * emptied and all run counters back to their initial values. The game state is not a ref.
   */
  function Reset(w: World): World
  {
    World(w.gameState, InitialPlayer, w.dog.(x := DOG_X), [], [], [], [],
          INITIAL_SPEED, 0, 0.0, 0, 0.0, 0)
  }

  /**
   * startGame followed by the component's reset effect. Setting the state to the value it
   * already has does not re-run the effect, so a start while PLAYING changes nothing.
   */
  function Start(w: World): World
  {
    if w.gameState == Playing then w else Reset(w.(gameState := Playing))
  }

  /** One animation frame of `loop`: the simulation step runs only while PLAYING. */
  function Frame(w: World, rolls: SpawnRolls, host: Host): World
  {
    if w.gameState == Playing then Tick(w, rolls, host) else w
  }

  // ---------------------------------------------------------------------------------------
  // Particles
  // ---------------------------------------------------------------------------------------

  /** One particle of a burst, from its two velocity draws. */
  function Spark(x: real, y: real, roll: (real, real)): Particle
  {
    Particle(x, y, (roll.0 - 0.5) * 5.0, (roll.1 - 0.5) * 5.0, 1.0)
  }

  /** createParticles(x, y, color, count): the particles it appends, in push order. */
  function Burst(x: real, y: real, count: nat, spray: nat -> (real, real)): seq<Particle>
  {
    if count == 0 then [] else Burst(x, y, count - 1, spray) + [Spark(x, y, spray(count - 1))]
  }

  /** One particle update: move by the old velocity, then lose life, then gain downward speed. */
  function Fade(p: Particle): Particle
  {
    Particle(p.x + p.vx, p.y + p.vy, p.vx, p.vy + PARTICLE_GRAVITY, p.life - PARTICLE_DECAY)
  }

  /** The particle pass: update every particle, drop those whose life reached zero. */
  function ParticlePass(done: seq<Particle>, todo: seq<Particle>): seq<Particle>
    decreases |todo|
  {
    if todo == [] then done
    else
      var q := Fade(todo[|todo| - 1]);
      ParticlePass(if q.life <= 0.0 then done else [q] + done, todo[..|todo| - 1])
  }

  // ---------------------------------------------------------------------------------------
  // Jumping
  // ---------------------------------------------------------------------------------------

  /**
   * handleJump: ignored outside PLAYING; a grounded runner jumps; an airborne runner with its
   * double jump still available and fewer than two jumps makes a weaker second jump;
   * otherwise nothing happens. Each jump throws dust from the runner's feet.
   */
  function Jump(w: World, spray: nat -> (real, real)): World
  {
    var p := w.player;
    if w.gameState != Playing then w
    else if p.isGrounded then
      var q := p.(vy := JUMP_FORCE, isGrounded := false, isJumping := true, jumpCount := 1);
      w.(player := q, particles := w.particles + Burst(q.x + q.width / 2.0, q.y + q.height, 5, spray))
    else if p.doubleJumpAvailable && p.jumpCount < 2 then
      var q := p.(vy := JUMP_FORCE * DOUBLE_JUMP_FACTOR, jumpCount := 2, doubleJumpAvailable := false);
      w.(player := q, particles := w.particles + Burst(q.x + q.width / 2.0, q.y + q.height, 3, spray))
    else w
  }

  // ---------------------------------------------------------------------------------------
  // Phases 1-4: animation, buffs and speed, distance and score, runner physics
  // ---------------------------------------------------------------------------------------

  function AnimatePlayer(p: Player): Player
  {
    if p.animTimer + 1 >= ANIM_TICKS then
      if p.isGrounded then p.(animTimer := 0, runFrame := (p.runFrame + 1) % ANIM_FRAMES)
      else p.(animTimer := 0, jumpFrame := (p.jumpFrame + 1) % ANIM_FRAMES)
    else p.(animTimer := p.animTimer + 1)
  }

  function AnimateDog(d: Dog): Dog
  {
    if d.animTimer + 1 >= ANIM_TICKS then d.(animTimer := 0, frame := (d.frame + 1) % ANIM_FRAMES)
    else d.(animTimer := d.animTimer + 1)
  }

  /** Frame counter and the runner's and dog's animation counters. */
  function Animate(w: World): World
  {
    w.(frameCount := w.frameCount + 1, player := AnimatePlayer(w.player), dog := AnimateDog(w.dog))
  }

  function Countdown(t: nat): nat
  {
    if t > 0 then t - 1 else t
  }

  /** The three buff timers tick down; `invincible` is fixed here for the rest of the tick. */
  function Buffs(p: Player): Player
  {
    var q := p.(feverTimer := Countdown(p.feverTimer), magnetTimer := Countdown(p.magnetTimer),
                invincibleTimer := Countdown(p.invincibleTimer));
    q.(invincible := if q.feverTimer > 0 then true else q.invincibleTimer > 0)
  }

  /** The speed the world scrolls at this tick: half as fast again under fever. */
  function CurrentSpeed(p: Player, gameSpeed: real): real
  {
    if p.feverTimer > 0 then gameSpeed * FEVER_SPEED_FACTOR else gameSpeed
  }

  /** Speed ramp, distance, and the score from this distance and the coins collected so far. */
  function Advance(w: World, speed: real): World
  {
    var distance := w.distance + speed * DISTANCE_FACTOR;
    w.(gameSpeed := if w.gameSpeed < MAX_SPEED then w.gameSpeed + SPEED_INCREMENT else w.gameSpeed,
       distance := distance,
       score := (distance + w.coinsCollected as real * COIN_SCORE).Floor)
  }

  /** The snapshot handed to updateStats. */
  function Stats(w: World): GameStats
  {
    GameStats(w.score, w.coinsCollected, w.distance.Floor)
  }

  /** Gravity, recovery towards the lane, and landing. */
  function Physics(p: Player): Player
  {
    var vy := p.vy + GRAVITY;
    var y := p.y + vy;
    var x := if p.x < p.targetX then p.x + RECOVERY_STEP
             else if p.x > p.targetX then p.x - RECOVERY_STEP
             else p.x;
    if y + p.height >= GROUND_Y then
      p.(x := x, y := GROUND_Y - p.height, vy := 0.0, isGrounded := true, isJumping := false,
         doubleJumpAvailable := true, jumpCount := 0)
    else
      p.(x := x, y := y, vy := vy, isGrounded := false)
  }

  // ---------------------------------------------------------------------------------------
  // Phase 5: the dog
  // ---------------------------------------------------------------------------------------

  /** Contact with the dog ends the run, but the rest of the tick still runs. */
  function DogCheck(w: World, spray: nat -> (real, real)): World
  {
    if Collides(w.player.Box(), w.dog.Box()) then
      w.(gameState := GameOver, particles := w.particles + Burst(w.player.x, w.player.y, 30, spray))
    else w
  }

  // ---------------------------------------------------------------------------------------
  // Phase 6: the spawner
  // ---------------------------------------------------------------------------------------

  /** The gap rule, judged against the last element of the obstacle list. */
  predicate CanSpawn(obstacles: seq<Obstacle>, speed: real)
  {
    obstacles == [] ||
    CANVAS_WIDTH - obstacles[|obstacles| - 1].x > SPAWN_BASE_GAP + speed * SPAWN_GAP_PER_SPEED
  }

  /** The obstacle table: kind, size and height above ground by threshold on one draw. */
  function NewObstacle(kindRoll: real, liftRoll: real): Obstacle
  {
    if kindRoll > 0.85 then Obstacle(SPAWN_X, GROUND_Y - 160.0, 100.0, 160.0, ElectricPole, 0, 0)
    else if kindRoll > 0.70 then Obstacle(SPAWN_X, GROUND_Y - 100.0 - liftRoll * 50.0, 50.0, 40.0, Bird, 0, 0)
    else if kindRoll > 0.55 then Obstacle(SPAWN_X, GROUND_Y - 100.0, 120.0, 100.0, Tricycle, 0, 0)
    else if kindRoll > 0.40 then Obstacle(SPAWN_X, GROUND_Y - 80.0, 120.0, 80.0, Buffalo, 0, 0)
    else if kindRoll > 0.25 then Obstacle(SPAWN_X, GROUND_Y + 10.0, 70.0, 20.0, WaterDitch, 0, 0)
    else Obstacle(SPAWN_X, GROUND_Y - 100.0, 100.0, 100.0, Haystack, 0, 0)
  }

  function PowerUpKind(roll: real): PowerUpType
  {
    if roll > 0.7 then Fever else if roll > 0.4 then Magnet else Shield
  }

  /** The power-up that rides 100 units behind an obstacle of the given width. */
  function NewPowerUp(obstacleWidth: real, rolls: SpawnRolls): PowerUp
  {
    PowerUp(SPAWN_X + obstacleWidth + 100.0, GROUND_Y - 50.0 - rolls.itemY * 80.0, 30.0, 30.0,
            PowerUpKind(rolls.powerUpKind), rolls.wobble * PI)
  }

  /** The coin placed 50 to 150 units behind an obstacle of the given width. */
  function NewCoin(obstacleWidth: real, rolls: SpawnRolls): Coin
  {
    Coin(SPAWN_X + obstacleWidth + 50.0 + rolls.itemX * 100.0, GROUND_Y - 40.0 - rolls.itemY * 100.0,
         20.0, 20.0, rolls.wobble * PI * 2.0)
  }

  /** The spawner: maybe one obstacle, then maybe one power-up or one coin behind it. */
  function Spawn(w: World, speed: real, rolls: SpawnRolls): World
  {
    if CanSpawn(w.obstacles, speed) && rolls.gate < SPAWN_CHANCE then
      var o := NewObstacle(rolls.obstacleKind, rolls.birdLift);
      var w1 := w.(obstacles := w.obstacles + [o]);
      if rolls.item > 0.95 then w1.(powerUps := w1.powerUps + [NewPowerUp(o.width, rolls)])
      else if rolls.item > 0.5 then w1.(coins := w1.coins + [NewCoin(o.width, rolls)])
      else w1
    else w
  }

  // ---------------------------------------------------------------------------------------
  // Phase 7: the obstacle pass
  // ---------------------------------------------------------------------------------------

  /** How an obstacle contact is resolved, in the source's priority order. */
  datatype Hit =
    | Trample     // fever: the obstacle is destroyed, the runner untouched
    | Absorb      // shield: the shield is spent, the obstacle destroyed
    | Knockback   // the runner is pushed back; the obstacle stays
    | Shrug       // already invincible: nothing happens
    | Miss        // no contact
  {
    /** The outcomes that splice the obstacle out at once (the loop's `continue`). */
    predicate Destroys()
    {
      this == Trample || this == Absorb
    }
  }

  function ObstacleHit(p: Player, o: Obstacle): Hit
  {
    if !Collides(p.Box(), o.Box()) then Miss
    else if p.feverTimer > 0 then Trample
    else if p.hasShield then Absorb
    else if !p.invincible then Knockback
    else Shrug
  }

  /** Scroll an obstacle left and advance its animation. */
  function MoveObstacle(o: Obstacle, speed: real): Obstacle
  {
    var m := o.(x := o.x - speed);
    if m.animTimer + 1 >= ANIM_TICKS then m.(animTimer := 0, frame := (m.frame + 1) % ANIM_FRAMES)
    else m.(animTimer := m.animTimer + 1)
  }

  /** What the contact with the moved obstacle `m` does to the runner and the particles. */
  function Contact(w: World, m: Obstacle, spray: nat -> (real, real)): World
  {
    var p := w.player;
    match ObstacleHit(p, m)
    case Trample =>
      w.(particles := w.particles + Burst(m.x + m.width / 2.0, m.y + m.height / 2.0, 10, spray))
    case Absorb =>
      w.(player := p.(hasShield := false, invincibleTimer := SHIELD_GRACE, vy := HIT_VY),
         particles := w.particles + Burst(p.x, p.y, 15, spray))
    case Knockback =>
      var q := p.(x := p.x - KNOCKBACK_DX, vy := HIT_VY, invincibleTimer := KNOCKBACK_GRACE);
      var splash := if m.kind == WaterDitch then Burst(q.x + q.width / 2.0, q.y + q.height, 10, spray)
                    else Burst(q.x + q.width / 2.0, q.y + q.height / 2.0, 5, spray);
      w.(player := q, particles := w.particles + splash)
    case Shrug => w
    case Miss => w
  }

  /** The off-screen check: an obstacle whose right edge is left of the canvas is dropped. */
  function KeepObstacle(w: World, o: Obstacle): World
  {
    if o.x + o.width < 0.0 then w else w.(obstacles := [o] + w.obstacles)
  }

  /** One iteration of the obstacle loop, on the obstacle `o` taken from the unprocessed end. */
  function ObstacleStep(w: World, o: Obstacle, speed: real, spray: nat -> (real, real)): World
  {
    var m := MoveObstacle(o, speed);
    var c := Contact(w, m, spray);
    if ObstacleHit(w.player, m).Destroys() then c else KeepObstacle(c, m)
  }

  /** The obstacle loop over the unprocessed obstacles `todo`, last one first. */
  function ObstaclePass(w: World, todo: seq<Obstacle>, speed: real, spray: nat -> (real, real)): World
    decreases |todo|
  {
    if todo == [] then w
    else ObstaclePass(ObstacleStep(w, todo[|todo| - 1], speed, spray), todo[..|todo| - 1], speed, spray)
  }

  // ---------------------------------------------------------------------------------------
  // Phase 8: the coin pass
  // ---------------------------------------------------------------------------------------

  /**
   * A coin's movement: under the magnet a coin within 300 units of the runner's centre is
   * pulled towards it (the branch `dist < 300`, decided exactly on the squared distance),
   * one further away scrolls; without the magnet it scrolls and bobs.
   */
  function MoveCoin(c: Coin, p: Player, speed: real, frameCount: nat, host: Host): Coin
  {
    if p.magnetTimer > 0 then
      var dx := (p.x + p.width / 2.0) - (c.x + c.width / 2.0);
      var dy := (p.y + p.height / 2.0) - (c.y + c.height / 2.0);
      if dx * dx + dy * dy < MAGNET_RADIUS_SQUARED then
        var d := host.pull(dx, dy);
        c.(x := c.x + d.0, y := c.y + d.1)
      else c.(x := c.x - speed)
    else
      c.(x := c.x - speed, y := c.y + host.sine(frameCount as real * 0.1 + c.wobbleOffset) * 0.5)
  }

  /** What one coin is worth: double under fever. */
  function CoinValue(p: Player): nat
  {
    if p.feverTimer > 0 then 2 else 1
  }

  function CoinStep(w: World, c: Coin, speed: real, host: Host): World
  {
    var m := MoveCoin(c, w.player, speed, w.frameCount, host);
    if Collides(w.player.Box(), m.Box()) then
      w.(coinsCollected := w.coinsCollected + CoinValue(w.player),
         particles := w.particles + Burst(m.x, m.y, 5, host.spray))
    else if m.x + m.width < COLLECTIBLE_CULL_X then w
    else w.(coins := [m] + w.coins)
  }

  function CoinPass(w: World, todo: seq<Coin>, speed: real, host: Host): World
    decreases |todo|
  {
    if todo == [] then w
    else CoinPass(CoinStep(w, todo[|todo| - 1], speed, host), todo[..|todo| - 1], speed, host)
  }

  // ---------------------------------------------------------------------------------------
  // Phase 9: the power-up pass
  // ---------------------------------------------------------------------------------------

  function MovePowerUp(u: PowerUp, speed: real, frameCount: nat, host: Host): PowerUp
  {
    u.(x := u.x - speed, y := u.y + host.sine(frameCount as real * 0.1 + u.wobbleOffset) * 1.0)
  }

  /** The buff a power-up grants. */
  function Collect(p: Player, kind: PowerUpType): Player
  {
    match kind
    case Shield => p.(hasShield := true)
    case Magnet => p.(magnetTimer := MAGNET_TICKS)
    case Fever => p.(feverTimer := FEVER_TICKS)
  }

  function PickupSparks(kind: PowerUpType): nat
  {
    match kind
    case Shield => 20
    case Magnet => 20
    case Fever => 40
  }

  function PowerUpStep(w: World, u: PowerUp, speed: real, host: Host): World
  {
    var m := MovePowerUp(u, speed, w.frameCount, host);
    if Collides(w.player.Box(), m.Box()) then
      w.(player := Collect(w.player, m.kind),
         particles := w.particles + Burst(w.player.x, w.player.y, PickupSparks(m.kind), host.spray))
    else if m.x + m.width < COLLECTIBLE_CULL_X then w
    else w.(powerUps := [m] + w.powerUps)
  }

  function PowerUpPass(w: World, todo: seq<PowerUp>, speed: real, host: Host): World
    decreases |todo|
  {
    if todo == [] then w
    else PowerUpPass(PowerUpStep(w, todo[|todo| - 1], speed, host), todo[..|todo| - 1], speed, host)
  }

  // ---------------------------------------------------------------------------------------
  // Phase 11: background
  // ---------------------------------------------------------------------------------------

  /**
   * Floored division by the canvas width of a non-negative number: the remainder lies in
   * [0, CANVAS_WIDTH); the quotient is 0 below one width and 1 between one and two.
   */
  lemma WidthQuotient(b: real, q: int)
    requires 0.0 <= b && q == (b / CANVAS_WIDTH).Floor
    ensures 0.0 <= b - CANVAS_WIDTH * q as real < CANVAS_WIDTH
    ensures b < CANVAS_WIDTH ==> q == 0
    ensures CANVAS_WIDTH <= b < 2.0 * CANVAS_WIDTH ==> q == 1
  {
  }

  /** A whole number of canvas widths, divided by the width, is a whole number. */
  lemma WholeWidths(q: int, d: real)
    requires d == CANVAS_WIDTH * q as real
    ensures (d / CANVAS_WIDTH).Floor as real == d / CANVAS_WIDTH
  {
  }

  /**
   * JavaScript's `a % CANVAS_WIDTH` on numbers: the remainder of truncating division by the
   * canvas width, signed like `a`.
   */
  function WidthRemainder(a: real): (r: real)
    ensures 0.0 <= a ==> 0.0 <= r < CANVAS_WIDTH
    ensures a <= 0.0 ==> -CANVAS_WIDTH < r <= 0.0
    ensures 0.0 <= a < CANVAS_WIDTH ==> r == a
    ensures CANVAS_WIDTH <= a < 2.0 * CANVAS_WIDTH ==> r == a - CANVAS_WIDTH
    ensures ((a - r) / CANVAS_WIDTH).Floor as real == (a - r) / CANVAS_WIDTH
  {
    if a >= 0.0 then
      var q := (a / CANVAS_WIDTH).Floor;
      var d := CANVAS_WIDTH * q as real;
      WidthQuotient(a, q);
      WholeWidths(q, d);
      assert a - (a - d) == d;
      a - d
    else
      var q := ((-a) / CANVAS_WIDTH).Floor;
      var d := CANVAS_WIDTH * q as real;
      WidthQuotient(-a, q);
      WholeWidths(-q, -d);
      assert a - (d - (-a)) == -d;
      d - (-a)
  }

  function Scroll(w: World, speed: real): World
  {
    w.(bgOffset := WidthRemainder(w.bgOffset + speed * PARALLAX_FACTOR))
  }

  // ---------------------------------------------------------------------------------------
  // The whole step
  // ---------------------------------------------------------------------------------------

  /** The speed this tick runs at, as the buff phase computes it. */
  function TickSpeed(w: World): real
  {
    CurrentSpeed(Buffs(w.player), w.gameSpeed)
  }

  /** Phases 1-4: animation, buffs, speed, distance and score, runner physics. */
  function Motion(w: World): World
  {
    var w1 := Animate(w);
    var w2 := w1.(player := Buffs(w1.player));
    var w3 := Advance(w2, CurrentSpeed(w2.player, w2.gameSpeed));
    w3.(player := Physics(w3.player))
  }

  /** Phases 1-5: the runner's motion, then the dog. */
  function Lead(w: World, spray: nat -> (real, real)): World
  {
    DogCheck(Motion(w), spray)
  }

  /** Phases 7-10: the obstacle, coin, power-up and particle passes, in that order. */
  function Sweep(w: World, speed: real, host: Host): World
  {
    var w7 := ObstaclePass(w.(obstacles := []), w.obstacles, speed, host.spray);
    var w8 := CoinPass(w7.(coins := []), w7.coins, speed, host);
    var w9 := PowerUpPass(w8.(powerUps := []), w8.powerUps, speed, host);
    w9.(particles := ParticlePass([], w9.particles))
  }

  /** The PLAYING branch of `loop`, phase by phase. */
  function Tick(w: World, rolls: SpawnRolls, host: Host): World
  {
    var speed := TickSpeed(w);
    Scroll(Sweep(Spawn(Lead(w, host.spray), speed, rolls), speed, host), speed)
  }

  // ---------------------------------------------------------------------------------------
  // The invariant every reachable state keeps
  // ---------------------------------------------------------------------------------------

  predicate ValidPlayer(p: Player)
  {
    && p.width == PLAYER_SIZE && p.height == PLAYER_SIZE && p.targetX == PLAYER_DEFAULT_X
    && p.y + p.height <= GROUND_Y
    && p.jumpCount <= 2
    && (p.doubleJumpAvailable <==> p.jumpCount < 2)
    && (p.isGrounded ==> p.jumpCount == 0 && !p.isJumping)
    && p.invincibleTimer <= SHIELD_GRACE && p.magnetTimer <= MAGNET_TICKS && p.feverTimer <= FEVER_TICKS
    && p.animTimer < ANIM_TICKS && p.runFrame < ANIM_FRAMES && p.jumpFrame < ANIM_FRAMES
  }

  predicate ValidDog(d: Dog)
  {
    && d.x == DOG_X && d.y == GROUND_Y - DOG_SIZE && d.width == DOG_SIZE && d.height == DOG_SIZE
    && d.animTimer < ANIM_TICKS && d.frame < ANIM_FRAMES
  }

  predicate ValidObstacles(obstacles: seq<Obstacle>)
  {
    forall i :: 0 <= i < |obstacles| ==> obstacles[i].animTimer < ANIM_TICKS && obstacles[i].frame < ANIM_FRAMES
  }

  predicate ValidParticles(particles: seq<Particle>)
  {
    forall i :: 0 <= i < |particles| ==> 0.0 < particles[i].life <= 1.0
  }

  predicate Valid(w: World)
  {
    && ValidPlayer(w.player)
    && ValidDog(w.dog)
    && ValidObstacles(w.obstacles)
    && ValidParticles(w.particles)
    && INITIAL_SPEED <= w.gameSpeed < MAX_SPEED + SPEED_INCREMENT
    && 0.0 <= w.distance
    && 0 <= w.score
    && 0.0 <= w.bgOffset < CANVAS_WIDTH
  }
}
