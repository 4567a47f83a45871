/**
 * The entities of src/types.ts that the simulation step reads or writes, as values.
 * Fields the step never reads (an entity's vx and color, Obstacle.passed, Coin.collected,
 * Coin.beingAttracted, PowerUp.collected, Particle.maxLife) are not carried, and neither
 * are the random particle sizes, which only the drawing code reads.
 */
module Types {

  datatype GameState = Menu | Playing | GameOver

  datatype ObstacleType = WaterDitch | Haystack | ElectricPole | Tricycle | Buffalo | Bird

  datatype PowerUpType = Shield | Magnet | Fever

  datatype Rect = Rect(x: real, y: real, width: real, height: real)

  /** The runner (interface Player). */
  datatype Player = Player(
    x: real, y: real, width: real, height: real,
    vy: real,
    isJumping: bool, isGrounded: bool, doubleJumpAvailable: bool, jumpCount: nat,
    invincible: bool, invincibleTimer: nat,
    hasShield: bool, magnetTimer: nat, feverTimer: nat,
    targetX: real,
    runFrame: nat, jumpFrame: nat, animTimer: nat)
  {
    function Box(): Rect { Rect(x, y, width, height) }
  }

  /** The chaser (interface Dog). */
  datatype Dog = Dog(x: real, y: real, width: real, height: real, frame: nat, animTimer: nat)
  {
    function Box(): Rect { Rect(x, y, width, height) }
  }

  datatype Obstacle = Obstacle(
    x: real, y: real, width: real, height: real,
    kind: ObstacleType, frame: nat, animTimer: nat)
  {
    function Box(): Rect { Rect(x, y, width, height) }
  }

  datatype Coin = Coin(x: real, y: real, width: real, height: real, wobbleOffset: real)
  {
    function Box(): Rect { Rect(x, y, width, height) }
  }

  datatype PowerUp = PowerUp(
    x: real, y: real, width: real, height: real,
    kind: PowerUpType, wobbleOffset: real)
  {
    function Box(): Rect { Rect(x, y, width, height) }
  }

  datatype Particle = Particle(x: real, y: real, vx: real, vy: real, life: real)

  /** The snapshot pushed to the UI every tick (interface GameStats). */
  datatype GameStats = GameStats(score: int, coins: nat, distance: int)
}
