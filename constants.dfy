/**
 * Tuning constants of the runner game: the exported numbers of src/constants.ts and the
 * literal numbers the per-frame step in src/components/GameCanvas.tsx uses inline.
 * All coordinates are logical canvas units; y grows downwards.
 */
module Constants {

  // src/constants.ts
  const CANVAS_WIDTH: real := 800.0
  const GRAVITY: real := 0.6
  const JUMP_FORCE: real := -14.0
  const GROUND_Y: real := 380.0
  const PLAYER_SIZE: real := 80.0
  const PLAYER_DEFAULT_X: real := 150.0
  const DOG_X: real := 10.0
  const DOG_SIZE: real := 75.0
  const INITIAL_SPEED: real := 6.0
  const MAX_SPEED: real := 20.0
  const SPEED_INCREMENT: real := 0.001

  // Literals of the simulation step (src/components/GameCanvas.tsx)
  const HITBOX_BUFFER: real := 10.0          // checkCollision shrink margin
  const ANIM_TICKS: nat := 8                 // animation timers wrap here
  const ANIM_FRAMES: nat := 4                // sprite frames per animation
  const DOUBLE_JUMP_FACTOR: real := 0.8
  const FEVER_SPEED_FACTOR: real := 1.5
  const DISTANCE_FACTOR: real := 0.1
  const COIN_SCORE: real := 50.0
  const RECOVERY_STEP: real := 0.5
  const SPAWN_BASE_GAP: real := 250.0
  const SPAWN_GAP_PER_SPEED: real := 10.0
  const SPAWN_CHANCE: real := 0.03
  const SPAWN_X: real := 850.0               // CANVAS_WIDTH + 50
  const KNOCKBACK_DX: real := 60.0
  const HIT_VY: real := -5.0
  const SHIELD_GRACE: nat := 60
  const KNOCKBACK_GRACE: nat := 40
  const MAGNET_TICKS: nat := 600
  const FEVER_TICKS: nat := 300
  const MAGNET_RADIUS_SQUARED: real := 90000.0 // 300 * 300
  const COLLECTIBLE_CULL_X: real := -50.0
  const PARTICLE_DECAY: real := 0.05
  const PARTICLE_GRAVITY: real := 0.2
  const PARALLAX_FACTOR: real := 0.2
  const PI: real := 3.141592653589793        // Math.PI, only ever fed to the host's sine
}
