/**
 * The canvas component of src/components/GameCanvas.tsx as an object: its refs and the game
 * state it receives are fields, and resetGame, handleJump, createParticles and one frame of
 * `loop` are methods that update them in place, phase by phase and with the source's
 * reverse-index loops that splice out what they remove. Each method is proved to compute the
 * function of module Simulation that specifies it.
 */
module GameCanvas {
  import opened Types
  import opened Constants
  import opened Collision
  import opened Simulation
  import opened SimulationProofs

  datatype Option<T> = None | Some(value: T)

  /** What `splice(i, 1)` leaves before and after index i. */
  lemma Splice<T>(s: seq<T>, i: nat)
    requires i < |s|
    ensures (s[..i] + s[i + 1..])[..i] == s[..i]
    ensures (s[..i] + s[i + 1..])[i..] == s[i + 1..]
    ensures s[i..] == [s[i]] + s[i + 1..]
  {
  }

  class Game {
    var gameState: GameState
    var player: Player
    var dog: Dog
    var obstacles: seq<Obstacle>
    var coins: seq<Coin>
    var powerUps: seq<PowerUp>
    var particles: seq<Particle>
    var gameSpeed: real
    var score: int
    var distance: real
    var coinsCollected: nat
    var bgOffset: real
    var frameCount: nat

    /** The whole state as a value. */
    function Snapshot(): World
      reads this
    {
      World(gameState, player, dog, obstacles, coins, powerUps, particles,
            gameSpeed, score, distance, coinsCollected, bgOffset, frameCount)
    }

    ghost predicate Valid()
      reads this
    {
      Reachable(Snapshot())
    }

    /** The refs as the component creates them; the app starts in MENU. */
    constructor()
      ensures Snapshot() == InitialWorld
      ensures Valid()
    {
      gameState := Menu;
      player := InitialPlayer;
      dog := InitialDog;
      obstacles := [];
      coins := [];
      powerUps := [];
      particles := [];
      gameSpeed := INITIAL_SPEED;
      score := 0;
      distance := 0.0;
      coinsCollected := 0;
      bgOffset := 0.0;
      frameCount := 0;
      InitialWorldIsReset();
    }

    /** resetGame. */
    method ResetGame()
      modifies this`player, this`dog, this`obstacles, this`coins, this`powerUps, this`particles,
               this`gameSpeed, this`score, this`distance, this`coinsCollected, this`bgOffset, this`frameCount
      ensures Snapshot() == Reset(old(Snapshot()))
    {
      ResetRunners();
      ResetEntities();
      ResetCounters();
    }

    /** The runner back to its start; the dog back to its column. */
    method ResetRunners()
      modifies this`player, this`dog
      ensures player == InitialPlayer && dog == old(dog).(x := DOG_X)
    {
      player := InitialPlayer;
      dog := dog.(x := DOG_X);
    }

    /** The obstacle, coin, power-up and particle lists emptied. */
    method ResetEntities()
      modifies this`obstacles, this`coins, this`powerUps, this`particles
      ensures obstacles == [] && coins == [] && powerUps == [] && particles == []
    {
      obstacles := [];
      coins := [];
      powerUps := [];
      particles := [];
    }

    /** Speed, score, distance, coin count, background offset and frame counter back to zero. */
    method ResetCounters()
      modifies this`gameSpeed, this`score, this`distance, this`coinsCollected, this`bgOffset, this`frameCount
      ensures gameSpeed == INITIAL_SPEED && score == 0 && distance == 0.0
      ensures coinsCollected == 0 && bgOffset == 0.0 && frameCount == 0
    {
      gameSpeed := INITIAL_SPEED;
      score := 0;
      distance := 0.0;
      coinsCollected := 0;
      bgOffset := 0.0;
      frameCount := 0;
    }

    /**
     * The app's startGame and the component's reset effect: the state becomes PLAYING and,
     * if that is a change, the effect resets the run.
     */
    method StartGame()
      modifies this
      ensures Snapshot() == Start(old(Snapshot()))
      ensures old(Valid()) ==> Valid()
    {
      ghost var w := Snapshot();
      if Reachable(w) {
        ResetIsValid(w.(gameState := Playing));
      }
      if gameState != Playing {
        gameState := Playing;
        ResetGame();
      }
    }

    /** createParticles(x, y, color, count): push `count` fresh particles. */
    method CreateParticles(x: real, y: real, count: nat, spray: nat -> (real, real))
      modifies this`particles
      ensures particles == old(particles) + Burst(x, y, count, spray)
    {
      for i := 0 to count
        invariant particles == old(particles) + Burst(x, y, i, spray)
      {
        var roll := spray(i);
        particles := particles + [Particle(x, y, (roll.0 - 0.5) * 5.0, (roll.1 - 0.5) * 5.0, 1.0)];
      }
    }

    /** handleJump. */
    method HandleJump(spray: nat -> (real, real))
      modifies this
      ensures Snapshot() == Jump(old(Snapshot()), spray)
      ensures old(Valid()) ==> Valid()
    {
      ghost var w := Snapshot();
      if Reachable(w) {
        JumpKeepsValid(w, spray);
      }
      if gameState != Playing {
        return;
      }
      if player.isGrounded {
        player := player.(vy := JUMP_FORCE, isGrounded := false, isJumping := true, jumpCount := 1);
        CreateParticles(player.x + player.width / 2.0, player.y + player.height, 5, spray);
      } else if player.doubleJumpAvailable && player.jumpCount < 2 {
        player := player.(vy := JUMP_FORCE * DOUBLE_JUMP_FACTOR, jumpCount := 2, doubleJumpAvailable := false);
        CreateParticles(player.x + player.width / 2.0, player.y + player.height, 3, spray);
      }
    }

    // -------------------------------------------------------------------------------------
    // One frame of `loop`
    // -------------------------------------------------------------------------------------

    /**
     * One animation frame. Outside PLAYING nothing is simulated. While PLAYING the step runs
     * phase by phase; it reports the stats handed to updateStats, and whether the dog caught
     * the runner (the frame that calls onGameOver and switches to GAME_OVER).
     */
    method Loop(rolls: SpawnRolls, host: Host) returns (update: Option<GameStats>, caught: bool)
      requires Valid()
      modifies this
      ensures Snapshot() == Frame(old(Snapshot()), rolls, host)
      ensures Valid()
      ensures old(gameState) != Playing ==> update == None && !caught
      ensures old(gameState) == Playing ==>
        && update == Some(Stats(Lead(old(Snapshot()), host.spray)))
        && (caught <==> Collides(Physics(Buffs(AnimatePlayer(old(player)))).Box(), AnimateDog(old(dog)).Box()))
    {
      update, caught := None, false;
      if gameState != Playing {
        return;
      }
      ghost var w := Snapshot();
      FrameKeepsValid(w, rolls, host);
      var currentSpeed, stats;
      currentSpeed, stats, caught := RunnerPhases(host.spray);
      update := Some(stats);
      Spawning(currentSpeed, rolls);
      WorldPhases(currentSpeed, host);
      bgOffset := WidthRemainder(bgOffset + currentSpeed * PARALLAX_FACTOR);
    }

    /**
     * The first half of the step: animation, buffs and speed, distance and score, runner
     * physics and the dog. Returns the tick's speed, the stats and whether the dog caught up.
     */
    method RunnerPhases(spray: nat -> (real, real)) returns (currentSpeed: real, stats: GameStats, caught: bool)
      modifies this
      ensures Snapshot() == Lead(old(Snapshot()), spray)
      ensures currentSpeed == TickSpeed(old(Snapshot()))
      ensures stats == Stats(Snapshot())
      ensures caught <==> Collides(Physics(Buffs(AnimatePlayer(old(player)))).Box(), AnimateDog(old(dog)).Box())
    {
      AnimationTicks();
      currentSpeed := BuffTimers();
      stats := UpdateDistanceAndScore(currentSpeed);
      PlayerPhysics();
      caught := DogKill(spray);
    }

    /** The four list passes: obstacles, coins, power-ups, particles. */
    method WorldPhases(currentSpeed: real, host: Host)
      modifies this
      ensures Snapshot() == Sweep(old(Snapshot()), currentSpeed, host)
    {
      UpdateObstacles(currentSpeed, host.spray);
      UpdateCoins(currentSpeed, host);
      UpdatePowerUps(currentSpeed, host);
      UpdateParticles();
    }

    /** Frame counter, then the runner's and the dog's animation timers. */
    method AnimationTicks()
      modifies this`frameCount, this`player, this`dog
      ensures Snapshot() == Animate(old(Snapshot()))
    {
      frameCount := frameCount + 1;
      player := player.(animTimer := player.animTimer + 1);
      if player.animTimer >= ANIM_TICKS {
        player := player.(animTimer := 0);
        if player.isGrounded {
          player := player.(runFrame := (player.runFrame + 1) % ANIM_FRAMES);
        } else {
          player := player.(jumpFrame := (player.jumpFrame + 1) % ANIM_FRAMES);
        }
      }
      assert player == AnimatePlayer(old(player));
      dog := dog.(animTimer := dog.animTimer + 1);
      if dog.animTimer >= ANIM_TICKS {
        dog := dog.(animTimer := 0, frame := (dog.frame + 1) % ANIM_FRAMES);
      }
    }

    /** The buff timers and the speed of this tick. */
    method BuffTimers() returns (currentSpeed: real)
      modifies this`player
      ensures player == Buffs(old(player))
      ensures currentSpeed == CurrentSpeed(player, gameSpeed)
    {
      CountDownTimers();
      currentSpeed := gameSpeed;
      if player.feverTimer > 0 {
        currentSpeed := currentSpeed * FEVER_SPEED_FACTOR;
        player := player.(invincible := true);
      } else {
        player := player.(invincible := player.invincibleTimer > 0);
      }
    }

    /** Each buff timer drops by one while positive. */
    method CountDownTimers()
      modifies this`player
      ensures player == old(player).(feverTimer := Countdown(old(player).feverTimer),
        magnetTimer := Countdown(old(player).magnetTimer), invincibleTimer := Countdown(old(player).invincibleTimer))
    {
      if player.feverTimer > 0 { player := player.(feverTimer := player.feverTimer - 1); }
      if player.magnetTimer > 0 { player := player.(magnetTimer := player.magnetTimer - 1); }
      if player.invincibleTimer > 0 { player := player.(invincibleTimer := player.invincibleTimer - 1); }
    }

    /** Speed ramp, distance and score; returns what is handed to updateStats. */
    method UpdateDistanceAndScore(currentSpeed: real) returns (stats: GameStats)
      modifies this`gameSpeed, this`distance, this`score
      ensures Snapshot() == Advance(old(Snapshot()), currentSpeed)
      ensures stats == Stats(Snapshot())
    {
      if gameSpeed < MAX_SPEED {
        gameSpeed := gameSpeed + SPEED_INCREMENT;
      }
      distance := distance + currentSpeed * DISTANCE_FACTOR;
      score := (distance + coinsCollected as real * COIN_SCORE).Floor;
      stats := GameStats(score, coinsCollected, distance.Floor);
    }

    /** Gravity, recovery and ground collision. */
    method PlayerPhysics()
      modifies this`player
      ensures player == Physics(old(player))
    {
      player := player.(vy := player.vy + GRAVITY);
      player := player.(y := player.y + player.vy);
      if player.x < player.targetX {
        player := player.(x := player.x + RECOVERY_STEP);
      } else if player.x > player.targetX {
        player := player.(x := player.x - RECOVERY_STEP);
      }
      if player.y + player.height >= GROUND_Y {
        player := player.(y := GROUND_Y - player.height, vy := 0.0, isGrounded := true, isJumping := false,
                          doubleJumpAvailable := true, jumpCount := 0);
      } else {
        player := player.(isGrounded := false);
      }
    }

    /** The dog kill condition. */
    method DogKill(spray: nat -> (real, real)) returns (caught: bool)
      modifies this`gameState, this`particles
      ensures Snapshot() == DogCheck(old(Snapshot()), spray)
      ensures caught <==> Collides(old(player).Box(), old(dog).Box())
    {
      caught := Collides(player.Box(), dog.Box());
      if caught {
        gameState := GameOver;
        CreateParticles(player.x, player.y, 30, spray);
      }
    }

    /** The spawner. */
    method Spawning(currentSpeed: real, rolls: SpawnRolls)
      modifies this`obstacles, this`coins, this`powerUps
      ensures Snapshot() == Spawn(old(Snapshot()), currentSpeed, rolls)
    {
      var minSpawnDist := SPAWN_BASE_GAP + currentSpeed * SPAWN_GAP_PER_SPEED;
      var canSpawn := obstacles == [] || CANVAS_WIDTH - obstacles[|obstacles| - 1].x > minSpawnDist;
      if canSpawn && rolls.gate < SPAWN_CHANCE {
        var o := NewObstacle(rolls.obstacleKind, rolls.birdLift);
        obstacles := obstacles + [o];
        if rolls.item > 0.95 {
          powerUps := powerUps + [NewPowerUp(o.width, rolls)];
        } else if rolls.item > 0.5 {
          coins := coins + [NewCoin(o.width, rolls)];
        }
      }
    }

    // -------------------------------------------------------------------------------------
    // The four reverse-index loops
    // -------------------------------------------------------------------------------------

    /**
     * The obstacle loop: index i runs from the last obstacle down to the first. Above i sit
     * the obstacles already processed, which the specification's accumulator holds.
     */
    method UpdateObstacles(currentSpeed: real, spray: nat -> (real, real))
      modifies this`obstacles, this`player, this`particles
      ensures Snapshot() == ObstaclePass(old(Snapshot()).(obstacles := []), old(obstacles), currentSpeed, spray)
    {
      ghost var todo := obstacles;
      ghost var goal := ObstaclePass(Snapshot().(obstacles := []), todo, currentSpeed, spray);
      var i: int := |obstacles| - 1;
      assert obstacles[i + 1..] == [] && todo[..i + 1] == todo;
      while i >= 0
        invariant -1 <= i < |obstacles|
        invariant obstacles[..i + 1] == todo[..i + 1]
        invariant ObstaclePass(Snapshot().(obstacles := obstacles[i + 1..]), todo[..i + 1], currentSpeed, spray) == goal
      {
        assert todo[..i + 1][..i] == todo[..i];
        assert obstacles[i] == todo[i];
        UpdateObstacle(i, currentSpeed, spray);
        i := i - 1;
      }
      assert obstacles[0..] == obstacles;
    }

    /** The body of the obstacle loop at index i; `return` stands for the source's `continue`. */
    method UpdateObstacle(i: nat, currentSpeed: real, spray: nat -> (real, real))
      requires i < |obstacles|
      modifies this`obstacles, this`player, this`particles
      ensures i <= |obstacles| && obstacles[..i] == old(obstacles[..i])
      ensures Snapshot().(obstacles := obstacles[i..]) ==
        ObstacleStep(old(Snapshot()).(obstacles := old(obstacles[i + 1..])), old(obstacles[i]), currentSpeed, spray)
    {
      var obs := ScrollObstacle(obstacles[i], currentSpeed);
      ghost var w := old(Snapshot()).(obstacles := old(obstacles[i + 1..]));
      ghost var c := Contact(w, obs, spray);
      ContactTouchesRunner(w, obs, spray);
      obstacles := obstacles[i := obs];
      Splice(obstacles, i);
      var destroyed := HitObstacle(obs, spray);
      assert Snapshot().(obstacles := obstacles[i + 1..]) == c;
      if destroyed {
        obstacles := obstacles[..i] + obstacles[i + 1..];
        return;
      }
      if obs.x + obs.width < 0.0 {
        obstacles := obstacles[..i] + obstacles[i + 1..];
      }
    }

    /** The obstacle scrolls left by the tick's speed and steps its animation. */
    static method ScrollObstacle(o: Obstacle, currentSpeed: real) returns (obs: Obstacle)
      ensures obs == MoveObstacle(o, currentSpeed)
    {
      obs := o;
      obs := obs.(x := obs.x - currentSpeed);
      obs := obs.(animTimer := obs.animTimer + 1);
      if obs.animTimer >= ANIM_TICKS {
        obs := obs.(animTimer := 0, frame := (obs.frame + 1) % ANIM_FRAMES);
      }
    }

    /**
     * The collision branch of the obstacle loop's body; `destroyed` says that the body
     * splices the obstacle out and continues.
     */
    method HitObstacle(obs: Obstacle, spray: nat -> (real, real)) returns (destroyed: bool)
      modifies this`player, this`particles
      ensures var c := Contact(old(Snapshot()), obs, spray); player == c.player && particles == c.particles
      ensures destroyed <==> ObstacleHit(old(player), obs).Destroys()
    {
      destroyed := false;
      if Collides(player.Box(), obs.Box()) {
        if player.feverTimer > 0 {
          CreateParticles(obs.x + obs.width / 2.0, obs.y + obs.height / 2.0, 10, spray);
          destroyed := true;
        } else if player.hasShield {
          player := player.(hasShield := false, invincibleTimer := SHIELD_GRACE);
          CreateParticles(player.x, player.y, 15, spray);
          player := player.(vy := HIT_VY);
          destroyed := true;
        } else if !player.invincible {
          player := player.(x := player.x - KNOCKBACK_DX, vy := HIT_VY, invincibleTimer := KNOCKBACK_GRACE);
          if obs.kind == WaterDitch {
            CreateParticles(player.x + player.width / 2.0, player.y + player.height, 10, spray);
          } else {
            CreateParticles(player.x + player.width / 2.0, player.y + player.height / 2.0, 5, spray);
          }
        }
      }
    }

    /** The coin loop, last coin first. */
    method UpdateCoins(currentSpeed: real, host: Host)
      modifies this`coins, this`coinsCollected, this`particles
      ensures Snapshot() == CoinPass(old(Snapshot()).(coins := []), old(coins), currentSpeed, host)
    {
      ghost var todo := coins;
      ghost var goal := CoinPass(Snapshot().(coins := []), todo, currentSpeed, host);
      var i: int := |coins| - 1;
      assert coins[i + 1..] == [] && todo[..i + 1] == todo;
      while i >= 0
        invariant -1 <= i < |coins|
        invariant coins[..i + 1] == todo[..i + 1]
        invariant CoinPass(Snapshot().(coins := coins[i + 1..]), todo[..i + 1], currentSpeed, host) == goal
      {
        assert todo[..i + 1][..i] == todo[..i];
        assert coins[i] == todo[i];
        UpdateCoin(i, currentSpeed, host);
        i := i - 1;
      }
      assert coins[0..] == coins;
    }

    /** The body of the coin loop at index i. */
    method UpdateCoin(i: nat, currentSpeed: real, host: Host)
      requires i < |coins|
      modifies this`coins, this`coinsCollected, this`particles
      ensures i <= |coins| && coins[..i] == old(coins[..i])
      ensures Snapshot().(coins := coins[i..]) ==
        CoinStep(old(Snapshot()).(coins := old(coins[i + 1..])), old(coins[i]), currentSpeed, host)
    {
      var coin := coins[i];
      if player.magnetTimer > 0 {
        var dx := (player.x + player.width / 2.0) - (coin.x + coin.width / 2.0);
        var dy := (player.y + player.height / 2.0) - (coin.y + coin.height / 2.0);
        if dx * dx + dy * dy < MAGNET_RADIUS_SQUARED {
          var pull := host.pull(dx, dy);
          coin := coin.(x := coin.x + pull.0);
          coin := coin.(y := coin.y + pull.1);
        } else {
          coin := coin.(x := coin.x - currentSpeed);
        }
      } else {
        coin := coin.(x := coin.x - currentSpeed);
        coin := coin.(y := coin.y + host.sine(frameCount as real * 0.1 + coin.wobbleOffset) * 0.5);
      }
      assert coin == MoveCoin(old(coins[i]), player, currentSpeed, frameCount, host);
      coins := coins[i := coin];
      assert coins[..i] == old(coins[..i]) && coins[i + 1..] == old(coins[i + 1..]);
      if Collides(player.Box(), coin.Box()) {
        coinsCollected := coinsCollected + (if player.feverTimer > 0 then 2 else 1);
        CreateParticles(coin.x, coin.y, 5, host.spray);
        coins := coins[..i] + coins[i + 1..];
      } else if coin.x + coin.width < COLLECTIBLE_CULL_X {
        coins := coins[..i] + coins[i + 1..];
      }
    }

    /** The power-up loop, last power-up first. */
    method UpdatePowerUps(currentSpeed: real, host: Host)
      modifies this`powerUps, this`player, this`particles
      ensures Snapshot() == PowerUpPass(old(Snapshot()).(powerUps := []), old(powerUps), currentSpeed, host)
    {
      ghost var todo := powerUps;
      ghost var goal := PowerUpPass(Snapshot().(powerUps := []), todo, currentSpeed, host);
      var i: int := |powerUps| - 1;
      assert powerUps[i + 1..] == [] && todo[..i + 1] == todo;
      while i >= 0
        invariant -1 <= i < |powerUps|
        invariant powerUps[..i + 1] == todo[..i + 1]
        invariant PowerUpPass(Snapshot().(powerUps := powerUps[i + 1..]), todo[..i + 1], currentSpeed, host) == goal
      {
        assert todo[..i + 1][..i] == todo[..i];
        assert powerUps[i] == todo[i];
        UpdatePowerUp(i, currentSpeed, host);
        i := i - 1;
      }
      assert powerUps[0..] == powerUps;
    }

    /** The body of the power-up loop at index i. */
    method UpdatePowerUp(i: nat, currentSpeed: real, host: Host)
      requires i < |powerUps|
      modifies this`powerUps, this`player, this`particles
      ensures i <= |powerUps| && powerUps[..i] == old(powerUps[..i])
      ensures Snapshot().(powerUps := powerUps[i..]) ==
        PowerUpStep(old(Snapshot()).(powerUps := old(powerUps[i + 1..])), old(powerUps[i]), currentSpeed, host)
    {
      var pu := powerUps[i];
      pu := pu.(x := pu.x - currentSpeed);
      pu := pu.(y := pu.y + host.sine(frameCount as real * 0.1 + pu.wobbleOffset) * 1.0);
      assert pu == MovePowerUp(old(powerUps[i]), currentSpeed, frameCount, host);
      powerUps := powerUps[i := pu];
      assert powerUps[..i] == old(powerUps[..i]) && powerUps[i + 1..] == old(powerUps[i + 1..]);
      if Collides(player.Box(), pu.Box()) {
        CollectPowerUp(pu.kind, host.spray);
        powerUps := powerUps[..i] + powerUps[i + 1..];
      } else if pu.x + pu.width < COLLECTIBLE_CULL_X {
        powerUps := powerUps[..i] + powerUps[i + 1..];
      }
    }

    /** The pickup branch of the power-up loop's body. */
    method CollectPowerUp(kind: PowerUpType, spray: nat -> (real, real))
      modifies this`player, this`particles
      ensures player == Collect(old(player), kind)
      ensures particles == old(particles) + Burst(old(player).x, old(player).y, PickupSparks(kind), spray)
    {
      if kind == Shield {
        player := player.(hasShield := true);
        CreateParticles(player.x, player.y, 20, spray);
      } else if kind == Magnet {
        player := player.(magnetTimer := MAGNET_TICKS);
        CreateParticles(player.x, player.y, 20, spray);
      } else if kind == Fever {
        player := player.(feverTimer := FEVER_TICKS);
        CreateParticles(player.x, player.y, 40, spray);
      }
    }

    /** The particle loop, last particle first. */
    method UpdateParticles()
      modifies this`particles
      ensures particles == ParticlePass([], old(particles))
    {
      ghost var todo := particles;
      var i: int := |particles| - 1;
      assert particles[i + 1..] == [] && todo[..i + 1] == todo;
      while i >= 0
        invariant -1 <= i < |particles|
        invariant particles[..i + 1] == todo[..i + 1]
        invariant ParticlePass(particles[i + 1..], todo[..i + 1]) == ParticlePass([], todo)
      {
        ghost var rest := particles[i + 1..];
        var part := particles[i];
        assert part == todo[..i + 1][i];
        part := part.(x := part.x + part.vx);
        part := part.(y := part.y + part.vy);
        part := part.(life := part.life - PARTICLE_DECAY);
        part := part.(vy := part.vy + PARTICLE_GRAVITY);
        assert part == Fade(todo[..i + 1][i]);
        assert todo[..i + 1][..i] == todo[..i];
        assert ParticlePass(rest, todo[..i + 1])
            == ParticlePass(if part.life <= 0.0 then rest else [part] + rest, todo[..i]);
        particles := particles[i := part];
        assert particles[..i] == todo[..i] && particles[i + 1..] == rest;
        if part.life <= 0.0 {
          particles := particles[..i] + particles[i + 1..];
          assert particles[i..] == rest;
        } else {
          assert particles[i..] == [part] + rest;
        }
        i := i - 1;
      }
      assert particles[0..] == particles;
    }
  }
}
