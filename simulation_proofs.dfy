/**
 * Properties of the simulation step of src/components/GameCanvas.tsx, proved about the
 * functions of module Simulation.
 */
module SimulationProofs {
  import opened Types
  import opened Constants
  import opened Collision
  import opened Simulation

  // ---------------------------------------------------------------------------------------
  // Particles
  // ---------------------------------------------------------------------------------------

  /** createParticles appends exactly `count` particles, the k-th from the k-th velocity draw. */
  lemma {:induction false} BurstShape(x: real, y: real, count: nat, spray: nat -> (real, real))
    ensures |Burst(x, y, count, spray)| == count
    ensures forall k :: 0 <= k < count ==> Burst(x, y, count, spray)[k] == Spark(x, y, spray(k))
  {
    if count > 0 {
      BurstShape(x, y, count - 1, spray);
    }
  }

  /** Every particle of a burst starts at full life, so appending a burst keeps lives in (0, 1]. */
  lemma BurstKeepsParticlesValid(ps: seq<Particle>, x: real, y: real, count: nat, spray: nat -> (real, real))
    requires ValidParticles(ps)
    ensures ValidParticles(ps + Burst(x, y, count, spray))
    ensures |ps + Burst(x, y, count, spray)| == |ps| + count
  {
    BurstShape(x, y, count, spray);
  }

  /** The particle pass keeps lives in (0, 1] and never adds a particle. */
  lemma {:induction false} ParticlePassKeepsValid(done: seq<Particle>, todo: seq<Particle>)
    requires ValidParticles(done) && ValidParticles(todo)
    ensures ValidParticles(ParticlePass(done, todo))
    ensures |ParticlePass(done, todo)| <= |done| + |todo|
    decreases |todo|
  {
    if todo != [] {
      var q := Fade(todo[|todo| - 1]);
      var done' := if q.life <= 0.0 then done else [q] + done;
      assert ValidParticles(todo[..|todo| - 1]);
      ParticlePassKeepsValid(done', todo[..|todo| - 1]);
    }
  }

  /** The updated particles of `todo` whose life stays positive, in their original order. */
  function Survivors(todo: seq<Particle>): seq<Particle>
  {
    if todo == [] then []
    else
      var q := Fade(todo[|todo| - 1]);
      Survivors(todo[..|todo| - 1]) + (if q.life <= 0.0 then [] else [q])
  }

  /**
   * The whole particle pass: walking the list from its end and splicing out the dead leaves
   * exactly the survivors, in order, in front of the particles already processed.
   */
  lemma {:induction false} ParticlePassIsSurvivors(done: seq<Particle>, todo: seq<Particle>)
    ensures ParticlePass(done, todo) == Survivors(todo) + done
    decreases |todo|
  {
    if todo != [] {
      var q := Fade(todo[|todo| - 1]);
      var keep := if q.life <= 0.0 then [] else [q];
      assert keep + done == (if q.life <= 0.0 then done else [q] + done);
      assert ParticlePass(done, todo) == ParticlePass(keep + done, todo[..|todo| - 1]);
      assert Survivors(todo) == Survivors(todo[..|todo| - 1]) + keep;
      ParticlePassIsSurvivors(keep + done, todo[..|todo| - 1]);
      assert Survivors(todo[..|todo| - 1]) + (keep + done) == (Survivors(todo[..|todo| - 1]) + keep) + done;
    }
  }

  /**
   * A particle is left after the pass iff it is the update of some particle of the list and
   * its life is still positive.
   */
  lemma {:induction false} SurvivorsMembers(todo: seq<Particle>)
    ensures forall q :: q in Survivors(todo) ==>
      q.life > 0.0 && exists i :: 0 <= i < |todo| && q == Fade(todo[i])
    ensures forall i :: 0 <= i < |todo| && Fade(todo[i]).life > 0.0 ==> Fade(todo[i]) in Survivors(todo)
    decreases |todo|
  {
    if todo != [] {
      var init := todo[..|todo| - 1];
      SurvivorsMembers(init);
      forall q | q in Survivors(todo)
        ensures q.life > 0.0 && exists i :: 0 <= i < |todo| && q == Fade(todo[i])
      {
        if q in Survivors(init) {
          var i :| 0 <= i < |init| && q == Fade(init[i]);
          assert todo[i] == init[i];
        } else {
          assert q == Fade(todo[|todo| - 1]);
        }
      }
      forall i | 0 <= i < |todo| && Fade(todo[i]).life > 0.0
        ensures Fade(todo[i]) in Survivors(todo)
      {
        if i < |init| {
          assert todo[i] == init[i];
        }
      }
    }
  }

  /** A particle updated k times. */
  function Aged(p: Particle, k: nat): Particle
  {
    if k == 0 then p else Fade(Aged(p, k - 1))
  }

  /** k consecutive particle passes over a list. */
  function Passes(ps: seq<Particle>, k: nat): seq<Particle>
  {
    if k == 0 then ps else ParticlePass([], Passes(ps, k - 1))
  }

  /**
   * A fresh particle (life 1.0) survives its first 19 updates and is removed by the 20th;
   * while alive it is the one particle left of a burst of one.
   */
  lemma {:induction false} ParticleLifetime(p: Particle, k: nat)
    requires p.life == 1.0 && k <= 20
    ensures k < 20 ==> Passes([p], k) == [Aged(p, k)] && Aged(p, k).life == 1.0 - k as real * PARTICLE_DECAY
    ensures k == 20 ==> Passes([p], k) == []
  {
    if k > 0 {
      ParticleLifetime(p, k - 1);
      var q := Fade(Aged(p, k - 1));
      assert ParticlePass([], [Aged(p, k - 1)]) == if q.life <= 0.0 then [] else [q];
    }
  }

  // ---------------------------------------------------------------------------------------
  // Reset, start and the state machine
  // ---------------------------------------------------------------------------------------

  /** resetGame twice is resetGame once. */
  lemma ResetIsIdempotent(w: World)
    ensures Reset(Reset(w)) == Reset(w)
  {
  }

  /**
   * The world the component starts with is already reset (so the reset effect on mount in
   * MENU changes nothing) and keeps the invariant.
   */
  lemma InitialWorldIsReset()
    ensures Reset(InitialWorld) == InitialWorld
    ensures Valid(InitialWorld)
  {
  }

  /**
   * After a reset the runner stands on the ground in its lane, clear of the dog, and the
   * whole state keeps the invariant.
   */
  lemma ResetIsValid(w: World)
    requires ValidDog(w.dog)
    ensures Valid(Reset(w))
    ensures Reset(w).player.isGrounded && Reset(w).player.y + Reset(w).player.height == GROUND_Y
    ensures !Collides(Reset(w).player.Box(), Reset(w).dog.Box())
  {
  }

  /**
   * startGame from MENU or GAME_OVER enters PLAYING with every run counter back at its
   * initial value and all lists empty; from PLAYING it changes nothing.
   */
  lemma StartRestartsRun(w: World)
    ensures w.gameState == Playing ==> Start(w) == w
    ensures w.gameState != Playing ==>
      var s := Start(w);
      && s.gameState == Playing
      && s.distance == 0.0 && s.coinsCollected == 0 && s.score == 0 && s.gameSpeed == INITIAL_SPEED
      && s.obstacles == [] && s.coins == [] && s.powerUps == [] && s.particles == []
      && s.player == InitialPlayer && s.dog == w.dog.(x := DOG_X)
  {
  }

  /** Outside PLAYING a frame runs no simulation at all: GAME_OVER freezes the world. */
  lemma FrameOnlyWhilePlaying(w: World, rolls: SpawnRolls, host: Host)
    ensures w.gameState != Playing ==> Frame(w, rolls, host) == w
    ensures w.gameState == Playing ==> Frame(w, rolls, host) == Tick(w, rolls, host)
  {
  }

  // ---------------------------------------------------------------------------------------
  // Jumping
  // ---------------------------------------------------------------------------------------

  /** handleJump does nothing outside PLAYING. */
  lemma JumpOnlyWhilePlaying(w: World, spray: nat -> (real, real))
    requires w.gameState != Playing
    ensures Jump(w, spray) == w
  {
  }

  /**
   * From the ground: the first request jumps at full force, the second makes the double jump
   * at 0.8 of it, and a third before landing changes nothing. Only the runner and the
   * particles change.
   */
  lemma JumpSequence(w: World, spray: nat -> (real, real))
    requires w.gameState == Playing && w.player.isGrounded
    ensures var w1 := Jump(w, spray);
      && w1.player == w.player.(vy := JUMP_FORCE, isGrounded := false, isJumping := true, jumpCount := 1)
      && |w1.particles| == |w.particles| + 5
      && w1 == w.(player := w1.player, particles := w1.particles)
    ensures var w1 := Jump(w, spray); var w2 := Jump(w1, spray);
      w.player.doubleJumpAvailable ==>
        && w2.player == w1.player.(vy := JUMP_FORCE * DOUBLE_JUMP_FACTOR, jumpCount := 2, doubleJumpAvailable := false)
        && |w2.particles| == |w1.particles| + 3
        && w2 == w1.(player := w2.player, particles := w2.particles)
        && Jump(w2, spray) == w2
  {
    BurstShape(w.player.x + w.player.width / 2.0, w.player.y + w.player.height, 5, spray);
    BurstShape(w.player.x + w.player.width / 2.0, w.player.y + w.player.height, 3, spray);
  }

  /** A jump request keeps the invariant. */
  lemma JumpKeepsValid(w: World, spray: nat -> (real, real))
    requires Valid(w)
    ensures Valid(Jump(w, spray))
  {
    var p := w.player;
    BurstKeepsParticlesValid(w.particles, p.x + p.width / 2.0, p.y + p.height, 5, spray);
    BurstKeepsParticlesValid(w.particles, p.x + p.width / 2.0, p.y + p.height, 3, spray);
  }

  // ---------------------------------------------------------------------------------------
  // Buffs, speed, distance and score
  // ---------------------------------------------------------------------------------------

  /**
   * Each buff timer drops by exactly one while positive and stays at zero otherwise; the
   * runner counts as invincible for the tick iff fever or the grace timer is still running.
   */
  lemma BuffsCountDown(p: Player)
    ensures var q := Buffs(p);
      && (p.feverTimer > 0 ==> q.feverTimer == p.feverTimer - 1) && (p.feverTimer == 0 ==> q.feverTimer == 0)
      && (p.magnetTimer > 0 ==> q.magnetTimer == p.magnetTimer - 1) && (p.magnetTimer == 0 ==> q.magnetTimer == 0)
      && (p.invincibleTimer > 0 ==> q.invincibleTimer == p.invincibleTimer - 1)
      && (p.invincibleTimer == 0 ==> q.invincibleTimer == 0)
      && (q.invincible <==> p.feverTimer > 1 || p.invincibleTimer > 1)
  {
  }

  /** The tick runs 1.5 times faster exactly when fever is still on after its decrement. */
  lemma FeverSpeed(p: Player, gameSpeed: real)
    requires gameSpeed > 0.0
    ensures CurrentSpeed(Buffs(p), gameSpeed) == gameSpeed * FEVER_SPEED_FACTOR <==> p.feverTimer > 1
    ensures CurrentSpeed(Buffs(p), gameSpeed) == gameSpeed <==> p.feverTimer <= 1
  {
  }

  // ---------------------------------------------------------------------------------------
  // Runner physics
  // ---------------------------------------------------------------------------------------

  /** The runner's lane offset is a whole number of recovery steps (knockback is 120 of them). */
  predicate OnLaneGrid(p: Player)
  {
    var d := (p.targetX - p.x) * 2.0;
    0.0 <= d && d.Floor as real == d
  }

  lemma WholeShift(d: real, k: int)
    requires d.Floor as real == d
    ensures (d + k as real).Floor as real == d + k as real
  {
    var n := d.Floor;
    assert d + k as real == (n + k) as real;
  }

  /**
   * After the physics phase the runner is never below the ground; it is grounded exactly when
   * this tick's fall reached the ground line, and then it stands on it with no vertical
   * speed, its jumps reset and its double jump available again.
   */
  lemma PhysicsLands(p: Player)
    ensures var q := Physics(p);
      && q.y + q.height <= GROUND_Y
      && (q.isGrounded <==> p.y + p.vy + GRAVITY + p.height >= GROUND_Y)
      && (q.isGrounded ==> q.y + q.height == GROUND_Y && q.vy == 0.0 && q.jumpCount == 0
                           && !q.isJumping && q.doubleJumpAvailable)
      && (!q.isGrounded ==> q.vy == p.vy + GRAVITY && q.y == p.y + q.vy)
  {
  }

  /**
   * Recovery moves the runner exactly one step of 0.5 towards its lane and leaves it alone
   * on the lane; on the lane grid it never overshoots, so it never passes its lane.
   */
  lemma RecoveryStep(p: Player)
    ensures var q := Physics(p);
      && (p.x < p.targetX ==> q.x == p.x + RECOVERY_STEP)
      && (p.x > p.targetX ==> q.x == p.x - RECOVERY_STEP)
      && (p.x == p.targetX ==> q.x == p.x)
    ensures OnLaneGrid(p) ==> OnLaneGrid(Physics(p)) && Physics(p).x <= p.targetX
  {
    var q := Physics(p);
    if OnLaneGrid(p) && p.x < p.targetX {
      var d := (p.targetX - p.x) * 2.0;
      assert d.Floor >= 1;
      WholeShift(d, -1);
      assert (q.targetX - q.x) * 2.0 == d - 1.0;
    }
  }

  lemma PhysicsKeepsValid(p: Player)
    requires ValidPlayer(p) && OnLaneGrid(p)
    ensures ValidPlayer(Physics(p)) && OnLaneGrid(Physics(p))
  {
    RecoveryStep(p);
  }

  // ---------------------------------------------------------------------------------------
  // The spawner
  // ---------------------------------------------------------------------------------------

  /** The spawner fires when the gap rule allows it and the draw is under 3%. */
  predicate Spawns(w: World, speed: real, rolls: SpawnRolls)
  {
    CanSpawn(w.obstacles, speed) && rolls.gate < SPAWN_CHANCE
  }

  /**
   * One run of the spawner adds at most one obstacle, at x = CANVAS_WIDTH + 50 behind the
   * existing ones, and at most one collectible, and only when it fires; otherwise nothing
   * changes. A power-up comes with draws over 0.95, a coin with draws over 0.5.
   */
  lemma SpawnAddsAtMostOne(w: World, speed: real, rolls: SpawnRolls)
    ensures var r := Spawn(w, speed, rolls);
      && (Spawns(w, speed, rolls) <==> |r.obstacles| == |w.obstacles| + 1)
      && (!Spawns(w, speed, rolls) ==> r == w)
      && (Spawns(w, speed, rolls) ==>
            && r.obstacles[..|w.obstacles|] == w.obstacles
            && r.obstacles[|w.obstacles|].x == CANVAS_WIDTH + 50.0
            && r.obstacles[|w.obstacles|] == NewObstacle(rolls.obstacleKind, rolls.birdLift)
            && (rolls.item > 0.95 ==>
                  && |r.powerUps| == |w.powerUps| + 1 && r.coins == w.coins
                  && r.powerUps[..|w.powerUps|] == w.powerUps
                  && r.powerUps[|w.powerUps|].kind == PowerUpKind(rolls.powerUpKind))
            && (0.5 < rolls.item <= 0.95 ==>
                  && |r.coins| == |w.coins| + 1 && r.powerUps == w.powerUps
                  && r.coins[..|w.coins|] == w.coins)
            && (rolls.item <= 0.5 ==> r.coins == w.coins && r.powerUps == w.powerUps))
      && r == w.(obstacles := r.obstacles, coins := r.coins, powerUps := r.powerUps)
  {
  }

  /**
   * A new obstacle is placed more than the speed-scaled minimum gap (plus the 50-unit spawn
   * margin) to the right of the obstacle that was last in the list.
   */
  lemma SpawnKeepsGap(w: World, speed: real, rolls: SpawnRolls)
    requires Spawns(w, speed, rolls) && w.obstacles != []
    ensures var r := Spawn(w, speed, rolls);
      r.obstacles[|r.obstacles| - 1].x - w.obstacles[|w.obstacles| - 1].x >
        SPAWN_BASE_GAP + speed * SPAWN_GAP_PER_SPEED + 50.0
  {
  }

  /**
   * The obstacle table: the kind is chosen by thresholds 0.85 / 0.70 / 0.55 / 0.40 / 0.25 on
   * one draw; every kind but the bird and the ditch stands on the ground, the ditch lies
   * 10 units below it, and a bird flies with its top between 100 and 150 units up.
   */
  lemma ObstacleTable(kindRoll: real, liftRoll: real)
    requires 0.0 <= liftRoll < 1.0
    ensures var o := NewObstacle(kindRoll, liftRoll);
      && o.x == SPAWN_X && o.frame == 0 && o.animTimer == 0
      && (o.kind == ElectricPole <==> kindRoll > 0.85)
      && (o.kind == Bird <==> 0.70 < kindRoll <= 0.85)
      && (o.kind == Tricycle <==> 0.55 < kindRoll <= 0.70)
      && (o.kind == Buffalo <==> 0.40 < kindRoll <= 0.55)
      && (o.kind == WaterDitch <==> 0.25 < kindRoll <= 0.40)
      && (o.kind == Haystack <==> kindRoll <= 0.25)
      && (o.kind != Bird && o.kind != WaterDitch ==> o.y + o.height == GROUND_Y)
      && (o.kind == WaterDitch ==> o.y == GROUND_Y + 10.0)
      && (o.kind == Bird ==> GROUND_Y - 150.0 < o.y <= GROUND_Y - 100.0)
  {
  }

  /** The power-up table: fever over 0.7, magnet over 0.4, shield otherwise. */
  lemma PowerUpTable(roll: real)
    ensures PowerUpKind(roll) == Fever <==> roll > 0.7
    ensures PowerUpKind(roll) == Magnet <==> 0.4 < roll <= 0.7
    ensures PowerUpKind(roll) == Shield <==> roll <= 0.4
  {
  }

  /**
   * A ditch can never touch a runner standing on or above the ground: its top lies below the
   * ground line, and the hitbox test needs the runner's bottom edge past the obstacle's top
   * plus the buffer. So the splash branch of the knockback is never taken.
   */
  lemma DitchIsOutOfReach(p: Player, o: Obstacle)
    requires p.y + p.height <= GROUND_Y
    requires o.y >= GROUND_Y - HITBOX_BUFFER
    ensures !Collides(p.Box(), o.Box())
    ensures ObstacleHit(p, o) == Miss
  {
  }

  // ---------------------------------------------------------------------------------------
  // The obstacle pass
  // ---------------------------------------------------------------------------------------

  /**
   * One obstacle against the runner, in priority order: under fever it is destroyed and the
   * runner untouched; with a shield the shield is spent, 60 ticks of grace granted, the runner
   * nudged upwards and the obstacle destroyed; a runner not invincible this tick is pushed
   * back 60 units, nudged upwards and given 40 ticks of grace, and the obstacle stays; an
   * invincible runner is untouched. Obstacles not destroyed are dropped once their right
   * edge is left of the canvas.
   */
  lemma ObstacleContact(w: World, o: Obstacle, speed: real, spray: nat -> (real, real))
    ensures var m := MoveObstacle(o, speed); var r := ObstacleStep(w, o, speed, spray);
      && m.x == o.x - speed
      && (ObstacleHit(w.player, m) == Trample ==> r.player == w.player && r.obstacles == w.obstacles)
      && (ObstacleHit(w.player, m) == Absorb ==>
            && r.player == w.player.(hasShield := false, invincibleTimer := SHIELD_GRACE, vy := HIT_VY)
            && r.obstacles == w.obstacles)
      && (ObstacleHit(w.player, m) == Knockback ==>
            r.player == w.player.(x := w.player.x - KNOCKBACK_DX, vy := HIT_VY, invincibleTimer := KNOCKBACK_GRACE))
      && (ObstacleHit(w.player, m) in {Shrug, Miss} ==> r.player == w.player && r.particles == w.particles)
      && (ObstacleHit(w.player, m) in {Knockback, Shrug, Miss} ==>
            r.obstacles == (if m.x + m.width < 0.0 then [] else [m]) + w.obstacles)
      && r == w.(player := r.player, obstacles := r.obstacles, particles := r.particles)
  {
  }

  /** A contact changes the runner and the particles and nothing else. */
  lemma ContactTouchesRunner(w: World, m: Obstacle, spray: nat -> (real, real))
    ensures var c := Contact(w, m, spray); c == w.(player := c.player, particles := c.particles)
  {
  }

  /** The pass's effect on everything but its own list does not depend on that list. */
  lemma ObstacleStepSplit(w: World, o: Obstacle, speed: real, spray: nat -> (real, real))
    ensures var s := ObstacleStep(w.(obstacles := []), o, speed, spray);
      ObstacleStep(w, o, speed, spray) == s.(obstacles := s.obstacles + w.obstacles)
  {
  }

  /**
   * The obstacles already processed are carried through untouched: the pass puts what it
   * keeps of `todo` in front of them.
   */
  lemma {:induction false} ObstaclePassSplit(w: World, todo: seq<Obstacle>, speed: real, spray: nat -> (real, real))
    ensures var r := ObstaclePass(w.(obstacles := []), todo, speed, spray);
      ObstaclePass(w, todo, speed, spray) == r.(obstacles := r.obstacles + w.obstacles)
    decreases |todo|
  {
    if todo != [] {
      var o := todo[|todo| - 1];
      var rest := todo[..|todo| - 1];
      var w1 := ObstacleStep(w, o, speed, spray);
      var w1' := ObstacleStep(w.(obstacles := []), o, speed, spray);
      ObstacleStepSplit(w, o, speed, spray);
      ObstaclePassSplit(w1, rest, speed, spray);
      ObstaclePassSplit(w1', rest, speed, spray);
      assert w1.(obstacles := []) == w1'.(obstacles := []);
    }
  }

  /** `a` is `b` with some elements deleted: the order of what remains is kept. */
  ghost predicate Subsequence<T>(a: seq<T>, b: seq<T>)
    decreases |b|
  {
    if b == [] then a == []
    else
      || (a != [] && a[|a| - 1] == b[|b| - 1] && Subsequence(a[..|a| - 1], b[..|b| - 1]))
      || Subsequence(a, b[..|b| - 1])
  }

  /** The obstacles after scrolling, before any is removed. */
  function Scrolled(todo: seq<Obstacle>, speed: real): (r: seq<Obstacle>)
    ensures |r| == |todo|
    ensures forall i :: 0 <= i < |todo| ==> r[i] == MoveObstacle(todo[i], speed)
  {
    if todo == [] then [] else Scrolled(todo[..|todo| - 1], speed) + [MoveObstacle(todo[|todo| - 1], speed)]
  }

  /** The surviving obstacles are scrolled originals, in their original relative order. */
  lemma {:induction false} ObstaclePassKeepsOrder(w: World, todo: seq<Obstacle>, speed: real, spray: nat -> (real, real))
    requires w.obstacles == []
    ensures Subsequence(ObstaclePass(w, todo, speed, spray).obstacles, Scrolled(todo, speed))
    decreases |todo|
  {
    if todo != [] {
      var o := todo[|todo| - 1];
      var rest := todo[..|todo| - 1];
      var m := MoveObstacle(o, speed);
      var w1 := ObstacleStep(w, o, speed, spray);
      var s := Scrolled(todo, speed);
      assert s[..|s| - 1] == Scrolled(rest, speed);
      assert s[|s| - 1] == m;
      if w1.obstacles == [] {
        ObstaclePassKeepsOrder(w1, rest, speed, spray);
      } else {
        assert w1.obstacles == [m];
        ObstaclePassSplit(w1, rest, speed, spray);
        ObstaclePassKeepsOrder(w1.(obstacles := []), rest, speed, spray);
        var k := ObstaclePass(w1.(obstacles := []), rest, speed, spray).obstacles;
        assert (k + [m])[..|k + [m]| - 1] == k;
      }
    }
  }

  /**
   * The pass starts at the end of the list, where the spawner has just pushed its obstacle:
   * that obstacle is scrolled in the tick it appears, and if it is neither destroyed nor
   * culled it stays the last obstacle of the list, the one the next spawn gate looks at.
   */
  lemma LastObstacleMovesFirst(w: World, todo: seq<Obstacle>, speed: real, spray: nat -> (real, real))
    requires w.obstacles == [] && todo != []
    ensures var m := MoveObstacle(todo[|todo| - 1], speed);
      var r := ObstaclePass(w, todo, speed, spray).obstacles;
      !ObstacleHit(w.player, m).Destroys() && m.x + m.width >= 0.0 ==> r != [] && r[|r| - 1] == m
  {
    var o := todo[|todo| - 1];
    var m := MoveObstacle(o, speed);
    var w1 := ObstacleStep(w, o, speed, spray);
    ObstacleContact(w, o, speed, spray);
    if !ObstacleHit(w.player, m).Destroys() && m.x + m.width >= 0.0 {
      assert w1.obstacles == [m];
      ObstaclePassSplit(w1, todo[..|todo| - 1], speed, spray);
      var k := ObstaclePass(w1.(obstacles := []), todo[..|todo| - 1], speed, spray).obstacles;
      assert ObstaclePass(w, todo, speed, spray).obstacles == k + [m];
    }
  }

  /** Every obstacle that survives the pass still reaches the canvas (right edge at x >= 0). */
  lemma {:induction false} ObstaclePassCulls(w: World, todo: seq<Obstacle>, speed: real, spray: nat -> (real, real))
    requires forall i :: 0 <= i < |w.obstacles| ==> w.obstacles[i].x + w.obstacles[i].width >= 0.0
    ensures var r := ObstaclePass(w, todo, speed, spray).obstacles;
      forall i :: 0 <= i < |r| ==> r[i].x + r[i].width >= 0.0
    decreases |todo|
  {
    if todo != [] {
      var w1 := ObstacleStep(w, todo[|todo| - 1], speed, spray);
      ObstacleContact(w, todo[|todo| - 1], speed, spray);
      assert forall i :: 0 <= i < |w1.obstacles| ==> w1.obstacles[i].x + w1.obstacles[i].width >= 0.0;
      ObstaclePassCulls(w1, todo[..|todo| - 1], speed, spray);
      assert ObstaclePass(w, todo, speed, spray) == ObstaclePass(w1, todo[..|todo| - 1], speed, spray);
    }
  }

  /**
   * Under fever the whole obstacle pass leaves the runner exactly as it was, and no obstacle
   * still touching the runner survives it.
   */
  lemma {:induction false} FeverTramples(w: World, todo: seq<Obstacle>, speed: real, spray: nat -> (real, real))
    requires w.player.feverTimer > 0
    requires forall i :: 0 <= i < |w.obstacles| ==> !Collides(w.player.Box(), w.obstacles[i].Box())
    ensures var r := ObstaclePass(w, todo, speed, spray);
      && r.player == w.player
      && forall i :: 0 <= i < |r.obstacles| ==> !Collides(w.player.Box(), r.obstacles[i].Box())
    decreases |todo|
  {
    if todo != [] {
      FeverTramples(ObstacleStep(w, todo[|todo| - 1], speed, spray), todo[..|todo| - 1], speed, spray);
    }
  }

  /**
   * The obstacle pass only ever touches the runner's position, vertical speed, grace timer and
   * shield, and the lists of obstacles and particles; a shield is never gained.
   */
  lemma {:induction false} ObstaclePassFrame(w: World, todo: seq<Obstacle>, speed: real, spray: nat -> (real, real))
    ensures var r := ObstaclePass(w, todo, speed, spray);
      && r == w.(player := r.player, obstacles := r.obstacles, particles := r.particles)
      && r.player == w.player.(x := r.player.x, vy := r.player.vy,
                               invincibleTimer := r.player.invincibleTimer, hasShield := r.player.hasShield)
      && (r.player.hasShield ==> w.player.hasShield)
      && r.player.x <= w.player.x
    decreases |todo|
  {
    if todo != [] {
      ObstaclePassFrame(ObstacleStep(w, todo[|todo| - 1], speed, spray), todo[..|todo| - 1], speed, spray);
    }
  }

  /** One contact keeps the runner and particle invariants; a knockback stays on the lane grid. */
  lemma ContactKeepsValid(w: World, m: Obstacle, spray: nat -> (real, real))
    requires ValidPlayer(w.player) && OnLaneGrid(w.player) && ValidParticles(w.particles)
    ensures var r := Contact(w, m, spray);
      ValidPlayer(r.player) && OnLaneGrid(r.player) && ValidParticles(r.particles)
  {
    var p := w.player;
    var r := Contact(w, m, spray);
    match ObstacleHit(p, m)
    case Trample =>
      BurstKeepsParticlesValid(w.particles, m.x + m.width / 2.0, m.y + m.height / 2.0, 10, spray);
    case Absorb =>
      BurstKeepsParticlesValid(w.particles, p.x, p.y, 15, spray);
    case Knockback =>
      BurstKeepsParticlesValid(w.particles, p.x - KNOCKBACK_DX + p.width / 2.0, p.y + p.height, 10, spray);
      BurstKeepsParticlesValid(w.particles, p.x - KNOCKBACK_DX + p.width / 2.0, p.y + p.height / 2.0, 5, spray);
      var d := (p.targetX - p.x) * 2.0;
      WholeShift(d, 120);
      assert (r.player.targetX - r.player.x) * 2.0 == d + 120.0;
    case Shrug =>
    case Miss =>
  }

  /** The obstacle pass keeps the runner, obstacle and particle invariants. */
  lemma {:induction false} ObstaclePassKeepsValid(w: World, todo: seq<Obstacle>, speed: real, spray: nat -> (real, real))
    requires ValidPlayer(w.player) && OnLaneGrid(w.player)
    requires ValidObstacles(w.obstacles) && ValidObstacles(todo) && ValidParticles(w.particles)
    ensures var r := ObstaclePass(w, todo, speed, spray);
      && ValidPlayer(r.player) && OnLaneGrid(r.player)
      && ValidObstacles(r.obstacles) && ValidParticles(r.particles)
    decreases |todo|
  {
    if todo != [] {
      var o := todo[|todo| - 1];
      var m := MoveObstacle(o, speed);
      var w1 := ObstacleStep(w, o, speed, spray);
      ContactKeepsValid(w, m, spray);
      assert ValidObstacles(w1.obstacles);
      assert ValidObstacles(todo[..|todo| - 1]);
      ObstaclePassKeepsValid(w1, todo[..|todo| - 1], speed, spray);
    }
  }

  /**
   * The invincibility flag is computed once per tick, so a shield spent on one obstacle does
   * not protect against a second obstacle met in the same pass: a shielded runner overlapping
   * two haystacks loses the shield AND is knocked back, and the 60-tick grace is replaced by
   * the knockback's 40.
   */
  lemma SecondHitInSameTick()
    ensures
      var p := InitialPlayer.(hasShield := true);
      var hay := Obstacle(156.0, GROUND_Y - 100.0, 100.0, 100.0, Haystack, 0, 0);
      var w := InitialWorld.(gameState := Playing, player := p);
      var r := ObstaclePass(w, [hay, hay], INITIAL_SPEED, (k: nat) => (0.5, 0.5));
      && !r.player.hasShield
      && r.player.x == PLAYER_DEFAULT_X - KNOCKBACK_DX
      && r.player.invincibleTimer == KNOCKBACK_GRACE
      && r.obstacles == [hay.(x := 150.0, animTimer := 1)]
  {
    var p := InitialPlayer.(hasShield := true);
    var hay := Obstacle(156.0, GROUND_Y - 100.0, 100.0, 100.0, Haystack, 0, 0);
    var spray := (k: nat) => (0.5, 0.5);
    var w := InitialWorld.(gameState := Playing, player := p);
    var m := MoveObstacle(hay, INITIAL_SPEED);
    assert m == hay.(x := 150.0, animTimer := 1);
    assert ObstacleHit(p, m) == Absorb;
    var w1 := ObstacleStep(w, hay, INITIAL_SPEED, spray);
    assert w1.player == p.(hasShield := false, invincibleTimer := SHIELD_GRACE, vy := HIT_VY);
    assert w1.obstacles == [];
    assert ObstacleHit(w1.player, m) == Knockback;
    var w2 := ObstacleStep(w1, hay, INITIAL_SPEED, spray);
    assert w2.player.x == PLAYER_DEFAULT_X - KNOCKBACK_DX;
    assert w2.obstacles == [m];
    assert [hay, hay][..1] == [hay];
    assert [hay][..0] == [];
    assert ObstaclePass(w, [hay, hay], INITIAL_SPEED, spray) == ObstaclePass(w1, [hay], INITIAL_SPEED, spray);
    assert ObstaclePass(w1, [hay], INITIAL_SPEED, spray) == ObstaclePass(w2, [], INITIAL_SPEED, spray);
  }

  /**
   * A runner given grace by a shield or a knockback meets the next tick's obstacles as
   * invincible: with neither fever nor a shield, a contact then does nothing.
   */
  lemma GraceBlocksKnockback(p: Player, o: Obstacle)
    requires p.invincibleTimer >= 2 && p.feverTimer == 0 && !p.hasShield
    requires Collides(Buffs(p).Box(), o.Box())
    ensures ObstacleHit(Buffs(p), o) == Shrug
  {
  }

  // ---------------------------------------------------------------------------------------
  // The coin pass
  // ---------------------------------------------------------------------------------------

  /**
   * A coin the runner touches after moving is collected: it is removed and adds two coins
   * under fever, one otherwise. A coin not touched is dropped, with no other effect, once its
   * right edge is 50 units left of the canvas.
   */
  lemma CoinPickup(w: World, c: Coin, speed: real, host: Host)
    ensures var m := MoveCoin(c, w.player, speed, w.frameCount, host); var r := CoinStep(w, c, speed, host);
      && (Collides(w.player.Box(), m.Box()) ==>
            && r.coins == w.coins
            && r.coinsCollected == w.coinsCollected + (if w.player.feverTimer > 0 then 2 else 1))
      && (!Collides(w.player.Box(), m.Box()) ==>
            && r.coinsCollected == w.coinsCollected && r.particles == w.particles
            && r.coins == (if m.x + m.width < COLLECTIBLE_CULL_X then [] else [m]) + w.coins)
      && r == w.(coins := r.coins, coinsCollected := r.coinsCollected, particles := r.particles)
  {
  }

  /**
   * Without the magnet a coin scrolls by the tick's speed; with it, a coin within 300 units
   * of the runner's centre is pulled instead of scrolling, one further away just scrolls.
   */
  lemma CoinMovement(c: Coin, p: Player, speed: real, frameCount: nat, host: Host)
    ensures var m := MoveCoin(c, p, speed, frameCount, host);
      var dx := (p.x + p.width / 2.0) - (c.x + c.width / 2.0);
      var dy := (p.y + p.height / 2.0) - (c.y + c.height / 2.0);
      && (p.magnetTimer == 0 ==> m.x == c.x - speed)
      && (p.magnetTimer > 0 && dx * dx + dy * dy < 90000.0 ==>
            m.x == c.x + host.pull(dx, dy).0 && m.y == c.y + host.pull(dx, dy).1)
      && (p.magnetTimer > 0 && dx * dx + dy * dy >= 90000.0 ==> m == c.(x := c.x - speed))
      && m.width == c.width && m.height == c.height && m.wobbleOffset == c.wobbleOffset
  {
  }

  /**
   * The coin pass changes only the coin list, the coin count and the particles; the count
   * never drops and grows by at most two per coin.
   */
  lemma {:induction false} CoinPassFrame(w: World, todo: seq<Coin>, speed: real, host: Host)
    ensures var r := CoinPass(w, todo, speed, host);
      && r == w.(coins := r.coins, coinsCollected := r.coinsCollected, particles := r.particles)
      && w.coinsCollected <= r.coinsCollected <= w.coinsCollected + 2 * |todo|
      && (ValidParticles(w.particles) ==> ValidParticles(r.particles))
    decreases |todo|
  {
    if todo != [] {
      var c := todo[|todo| - 1];
      var m := MoveCoin(c, w.player, speed, w.frameCount, host);
      if ValidParticles(w.particles) {
        BurstKeepsParticlesValid(w.particles, m.x, m.y, 5, host.spray);
      }
      CoinPassFrame(CoinStep(w, c, speed, host), todo[..|todo| - 1], speed, host);
    }
  }

  // ---------------------------------------------------------------------------------------
  // The power-up pass
  // ---------------------------------------------------------------------------------------

  /**
   * A power-up the runner touches is removed and grants its buff: a shield, 600 ticks of
   * magnet or 300 ticks of fever. One not touched is dropped, with no other effect, once its
   * right edge is 50 units left of the canvas.
   */
  lemma PowerUpPickup(w: World, u: PowerUp, speed: real, host: Host)
    ensures var m := MovePowerUp(u, speed, w.frameCount, host); var r := PowerUpStep(w, u, speed, host);
      && m.x == u.x - speed
      && (Collides(w.player.Box(), m.Box()) ==>
            && r.powerUps == w.powerUps
            && (m.kind == Shield ==> r.player == w.player.(hasShield := true))
            && (m.kind == Magnet ==> r.player == w.player.(magnetTimer := MAGNET_TICKS))
            && (m.kind == Fever ==> r.player == w.player.(feverTimer := FEVER_TICKS)))
      && (!Collides(w.player.Box(), m.Box()) ==>
            && r.player == w.player && r.particles == w.particles
            && r.powerUps == (if m.x + m.width < COLLECTIBLE_CULL_X then [] else [m]) + w.powerUps)
      && r == w.(player := r.player, powerUps := r.powerUps, particles := r.particles)
  {
  }

  /** A pickup touches only the shield and the two buff timers. */
  lemma CollectTouchesOnlyBuffs(p: Player, kind: PowerUpType)
    ensures Collect(p, kind) == p.(hasShield := Collect(p, kind).hasShield,
      magnetTimer := Collect(p, kind).magnetTimer, feverTimer := Collect(p, kind).feverTimer)
  {
  }

  /** A pickup keeps the runner invariant: the timers it sets are the largest they can be. */
  lemma CollectKeepsValid(p: Player, kind: PowerUpType)
    requires ValidPlayer(p)
    ensures ValidPlayer(Collect(p, kind))
  {
  }

  lemma PowerUpStepFrame(w: World, u: PowerUp, speed: real, host: Host)
    ensures var r := PowerUpStep(w, u, speed, host);
      && r == w.(player := r.player, powerUps := r.powerUps, particles := r.particles)
      && r.player == w.player.(hasShield := r.player.hasShield, magnetTimer := r.player.magnetTimer,
                               feverTimer := r.player.feverTimer)
      && (ValidPlayer(w.player) ==> ValidPlayer(r.player))
      && (ValidParticles(w.particles) ==> ValidParticles(r.particles))
  {
    var m := MovePowerUp(u, speed, w.frameCount, host);
    var r := PowerUpStep(w, u, speed, host);
    if Collides(w.player.Box(), m.Box()) {
      var q := Collect(w.player, m.kind);
      var ps := w.particles + Burst(w.player.x, w.player.y, PickupSparks(m.kind), host.spray);
      assert r == w.(player := q, particles := ps);
      CollectTouchesOnlyBuffs(w.player, m.kind);
      if ValidParticles(w.particles) {
        BurstKeepsParticlesValid(w.particles, w.player.x, w.player.y, PickupSparks(m.kind), host.spray);
      }
      if ValidPlayer(w.player) {
        CollectKeepsValid(w.player, m.kind);
      }
    } else {
      assert r.player == w.player && r.particles == w.particles;
    }
  }

  /**
   * The power-up pass changes only the list, the particles and the runner's buffs, and keeps
   * the runner and particle invariants.
   */
  lemma {:induction false} PowerUpPassFrame(w: World, todo: seq<PowerUp>, speed: real, host: Host)
    ensures var r := PowerUpPass(w, todo, speed, host);
      && r == w.(player := r.player, powerUps := r.powerUps, particles := r.particles)
      && r.player == w.player.(hasShield := r.player.hasShield, magnetTimer := r.player.magnetTimer,
                               feverTimer := r.player.feverTimer)
      && (ValidPlayer(w.player) ==> ValidPlayer(r.player))
      && (ValidParticles(w.particles) ==> ValidParticles(r.particles))
    decreases |todo|
  {
    if todo != [] {
      var w1 := PowerUpStep(w, todo[|todo| - 1], speed, host);
      PowerUpStepFrame(w, todo[|todo| - 1], speed, host);
      PowerUpPassFrame(w1, todo[..|todo| - 1], speed, host);
      assert PowerUpPass(w, todo, speed, host) == PowerUpPass(w1, todo[..|todo| - 1], speed, host);
    }
  }

  // ---------------------------------------------------------------------------------------
  // The whole tick
  // ---------------------------------------------------------------------------------------

  /** The state invariant together with the lane grid the recovery relies on. */
  predicate Reachable(w: World)
  {
    Valid(w) && OnLaneGrid(w.player)
  }

  /**
   * Phases 1-5 keep the invariant (the runner's, the dog's, the speed ramp's and the
   * counters') and the lane grid; they advance the frame counter by one, ramp the base speed
   * by SPEED_INCREMENT only while it is below MAX_SPEED, add a tenth of the tick's speed to the
   * distance, compute the score from the coin count as it stood before this tick's pickups,
   * and end the game exactly when the runner, after its physics, touches the dog.
   */
  lemma LeadKeepsValid(w: World, spray: nat -> (real, real))
    requires Reachable(w)
    ensures var r := Lead(w, spray);
      && Reachable(r)
      && r.frameCount == w.frameCount + 1
      && (w.gameSpeed < MAX_SPEED ==> r.gameSpeed == w.gameSpeed + SPEED_INCREMENT)
      && (w.gameSpeed >= MAX_SPEED ==> r.gameSpeed == w.gameSpeed)
      && r.distance == w.distance + TickSpeed(w) * DISTANCE_FACTOR
      && r.distance > w.distance
      && r.score == (r.distance + w.coinsCollected as real * COIN_SCORE).Floor
      && r.coinsCollected == w.coinsCollected
      && r.obstacles == w.obstacles && r.coins == w.coins && r.powerUps == w.powerUps
      && (r.gameState == GameOver <==>
            w.gameState == GameOver || Collides(Physics(Buffs(AnimatePlayer(w.player))).Box(), AnimateDog(w.dog).Box()))
      && (r.gameState != GameOver ==> r.gameState == w.gameState)
  {
    MotionKeepsValid(w);
    var m := Motion(w);
    BurstKeepsParticlesValid(m.particles, m.player.x, m.player.y, 30, spray);
  }

  /** Phases 1-4 keep the invariant and move only the runner, the dog and the counters. */
  lemma MotionKeepsValid(w: World)
    requires Reachable(w)
    ensures var r := Motion(w);
      && Reachable(r)
      && r.frameCount == w.frameCount + 1
      && (w.gameSpeed < MAX_SPEED ==> r.gameSpeed == w.gameSpeed + SPEED_INCREMENT)
      && (w.gameSpeed >= MAX_SPEED ==> r.gameSpeed == w.gameSpeed)
      && r.distance == w.distance + TickSpeed(w) * DISTANCE_FACTOR
      && r.distance > w.distance
      && r.score == (r.distance + w.coinsCollected as real * COIN_SCORE).Floor
      && r.coinsCollected == w.coinsCollected && r.gameState == w.gameState
      && r.obstacles == w.obstacles && r.coins == w.coins && r.powerUps == w.powerUps
      && r.particles == w.particles
      && r.player == Physics(Buffs(AnimatePlayer(w.player))) && r.dog == AnimateDog(w.dog)
  {
    RunnerKeepsValid(w.player);
    var speed := TickSpeed(w);
    assert speed >= INITIAL_SPEED;
    var distance := w.distance + speed * DISTANCE_FACTOR;
    assert 0.0 <= distance + w.coinsCollected as real * COIN_SCORE;
  }

  /** The runner's own phases keep it valid and on the lane grid. */
  lemma RunnerKeepsValid(p: Player)
    requires ValidPlayer(p) && OnLaneGrid(p)
    ensures ValidPlayer(Physics(Buffs(AnimatePlayer(p)))) && OnLaneGrid(Physics(Buffs(AnimatePlayer(p))))
  {
    var q := Buffs(AnimatePlayer(p));
    assert ValidPlayer(q) && OnLaneGrid(q);
    PhysicsKeepsValid(q);
  }

  /**
   * Phases 7-10 keep the invariant and the lane grid; they never change the game state, the
   * speed, the distance or the score, and the coin count never drops.
   */
  lemma SweepKeepsValid(w: World, speed: real, host: Host)
    requires Reachable(w)
    ensures var r := Sweep(w, speed, host);
      && Reachable(r)
      && r.gameState == w.gameState && r.dog == w.dog && r.frameCount == w.frameCount
      && r.gameSpeed == w.gameSpeed && r.distance == w.distance && r.score == w.score
      && r.bgOffset == w.bgOffset
      && r.coinsCollected >= w.coinsCollected
  {
    var w7 := ObstaclePass(w.(obstacles := []), w.obstacles, speed, host.spray);
    ObstaclePassFrame(w.(obstacles := []), w.obstacles, speed, host.spray);
    ObstaclePassKeepsValid(w.(obstacles := []), w.obstacles, speed, host.spray);
    var w8 := CoinPass(w7.(coins := []), w7.coins, speed, host);
    CoinPassFrame(w7.(coins := []), w7.coins, speed, host);
    var w9 := PowerUpPass(w8.(powerUps := []), w8.powerUps, speed, host);
    PowerUpPassFrame(w8.(powerUps := []), w8.powerUps, speed, host);
    ParticlePassKeepsValid([], w9.particles);
    assert OnLaneGrid(w9.player);
  }

  /**
   * A tick keeps the invariant. Along the way: the base speed never drops and grows by
   * SPEED_INCREMENT only while below MAX_SPEED; distance grows by a tenth of the tick's speed;
   * the score is computed from the coin count BEFORE this tick's pickups; the coin count never
   * drops; and the game ends exactly when the runner, after its physics, touches the dog.
   */
  lemma TickKeepsValid(w: World, rolls: SpawnRolls, host: Host)
    requires Reachable(w)
    ensures var r := Tick(w, rolls, host);
      && Reachable(r)
      && (w.gameSpeed < MAX_SPEED ==> r.gameSpeed == w.gameSpeed + SPEED_INCREMENT)
      && (w.gameSpeed >= MAX_SPEED ==> r.gameSpeed == w.gameSpeed)
      && r.distance == w.distance + TickSpeed(w) * DISTANCE_FACTOR
      && r.distance > w.distance
      && r.score == (r.distance + w.coinsCollected as real * COIN_SCORE).Floor
      && r.coinsCollected >= w.coinsCollected
      && r.frameCount == w.frameCount + 1
      && (r.gameState == GameOver <==>
            w.gameState == GameOver || Collides(Physics(Buffs(AnimatePlayer(w.player))).Box(), AnimateDog(w.dog).Box()))
      && (r.gameState != GameOver ==> r.gameState == w.gameState)
    ensures var s := w.bgOffset + TickSpeed(w) * PARALLAX_FACTOR;
      Tick(w, rolls, host).bgOffset == (if s < CANVAS_WIDTH then s else s - CANVAS_WIDTH)
  {
    var speed := TickSpeed(w);
    var l := Lead(w, host.spray);
    LeadKeepsValid(w, host.spray);
    var s := Spawn(l, speed, rolls);
    SpawnKeepsValid(l, speed, rolls);
    var v := Sweep(s, speed, host);
    SweepKeepsValid(s, speed, host);
    assert 0.0 <= speed <= (MAX_SPEED + SPEED_INCREMENT) * FEVER_SPEED_FACTOR;
    assert v.bgOffset == w.bgOffset;
    ScrollKeepsValid(v, speed);
  }

  /** The spawner keeps the invariant and touches only the three entity lists. */
  lemma SpawnKeepsValid(w: World, speed: real, rolls: SpawnRolls)
    requires Reachable(w)
    ensures var r := Spawn(w, speed, rolls);
      && Reachable(r)
      && r == w.(obstacles := r.obstacles, coins := r.coins, powerUps := r.powerUps)
  {
    SpawnAddsAtMostOne(w, speed, rolls);
    assert ValidObstacles(Spawn(w, speed, rolls).obstacles);
  }

  /**
   * The parallax scroll keeps the offset within one canvas width and changes nothing else;
   * an advance of less than one canvas width wraps the offset back by exactly one width once
   * it reaches the right edge.
   */
  lemma ScrollKeepsValid(w: World, speed: real)
    requires Reachable(w) && speed >= 0.0
    ensures var r := Scroll(w, speed);
      && Reachable(r)
      && r == w.(bgOffset := r.bgOffset)
    ensures var s := w.bgOffset + speed * PARALLAX_FACTOR;
      s < 2.0 * CANVAS_WIDTH ==>
        Scroll(w, speed).bgOffset == (if s < CANVAS_WIDTH then s else s - CANVAS_WIDTH)
  {
  }

  /** A frame keeps the invariant whatever the state. */
  lemma FrameKeepsValid(w: World, rolls: SpawnRolls, host: Host)
    requires Reachable(w)
    ensures Reachable(Frame(w, rolls, host))
  {
    if w.gameState == Playing {
      TickKeepsValid(w, rolls, host);
    }
  }
}
