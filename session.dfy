/**
 * One page session of the game: the page's globals as the fields of a Session
 * object, the handlers that start and restart a round, and the per-frame
 * update.
 */
module Game {
  import opened Oracle
  import opened Particles
  import opened Background
  import opened Actors
  import opened States
  import opened Frames

  /** A value read from storage: absent when nothing was ever stored. */
  datatype Option<T> = None | Some(value: T)

  /** The key that starts and restarts the game. */
  const SPACE := " "

  class Session {
    /** The canvas size, fixed for the session. */
    const width: real
    const height: real
    /** Math.random and Math.sin. */
    const random: RandomStream
    const sin: Sine
    /** How many Math.random draws have been made so far. */
    var draws: nat

    var state: GameState
    var score: nat
    var gameSpeed: real
    var highScore: int
    /** The values written to storage as the high score, oldest first. */
    ghost var saved: seq<int>

    var player: Player
    var obstacle: Obstacle
    /** The touch buttons currently held. */
    var touch: Controls
    var particles: seq<Particle>
    var clouds: seq<Cloud>
    var buildings: seq<Building>
    var raindrops: seq<Raindrop>

    /** The globals as one value. */
    ghost function Snapshot(): World
      reads this
    {
      World(draws, state, score, gameSpeed, highScore, saved, player, obstacle, touch,
            particles, clouds, buildings, raindrops)
    }

    /** What holds between frames. */
    ghost predicate Valid()
      reads this
    {
      Sound(Snapshot(), width, height)
    }

    /** The page as it loads: the opening screen, with the high score read from storage and a new background. */
    constructor (width: real, height: real, random: RandomStream, sin: Sine, stored: Option<nat>)
      requires 0.0 <= width && 0.0 <= height
      ensures Valid()
      ensures this.width == width && this.height == height && this.random == random && this.sin == sin
      ensures Snapshot() == Loaded(width, height, random, if stored.Some? then stored.value else 0)
    {
      this.width := width;
      this.height := height;
      this.random := random;
      this.sin := sin;
      draws := 0;
      state := Opening;
      score := 0;
      gameSpeed := 1.0;
      highScore := if stored.Some? then stored.value else 0;
      saved := [];
      player := StartPlayer(height);
      obstacle := StartObstacle(width, height);
      touch := Controls(false, false, false);
      particles := [];
      clouds := [];
      buildings := [];
      raindrops := [];
      new;
      InitBackground();
      LoadedSound(width, height, random, highScore);
    }

    /** initClouds: twelve new clouds. */
    method InitClouds()
      requires 0.0 <= width && 0.0 <= height
      modifies this`clouds, this`draws
      ensures Snapshot() == WithNewClouds(old(Snapshot()), width, height, random)
    {
      var made := [];
      for i := 0 to CLOUD_COUNT
        invariant made == NewClouds(width, height, random, draws, i)
      {
        made := made + [NewCloud(width, height, random, draws + CLOUD_DRAWS * i)];
      }
      clouds := made;
      draws := draws + CLOUD_DRAWS * CLOUD_COUNT;
    }

    /** initBuildings: six new buildings. */
    method InitBuildings()
      modifies this`buildings, this`draws
      ensures Snapshot() == WithNewBuildings(old(Snapshot()), height, random)
    {
      var made := [];
      for i := 0 to BUILDING_COUNT
        invariant made == NewBuildings(height, random, draws, i)
      {
        made := made + [NewBuilding(i, height, random, draws + BUILDING_DRAWS * i)];
      }
      buildings := made;
      draws := draws + BUILDING_DRAWS * BUILDING_COUNT;
    }

    /** initRain: a hundred new raindrops. */
    method InitRain()
      requires 0.0 <= width && 0.0 <= height
      modifies this`raindrops, this`draws
      ensures Snapshot() == WithNewRain(old(Snapshot()), width, height, random)
    {
      var made := [];
      for i := 0 to RAINDROP_COUNT
        invariant made == NewRain(width, height, random, draws, i)
      {
        made := made + [NewRaindrop(width, height, random, draws + RAINDROP_DRAWS * i)];
      }
      raindrops := made;
      draws := draws + RAINDROP_DRAWS * RAINDROP_COUNT;
    }

    /** The three background builders, in the order the page and startGame call them. */
    method InitBackground()
      requires 0.0 <= width && 0.0 <= height
      modifies this`clouds, this`buildings, this`raindrops, this`draws
      ensures Snapshot() == Rebuild(old(Snapshot()), width, height, random)
    {
      InitClouds();
      InitBuildings();
      InitRain();
    }

    /** The first half of startGame: the screen, the score, the speed and the particles. */
    method ResetRound()
      modifies this`state, this`score, this`gameSpeed, this`particles
      ensures Snapshot() == old(Snapshot()).(state := Playing, score := 0, gameSpeed := 1.0, particles := [])
    {
      state := Playing;
      score := 0;
      gameSpeed := 1.0;
      particles := [];
    }

    /** The last part of startGame: the player back at its start, the obstacle at the right edge. */
    method ResetActors()
      modifies this`player, this`obstacle
      ensures Snapshot() == old(Snapshot()).(player := StartPlayer(height), obstacle := old(obstacle).(x := width))
    {
      player := player.(x := PLAYER_START_X, y := height - PLAYER_START_LIFT);
      player := player.(vy := 0.0, jumping := false, animationFrame := 0.0);
      obstacle := obstacle.(x := width);
    }

    /** startGame: a new round. */
    method StartGame()
      requires 0.0 <= width && 0.0 <= height
      modifies this
      ensures Snapshot() == Restart(old(Snapshot()), width, height, random)
    {
      ResetRound();
      InitBackground();
      ResetActors();
    }

    /** gameOver: the round ends; a score above the high score becomes the high score and is stored. */
    method GameOver()
      modifies this`state, this`highScore, this`saved
      ensures state == GameState.GameOver
      ensures highScore == BestScore(old(highScore), score)
      ensures saved == if SavesHighScore(old(highScore), score) then old(saved) + [score] else old(saved)
    {
      state := GameState.GameOver;
      if score > highScore {
        highScore := score;
        saved := saved + [highScore];
      }
    }

    /** createParticle: one new particle at (x, y), taking two draws. */
    method CreateParticle(x: real, y: real)
      modifies this`particles, this`draws
      ensures particles == old(particles) + [Spawn(x, y, random(old(draws)), random(old(draws) + 1))]
      ensures draws == old(draws) + 2
    {
      var a := random(draws);
      var b := random(draws + 1);
      draws := draws + 2;
      particles := particles + [Spawn(x, y, a, b)];
    }

    /**
     * A key press: space starts a round from the opening screen and returns from
     * the game-over screen to the opening screen; any other key changes nothing.
     */
    method KeyDown(key: string)
      requires Valid()
      modifies this
      ensures Valid()
      ensures Snapshot() == if key == SPACE then Press(old(Snapshot()), width, height, random) else old(Snapshot())
    {
      PressRules(Snapshot(), width, height, random);
      if state == Opening && key == SPACE {
        StartGame();
      }
      if state == GameState.GameOver && key == SPACE {
        state := Opening;
      }
    }

    /** A click on the jump button: the same moves as a space press. */
    method JumpButtonClick()
      requires Valid()
      modifies this
      ensures Valid()
      ensures Snapshot() == Press(old(Snapshot()), width, height, random)
    {
      PressRules(Snapshot(), width, height, random);
      if state == Opening {
        StartGame();
      } else if state == GameState.GameOver {
        state := Opening;
      }
    }

    /** One cloud's step of the cloud loop: it scrolls, and once off the left edge it is placed back at the right. */
    method MoveCloud(cloud: Cloud) returns (moved: Cloud)
      requires 0.0 <= width && 0.0 <= height
      modifies this`draws
      ensures moved == ScrollCloud(cloud, gameSpeed, width, height, random(old(draws)))
      ensures draws == old(draws) + if CloudWraps(cloud, gameSpeed) then 1 else 0
    {
      moved := cloud.(x := cloud.x - cloud.speed * gameSpeed);
      if moved.x < -moved.width {
        moved := moved.(x := width, y := Scale(random(draws), height) / 2.0);
        draws := draws + 1;
      }
    }

    /** One raindrop's step of the rain loop: it falls and drifts, and is placed back at the top or the right. */
    method MoveDrop(drop: Raindrop) returns (moved: Raindrop)
      requires 0.0 <= width && 0.0 <= height
      modifies this`draws
      ensures moved == FallDrop(drop, width, height, random(old(draws)))
      ensures draws == old(draws) + if RainWraps(drop, height) then 1 else 0
    {
      moved := drop.(y := drop.y + drop.speed);
      moved := moved.(x := moved.x - RAIN_DRIFT);
      if moved.y > height {
        moved := moved.(y := -moved.length, x := Scale(random(draws), width));
        draws := draws + 1;
      }
      if moved.x < 0.0 {
        moved := moved.(x := width);
      }
    }

    /** One building's step of the building loop: it scrolls, and once off the left edge it is placed back at the right. */
    method MoveBuilding(building: Building) returns (moved: Building)
      requires 0.0 <= width
      ensures moved == ScrollBuilding(building, gameSpeed, width)
    {
      moved := building.(x := building.x - building.speed * gameSpeed);
      if moved.x < -moved.width {
        moved := moved.(x := width);
      }
    }

    /** The cloud loop of a frame. */
    method MoveClouds()
      requires 0.0 <= width && 0.0 <= height
      modifies this`clouds, this`draws
      ensures Snapshot() == CloudsStep(old(Snapshot()), width, height, random)
    {
      var cs := clouds;
      var moved := [];
      for i := 0 to |cs|
        modifies this`draws
        invariant moved == ScrollClouds(cs[..i], gameSpeed, width, height, random, old(draws))
        invariant draws == old(draws) + CloudWrapCount(cs[..i], gameSpeed)
      {
        var cloud := MoveCloud(cs[i]);
        ScrollCloudsExtend(cs, i, moved, cloud, gameSpeed, width, height, random, old(draws));
        moved := moved + [cloud];
      }
      assert cs[..|cs|] == cs;
      clouds := moved;
    }

    /** The raindrop loop of a frame. */
    method MoveRain()
      requires 0.0 <= width && 0.0 <= height
      modifies this`raindrops, this`draws
      ensures Snapshot() == RainStep(old(Snapshot()), width, height, random)
    {
      var ds := raindrops;
      var moved := [];
      for i := 0 to |ds|
        modifies this`draws
        invariant moved == FallRain(ds[..i], width, height, random, old(draws))
        invariant draws == old(draws) + RainWrapCount(ds[..i], height)
      {
        var drop := MoveDrop(ds[i]);
        FallRainExtend(ds, i, moved, drop, width, height, random, old(draws));
        moved := moved + [drop];
      }
      assert ds[..|ds|] == ds;
      raindrops := moved;
    }

    /** The building loop of a frame. */
    method MoveBuildings()
      requires 0.0 <= width
      modifies this`buildings
      ensures Snapshot() == BuildingsStep(old(Snapshot()), width)
    {
      var bs := buildings;
      var moved := [];
      for i := 0 to |bs|
        invariant moved == ScrollBuildings(bs[..i], gameSpeed, width)
      {
        var building := MoveBuilding(bs[i]);
        ScrollBuildingsExtend(bs, i, moved, building, gameSpeed, width);
        moved := moved + [building];
      }
      assert bs[..|bs|] == bs;
      buildings := moved;
    }

    /** The step left of a frame, with its particle. */
    method MoveLeft(pressed: bool)
      modifies this`player, this`particles, this`draws
      ensures Snapshot() == LeftStep(old(Snapshot()), pressed, random)
    {
      if pressed && player.x > 0.0 {
        player := player.(x := player.x - PLAYER_SPEED);
        CreateParticle(player.x + PLAYER_WIDTH, player.y + PLAYER_HEIGHT);
      }
    }

    /** The step right of a frame, with its particle. */
    method MoveRight(pressed: bool)
      modifies this`player, this`particles, this`draws
      ensures Snapshot() == RightStep(old(Snapshot()), pressed, width, random)
    {
      if pressed && player.x < width - PLAYER_WIDTH {
        player := player.(x := player.x + PLAYER_SPEED);
        CreateParticle(player.x, player.y + PLAYER_HEIGHT);
      }
    }

    /** The jump of a frame: a jump from the ground consumes a touch jump and leaves a burst of particles. */
    method Jump(pressed: bool)
      modifies this`player, this`touch, this`particles, this`draws
      ensures Snapshot() == JumpStep(old(Snapshot()), pressed, random)
    {
      if pressed && !player.jumping {
        var from := player;
        player := player.(vy := JUMP_VELOCITY, jumping := true);
        touch := touch.(jump := false);
        Spray(from);
      }
    }

    /** The burst of a jump: JUMP_SPARKS particles at the player's feet, each at a random point across its width. */
    method Spray(from: Player)
      modifies this`particles, this`draws
      ensures particles == old(particles) + Burst(from, random, old(draws), JUMP_SPARKS)
      ensures draws == old(draws) + 3 * JUMP_SPARKS
    {
      for i := 0 to JUMP_SPARKS
        invariant particles == old(particles) + Burst(from, random, old(draws), i)
        invariant draws == old(draws) + 3 * i
      {
        var offset := random(draws);
        draws := draws + 1;
        CreateParticle(from.x + offset * PLAYER_WIDTH, from.y + PLAYER_HEIGHT);
        assert particles == old(particles) + (Burst(from, random, old(draws), i) + [particles[|particles| - 1]]);
      }
    }

    /** Gravity, the ground clamp and the animation phase of a frame. */
    method ApplyGravity()
      modifies this`player
      ensures Snapshot() == GravityStep(old(Snapshot()), height)
    {
      player := player.(y := player.y + player.vy);
      player := player.(vy := player.vy + GRAVITY);
      if player.y > height - PLAYER_HEIGHT {
        player := player.(y := height - PLAYER_HEIGHT, vy := 0.0, jumping := false);
      }
      player := player.(animationFrame := player.animationFrame + ANIMATION_STEP);
    }

    /**
     * The player's part of a frame: the sideways steps and the jump, each leaving
     * particles, then gravity, the ground clamp and the animation phase.
     */
    method MovePlayer(keys: Controls)
      requires 0.0 <= width
      modifies this`player, this`touch, this`particles, this`draws
      ensures Snapshot() == PlayerStep(old(Snapshot()), keys, width, height, random)
    {
      var ctl := Merge(keys, touch);
      MoveLeft(ctl.left);
      MoveRight(ctl.right);
      Jump(ctl.jump);
      ApplyGravity();
    }

    /** The obstacle's part of a frame: scroll, float, and on a wrap a respawn and a point. */
    method MoveObstacle()
      modifies this`obstacle, this`score, this`draws
      ensures Snapshot() == ObstacleStep(old(Snapshot()), width, height, random, sin)
    {
      var o := obstacle.(x := obstacle.x - OBSTACLE_SPEED * gameSpeed);
      o := o.(floatOffset := o.floatOffset + FLOAT_STEP);
      o := o.(rotation := o.rotation + ROTATION_STEP);
      o := o.(y := height - HOVER_LIFT + sin(o.floatOffset) * FLOAT_AMPLITUDE);
      if o.x < -OBSTACLE_WIDTH {
        var across := random(draws);
        var up := random(draws + 1);
        o := o.(x := width + across * RESPAWN_SPREAD, y := Scale(up, height - 150.0) + 50.0);
        score := score + 1;
        draws := draws + 2;
      }
      obstacle := o;
    }

    /** The particle filter of a frame: each particle aged, the dead ones dropped. */
    method AgeParticles()
      modifies this`particles
      ensures Snapshot() == AgeStep(old(Snapshot()))
    {
      var kept := [];
      var i := 0;
      while i < |particles|
        invariant 0 <= i <= |particles|
        invariant kept == Survivors(particles[..i])
      {
        assert particles[..i + 1][..i] == particles[..i];
        var p := particles[i];
        p := p.(x := p.x + p.vx);
        p := p.(y := p.y + p.vy);
        p := p.(vy := p.vy + PARTICLE_GRAVITY);
        p := p.(life := p.life - 1);
        if p.life > 0 {
          kept := kept + [p];
        }
        i := i + 1;
      }
      assert particles[..i] == particles;
      particles := kept;
    }

    /** The background of a frame: the clouds, then the rain, then the buildings. */
    method MoveBackground()
      requires 0.0 <= width && 0.0 <= height
      modifies this`clouds, this`raindrops, this`buildings, this`draws
      ensures Snapshot() == BackgroundFrame(old(Snapshot()), width, height, random)
    {
      MoveClouds();
      MoveRain();
      MoveBuildings();
    }

    /**
     * The foreground of a frame: the player with the particles it leaves, the
     * obstacle, then the particle filter, which ages this frame's new particles
     * too.
     */
    method MoveForeground(keys: Controls)
      requires 0.0 <= width
      modifies this`player, this`touch, this`particles, this`obstacle, this`score, this`draws
      ensures Snapshot() == ForegroundFrame(old(Snapshot()), keys, width, height, random, sin)
    {
      MovePlayer(keys);
      MoveObstacle();
      AgeParticles();
    }

    /** The speed-up at the start of a frame. */
    method SpeedUp()
      modifies this`gameSpeed
      ensures Snapshot() == SpedUp(old(Snapshot()))
    {
      gameSpeed := gameSpeed + SPEED_STEP;
    }

    /** The collision check closing a frame: a strict overlap of player and obstacle is gameOver. */
    method CheckCollision()
      modifies this`state, this`highScore, this`saved
      ensures Snapshot() == EndOnHit(old(Snapshot()))
    {
      if Collides(player, obstacle) {
        GameOver();
      }
    }

    /** A frame of a round. */
    method PlayFrame(keys: Controls)
      requires 0.0 <= width && 0.0 <= height
      modifies this
      ensures Snapshot() == RoundFrame(old(Snapshot()), keys, width, height, random, sin)
    {
      SpeedUp();
      MoveBackground();
      MoveForeground(keys);
      CheckCollision();
    }

    /**
     * update: one frame. Outside a round it does nothing. In a round the game
     * speeds up, the background, the player, the obstacle and the particles move
     * in that order, and a strict overlap of player and obstacle ends the round.
     */
    method Update(keys: Controls)
      requires Valid()
      modifies this
      ensures Valid()
      ensures Snapshot() == Frame(old(Snapshot()), keys, width, height, random, sin)
    {
      FrameKeepsSound(Snapshot(), keys, width, height, random, sin);
      if state == Playing {
        PlayFrame(keys);
      }
    }
  }
}
