/**
 * The page's game globals as one value, and update() as a function of that
 * value: what one frame does to the whole game, and the facts a frame keeps.
 */
module Frames {
  import opened Oracle
  import opened Particles
  import opened Background
  import opened Actors
  import opened States

  /** How much the game speeds up each frame. */
  const SPEED_STEP := 0.001

  /**
   * The globals a frame reads and writes. `draws` counts the Math.random calls
   * made so far; `saved` lists the values written to storage as the high score,
   * oldest first.
   */
  datatype World = World(
    draws: nat, state: GameState, score: nat, gameSpeed: real, highScore: int, saved: seq<int>,
    player: Player, obstacle: Obstacle, touch: Controls,
    particles: seq<Particle>, clouds: seq<Cloud>, buildings: seq<Building>, raindrops: seq<Raindrop>)

  /**
   * What holds between frames on a w by h canvas: the background keeps its size
   * and stays within its wrap bounds, the game never slows below its start
   * speed, the player stays above the ground and at most one step left of the
   * left edge, every particle is alive, and outside a round the high score is
   * at least the last score.
   */
  ghost predicate Sound(s: World, w: real, h: real)
  {
    && 0.0 <= w && 0.0 <= h
    && 1.0 <= s.gameSpeed
    && SceneInPlay(s.clouds, s.buildings, s.raindrops, w, h)
    && s.player.y <= Ground(h) && s.player.x > -PLAYER_SPEED
    && Alive(s.particles)
    && (s.state != Playing ==> s.score <= s.highScore)
  }

  /** The globals as the page declares them, before any background is built: the opening screen and the high score read from storage. */
  function Declared(w: real, h: real, best: int): World
  {
    World(0, Opening, 0, 1.0, best, [], StartPlayer(h), StartObstacle(w, h), Controls(false, false, false), [], [], [], [])
  }

  /** The globals as the page loads: the declared globals and a background built from the first draws. */
  function Loaded(w: real, h: real, random: RandomStream, best: int): World
    requires 0.0 <= w && 0.0 <= h
  {
    Rebuild(Declared(w, h, best), w, h, random)
  }

  /** initClouds(): twelve new clouds from the next draw on. */
  function WithNewClouds(s: World, w: real, h: real, random: RandomStream): World
    requires 0.0 <= w && 0.0 <= h
  {
    s.(clouds := NewClouds(w, h, random, s.draws, CLOUD_COUNT), draws := s.draws + CLOUD_DRAWS * CLOUD_COUNT)
  }

  /** initBuildings(): six new buildings from the next draw on. */
  function WithNewBuildings(s: World, h: real, random: RandomStream): World
  {
    s.(buildings := NewBuildings(h, random, s.draws, BUILDING_COUNT), draws := s.draws + BUILDING_DRAWS * BUILDING_COUNT)
  }

  /** initRain(): a hundred new raindrops from the next draw on. */
  function WithNewRain(s: World, w: real, h: real, random: RandomStream): World
    requires 0.0 <= w && 0.0 <= h
  {
    s.(raindrops := NewRain(w, h, random, s.draws, RAINDROP_COUNT), draws := s.draws + RAINDROP_DRAWS * RAINDROP_COUNT)
  }

  /** initClouds, initBuildings and initRain in that order. */
  function Rebuild(s: World, w: real, h: real, random: RandomStream): World
    requires 0.0 <= w && 0.0 <= h
  {
    WithNewRain(WithNewBuildings(WithNewClouds(s, w, h, random), h, random), w, h, random)
  }

  /**
   * startGame(): a round from scratch. The score, the speed and the particles
   * reset, the background is rebuilt from the next draws, the player returns to
   * its start and the obstacle to the right edge; the high score, the touch
   * buttons and the rest of the obstacle are kept.
   */
  function Restart(s: World, w: real, h: real, random: RandomStream): World
    requires 0.0 <= w && 0.0 <= h
  {
    var reset := s.(state := Playing, score := 0, gameSpeed := 1.0, particles := []);
    Rebuild(reset, w, h, random).(player := StartPlayer(h), obstacle := s.obstacle.(x := w))
  }

  /** A space press or a click on the jump button: a round starts from the opening screen, the game-over screen returns to it. */
  function Press(s: World, w: real, h: real, random: RandomStream): World
    requires 0.0 <= w && 0.0 <= h
  {
    match s.state
    case Opening => Restart(s, w, h, random)
    case Playing => s
    case GameOver => s.(state := Opening)
  }

  /** The page loads in a state that holds between frames. */
  lemma LoadedSound(w: real, h: real, random: RandomStream, best: int)
    requires 0.0 <= w && 0.0 <= h && 0 <= best
    ensures Sound(Loaded(w, h, random, best), w, h)
  {
    NewCloudsInPlay(w, h, random, 0, CLOUD_COUNT);
    NewBuildingsInPlay(h, random, CLOUD_DRAWS * CLOUD_COUNT, BUILDING_COUNT);
    NewRainInPlay(w, h, random, CLOUD_DRAWS * CLOUD_COUNT + BUILDING_DRAWS * BUILDING_COUNT, RAINDROP_COUNT);
  }

  /**
   * What startGame leaves: a round on, score 0, speed 1, no particles, a new
   * background of 12 clouds, 6 buildings and 100 raindrops built from the next
   * draws, the player standing still 50 from the left and 50 above the bottom,
   * the obstacle at the right edge; the high score, its store and the touch
   * buttons are untouched.
   */
  lemma RestartRules(s: World, w: real, h: real, random: RandomStream)
    requires 0.0 <= w && 0.0 <= h
    ensures var t := Restart(s, w, h, random);
      && t.state == Playing && t.score == 0 && t.gameSpeed == 1.0 && t.particles == []
      && |t.clouds| == 12 && |t.buildings| == 6 && |t.raindrops| == 100
      && t.draws == s.draws + SCENE_DRAWS
      && t.player.x == 50.0 && t.player.y == h - 50.0 && t.player.vy == 0.0 && !t.player.jumping
      && t.player.animationFrame == 0.0
      && t.obstacle.x == w && t.obstacle.(x := s.obstacle.x) == s.obstacle
      && t.highScore == s.highScore && t.saved == s.saved && t.touch == s.touch
  {
  }

  /** A new round starts in a state that holds between frames, whatever the state before. */
  lemma RestartSound(s: World, w: real, h: real, random: RandomStream)
    requires 0.0 <= w && 0.0 <= h
    ensures Sound(Restart(s, w, h, random), w, h)
  {
    var k := s.draws;
    NewCloudsInPlay(w, h, random, k, CLOUD_COUNT);
    NewBuildingsInPlay(h, random, k + CLOUD_DRAWS * CLOUD_COUNT, BUILDING_COUNT);
    NewRainInPlay(w, h, random, k + CLOUD_DRAWS * CLOUD_COUNT + BUILDING_DRAWS * BUILDING_COUNT, RAINDROP_COUNT);
  }

  /**
   * A press moves the screens as AfterPress says, keeps what holds between
   * frames, and changes nothing but the screen unless it starts a round.
   */
  lemma PressRules(s: World, w: real, h: real, random: RandomStream)
    requires Sound(s, w, h)
    ensures Press(s, w, h, random).state == AfterPress(s.state)
    ensures Sound(Press(s, w, h, random), w, h)
    ensures s.state != Opening ==> Press(s, w, h, random) == s.(state := AfterPress(s.state))
  {
    if s.state == Opening {
      RestartSound(s, w, h, random);
    }
  }

  // ----- update(), section by section -----

  /** The cloud loop: every cloud scrolls, and each one that wraps takes the next draw. */
  function CloudsStep(s: World, w: real, h: real, random: RandomStream): World
    requires 0.0 <= w && 0.0 <= h
  {
    s.(clouds := ScrollClouds(s.clouds, s.gameSpeed, w, h, random, s.draws),
       draws := s.draws + CloudWrapCount(s.clouds, s.gameSpeed))
  }

  /** The rain loop: every raindrop falls and drifts, and each one that passes the bottom takes the next draw. */
  function RainStep(s: World, w: real, h: real, random: RandomStream): World
    requires 0.0 <= w && 0.0 <= h
  {
    s.(raindrops := FallRain(s.raindrops, w, h, random, s.draws),
       draws := s.draws + RainWrapCount(s.raindrops, h))
  }

  /** The building loop: every building scrolls. */
  function BuildingsStep(s: World, w: real): World
    requires 0.0 <= w
  {
    s.(buildings := ScrollBuildings(s.buildings, s.gameSpeed, w))
  }

  /** The background's part of a frame: the clouds, then the rain, then the buildings. */
  function BackgroundFrame(s: World, w: real, h: real, random: RandomStream): World
    requires 0.0 <= w && 0.0 <= h
  {
    BuildingsStep(RainStep(CloudsStep(s, w, h, random), w, h, random), w)
  }

  /** A step left, with the particle it leaves. */
  function LeftStep(s: World, pressed: bool, random: RandomStream): World
  {
    var sparks := LeftSparks(s.player, pressed, random, s.draws);
    s.(player := StepLeft(s.player, pressed), particles := s.particles + sparks, draws := s.draws + 2 * |sparks|)
  }

  /** A step right, with the particle it leaves. */
  function RightStep(s: World, pressed: bool, w: real, random: RandomStream): World
  {
    var sparks := RightSparks(s.player, pressed, w, random, s.draws);
    s.(player := StepRight(s.player, pressed, w), particles := s.particles + sparks, draws := s.draws + 2 * |sparks|)
  }

  /** A jump from the ground: it consumes a touch jump and leaves a burst. */
  function JumpStep(s: World, pressed: bool, random: RandomStream): World
  {
    var sparks := JumpSparks(s.player, pressed, random, s.draws);
    s.(player := StepJump(s.player, pressed),
       touch := if JumpGuard(s.player, pressed) then s.touch.(jump := false) else s.touch,
       particles := s.particles + sparks, draws := s.draws + 3 * |sparks|)
  }

  /** Gravity, the ground clamp and the animation phase. */
  function GravityStep(s: World, h: real): World
  {
    s.(player := Fall(s.player, h).(animationFrame := s.player.animationFrame + ANIMATION_STEP))
  }

  /** The player's part of a frame, on the keys held and the touch buttons down as the frame starts. */
  function PlayerStep(s: World, keys: Controls, w: real, h: real, random: RandomStream): World
  {
    var ctl := Merge(keys, s.touch);
    GravityStep(JumpStep(RightStep(LeftStep(s, ctl.left, random), ctl.right, w, random), ctl.jump, random), h)
  }

  /** The obstacle's part of a frame: a wrap respawns it, with two draws, and scores a point. */
  function ObstacleStep(s: World, w: real, h: real, random: RandomStream, sin: Sine): World
  {
    var wraps := ObstacleWraps(s.obstacle, s.gameSpeed);
    s.(obstacle := Drift(s.obstacle, s.gameSpeed, w, h, sin, random, s.draws),
       score := s.score + (if wraps then 1 else 0),
       draws := s.draws + (if wraps then 2 else 0))
  }

  /** The particle filter. */
  function AgeStep(s: World): World
  {
    s.(particles := Survivors(s.particles))
  }

  /** The foreground's part of a frame: the player, the obstacle, then the particle filter, which ages this frame's new particles too. */
  function ForegroundFrame(s: World, keys: Controls, w: real, h: real, random: RandomStream, sin: Sine): World
  {
    AgeStep(ObstacleStep(PlayerStep(s, keys, w, h, random), w, h, random, sin))
  }

  /** The collision check closing a frame: a hit is gameOver, which keeps the better score and stores an improvement. */
  function EndOnHit(s: World): World
  {
    if Collides(s.player, s.obstacle) then
      s.(state := GameOver, highScore := BestScore(s.highScore, s.score),
         saved := if SavesHighScore(s.highScore, s.score) then s.saved + [s.score] else s.saved)
    else s
  }

  /** The speed-up opening each frame of a round. */
  function SpedUp(s: World): World
  {
    s.(gameSpeed := s.gameSpeed + SPEED_STEP)
  }

  /** A frame in a round: the speed-up, the background, the foreground and the collision check. */
  function RoundFrame(s: World, keys: Controls, w: real, h: real, random: RandomStream, sin: Sine): World
    requires 0.0 <= w && 0.0 <= h
  {
    EndOnHit(ForegroundFrame(BackgroundFrame(SpedUp(s), w, h, random), keys, w, h, random, sin))
  }

  /** update(): a frame of the round, or nothing outside a round. */
  function Frame(s: World, keys: Controls, w: real, h: real, random: RandomStream, sin: Sine): World
    requires 0.0 <= w && 0.0 <= h
  {
    if s.state != Playing then s else RoundFrame(s, keys, w, h, random, sin)
  }

  // ----- what a frame does, as a whole -----

  /**
   * The player's part of a frame as a whole: the player moves as PlayerFrame
   * says, a jump consumes a touch jump, the trail is appended to the particles
   * with the draws it takes, and nothing else changes.
   */
  lemma PlayerStepIsFrame(s: World, keys: Controls, w: real, h: real, random: RandomStream)
    ensures var ctl := Merge(keys, s.touch);
      var t := PlayerStep(s, keys, w, h, random);
      && t.player == PlayerFrame(s.player, ctl, w, h)
      && t.touch == (if JumpGuard(s.player, ctl.jump) then s.touch.(jump := false) else s.touch)
      && t.particles == s.particles + Trail(s.player, ctl, w, random, s.draws)
      && t.draws == s.draws + TrailDraws(s.player, ctl, w)
      && t.(player := s.player, touch := s.touch, particles := s.particles, draws := s.draws) == s
  {
    var ctl := Merge(keys, s.touch);
    var s1 := LeftStep(s, ctl.left, random);
    var s2 := RightStep(s1, ctl.right, w, random);
    var s3 := JumpStep(s2, ctl.jump, random);
    TrailInParts(s.particles, s3.particles, s.player, ctl, w, random, s.draws,
      LeftSparks(s.player, ctl.left, random, s.draws),
      RightSparks(s1.player, ctl.right, w, random, s1.draws),
      JumpSparks(s2.player, ctl.jump, random, s2.draws));
  }

  /**
   * The foreground's part of a frame as a whole: the particles are the
   * survivors of the old ones and the trail together, the obstacle drifts
   * after the trail's draws, and a wrap scores a point.
   */
  lemma ForegroundFrameIsWhole(s: World, keys: Controls, w: real, h: real, random: RandomStream, sin: Sine)
    ensures var ctl := Merge(keys, s.touch);
      var k := s.draws + TrailDraws(s.player, ctl, w);
      var wraps := ObstacleWraps(s.obstacle, s.gameSpeed);
      var t := ForegroundFrame(s, keys, w, h, random, sin);
      && t.player == PlayerFrame(s.player, ctl, w, h)
      && t.touch == (if JumpGuard(s.player, ctl.jump) then s.touch.(jump := false) else s.touch)
      && t.particles == Survivors(s.particles + Trail(s.player, ctl, w, random, s.draws))
      && t.obstacle == Drift(s.obstacle, s.gameSpeed, w, h, sin, random, k)
      && t.score == s.score + (if wraps then 1 else 0)
      && t.draws == k + (if wraps then 2 else 0)
      && t.(player := s.player, touch := s.touch, particles := s.particles, obstacle := s.obstacle,
            score := s.score, draws := s.draws) == s
  {
    PlayerStepIsFrame(s, keys, w, h, random);
  }

  /** The background's part of a frame keeps what holds between frames. */
  lemma BackgroundKeepsSound(s: World, w: real, h: real, random: RandomStream)
    requires Sound(s, w, h)
    ensures Sound(BackgroundFrame(s, w, h, random), w, h)
  {
    ScrollCloudsKeepInPlay(s.clouds, s.gameSpeed, w, h, random, s.draws);
    FallRainKeepsInPlay(s.raindrops, w, h, random, CloudsStep(s, w, h, random).draws);
    ScrollBuildingsKeepInPlay(s.buildings, s.gameSpeed, w);
  }

  /** The foreground's part of a frame in a round keeps what holds between frames. */
  lemma ForegroundKeepsSound(s: World, keys: Controls, w: real, h: real, random: RandomStream, sin: Sine)
    requires Sound(s, w, h) && s.state == Playing
    ensures Sound(ForegroundFrame(s, keys, w, h, random, sin), w, h)
  {
    ForegroundFrameIsWhole(s, keys, w, h, random, sin);
  }

  /** The collision check keeps what holds between frames: a round that ends leaves the high score at least the score. */
  lemma EndOnHitKeepsSound(s: World, w: real, h: real)
    requires Sound(s, w, h) && s.state == Playing
    ensures Sound(EndOnHit(s), w, h)
  {
  }

  /** A frame in a round keeps what holds between frames. */
  lemma RoundKeepsSound(s: World, keys: Controls, w: real, h: real, random: RandomStream, sin: Sine)
    requires Sound(s, w, h) && s.state == Playing
    ensures Sound(RoundFrame(s, keys, w, h, random, sin), w, h)
  {
    BackgroundKeepsSound(SpedUp(s), w, h, random);
    ForegroundKeepsSound(BackgroundFrame(SpedUp(s), w, h, random), keys, w, h, random, sin);
    EndOnHitKeepsSound(ForegroundFrame(BackgroundFrame(SpedUp(s), w, h, random), keys, w, h, random, sin), w, h);
  }

  /** Every frame keeps what holds between frames. */
  lemma FrameKeepsSound(s: World, keys: Controls, w: real, h: real, random: RandomStream, sin: Sine)
    requires Sound(s, w, h)
    ensures Sound(Frame(s, keys, w, h, random, sin), w, h)
  {
    if s.state == Playing {
      RoundKeepsSound(s, keys, w, h, random, sin);
    }
  }

  /**
   * Outside a round a frame changes nothing. In a round the game speeds up,
   * Math.random is only ever drawn from, never rewound, the high score never
   * drops, and the round ends exactly when the player and the obstacle overlap
   * at the end of the frame.
   */
  lemma FrameRules(s: World, keys: Controls, w: real, h: real, random: RandomStream, sin: Sine)
    requires 0.0 <= w && 0.0 <= h
    ensures var t := Frame(s, keys, w, h, random, sin);
      && (s.state != Playing ==> t == s)
      && (s.state == Playing ==>
        && t.gameSpeed == s.gameSpeed + SPEED_STEP
        && s.draws <= t.draws
        && s.highScore <= t.highScore
        && (t.state == GameOver <==> Collides(t.player, t.obstacle))
        && (t.state == GameOver || t.state == Playing))
  {
  }

  /**
   * The score of a frame: one point exactly when the obstacle scrolls off the
   * left edge; when the round ends the high score is the better of the two and
   * is stored exactly when it improved.
   */
  lemma FrameScores(s: World, keys: Controls, w: real, h: real, random: RandomStream, sin: Sine)
    requires 0.0 <= w && 0.0 <= h
    requires s.state == Playing
    ensures var t := Frame(s, keys, w, h, random, sin);
      && t.score == s.score + (if ObstacleWraps(s.obstacle, s.gameSpeed + SPEED_STEP) then 1 else 0)
      && (ObstacleWraps(s.obstacle, s.gameSpeed + SPEED_STEP) ==> w <= t.obstacle.x < w + RESPAWN_SPREAD)
      && (t.state == GameOver ==>
        && t.highScore == BestScore(s.highScore, t.score) && t.score <= t.highScore
        && (t.saved != s.saved <==> t.score > s.highScore))
      && (t.state == Playing ==> t.highScore == s.highScore && t.saved == s.saved)
  {
  }

  /**
   * The particles after a frame: the survivors of the old ones first, unchanged
   * by the new ones, then every particle the player left this frame, aged once,
   * with life 29.
   */
  lemma FrameParticles(s: World, keys: Controls, w: real, h: real, random: RandomStream, sin: Sine)
    requires 0.0 <= w && 0.0 <= h
    requires s.state == Playing
    ensures var t := Frame(s, keys, w, h, random, sin);
      var survivors := Survivors(s.particles);
      && |t.particles| == |survivors| + SparkCount(s.player, Merge(keys, s.touch), w)
      && t.particles[..|survivors|] == survivors
      && forall i :: |survivors| <= i < |t.particles| ==> t.particles[i].life == LIFETIME - 1
  {
    var b := BackgroundFrame(SpedUp(s), w, h, random);
    ForegroundFrameIsWhole(b, keys, w, h, random, sin);
    NewParticlesFollowSurvivors(s.particles, Trail(s.player, Merge(keys, s.touch), w, random, b.draws));
  }
}
