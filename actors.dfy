/**
 * The player, the floating umbrella it must avoid, and the controls that steer
 * the player: one frame of each as a function of the previous one.
 */
module Actors {
  import opened Oracle
  import opened Geometry
  import opened Particles

  const PLAYER_START_X := 50.0
  /** startGame puts the player this far above the canvas bottom. */
  const PLAYER_START_LIFT := 50.0
  const PLAYER_WIDTH := 40.0
  const PLAYER_HEIGHT := 40.0
  const PLAYER_SPEED := 5.0
  const JUMP_VELOCITY := -12.0
  const GRAVITY := 0.5
  const ANIMATION_STEP := 0.2
  /** Particles a jump throws up. */
  const JUMP_SPARKS := 5

  const OBSTACLE_WIDTH := 30.0
  const OBSTACLE_HEIGHT := 25.0
  const OBSTACLE_SPEED := 5.0
  const FLOAT_STEP := 0.1
  const ROTATION_STEP := 0.05
  /** The obstacle hovers this far above the canvas bottom, give or take FLOAT_AMPLITUDE. */
  const HOVER_LIFT := 80.0
  const FLOAT_AMPLITUDE := 20.0
  /** A wrapped obstacle reappears up to this far beyond the right edge. */
  const RESPAWN_SPREAD := 200.0

  /** The three movement controls: left, right and jump. */
  datatype Controls = Controls(left: bool, right: bool, jump: bool)

  /** What a frame acts on: a control is on when its arrow key is held or its touch button is down. */
  function Merge(keys: Controls, touch: Controls): Controls
  {
    Controls(keys.left || touch.left, keys.right || touch.right, keys.jump || touch.jump)
  }

  // ----- player -----

  datatype Player = Player(x: real, y: real, vy: real, jumping: bool, animationFrame: real)

  /** The y the ground clamp puts the player at: standing on the canvas bottom. */
  function Ground(h: real): real
  {
    h - PLAYER_HEIGHT
  }

  /** The player as startGame leaves it: 50 from the left edge and ten units above the ground. */
  function StartPlayer(h: real): (p: Player)
    ensures p.y == Ground(h) - 10.0
    ensures p.vy == 0.0 && !p.jumping
  {
    Player(PLAYER_START_X, h - PLAYER_START_LIFT, 0.0, false, 0.0)
  }

  predicate LeftGuard(p: Player, pressed: bool)
  {
    pressed && p.x > 0.0
  }

  function StepLeft(p: Player, pressed: bool): Player
  {
    if LeftGuard(p, pressed) then p.(x := p.x - PLAYER_SPEED) else p
  }

  predicate RightGuard(p: Player, pressed: bool, w: real)
  {
    pressed && p.x < w - PLAYER_WIDTH
  }

  function StepRight(p: Player, pressed: bool, w: real): Player
  {
    if RightGuard(p, pressed, w) then p.(x := p.x + PLAYER_SPEED) else p
  }

  predicate JumpGuard(p: Player, pressed: bool)
  {
    pressed && !p.jumping
  }

  function StepJump(p: Player, pressed: bool): Player
  {
    if JumpGuard(p, pressed) then p.(vy := JUMP_VELOCITY, jumping := true) else p
  }

  /**
   * The controls' effect on the player: a step left, then a step right (tested
   * against the position after the left step), then a jump. The left guard tests
   * x > 0 before the step, so x may end up to one step below zero, never further;
   * likewise at the right edge.
   */
  function Steer(p: Player, ctl: Controls, w: real): (q: Player)
    ensures q.y == p.y && q.animationFrame == p.animationFrame
    ensures q.x == p.x - (if LeftGuard(p, ctl.left) then PLAYER_SPEED else 0.0)
                       + (if RightGuard(StepLeft(p, ctl.left), ctl.right, w) then PLAYER_SPEED else 0.0)
    ensures p.x - PLAYER_SPEED <= q.x <= p.x + PLAYER_SPEED
    ensures p.x > -PLAYER_SPEED ==> q.x > -PLAYER_SPEED
    ensures p.x < w - PLAYER_WIDTH + PLAYER_SPEED ==> q.x < w - PLAYER_WIDTH + PLAYER_SPEED
    ensures JumpGuard(p, ctl.jump) ==> q.vy == JUMP_VELOCITY && q.jumping
    ensures !JumpGuard(p, ctl.jump) ==> q.vy == p.vy && q.jumping == p.jumping
  {
    StepJump(StepRight(StepLeft(p, ctl.left), ctl.right, w), ctl.jump)
  }

  /** The player lands this frame: the fall takes it below the ground. */
  predicate Lands(p: Player, h: real)
  {
    p.y + p.vy > Ground(h)
  }

  /**
   * Gravity and the ground clamp: y moves by the velocity and the velocity
   * grows by GRAVITY, unconditionally; a fall below the ground is clamped to it,
   * with the velocity zeroed and the jump over.
   */
  function Fall(p: Player, h: real): (q: Player)
    ensures q.y <= Ground(h)
    ensures q.x == p.x && q.animationFrame == p.animationFrame
    ensures Lands(p, h) ==> q.y == Ground(h) && q.vy == 0.0 && !q.jumping
    ensures !Lands(p, h) ==> q.y == p.y + p.vy && q.vy == p.vy + GRAVITY && q.jumping == p.jumping
  {
    var moved := p.(y := p.y + p.vy, vy := p.vy + GRAVITY);
    if moved.y > Ground(h) then moved.(y := Ground(h), vy := 0.0, jumping := false) else moved
  }

  /** The player after one frame: steering, gravity and clamp, and the animation phase. */
  function PlayerFrame(p: Player, ctl: Controls, w: real, h: real): (q: Player)
    ensures q.y <= Ground(h)
    ensures q.animationFrame == p.animationFrame + ANIMATION_STEP
    ensures p.x > -PLAYER_SPEED ==> q.x > -PLAYER_SPEED
  {
    var f := Fall(Steer(p, ctl, w), h);
    f.(animationFrame := f.animationFrame + ANIMATION_STEP)
  }

  /**
   * A player standing on the ground with no velocity does not stay still in
   * velocity: the next frame leaves it unclamped with velocity GRAVITY, the one
   * after clamps it back with velocity 0.
   */
  lemma StandingPlayerAlternates(p: Player, h: real)
    requires p.y == Ground(h) && p.vy == 0.0
    ensures Fall(p, h).y == Ground(h) && Fall(p, h).vy == GRAVITY
    ensures Fall(Fall(p, h), h).y == Ground(h) && Fall(Fall(p, h), h).vy == 0.0
  {
  }

  /** A player just right of the left edge steps past it: x ends below zero. */
  lemma LeftStepOvershoots(p: Player)
    requires 0.0 < p.x < PLAYER_SPEED
    ensures StepLeft(p, true).x < 0.0
  {
  }

  // ----- particles left by the player -----

  /**
   * The first n particles of a jump's burst, starting at draw k: the i-th
   * draws an x offset across the player's width, then makes the two draws of
   * its creation, so it takes draws k+3i .. k+3i+2.
   */
  function Burst(p: Player, random: RandomStream, k: nat, n: nat): (burst: seq<Particle>)
    ensures |burst| == n
    ensures AllNew(burst)
  {
    if n == 0 then []
    else
      var j := n - 1;
      Burst(p, random, k, j)
        + [Spawn(p.x + random(k + 3 * j) * PLAYER_WIDTH, p.y + PLAYER_HEIGHT, random(k + 3 * j + 1), random(k + 3 * j + 2))]
  }

  /** Every particle of a burst starts at the player's feet, somewhere across its width. */
  lemma {:induction false} BurstAtFeet(p: Player, random: RandomStream, k: nat, n: nat)
    ensures forall i :: 0 <= i < n ==>
      p.x <= Burst(p, random, k, n)[i].x < p.x + PLAYER_WIDTH && Burst(p, random, k, n)[i].y == p.y + PLAYER_HEIGHT
  {
    if n > 0 {
      BurstAtFeet(p, random, k, n - 1);
    }
  }

  /** How many particles the controls make this frame: one per sideways step and JUMP_SPARKS per jump. */
  function SparkCount(p: Player, ctl: Controls, w: real): nat
  {
    (if LeftGuard(p, ctl.left) then 1 else 0)
    + (if RightGuard(StepLeft(p, ctl.left), ctl.right, w) then 1 else 0)
    + (if JumpGuard(p, ctl.jump) then JUMP_SPARKS else 0)
  }

  /** How many Math.random draws those particles take: two each, and one more for a jump particle's x. */
  function TrailDraws(p: Player, ctl: Controls, w: real): nat
  {
    2 * SparkCount(p, ctl, w) + (if JumpGuard(p, ctl.jump) then JUMP_SPARKS else 0)
  }

  /** The particle a step left leaves behind the player, from draws k and k+1. */
  function LeftSparks(p: Player, pressed: bool, random: RandomStream, k: nat): (sparks: seq<Particle>)
    ensures |sparks| == if LeftGuard(p, pressed) then 1 else 0
    ensures AllNew(sparks)
  {
    var q := StepLeft(p, pressed);
    if LeftGuard(p, pressed) then [Spawn(q.x + PLAYER_WIDTH, q.y + PLAYER_HEIGHT, random(k), random(k + 1))] else []
  }

  /** The particle a step right leaves at the player's feet, from draws k and k+1. */
  function RightSparks(p: Player, pressed: bool, w: real, random: RandomStream, k: nat): (sparks: seq<Particle>)
    ensures |sparks| == if RightGuard(p, pressed, w) then 1 else 0
    ensures AllNew(sparks)
  {
    var q := StepRight(p, pressed, w);
    if RightGuard(p, pressed, w) then [Spawn(q.x, q.y + PLAYER_HEIGHT, random(k), random(k + 1))] else []
  }

  /** The burst a jump leaves at the player's feet, from draw k on. */
  function JumpSparks(p: Player, pressed: bool, random: RandomStream, k: nat): (sparks: seq<Particle>)
    ensures |sparks| == if JumpGuard(p, pressed) then JUMP_SPARKS else 0
    ensures AllNew(sparks)
  {
    if JumpGuard(p, pressed) then Burst(p, random, k, JUMP_SPARKS) else []
  }

  /**
   * The particles the controls append this frame, starting at draw k: behind
   * the player after a step left, at its feet after a step right, and a burst
   * at its feet after a jump.
   */
  function Trail(p: Player, ctl: Controls, w: real, random: RandomStream, k: nat): (sparks: seq<Particle>)
    ensures |sparks| == SparkCount(p, ctl, w)
    ensures AllNew(sparks)
  {
    var p1 := StepLeft(p, ctl.left);
    var p2 := StepRight(p1, ctl.right, w);
    var left := LeftSparks(p, ctl.left, random, k);
    var k1 := k + 2 * |left|;
    var right := RightSparks(p1, ctl.right, w, random, k1);
    var k2 := k1 + 2 * |right|;
    var burst := JumpSparks(p2, ctl.jump, random, k2);
    AllNewAppend(left, right);
    AllNewAppend(left + right, burst);
    left + right + burst
  }

  /** The trail is its three parts, each starting at the draw after the previous part's, and takes their draws. */
  lemma TrailIsParts(p: Player, ctl: Controls, w: real, random: RandomStream, k: nat,
                     left: seq<Particle>, right: seq<Particle>, burst: seq<Particle>)
    requires left == LeftSparks(p, ctl.left, random, k)
    requires right == RightSparks(StepLeft(p, ctl.left), ctl.right, w, random, k + 2 * |left|)
    requires burst == JumpSparks(StepRight(StepLeft(p, ctl.left), ctl.right, w), ctl.jump, random, k + 2 * |left| + 2 * |right|)
    ensures Trail(p, ctl, w, random, k) == left + right + burst
    ensures 2 * |left| + 2 * |right| + 3 * |burst| == TrailDraws(p, ctl, w)
  {
  }

  /** Particles appended part by part make up the trail. */
  lemma TrailInParts(before: seq<Particle>, after: seq<Particle>, p: Player, ctl: Controls, w: real, random: RandomStream, k: nat,
                     left: seq<Particle>, right: seq<Particle>, burst: seq<Particle>)
    requires left == LeftSparks(p, ctl.left, random, k)
    requires right == RightSparks(StepLeft(p, ctl.left), ctl.right, w, random, k + 2 * |left|)
    requires burst == JumpSparks(StepRight(StepLeft(p, ctl.left), ctl.right, w), ctl.jump, random, k + 2 * |left| + 2 * |right|)
    requires after == before + left + right + burst
    ensures after == before + Trail(p, ctl, w, random, k)
    ensures 2 * |left| + 2 * |right| + 3 * |burst| == TrailDraws(p, ctl, w)
  {
    TrailIsParts(p, ctl, w, random, k, left, right, burst);
    assert before + left + right + burst == before + (left + right + burst);
  }

  // ----- obstacle -----

  datatype Obstacle = Obstacle(x: real, y: real, floatOffset: real, rotation: real)

  /** The obstacle as the page loads it. */
  function StartObstacle(w: real, h: real): Obstacle
  {
    Obstacle(w, h - 50.0, 0.0, 0.0)
  }

  /** The obstacle, after this frame's scroll, is entirely past the left edge. */
  predicate ObstacleWraps(o: Obstacle, gameSpeed: real)
  {
    o.x - OBSTACLE_SPEED * gameSpeed < -OBSTACLE_WIDTH
  }

  /** The hovering height for a float phase. */
  function Hover(h: real, sin: Sine, floatOffset: real): (y: real)
    ensures h - HOVER_LIFT - FLOAT_AMPLITUDE <= y <= h - HOVER_LIFT + FLOAT_AMPLITUDE
  {
    h - HOVER_LIFT + sin(floatOffset) * FLOAT_AMPLITUDE
  }

  /**
   * One frame of the obstacle, starting at draw k: it scrolls left, its float
   * and rotation phases advance and its height follows the float phase; once
   * entirely off the left edge it reappears up to RESPAWN_SPREAD beyond the
   * right edge at a height given by a second draw. That height holds for this
   * frame only: the next frame recomputes it from the float phase.
   */
  function Drift(o: Obstacle, gameSpeed: real, w: real, h: real, sin: Sine, random: RandomStream, k: nat): (r: Obstacle)
    ensures r.floatOffset == o.floatOffset + FLOAT_STEP && r.rotation == o.rotation + ROTATION_STEP
    ensures ObstacleWraps(o, gameSpeed) ==> w <= r.x < w + RESPAWN_SPREAD
    ensures ObstacleWraps(o, gameSpeed) && 150.0 <= h ==> 50.0 <= r.y <= h - 100.0
    ensures !ObstacleWraps(o, gameSpeed) ==> r.x == o.x - OBSTACLE_SPEED * gameSpeed
    ensures !ObstacleWraps(o, gameSpeed) ==> r.y == Hover(h, sin, r.floatOffset)
  {
    var phase := o.floatOffset + FLOAT_STEP;
    if ObstacleWraps(o, gameSpeed) then
      Obstacle(w + random(k) * RESPAWN_SPREAD, Scale(random(k + 1), h - 150.0) + 50.0, phase, o.rotation + ROTATION_STEP)
    else
      Obstacle(o.x - OBSTACLE_SPEED * gameSpeed, Hover(h, sin, phase), phase, o.rotation + ROTATION_STEP)
  }

  /** Where the obstacle was before a frame without a wrap does not change where it hovers after it. */
  lemma HoverForgetsOldHeight(o: Obstacle, y: real, gameSpeed: real, w: real, h: real, sin: Sine, random: RandomStream, k: nat)
    requires !ObstacleWraps(o, gameSpeed)
    ensures Drift(o, gameSpeed, w, h, sin, random, k) == Drift(o.(y := y), gameSpeed, w, h, sin, random, k)
  {
  }

  // ----- collision -----

  function PlayerBox(p: Player): Rect
  {
    Rect(p.x, p.y, PLAYER_WIDTH, PLAYER_HEIGHT)
  }

  function ObstacleBox(o: Obstacle): Rect
  {
    Rect(o.x, o.y, OBSTACLE_WIDTH, OBSTACLE_HEIGHT)
  }

  /** The player's and the obstacle's boxes overlap strictly. */
  predicate Collides(p: Player, o: Obstacle)
  {
    Overlaps(PlayerBox(p), ObstacleBox(o))
  }

  /** Two boxes from the game's own dimensions: a player at (50, 50) meets an obstacle at (60, 60); one at the origin misses one at (200, 200). */
  lemma CollisionExamples()
    ensures Collides(Player(50.0, 50.0, 0.0, false, 0.0), Obstacle(60.0, 60.0, 0.0, 0.0))
    ensures !Collides(Player(0.0, 0.0, 0.0, false, 0.0), Obstacle(200.0, 200.0, 0.0, 0.0))
  {
  }
}
