/**
 * The particle system: sparks left behind by the player's moves and jumps,
 * which fall, fade and are filtered out once their life runs out.
 */
module Particles {
  import opened Oracle

  /** life and maxLife of a new particle. */
  const LIFETIME := 30

  /** What a particle's vertical velocity gains each frame. */
  const PARTICLE_GRAVITY := 0.1

  datatype Particle = Particle(x: real, y: real, vx: real, vy: real, life: int, maxLife: int)

  /**
   * createParticle(x, y): a particle at (x, y); a and b are the two Math.random
   * draws it makes, for the horizontal and the vertical velocity, in that order.
   */
  function Spawn(x: real, y: real, a: Unit, b: Unit): (p: Particle)
    ensures p.x == x && p.y == y
    ensures -2.0 <= p.vx < 2.0 && -3.0 < p.vy <= 0.0
    ensures p.life == LIFETIME && p.maxLife == LIFETIME
  {
    Particle(x, y, (a - 0.5) * 4.0, b * -3.0, LIFETIME, LIFETIME)
  }

  /** Every particle is new: its life is the full lifetime. */
  predicate AllNew(ps: seq<Particle>)
  {
    forall i :: 0 <= i < |ps| ==> ps[i].life == LIFETIME && ps[i].maxLife == LIFETIME
  }

  /** Two lists of new particles make one. */
  lemma AllNewAppend(ps: seq<Particle>, qs: seq<Particle>)
    requires AllNew(ps) && AllNew(qs)
    ensures AllNew(ps + qs)
  {
  }

  /** Every particle has life left. */
  predicate Alive(ps: seq<Particle>)
  {
    forall i :: 0 <= i < |ps| ==> ps[i].life > 0
  }

  /** One frame of a particle: it moves by its velocity, falls a little and loses one unit of life. */
  function Age(p: Particle): Particle
  {
    Particle(p.x + p.vx, p.y + p.vy, p.vx, p.vy + PARTICLE_GRAVITY, p.life - 1, p.maxLife)
  }

  /**
   * The particle list after one frame's filter: every particle aged, and only
   * those whose new life is still positive kept, in their original order.
   */
  function Survivors(ps: seq<Particle>): (r: seq<Particle>)
    ensures |r| <= |ps|
    ensures Alive(r)
  {
    if ps == [] then []
    else
      var q := Age(ps[|ps| - 1]);
      Survivors(ps[..|ps| - 1]) + if q.life > 0 then [q] else []
  }

  /** The positions, in increasing order, of the particles that live through the next frame. */
  ghost function Kept(ps: seq<Particle>): seq<nat>
  {
    if ps == [] then []
    else Kept(ps[..|ps| - 1]) + if ps[|ps| - 1].life > 1 then [|ps| - 1] else []
  }

  /** The kept positions are in range, increasing, and exactly those of the particles whose life exceeds one. */
  lemma {:induction false} KeptPositions(ps: seq<Particle>)
    ensures forall j :: 0 <= j < |Kept(ps)| ==> Kept(ps)[j] < |ps|
    ensures forall j, k :: 0 <= j < k < |Kept(ps)| ==> Kept(ps)[j] < Kept(ps)[k]
    ensures forall i :: 0 <= i < |ps| ==> (i in Kept(ps) <==> ps[i].life > 1)
  {
    if ps != [] {
      var n := |ps| - 1;
      var front := ps[..n];
      KeptPositions(front);
      assert forall i :: 0 <= i < n ==> front[i] == ps[i];
    }
  }

  /** The survivors are the kept particles, in order, each aged by one frame. */
  lemma {:induction false} SurvivorsAreKept(ps: seq<Particle>)
    ensures |Survivors(ps)| == |Kept(ps)|
    ensures forall j :: 0 <= j < |Kept(ps)| ==>
      Kept(ps)[j] < |ps| && Survivors(ps)[j] == Age(ps[Kept(ps)[j]])
  {
    if ps != [] {
      var n := |ps| - 1;
      var front := ps[..n];
      SurvivorsAreKept(front);
      assert forall i :: 0 <= i < n ==> front[i] == ps[i];
    }
  }

  /** Filtering a list is filtering its two halves separately. */
  lemma {:induction false} SurvivorsAppend(ps: seq<Particle>, qs: seq<Particle>)
    ensures Survivors(ps + qs) == Survivors(ps) + Survivors(qs)
  {
    if qs == [] {
      assert ps + qs == ps;
    } else {
      var front := qs[..|qs| - 1];
      assert (ps + qs)[..|ps + qs| - 1] == ps + front;
      assert (ps + qs)[|ps + qs| - 1] == qs[|qs| - 1];
      SurvivorsAppend(ps, front);
    }
  }

  /** Particles created this frame are aged in the same frame: all of them survive, with life 29. */
  lemma {:induction false} NewParticlesSurvive(qs: seq<Particle>)
    requires AllNew(qs)
    ensures |Survivors(qs)| == |qs|
    ensures forall i :: 0 <= i < |qs| ==>
      Survivors(qs)[i] == Age(qs[i]) && Survivors(qs)[i].life == LIFETIME - 1
  {
    if qs != [] {
      var front := qs[..|qs| - 1];
      NewParticlesSurvive(front);
    }
  }

  /**
   * A frame's filter over the particles already there followed by the ones
   * created in the same frame: the old survivors come first, unchanged, then
   * every new particle, aged once, with life 29.
   */
  lemma NewParticlesFollowSurvivors(ps: seq<Particle>, qs: seq<Particle>)
    requires AllNew(qs)
    ensures var survivors := Survivors(ps);
      && |Survivors(ps + qs)| == |survivors| + |qs|
      && Survivors(ps + qs)[..|survivors|] == survivors
      && forall i :: |survivors| <= i < |Survivors(ps + qs)| ==>
        Survivors(ps + qs)[i] == Age(qs[i - |survivors|]) && Survivors(ps + qs)[i].life == LIFETIME - 1
  {
    SurvivorsAppend(ps, qs);
    NewParticlesSurvive(qs);
  }
}
