/** The spark effect: particles that fly straight and fade out, and the pool
    that emits them in bursts and retires them once their life is used up. */
module Particles {
  import opened Vectors
  import opened Seqs

  const DECAY_RATE: real := 2.0
  const SPEED_MIN: real := 50.0
  const SPEED_SPAN: real := 100.0

  datatype ParticleState = ParticleState(position: Vec, velocity: Vec, life: real, color: string, size: real)

  /** `Particle.update`: straight-line motion and life decayed at two units per second. */
  function ParticleStep(q: ParticleState, dt: real): (r: ParticleState)
    ensures r.velocity == q.velocity && r.color == q.color && r.size == q.size
    ensures r.life == q.life - 2.0 * dt
    ensures 0.0 <= dt && IsLive(r) ==> IsLive(q)
  {
    q.(position := Add(q.position, Scale(q.velocity, dt)), life := q.life - dt * DECAY_RATE)
  }

  /** A particle after a series of updates. */
  function Steps(q: ParticleState, dts: seq<real>): ParticleState
    decreases |dts|
  {
    if dts == [] then q else Steps(ParticleStep(q, dts[0]), dts[1..])
  }

  /** Over any series of updates life falls by exactly twice the elapsed time and the
      particle travels its unchanged velocity times the elapsed time. */
  lemma {:induction false} DecayAfter(q: ParticleState, dts: seq<real>)
    ensures Steps(q, dts).life == q.life - 2.0 * Sum(dts)
    ensures Steps(q, dts).velocity == q.velocity
    ensures Steps(q, dts).position == Add(q.position, Scale(q.velocity, Sum(dts)))
    ensures Steps(q, dts).color == q.color && Steps(q, dts).size == q.size
    decreases |dts|
  {
    if dts != [] {
      DecayAfter(ParticleStep(q, dts[0]), dts[1..]);
      var rest := Sum(dts[1..]);
      assert q.velocity.x * dts[0] + q.velocity.x * rest == q.velocity.x * (dts[0] + rest);
      assert q.velocity.y * dts[0] + q.velocity.y * rest == q.velocity.y * (dts[0] + rest);
    }
  }

  /** A freshly emitted particle is used up exactly when half a second has elapsed,
      however that time is split into frames. */
  lemma Extinction(q: ParticleState, dts: seq<real>)
    requires q.life == 1.0
    ensures Steps(q, dts).life <= 0.0 <==> Sum(dts) >= 0.5
  {
    DecayAfter(q, dts);
  }

  /** The filter predicate of the pool: a particle stays while its life is positive. */
  predicate IsLive(q: ParticleState)
  {
    q.life > 0.0
  }

  /** The states after `forEach(p => p.update(dt))`. */
  function StepAll(qs: seq<ParticleState>, dt: real): (r: seq<ParticleState>)
  {
    seq(|qs|, i requires 0 <= i < |qs| => ParticleStep(qs[i], dt))
  }

  /** `ParticleSystem.update`: drop the particles whose life is already used up, then update the rest. */
  function SystemStep(qs: seq<ParticleState>, dt: real): (r: seq<ParticleState>)
    ensures |r| <= |qs|
  {
    StepAll(Filter(qs, IsLive), dt)
  }

  /** The pool update keeps the order of the pool: it distributes over concatenation. */
  lemma SystemStepAppend(a: seq<ParticleState>, b: seq<ParticleState>, dt: real)
    ensures SystemStep(a + b, dt) == SystemStep(a, dt) + SystemStep(b, dt)
  {
    FilterAppend(a, b, IsLive);
  }

  /** Every particle that was live on entry is updated and kept, even when this update uses up
      its life: it is only dropped by the next update. */
  lemma Lingers(qs: seq<ParticleState>, q: ParticleState, dt: real)
    requires q in qs && q.life > 0.0
    ensures ParticleStep(q, dt) in SystemStep(qs, dt)
    ensures q.life <= 2.0 * dt ==> ParticleStep(q, dt) !in Filter(SystemStep(qs, dt), IsLive)
  {
    var live := Filter(qs, IsLive);
    FilterMembers(qs, IsLive);
    FilterMembers(SystemStep(qs, dt), IsLive);
    assert q in live;
    var k :| 0 <= k < |live| && live[k] == q;
    assert SystemStep(qs, dt)[k] == ParticleStep(q, dt);
  }

  /** Only particles live on entry survive an update, each updated once. */
  lemma OnlyLiveSurvive(qs: seq<ParticleState>, dt: real, x: ParticleState)
    requires x in SystemStep(qs, dt)
    ensures exists q :: q in qs && IsLive(q) && x == ParticleStep(q, dt)
  {
    var live := Filter(qs, IsLive);
    FilterMembers(qs, IsLive);
    var k :| 0 <= k < |live| && SystemStep(qs, dt)[k] == x;
    assert live[k] in live;
  }

  /** `Math.random() * 100 + 50`: the emission speed. */
  function EmitSpeed(u: Draw): (r: real)
    ensures 50.0 <= r < 150.0
  {
    u * SPEED_SPAN + SPEED_MIN
  }

  /** `Math.random() * 3 + 1`: the particle size. */
  function EmitSize(u: Draw): (r: real)
    ensures 1.0 <= r < 4.0
  {
    u * 3.0 + 1.0
  }

  /** `Math.random() * Math.PI * 2`: the emission direction. */
  function EmitAngle(u: Draw): (r: real)
    ensures 0.0 <= r < 2.0 * PI
  {
    u * PI * 2.0
  }

  /** The particle emitted `i`-th by a burst: it draws an angle, a speed and a size, in that order. */
  function Spark(position: Vec, color: string, dir: Heading, rand: Draws, i: nat): ParticleState
  {
    ParticleState(position, Scale(dir(EmitAngle(rand(3 * i))), EmitSpeed(rand(3 * i + 1))),
                  1.0, color, EmitSize(rand(3 * i + 2)))
  }

  /** The particles `emit(position, count, color)` appends: `count` of them (none for a
      negative count), all at `position`, full life, the given colour, size in [1, 4). */
  function Burst(position: Vec, count: int, color: string, dir: Heading, rand: Draws): (r: seq<ParticleState>)
    ensures |r| == if count < 0 then 0 else count
    ensures forall i :: 0 <= i < |r| ==> r[i] == Spark(position, color, dir, rand, i)
    ensures forall q :: q in r ==> q.position == position && q.life == 1.0 && q.color == color && 1.0 <= q.size < 4.0
  {
    if count <= 0 then [] else seq(count, i requires 0 <= i < count => Spark(position, color, dir, rand, i))
  }

  class Particle {
    var position: Vec
    var velocity: Vec
    var life: real
    const color: string
    const size: real

    function State(): ParticleState
      reads this
    {
      ParticleState(position, velocity, life, color, size)
    }

    constructor (position: Vec, velocity: Vec, color: string, sizeDraw: Draw)
      ensures State() == ParticleState(position, velocity, 1.0, color, EmitSize(sizeDraw))
    {
      this.position := position;
      this.velocity := velocity;
      this.life := 1.0;
      this.color := color;
      this.size := sizeDraw * 3.0 + 1.0;
    }

    method Update(dt: real)
      modifies this
      ensures State() == ParticleStep(old(State()), dt)
    {
      position := Add(position, Scale(velocity, dt));
      life := life - dt * DECAY_RATE;
    }
  }

  /** The states of a sequence of particles, in order. */
  function StatesOf(ps: seq<Particle>): (r: seq<ParticleState>)
    reads ps
  {
    seq(|ps|, i requires 0 <= i < |ps| reads ps => ps[i].State())
  }

  /** Appending an object appends its state. */
  lemma StatesOfSnoc(ps: seq<Particle>, p: Particle)
    ensures StatesOf(ps + [p]) == StatesOf(ps) + [p.State()]
  {
    assert forall k :: 0 <= k < |ps| ==> (ps + [p])[k] == ps[k];
  }

  /** `particles.filter(p => p.life > 0)` on the objects themselves. */
  function LiveParticles(ps: seq<Particle>): (r: seq<Particle>)
    reads ps
    ensures |r| <= |ps|
    ensures forall p | p in r :: p in ps
    ensures forall p | p in ps :: p in r <==> p.life > 0.0
  {
    if ps == [] then []
    else if ps[0].life > 0.0 then [ps[0]] + LiveParticles(ps[1..])
    else LiveParticles(ps[1..])
  }

  /** Filtering the objects filters their states the same way. */
  lemma {:induction false} LiveParticleStates(ps: seq<Particle>)
    ensures StatesOf(LiveParticles(ps)) == Filter(StatesOf(ps), IsLive)
    decreases |ps|
  {
    if ps != [] {
      LiveParticleStates(ps[1..]);
      assert StatesOf(ps)[1..] == StatesOf(ps[1..]);
      var rest := LiveParticles(ps[1..]);
      if ps[0].life > 0.0 {
        assert StatesOf([ps[0]] + rest) == [ps[0].State()] + StatesOf(rest);
      }
    }
  }

  /** Filtering never duplicates a particle. */
  lemma {:induction false} LiveParticlesDistinct(ps: seq<Particle>)
    requires Distinct(ps)
    ensures Distinct(LiveParticles(ps))
    decreases |ps|
  {
    if ps != [] {
      assert Distinct(ps[1..]);
      LiveParticlesDistinct(ps[1..]);
      assert ps[0] !in ps[1..];
    }
  }

  class ParticleSystem {
    var particles: seq<Particle>

    /** Each particle object is held once, so updating one leaves the others alone. */
    ghost predicate Valid()
      reads this
    {
      Distinct(particles)
    }

    function States(): seq<ParticleState>
      reads this, particles
    {
      StatesOf(particles)
    }

    constructor ()
      ensures Valid() && particles == []
    {
      particles := [];
    }

    /** `update`: the spent particles are dropped, then every remaining one moves and fades. */
    method Update(dt: real)
      requires Valid()
      modifies this, particles
      ensures Valid()
      ensures States() == SystemStep(old(States()), dt)
      ensures forall p :: p in particles ==> p in old(particles)
    {
      LiveParticleStates(particles);
      LiveParticlesDistinct(particles);
      particles := LiveParticles(particles);
      assert forall k :: 0 <= k < |particles| ==> particles[k] in old(particles);
      StepEach(particles, dt);
    }

    /** `this.particles.forEach(p => p.update(dt))`: each particle takes one step, in place. */
    static method StepEach(ps: seq<Particle>, dt: real)
      requires Distinct(ps)
      modifies ps
      ensures StatesOf(ps) == StepAll(old(StatesOf(ps)), dt)
    {
      ghost var before := StatesOf(ps);
      var i := 0;
      while i < |ps|
        invariant 0 <= i <= |ps|
        invariant forall k :: 0 <= k < i ==> ps[k].State() == ParticleStep(before[k], dt)
        invariant forall k :: i <= k < |ps| ==> ps[k].State() == before[k]
      {
        var p := ps[i];
        assert forall k :: 0 <= k < |ps| && k != i ==> ps[k] != p;
        p.Update(dt);
        i := i + 1;
      }
    }

    method Emit(position: Vec, count: int, color: string, dir: Heading, rand: Draws)
      requires Valid()
      modifies this
      ensures Valid()
      ensures States() == old(States()) + Burst(position, count, color, dir, rand)
      ensures forall p :: p in particles ==> p in old(particles) || fresh(p)
    {
      ghost var burst := Burst(position, count, color, dir, rand);
      var i := 0;
      while i < count
        invariant 0 <= i <= |burst|
        invariant Valid()
        invariant States() == old(States()) + burst[..i]
        invariant forall p :: p in particles ==> p in old(particles) || fresh(p)
      {
        var angle := rand(3 * i) * PI * 2.0;
        var speed := rand(3 * i + 1) * SPEED_SPAN + SPEED_MIN;
        var velocity := Vec(dir(angle).x * speed, dir(angle).y * speed);
        var p := new Particle(position, velocity, color, rand(3 * i + 2));
        assert p.State() == burst[i];
        assert burst[..i + 1] == burst[..i] + [burst[i]];
        StatesOfSnoc(particles, p);
        particles := particles + [p];
        i := i + 1;
      }
      assert burst[..i] == burst;
    }
  }
}
