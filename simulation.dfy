/** One frame of the game and the engine object that runs it: steering and
    thrust from the controls, the fire cooldown, bullet expiry, target drift,
    the particle pool and the collision pass that turns hits into sparks and
    visited links. `Frame` is the whole frame as a function of the world;
    `GameEngine.Update` is proved to compute it on the objects. */
module Simulation {
  import opened Vectors
  import opened Seqs
  import opened Entities
  import opened Particles
  import opened Input

  const COOLDOWN: real := 250.0
  const MUZZLE_OFFSET: real := 20.0
  const BURST_SIZE: int := 20
  const BURST_COLOR: string := "white"
  /** Random values one burst consumes: an angle, a speed and a size per particle. */
  const DRAWS_PER_BURST: nat := 60

  // ---------------------------------------------------------------- collisions

  /** `distance < target.radius + bullet.radius`, compared on squares: both sides are
      non-negative, so this is the same test without the square root. A bullet at a target's
      centre hits it, and a hit is within 29 of the centre along each axis. */
  predicate Overlaps(b: BulletState, t: TargetState): (r: bool)
    ensures b.position == t.position ==> r
    ensures r ==> -29.0 < b.position.x - t.position.x < 29.0 && -29.0 < b.position.y - t.position.y < 29.0
  {
    var reach := TARGET_RADIUS + BULLET_RADIUS;
    if DistSq(b.position, t.position) < reach * reach then NearOnAxes(b.position, t.position, reach); true else false
  }

  /** The inner scan of `checkCollisions`: targets are tried from the last one down and the
      first overlap stops the scan, so the hit is the highest overlapping index, or -1. */
  function LastOverlap(b: BulletState, ts: seq<TargetState>): (j: int)
    ensures -1 <= j < |ts|
    ensures 0 <= j ==> Overlaps(b, ts[j]) && forall k :: j < k < |ts| ==> !Overlaps(b, ts[k])
    ensures j == -1 <==> forall k :: 0 <= k < |ts| ==> !Overlaps(b, ts[k])
    decreases |ts|
  {
    if ts == [] then -1
    else if Overlaps(b, ts[|ts| - 1]) then |ts| - 1
    else LastOverlap(b, ts[..|ts| - 1])
  }

  /** What the collision pass leaves: the bullets that hit nothing, and the target each
      removed bullet hit, in the order the pass meets them. */
  datatype Collision = Collision(survivors: seq<BulletState>, hits: seq<TargetState>)

  /** The collision pass over bullets `bs` and targets `ts`. The pass walks the bullets from the
      last one down, so the hits of later bullets come first. */
  function Collide(bs: seq<BulletState>, ts: seq<TargetState>): (r: Collision)
    ensures |r.survivors| + |r.hits| == |bs|
    ensures forall t :: t in r.hits ==> t in ts
    decreases |bs|
  {
    if bs == [] then Collision([], [])
    else
      var rest := Collide(bs[1..], ts);
      var j := LastOverlap(bs[0], ts);
      if 0 <= j then Collision(rest.survivors, rest.hits + [ts[j]])
      else Collision([bs[0]] + rest.survivors, rest.hits)
  }

  /** The filter predicate of the survivors: no target overlaps the bullet. */
  function Misses(ts: seq<TargetState>): BulletState -> bool
  {
    b => LastOverlap(b, ts) == -1
  }

  /** The pass keeps exactly the bullets that overlap no target, in their original order. */
  lemma {:induction false} CollideSurvivors(bs: seq<BulletState>, ts: seq<TargetState>)
    ensures Collide(bs, ts).survivors == Filter(bs, Misses(ts))
    decreases |bs|
  {
    if bs != [] {
      CollideSurvivors(bs[1..], ts);
    }
  }

  /** A bullet is removed by the pass if and only if some target overlaps it. */
  lemma SurvivesIffMisses(bs: seq<BulletState>, ts: seq<TargetState>, b: BulletState)
    requires b in bs
    ensures b in Collide(bs, ts).survivors <==> forall k :: 0 <= k < |ts| ==> !Overlaps(b, ts[k])
  {
    CollideSurvivors(bs, ts);
    FilterMembers(bs, Misses(ts));
  }

  /** Each hit is the target the removed bullet overlaps. */
  lemma {:induction false} HitsOverlap(bs: seq<BulletState>, ts: seq<TargetState>, m: nat)
    requires m < |Collide(bs, ts).hits|
    ensures exists b :: b in bs && Overlaps(b, Collide(bs, ts).hits[m])
    decreases |bs|
  {
    var rest := Collide(bs[1..], ts);
    if m < |rest.hits| {
      HitsOverlap(bs[1..], ts, m);
      var b :| b in bs[1..] && Overlaps(b, rest.hits[m]);
      assert b in bs;
    } else {
      assert Overlaps(bs[0], Collide(bs, ts).hits[m]);
    }
  }

  /** The links `window.open` receives, one per hit, in order. */
  function Urls(hits: seq<TargetState>): (r: seq<string>)
  {
    seq(|hits|, k requires 0 <= k < |hits| => hits[k].url)
  }

  /** The sparks of the collision pass: one white burst of 20 at each hit target, the m-th
      burst using the random values after the 60 each earlier burst consumed. */
  function Bursts(hits: seq<TargetState>, dir: Heading, rand: Draws): (r: seq<ParticleState>)
    ensures |r| == BURST_SIZE * |hits|
    ensures forall m, i :: 0 <= m < |hits| && 0 <= i < BURST_SIZE ==>
              r[BURST_SIZE * m + i] == Spark(hits[m].position, BURST_COLOR, dir, Shifted(rand, DRAWS_PER_BURST * m), i)
    decreases |hits|
  {
    if hits == [] then []
    else
      var n := |hits| - 1;
      Bursts(hits[..n], dir, rand) + Burst(hits[n].position, BURST_SIZE, BURST_COLOR, dir, Shifted(rand, DRAWS_PER_BURST * n))
  }

  /** Every spark of the pass is a fresh white particle at a hit target's position. */
  lemma {:induction false} BurstsAtHits(hits: seq<TargetState>, dir: Heading, rand: Draws, q: ParticleState)
    requires q in Bursts(hits, dir, rand)
    ensures q.life == 1.0 && q.color == BURST_COLOR && 1.0 <= q.size < 4.0
    ensures exists m :: 0 <= m < |hits| && q.position == hits[m].position
    decreases |hits|
  {
    var n := |hits| - 1;
    var last := Burst(hits[n].position, BURST_SIZE, BURST_COLOR, dir, Shifted(rand, DRAWS_PER_BURST * n));
    if q in Bursts(hits[..n], dir, rand) {
      BurstsAtHits(hits[..n], dir, rand, q);
      var m :| 0 <= m < n && q.position == hits[..n][m].position;
      assert q.position == hits[m].position;
    } else {
      assert q in last;
    }
  }

  // ---------------------------------------------------------------- the frame

  /** The simulated part of the game: everything `update` reads or writes, and the links visited so far. */
  datatype World = World(player: PlayerState, bullets: seq<BulletState>, targets: seq<TargetState>,
                         particles: seq<ParticleState>, visited: seq<string>)

  /** The steering step: the ship turns at the requested rate and takes the thrust flag. */
  function Steered(p: PlayerState, intent: Intent, dt: real): PlayerState
  {
    p.(rotation := p.rotation + intent.rotation * dt, thrust := intent.thrust)
  }

  /** The fire rule: the trigger is down and strictly more than 250 ms passed since the last shot. */
  predicate Fires(trigger: bool, now: real, lastShot: real)
  {
    trigger && now - lastShot > COOLDOWN
  }

  /** Where a shot leaves the ship: 20 units ahead along the heading. */
  function Muzzle(p: PlayerState, dir: Heading): Vec
  {
    Add(p.position, Scale(dir(p.rotation), MUZZLE_OFFSET))
  }

  /** The ship and the bullet list after the fire step. */
  datatype Armed = Armed(player: PlayerState, bullets: seq<BulletState>)

  /** The fire step: at most one bullet is appended, from the muzzle along the ship's rotation,
      and the shot time is recorded; nothing else about the ship changes. */
  function Trigger(p: PlayerState, bs: seq<BulletState>, trigger: bool, now: real, dir: Heading): (r: Armed)
    ensures Fires(trigger, now, p.lastShot) ==>
              r.bullets == bs + [NewBullet(Muzzle(p, dir), p.rotation, dir)] && r.player == p.(lastShot := now)
    ensures !Fires(trigger, now, p.lastShot) ==> r == Armed(p, bs)
    ensures |r.bullets| == |bs| + (if Fires(trigger, now, p.lastShot) then 1 else 0)
  {
    if Fires(trigger, now, p.lastShot) then
      Armed(p.(lastShot := now), bs + [NewBullet(Muzzle(p, dir), p.rotation, dir)])
    else Armed(p, bs)
  }

  /** The bullet step: drop the spent bullets, then move the rest. */
  function Refresh(bs: seq<BulletState>, dt: real): (r: seq<BulletState>)
    ensures |r| <= |bs|
  {
    BulletsStep(Filter(bs, BulletAlive), dt)
  }

  /** A bullet fired this frame has its full lifetime, so it is always kept and moved once,
      behind the bullets already in flight. */
  lemma FreshShotMoves(bs: seq<BulletState>, shot: BulletState, dt: real)
    requires shot.lifetime == BULLET_LIFETIME
    ensures Refresh(bs + [shot], dt) == Refresh(bs, dt) + [BulletStep(shot, dt)]
  {
    FilterAppend(bs, [shot], BulletAlive);
    assert Filter([shot], BulletAlive) == [shot] + Filter([], BulletAlive);
  }

  /** The engine filters before it steps, so every bullet alive on entry is moved and stays in
      the list the frame's collision pass scans, even when this step uses up its lifetime; only
      the next frame's filter drops it. */
  lemma BulletLingers(bs: seq<BulletState>, b: BulletState, dt: real)
    requires b in bs && BulletAlive(b)
    ensures BulletStep(b, dt) in Refresh(bs, dt)
    ensures b.lifetime <= dt ==> BulletStep(b, dt) !in Filter(Refresh(bs, dt), BulletAlive)
  {
    var live := Filter(bs, BulletAlive);
    FilterMembers(bs, BulletAlive);
    FilterMembers(Refresh(bs, dt), BulletAlive);
    assert b in live;
    var k :| 0 <= k < |live| && live[k] == b;
    assert Refresh(bs, dt)[k] == BulletStep(b, dt);
  }

  /** Only bullets alive on entry come out of the bullet step, each moved once. */
  lemma BulletsOnlyLiveSurvive(bs: seq<BulletState>, dt: real, x: BulletState)
    requires x in Refresh(bs, dt)
    ensures exists b :: b in bs && BulletAlive(b) && x == BulletStep(b, dt)
  {
    var live := Filter(bs, BulletAlive);
    FilterMembers(bs, BulletAlive);
    var k :| 0 <= k < |live| && Refresh(bs, dt)[k] == x;
    assert live[k] in live;
  }

  /** The ship step of `update`: steer from the controls, then `player.update`. */
  function Steer(w: World, intent: Intent, dt: real, dir: Heading, width: real, height: real): World
  {
    w.(player := PlayerStep(Steered(w.player, intent, dt), dt, dir, width, height))
  }

  /** The fire step of `update`, on the world. */
  function Shoot(w: World, trigger: bool, now: real, dir: Heading): World
  {
    var a := Trigger(w.player, w.bullets, trigger, now, dir);
    w.(player := a.player, bullets := a.bullets)
  }

  /** The bullet step of `update`, on the world. */
  function MoveBullets(w: World, dt: real): World
  {
    w.(bullets := Refresh(w.bullets, dt))
  }

  /** The target step of `update`, on the world. */
  function MoveTargets(w: World, dt: real, width: real, height: real): World
  {
    w.(targets := TargetsStep(w.targets, dt, width, height))
  }

  /** The particle step of `update`, on the world. */
  function Fade(w: World, dt: real): World
  {
    w.(particles := SystemStep(w.particles, dt))
  }

  /** The collision pass of `update`, on the world: the survivors stay, and each hit adds a burst
      and a visited link. */
  function Collisions(w: World, dir: Heading, rand: Draws): (r: World)
    ensures r.player == w.player && r.targets == w.targets
    ensures |r.bullets| + (|r.visited| - |w.visited|) == |w.bullets|
    ensures |w.visited| <= |r.visited| && r.visited[..|w.visited|] == w.visited
    ensures |w.particles| <= |r.particles| && r.particles[..|w.particles|] == w.particles
    ensures |r.particles| == |w.particles| + BURST_SIZE * (|r.visited| - |w.visited|)
  {
    var c := Collide(w.bullets, w.targets);
    w.(bullets := c.survivors, particles := w.particles + Bursts(c.hits, dir, rand), visited := w.visited + Urls(c.hits))
  }

  /** `GameEngine.update` on the world: steer, move the ship, fire, refresh the bullets, move the
      targets, update the particle pool, then the collision pass. The ship turns by exactly the
      requested rate times the step and takes the requested thrust, the shot time moves only when
      the cooldown allows a shot, the targets only drift and spin, and the visited links only grow. */
  function Frame(w: World, intent: Intent, now: real, dt: real, dir: Heading,
                 width: real, height: real, rand: Draws): (r: World)
    ensures r.player.rotation == w.player.rotation + intent.rotation * dt && r.player.thrust == intent.thrust
    ensures r.player.lastShot == if Fires(intent.trigger, now, w.player.lastShot) then now else w.player.lastShot
    ensures r.targets == TargetsStep(w.targets, dt, width, height)
    ensures |w.visited| <= |r.visited| && r.visited[..|w.visited|] == w.visited
  {
    var armed := Shoot(Steer(w, intent, dt, dir, width, height), intent.trigger, now, dir);
    Collisions(Fade(MoveTargets(MoveBullets(armed, dt), dt, width, height), dt), dir, rand)
  }

  /** What one frame does to the ship, the bullet count, the targets and the sparks: the ship
      stays in the field, the bullet list grows by at most the one shot the cooldown allows, the
      targets keep their number, kinds and urls, and the frame appends 20 sparks per link it
      visits behind the surviving particles. */
  lemma FrameEffects(w: World, intent: Intent, now: real, dt: real, dir: Heading,
                     width: real, height: real, rand: Draws)
    ensures var r := Frame(w, intent, now, dt, dir, width, height, rand);
            var fires := Fires(intent.trigger, now, w.player.lastShot);
            (0.0 <= width ==> 0.0 <= r.player.position.x <= width) &&
            (0.0 <= height ==> 0.0 <= r.player.position.y <= height) &&
            |r.bullets| <= |w.bullets| + (if fires then 1 else 0)
    ensures var r := Frame(w, intent, now, dt, dir, width, height, rand);
            |r.targets| == |w.targets| &&
            forall i :: 0 <= i < |w.targets| ==> r.targets[i].kind == w.targets[i].kind && r.targets[i].url == w.targets[i].url
    ensures var r := Frame(w, intent, now, dt, dir, width, height, rand);
            var kept := SystemStep(w.particles, dt);
            |kept| <= |r.particles| && r.particles[..|kept|] == kept &&
            |r.particles| - |kept| == BURST_SIZE * (|r.visited| - |w.visited|)
  {
    var r := Frame(w, intent, now, dt, dir, width, height, rand);
    var kept := SystemStep(w.particles, dt);
    var p := PlayerStep(Steered(w.player, intent, dt), dt, dir, width, height);
    var armed := Trigger(p, w.bullets, intent.trigger, now, dir);
    var c := Collide(Refresh(armed.bullets, dt), TargetsStep(w.targets, dt, width, height));
    assert r.particles == kept + Bursts(c.hits, dir, rand);
    assert r.particles[..|kept|] == kept;
  }

  /** Every bullet the collision pass removes opens exactly one link, and that link is the url
      of one of the targets. */
  lemma FrameHits(w: World, intent: Intent, now: real, dt: real, dir: Heading,
                  width: real, height: real, rand: Draws)
    ensures var r := Frame(w, intent, now, dt, dir, width, height, rand);
            var flying := Refresh(Trigger(PlayerStep(Steered(w.player, intent, dt), dt, dir, width, height),
                                          w.bullets, intent.trigger, now, dir).bullets, dt);
            |r.bullets| + (|r.visited| - |w.visited|) == |flying| &&
            forall m :: |w.visited| <= m < |r.visited| ==>
              exists k :: 0 <= k < |w.targets| && r.visited[m] == w.targets[k].url
  {
    var r := Frame(w, intent, now, dt, dir, width, height, rand);
    var flying := Refresh(Trigger(PlayerStep(Steered(w.player, intent, dt), dt, dir, width, height),
                                  w.bullets, intent.trigger, now, dir).bullets, dt);
    var ts := TargetsStep(w.targets, dt, width, height);
    var c := Collide(flying, ts);
    assert r.visited == w.visited + Urls(c.hits);
    HitUrls(c.hits, w.targets, dt, width, height);
    forall m | |w.visited| <= m < |r.visited|
      ensures exists k :: 0 <= k < |w.targets| && r.visited[m] == w.targets[k].url
    {
      assert r.visited[m] == c.hits[m - |w.visited|].url && c.hits[m - |w.visited|] in c.hits;
    }
  }

  /** A target hit after the targets moved carries the url of one of the targets before the move. */
  lemma HitUrls(hits: seq<TargetState>, ts: seq<TargetState>, dt: real, width: real, height: real)
    requires forall t :: t in hits ==> t in TargetsStep(ts, dt, width, height)
    ensures forall t :: t in hits ==> exists k :: 0 <= k < |ts| && t.url == ts[k].url
  {
    var moved := TargetsStep(ts, dt, width, height);
    forall t | t in hits
      ensures exists k :: 0 <= k < |ts| && t.url == ts[k].url
    {
      var k :| 0 <= k < |moved| && moved[k] == t;
      assert t.url == ts[k].url;
    }
  }

  // ---------------------------------------------------------------- the cooldown over many frames

  /** What the fire rule sees in one frame: the frame time and the trigger. */
  datatype Tick = Tick(now: real, trigger: bool)

  /** The times at which shots are fired over a series of frames, starting from the last shot `last`. */
  function ShotTimes(last: real, ticks: seq<Tick>): seq<real>
    decreases |ticks|
  {
    if ticks == [] then []
    else if Fires(ticks[0].trigger, ticks[0].now, last) then [ticks[0].now] + ShotTimes(ticks[0].now, ticks[1..])
    else ShotTimes(last, ticks[1..])
  }

  /** The cooldown: each shot comes more than 250 ms after the one before it (and after `last`),
      whatever the frame times are. */
  lemma {:induction false} ShotsSpaced(last: real, ticks: seq<Tick>)
    ensures var r := ShotTimes(last, ticks);
            (|r| > 0 ==> r[0] - last > COOLDOWN) && forall k :: 0 < k < |r| ==> r[k] - r[k - 1] > COOLDOWN
    decreases |ticks|
  {
    if ticks != [] {
      if Fires(ticks[0].trigger, ticks[0].now, last) {
        ShotsSpaced(ticks[0].now, ticks[1..]);
      } else {
        ShotsSpaced(last, ticks[1..]);
      }
    }
  }

  /** The rate limit: n shots take more than 250·n ms after the last earlier shot. */
  lemma {:induction false} ShotBudget(last: real, ticks: seq<Tick>)
    ensures var r := ShotTimes(last, ticks);
            |r| > 0 ==> COOLDOWN * |r| as real < r[|r| - 1] - last
    decreases |ticks|
  {
    if ticks != [] {
      if Fires(ticks[0].trigger, ticks[0].now, last) {
        ShotBudget(ticks[0].now, ticks[1..]);
      } else {
        ShotBudget(last, ticks[1..]);
      }
    }
  }

  /** One frame's inputs: the controls' intent, the frame time, the step and the random values. */
  datatype Moment = Moment(intent: Intent, now: real, dt: real, rand: Draws)

  /** The world after a series of frames. */
  function Play(w: World, ms: seq<Moment>, dir: Heading, width: real, height: real): World
    decreases |ms|
  {
    if ms == [] then w
    else Play(Frame(w, ms[0].intent, ms[0].now, ms[0].dt, dir, width, height, ms[0].rand), ms[1..], dir, width, height)
  }

  function Ticks(ms: seq<Moment>): (r: seq<Tick>)
  {
    seq(|ms|, k requires 0 <= k < |ms| => Tick(ms[k].now, ms[k].intent.trigger))
  }

  /** The most recent shot time, or `last` when no shot was fired. */
  function Latest(last: real, shots: seq<real>): real
  {
    if shots == [] then last else shots[|shots| - 1]
  }

  /** Over any series of frames the ship's `lastShot` is the time of the latest shot `ShotTimes`
      lists, so the cooldown lemmas describe the frames the game runs. */
  lemma {:induction false} PlayLastShot(w: World, ms: seq<Moment>, dir: Heading, width: real, height: real)
    ensures Play(w, ms, dir, width, height).player.lastShot
            == Latest(w.player.lastShot, ShotTimes(w.player.lastShot, Ticks(ms)))
    decreases |ms|
  {
    if ms != [] {
      var m := ms[0];
      var w' := Frame(w, m.intent, m.now, m.dt, dir, width, height, m.rand);
      PlayLastShot(w', ms[1..], dir, width, height);
      assert Ticks(ms)[1..] == Ticks(ms[1..]);
      var rest := ShotTimes(w'.player.lastShot, Ticks(ms[1..]));
      if Fires(m.intent.trigger, m.now, w.player.lastShot) {
        assert ShotTimes(w.player.lastShot, Ticks(ms)) == [m.now] + rest;
      } else {
        assert ShotTimes(w.player.lastShot, Ticks(ms)) == rest;
      }
    }
  }

  /** One frame more is one `Frame` more, applied last. */
  lemma {:induction false} PlaySnoc(w: World, ms: seq<Moment>, m: Moment, dir: Heading, width: real, height: real)
    ensures Play(w, ms + [m], dir, width, height)
            == Frame(Play(w, ms, dir, width, height), m.intent, m.now, m.dt, dir, width, height, m.rand)
    decreases |ms|
  {
    if ms == [] {
      assert ([] + [m])[1..] == [];
    } else {
      assert (ms + [m])[0] == ms[0] && (ms + [m])[1..] == ms[1..] + [m];
      PlaySnoc(Frame(w, ms[0].intent, ms[0].now, ms[0].dt, dir, width, height, ms[0].rand), ms[1..], m, dir, width, height);
    }
  }

  // ---------------------------------------------------------------- the engine

  /** One configured social link: its kind and its url. */
  datatype Link = Link(kind: string, url: string)

  /** The target made for the `i`-th link, from the five random values starting at 5·i. */
  function Spawned(link: Link, w: real, h: real, rand: Draws, i: nat): TargetState
  {
    SpawnTarget(link.kind, link.url, w, h, rand(5 * i), rand(5 * i + 1), rand(5 * i + 2), rand(5 * i + 3), rand(5 * i + 4))
  }

  /** The targets the engine starts with: one per link, in order, the i-th spawned from the
      i-th link. */
  function InitialTargets(links: seq<Link>, w: real, h: real, rand: Draws): (r: seq<TargetState>)
    ensures |r| == |links|
    ensures forall i :: 0 <= i < |links| ==> r[i] == Spawned(links[i], w, h, rand, i)
    decreases |links|
  {
    if links == [] then []
    else
      var n := |links| - 1;
      InitialTargets(links[..n], w, h, rand) + [Spawned(links[n], w, h, rand, n)]
  }

  /** Each starting target carries its link's kind and url and sits inside the field. */
  lemma InitialTargetsInField(links: seq<Link>, w: real, h: real, rand: Draws)
    ensures forall i :: 0 <= i < |links| ==>
              InitialTargets(links, w, h, rand)[i].kind == links[i].kind &&
              InitialTargets(links, w, h, rand)[i].url == links[i].url
    ensures 0.0 <= w && 0.0 <= h ==>
              forall i :: 0 <= i < |links| ==>
                0.0 <= InitialTargets(links, w, h, rand)[i].position.x <= w &&
                0.0 <= InitialTargets(links, w, h, rand)[i].position.y <= h
  {
    var r := InitialTargets(links, w, h, rand);
    forall i | 0 <= i < |links|
      ensures r[i].kind == links[i].kind && r[i].url == links[i].url
      ensures 0.0 <= w && 0.0 <= h ==> 0.0 <= r[i].position.x <= w && 0.0 <= r[i].position.y <= h
    {
      assert r[i] == Spawned(links[i], w, h, rand, i);
    }
  }

  /** The target objects made for one more link: their states are the starting targets of the
      links so far. */
  lemma InitialTargetsSnoc(links: seq<Link>, w: real, h: real, rand: Draws, i: nat,
                           ts: seq<SocialTarget>, t: SocialTarget)
    requires i < |links| && TargetStates(ts) == InitialTargets(links[..i], w, h, rand)
    requires t.State() == Spawned(links[i], w, h, rand, i)
    ensures TargetStates(ts + [t]) == InitialTargets(links[..i + 1], w, h, rand)
  {
    assert links[..i + 1][..i] == links[..i];
    TargetStatesSnoc(ts, t);
  }

  /** Peeling one bullet off the front of a suffix, as the collision pass does when it walks
      down to index `i`. */
  lemma CollideAt(bs: seq<BulletState>, ts: seq<TargetState>, i: nat)
    requires i < |bs|
    ensures var rest := Collide(bs[i + 1..], ts);
            var j := LastOverlap(bs[i], ts);
            Collide(bs[i..], ts).survivors == (if 0 <= j then rest.survivors else [bs[i]] + rest.survivors) &&
            Collide(bs[i..], ts).hits == (if 0 <= j then rest.hits + [ts[j]] else rest.hits)
  {
    assert bs[i..][1..] == bs[i + 1..];
  }

  /** One more hit visits one more url, after the ones before it. */
  lemma UrlsSnoc(hits: seq<TargetState>, t: TargetState)
    ensures Urls(hits + [t]) == Urls(hits) + [t.url]
  {
  }

  /** One more hit appends one more burst, drawn after the ones before it. */
  lemma BurstsSnoc(hits: seq<TargetState>, t: TargetState, dir: Heading, rand: Draws)
    ensures Bursts(hits + [t], dir, rand)
            == Bursts(hits, dir, rand) + Burst(t.position, BURST_SIZE, BURST_COLOR, dir, Shifted(rand, DRAWS_PER_BURST * |hits|))
  {
    assert (hits + [t])[..|hits|] == hits;
  }
  /** One step of the collision pass on a bullet that overlaps target `hit`: the bullet is
      dropped from the sequence and the pass covers one more bullet. */
  lemma StepHit(bs: seq<BulletState>, ts: seq<TargetState>, i: nat, kept: seq<BulletState>,
                hits: seq<TargetState>, hit: nat)
    requires i < |bs| && hit < |ts| && hit == LastOverlap(bs[i], ts)
    requires kept == Collide(bs[i + 1..], ts).survivors && hits == Collide(bs[i + 1..], ts).hits
    ensures kept == Collide(bs[i..], ts).survivors && hits + [ts[hit]] == Collide(bs[i..], ts).hits
    ensures (bs[..i + 1] + kept)[..i] + (bs[..i + 1] + kept)[i + 1..] == bs[..i] + kept
  {
    CollideAt(bs, ts, i);
    assert bs[..i + 1][..i] == bs[..i];
    SplitLast(bs[..i + 1], kept);
  }

  /** One more hit, seen from the particle pool and the visited links: its burst and its url
      follow those of the earlier hits. */
  lemma HitEffects(hits: seq<TargetState>, t: TargetState, q0: seq<ParticleState>, o0: seq<string>,
                   dir: Heading, rand: Draws)
    ensures (q0 + Bursts(hits, dir, rand))
              + Burst(t.position, BURST_SIZE, BURST_COLOR, dir, Shifted(rand, DRAWS_PER_BURST * |hits|))
            == q0 + Bursts(hits + [t], dir, rand)
    ensures (o0 + Urls(hits)) + [t.url] == o0 + Urls(hits + [t])
  {
    BurstsSnoc(hits, t, dir, rand);
    AppendAssoc(q0, Bursts(hits, dir, rand),
                Burst(t.position, BURST_SIZE, BURST_COLOR, dir, Shifted(rand, DRAWS_PER_BURST * |hits|)));
    UrlsSnoc(hits, t);
    AppendAssoc(o0, Urls(hits), [t.url]);
  }

  /** One step of the collision pass on a bullet that overlaps no target: it stays, in front of
      the survivors after it. */
  lemma StepMiss(bs: seq<BulletState>, ts: seq<TargetState>, i: nat, kept: seq<BulletState>,
                 hits: seq<TargetState>)
    requires i < |bs| && LastOverlap(bs[i], ts) < 0
    requires kept == Collide(bs[i + 1..], ts).survivors && hits == Collide(bs[i + 1..], ts).hits
    ensures [bs[i]] + kept == Collide(bs[i..], ts).survivors && hits == Collide(bs[i..], ts).hits
    ensures bs[..i + 1] + kept == bs[..i] + ([bs[i]] + kept)
  {
    CollideAt(bs, ts, i);
    assert bs[..i + 1][..i] == bs[..i];
    SplitLast(bs[..i + 1], kept);
  }


  /** The seconds between two frame timestamps given in milliseconds. */
  function Elapsed(time: real, last: real): (r: real)
    ensures last <= time ==> 0.0 <= r
    ensures r * 1000.0 == time - last
  {
    (time - last) / 1000.0
  }

  class GameEngine {
    const controls: Controls
    const player: Player
    var bullets: seq<Bullet>
    var targets: seq<SocialTarget>
    const particles: ParticleSystem
    var lastTime: real
    var currentTime: real
    var running: bool
    /** The urls handed to `window.open`, in order. */
    ghost var visited: seq<string>
    /** How many `requestAnimationFrame` callbacks have been requested. */
    ghost var scheduled: nat

    /** No bullet, target or particle object is listed twice. */
    ghost predicate Valid()
      reads this`bullets, this`targets, particles
    {
      Distinct(bullets) && Distinct(targets) && particles.Valid()
    }

    /** The simulated state as a value. */
    ghost function Snapshot(): World
      reads this`bullets, this`targets, this`visited, player, bullets, targets, particles, particles.particles
    {
      World(player.State(), BulletStates(bullets), TargetStates(targets), particles.States(), visited)
    }

    /** A stopped engine with a ship at the centre, no bullets, no sparks, and one target per link. */
    constructor (w: real, h: real, links: seq<Link>, rand: Draws)
      ensures Valid() && !running && lastTime == 0.0 && currentTime == 0.0
      ensures visited == [] && scheduled == 0
      ensures controls.Buttons() == ButtonLayout(w, h) && controls.keys == map[]
      ensures !controls.isShooting && !controls.thrustButton && !controls.isLeft && !controls.isRight
      ensures player.State() == PlayerState(Vec(w / 2.0, h / 2.0), Vec(0.0, 0.0), 0.0, false, false, 0.0)
      ensures bullets == [] && particles.States() == []
      ensures TargetStates(targets) == InitialTargets(links, w, h, rand)
      ensures fresh(controls) && fresh(player) && fresh(particles) && particles.particles == []
      ensures forall t :: t in targets ==> fresh(t)
      ensures fresh(set t | t in targets)
    {
      var ts := InitializeSocialTargets(links, w, h, rand);
      controls := new Controls(w, h);
      player := new Player(w, h);
      bullets := [];
      targets := ts;
      particles := new ParticleSystem();
      lastTime := 0.0;
      currentTime := 0.0;
      running := false;
      visited := [];
      scheduled := 0;
    }

    /** `initializeSocialTargets`: one new target per link, in the order of the links. */
    static method InitializeSocialTargets(links: seq<Link>, w: real, h: real, rand: Draws)
      returns (ts: seq<SocialTarget>)
      ensures Distinct(ts)
      ensures TargetStates(ts) == InitialTargets(links, w, h, rand)
      ensures forall t :: t in ts ==> fresh(t)
      ensures fresh(set t | t in ts)
    {
      var made: seq<SocialTarget> := [];
      var i := 0;
      while i < |links|
        invariant 0 <= i <= |links|
        invariant Distinct(made)
        invariant forall t :: t in made ==> fresh(t)
        invariant TargetStates(made) == InitialTargets(links[..i], w, h, rand)
      {
        ghost var before := TargetStates(made);
        var t := Spawn(links[i], w, h, rand, i);
        assert TargetStates(made) == before && t !in made;
        InitialTargetsSnoc(links, w, h, rand, i, made, t);
        DistinctSnoc(made, t);
        made := made + [t];
        i := i + 1;
      }
      assert links[..i] == links;
      ts := made;
    }

    /** `new SocialTarget(link.type, link.url)` for the `i`-th link. */
    static method Spawn(link: Link, w: real, h: real, rand: Draws, i: nat) returns (t: SocialTarget)
      ensures fresh(t) && t.State() == Spawned(link, w, h, rand, i)
    {
      t := new SocialTarget(link.kind, link.url, w, h,
                            rand(5 * i), rand(5 * i + 1), rand(5 * i + 2), rand(5 * i + 3), rand(5 * i + 4));
    }

    /** `start`: the loop runs and one frame is requested. */
    method Start()
      modifies this`running, this`scheduled
      ensures running && scheduled == old(scheduled) + 1
    {
      running := true;
      scheduled := scheduled + 1;
    }

    /** `stop`: the loop stops at its next callback; stopping twice is stopping once. */
    method Stop()
      modifies this`running
      ensures !running
    {
      running := false;
    }

    /** `gameLoop(time)`: a stopped engine changes nothing and requests no further frame; a
        running one steps by the elapsed seconds, records the time and requests the next frame. */
    method GameLoop(time: real, dir: Heading, w: real, h: real, rand: Draws)
      requires Valid()
      modifies this, player, bullets, targets, particles, particles.particles
      ensures Valid() && running == old(running)
      ensures !old(running) ==> unchanged(this) && Snapshot() == old(Snapshot())
      ensures old(running) ==> lastTime == time && currentTime == time && scheduled == old(scheduled) + 1
      ensures old(running) ==>
                Snapshot() == Frame(old(Snapshot()), old(controls.CurrentIntent()), time,
                                    Elapsed(time, old(lastTime)), dir, w, h, rand)
      ensures forall b :: b in bullets ==> b in old(bullets) || fresh(b)
      ensures forall p :: p in particles.particles ==> p in old(particles.particles) || fresh(p)
      ensures targets == old(targets)
    {
      if running {
        var dt := Elapsed(time, lastTime);
        Tick(time, dt, dir, w, h, rand, old(Snapshot()), old(controls.CurrentIntent()));
      }
    }

    /** The body of `gameLoop` on a running engine. */
    method Tick(time: real, dt: real, dir: Heading, w: real, h: real, rand: Draws, ghost w0: World, ghost intent: Intent)
      requires Valid() && running && dt == Elapsed(time, lastTime)
      requires Snapshot() == w0 && controls.CurrentIntent() == intent
      modifies this, player, bullets, targets, particles, particles.particles
      ensures Valid() && running
      ensures lastTime == time && currentTime == time && scheduled == old(scheduled) + 1
      ensures Snapshot() == Frame(w0, intent, time, dt, dir, w, h, rand)
      ensures forall b :: b in bullets ==> b in old(bullets) || fresh(b)
      ensures forall p :: p in particles.particles ==> p in old(particles.particles) || fresh(p)
      ensures targets == old(targets)
    {
      SetClock(time);
      Update(dt, dir, w, h, rand, w0, intent, time);
    }

    /** The clock half of `gameLoop`: the frame time is recorded and the next frame requested. */
    method SetClock(time: real)
      requires Valid()
      modifies this`lastTime, this`currentTime, this`scheduled
      ensures Valid()
      ensures lastTime == time && currentTime == time && scheduled == old(scheduled) + 1
      ensures Snapshot() == old(Snapshot()) && controls.CurrentIntent() == old(controls.CurrentIntent())
    {
      lastTime := time;
      currentTime := time;
      scheduled := scheduled + 1;
    }

    /** `update(dt)`: the frame, on the objects. */
    method Update(dt: real, dir: Heading, w: real, h: real, rand: Draws, ghost w0: World, ghost intent: Intent, ghost now: real)
      requires Valid() && Snapshot() == w0 && controls.CurrentIntent() == intent && currentTime == now
      modifies this`bullets, this`visited, player, bullets, targets, particles, particles.particles
      ensures Valid()
      ensures Snapshot() == Frame(w0, intent, now, dt, dir, w, h, rand)
      ensures unchanged(this`running, this`lastTime, this`currentTime, this`scheduled)
      ensures forall b :: b in bullets ==> b in old(bullets) || fresh(b)
      ensures forall p :: p in particles.particles ==> p in old(particles.particles) || fresh(p)
    {
      ghost var shot := Maneuver(dt, dir, w, h);
      Advance(dt, w, h, dir, rand);
    }

    /** The first half of `update`: the ship steers and moves, then fires if it may. */
    method Maneuver(dt: real, dir: Heading, w: real, h: real) returns (ghost shot: Bullet?)
      requires Valid()
      modifies this`bullets, player
      ensures Valid()
      ensures var intent := old(controls.CurrentIntent());
              Snapshot() == Shoot(Steer(old(Snapshot()), intent, dt, dir, w, h), intent.trigger, old(currentTime), dir)
      ensures shot == null ==> bullets == old(bullets)
      ensures shot != null ==> fresh(shot) && bullets == old(bullets) + [shot]
    {
      ghost var intent := controls.CurrentIntent();
      SteerShip(dt, dir, w, h);
      assert controls.TriggerPressed() == intent.trigger;
      shot := HandleShooting(dir);
    }

    /** The second half of `update`: bullets, targets and particles move, then the collision pass. */
    method Advance(dt: real, w: real, h: real, dir: Heading, rand: Draws)
      requires Valid()
      modifies this`bullets, this`visited, bullets, targets, particles, particles.particles
      ensures Valid()
      ensures Snapshot() == Collisions(Fade(MoveTargets(MoveBullets(old(Snapshot()), dt), dt, w, h), dt), dir, rand)
      ensures forall b :: b in bullets ==> b in old(bullets)
      ensures forall p :: p in particles.particles ==> p in old(particles.particles) || fresh(p)
    {
      UpdateBullets(dt);
      UpdateTargets(dt, w, h);
      UpdateParticles(dt);
      CheckCollisions(dir, rand);
    }

    /** The steering and movement of the ship: rotation and thrust from the controls, then `player.update`. */
    method SteerShip(dt: real, dir: Heading, w: real, h: real)
      requires Valid()
      modifies player
      ensures Valid()
      ensures Snapshot() == Steer(old(Snapshot()), old(controls.CurrentIntent()), dt, dir, w, h)
    {
      ghost var w0 := Snapshot();
      ghost var steered := Steered(player.State(), controls.CurrentIntent(), dt);
      var rotation := controls.Rotation();
      player.rotation := player.rotation + rotation * dt;
      player.thrust := controls.Thrusting();
      assert player.State() == steered;
      player.Update(dt, dir, w, h);
      assert BulletStates(bullets) == w0.bullets;
      assert TargetStates(targets) == w0.targets;
      assert particles.States() == w0.particles;
    }

    /** The fire step on the objects: a new bullet at the muzzle and the shot time recorded,
        when the trigger is down and the cooldown has run out. */
    method HandleShooting(dir: Heading) returns (ghost shot: Bullet?)
      requires Valid()
      modifies this`bullets, player
      ensures Valid()
      ensures Snapshot() == Shoot(old(Snapshot()), old(controls.TriggerPressed()), old(currentTime), dir)
      ensures shot == null ==> bullets == old(bullets)
      ensures shot != null ==> fresh(shot) && bullets == old(bullets) + [shot]
    {
      shot := null;
      if controls.TriggerPressed() && currentTime - player.lastShot > COOLDOWN {
        var bulletPos := Vec(player.position.x + dir(player.rotation).x * MUZZLE_OFFSET,
                             player.position.y + dir(player.rotation).y * MUZZLE_OFFSET);
        var b := new Bullet(bulletPos, player.rotation, dir);
        bullets := bullets + [b];
        shot := b;
        player.lastShot := currentTime;
      }
    }

    /** `bullets.filter(b => b.lifetime > 0)` then `forEach(b => b.update(dt))`. */
    method UpdateBullets(dt: real)
      requires Valid()
      modifies this`bullets, bullets
      ensures Valid()
      ensures Snapshot() == MoveBullets(old(Snapshot()), dt)
      ensures forall b :: b in bullets ==> b in old(bullets)
    {
      LiveBulletStates(bullets);
      LiveBulletsDistinct(bullets);
      bullets := LiveBullets(bullets);
      assert forall k :: 0 <= k < |bullets| ==> bullets[k] in old(bullets);
      MoveEach(bullets, dt);
    }

    /** `forEach(b => b.update(dt))` on the kept bullets: each moves and ages, in place. */
    static method MoveEach(bs: seq<Bullet>, dt: real)
      requires Distinct(bs)
      modifies bs
      ensures BulletStates(bs) == BulletsStep(old(BulletStates(bs)), dt)
    {
      ghost var before := BulletStates(bs);
      var i := 0;
      while i < |bs|
        invariant 0 <= i <= |bs|
        invariant forall k :: 0 <= k < i ==> bs[k].State() == BulletStep(before[k], dt)
        invariant forall k :: i <= k < |bs| ==> bs[k].State() == before[k]
      {
        var b := bs[i];
        assert forall k :: 0 <= k < |bs| && k != i ==> bs[k] != b;
        b.Update(dt);
        i := i + 1;
      }
    }

    /** `targets.forEach(t => t.update(dt))`. */
    method UpdateTargets(dt: real, w: real, h: real)
      requires Valid()
      modifies targets
      ensures Valid()
      ensures Snapshot() == MoveTargets(old(Snapshot()), dt, w, h)
    {
      ghost var before := TargetStates(targets);
      var i := 0;
      while i < |targets|
        invariant 0 <= i <= |targets|
        invariant forall k :: 0 <= k < i ==> targets[k].State() == TargetStep(before[k], dt, w, h)
        invariant forall k :: i <= k < |targets| ==> targets[k].State() == before[k]
      {
        var t := targets[i];
        assert forall k :: 0 <= k < |targets| && k != i ==> targets[k] != t;
        t.Update(dt, w, h);
        i := i + 1;
      }
      assert TargetStates(targets) == TargetsStep(before, dt, w, h);
    }

    /** `particles.update(dt)`. */
    method UpdateParticles(dt: real)
      requires Valid()
      modifies particles, particles.particles
      ensures Valid()
      ensures Snapshot() == Fade(old(Snapshot()), dt)
      ensures forall p :: p in particles.particles ==> p in old(particles.particles)
    {
      particles.Update(dt);
    }

    /** The inner loop of `checkCollisions`: the index of the target `bullet` hits, or -1. */
    method ScanTargets(bullet: Bullet) returns (hit: int)
      ensures hit == LastOverlap(bullet.State(), TargetStates(targets))
    {
      ghost var b := bullet.State();
      ghost var ts := TargetStates(targets);
      hit := -1;
      var j := |targets| - 1;
      while j >= 0
        invariant -1 <= j < |ts|
        invariant forall k :: j < k < |ts| ==> !Overlaps(b, ts[k])
        decreases j + 1
      {
        var target := targets[j];
        var dx := bullet.position.x - target.position.x;
        var dy := bullet.position.y - target.position.y;
        assert ts[j] == target.State();
        assert dx * dx + dy * dy == DistSq(b.position, ts[j].position);
        assert target.radius + bullet.radius == TARGET_RADIUS + BULLET_RADIUS;
        if dx * dx + dy * dy < (target.radius + bullet.radius) * (target.radius + bullet.radius) {
          hit := j;
          break;
        }
        j := j - 1;
      }
    }

    /** A hit of bullet `i` on target `hit`: the burst at the target, the visit to its url, then
        `bullets.splice(i, 1)`. */
    method Strike(i: nat, hit: nat, dir: Heading, rand: Draws, ghost t: TargetState)
      requires i < |bullets| && hit < |targets| && Distinct(bullets) && particles.Valid()
      requires TargetStates(targets)[hit] == t
      modifies this`bullets, this`visited, particles
      ensures Distinct(bullets) && particles.Valid()
      ensures bullets == old(bullets[..i] + bullets[i + 1..])
      ensures BulletStates(bullets) == old(BulletStates(bullets)[..i] + BulletStates(bullets)[i + 1..])
      ensures TargetStates(targets) == old(TargetStates(targets))
      ensures particles.States() == old(particles.States()) + Burst(t.position, BURST_SIZE, BURST_COLOR, dir, rand)
      ensures visited == old(visited) + [t.url]
      ensures forall b :: b in bullets ==> b in old(bullets)
      ensures forall p :: p in particles.particles ==> p in old(particles.particles) || fresh(p)
    {
      var target := targets[hit];
      particles.Emit(target.position, BURST_SIZE, BURST_COLOR, dir, rand);
      visited := visited + [target.url];
      BulletStatesSplice(bullets, i);
      DistinctRemove(bullets, i);
      bullets := bullets[..i] + bullets[i + 1..];
    }

    /** The state of the collision pass once it has walked down past index `i`: the bullets
        from `i + 1` on have been handled as `Collide` says, those up to `i` are untouched, and
        `used` random values went into the bursts so far. */
    ghost predicate Passing(i: int, bs: seq<BulletState>, ts: seq<TargetState>, kept: seq<BulletState>,
                            hits: seq<TargetState>, q0: seq<ParticleState>, o0: seq<string>,
                            used: nat, dir: Heading, rand: Draws)
      reads this`bullets, this`targets, this`visited, bullets, targets, particles, particles.particles
    {
      && -1 <= i < |bs|
      && kept == Collide(bs[i + 1..], ts).survivors && hits == Collide(bs[i + 1..], ts).hits
      && Distinct(bullets) && particles.Valid() && TargetStates(targets) == ts
      && BulletStates(bullets) == bs[..i + 1] + kept
      && particles.States() == q0 + Bursts(hits, dir, rand)
      && visited == o0 + Urls(hits)
      && used == DRAWS_PER_BURST * |hits|
    }

    /** One turn of the `checkCollisions` loop, on bullet `i`: scan the targets, and on a hit
        burst, visit and splice. */
    method Visit(i: nat, dir: Heading, rand: Draws, used: nat, ghost bs: seq<BulletState>,
                 ghost ts: seq<TargetState>, ghost kept: seq<BulletState>, ghost hits: seq<TargetState>,
                 ghost q0: seq<ParticleState>, ghost o0: seq<string>)
      returns (used': nat, ghost kept': seq<BulletState>, ghost hits': seq<TargetState>)
      requires Passing(i, bs, ts, kept, hits, q0, o0, used, dir, rand)
      modifies this`bullets, this`visited, particles
      ensures Passing(i - 1, bs, ts, kept', hits', q0, o0, used', dir, rand)
      ensures forall b :: b in bullets ==> b in old(bullets)
      ensures forall p :: p in particles.particles ==> p in old(particles.particles) || fresh(p)
    {
      assert BulletStates(bullets)[i] == bs[i];
      var bullet := bullets[i];
      var hit := ScanTargets(bullet);
      assert hit == LastOverlap(bs[i], ts);
      if hit >= 0 {
        StepHit(bs, ts, i, kept, hits, hit);
        HitEffects(hits, ts[hit], q0, o0, dir, rand);
        Strike(i, hit, dir, Shifted(rand, used), ts[hit]);
        used', kept', hits' := used + DRAWS_PER_BURST, kept, hits + [ts[hit]];
      } else {
        StepMiss(bs, ts, i, kept, hits);
        used', kept', hits' := used, [bs[i]] + kept, hits;
      }
    }

    /** `checkCollisions`: every bullet that overlaps a target is spliced out, after a burst of
        20 white sparks at that target and a visit to its url. */
    method CheckCollisions(dir: Heading, rand: Draws)
      requires Valid()
      modifies this`bullets, this`visited, particles
      ensures Valid()
      ensures Snapshot() == Collisions(old(Snapshot()), dir, rand)
      ensures forall b :: b in bullets ==> b in old(bullets)
      ensures forall p :: p in particles.particles ==> p in old(particles.particles) || fresh(p)
    {
      ghost var bs := BulletStates(bullets);
      ghost var ts := TargetStates(targets);
      ghost var q0 := particles.States();
      ghost var o0 := visited;
      ghost var kept: seq<BulletState> := [];
      ghost var hits: seq<TargetState> := [];
      var used: nat := 0;
      var i := |bullets| - 1;
      assert bs[..i + 1] == bs;
      while i >= 0
        invariant Passing(i, bs, ts, kept, hits, q0, o0, used, dir, rand)
        invariant forall b :: b in bullets ==> b in old(bullets)
        invariant forall p :: p in particles.particles ==> p in old(particles.particles) || fresh(p)
        decreases i + 1
      {
        used, kept, hits := Visit(i, dir, rand, used, bs, ts, kept, hits, q0, o0);
        i := i - 1;
      }
      assert bs[0..] == bs;
    }
  }
}
