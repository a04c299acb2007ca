/** The simulated bodies: the player's ship, its bullets and the drifting
    social-link targets. Each class keeps the fields the game mutates; `State()`
    reads them as a value and every `Update` is specified by a pure step function. */
module Entities {
  import opened Vectors
  import opened Seqs

  const THRUST_ACCEL: real := 200.0
  const DAMPING: real := 0.99
  const PLAYER_RADIUS: real := 15.0
  const BULLET_SPEED: real := 500.0
  const BULLET_RADIUS: real := 4.0
  const BULLET_LIFETIME: real := 1.5
  const TARGET_RADIUS: real := 25.0
  const TARGET_SPIN: real := 0.5
  const TARGET_DRIFT: real := 100.0

  // ---------------------------------------------------------------- wrapping

  /** One axis of the screen wrap: a coordinate below 0 jumps to the far edge,
      one beyond the far edge jumps to 0, anything else stays. */
  function Wrap(c: real, bound: real): (r: real)
    ensures 0.0 <= bound ==> 0.0 <= r <= bound
    ensures 0.0 <= c <= bound ==> r == c
    ensures c < 0.0 ==> r == bound
    ensures 0.0 <= bound < c ==> r == 0.0
  {
    if c < 0.0 then bound else if c > bound then 0.0 else c
  }

  function WrapPos(p: Vec, w: real, h: real): Vec
  {
    Vec(Wrap(p.x, w), Wrap(p.y, h))
  }

  // ---------------------------------------------------------------- player

  datatype PlayerState = PlayerState(position: Vec, velocity: Vec, rotation: real,
                                     thrust: bool, shooting: bool, lastShot: real)

  /** The velocity after one frame: thrust along the heading, then the per-frame damping. */
  function Accelerate(v: Vec, thrust: bool, heading: Vec, dt: real): Vec
  {
    Scale(if thrust then Add(v, Scale(heading, THRUST_ACCEL * dt)) else v, DAMPING)
  }

  /** `Player.update`: new velocity, then position advanced by it and wrapped. */
  function PlayerStep(p: PlayerState, dt: real, dir: Heading, w: real, h: real): (r: PlayerState)
    ensures 0.0 <= w ==> 0.0 <= r.position.x <= w
    ensures 0.0 <= h ==> 0.0 <= r.position.y <= h
    ensures r.velocity == Accelerate(p.velocity, p.thrust, dir(p.rotation), dt)
    ensures r.rotation == p.rotation && r.thrust == p.thrust
    ensures r.shooting == p.shooting && r.lastShot == p.lastShot
  {
    var v := Accelerate(p.velocity, p.thrust, dir(p.rotation), dt);
    p.(velocity := v, position := WrapPos(Add(p.position, Scale(v, dt)), w, h))
  }

  /** The speed along the heading after one frame of held thrust. */
  function ThrustedSpeed(s: real, dt: real): real
  {
    DAMPING * (s + THRUST_ACCEL * dt)
  }

  /** The speed along the heading after `n` frames of held thrust. */
  function HeldSpeed(s: real, dt: real, n: nat): real
    decreases n
  {
    if n == 0 then s else HeldSpeed(ThrustedSpeed(s, dt), dt, n - 1)
  }

  /** The velocity after `n` frames of held thrust along a fixed heading. */
  function HeldThrust(v: Vec, heading: Vec, dt: real, n: nat): Vec
    decreases n
  {
    if n == 0 then v else HeldThrust(Accelerate(v, true, heading, dt), heading, dt, n - 1)
  }

  /** Thrust and damping balance at 99 times the per-frame thrust: a speed below that
      bound grows but never passes it, however many frames the thrust is held. */
  lemma {:induction false} TerminalSpeed(s: real, dt: real, n: nat)
    requires 0.0 <= dt && 0.0 <= s <= 99.0 * THRUST_ACCEL * dt
    ensures s <= HeldSpeed(s, dt, n) <= 99.0 * THRUST_ACCEL * dt
    decreases n
  {
    if n > 0 {
      TerminalSpeed(ThrustedSpeed(s, dt), dt, n - 1);
    }
  }

  /** Holding thrust along a heading keeps the velocity on that heading, with the speed of `HeldSpeed`. */
  lemma {:induction false} HeldThrustAlong(heading: Vec, s: real, dt: real, n: nat)
    ensures HeldThrust(Scale(heading, s), heading, dt, n) == Scale(heading, HeldSpeed(s, dt, n))
    decreases n
  {
    if n > 0 {
      var s' := ThrustedSpeed(s, dt);
      calc {
        Accelerate(Scale(heading, s), true, heading, dt);
        Scale(Add(Scale(heading, s), Scale(heading, THRUST_ACCEL * dt)), DAMPING);
        { assert heading.x * s + heading.x * (THRUST_ACCEL * dt) == heading.x * (s + THRUST_ACCEL * dt);
          assert heading.y * s + heading.y * (THRUST_ACCEL * dt) == heading.y * (s + THRUST_ACCEL * dt); }
        Scale(Scale(heading, s + THRUST_ACCEL * dt), DAMPING);
        Scale(heading, s');
      }
      HeldThrustAlong(heading, s', dt, n - 1);
    }
  }

  /** The ship after `n` frames of `Player.update` with the same step, and no steering between. */
  function PlayerSteps(p: PlayerState, dt: real, dir: Heading, w: real, h: real, n: nat): PlayerState
    decreases n
  {
    if n == 0 then p else PlayerSteps(PlayerStep(p, dt, dir, w, h), dt, dir, w, h, n - 1)
  }

  /** Over `n` frames with thrust held and the rotation fixed, the ship's velocity is
      `HeldThrust` along its heading, whatever the wrapping does to its position; the rotation,
      thrust and shot time are kept, and in a non-negative field the ship stays on screen. */
  lemma {:induction false} HeldPlayer(p: PlayerState, dt: real, dir: Heading, w: real, h: real, n: nat)
    requires p.thrust
    ensures PlayerSteps(p, dt, dir, w, h, n).velocity == HeldThrust(p.velocity, dir(p.rotation), dt, n)
    ensures PlayerSteps(p, dt, dir, w, h, n).rotation == p.rotation && PlayerSteps(p, dt, dir, w, h, n).thrust
    ensures PlayerSteps(p, dt, dir, w, h, n).lastShot == p.lastShot
    ensures 0 < n && 0.0 <= w && 0.0 <= h ==>
              0.0 <= PlayerSteps(p, dt, dir, w, h, n).position.x <= w &&
              0.0 <= PlayerSteps(p, dt, dir, w, h, n).position.y <= h
    decreases n
  {
    if n > 0 {
      HeldPlayer(PlayerStep(p, dt, dir, w, h), dt, dir, w, h, n - 1);
    }
  }

  /** A ship that starts at rest and holds thrust never goes faster along its heading than
      99 times the per-frame thrust. */
  lemma ShipSpeedCap(p: PlayerState, dt: real, dir: Heading, w: real, h: real, n: nat)
    requires p.thrust && p.velocity == Vec(0.0, 0.0) && 0.0 <= dt
    ensures PlayerSteps(p, dt, dir, w, h, n).velocity == Scale(dir(p.rotation), HeldSpeed(0.0, dt, n))
    ensures 0.0 <= HeldSpeed(0.0, dt, n) <= 99.0 * THRUST_ACCEL * dt
  {
    HeldPlayer(p, dt, dir, w, h, n);
    assert p.velocity == Scale(dir(p.rotation), 0.0);
    HeldThrustAlong(dir(p.rotation), 0.0, dt, n);
    TerminalSpeed(0.0, dt, n);
  }

  class Player {
    var position: Vec
    var velocity: Vec
    var rotation: real
    const radius: real := PLAYER_RADIUS
    var thrust: bool
    var shooting: bool
    var lastShot: real

    function State(): PlayerState
      reads this
    {
      PlayerState(position, velocity, rotation, thrust, shooting, lastShot)
    }

    /** A ship at rest at the centre of a `w` by `h` field, facing angle 0. */
    constructor (w: real, h: real)
      ensures State() == PlayerState(Vec(w / 2.0, h / 2.0), Vec(0.0, 0.0), 0.0, false, false, 0.0)
      ensures radius == 15.0
    {
      position := Vec(w / 2.0, h / 2.0);
      velocity := Vec(0.0, 0.0);
      rotation := 0.0;
      thrust := false;
      shooting := false;
      lastShot := 0.0;
    }

    method Update(dt: real, dir: Heading, w: real, h: real)
      modifies this
      ensures State() == PlayerStep(old(State()), dt, dir, w, h)
    {
      if thrust {
        var thrustVector := Scale(dir(rotation), THRUST_ACCEL * dt);
        velocity := Add(velocity, thrustVector);
      }
      velocity := Scale(velocity, DAMPING);
      position := Add(position, Scale(velocity, dt));

      if position.x < 0.0 { position := position.(x := w); }
      if position.x > w { position := position.(x := 0.0); }
      if position.y < 0.0 { position := position.(y := h); }
      if position.y > h { position := position.(y := 0.0); }
    }
  }

  // ---------------------------------------------------------------- bullets

  datatype BulletState = BulletState(position: Vec, velocity: Vec, rotation: real, lifetime: real)

  /** A bullet fired from `position` along `rotation`: it starts alive, where it is fired,
      moving at 500 per second along the heading. */
  function NewBullet(position: Vec, rotation: real, dir: Heading): (r: BulletState)
    ensures BulletAlive(r) && r.position == position && r.rotation == rotation
    ensures r.velocity == Scale(dir(rotation), BULLET_SPEED)
  {
    BulletState(position, Scale(dir(rotation), BULLET_SPEED), rotation, BULLET_LIFETIME)
  }

  /** `Bullet.update`: straight-line motion, no wrap, lifetime counted down. */
  function BulletStep(b: BulletState, dt: real): (r: BulletState)
    ensures r.velocity == b.velocity && r.rotation == b.rotation
    ensures r.lifetime == b.lifetime - dt
    ensures 0.0 <= dt && BulletAlive(r) ==> BulletAlive(b)
  {
    b.(position := Add(b.position, Scale(b.velocity, dt)), lifetime := b.lifetime - dt)
  }

  /** The filter predicate of the engine: a bullet stays while its lifetime is positive. */
  predicate BulletAlive(b: BulletState)
  {
    b.lifetime > 0.0
  }

  /** A bullet after a series of updates. */
  function Flight(b: BulletState, dts: seq<real>): BulletState
    decreases |dts|
  {
    if dts == [] then b else Flight(BulletStep(b, dts[0]), dts[1..])
  }

  /** A new bullet is removed exactly once a second and a half of frames has elapsed,
      however that time is split into frames. */
  lemma BulletExpiry(position: Vec, rotation: real, dir: Heading, dts: seq<real>)
    ensures BulletAlive(Flight(NewBullet(position, rotation, dir), dts)) <==> Sum(dts) < 1.5
  {
    FlightAfter(NewBullet(position, rotation, dir), dts);
  }

  /** After any series of updates a bullet has lost exactly the elapsed time from its lifetime
      and travelled its unchanged velocity times the elapsed time. */
  lemma {:induction false} FlightAfter(b: BulletState, dts: seq<real>)
    ensures Flight(b, dts).lifetime == b.lifetime - Sum(dts)
    ensures Flight(b, dts).velocity == b.velocity && Flight(b, dts).rotation == b.rotation
    ensures Flight(b, dts).position == Add(b.position, Scale(b.velocity, Sum(dts)))
    decreases |dts|
  {
    if dts != [] {
      var b' := BulletStep(b, dts[0]);
      FlightAfter(b', dts[1..]);
      var rest := Sum(dts[1..]);
      assert b.velocity.x * dts[0] + b.velocity.x * rest == b.velocity.x * (dts[0] + rest);
      assert b.velocity.y * dts[0] + b.velocity.y * rest == b.velocity.y * (dts[0] + rest);
    }
  }

  class Bullet {
    var position: Vec
    var velocity: Vec
    var rotation: real
    const radius: real := BULLET_RADIUS
    var lifetime: real

    function State(): BulletState
      reads this
    {
      BulletState(position, velocity, rotation, lifetime)
    }

    constructor (position: Vec, rotation: real, dir: Heading)
      ensures State() == NewBullet(position, rotation, dir)
      ensures State().velocity == Scale(dir(rotation), 500.0) && State().lifetime == 1.5 && radius == 4.0
    {
      this.position := position;
      this.rotation := rotation;
      this.velocity := Vec(dir(rotation).x * BULLET_SPEED, dir(rotation).y * BULLET_SPEED);
      this.lifetime := BULLET_LIFETIME;
    }

    method Update(dt: real)
      modifies this
      ensures State() == BulletStep(old(State()), dt)
    {
      position := Add(position, Scale(velocity, dt));
      lifetime := lifetime - dt;
    }
  }

  /** The states of a sequence of bullets, in order. */
  function BulletStates(bs: seq<Bullet>): (r: seq<BulletState>)
    reads bs
  {
    seq(|bs|, i requires 0 <= i < |bs| reads bs => bs[i].State())
  }

  /** `splice(i, 1)` on the objects removes the i-th state and keeps the others in order. */
  lemma BulletStatesSplice(bs: seq<Bullet>, i: nat)
    requires i < |bs|
    ensures BulletStates(bs[..i] + bs[i + 1..]) == BulletStates(bs)[..i] + BulletStates(bs)[i + 1..]
  {
    var r := bs[..i] + bs[i + 1..];
    assert forall k :: 0 <= k < |r| ==> r[k] == if k < i then bs[k] else bs[k + 1];
  }

  /** `bullets.filter(b => b.lifetime > 0)` on the objects themselves. */
  function LiveBullets(bs: seq<Bullet>): (r: seq<Bullet>)
    reads bs
    ensures |r| <= |bs|
    ensures forall b | b in r :: b in bs
    ensures forall b | b in bs :: b in r <==> b.lifetime > 0.0
  {
    if bs == [] then []
    else if bs[0].lifetime > 0.0 then [bs[0]] + LiveBullets(bs[1..])
    else LiveBullets(bs[1..])
  }

  /** Filtering the objects filters their states the same way. */
  lemma {:induction false} LiveBulletStates(bs: seq<Bullet>)
    ensures BulletStates(LiveBullets(bs)) == Filter(BulletStates(bs), BulletAlive)
    decreases |bs|
  {
    if bs != [] {
      LiveBulletStates(bs[1..]);
      assert BulletStates(bs)[1..] == BulletStates(bs[1..]);
      var rest := LiveBullets(bs[1..]);
      if bs[0].lifetime > 0.0 {
        assert BulletStates([bs[0]] + rest) == [bs[0].State()] + BulletStates(rest);
      }
    }
  }

  /** Filtering never duplicates a bullet. */
  lemma {:induction false} LiveBulletsDistinct(bs: seq<Bullet>)
    requires Distinct(bs)
    ensures Distinct(LiveBullets(bs))
    decreases |bs|
  {
    if bs != [] {
      assert Distinct(bs[1..]);
      LiveBulletsDistinct(bs[1..]);
      assert bs[0] !in bs[1..];
    }
  }

  /** The states after `forEach(b => b.update(dt))`. */
  function BulletsStep(bs: seq<BulletState>, dt: real): (r: seq<BulletState>)
  {
    seq(|bs|, i requires 0 <= i < |bs| => BulletStep(bs[i], dt))
  }

  // ---------------------------------------------------------------- targets

  datatype TargetState = TargetState(position: Vec, velocity: Vec, rotation: real, kind: string, url: string)

  /** A new target: a random position in the field, a random drift of at most 50 per axis
      and a random angle, from five successive random draws. */
  function SpawnTarget(kind: string, url: string, w: real, h: real,
                       rx: Draw, ry: Draw, rvx: Draw, rvy: Draw, rr: Draw): (r: TargetState)
    ensures 0.0 <= w ==> 0.0 <= r.position.x <= w
    ensures 0.0 <= h ==> 0.0 <= r.position.y <= h
    ensures -50.0 <= r.velocity.x < 50.0 && -50.0 <= r.velocity.y < 50.0
    ensures 0.0 <= r.rotation < 2.0 * PI
    ensures r.kind == kind && r.url == url
  {
    assert 0.0 <= w ==> rx * w <= w by {
      if 0.0 <= w { assert rx * w <= 1.0 * w; }
    }
    assert 0.0 <= h ==> ry * h <= h by {
      if 0.0 <= h { assert ry * h <= 1.0 * h; }
    }
    TargetState(Vec(rx * w, ry * h),
                Vec((rvx - 0.5) * TARGET_DRIFT, (rvy - 0.5) * TARGET_DRIFT),
                rr * PI * 2.0, kind, url)
  }

  /** `SocialTarget.update`: drift, spin by half a radian per second, wrap. */
  function TargetStep(t: TargetState, dt: real, w: real, h: real): (r: TargetState)
    ensures 0.0 <= w ==> 0.0 <= r.position.x <= w
    ensures 0.0 <= h ==> 0.0 <= r.position.y <= h
    ensures r.rotation == t.rotation + 0.5 * dt
    ensures r.velocity == t.velocity && r.kind == t.kind && r.url == t.url
  {
    t.(position := WrapPos(Add(t.position, Scale(t.velocity, dt)), w, h),
       rotation := t.rotation + dt * TARGET_SPIN)
  }

  /** The states after `targets.forEach(t => t.update(dt))`. */
  function TargetsStep(ts: seq<TargetState>, dt: real, w: real, h: real): (r: seq<TargetState>)
  {
    seq(|ts|, i requires 0 <= i < |ts| => TargetStep(ts[i], dt, w, h))
  }

  /** `getIcon`: the glyph drawn for each kind of link, `?` for any other kind. */
  function Icon(kind: string): (r: string)
    ensures kind == "twitter" ==> r == "\U{1D54F}"
    ensures kind == "blog" ==> r == "\U{1F4DD}"
    ensures kind == "github" ==> r == "\U{1F419}"
    ensures kind == "linkedin" ==> r == "in"
    ensures kind == "replit" ==> r == "⌨️"
    ensures r == "?" <==> kind !in {"twitter", "blog", "github", "linkedin", "replit"}
  {
    match kind
    case "twitter" => "\U{1D54F}"
    case "blog" => "\U{1F4DD}"
    case "github" => "\U{1F419}"
    case "linkedin" => "in"
    case "replit" => "⌨️"
    case _ => "?"
  }

  class SocialTarget {
    var position: Vec
    var velocity: Vec
    var rotation: real
    const radius: real := TARGET_RADIUS
    const kind: string
    const url: string

    function State(): TargetState
      reads this
    {
      TargetState(position, velocity, rotation, kind, url)
    }

    constructor (kind: string, url: string, w: real, h: real,
                 rx: Draw, ry: Draw, rvx: Draw, rvy: Draw, rr: Draw)
      ensures State() == SpawnTarget(kind, url, w, h, rx, ry, rvx, rvy, rr)
      ensures radius == 25.0
    {
      position := Vec(rx * w, ry * h);
      velocity := Vec((rvx - 0.5) * TARGET_DRIFT, (rvy - 0.5) * TARGET_DRIFT);
      rotation := rr * PI * 2.0;
      this.kind := kind;
      this.url := url;
    }

    method Update(dt: real, w: real, h: real)
      modifies this
      ensures State() == TargetStep(old(State()), dt, w, h)
    {
      position := Add(position, Scale(velocity, dt));
      rotation := rotation + dt * TARGET_SPIN;

      if position.x < 0.0 { position := position.(x := w); }
      if position.x > w { position := position.(x := 0.0); }
      if position.y < 0.0 { position := position.(y := h); }
      if position.y > h { position := position.(y := 0.0); }
    }
  }

  /** The states of a sequence of targets, in order. */
  function TargetStates(ts: seq<SocialTarget>): (r: seq<TargetState>)
    reads ts
  {
    seq(|ts|, i requires 0 <= i < |ts| reads ts => ts[i].State())
  }

  /** One more target object adds its state at the end. */
  lemma TargetStatesSnoc(ts: seq<SocialTarget>, t: SocialTarget)
    ensures TargetStates(ts + [t]) == TargetStates(ts) + [t.State()]
  {
  }
}
