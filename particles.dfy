/**
 * The canvas particle backdrop of `ParticleSystem`: a pool of particles that
 * either drift and twinkle as fireflies or fall and sway as rose petals,
 * advanced at most 30 times a second and kept on screen by wrapping or
 * respawning at the edges. Drawing on the canvas is not modelled; the canvas
 * size is an input to every frame.
 */
module Particles {
  import opened Wrappers
  import opened JsMath

  /** The two behaviours a pool can have, the component's `type` prop. */
  datatype Kind = Firefly | Petal

  /** One particle; `hue`, `rotation` and `rotationSpeed` are present only on petals. */
  datatype Particle = Particle(
    x: real, y: real,
    vx: real, vy: real,
    size: real, alpha: real,
    hue: Option<real>, rotation: Option<real>, rotationSpeed: Option<real>)

  /** How far past an edge a particle may go before it wraps or respawns. */
  const Margin: real := 50.0

  /** The largest speed a firefly may have along either axis. */
  const MaxVel: real := 0.5

  /** Milliseconds between two frames that are allowed to run: a cap of 30 frames per second. */
  const FrameInterval: real := 1000.0 / 30.0

  /** The `Math.random()` values `createParticle` draws, one per field; a firefly uses the first six. */
  datatype SpawnDraws = SpawnDraws(
    x: Draw, y: Draw, vx: Draw, vy: Draw, size: Draw, alpha: Draw,
    hue: Draw, rotation: Draw, rotationSpeed: Draw)

  /** The `Math.random()` values one frame may draw for one particle. */
  datatype TickDraws = TickDraws(jitterX: Draw, jitterY: Draw, twinkle: Draw, respawnX: Draw)

  /** A value drawn from [0, 1) and stretched over [0, w]: inside [0, w), or 0 when `w` is 0. */
  function Spread(r: Draw, w: nat): (v: real)
    ensures 0.0 <= v <= w as real
    ensures 0 < w ==> v < w as real
  {
    assert r * w as real <= 1.0 * w as real;
    r * w as real
  }

  /** A new particle for a canvas of `w` by `h`, every field drawn from its own range. */
  function CreateParticle(w: nat, h: nat, kind: Kind, d: SpawnDraws): (p: Particle)
    ensures 0.0 <= p.x <= w as real && (0 < w ==> p.x < w as real)
    ensures kind == Firefly ==>
      0.0 <= p.y <= h as real &&
      -0.25 <= p.vx < 0.25 && -0.25 <= p.vy < 0.25 &&
      1.0 <= p.size < 3.0 && 0.3 <= p.alpha < 0.8 &&
      p.hue == None && p.rotation == None && p.rotationSpeed == None
    ensures kind == Petal ==>
      -(h as real) <= p.y <= 0.0 &&
      -0.5 <= p.vx < 0.5 && 1.0 <= p.vy < 2.0 &&
      5.0 <= p.size < 15.0 && 0.7 <= p.alpha < 1.0 &&
      p.hue.Some? && 330.0 <= p.hue.value < 360.0 &&
      p.rotation.Some? && 0.0 <= p.rotation.value < 2.0 * Pi &&
      p.rotationSpeed.Some? && -0.025 <= p.rotationSpeed.value < 0.025
  {
    match kind
    case Firefly =>
      Particle(Spread(d.x, w), Spread(d.y, h),
               (d.vx - 0.5) * 0.5, (d.vy - 0.5) * 0.5,
               d.size * 2.0 + 1.0, d.alpha * 0.5 + 0.3,
               None, None, None)
    case Petal =>
      Particle(Spread(d.x, w), Spread(d.y, h) - h as real,
               (d.vx - 0.5) * 1.0, d.vy * 1.0 + 1.0,
               d.size * 10.0 + 5.0, d.alpha * 0.3 + 0.7,
               Some(330.0 + d.hue * 30.0),
               Some(d.rotation * Pi * 2.0),
               Some((d.rotationSpeed - 0.5) * 0.05))
  }

  /**
   * The frame gate of `animate`: `None` when less than one interval has passed
   * since `lastTime` (the frame is skipped), otherwise the new `lastTime`,
   * which drops the part of the elapsed time that is not a whole interval.
   */
  function FrameGate(lastTime: real, time: real): (next: Option<real>)
    ensures next == None <==> time - lastTime < FrameInterval
    ensures next.Some? ==> 0.0 <= time - next.value < FrameInterval
    ensures next.Some? ==> lastTime + FrameInterval <= next.value <= time
    ensures next.Some? ==> exists k: nat :: 1 <= k && next.value == lastTime + Intervals(k)
  {
    var elapsed := time - lastTime;
    if elapsed < FrameInterval then None
    else
      var k := Trunc(elapsed / FrameInterval);
      assert 1 <= k && time - Rem(elapsed, FrameInterval) == lastTime + Intervals(k);
      Some(time - Rem(elapsed, FrameInterval))
  }

  /** `k` whole frame intervals, in milliseconds. */
  function Intervals(k: nat): real {
    k as real * FrameInterval
  }

  /**
   * The edge rule for a coordinate on an axis of length `extent`: past the low
   * margin it jumps to the high margin, past the high margin to the low one.
   */
  function Wrap(v: real, extent: nat): (r: real)
    ensures -Margin <= r <= extent as real + Margin
    ensures -Margin <= v <= extent as real + Margin ==> r == v
    ensures v < -Margin ==> r == extent as real + Margin
    ensures extent as real + Margin < v ==> r == -Margin
  {
    var low := if v < -Margin then extent as real + Margin else v;
    if extent as real + Margin < low then -Margin else low
  }

  /** Firefly physics: velocity jitter clamped to `MaxVel`, and alpha jitter clamped to [0.2, 0.8]. */
  function Twinkle(p: Particle, d: TickDraws): (q: Particle)
    ensures -MaxVel <= q.vx <= MaxVel && -MaxVel <= q.vy <= MaxVel
    ensures 0.2 <= q.alpha <= 0.8
    ensures -MaxVel <= p.vx <= MaxVel ==> -0.025 <= q.vx - p.vx <= 0.025
    ensures -MaxVel <= p.vy <= MaxVel ==> -0.025 <= q.vy - p.vy <= 0.025
    ensures 0.2 <= p.alpha <= 0.8 ==> -0.025 <= q.alpha - p.alpha <= 0.025
    ensures q.x == p.x && q.y == p.y && q.size == p.size
    ensures q.hue == p.hue && q.rotation == p.rotation && q.rotationSpeed == p.rotationSpeed
  {
    var vx := p.vx + (d.jitterX - 0.5) * 0.05;
    var vy := p.vy + (d.jitterY - 0.5) * 0.05;
    var alpha := p.alpha + (d.twinkle - 0.5) * 0.05;
    p.(vx := Clamp(-MaxVel, MaxVel, vx),
       vy := Clamp(-MaxVel, MaxVel, vy),
       alpha := Clamp(0.2, 0.8, alpha))
  }

  /** Petal physics: the rotation advances by the rotation speed (a missing field reads as 0) and `x` sways with the height. */
  function Sway(p: Particle, sin: real -> real): (q: Particle)
    ensures q.rotation == Some(p.rotation.GetOr(0.0) + p.rotationSpeed.GetOr(0.0))
    ensures SineBounded(sin) ==> -0.5 <= q.x - p.x <= 0.5
    ensures q.y == p.y && q.vx == p.vx && q.vy == p.vy && q.size == p.size && q.alpha == p.alpha
    ensures q.hue == p.hue && q.rotationSpeed == p.rotationSpeed
  {
    p.(rotation := Some(p.rotation.GetOr(0.0) + p.rotationSpeed.GetOr(0.0)),
       x := p.x + sin(p.y * 0.01) * 0.5)
  }

  /**
   * What one frame of `animate` does to one particle on a `w` by `h` canvas:
   * move by the current velocity, apply the kind's physics, wrap `x`, then
   * wrap `y` (fireflies) or respawn at the top after falling off the bottom
   * (petals).
   */
  function Step(kind: Kind, p: Particle, w: nat, h: nat, sin: real -> real, d: TickDraws): (q: Particle)
    ensures -Margin <= q.x <= w as real + Margin
    ensures q.size == p.size && q.hue == p.hue && q.rotationSpeed == p.rotationSpeed
    ensures kind == Firefly ==>
      -MaxVel <= q.vx <= MaxVel && -MaxVel <= q.vy <= MaxVel &&
      0.2 <= q.alpha <= 0.8 &&
      -Margin <= q.y <= h as real + Margin &&
      q.rotation == p.rotation
    ensures kind == Firefly ==>
      q.x == Wrap(p.x + p.vx, w) && q.y == Wrap(p.y + p.vy, h)
    ensures kind == Firefly ==>
      q.vx == Twinkle(p, d).vx && q.vy == Twinkle(p, d).vy && q.alpha == Twinkle(p, d).alpha
    ensures kind == Petal ==>
      q.vx == p.vx && q.vy == p.vy && q.alpha == p.alpha &&
      q.y <= h as real + Margin &&
      q.rotation == Some(p.rotation.GetOr(0.0) + p.rotationSpeed.GetOr(0.0))
    ensures kind == Petal && h as real + Margin < p.y + p.vy ==>
      q.y == -Margin && q.x == d.respawnX * w as real &&
      0.0 <= q.x <= w as real && (0 < w ==> q.x < w as real)
    ensures kind == Petal && p.y + p.vy <= h as real + Margin ==>
      q.y == p.y + p.vy && q.x == Wrap(p.x + p.vx + sin((p.y + p.vy) * 0.01) * 0.5, w)
    ensures kind == Petal && p.y + p.vy <= h as real + Margin &&
            -Margin + 0.5 <= p.x + p.vx <= w as real + Margin - 0.5 &&
            SineBounded(sin) ==>
      -0.5 <= q.x - (p.x + p.vx) <= 0.5
  {
    var moved := p.(x := p.x + p.vx, y := p.y + p.vy);
    var pushed := if kind == Firefly then Twinkle(moved, d) else Sway(moved, sin);
    var wrapped := pushed.(x := Wrap(pushed.x, w));
    if kind == Firefly then
      wrapped.(y := Wrap(wrapped.y, h))
    else if h as real + Margin < wrapped.y then
      wrapped.(y := -Margin, x := Spread(d.respawnX, w))
    else
      wrapped
  }

  /** Where a particle is after a frame on a `w` by `h` canvas: a firefly inside the margins on both axes, a petal inside them horizontally and no lower than the bottom margin. */
  predicate OnScreen(kind: Kind, p: Particle, w: nat, h: nat) {
    -Margin <= p.x <= w as real + Margin &&
    p.y <= h as real + Margin &&
    (kind == Firefly ==> -Margin <= p.y)
  }

  /** Every particle of a pool advanced by one frame, particle `i` with draws `draws[i]`. */
  function StepAll(kind: Kind, ps: seq<Particle>, w: nat, h: nat, sin: real -> real, draws: seq<TickDraws>): (qs: seq<Particle>)
    requires |draws| == |ps|
    ensures |qs| == |ps|
    ensures forall i :: 0 <= i < |ps| ==> qs[i] == Step(kind, ps[i], w, h, sin, draws[i])
    ensures forall i :: 0 <= i < |ps| ==> OnScreen(kind, qs[i], w, h)
  {
    seq(|ps|, i requires 0 <= i < |ps| => Step(kind, ps[i], w, h, sin, draws[i]))
  }

  /** A fresh pool of `|draws|` particles, particle `i` made from `draws[i]`. */
  function Spawn(w: nat, h: nat, kind: Kind, draws: seq<SpawnDraws>): (ps: seq<Particle>)
    ensures |ps| == |draws|
    ensures forall i :: 0 <= i < |draws| ==> ps[i] == CreateParticle(w, h, kind, draws[i])
  {
    seq(|draws|, i requires 0 <= i < |draws| => CreateParticle(w, h, kind, draws[i]))
  }

  /**
   * What stays true of a particle of the given kind from creation on: a
   * firefly's speed and alpha within their clamps; a petal's fall speed,
   * alpha, hue and spin as they were drawn.
   */
  predicate Healthy(kind: Kind, p: Particle) {
    match kind
    case Firefly =>
      -MaxVel <= p.vx <= MaxVel && -MaxVel <= p.vy <= MaxVel && 0.2 <= p.alpha <= 0.8
    case Petal =>
      1.0 <= p.vy < 2.0 && 0.7 <= p.alpha < 1.0 &&
      p.hue.Some? && 330.0 <= p.hue.value < 360.0 &&
      p.rotation.Some? &&
      p.rotationSpeed.Some? && -0.025 <= p.rotationSpeed.value < 0.025
  }

  /** The pool `animate` works on, with the time of the last frame it let through. */
  class ParticleSystem {
    const kind: Kind
    const particles: array<Particle>
    var lastTime: real

    ghost predicate Valid()
      reads this, particles
    {
      forall i :: 0 <= i < particles.Length ==> Healthy(kind, particles[i])
    }

    /** The set-up of the effect: `count` particles pushed one by one for a `w` by `h` canvas. */
    constructor (kind: Kind, count: nat, w: nat, h: nat, draws: seq<SpawnDraws>)
      requires |draws| == count
      ensures Valid() && fresh(particles)
      ensures this.kind == kind && lastTime == 0.0
      ensures particles.Length == count
      ensures particles[..] == Spawn(w, h, kind, draws)
    {
      var pool := new Particle[count];
      var i := 0;
      while i < count
        invariant 0 <= i <= count
        invariant forall j :: 0 <= j < i ==> pool[j] == CreateParticle(w, h, kind, draws[j])
      {
        pool[i] := CreateParticle(w, h, kind, draws[i]);
        i := i + 1;
      }
      this.kind := kind;
      particles := pool;
      lastTime := 0.0;
      new;
      SpawnHealthy(w, h, kind, draws);
    }

    /**
     * One animation callback at `time` on a `w` by `h` canvas: nothing
     * happens when the frame gate is closed; otherwise `lastTime` moves on
     * and every particle takes one step.
     */
    method Animate(time: real, w: nat, h: nat, sin: real -> real, draws: seq<TickDraws>)
      requires Valid() && |draws| == particles.Length
      modifies this, particles
      ensures Valid()
      ensures FrameGate(old(lastTime), time) == None ==>
        lastTime == old(lastTime) && particles[..] == old(particles[..])
      ensures FrameGate(old(lastTime), time) != None ==>
        lastTime == FrameGate(old(lastTime), time).value &&
        particles[..] == StepAll(kind, old(particles[..]), w, h, sin, draws)
      ensures FrameGate(old(lastTime), time) != None ==>
        forall i :: 0 <= i < particles.Length ==> OnScreen(kind, particles[i], w, h)
    {
      var next := FrameGate(lastTime, time);
      if next == None {
        return;
      }
      lastTime := next.value;
      ghost var before := particles[..];
      var i := 0;
      while i < particles.Length
        invariant 0 <= i <= particles.Length
        invariant lastTime == next.value
        invariant forall j :: 0 <= j < i ==> particles[j] == Step(kind, before[j], w, h, sin, draws[j])
        invariant forall j :: i <= j < particles.Length ==> particles[j] == before[j]
      {
        particles[i] := Step(kind, particles[i], w, h, sin, draws[i]);
        i := i + 1;
      }
      StepAllHealthy(kind, before, w, h, sin, draws);
    }
  }

  /** Every freshly created particle is healthy. */
  lemma SpawnHealthy(w: nat, h: nat, kind: Kind, draws: seq<SpawnDraws>)
    ensures forall i :: 0 <= i < |draws| ==> Healthy(kind, Spawn(w, h, kind, draws)[i])
  {
  }

  /** One frame keeps every particle of a healthy pool healthy. */
  lemma StepAllHealthy(kind: Kind, ps: seq<Particle>, w: nat, h: nat, sin: real -> real, draws: seq<TickDraws>)
    requires |draws| == |ps|
    requires forall i :: 0 <= i < |ps| ==> Healthy(kind, ps[i])
    ensures forall i :: 0 <= i < |ps| ==> Healthy(kind, StepAll(kind, ps, w, h, sin, draws)[i])
  {
  }

  /** One frame of the effect as seen by a single particle: the canvas size at that frame and its draws. */
  datatype Frame = Frame(width: nat, height: nat, draws: TickDraws)

  /** A particle after the given frames, in order, all of which the frame gate let through. */
  function Run(kind: Kind, p: Particle, sin: real -> real, frames: seq<Frame>): Particle
    decreases |frames|
  {
    if frames == [] then p
    else Run(kind, Step(kind, p, frames[0].width, frames[0].height, sin, frames[0].draws), sin, frames[1..])
  }

  /** However many frames run, and however the canvas is resized between them, a healthy particle stays healthy. */
  lemma {:induction false} RunHealthy(kind: Kind, p: Particle, sin: real -> real, frames: seq<Frame>)
    requires Healthy(kind, p)
    ensures Healthy(kind, Run(kind, p, sin, frames))
    decreases |frames|
  {
    if frames != [] {
      var f := frames[0];
      RunHealthy(kind, Step(kind, p, f.width, f.height, sin, f.draws), sin, frames[1..]);
    }
  }

  /** After at least one frame a particle is on the screen the last frame had, wherever it started. */
  lemma {:induction false} RunOnScreen(kind: Kind, p: Particle, sin: real -> real, frames: seq<Frame>)
    requires frames != []
    ensures OnScreen(kind, Run(kind, p, sin, frames), frames[|frames| - 1].width, frames[|frames| - 1].height)
    decreases |frames|
  {
    var f := frames[0];
    var q := Step(kind, p, f.width, f.height, sin, f.draws);
    if |frames| > 1 {
      RunOnScreen(kind, q, sin, frames[1..]);
    }
  }

  /** A petal never changes its drift, fall speed, alpha, size, hue or rotation speed, however many frames run. */
  lemma {:induction false} PetalRunKeeps(p: Particle, sin: real -> real, frames: seq<Frame>)
    ensures var q := Run(Petal, p, sin, frames);
      q.vx == p.vx && q.vy == p.vy && q.alpha == p.alpha && q.size == p.size &&
      q.hue == p.hue && q.rotationSpeed == p.rotationSpeed
    decreases |frames|
  {
    if frames != [] {
      var f := frames[0];
      PetalRunKeeps(Step(Petal, p, f.width, f.height, sin, f.draws), sin, frames[1..]);
    }
  }

  /** `n` turns of `speed`, added one frame at a time. */
  function Turns(n: nat, speed: real): real {
    if n == 0 then 0.0 else Turns(n - 1, speed) + speed
  }

  /** `n` turns added one by one come to `n` times the speed. */
  lemma {:induction false} TurnsProduct(n: nat, speed: real)
    ensures Turns(n, speed) == n as real * speed
  {
    if n != 0 {
      TurnsProduct(n - 1, speed);
      assert (n - 1) as real * speed + speed == n as real * speed;
    }
  }

  /** Frame by frame, a petal's rotation gains one turn of its speed per frame. */
  lemma {:induction false} PetalRunTurns(p: Particle, sin: real -> real, frames: seq<Frame>)
    requires p.rotation.Some? && p.rotationSpeed.Some?
    ensures Run(Petal, p, sin, frames).rotation ==
      Some(p.rotation.value + Turns(|frames|, p.rotationSpeed.value))
    decreases |frames|
  {
    if frames != [] {
      var f := frames[0];
      var q := Step(Petal, p, f.width, f.height, sin, f.draws);
      PetalRunTurns(q, sin, frames[1..]);
      TurnsShift(|frames[1..]|, p.rotationSpeed.value);
    }
  }

  /** The first turn can be counted first or last. */
  lemma {:induction false} TurnsShift(n: nat, speed: real)
    ensures speed + Turns(n, speed) == Turns(n + 1, speed)
  {
  }

  /** After `n` frames a petal has turned by exactly `n` times its rotation speed. */
  lemma {:induction false} PetalRunSpins(p: Particle, sin: real -> real, frames: seq<Frame>)
    requires p.rotation.Some? && p.rotationSpeed.Some?
    ensures Run(Petal, p, sin, frames).rotation ==
      Some(p.rotation.value + |frames| as real * p.rotationSpeed.value)
  {
    PetalRunTurns(p, sin, frames);
    TurnsProduct(|frames|, p.rotationSpeed.value);
    assert Turns(|frames|, p.rotationSpeed.value) == |frames| as real * p.rotationSpeed.value;
  }
}
