/** One dollar-sign particle of a money-sparkle burst: the start state it draws
    from its generation, the fixed rule that moves it once per tick, and the
    test that says it has faded out.

    Arithmetic is over `real`; the source computes in IEEE doubles. Every call
    of Math.random() is an explicit input: a `Draw` records the numbers in
    [0, 1) that one particle's construction consumes. */
module Particles {

  /** A point or a velocity, in canvas pixels. */
  datatype Vec = Vec(x: real, y: real)

  /** A fan-out heading. `NaN` is what the source computes for 0 / 0. */
  datatype Angle = Radians(value: real) | NaN

  /** The options a particle is built from. */
  datatype ParticleOptions = ParticleOptions(x: real, y: real, generation: nat, baseAngle: Angle)

  /** Every field of a particle that the motion rule or the expiry test reads. */
  datatype ParticleState = ParticleState(
    generation: nat,
    imageIndex: int,
    position: Vec,
    velocity: Vec,
    alphaReducer: real,
    scale: real,
    angle: real,
    alpha: real,
    spin: real)

  /** The values of Math.random() that constructing one particle consumes, one
      per call site. A generation-0 particle does not use `image`. */
  datatype Draw = Draw(angle: real, image: real, vxLeft: real, vxRight: real, pick: real, vy: real, spin: real)

  /** Number of prerendered glyph colours. */
  const Colors: int := 4
  const Gravity: real := 0.08
  const Friction: real := 0.99
  const BaseAlphaReducer: real := 0.95
  /** Children fade faster: their reducer is the base one plus this. */
  const ChildAlphaBonus: real := 0.02
  const ScaleStep: real := 0.1
  /** A particle whose alpha is below this is finished. */
  const DestroyAlpha: real := 0.2

  /** Math.random() returns a number in [0, 1). */
  predicate Unit(u: real) {
    0.0 <= u < 1.0
  }

  predicate Uniform(d: Draw) {
    Unit(d.angle) && Unit(d.image) && Unit(d.vxLeft) && Unit(d.vxRight) &&
    Unit(d.pick) && Unit(d.vy) && Unit(d.spin)
  }

  /** `u * width`: a random number in [0, 1) stretched over [0, width). */
  function Stretch(u: real, width: real): real {
    u * width
  }

  lemma StretchRange(u: real, width: real)
    requires Unit(u) && 0.0 < width
    ensures 0.0 <= Stretch(u, width) < width
  {
    assert (1.0 - u) * width == width - u * width;
    assert 0.0 < (1.0 - u) * width;
  }

  /** getRandomFloat(min, max) for the random number `u`. */
  function RandomFloat(u: real, min: real, max: real): real {
    Stretch(u, max - min) + min
  }

  /** A random float lies in [min, max). */
  lemma RandomFloatRange(u: real, min: real, max: real)
    requires Unit(u) && min < max
    ensures min <= RandomFloat(u, min, max) < max
  {
    StretchRange(u, max - min);
  }

  /** getRandomInt(min, max) for the random number `u`: both ends included. */
  function RandomInt(u: real, min: int, max: int): int {
    (Stretch(u, (max - min + 1) as real) + min as real).Floor
  }

  /** A random int lies in [min, max], both ends included. */
  lemma RandomIntRange(u: real, min: int, max: int)
    requires Unit(u) && min <= max
    ensures min <= RandomInt(u, min, max) <= max
  {
    StretchRange(u, (max - min + 1) as real);
  }

  /** randomFromArray([a, b]) for the random number `u`. */
  function PickOne(u: real, a: real, b: real): (r: real)
    ensures r == a || r == b
  {
    if (u * 2.0).Floor == 0 then a else b
  }

  /** The state a freshly constructed particle has, in terms of the options
      record the constructor receives. The constructor reads the position and
      generation from its options and never the heading, so the state is
      `Launch` of those three; `Launch` is the form a burst uses, where the
      position and generation are known without an options record. */
  function Initial(options: ParticleOptions, d: Draw): ParticleState {
    Launch(options.x, options.y, options.generation, d)
  }

  /** The field initialisers, then the generation-dependent part of the
      constructor, for a particle of `generation` at (x, y). */
  function Launch(x: real, y: real, generation: nat, d: Draw): ParticleState {
    var child := generation > 0;
    var vx := if child then PickOne(d.pick, RandomFloat(d.vxLeft, -3.0, -1.0), RandomFloat(d.vxRight, 1.0, 3.0))
              else PickOne(d.pick, RandomFloat(d.vxLeft, -5.0, -3.0), RandomFloat(d.vxRight, 3.0, 5.0));
    var vy := if child then RandomFloat(d.vy, -6.0, -3.0) else RandomFloat(d.vy, -8.0, -4.0);
    ParticleState(
      generation := generation,
      imageIndex := if child then RandomInt(d.image, 1, Colors - 1) else 0,
      position := Vec(x, y),
      velocity := Vec(vx, vy),
      alphaReducer := if child then BaseAlphaReducer + ChildAlphaBonus else BaseAlphaReducer,
      scale := 0.0,
      angle := 20.0 - RandomInt(d.angle, 0, 40) as real,
      alpha := 1.0,
      spin := if vx < 0.0 then RandomFloat(d.spin, -0.05, 0.0) else RandomFloat(d.spin, 0.0, 0.05))
  }

  /** One tick of motion. Position advances by the old velocity. */
  function Moved(s: ParticleState): ParticleState {
    var velocity := Vec(s.velocity.x * Friction, s.velocity.y + Gravity);
    s.(position := Vec(s.position.x + s.velocity.x, s.position.y + s.velocity.y),
       velocity := velocity,
       angle := s.angle + s.spin,
       alpha := if velocity.y > 0.0 then s.alpha * s.alphaReducer else s.alpha,
       scale := if s.scale < 1.0 then s.scale + ScaleStep else 1.0)
  }

  /** The state after `n` ticks of motion. */
  function Moves(s: ParticleState, n: nat): ParticleState
    decreases n
  {
    if n == 0 then s else Moves(Moved(s), n - 1)
  }

  predicate Expired(s: ParticleState) {
    s.alpha < DestroyAlpha
  }

  /** What every particle keeps true: it is visible and fades by a factor of
      at most 0.97 whenever it fades. */
  predicate WellFormed(s: ParticleState) {
    0.0 < s.alpha && 0.0 < s.alphaReducer <= BaseAlphaReducer + ChildAlphaBonus
  }

  /** A particle as the animation loop holds it. `position` and `velocity` are
      values, so the constructor's copy of the options' coordinates is implicit. */
  class Particle {
    var generation: nat
    var imageIndex: int
    var position: Vec
    var velocity: Vec
    const alphaReducer: real
    var scale: real
    var angle: real
    var alpha: real
    var spin: real

    function State(): ParticleState
      reads this
    {
      ParticleState(generation, imageIndex, position, velocity, alphaReducer, scale, angle, alpha, spin)
    }

    ghost predicate Valid()
      reads this
    {
      WellFormed(State())
    }

    constructor (options: ParticleOptions, random: Draw)
      ensures State() == Initial(options, random)
      ensures Valid()
    {
      var v: Vec;
      generation := options.generation;
      imageIndex := 0;
      scale := 0.0;
      angle := 20.0 - RandomInt(random.angle, 0, 40) as real;
      alpha := 1.0;
      position := Vec(options.x, options.y);
      if options.generation > 0 {
        imageIndex := RandomInt(random.image, 1, Colors - 1);
        alphaReducer := BaseAlphaReducer + ChildAlphaBonus;
        v := Vec(PickOne(random.pick, RandomFloat(random.vxLeft, -3.0, -1.0), RandomFloat(random.vxRight, 1.0, 3.0)),
                 RandomFloat(random.vy, -6.0, -3.0));
      } else {
        alphaReducer := BaseAlphaReducer;
        v := Vec(PickOne(random.pick, RandomFloat(random.vxLeft, -5.0, -3.0), RandomFloat(random.vxRight, 3.0, 5.0)),
                 RandomFloat(random.vy, -8.0, -4.0));
      }
      velocity := v;
      spin := if v.x < 0.0 then RandomFloat(random.spin, -0.05, 0.0) else RandomFloat(random.spin, 0.0, 0.05);
    }

    method Move()
      modifies this
      ensures State() == Moved(old(State()))
      ensures old(Valid()) ==> Valid()
    {
      position := Vec(position.x + velocity.x, position.y + velocity.y);
      velocity := Vec(velocity.x * Friction, velocity.y + Gravity);
      angle := angle + spin;
      if velocity.y > 0.0 {
        alpha := alpha * alphaReducer;
      }
      scale := if scale < 1.0 then scale + ScaleStep else 1.0;
      if WellFormed(old(State())) {
        MovedKeepsWellFormed(old(State()));
      }
    }

    method CheckDestroy() returns (destroy: bool)
      ensures destroy <==> Expired(State())
    {
      destroy := alpha < DestroyAlpha;
    }
  }

  /** Start state by generation: alpha 1, scale 0, an integer angle in [-20, 20];
      generation 0 uses image 0, reducer 0.95, |vx| in [3, 5), vy in [-8, -4);
      later generations use images 1..3, reducer 0.97, |vx| in [1, 3), vy in
      [-6, -3); the spin's sign follows vx. */
  lemma InitialRanges(options: ParticleOptions, d: Draw)
    requires Uniform(d)
    ensures var s := Initial(options, d);
      && WellFormed(s) && !Expired(s)
      && s.generation == options.generation
      && s.position == Vec(options.x, options.y)
      && s.alpha == 1.0 && s.scale == 0.0
      && -20.0 <= s.angle <= 20.0 && s.angle == s.angle.Floor as real
      && (options.generation == 0 ==>
            && s.imageIndex == 0 && s.alphaReducer == 0.95
            && ((-5.0 <= s.velocity.x < -3.0) || (3.0 <= s.velocity.x < 5.0))
            && -8.0 <= s.velocity.y < -4.0)
      && (options.generation > 0 ==>
            && 1 <= s.imageIndex <= 3 && s.alphaReducer == 0.97
            && ((-3.0 <= s.velocity.x < -1.0) || (1.0 <= s.velocity.x < 3.0))
            && -6.0 <= s.velocity.y < -3.0)
      && (s.velocity.x < 0.0 ==> -0.05 <= s.spin <= 0.0)
      && (s.velocity.x >= 0.0 ==> 0.0 <= s.spin <= 0.05)
  {
    RandomIntRange(d.angle, 0, 40);
    RandomIntRange(d.image, 1, Colors - 1);
    RandomFloatRange(d.vxLeft, -3.0, -1.0);
    RandomFloatRange(d.vxRight, 1.0, 3.0);
    RandomFloatRange(d.vxLeft, -5.0, -3.0);
    RandomFloatRange(d.vxRight, 3.0, 5.0);
    RandomFloatRange(d.vy, -6.0, -3.0);
    RandomFloatRange(d.vy, -8.0, -4.0);
    RandomFloatRange(d.spin, -0.05, 0.0);
    RandomFloatRange(d.spin, 0.0, 0.05);
  }

  /** A move keeps the particle well formed, never raises alpha, lowers it
      exactly when the particle is descending afterwards, and leaves the
      generation, image, spin and reducer alone. */
  lemma MovedKeepsWellFormed(s: ParticleState)
    requires WellFormed(s)
    ensures var m := Moved(s);
      && WellFormed(m)
      && m.alpha <= s.alpha
      && (m.alpha < s.alpha <==> m.velocity.y > 0.0)
      && m.generation == s.generation && m.imageIndex == s.imageIndex
      && m.spin == s.spin && m.alphaReducer == s.alphaReducer
  {
    var m := Moved(s);
    if m.velocity.y > 0.0 {
      assert m.alpha == s.alpha * s.alphaReducer;
      assert s.alpha * s.alphaReducer < s.alpha * 1.0;
    }
  }

  /** Gravity: after `n` moves the vertical velocity has grown by exactly
      n * 0.08, and nothing but motion fields changed. */
  lemma {:induction false} MovesVelocityY(s: ParticleState, n: nat)
    ensures Moves(s, n).velocity.y == s.velocity.y + n as real * Gravity
    ensures Moves(s, n).generation == s.generation
    ensures Moves(s, n).alphaReducer == s.alphaReducer
    decreases n
  {
    if n > 0 {
      MovesVelocityY(Moved(s), n - 1);
    }
  }

  /** Every particle the constructor can produce is descending after at most
      101 moves. */
  lemma DescendsWithin(options: ParticleOptions, d: Draw)
    requires Uniform(d)
    ensures Moves(Initial(options, d), 101).velocity.y > 0.0
  {
    InitialRanges(options, d);
    MovesVelocityY(Initial(options, d), 101);
  }

  /** Scale grows by 0.1 per move from k/10 and sticks at exactly 1. */
  lemma {:induction false} MovesScale(s: ParticleState, k: nat, n: nat)
    requires k <= 10 && s.scale == k as real / 10.0
    ensures Moves(s, n).scale == (if k + n < 10 then k + n else 10) as real / 10.0
    decreases n
  {
    if n > 0 {
      if k < 10 {
        MovesScale(Moved(s), k + 1, n - 1);
      } else {
        MovesScale(Moved(s), 10, n - 1);
      }
    }
  }

  /** From a fresh particle's scale 0, scale reaches 1 after ten moves and
      stays 1 afterwards. */
  lemma ScaleReachesOne(s: ParticleState, n: nat)
    requires s.scale == 0.0
    ensures n < 10 ==> Moves(s, n).scale == n as real / 10.0
    ensures n >= 10 ==> Moves(s, n).scale == 1.0
  {
    MovesScale(s, 0, n);
  }

  /** A bound on the moves a particle still has: 12.5 per unit of upward speed
      (gravity is 0.08) plus 500/3 per unit of alpha (one descending move of
      a live particle takes at least 0.2 * 0.03 = 0.006 off alpha). */
  function Potential(s: ParticleState): real {
    (if s.velocity.y < 0.0 then -s.velocity.y * 12.5 else 0.0) + s.alpha * (500.0 / 3.0)
  }

  function Life(s: ParticleState): nat {
    if Potential(s) < 0.0 then 0 else Potential(s).Floor
  }

  /** For a well-formed particle, Life is the potential rounded down. */
  lemma LifeOfPotential(s: ParticleState)
    requires WellFormed(s)
    ensures Life(s) as real <= Potential(s) < Life(s) as real + 1.0
  {
  }

  /** Every move of a live particle lowers its remaining life by at least one. */
  lemma LifeDrops(s: ParticleState)
    requires WellFormed(s) && !Expired(s)
    ensures WellFormed(Moved(s)) && Life(Moved(s)) < Life(s)
  {
    var m := Moved(s);
    MovedKeepsWellFormed(s);
    LifeOfPotential(s);
    LifeOfPotential(m);
    if m.velocity.y > 0.0 {
      var r := s.alphaReducer;
      assert s.alpha * (1.0 - r) >= DestroyAlpha * (1.0 - r);
      assert s.alpha - m.alpha >= 0.006;
      assert Potential(m) == m.alpha * (500.0 / 3.0);
      assert Potential(m) <= Potential(s) - 1.0;
    } else {
      assert s.velocity.y <= -Gravity;
      assert Potential(m) == Potential(s) - 1.0;
    }
  }

  /** Once expired, a particle stays expired however often it moves. */
  lemma {:induction false} StaysExpired(s: ParticleState, n: nat)
    requires WellFormed(s) && Expired(s)
    ensures WellFormed(Moves(s, n)) && Expired(Moves(s, n))
    decreases n
  {
    if n > 0 {
      MovedKeepsWellFormed(s);
      StaysExpired(Moved(s), n - 1);
    }
  }

  /** Moving a, then b times is moving a + b times. */
  lemma {:induction false} MovesAdd(s: ParticleState, a: nat, b: nat)
    ensures Moves(s, a + b) == Moves(Moves(s, a), b)
    decreases a
  {
    if a > 0 {
      MovesAdd(Moved(s), a - 1, b);
    }
  }

  /** A well-formed particle has expired after Life(s) + 1 moves at the latest. */
  lemma {:induction false} ExpiresAfterLife(s: ParticleState, n: nat)
    requires WellFormed(s) && n > Life(s)
    ensures Expired(Moves(s, n))
    decreases n
  {
    if Expired(s) {
      StaysExpired(s, n);
    } else {
      LifeDrops(s);
      ExpiresAfterLife(Moved(s), n - 1);
    }
  }

  /** The largest remaining life of a freshly constructed particle. */
  const LifeBound: nat := 266

  lemma InitialLife(options: ParticleOptions, d: Draw)
    requires Uniform(d)
    ensures Life(Initial(options, d)) <= LifeBound
  {
    var s := Initial(options, d);
    InitialRanges(options, d);
    LifeOfPotential(s);
    assert Potential(s) <= 100.0 + 500.0 / 3.0;
  }

  /** Every particle the constructor can produce has faded below 0.2 after
      267 moves: a finished particle within a bounded number of ticks. */
  lemma Lifetime(options: ParticleOptions, d: Draw, n: nat)
    requires Uniform(d) && n > LifeBound
    ensures Expired(Moves(Initial(options, d), n))
  {
    InitialRanges(options, d);
    InitialLife(options, d);
    ExpiresAfterLife(Initial(options, d), n);
  }
}
