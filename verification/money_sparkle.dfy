/** The component that runs a burst: it merges the caller's options with the
    defaults, shows the canvas, builds the generation-0 fan of particles, ticks
    the particle list until it is empty, and hides the canvas again. */
module Sparkle {
  import opened Particles
  import opened BurstStep

  datatype Option<T> = None | Some(value: T)

  /** What a caller of start may pass; a missing field is `None`. */
  datatype Options = Options(x: Option<real>, y: Option<real>, generation: Option<int>, count: Option<nat>)

  /** The options once merged with the defaults: every field is present.
      `generation` is the largest generation that still has children. */
  datatype Settings = Settings(x: real, y: real, generation: int, count: nat)

  const DefaultOptions: Settings := Settings(0.0, 0.0, 1, 50)

  function Or<T>(supplied: Option<T>, default: T): T {
    match supplied
    case Some(v) => v
    case None => default
  }

  /** `{ ...defaultOptions, ...options }`: a supplied field overrides, a
      missing one takes its default x = 0, y = 0, generation = 1, count = 50. */
  function Merge(options: Options): (r: Settings)
    ensures options.x.Some? ==> r.x == options.x.value
    ensures options.y.Some? ==> r.y == options.y.value
    ensures options.generation.Some? ==> r.generation == options.generation.value
    ensures options.count.Some? ==> r.count == options.count.value
    ensures options.x.None? ==> r.x == 0.0
    ensures options.y.None? ==> r.y == 0.0
    ensures options.generation.None? ==> r.generation == 1
    ensures options.count.None? ==> r.count == 50
  {
    Settings(Or(options.x, DefaultOptions.x), Or(options.y, DefaultOptions.y),
             Or(options.generation, DefaultOptions.generation), Or(options.count, DefaultOptions.count))
  }

  /** Merging settings that are already complete changes nothing. */
  lemma MergeComplete(s: Settings)
    ensures Merge(Options(Some(s.x), Some(s.y), Some(s.generation), Some(s.count))) == s
  {
  }

  /** The particle at place i of a list. Distinct is stated over it, so its
      pairwise quantifier fires only where a proof names a place. */
  ghost function At(ps: seq<Particle>, i: nat): Particle
    requires i < |ps|
  {
    ps[i]
  }

  /** No particle occurs twice in the list. */
  ghost predicate Distinct(ps: seq<Particle>) {
    forall i, j :: 0 <= i < j < |ps| ==> At(ps, i) != At(ps, j)
  }

  lemma DistinctAppend(a: seq<Particle>, b: seq<Particle>)
    requires Distinct(a) && Distinct(b)
    requires forall x :: x in b ==> x !in a
    ensures Distinct(a + b)
  {
    forall i, j | 0 <= i < j < |a + b|
      ensures At(a + b, i) != At(a + b, j)
    {
      if j < |a| {
        assert At(a, i) != At(a, j);
      } else if i >= |a| {
        assert At(b, i - |a|) != At(b, j - |a|);
      } else {
        assert (a + b)[j] in b;
      }
    }
  }

  /** In a list without repeats, the particles after place i are all other
      than the one at i. */
  lemma DistinctAfter(ps: seq<Particle>, i: nat)
    requires Distinct(ps) && i < |ps|
    ensures forall k :: i < k < |ps| ==> ps[k] != ps[i]
  {
    forall k | i < k < |ps|
      ensures ps[k] != ps[i]
    {
      assert At(ps, i) != At(ps, k);
    }
  }

  /** The states of a list of particles, in order. */
  ghost function StatesOf(ps: seq<Particle>): (r: seq<ParticleState>)
    reads ps
    ensures |r| == |ps| && forall i :: 0 <= i < |ps| ==> r[i] == ps[i].State()
  {
    seq(|ps|, i reads ps requires 0 <= i < |ps| => ps[i].State())
  }

  lemma StatesOfAppend(a: seq<Particle>, b: seq<Particle>)
    ensures StatesOf(a + b) == StatesOf(a) + StatesOf(b)
  {
    assert forall i :: 0 <= i < |a| + |b| ==> StatesOf(a + b)[i] == (StatesOf(a) + StatesOf(b))[i];
  }

  /** Appending one particle appends its state. */
  lemma StatesOfSnoc(a: seq<Particle>, p: Particle)
    ensures StatesOf(a + [p]) == StatesOf(a) + [p.State()]
  {
    assert forall i :: 0 <= i <= |a| ==> StatesOf(a + [p])[i] == (StatesOf(a) + [p.State()])[i];
  }

  class MoneySparkle {
    var visibility: bool
    var particles: seq<Particle>

    /** The particle list holds each particle once. */
    ghost predicate Valid()
      reads this
    {
      Distinct(particles)
    }

    constructor ()
      ensures Valid() && !visibility && particles == []
    {
      visibility := false;
      particles := [];
    }

    /** initParticles: `count` new particles at (x, y) of one generation, with
        headings fanned across [-pi/4, pi/4]; particle i draws random(offset + i). */
    method InitParticles(x: real, y: real, count: nat, generation: nat, random: nat -> Draw, offset: nat)
      returns (r: seq<Particle>)
      requires RandomStream(random)
      ensures Distinct(r) && forall p :: p in r ==> fresh(p)
      ensures StatesOf(r) == Spawn(x, y, count, generation, random, offset)
    {
      r := [];
      var i := 0;
      while i < count
        invariant 0 <= i <= count
        invariant Distinct(r) && forall p :: p in r ==> fresh(p)
        invariant StatesOf(r) == Spawn(x, y, i, generation, random, offset)
      {
        var baseAngle := BaseAngle(i, count);
        var particle := new Particle(ParticleOptions(x, y, generation, baseAngle), random(offset + i));
        StatesOfSnoc(r, particle);
        DistinctAppend(r, [particle]);
        r := r + [particle];
        i := i + 1;
      }
    }

    /** One turn of the loop of draw, for the particle at place i of a list
        whose states were `ss`. An expired particle is left as it is and,
        below the generation bound, yields ceil(count / 2) children at its
        position, drawing random numbers from `next` on; a live one is moved
        once and kept. */
    method Turn(particle: Particle, count: nat, maxGeneration: int, random: nat -> Draw,
                ghost ss: seq<ParticleState>, ghost i: nat, ghost offset: nat,
                kept: seq<Particle>, born: seq<Particle>, next: nat)
      returns (kept': seq<Particle>, born': seq<Particle>, next': nat)
      requires i < |ss| && particle.State() == ss[i] && RandomStream(random)
      requires particle !in kept && particle !in born
      requires StatesOf(kept) == Kept(ss, i)
      requires StatesOf(born) == Born(ss, i, count, maxGeneration, random, offset)
      requires next == offset + ChildCount(ss, i, count, maxGeneration)
      requires Distinct(kept) && Distinct(born)
      modifies particle
      ensures StatesOf(kept') == Kept(ss, i + 1)
      ensures StatesOf(born') == Born(ss, i + 1, count, maxGeneration, random, offset)
      ensures next' == offset + ChildCount(ss, i + 1, count, maxGeneration)
      ensures Distinct(kept') && Distinct(born')
      ensures kept' == kept || kept' == kept + [particle]
      ensures forall p :: p in born' ==> p in born || fresh(p)
    {
      TickStep(ss, i, count, maxGeneration, random, offset);
      kept', born', next' := kept, born, next;
      var destroy := particle.CheckDestroy();
      if destroy {
        if particle.generation < maxGeneration {
          var children := InitParticles(particle.position.x, particle.position.y, Half(count),
                                        particle.generation + 1, random, next);
          StatesOfAppend(born, children);
          DistinctAppend(born, children);
          born' := born + children;
          next' := next + |children|;
        } else {
          assert StatesOf(born) + [] == StatesOf(born);
        }
        assert StatesOf(kept) + [] == StatesOf(kept);
      } else {
        particle.Move();
        StatesOfSnoc(kept, particle);
        DistinctAppend(kept, [particle]);
        kept' := kept + [particle];
        assert StatesOf(born) + [] == StatesOf(born);
      }
    }

    /** The loop of draw: each particle takes its turn in list order. The
        survivors and the children are collected apart, and `next` moves past
        the random numbers the children consumed. */
    method Sweep(count: nat, maxGeneration: int, random: nat -> Draw, offset: nat)
      returns (kept: seq<Particle>, born: seq<Particle>, next: nat)
      requires Valid() && RandomStream(random)
      modifies particles
      ensures StatesOf(kept) == Kept(old(StatesOf(particles)), |particles|)
      ensures StatesOf(born) == Born(old(StatesOf(particles)), |particles|, count, maxGeneration, random, offset)
      ensures next == offset + ChildCount(old(StatesOf(particles)), |particles|, count, maxGeneration)
      ensures Distinct(kept) && Distinct(born)
      ensures forall p :: p in kept ==> p in particles
      ensures forall p :: p in born ==> fresh(p)
    {
      ghost var before := StatesOf(particles);
      kept, born, next := [], [], offset;
      var i := 0;
      while i < |particles|
        invariant 0 <= i <= |particles|
        invariant forall k :: i <= k < |particles| ==> particles[k].State() == before[k]
        invariant StatesOf(kept) == Kept(before, i)
        invariant StatesOf(born) == Born(before, i, count, maxGeneration, random, offset)
        invariant next == offset + ChildCount(before, i, count, maxGeneration)
        invariant Distinct(kept) && Distinct(born)
        invariant forall p :: p in kept ==> p in particles
        invariant forall p, k :: p in kept && i <= k < |particles| ==> p != particles[k]
        invariant forall p :: p in born ==> fresh(p)
      {
        var particle := particles[i];
        DistinctAfter(particles, i);
        kept, born, next := Turn(particle, count, maxGeneration, random, before, i, offset, kept, born, next);
        i := i + 1;
      }
    }

    /** One call of draw: every expired particle is dropped and, below the
        generation bound, replaced by ceil(count / 2) children at its position;
        every live particle is moved once and kept. The new list is the
        survivors in their old order followed by the children. Children take
        their random numbers from random(offset) on; `next` is where the
        following tick continues. */
    method Tick(count: nat, maxGeneration: int, random: nat -> Draw, offset: nat) returns (next: nat)
      requires Valid() && RandomStream(random)
      modifies this, particles
      ensures Valid() && visibility == old(visibility)
      ensures StatesOf(particles) == Next(old(StatesOf(particles)), count, maxGeneration, random, offset)
      ensures next == offset + ChildCount(old(StatesOf(particles)), |old(particles)|, count, maxGeneration)
      ensures CountLive(old(StatesOf(particles)), |old(particles)|) <= |particles|
      ensures forall j :: 0 <= j < CountLive(old(StatesOf(particles)), |old(particles)|) ==> particles[j] in old(particles)
      ensures forall j :: CountLive(old(StatesOf(particles)), |old(particles)|) <= j < |particles| ==> fresh(particles[j])
      ensures forall p :: p in particles ==> p in old(particles) || fresh(p)
    {
      ghost var before := StatesOf(particles);
      var kept, born;
      kept, born, next := Sweep(count, maxGeneration, random, offset);
      StatesOfAppend(kept, born);
      KeptLength(before, |before|);
      DistinctAppend(kept, born);
      assert forall j :: 0 <= j < |kept| ==> kept[j] in kept;
      assert forall j :: 0 <= j < |born| ==> born[j] in born;
      particles := kept + born;
      assert forall j :: |kept| <= j < |particles| ==> particles[j] == born[j - |kept|];
    }

    /** draw, with its re-invocation per animation frame written as a loop: a
        first tick, then one more tick for as long as particles remain, always
        with the burst's original `count` and generation bound. The number of
        ticks is bounded by the cost of the list it starts from. The
        generation part of the precondition is not needed for that bound; it
        carries the invariant that no particle of the burst ever exceeds the
        generation bound (or 0 when the bound is negative) from tick to tick. */
    method Animate(count: nat, maxGeneration: int, random: nat -> Draw, offset: nat) returns (ticks: nat)
      requires Valid() && RandomStream(random)
      requires forall i :: 0 <= i < |particles| ==>
        WellFormed(StatesOf(particles)[i]) && StatesOf(particles)[i].generation <= (if maxGeneration < 0 then 0 else maxGeneration)
      modifies this, set p | p in particles
      ensures Valid() && particles == [] && visibility == old(visibility)
      ensures 1 <= ticks <= TotalCost(old(StatesOf(particles)), |old(particles)|, count, maxGeneration) + 1
    {
      ghost var bound := if maxGeneration < 0 then 0 else maxGeneration;
      ghost var states := StatesOf(particles);
      ghost var initialCost := TotalCost(states, |states|, count, maxGeneration);
      var next := Tick(count, maxGeneration, random, offset);
      TickLowersCost(states, count, maxGeneration, random, offset);
      GenerationBound(states, count, maxGeneration, random, offset, bound);
      NextWellFormed(states, count, maxGeneration, random, offset);
      states := Next(states, count, maxGeneration, random, offset);
      ticks := 1;
      while |particles| > 0
        invariant Valid() && visibility == old(visibility)
        invariant forall p :: p in particles ==> p in old(particles) || fresh(p)
        invariant states == StatesOf(particles)
        invariant forall i :: 0 <= i < |states| ==> WellFormed(states[i]) && states[i].generation <= bound
        invariant ticks + TotalCost(states, |states|, count, maxGeneration) <= initialCost + 1
        decreases TotalCost(states, |states|, count, maxGeneration)
      {
        var offsetNow := next;
        next := Tick(count, maxGeneration, random, next);
        TickLowersCost(states, count, maxGeneration, random, offsetNow);
        GenerationBound(states, count, maxGeneration, random, offsetNow, bound);
        NextWellFormed(states, count, maxGeneration, random, offsetNow);
        states := Next(states, count, maxGeneration, random, offsetNow);
        ticks := ticks + 1;
      }
    }

    /** start followed by the queued run: merge the options with the defaults,
        show, spawn `count` generation-0 particles at (x, y), tick until none
        are left, hide. Every burst ends, within a number of ticks fixed by
        `count` and the generation bound alone. */
    method Start(options: Options, random: nat -> Draw) returns (ticks: nat)
      requires RandomStream(random)
      modifies this
      ensures !visibility && particles == []
      ensures 1 <= ticks <= Merge(options).count * (LifeBound + 1 + Offspring(0, Merge(options).count, Merge(options).generation)) + 1
    {
      var settings := Merge(options);
      visibility := true;
      particles := InitParticles(settings.x, settings.y, settings.count, 0, random, 0);
      ghost var spawned := StatesOf(particles);
      SpawnCostBound(settings.x, settings.y, settings.count, 0, random, 0, settings.count, settings.generation);
      forall i | 0 <= i < |spawned|
        ensures spawned[i].generation == 0 && WellFormed(spawned[i])
      {
        SpawnRanges(settings.x, settings.y, settings.count, 0, random, 0, i);
      }
      ticks := Animate(settings.count, settings.generation, random, settings.count);
      visibility := false;
    }
  }
}
