/** One tick of a money-sparkle burst as a function on particle states, and
    what it promises: which particles survive and in what order, how many
    children appear and where, the generation bound, and a cost that every
    tick lowers, so a burst ends. */
module BurstStep {
  import opened Particles

  /** Math.PI, the double closest to pi, taken as an exact real. */
  const Pi: real := 3.141592653589793

  /** Every Math.random() value the burst will consume lies in [0, 1). */
  ghost predicate RandomStream(random: nat -> Draw) {
    forall k: nat :: Uniform(random(k))
  }

  /** Math.ceil(count / 2): the least number whose double reaches `count`. */
  function Half(count: nat): (h: nat)
    ensures count <= 2 * h <= count + 1
  {
    (count + 1) / 2
  }

  /** The fan-out heading of particle `i` of `count`: from -pi/4 to +pi/4 in
      equal steps. For a single particle the source divides 0 by 0. */
  function BaseAngle(i: int, count: nat): Angle {
    var angleRange := Pi / 4.0;
    if count == 1 then NaN
    else Radians(-angleRange + 2.0 * angleRange * i as real / (count - 1) as real)
  }

  /** The options initParticles hands to each of its `count` particles. */
  function FanOut(x: real, y: real, count: nat, generation: nat): (r: seq<ParticleOptions>)
    ensures |r| == count
  {
    seq(count, i => ParticleOptions(x, y, generation, BaseAngle(i, count)))
  }

  /** The states of the first `count` particles initParticles builds, the
      i-th drawing its random numbers from random(offset + i). Their headings
      do not enter their states; SpawnAt relates them to the fan-out. */
  function Spawn(x: real, y: real, count: nat, generation: nat, random: nat -> Draw, offset: nat): (r: seq<ParticleState>)
    ensures |r| == count
  {
    if count == 0 then []
    else Spawn(x, y, count - 1, generation, random, offset) + [Launch(x, y, generation, random(offset + count - 1))]
  }

  /** Particle j of a burst is the one the constructor builds from the j-th
      fan-out options and the j-th draw. */
  lemma {:induction false} SpawnAt(x: real, y: real, count: nat, generation: nat, random: nat -> Draw, offset: nat, j: nat)
    requires j < count
    ensures Spawn(x, y, count, generation, random, offset)[j] == Launch(x, y, generation, random(offset + j))
    ensures Spawn(x, y, count, generation, random, offset)[j] == Initial(FanOut(x, y, count, generation)[j], random(offset + j))
  {
    if j < count - 1 {
      SpawnAt(x, y, count - 1, generation, random, offset, j);
    }
  }

  /** Every particle of a burst starts at the burst's point, in the burst's
      generation, whatever the draws. */
  lemma {:induction false} SpawnPlace(x: real, y: real, count: nat, generation: nat, random: nat -> Draw, offset: nat, j: nat)
    requires j < count
    ensures Spawn(x, y, count, generation, random, offset)[j].generation == generation
    ensures Spawn(x, y, count, generation, random, offset)[j].position == Vec(x, y)
  {
    SpawnAt(x, y, count, generation, random, offset, j);
  }

  /** A particle as initParticles leaves it: at (x, y) in the given
      generation, fully opaque, unscaled, well formed and with at most
      LifeBound ticks to live. */
  predicate Newborn(p: ParticleState, x: real, y: real, generation: nat) {
    && p.generation == generation && p.position == Vec(x, y)
    && p.alpha == 1.0 && p.scale == 0.0
    && WellFormed(p) && Life(p) <= LifeBound
  }

  /** With draws in [0, 1), every particle of a burst also starts fully
      opaque, unscaled, well formed and with at most LifeBound ticks to live. */
  lemma {:induction false} SpawnRanges(x: real, y: real, count: nat, generation: nat, random: nat -> Draw, offset: nat, j: nat)
    requires RandomStream(random) && j < count
    ensures Newborn(Spawn(x, y, count, generation, random, offset)[j], x, y, generation)
  {
    var options := ParticleOptions(x, y, generation, NaN);
    var d := random(offset + j);
    assert Uniform(d);
    SpawnAt(x, y, count, generation, random, offset, j);
    InitialRanges(options, d);
    InitialLife(options, d);
  }

  /** A particle that is dropped this tick and leaves children behind. */
  predicate Spawns(s: ParticleState, maxGeneration: int) {
    Expired(s) && s.generation < maxGeneration
  }

  /** What one particle adds to the survivors: itself, moved once, unless it
      has expired. */
  function KeptOf(s: ParticleState): seq<ParticleState> {
    if Expired(s) then [] else [Moved(s)]
  }

  /** What one particle adds to the children: an expired particle below the
      generation bound leaves the burst initParticles makes at its position,
      ceil(count / 2) particles of the next generation drawing random(at) on. */
  function BornOf(s: ParticleState, count: nat, maxGeneration: int, random: nat -> Draw, at: nat): (r: seq<ParticleState>)
    ensures |r| == if Spawns(s, maxGeneration) then Half(count) else 0
  {
    if Spawns(s, maxGeneration)
    then Spawn(s.position.x, s.position.y, Half(count), s.generation + 1, random, at)
    else []
  }

  // The loop of draw walks the list in order; the functions below give its
  // outcome after the first n particles of ss.

  /** How many of the first n particles are still alive. */
  function CountLive(ss: seq<ParticleState>, n: nat): nat
    requires n <= |ss|
  {
    if n == 0 then 0 else CountLive(ss, n - 1) + (if Expired(ss[n - 1]) then 0 else 1)
  }

  /** How many of the first n particles leave children. */
  function CountSpawning(ss: seq<ParticleState>, n: nat, maxGeneration: int): nat
    requires n <= |ss|
  {
    if n == 0 then 0 else CountSpawning(ss, n - 1, maxGeneration) + (if Spawns(ss[n - 1], maxGeneration) then 1 else 0)
  }

  /** How many children the first n particles leave: ceil(count / 2) for each
      one that spawns. */
  function ChildCount(ss: seq<ParticleState>, n: nat, count: nat, maxGeneration: int): nat
    requires n <= |ss|
  {
    if n == 0 then 0
    else ChildCount(ss, n - 1, count, maxGeneration) + (if Spawns(ss[n - 1], maxGeneration) then Half(count) else 0)
  }

  /** That is, ceil(count / 2) times the number of spawning particles. */
  lemma {:induction false} ChildCountProduct(ss: seq<ParticleState>, n: nat, count: nat, maxGeneration: int)
    requires n <= |ss|
    ensures ChildCount(ss, n, count, maxGeneration) == CountSpawning(ss, n, maxGeneration) * Half(count)
  {
    if n > 0 {
      ChildCountProduct(ss, n - 1, count, maxGeneration);
      MulSucc(CountSpawning(ss, n - 1, maxGeneration), Half(count));
    }
  }

  lemma {:induction false} MulSucc(k: nat, h: nat)
    ensures (k + 1) * h == k * h + h
  {
  }

  /** The survivors among the first n particles: each live one, moved once,
      in list order. */
  function Kept(ss: seq<ParticleState>, n: nat): seq<ParticleState>
    requires n <= |ss|
  {
    if n == 0 then []
    else Kept(ss, n - 1) + KeptOf(ss[n - 1])
  }

  /** The children the first n particles leave: for each expired particle
      below the generation bound, in list order, ceil(count / 2) fresh
      particles of the next generation at its position. They consume the
      random numbers from random(offset) on, in order. */
  function Born(ss: seq<ParticleState>, n: nat, count: nat, maxGeneration: int, random: nat -> Draw, offset: nat): seq<ParticleState>
    requires n <= |ss|
  {
    if n == 0 then []
    else
      Born(ss, n - 1, count, maxGeneration, random, offset) +
      BornOf(ss[n - 1], count, maxGeneration, random, offset + ChildCount(ss, n - 1, count, maxGeneration))
  }

  /** The particle list after one tick: survivors, then the new children. */
  function Next(ss: seq<ParticleState>, count: nat, maxGeneration: int, random: nat -> Draw, offset: nat): seq<ParticleState>
  {
    Kept(ss, |ss|) + Born(ss, |ss|, count, maxGeneration, random, offset)
  }

  /** How a tick's outcome grows as the loop of draw takes particle i: a live
      particle adds itself, moved once, to the survivors; an expired one below
      the generation bound adds ceil(count / 2) children drawing from the
      random numbers after those of the children before them; any other
      particle adds nothing. */
  lemma {:induction false} TickStep(ss: seq<ParticleState>, i: nat, count: nat, maxGeneration: int, random: nat -> Draw, offset: nat)
    requires i < |ss|
    ensures Kept(ss, i + 1) == Kept(ss, i) + KeptOf(ss[i])
    ensures Born(ss, i + 1, count, maxGeneration, random, offset)
         == Born(ss, i, count, maxGeneration, random, offset)
            + BornOf(ss[i], count, maxGeneration, random, offset + ChildCount(ss, i, count, maxGeneration))
    ensures ChildCount(ss, i + 1, count, maxGeneration)
         == ChildCount(ss, i, count, maxGeneration) + (if Spawns(ss[i], maxGeneration) then Half(count) else 0)
  {
  }

  // ---------------------------------------------------------------------------
  // Fan-out

  /** For two or more particles the headings run from exactly -pi/4 to exactly
      +pi/4 in equal steps of (pi/2) / (count - 1); for one particle the
      heading is NaN. Every particle gets the same origin and generation. */
  lemma {:induction false} FanOutAngles(x: real, y: real, count: nat, generation: nat)
    ensures var r := FanOut(x, y, count, generation);
      && (forall i :: 0 <= i < count ==> r[i].x == x && r[i].y == y && r[i].generation == generation)
      && (count == 1 ==> r[0].baseAngle == NaN)
      && (count >= 2 ==>
            && r[0].baseAngle == Radians(-Pi / 4.0)
            && r[count - 1].baseAngle == Radians(Pi / 4.0)
            && (forall i :: 0 <= i < count ==>
                  r[i].baseAngle.Radians? && -Pi / 4.0 <= r[i].baseAngle.value <= Pi / 4.0)
            && (forall i :: 0 <= i < count - 1 ==>
                  r[i + 1].baseAngle.value - r[i].baseAngle.value == (Pi / 2.0) / (count - 1) as real))
  {
    var r := FanOut(x, y, count, generation);
    if count >= 2 {
      forall i | 0 <= i < count
        ensures r[i].baseAngle.Radians? && -Pi / 4.0 <= r[i].baseAngle.value <= Pi / 4.0
      {
        Heading(i, count);
      }
      forall i | 0 <= i < count - 1
        ensures r[i + 1].baseAngle.value - r[i].baseAngle.value == (Pi / 2.0) / (count - 1) as real
      {
        HeadingStep(i, count);
      }
      Heading(0, count);
      Heading(count - 1, count);
    }
  }

  /** Heading i of count >= 2 lies the fraction i / (count - 1) of the way
      from -pi/4 to +pi/4; the first is -pi/4 and the last +pi/4. */
  lemma {:induction false} Heading(i: nat, count: nat)
    requires 2 <= count && i < count
    ensures var t := i as real / (count - 1) as real;
      && 0.0 <= t <= 1.0
      && BaseAngle(i, count) == Radians(-Pi / 4.0 + (Pi / 2.0) * t)
      && -Pi / 4.0 <= BaseAngle(i, count).value <= Pi / 4.0
    ensures i == 0 ==> BaseAngle(i, count) == Radians(-Pi / 4.0)
    ensures i == count - 1 ==> BaseAngle(i, count) == Radians(Pi / 4.0)
  {
    var d := (count - 1) as real;
    var a := Pi / 4.0;
    UnitFraction(i as real, d);
    MulDiv(2.0 * a, i as real, d);
    ScaleUnit(2.0 * a, i as real / d);
  }

  lemma UnitFraction(n: real, d: real)
    requires 0.0 <= n <= d && 0.0 < d
    ensures 0.0 <= n / d <= 1.0 && (n == d ==> n / d == 1.0)
  {
  }

  lemma MulDiv(c: real, n: real, d: real)
    requires d != 0.0
    ensures c * n / d == c * (n / d)
  {
  }

  lemma ScaleUnit(c: real, t: real)
    requires 0.0 <= c && 0.0 <= t <= 1.0
    ensures 0.0 <= c * t <= c
  {
  }

  /** Neighbouring headings differ by (pi/2) / (count - 1). */
  lemma {:induction false} HeadingStep(i: nat, count: nat)
    requires 2 <= count && i + 1 < count
    ensures BaseAngle(i + 1, count).value - BaseAngle(i, count).value == (Pi / 2.0) / (count - 1) as real
  {
    var d := (count - 1) as real;
    Heading(i, count);
    Heading(i + 1, count);
    StepDiff(Pi / 2.0, i as real, d);
  }

  lemma StepDiff(c: real, n: real, d: real)
    requires d != 0.0
    ensures c * ((n + 1.0) / d) - c * (n / d) == c / d
  {
    assert (n + 1.0) / d == n / d + 1.0 / d;
  }

  /** Three particles get the headings -pi/4, 0 and +pi/4. */
  lemma {:induction false} FanOutOfThree(x: real, y: real, generation: nat)
    ensures var r := FanOut(x, y, 3, generation);
      [r[0].baseAngle, r[1].baseAngle, r[2].baseAngle] == [Radians(-Pi / 4.0), Radians(0.0), Radians(Pi / 4.0)]
  {
    FanOutAngles(x, y, 3, generation);
  }

  // ---------------------------------------------------------------------------
  // Survivors

  lemma {:induction false} KeptLength(ss: seq<ParticleState>, n: nat)
    requires n <= |ss|
    ensures |Kept(ss, n)| == CountLive(ss, n)
  {
    if n > 0 {
      KeptLength(ss, n - 1);
    }
  }

  /** A live particle at index i lands, moved once, right after the survivors
      that precede it: the survivors keep their order. */
  lemma {:induction false} KeptAt(ss: seq<ParticleState>, n: nat, i: nat)
    requires i < n <= |ss| && !Expired(ss[i])
    ensures CountLive(ss, i) < |Kept(ss, n)|
    ensures Kept(ss, n)[CountLive(ss, i)] == Moved(ss[i])
  {
    KeptLength(ss, n - 1);
    if i < n - 1 {
      KeptAt(ss, n - 1, i);
    }
  }

  /** Survivor j of the first n particles is particle i, moved once. */
  predicate SurvivorOf(ss: seq<ParticleState>, n: nat, kept: seq<ParticleState>, j: nat, i: int) {
    && 0 <= i < n <= |ss| && !Expired(ss[i]) && CountLive(ss, i) == j
    && j < |kept| && kept[j] == Moved(ss[i])
  }

  /** Conversely, every survivor is some live particle, moved once, and sits at
      the place KeptAt gives it. */
  lemma {:induction false} KeptFrom(ss: seq<ParticleState>, n: nat, j: nat)
    requires n <= |ss| && j < |Kept(ss, n)|
    ensures exists i :: SurvivorOf(ss, n, Kept(ss, n), j, i)
  {
    KeptLength(ss, n - 1);
    if j < |Kept(ss, n - 1)| {
      KeptFrom(ss, n - 1, j);
      var i :| SurvivorOf(ss, n - 1, Kept(ss, n - 1), j, i);
      assert SurvivorOf(ss, n, Kept(ss, n), j, i);
    } else {
      assert SurvivorOf(ss, n, Kept(ss, n), j, n - 1);
    }
  }

  // ---------------------------------------------------------------------------
  // Children

  lemma {:induction false} BornLength(ss: seq<ParticleState>, n: nat, count: nat, maxGeneration: int, random: nat -> Draw, offset: nat)
    requires n <= |ss|
    ensures |Born(ss, n, count, maxGeneration, random, offset)| == ChildCount(ss, n, count, maxGeneration)
  {
    if n > 0 {
      BornLength(ss, n - 1, count, maxGeneration, random, offset);
    }
  }

  /** An expired particle below the generation bound contributes exactly the
      burst initParticles makes at its position: ceil(count / 2) particles of
      the next generation, placed after the children of earlier parents and
      drawing the random numbers that follow theirs. Child m is the one at
      place m - start of that burst. */
  lemma {:induction false} BornAt(ss: seq<ParticleState>, n: nat, count: nat, maxGeneration: int, random: nat -> Draw, offset: nat, i: nat, m: nat)
    requires i < n <= |ss| && Spawns(ss[i], maxGeneration)
    requires ChildCount(ss, i, count, maxGeneration) <= m < ChildCount(ss, i, count, maxGeneration) + Half(count)
    ensures m < |Born(ss, n, count, maxGeneration, random, offset)|
    ensures Born(ss, n, count, maxGeneration, random, offset)[m]
         == Spawn(ss[i].position.x, ss[i].position.y, Half(count), ss[i].generation + 1,
                  random, offset + ChildCount(ss, i, count, maxGeneration))[m - ChildCount(ss, i, count, maxGeneration)]
  {
    if i < n - 1 {
      BornAt(ss, n - 1, count, maxGeneration, random, offset, i, m);
    } else {
      BornLength(ss, i, count, maxGeneration, random, offset);
    }
  }

  /** Child m of the list `born` sits in the block of ceil(count / 2)
      children of the spawning particle ss[i], one of the first n, and is of
      the next generation at that particle's position. */
  predicate BlockOf(ss: seq<ParticleState>, n: nat, count: nat, maxGeneration: int, born: seq<ParticleState>, m: nat, i: int) {
    && 0 <= i < n <= |ss| && Spawns(ss[i], maxGeneration) && m < |born|
    && ChildCount(ss, i, count, maxGeneration) <= m < ChildCount(ss, i, count, maxGeneration) + Half(count)
    && born[m].generation == ss[i].generation + 1
    && born[m].position == ss[i].position
  }

  /** Conversely, every child comes from one spawning parent: the one whose
      block of ceil(count / 2) children holds it. */
  lemma {:induction false} BornFrom(ss: seq<ParticleState>, n: nat, count: nat, maxGeneration: int, random: nat -> Draw, offset: nat, m: nat)
    requires n <= |ss| && m < |Born(ss, n, count, maxGeneration, random, offset)|
    ensures exists i :: BlockOf(ss, n, count, maxGeneration, Born(ss, n, count, maxGeneration, random, offset), m, i)
  {
    var h := Half(count);
    var born, before := Born(ss, n, count, maxGeneration, random, offset), Born(ss, n - 1, count, maxGeneration, random, offset);
    BornLength(ss, n - 1, count, maxGeneration, random, offset);
    if m < |before| {
      BornFrom(ss, n - 1, count, maxGeneration, random, offset, m);
      var i :| BlockOf(ss, n - 1, count, maxGeneration, before, m, i);
      assert BlockOf(ss, n, count, maxGeneration, born, m, i) by {
        assert born[m] == before[m];
      }
    } else {
      var s := ss[n - 1];
      var at := offset + ChildCount(ss, n - 1, count, maxGeneration);
      var children := Spawn(s.position.x, s.position.y, h, s.generation + 1, random, at);
      assert BlockOf(ss, n, count, maxGeneration, born, m, n - 1) by {
        SpawnPlace(s.position.x, s.position.y, h, s.generation + 1, random, at, m - |before|);
        assert born[m] == children[m - |before|];
      }
    }
  }

  // ---------------------------------------------------------------------------
  // The whole list

  /** The list after a tick holds (live particles) + (spawning particles) *
      ceil(count / 2) particles: the survivors first, then the children. */
  lemma {:induction false} NextShape(ss: seq<ParticleState>, count: nat, maxGeneration: int, random: nat -> Draw, offset: nat)
    ensures var next := Next(ss, count, maxGeneration, random, offset);
      var live := CountLive(ss, |ss|);
      && |next| == live + CountSpawning(ss, |ss|, maxGeneration) * Half(count)
      && next[..live] == Kept(ss, |ss|)
      && next[live..] == Born(ss, |ss|, count, maxGeneration, random, offset)
  {
    KeptLength(ss, |ss|);
    BornLength(ss, |ss|, count, maxGeneration, random, offset);
    ChildCountProduct(ss, |ss|, count, maxGeneration);
  }

  /** A burst starts at generation 0 with a bound of at least 0 (or 0 itself
      when the bound is negative); a tick never lifts a particle above it. */
  lemma {:induction false} GenerationBound(ss: seq<ParticleState>, count: nat, maxGeneration: int, random: nat -> Draw, offset: nat, bound: int)
    requires maxGeneration <= bound
    requires forall i :: 0 <= i < |ss| ==> ss[i].generation <= bound
    ensures forall m :: 0 <= m < |Next(ss, count, maxGeneration, random, offset)| ==>
      Next(ss, count, maxGeneration, random, offset)[m].generation <= bound
  {
    var next := Next(ss, count, maxGeneration, random, offset);
    var kept, born := Kept(ss, |ss|), Born(ss, |ss|, count, maxGeneration, random, offset);
    forall m | 0 <= m < |next|
      ensures next[m].generation <= bound
    {
      if m < |kept| {
        KeptFrom(ss, |ss|, m);
        var i :| SurvivorOf(ss, |ss|, kept, m, i);
      } else {
        BornFrom(ss, |ss|, count, maxGeneration, random, offset, m - |kept|);
        var i :| BlockOf(ss, |ss|, count, maxGeneration, born, m - |kept|, i);
        assert next[m] == born[m - |kept|];
      }
    }
  }

  /** A tick keeps every particle well formed. */
  lemma {:induction false} NextWellFormed(ss: seq<ParticleState>, count: nat, maxGeneration: int, random: nat -> Draw, offset: nat)
    requires RandomStream(random)
    requires forall i :: 0 <= i < |ss| ==> WellFormed(ss[i])
    ensures forall m :: 0 <= m < |Next(ss, count, maxGeneration, random, offset)| ==>
      WellFormed(Next(ss, count, maxGeneration, random, offset)[m])
  {
    var next := Next(ss, count, maxGeneration, random, offset);
    var kept, born := Kept(ss, |ss|), Born(ss, |ss|, count, maxGeneration, random, offset);
    forall m | 0 <= m < |next|
      ensures WellFormed(next[m])
    {
      if m < |kept| {
        KeptFrom(ss, |ss|, m);
        var i :| SurvivorOf(ss, |ss|, kept, m, i);
        MovedKeepsWellFormed(ss[i]);
      } else {
        var h := Half(count);
        BornFrom(ss, |ss|, count, maxGeneration, random, offset, m - |kept|);
        var i :| BlockOf(ss, |ss|, count, maxGeneration, born, m - |kept|, i);
        var start := ChildCount(ss, i, count, maxGeneration);
        BornAt(ss, |ss|, count, maxGeneration, random, offset, i, m - |kept|);
        SpawnRanges(ss[i].position.x, ss[i].position.y, h, ss[i].generation + 1, random, offset + start, m - |kept| - start);
        assert next[m] == born[m - |kept|];
      }
    }
  }

  // ---------------------------------------------------------------------------
  // Termination

  /** An upper bound on the ticks the descendants of one particle of
      generation `g` can still take. */
  function Offspring(g: nat, count: nat, maxGeneration: int): nat
    decreases if g < maxGeneration then maxGeneration - g else 0
  {
    if g < maxGeneration then Half(count) * (LifeBound + 1 + Offspring(g + 1, count, maxGeneration)) else 0
  }

  /** The ticks a particle and all its descendants can still take. */
  function Cost(s: ParticleState, count: nat, maxGeneration: int): nat {
    Life(s) + 1 + Offspring(s.generation, count, maxGeneration)
  }

  /** The cost of the first n particles of a list. */
  function TotalCost(ss: seq<ParticleState>, n: nat, count: nat, maxGeneration: int): nat
    requires n <= |ss|
  {
    if n == 0 then 0 else TotalCost(ss, n - 1, count, maxGeneration) + Cost(ss[n - 1], count, maxGeneration)
  }

  lemma {:induction false} TotalCostPrefix(a: seq<ParticleState>, b: seq<ParticleState>, k: nat, count: nat, maxGeneration: int)
    requires k <= |a|
    ensures TotalCost(a + b, k, count, maxGeneration) == TotalCost(a, k, count, maxGeneration)
  {
    if k > 0 {
      TotalCostPrefix(a, b, k - 1, count, maxGeneration);
    }
  }

  /** Cost adds up over concatenation. */
  lemma {:induction false} TotalCostAppend(a: seq<ParticleState>, b: seq<ParticleState>, k: nat, count: nat, maxGeneration: int)
    requires k <= |b|
    ensures TotalCost(a + b, |a| + k, count, maxGeneration) == TotalCost(a, |a|, count, maxGeneration) + TotalCost(b, k, count, maxGeneration)
  {
    if k == 0 {
      TotalCostPrefix(a, b, |a|, count, maxGeneration);
    } else {
      TotalCostAppend(a, b, k - 1, count, maxGeneration);
    }
  }

  lemma {:induction false} TotalCostBound(ss: seq<ParticleState>, n: nat, count: nat, maxGeneration: int, c: nat)
    requires n <= |ss|
    requires forall i :: 0 <= i < |ss| ==> Cost(ss[i], count, maxGeneration) <= c
    ensures TotalCost(ss, n, count, maxGeneration) <= n * c
  {
    if n > 0 {
      TotalCostBound(ss, n - 1, count, maxGeneration, c);
      assert (n - 1) * c + c == n * c;
    }
  }

  /** A burst of `size` fresh particles of one generation costs at most `size`
      times the most a fresh particle of that generation can cost. */
  lemma {:induction false} SpawnCostBound(x: real, y: real, size: nat, generation: nat, random: nat -> Draw, offset: nat, count: nat, maxGeneration: int)
    requires RandomStream(random)
    ensures TotalCost(Spawn(x, y, size, generation, random, offset), size, count, maxGeneration)
         <= size * (LifeBound + 1 + Offspring(generation, count, maxGeneration))
  {
    var burst := Spawn(x, y, size, generation, random, offset);
    var c := LifeBound + 1 + Offspring(generation, count, maxGeneration);
    forall j | 0 <= j < |burst|
      ensures Cost(burst[j], count, maxGeneration) <= c
    {
      SpawnRanges(x, y, size, generation, random, offset, j);
    }
    TotalCostBound(burst, |burst|, count, maxGeneration, c);
  }

  /** The children of one spawning particle cost no more than the offspring
      allowance its own cost already reserves. */
  lemma {:induction false} SpawnCost(s: ParticleState, count: nat, maxGeneration: int, random: nat -> Draw, offset: nat)
    requires RandomStream(random) && Spawns(s, maxGeneration)
    ensures TotalCost(Spawn(s.position.x, s.position.y, Half(count), s.generation + 1, random, offset), Half(count), count, maxGeneration)
         <= Offspring(s.generation, count, maxGeneration)
  {
    SpawnCostBound(s.position.x, s.position.y, Half(count), s.generation + 1, random, offset, count, maxGeneration);
  }

  /** Every tick lowers the total cost by at least the number of particles it
      looks at, so a burst with particles left always gets closer to its end. */
  lemma {:induction false} TickLowersCost(ss: seq<ParticleState>, count: nat, maxGeneration: int, random: nat -> Draw, offset: nat)
    requires RandomStream(random)
    requires forall i :: 0 <= i < |ss| ==> WellFormed(ss[i])
    ensures TotalCost(Next(ss, count, maxGeneration, random, offset), |Next(ss, count, maxGeneration, random, offset)|, count, maxGeneration) + |ss|
         <= TotalCost(ss, |ss|, count, maxGeneration)
  {
    var kept, born := Kept(ss, |ss|), Born(ss, |ss|, count, maxGeneration, random, offset);
    KeptCost(ss, |ss|, count, maxGeneration);
    BornCost(ss, |ss|, count, maxGeneration, random, offset);
    AllowanceCost(ss, |ss|, count, maxGeneration);
    TotalCostAppend(kept, born, |born|, count, maxGeneration);
  }

  /** What the survivors among the first n particles cost, particle by particle. */
  function KeptAllowance(ss: seq<ParticleState>, n: nat, count: nat, maxGeneration: int): nat
    requires n <= |ss|
  {
    if n == 0 then 0
    else KeptAllowance(ss, n - 1, count, maxGeneration) + (if Expired(ss[n - 1]) then 0 else Cost(Moved(ss[n - 1]), count, maxGeneration))
  }

  /** The offspring allowance of the spawning particles among the first n. */
  function BornAllowance(ss: seq<ParticleState>, n: nat, count: nat, maxGeneration: int): nat
    requires n <= |ss|
  {
    if n == 0 then 0
    else BornAllowance(ss, n - 1, count, maxGeneration) + (if Spawns(ss[n - 1], maxGeneration) then Offspring(ss[n - 1].generation, count, maxGeneration) else 0)
  }

  lemma {:induction false} KeptCost(ss: seq<ParticleState>, n: nat, count: nat, maxGeneration: int)
    requires n <= |ss|
    ensures TotalCost(Kept(ss, n), |Kept(ss, n)|, count, maxGeneration) == KeptAllowance(ss, n, count, maxGeneration)
  {
    if n > 0 {
      var last := KeptOf(ss[n - 1]);
      TotalCostAppend(Kept(ss, n - 1), last, |last|, count, maxGeneration);
      KeptCost(ss, n - 1, count, maxGeneration);
    }
  }

  lemma {:induction false} BornCost(ss: seq<ParticleState>, n: nat, count: nat, maxGeneration: int, random: nat -> Draw, offset: nat)
    requires RandomStream(random) && n <= |ss|
    ensures TotalCost(Born(ss, n, count, maxGeneration, random, offset), |Born(ss, n, count, maxGeneration, random, offset)|, count, maxGeneration)
         <= BornAllowance(ss, n, count, maxGeneration)
  {
    if n > 0 {
      var at := offset + ChildCount(ss, n - 1, count, maxGeneration);
      CostOfAppend(Born(ss, n, count, maxGeneration, random, offset), Born(ss, n - 1, count, maxGeneration, random, offset),
                   BornOf(ss[n - 1], count, maxGeneration, random, at), count, maxGeneration);
      BornOfCost(ss[n - 1], count, maxGeneration, random, at);
      BornCost(ss, n - 1, count, maxGeneration, random, offset);
    }
  }

  lemma {:induction false} CostOfAppend(all: seq<ParticleState>, a: seq<ParticleState>, b: seq<ParticleState>, count: nat, maxGeneration: int)
    requires all == a + b
    ensures TotalCost(all, |all|, count, maxGeneration) == TotalCost(a, |a|, count, maxGeneration) + TotalCost(b, |b|, count, maxGeneration)
  {
    TotalCostAppend(a, b, |b|, count, maxGeneration);
  }

  /** The children of one particle cost no more than its offspring allowance. */
  lemma {:induction false} BornOfCost(s: ParticleState, count: nat, maxGeneration: int, random: nat -> Draw, at: nat)
    requires RandomStream(random)
    ensures TotalCost(BornOf(s, count, maxGeneration, random, at), |BornOf(s, count, maxGeneration, random, at)|, count, maxGeneration)
         <= if Spawns(s, maxGeneration) then Offspring(s.generation, count, maxGeneration) else 0
  {
    if Spawns(s, maxGeneration) {
      SpawnCost(s, count, maxGeneration, random, at);
    }
  }

  /** Each particle's cost covers its own allowance plus one. */
  lemma {:induction false} AllowanceCost(ss: seq<ParticleState>, n: nat, count: nat, maxGeneration: int)
    requires n <= |ss|
    requires forall i :: 0 <= i < |ss| ==> WellFormed(ss[i])
    ensures KeptAllowance(ss, n, count, maxGeneration) + BornAllowance(ss, n, count, maxGeneration) + n <= TotalCost(ss, n, count, maxGeneration)
  {
    if n > 0 {
      if !Expired(ss[n - 1]) {
        LifeDrops(ss[n - 1]);
      }
      AllowanceCost(ss, n - 1, count, maxGeneration);
    }
  }
}
