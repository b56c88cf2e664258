# Money sparkle: a verified model of the burst animation

A money-sparkle burst is a fan of dollar-sign particles. They fly out from a
click point, fall under gravity, fade out, and on fading leave a smaller fan
of children behind. The burst ends when no particle is left. This project
models in Dafny the two pieces that decide what a burst does:

- **The particle** (`src/Particle.ts`), as the class `Particles.Particle`.
  - Its constructor picks a start state from the particle's generation.
  - `move` applies the fixed motion rule.
  - `checkDestroy` is the test for a finished particle.
  - The pure functions `Launch` and `Moved` are the specifications these
    methods are proved against.
- **The burst** (`src/MoneySparkle.tsx`), as the class `Sparkle.MoneySparkle`,
  with a `particles` field that the methods reassign.
  - `InitParticles` builds a fan of particles.
  - `Turn` is one turn of the loop of `draw`, and `Sweep` is that loop.
  - `Tick` is one call of `draw`: survivors then children.
  - `Animate` is `draw`'s repetition while particles remain.
  - `Start` merges the options, shows the canvas, runs the burst and hides
    it.

Module `BurstStep` gives one tick as functions on particle states:

- `Kept` gives the survivors and `Born` the children, and `Next` is the new
  list.
- The methods are proved against these functions.
- The lemmas state what a tick promises:
  - order of the survivors;
  - number, place and generation of the children;
  - the length of the new list;
  - the generation bound;
  - a cost that every tick lowers. So every burst ends, within a number of
    ticks bounded by `count` and the generation bound alone.

Numbers are Dafny `real`s. Every `Math.random()` value is an input:

- A `Draw` holds the values one particle's constructor consumes.
- A burst reads them from a stream `random: nat -> Draw`.
- `RandomStream` says that every value in the stream lies in [0, 1).

Three details of the code shape the model:

- Velocity ranges are half-open, for example [3, 5), because
  `getRandomFloat` is `Math.random() * (max - min) + min`
  (`src/utils.ts:47-48`).
- Every child batch has ceil(count / 2) particles of the burst's original
  count, not half of the parent batch. Every call of `draw` receives the
  original `count` (`src/MoneySparkle.tsx:104`, `src/MoneySparkle.tsx:152`).
- Nothing guards count = 1, so the single heading is 0 / 0 = NaN (modelled
  as `Angle.NaN`). The heading does not enter a particle's state, because
  the constructor never reads it.

## Model

| member | source | states |
|---|---|---|
| Particles.PickOne | src/utils.ts:53 | randomFromArray on a two-element array yields one of the two elements |
| Particles.RandomFloatRange | src/utils.ts:47-48 | getRandomFloat(min, max) lies in the half-open range [min, max) for a random number in [0, 1) |
| Particles.RandomIntRange | src/utils.ts:50-51 | getRandomInt(min, max) lies in [min, max], both ends included |
| Particles.Particle.constructor | src/Particle.ts:84-123 | the new particle's state is the generation-dependent start state `Initial(options, draw)`, which reads position and generation from the options and ignores the heading; the particle is well formed |
| Particles.InitialRanges | src/Particle.ts:85-122 | start state: alpha 1, scale 0, an integer angle in [-20, 20]. Generation 0: image 0, reducer 0.95, vx in [-5, -3) or [3, 5), vy in [-8, -4). Later generations: image 1..3, reducer 0.97, vx in [-3, -1) or [1, 3), vy in [-6, -3). The spin lies in [-0.05, 0] when vx < 0 and in [0, 0.05] otherwise. Position and generation are those of the options; the particle is well formed and not expired |
| Particles.Particle.Move | src/Particle.ts:125-136 | the new state is `Moved` of the old: position plus the old velocity, vx times 0.99, vy plus 0.08, angle plus spin, alpha times the reducer only when the new vy > 0, scale plus 0.1 below 1 and otherwise exactly 1; a well-formed particle stays well formed |
| Particles.Particle.CheckDestroy | src/Particle.ts:150-152 | true exactly when alpha < 0.2 |
| Particles.MovedKeepsWellFormed | src/Particle.ts:125-136 | a move never raises alpha, lowers it exactly when the particle is descending afterwards, and leaves generation, image, spin and reducer alone |
| Particles.MovesVelocityY | src/Particle.ts:129 | after n moves vy has grown by exactly n * 0.08, and generation and reducer are unchanged |
| Particles.DescendsWithin | src/Particle.ts:113-129 | every particle the constructor can build is descending after 101 moves |
| Particles.MovesScale | src/Particle.ts:135 | from scale k/10, n moves give scale min(k + n, 10)/10 |
| Particles.ScaleReachesOne | src/Particle.ts:94-135 | from scale 0, scale is n/10 after n < 10 moves and exactly 1 after 10 or more |
| Particles.LifeDrops | src/Particle.ts:125-136 | every move of a live, well-formed particle lowers its remaining life (a bound on its moves left) by at least one |
| Particles.StaysExpired | src/Particle.ts:131-133 | an expired particle stays expired however often it moves |
| Particles.MovesAdd | src/Particle.ts:125-136 | moving a times and then b times is moving a + b times |
| Particles.ExpiresAfterLife | src/Particle.ts:125-152 | a well-formed particle has expired after more than Life(s) moves |
| Particles.InitialLife | src/Particle.ts:94-123 | a freshly constructed particle has a remaining life of at most 266 |
| Particles.Lifetime | src/Particle.ts:94-152 | every particle the constructor can build has expired after any number of moves above 266 |
| BurstStep.Half | src/MoneySparkle.tsx:136 | Math.ceil(count / 2) is the least h with count <= 2h |
| BurstStep.Spawn | src/MoneySparkle.tsx:109-121 | initParticles yields exactly `count` particle states |
| BurstStep.SpawnAt | src/MoneySparkle.tsx:113-119 | particle j of a fan is the one the constructor builds from the j-th fan-out options and the j-th draw after the offset |
| BurstStep.SpawnPlace | src/MoneySparkle.tsx:113-116 | every particle of a fan starts at the fan's (x, y) in the fan's generation |
| BurstStep.SpawnRanges | src/MoneySparkle.tsx:113-119 | with draws in [0, 1), every particle of a fan starts at (x, y) in its generation, fully opaque, unscaled, well formed and with at most 266 ticks to live |
| BurstStep.FanOutAngles | src/MoneySparkle.tsx:111-115 | every options record carries the given x, y and generation. For count >= 2 the headings run from exactly -pi/4 to exactly +pi/4, all within that range, in equal steps of (pi/2)/(count - 1). For count = 1 the heading is NaN |
| BurstStep.Heading | src/MoneySparkle.tsx:111-114 | heading i of count >= 2 is -pi/4 + (pi/2) * i/(count - 1), with the fraction in [0, 1]; the first heading is -pi/4 and the last +pi/4 |
| BurstStep.HeadingStep | src/MoneySparkle.tsx:114 | neighbouring headings differ by (pi/2)/(count - 1) |
| BurstStep.FanOutOfThree | src/MoneySparkle.tsx:111-114 | a fan of three gets the headings -pi/4, 0 and +pi/4 |
| BurstStep.BornOf | src/MoneySparkle.tsx:130-140 | an expired particle below the generation bound contributes ceil(count / 2) children; any other particle contributes none |
| BurstStep.ChildCountProduct | src/MoneySparkle.tsx:131-139 | the children of the first n particles number ceil(count / 2) times the spawning particles among them |
| BurstStep.KeptLength | src/MoneySparkle.tsx:141-145 | the survivors number exactly the live particles |
| BurstStep.KeptAt | src/MoneySparkle.tsx:141-145 | live particle i lands, moved once, at the place given by the live particles before it, so survivors keep their order |
| BurstStep.KeptFrom | src/MoneySparkle.tsx:141-145 | every survivor is some live particle, moved once, at that particle's place |
| BurstStep.BornLength | src/MoneySparkle.tsx:130-140 | the children number exactly ChildCount |
| BurstStep.BornAt | src/MoneySparkle.tsx:130-140 | the children of spawning particle i form one contiguous block after the children of earlier parents: child m is particle (m - start) of the fan initParticles makes at i's position, in generation + 1, with the following random numbers |
| BurstStep.BornFrom | src/MoneySparkle.tsx:130-140 | every child belongs to the block of one spawning parent, with that parent's generation + 1 and position |
| BurstStep.NextShape | src/MoneySparkle.tsx:126-148 | the new list has length live + spawning * ceil(count / 2); its first `live` entries are the survivors and the rest are the children |
| BurstStep.GenerationBound | src/MoneySparkle.tsx:131-137 | when every particle has generation <= bound and maxGeneration <= bound, so does every particle after a tick |
| BurstStep.NextWellFormed | src/MoneySparkle.tsx:129-148 | a tick keeps every particle well formed: moved survivors and fresh children alike |
| BurstStep.SpawnCostBound | src/MoneySparkle.tsx:109-121 | a fresh fan of `size` particles of generation g costs at most size * (267 + Offspring(g)) |
| BurstStep.SpawnCost | src/MoneySparkle.tsx:131-139 | the fan of children of a spawning particle costs no more than the offspring allowance of that particle's cost |
| BurstStep.BornOfCost | src/MoneySparkle.tsx:130-140 | what one particle contributes to the children costs no more than its offspring allowance, or nothing when it does not spawn |
| BurstStep.KeptCost | src/MoneySparkle.tsx:141-145 | the survivors cost exactly the sum of the costs of the live particles, each moved once |
| BurstStep.BornCost | src/MoneySparkle.tsx:130-140 | the children cost at most the sum of the offspring allowances of the spawning particles |
| BurstStep.AllowanceCost | src/MoneySparkle.tsx:129-146 | each particle's cost exceeds what it leaves behind, its moved self or its children, by at least one |
| BurstStep.TickLowersCost | src/MoneySparkle.tsx:124-148 | one tick lowers the total cost of a well-formed list by at least its length |
| Sparkle.Merge | src/MoneySparkle.tsx:48-53 | a supplied field overrides; a missing one defaults to x = 0, y = 0, generation = 1, count = 50 |
| Sparkle.MergeComplete | src/MoneySparkle.tsx:93 | merging options that supply every field returns them unchanged |
| Sparkle.MoneySparkle.constructor | src/MoneySparkle.tsx:37-47 | a fresh component is hidden and has no particles |
| Sparkle.MoneySparkle.InitParticles | src/MoneySparkle.tsx:109-122 | returns new, pairwise distinct particles whose states are exactly `Spawn`: `count` particles at (x, y) in the given generation, particle i built from random(offset + i) |
| Sparkle.MoneySparkle.Turn | src/MoneySparkle.tsx:130-145 | one turn of draw's loop extends the survivors and children collected so far exactly as `Kept` and `Born` do for one more particle, keeps both lists free of repeats, and advances the random-number position by the children it made |
| Sparkle.MoneySparkle.Sweep | src/MoneySparkle.tsx:126-146 | draw's loop over the list yields survivors whose states are `Kept` of the old states and children whose states are `Born` of them; the survivors come from the old list and the children are new |
| Sparkle.MoneySparkle.Tick | src/MoneySparkle.tsx:124-148 | the new particle list has the states `Next` of the old ones: survivors first, all from the old list, then new children. It holds no particle twice and consumes ChildCount random draws |
| Sparkle.MoneySparkle.Animate | src/MoneySparkle.tsx:124-153 | draw repeats, with the original count and generation bound, until the list is empty; it takes at least one tick and at most the list's total cost plus one |
| Sparkle.MoneySparkle.Start | src/MoneySparkle.tsx:92-107 | a burst from any options ends hidden with no particles, after between one and count * (267 + Offspring(0)) + 1 ticks |

## Left out

- React glue is not modelled: the `size` and `className` getters, `render`,
  `setContext`, `defaultProps` and the mounting in `src/index.tsx`. None of
  it changes the particles.
- The asynchronous scheduling is not modelled. This covers the promise queue
  in `start`, the promises of `show` and `hide`, and the `requestAnimationFrame`
  wait between ticks. `Start` runs one burst to completion as show, then
  ticks, then hide, with `show` and `hide` as assignments to `visibility`.
  Overlapping calls to `start` are therefore not modelled.
- Canvas drawing is not modelled: `clearRect`, `Particle.draw` and
  `Particle.prerender` with its fonts, colours and offscreen canvases. They
  are graphics calls that leave the particle state alone. The rendering
  context `ctx` that the constructor stores is left out for the same reason.
- `onClick`, `getPagePosition`, `getRenderedElementSize` and `getFontSize`
  are DOM event and measurement I/O and are not modelled.
- `Math.random()` is not modelled. Its values are inputs, and `RandomStream`
  assumes they lie in [0, 1).
  - The model assigns one `Draw` to each particle, numbered in the order
    particles are created. This stands in for the single shared generator
    that the source calls in a fixed order.
  - A generation-0 particle ignores the `image` field of its `Draw`.
- IEEE doubles are modelled as exact reals, so no result is claimed to hold
  bit for bit.
  - `Pi` is the exact real 3.141592653589793.
  - The reducer is exactly 0.97.
  - Scale reaches exactly 1 after ten steps of 0.1. Under doubles it overshoots
    to about 1.1 for one tick before it snaps to 1.
- The options' field types are narrowed:
  - `x` and `y` are reals, so NaN and plus or minus Infinity are outside
    the model.
  - `generation` is an integer. A fractional bound such as 1.5 would let
    generation 1 spawn a generation 2 (1 < 1.5); the model cannot express
    it.
  - `count` is a natural number. A negative or fractional count (the loop in
    `initParticles` then runs zero times or rounds up) is outside the model.
  - An options field set explicitly to `undefined`, which the spread in
    `start` copies over the default, is modelled as a missing field.
- The constructor's copy of the options' position is implicit, because
  positions and velocities are values (`Vec`). Aliasing between a particle
  and its options object therefore cannot arise in the model.
- Sparkle.MoneySparkle.Animate: requires that the starting particles are well
  formed and within the generation bound. `Start` establishes this for the
  generation-0 fan, which is the only list the source ever animates.
