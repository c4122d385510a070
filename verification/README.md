# covidsim: a Dafny model of the population set-up and colour classification

The repository `covidsim` draws a population of persons on a canvas. Each
person is coloured by its health state. This project models the pure logic in
`covidsim.js`:

- **`RandomDraws`** (`random_draws.dfy`) models the three random helpers
  `getRandomInt`, `getRandomArbitrary` and `getRandomCoinFlip`. The value
  `Math.random()` would return is passed in as an explicit draw `r` with
  `0 <= r < 1`. Reals stand in for JavaScript numbers, and `.Floor` and
  `Ceil` stand in for `Math.floor` and `Math.ceil`.
- **`CovidPerson`** (`covid_person.dfy`) models the `CovidPerson` record, its
  constructor defaults, the six colour constants and `fillStyle`. The colours
  are an enum plus their CSS strings.
- **`CovidSimulator`** (`covid_simulator.dfy`) models `generateSimulation`.
  It works on an explicit sequence of draws, and each person consumes three of
  them, in argument-evaluation order: x, then y, then the vulnerability flip.
  The model has two forms. `GenerateSimulation` is a functional description:
  an uninfected cohort followed by an infected cohort. `GenerateSimulationLoops`
  follows the source's two `for` loops and is proved equal to it.

`getRandomCoinFlip` is `Math.random() <= probability`. Because the
comparison is `<=`, a probability of 0 still succeeds on the draw 0, so the
flip does not saturate at 0. `CoinFlipVersusSaturating` compares it with a
saturating Bernoulli flip, one that never succeeds for a probability at most
0 and always succeeds for one at least 1. On draws in [0, 1) the two differ
on at most one point: the draw equal to the probability.

## Model

| member | source | states |
|---|---|---|
| RandomDraws.Ceil | covidsim.js:73 | `Math.ceil`: the result is the least integer not below its argument |
| RandomDraws.GetRandomInt | covidsim.js:72-76 | With a draw in [0,1) and `ceil(min) <= floor(max)`, the result lies in [ceil(min), floor(max)]. If the rounded range is empty, it lies in [floor(max)+1, ceil(min)]. The draw 0 gives ceil(min) |
| RandomDraws.GetRandomIntBucket | covidsim.js:72-76 | The result is uniform over the n = floor(max)-ceil(min)+1 integers: `ceil(min)+k` is returned exactly for the draws in [k/n, (k+1)/n), and each such bucket lies inside [0,1) |
| RandomDraws.GetRandomArbitrary | covidsim.js:78-80 | With a draw in [0,1) and `min < max`, the result lies in [min, max). With `max < min` it lies in (max, min]. With `min == max` it is `min` |
| RandomDraws.GetRandomArbitraryInverse | covidsim.js:78-80 | The draw can be recovered from the result whenever `min != max` (round trip of the scaling) |
| RandomDraws.GetRandomArbitraryMonotonic | covidsim.js:78-80 | For `min < max` a larger draw gives a strictly larger value |
| RandomDraws.GetRandomCoinFlip | covidsim.js:82-84 | With a draw in [0,1), a probability at least 1 always succeeds and a negative probability never does. A probability of 0 succeeds exactly on the draw 0. A probability in [0,1) succeeds exactly on draws in [0, p] |
| RandomDraws.CoinFlipVersusSaturating | covidsim.js:82-84 | On draws in [0,1) the flip disagrees with a saturating Bernoulli flip exactly when the draw equals the probability, so on at most one point, and never for a probability below 0 or at least 1 |
| RandomDraws.CoinFlipMonotonic | covidsim.js:82-84 | Raising the probability never turns a success into a failure |
| CovidPerson.Hex | covidsim.js:65-70 | Each category's colour constant is a CSS `#RRGGBB` string: 7 characters, `#` followed by six upper-case hexadecimal digits |
| CovidPerson.HexRoundTrip | covidsim.js:65-70 | Reading a colour constant back gives its category, so the six constants are distinct |
| CovidPerson.HexInjective | covidsim.js:65-70 | Distinct categories are drawn in distinct colours |
| CovidPerson.NewPerson | covidsim.js:87-95 | The constructor with its defaults: a new person keeps the given x, y, vulnerable and infected values, is on `infectionDay` 0, and is not recovered and not dead |
| CovidPerson.FillStyle | covidsim.js:97-114 | The colour is DEAD iff dead. It is ASYMPTOMATIC iff living, infected and `infectionDay <= incubationPeriod`. It is SYMPTOMATIC iff living, infected and `incubationPeriod < infectionDay <= incubationPeriod + symptomaticPeriod`. It is RECOVERED iff living, infected and past both bounds. It is VULNERABLE or NON_VULNERABLE iff living, uninfected, and vulnerable or not |
| CovidPerson.BandsPartition | covidsim.js:101-106 | For every day and every pair of periods, exactly one of the three infection bands applies |
| CovidPerson.DeadDominates | covidsim.js:98-99 | A dead person is DEAD whatever its infected, vulnerable, recovered and infectionDay values |
| CovidPerson.VulnerabilityOnlyForHealthy | covidsim.js:109-113 | Flipping `vulnerable` leaves the colour unchanged iff the person is dead or infected |
| CovidPerson.FillStyleIgnoresRecoveredAndPosition | covidsim.js:97-114 | The `recovered` flag and the position never affect the colour |
| CovidPerson.NewPersonColor | covidsim.js:87-114 | A person built with the constructor defaults shows ASYMPTOMATIC when infected, given a non-negative incubation period. Otherwise it shows its vulnerability colour |
| CovidSimulator.Cohort | covidsim.js:27-43 | One loop's persons: exactly `count` persons, and person `i` is built from draws `3(first+i)` to `3(first+i)+2` with the loop's infection flag |
| CovidSimulator.GenerateSimulation | covidsim.js:21-44 | The population has `max(0, population-initialInfected) + max(0, initialInfected)` persons. Person `i` is built from its own three draws, and it is infected exactly when it comes after the uninfected prefix |
| CovidSimulator.GenerateSimulationLoops | covidsim.js:25-43 | The two push loops as written build exactly the population `GenerateSimulation` describes |
| CovidSimulator.GenerateSimulationCounts | covidsim.js:25-43 | Exactly `max(0, initialInfected)` persons are infected and `max(0, population-initialInfected)` are not. With `0 <= initialInfected <= population` there are `population` persons, `initialInfected` of them infected. With more initially infected than the population, everybody is infected |
| CovidSimulator.GeneratedPersonsInitial | covidsim.js:27-43 | Every generated person has `infectionDay = 0` and is not recovered and not dead (the constructor defaults at line 87). With a positive side and draws in [0,1), x and y lie in [0, sideLength) |
| CovidSimulator.GeneratedColors | covidsim.js:21-44 | A person is vulnerable iff its third draw is at most `vulnerablePopulation`. Given a non-negative incubation period, the infected suffix is drawn ASYMPTOMATIC and the uninfected prefix in its vulnerability colour |

## Left out

- Canvas rendering (`draw`, `clear`, and constructor lines 15-18 that fetch the canvas) is DOM and graphics output.
- `covidSetup` and `covidStep` are form parsing, `window` globals and event handling.
- `Math.random` itself is replaced by explicit draws in [0,1). The model does not describe where the draws come from.
- `Math.sqrt` is left out: `sideLength` is a parameter rather than the square root of `population * areaPerPerson`.
- IEEE-754 rounding, `NaN` and infinities are left out because the model computes in exact reals. Near the top of an interval, floating-point `r * (max - min) + min` can round up to `max`. The model does not show that.
- `population` and `initialInfected` are unbounded integers, and a `NaN` from `parseInt` is not modelled. A `NaN` `initialInfected` skips both loops. A `NaN` `population` skips only the first loop, and it makes every position `NaN` because `sideLength` is then `Math.sqrt(NaN)`.
- GenerateSimulation: needs at least `3 * (number of persons)` draws. This is a property of how the draws are represented, not a demand of the source: `Math.random` never runs out.
- Stepping, movement, a spatial index, transmission, death and recovery transitions, and statistics are not in the modelled source.
