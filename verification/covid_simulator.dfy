/**
  The initial population of a `CovidSimulator` (`generateSimulation`): first
  `population - initialInfected` uninfected persons, then `initialInfected`
  infected ones, each placed uniformly in the square of side `sideLength`
  and made vulnerable by a coin flip with probability
  `vulnerablePopulation`.

  `Math.random()` is replaced by an explicit sequence of draws. Each person
  consumes three of them, in the order JavaScript evaluates the constructor
  arguments: x, then y, then the vulnerability flip. `sideLength` (the
  square root of `population * areaPerPerson` in the source) is taken as a
  parameter.
*/
module CovidSimulator {
  import opened RandomDraws
  import opened CovidPerson

  /** Uniform draws one new person consumes. */
  const DrawsPerPerson: nat := 3

  /** How often the first loop runs: `population - initialInfected` times,
      or not at all when that difference is not positive. */
  function NonInfectedCount(population: int, initialInfected: int): nat {
    if initialInfected < population then population - initialInfected else 0
  }

  /** How often the second loop runs: `initialInfected` times, or not at all
      when it is not positive. */
  function InfectedCount(initialInfected: int): nat {
    if 0 < initialInfected then initialInfected else 0
  }

  /** Draws consumed by a whole generation. */
  function DrawsNeeded(population: int, initialInfected: int): nat {
    DrawsPerPerson * (NonInfectedCount(population, initialInfected) + InfectedCount(initialInfected))
  }

  /** The `k`-th person created (counting from 0 across both loops), built
      from draws `3k`, `3k + 1` and `3k + 2`. */
  function DrawPerson(draws: seq<real>, k: nat, sideLength: real, vulnerablePopulation: real,
                      infected: bool): Person
    requires DrawsPerPerson * (k + 1) <= |draws|
  {
    NewPerson(
      GetRandomArbitrary(0.0, sideLength, draws[DrawsPerPerson * k]),
      GetRandomArbitrary(0.0, sideLength, draws[DrawsPerPerson * k + 1]),
      GetRandomCoinFlip(vulnerablePopulation, draws[DrawsPerPerson * k + 2]),
      infected)
  }

  /** The persons numbered `first` up to `first + count - 1`, all with the
      same infection flag, in creation order. */
  function Cohort(draws: seq<real>, first: nat, count: nat, sideLength: real,
                  vulnerablePopulation: real, infected: bool): (people: seq<Person>)
    requires DrawsPerPerson * (first + count) <= |draws|
    ensures |people| == count
    ensures forall i :: 0 <= i < count ==>
              people[i] == DrawPerson(draws, first + i, sideLength, vulnerablePopulation, infected)
    decreases count
  {
    if count == 0 then []
    else
      Cohort(draws, first, count - 1, sideLength, vulnerablePopulation, infected)
        + [DrawPerson(draws, first + count - 1, sideLength, vulnerablePopulation, infected)]
  }

  /**
    `generateSimulation()`. Person `i` is built from its own three draws and
    is infected exactly when it comes after the uninfected prefix; the
    length is the sum of both loop counts.
  */
  function GenerateSimulation(population: int, initialInfected: int, sideLength: real,
                              vulnerablePopulation: real, draws: seq<real>): (people: seq<Person>)
    requires DrawsNeeded(population, initialInfected) <= |draws|
    ensures |people| == NonInfectedCount(population, initialInfected) + InfectedCount(initialInfected)
    ensures forall i :: 0 <= i < |people| ==>
              people[i] == DrawPerson(draws, i, sideLength, vulnerablePopulation,
                                      NonInfectedCount(population, initialInfected) <= i)
  {
    var nonInfected := NonInfectedCount(population, initialInfected);
    Cohort(draws, 0, nonInfected, sideLength, vulnerablePopulation, false)
      + Cohort(draws, nonInfected, InfectedCount(initialInfected), sideLength, vulnerablePopulation, true)
  }

  /**
    The two loops of `generateSimulation()` as written, pushing one person
    per iteration and taking the next three draws each time. They build
    exactly the population `GenerateSimulation` describes.
  */
  method GenerateSimulationLoops(population: int, initialInfected: int, sideLength: real,
                                 vulnerablePopulation: real, draws: seq<real>)
    returns (people: seq<Person>)
    requires DrawsNeeded(population, initialInfected) <= |draws|
    ensures people == GenerateSimulation(population, initialInfected, sideLength, vulnerablePopulation, draws)
  {
    people := [];
    var next := 0;
    var nonInfected := population - initialInfected;

    var i := 0;
    while i < nonInfected
      invariant 0 <= i <= NonInfectedCount(population, initialInfected)
      invariant next == DrawsPerPerson * i
      invariant people == Cohort(draws, 0, i, sideLength, vulnerablePopulation, false)
    {
      var x := GetRandomArbitrary(0.0, sideLength, draws[next]);
      var y := GetRandomArbitrary(0.0, sideLength, draws[next + 1]);
      var vulnerable := GetRandomCoinFlip(vulnerablePopulation, draws[next + 2]);
      people := people + [NewPerson(x, y, vulnerable, false)];
      next := next + DrawsPerPerson;
      i := i + 1;
    }
    ghost var prefix := people;
    ghost var start := i;

    i := 0;
    while i < initialInfected
      invariant 0 <= i <= InfectedCount(initialInfected)
      invariant next == DrawsPerPerson * (start + i)
      invariant people == prefix + Cohort(draws, start, i, sideLength, vulnerablePopulation, true)
    {
      var x := GetRandomArbitrary(0.0, sideLength, draws[next]);
      var y := GetRandomArbitrary(0.0, sideLength, draws[next + 1]);
      var vulnerable := GetRandomCoinFlip(vulnerablePopulation, draws[next + 2]);
      people := people + [NewPerson(x, y, vulnerable, true)];
      next := next + DrawsPerPerson;
      i := i + 1;
    }
  }

  /** The number of infected persons in a list. */
  function CountInfected(people: seq<Person>): (n: nat)
    ensures n <= |people|
  {
    if |people| == 0 then 0
    else CountInfected(people[..|people| - 1]) + (if people[|people| - 1].infected then 1 else 0)
  }

  /** Counting distributes over concatenation. */
  lemma {:induction false} CountInfectedAppend(a: seq<Person>, b: seq<Person>)
    ensures CountInfected(a + b) == CountInfected(a) + CountInfected(b)
    decreases |b|
  {
    if |b| == 0 {
      assert a + b == a;
    } else {
      var last := |b| - 1;
      assert (a + b)[..|a + b| - 1] == a + b[..last];
      CountInfectedAppend(a, b[..last]);
    }
  }

  /** A list in which everybody has the same infection flag counts all of
      them or none of them. */
  lemma {:induction false} CountInfectedUniform(people: seq<Person>, infected: bool)
    requires forall i :: 0 <= i < |people| ==> people[i].infected == infected
    ensures CountInfected(people) == if infected then |people| else 0
    decreases |people|
  {
    if |people| != 0 {
      CountInfectedUniform(people[..|people| - 1], infected);
    }
  }

  /**
    The generated population has exactly `max(0, initialInfected)` infected
    persons and `max(0, population - initialInfected)` uninfected ones.
    With `0 <= initialInfected <= population` that is `population` persons of
    whom `initialInfected` are infected; with more initially infected than
    the population the first loop runs zero times and everybody is
    infected.
  */
  lemma GenerateSimulationCounts(population: int, initialInfected: int, sideLength: real,
                                 vulnerablePopulation: real, draws: seq<real>)
    requires DrawsNeeded(population, initialInfected) <= |draws|
    ensures var people := GenerateSimulation(population, initialInfected, sideLength, vulnerablePopulation, draws);
            && CountInfected(people) == InfectedCount(initialInfected)
            && |people| - CountInfected(people) == NonInfectedCount(population, initialInfected)
            && (0 <= initialInfected <= population ==>
                  |people| == population && CountInfected(people) == initialInfected)
            && (0 < initialInfected && population < initialInfected ==>
                  |people| == initialInfected && CountInfected(people) == |people|)
  {
    var people := GenerateSimulation(population, initialInfected, sideLength, vulnerablePopulation, draws);
    var nonInfected := NonInfectedCount(population, initialInfected);
    var healthy := people[..nonInfected];
    var sick := people[nonInfected..];
    assert people == healthy + sick;
    CountInfectedUniform(healthy, false);
    CountInfectedUniform(sick, true);
    CountInfectedAppend(healthy, sick);
  }

  /** Every generated person starts on day 0 of infection, not recovered and
      not dead, and its position lies inside the square [0, sideLength)
      whenever the side is positive and the draws are ones `Math.random()`
      can return. */
  lemma GeneratedPersonsInitial(population: int, initialInfected: int, sideLength: real,
                                vulnerablePopulation: real, draws: seq<real>)
    requires DrawsNeeded(population, initialInfected) <= |draws|
    ensures var people := GenerateSimulation(population, initialInfected, sideLength, vulnerablePopulation, draws);
            forall i :: 0 <= i < |people| ==>
              && people[i].infectionDay == 0.0
              && !people[i].recovered
              && !people[i].dead
    ensures var people := GenerateSimulation(population, initialInfected, sideLength, vulnerablePopulation, draws);
            0.0 < sideLength && (forall k :: 0 <= k < |draws| ==> IsDraw(draws[k])) ==>
            forall i :: 0 <= i < |people| ==>
              && 0.0 <= people[i].x < sideLength
              && 0.0 <= people[i].y < sideLength
  {
    var people := GenerateSimulation(population, initialInfected, sideLength, vulnerablePopulation, draws);
    if 0.0 < sideLength && (forall k :: 0 <= k < |draws| ==> IsDraw(draws[k])) {
      forall i | 0 <= i < |people|
        ensures 0.0 <= people[i].x < sideLength && 0.0 <= people[i].y < sideLength
      {
        assert IsDraw(draws[DrawsPerPerson * i]);
        assert IsDraw(draws[DrawsPerPerson * i + 1]);
      }
    }
  }

  /**
    How the freshly generated population is drawn: the infected suffix is
    shown asymptomatic (day 0 is within a non-negative incubation period),
    the uninfected prefix in the vulnerable or non-vulnerable colour, and a
    person is vulnerable exactly when its third draw is at most
    `vulnerablePopulation`.
  */
  lemma GeneratedColors(population: int, initialInfected: int, sideLength: real,
                        vulnerablePopulation: real, draws: seq<real>,
                        incubationPeriod: real, symptomaticPeriod: real)
    requires DrawsNeeded(population, initialInfected) <= |draws|
    requires 0.0 <= incubationPeriod
    ensures var people := GenerateSimulation(population, initialInfected, sideLength, vulnerablePopulation, draws);
            forall i :: 0 <= i < |people| ==>
              && (people[i].vulnerable <==> draws[DrawsPerPerson * i + 2] <= vulnerablePopulation)
              && FillStyle(people[i], incubationPeriod, symptomaticPeriod)
                 == if NonInfectedCount(population, initialInfected) <= i then Asymptomatic
                    else if people[i].vulnerable then Vulnerable
                    else NonVulnerable
  {
  }
}
