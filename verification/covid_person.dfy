/**
  One simulated person (`CovidPerson`) and the colour it is drawn in
  (`fillStyle`). The colour is a pure decision over the person's flags and
  its day of infection, taken in a fixed priority order: dead, then
  infected (split into three bands by the day of infection), then
  vulnerable, and otherwise non-vulnerable.
*/
module CovidPerson {

  /** The six display colours, one per health category. */
  datatype Color = Dead | Asymptomatic | Symptomatic | Recovered | NonVulnerable | Vulnerable

  /** An upper-case hexadecimal digit. */
  predicate IsHexDigit(ch: char) {
    '0' <= ch <= '9' || 'A' <= ch <= 'F'
  }

  /** The CSS colour string the canvas is filled with for each category:
      always of the form `#RRGGBB` (distinctness is `HexInjective`). */
  function Hex(c: Color): (s: string)
    ensures |s| == 7 && s[0] == '#'
    ensures forall i :: 1 <= i < |s| ==> IsHexDigit(s[i])
  {
    match c
    case Dead => "#000000"
    case Asymptomatic => "#FF0000"
    case Symptomatic => "#8B0000"
    case Recovered => "#4B0082"
    case NonVulnerable => "#00FF00"
    case Vulnerable => "#006400"
  }

  datatype Option<T> = None | Some(value: T)

  /** Reads a colour string back as the category it stands for. */
  function ColorOfHex(s: string): Option<Color> {
    if s == "#000000" then Some(Dead)
    else if s == "#FF0000" then Some(Asymptomatic)
    else if s == "#8B0000" then Some(Symptomatic)
    else if s == "#4B0082" then Some(Recovered)
    else if s == "#00FF00" then Some(NonVulnerable)
    else if s == "#006400" then Some(Vulnerable)
    else None
  }

  /** The six colour strings are pairwise distinct, so the drawn colour
      determines the category: reading it back gives the category again. */
  lemma HexRoundTrip(c: Color)
    ensures ColorOfHex(Hex(c)) == Some(c)
  {
  }

  /** Distinct categories are drawn in distinct colours. */
  lemma HexInjective(c1: Color, c2: Color)
    requires c1 != c2
    ensures Hex(c1) != Hex(c2)
  {
    HexRoundTrip(c1);
    HexRoundTrip(c2);
  }

  /** A person: position, vulnerability, and health flags. `infectionDay`
      counts days since infection. */
  datatype Person = Person(
    x: real,
    y: real,
    vulnerable: bool,
    infected: bool,
    infectionDay: real,
    recovered: bool,
    dead: bool)

  /** The constructor with its default arguments: a new person is on day 0
      of infection, not recovered and not dead, and keeps the position and
      flags it is given. */
  function NewPerson(x: real, y: real, vulnerable: bool, infected: bool): (p: Person)
    ensures p.infectionDay == 0.0 && !p.recovered && !p.dead
    ensures p.x == x && p.y == y && p.vulnerable == vulnerable && p.infected == infected
  {
    Person(x, y, vulnerable, infected, 0.0, false, false)
  }

  /** The three bands an infected person's day of infection falls into. */
  predicate AsymptomaticBand(day: real, incubationPeriod: real) {
    day <= incubationPeriod
  }

  predicate SymptomaticBand(day: real, incubationPeriod: real, symptomaticPeriod: real) {
    incubationPeriod < day <= incubationPeriod + symptomaticPeriod
  }

  predicate RecoveredBand(day: real, incubationPeriod: real, symptomaticPeriod: real) {
    incubationPeriod < day && incubationPeriod + symptomaticPeriod < day
  }

  /** Exactly one band applies to every day, whatever the two periods are
      (a negative symptomatic period only empties the middle band). */
  lemma BandsPartition(day: real, incubationPeriod: real, symptomaticPeriod: real)
    ensures AsymptomaticBand(day, incubationPeriod)
         || SymptomaticBand(day, incubationPeriod, symptomaticPeriod)
         || RecoveredBand(day, incubationPeriod, symptomaticPeriod)
    ensures !(AsymptomaticBand(day, incubationPeriod) && SymptomaticBand(day, incubationPeriod, symptomaticPeriod))
    ensures !(AsymptomaticBand(day, incubationPeriod) && RecoveredBand(day, incubationPeriod, symptomaticPeriod))
    ensures !(SymptomaticBand(day, incubationPeriod, symptomaticPeriod) && RecoveredBand(day, incubationPeriod, symptomaticPeriod))
  {
  }

  /**
    `fillStyle(incubationPeriod, symptomaticPeriod)`. Each category holds
    for exactly the persons described by its condition: dead persons are
    black whatever else holds; a living infected person is coloured by its
    band; a living uninfected person by its vulnerability.
  */
  function FillStyle(p: Person, incubationPeriod: real, symptomaticPeriod: real): (c: Color)
    ensures c == Dead <==> p.dead
    ensures c == Asymptomatic <==> !p.dead && p.infected && AsymptomaticBand(p.infectionDay, incubationPeriod)
    ensures c == Symptomatic <==> !p.dead && p.infected && SymptomaticBand(p.infectionDay, incubationPeriod, symptomaticPeriod)
    ensures c == Recovered <==> !p.dead && p.infected && RecoveredBand(p.infectionDay, incubationPeriod, symptomaticPeriod)
    ensures c == Vulnerable <==> !p.dead && !p.infected && p.vulnerable
    ensures c == NonVulnerable <==> !p.dead && !p.infected && !p.vulnerable
  {
    if p.dead then Dead
    else if p.infected then
      if p.infectionDay <= incubationPeriod then Asymptomatic
      else if p.infectionDay <= incubationPeriod + symptomaticPeriod then Symptomatic
      else Recovered
    else if p.vulnerable then Vulnerable
    else NonVulnerable
  }

  /** Death dominates: a dead person is black whatever its infection,
      vulnerability, recovery flag or day of infection. */
  lemma DeadDominates(p: Person, incubationPeriod: real, symptomaticPeriod: real,
                      infected: bool, vulnerable: bool, recovered: bool, day: real)
    requires p.dead
    ensures FillStyle(p.(infected := infected, vulnerable := vulnerable, recovered := recovered, infectionDay := day),
                      incubationPeriod, symptomaticPeriod) == Dead
  {
  }

  /** Vulnerability is consulted only for a living, uninfected person: for
      anyone else flipping it leaves the colour unchanged, and for a living
      uninfected person it always changes it. */
  lemma VulnerabilityOnlyForHealthy(p: Person, incubationPeriod: real, symptomaticPeriod: real)
    ensures FillStyle(p.(vulnerable := !p.vulnerable), incubationPeriod, symptomaticPeriod)
            == FillStyle(p, incubationPeriod, symptomaticPeriod)
            <==> p.dead || p.infected
  {
  }

  /** The colour never reads the `recovered` flag, nor the position:
      recovery is shown only through the day of infection. */
  lemma FillStyleIgnoresRecoveredAndPosition(p: Person, incubationPeriod: real, symptomaticPeriod: real,
                                             recovered: bool, x: real, y: real)
    ensures FillStyle(p.(recovered := recovered, x := x, y := y), incubationPeriod, symptomaticPeriod)
            == FillStyle(p, incubationPeriod, symptomaticPeriod)
  {
  }

  /** A newly constructed infected person is drawn asymptomatic whenever the
      incubation period is not negative (day 0 lies in the first band); a
      newly constructed uninfected person is drawn by vulnerability. */
  lemma NewPersonColor(x: real, y: real, vulnerable: bool, infected: bool,
                       incubationPeriod: real, symptomaticPeriod: real)
    requires 0.0 <= incubationPeriod
    ensures FillStyle(NewPerson(x, y, vulnerable, infected), incubationPeriod, symptomaticPeriod)
            == if infected then Asymptomatic else if vulnerable then Vulnerable else NonVulnerable
  {
  }
}
