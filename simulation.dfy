/** A model of the day-by-day epidemic simulator of the Angular root component
    (src/app/app.component.ts).

    The population is split into four compartments (susceptible, infected,
    recovered, dead).  Each day is computed from the previous one alone, with
    floored counts; two intervention factors, taken from a fixed registry of
    measures, scale the infection and recovery rates.

    The pure part (Step, DayAt and the lemmas about them) is the specification;
    the class Simulator keeps the component's fields, SimulationData its record
    of arrays, and the methods are proved to fill the arrays with exactly that
    specification. */
module Simulation {

  /** Number of simulated days that resetSimulation allocates. */
  const Horizon: int := 100

  /** Default parameters of the component. */
  const DefaultPopulation: int := 1000000
  const DefaultInfected: int := 10
  const DefaultInfectionRate: real := 0.3
  const DefaultRecoveryRate: real := 0.1
  const DefaultMortalityRate: real := 0.02

  /** The effect of one intervention measure. */
  datatype Effect = Effect(infectionFactor: real, recoveryFactor: real)

  /** The fixed registry of measures and their factors. */
  function MeasureEffects(): (registry: map<string, Effect>)
    ensures registry.Keys == {"none", "masks", "distancing", "lockdown", "vaccination"}
    ensures forall m | m in registry ::
      0.0 < registry[m].infectionFactor <= 1.0 && 1.0 <= registry[m].recoveryFactor
    ensures registry["none"] == Effect(1.0, 1.0)
  {
    map[
      "none" := Effect(1.0, 1.0),
      "masks" := Effect(0.7, 1.0),
      "distancing" := Effect(0.5, 1.0),
      "lockdown" := Effect(0.2, 1.0),
      "vaccination" := Effect(1.0, 1.4)
    ]
  }

  /** The four compartments of one day. */
  datatype Compartments = Compartments(infected: int, recovered: int, dead: int, susceptible: int)

  function Total(c: Compartments): int
  {
    c.susceptible + c.infected + c.recovered + c.dead
  }

  /** Everything a day-advance reads besides the previous day: the initial
      population, the three base rates and the two current factors. */
  datatype Rates = Rates(
    initialPopulation: int,
    infectionRate: real,
    recoveryRate: real,
    mortalityRate: real,
    infectionFactor: real,
    recoveryFactor: real)

  /** Positive population and non-negative rates and factors. */
  predicate NonNegative(r: Rates)
  {
    r.initialPopulation > 0 && r.infectionRate >= 0.0 && r.recoveryRate >= 0.0
    && r.mortalityRate >= 0.0 && r.infectionFactor >= 0.0 && r.recoveryFactor >= 0.0
  }

  /** At most the whole infected compartment leaves it per day through
      recovery and death; without this the source lets infected go negative. */
  predicate OutflowBounded(r: Rates)
  {
    r.recoveryRate * r.recoveryFactor + r.mortalityRate <= 1.0
  }

  /** Math.min on integers. */
  function Min(a: int, b: int): int
  {
    if a <= b then a else b
  }

  /** Floored force of infection, before the cap at the susceptibles. */
  function InfectionPressure(r: Rates, prev: Compartments): real
    requires r.initialPopulation != 0
  {
    prev.infected as real * r.infectionRate * r.infectionFactor
      * (prev.susceptible as real / r.initialPopulation as real)
  }

  /** New infections of a day, capped at the previous day's susceptibles. */
  function NewInfected(r: Rates, prev: Compartments): (n: int)
    requires r.initialPopulation != 0
    ensures n <= prev.susceptible && n <= InfectionPressure(r, prev).Floor
    ensures n == prev.susceptible || n == InfectionPressure(r, prev).Floor
    ensures NonNegative(r) && prev.infected >= 0 && prev.susceptible >= 0 ==> n >= 0
  {
    PressureNonNegative(r, prev);
    Min(prev.susceptible, InfectionPressure(r, prev).Floor)
  }

  /** New recoveries of a day. */
  function NewRecovered(r: Rates, prev: Compartments): (n: int)
    ensures n as real <= prev.infected as real * r.recoveryRate * r.recoveryFactor < n as real + 1.0
    ensures NonNegative(r) && prev.infected >= 0 ==> n >= 0
  {
    ProductNonNegative(prev.infected as real, r.recoveryRate);
    ProductNonNegative(prev.infected as real * r.recoveryRate, r.recoveryFactor);
    (prev.infected as real * r.recoveryRate * r.recoveryFactor).Floor
  }

  /** New deaths of a day. */
  function NewDead(r: Rates, prev: Compartments): (n: int)
    ensures n as real <= prev.infected as real * r.mortalityRate < n as real + 1.0
    ensures NonNegative(r) && prev.infected >= 0 ==> n >= 0
  {
    ProductNonNegative(prev.infected as real, r.mortalityRate);
    (prev.infected as real * r.mortalityRate).Floor
  }

  /** One day-advance: day d computed from day d-1 alone. */
  function Step(r: Rates, prev: Compartments): (next: Compartments)
    requires r.initialPopulation != 0
    // each person moves between compartments; nobody appears or vanishes
    ensures Total(next) == Total(prev)
    // the cap keeps susceptibles non-negative
    ensures prev.susceptible >= 0 ==> next.susceptible >= 0
    // with non-negative inputs every increment is non-negative
    ensures NonNegative(r) && prev.infected >= 0 && prev.susceptible >= 0 ==>
      next.dead >= prev.dead && next.recovered >= prev.recovered
      && next.susceptible <= prev.susceptible
    ensures NonNegative(r) && OutflowBounded(r) && prev.infected >= 0 && prev.susceptible >= 0 ==>
      next.infected >= 0
  {
    var newInfected := NewInfected(r, prev);
    var newRecovered := NewRecovered(r, prev);
    var newDead := NewDead(r, prev);
    OutflowAtMostInfected(r, prev);
    Compartments(
      prev.infected + newInfected - newRecovered - newDead,
      prev.recovered + newRecovered,
      prev.dead + newDead,
      prev.susceptible - newInfected)
  }

  /** Day k of the series that starts from day0 under fixed rates. */
  function DayAt(r: Rates, day0: Compartments, k: nat): Compartments
    requires r.initialPopulation != 0
  {
    if k == 0 then day0 else Step(r, DayAt(r, day0, k - 1))
  }

  /** The day-0 anchors written by resetSimulation. */
  function Anchor(initialPopulation: int, initialInfected: int): (c: Compartments)
    ensures Total(c) == initialPopulation
    ensures c.infected == initialInfected && c.recovered == 0 && c.dead == 0
  {
    Compartments(initialInfected, 0, 0, initialPopulation - initialInfected)
  }

  // ---------------------------------------------------------------------
  // Arithmetic helpers

  lemma ProductNonNegative(a: real, b: real)
    ensures a >= 0.0 && b >= 0.0 ==> a * b >= 0.0
  {
  }

  lemma ScaleAtMost(a: real, b: real, c: real)
    requires a >= 0.0 && b <= c
    ensures a * b <= a * c
  {
  }

  lemma PressureNonNegative(r: Rates, prev: Compartments)
    requires r.initialPopulation != 0
    ensures NonNegative(r) && prev.infected >= 0 && prev.susceptible >= 0 ==>
      InfectionPressure(r, prev) >= 0.0 && InfectionPressure(r, prev).Floor >= 0
  {
    if !(NonNegative(r) && prev.infected >= 0 && prev.susceptible >= 0) {
      return;
    }
    var share := prev.susceptible as real / r.initialPopulation as real;
    assert share >= 0.0;
    ProductNonNegative(prev.infected as real, r.infectionRate);
    ProductNonNegative(prev.infected as real * r.infectionRate, r.infectionFactor);
    ProductNonNegative(prev.infected as real * r.infectionRate * r.infectionFactor, share);
  }

  /** Recoveries plus deaths never exceed the previous day's infected. */
  lemma OutflowAtMostInfected(r: Rates, prev: Compartments)
    ensures NonNegative(r) && OutflowBounded(r) && prev.infected >= 0 ==>
      NewRecovered(r, prev) + NewDead(r, prev) <= prev.infected
  {
    if !(NonNegative(r) && OutflowBounded(r) && prev.infected >= 0) {
      return;
    }
    var i := prev.infected as real;
    var out := r.recoveryRate * r.recoveryFactor + r.mortalityRate;
    assert i * r.recoveryRate * r.recoveryFactor + i * r.mortalityRate == i * out;
    ScaleAtMost(i, out, 1.0);
  }

  // ---------------------------------------------------------------------
  // Properties of the series

  /** Conservation: every day holds the same total as day 0. */
  lemma {:induction false} Conservation(r: Rates, day0: Compartments, k: nat)
    requires r.initialPopulation != 0
    ensures Total(DayAt(r, day0, k)) == Total(day0)
  {
    if k > 0 {
      Conservation(r, day0, k - 1);
    }
  }

  /** Susceptibles never go negative, whatever the rates. */
  lemma {:induction false} SusceptibleNonNegative(r: Rates, day0: Compartments, k: nat)
    requires r.initialPopulation != 0
    requires day0.susceptible >= 0
    ensures DayAt(r, day0, k).susceptible >= 0
  {
    if k > 0 {
      SusceptibleNonNegative(r, day0, k - 1);
    }
  }

  /** With non-negative rates and bounded outflow no compartment goes negative. */
  lemma {:induction false} CompartmentsNonNegative(r: Rates, day0: Compartments, k: nat)
    requires NonNegative(r) && OutflowBounded(r)
    requires day0.infected >= 0 && day0.recovered >= 0 && day0.dead >= 0 && day0.susceptible >= 0
    ensures var c := DayAt(r, day0, k);
      c.infected >= 0 && c.recovered >= 0 && c.dead >= 0 && c.susceptible >= 0
  {
    if k > 0 {
      CompartmentsNonNegative(r, day0, k - 1);
    }
  }

  /** Dead and recovered are non-decreasing and susceptibles non-increasing
      from any day j to any later day k. */
  lemma {:induction false} Monotone(r: Rates, day0: Compartments, j: nat, k: nat)
    requires NonNegative(r) && OutflowBounded(r)
    requires day0.infected >= 0 && day0.recovered >= 0 && day0.dead >= 0 && day0.susceptible >= 0
    requires j <= k
    ensures DayAt(r, day0, j).dead <= DayAt(r, day0, k).dead
    ensures DayAt(r, day0, j).recovered <= DayAt(r, day0, k).recovered
    ensures DayAt(r, day0, j).susceptible >= DayAt(r, day0, k).susceptible
  {
    if j < k {
      Monotone(r, day0, j, k - 1);
      CompartmentsNonNegative(r, day0, k - 1);
    }
  }

  /** A smaller infection factor never gives more new infections on a day. */
  lemma InfectionFactorMonotone(r: Rates, prev: Compartments, factor: real)
    requires NonNegative(r) && prev.infected >= 0 && prev.susceptible >= 0
    requires 0.0 <= factor <= r.infectionFactor
    ensures NewInfected(r.(infectionFactor := factor), prev) <= NewInfected(r, prev)
  {
    var base := prev.infected as real * r.infectionRate;
    var share := prev.susceptible as real / r.initialPopulation as real;
    ProductNonNegative(prev.infected as real, r.infectionRate);
    ScaleAtMost(base, factor, r.infectionFactor);
    assert share >= 0.0;
    ScaleAtMost(share, base * factor, base * r.infectionFactor);
    assert InfectionPressure(r.(infectionFactor := factor), prev) <= InfectionPressure(r, prev);
  }

  /** Every registered measure, with the default rates, keeps the outflow bounded,
      so with the registry the infected count never goes negative. */
  lemma RegistryKeepsInfectedNonNegative(m: string, k: nat)
    requires m in MeasureEffects()
    ensures var e := MeasureEffects()[m];
      var r := Rates(DefaultPopulation, DefaultInfectionRate, DefaultRecoveryRate,
                     DefaultMortalityRate, e.infectionFactor, e.recoveryFactor);
      DayAt(r, Anchor(DefaultPopulation, DefaultInfected), k).infected >= 0
  {
    var e := MeasureEffects()[m];
    var r := Rates(DefaultPopulation, DefaultInfectionRate, DefaultRecoveryRate,
                   DefaultMortalityRate, e.infectionFactor, e.recoveryFactor);
    assert OutflowBounded(r);
    CompartmentsNonNegative(r, Anchor(DefaultPopulation, DefaultInfected), k);
  }

  /** Without bounded outflow the unguarded subtraction drives infected below zero:
      with ten infected, recovery rate 1.0 and mortality 0.5, the next day has -5. */
  lemma InfectedCanGoNegative()
    ensures Step(Rates(100, 0.0, 1.0, 0.5, 1.0, 1.0), Compartments(10, 0, 0, 90)).infected == -5
  {
    var r := Rates(100, 0.0, 1.0, 0.5, 1.0, 1.0);
    var c := Compartments(10, 0, 0, 90);
    assert NewInfected(r, c) == 0;
    assert NewRecovered(r, c) == 10;
    assert NewDead(r, c) == 5;
  }

  /** With the default parameters and an infection factor from 0.7 to 1.0
      (masks or no measure), day 1 holds 11 infected, 1 recovered, 0 dead and
      999988 susceptible. */
  lemma DefaultFirstDay(f: real)
    requires 0.7 <= f <= 1.0
    ensures DayAt(Rates(DefaultPopulation, DefaultInfectionRate, DefaultRecoveryRate,
                        DefaultMortalityRate, f, 1.0),
                  Anchor(DefaultPopulation, DefaultInfected), 1)
            == Compartments(11, 1, 0, 999988)
  {
    var r := Rates(DefaultPopulation, DefaultInfectionRate, DefaultRecoveryRate,
                   DefaultMortalityRate, f, 1.0);
    var c := Anchor(DefaultPopulation, DefaultInfected);
    assert c == Compartments(10, 0, 0, 999990);
    assert InfectionPressure(r, c) == 2.99997 * f;
    assert NewInfected(r, c) == 2;
    assert NewRecovered(r, c) == 1;
    assert NewDead(r, c) == 0;
    FirstDayFromIncrements(r, c, 2, 1, 0);
  }

  /** With an infection factor of at most 0.3, such as lockdown's 0.2, the
      default first day has no new infection: 9 infected, 1 recovered, 0 dead
      and 999990 susceptible, against 11 infected without a measure. */
  lemma LowFactorFirstDay(f: real)
    requires 0.0 <= f <= 0.3
    ensures DayAt(Rates(DefaultPopulation, DefaultInfectionRate, DefaultRecoveryRate,
                        DefaultMortalityRate, f, 1.0),
                  Anchor(DefaultPopulation, DefaultInfected), 1)
            == Compartments(9, 1, 0, 999990)
  {
    var r := Rates(DefaultPopulation, DefaultInfectionRate, DefaultRecoveryRate,
                   DefaultMortalityRate, f, 1.0);
    var c := Anchor(DefaultPopulation, DefaultInfected);
    assert c == Compartments(10, 0, 0, 999990);
    assert InfectionPressure(r, c) == 2.99997 * f;
    NoNewInfection(r, c);
    assert NewRecovered(r, c) == 1;
    assert NewDead(r, c) == 0;
    FirstDayFromIncrements(r, c, 0, 1, 0);
  }

  /** A force of infection below one infects nobody. */
  lemma NoNewInfection(r: Rates, c: Compartments)
    requires r.initialPopulation != 0 && c.susceptible >= 0
    requires 0.0 <= InfectionPressure(r, c) < 1.0
    ensures NewInfected(r, c) == 0
  {
  }

  /** Day 1 from ten infected and 999990 susceptibles, given the increments. */
  lemma FirstDayFromIncrements(r: Rates, c: Compartments, infections: int, recoveries: int, deaths: int)
    requires r.initialPopulation != 0 && c == Compartments(10, 0, 0, 999990)
    requires NewInfected(r, c) == infections && NewRecovered(r, c) == recoveries
    requires NewDead(r, c) == deaths
    ensures DayAt(r, c, 1)
      == Compartments(10 + infections - recoveries - deaths, recoveries, deaths, 999990 - infections)
  {
    assert DayAt(r, c, 1) == Step(r, DayAt(r, c, 0));
  }

  // ---------------------------------------------------------------------
  // The component

  /** The single-day summary shown in the stats panel. */
  datatype Stats = Stats(day: int, infected: int, dead: int, recovered: int,
                         susceptible: int, population: int)

  /** The record of daily series: one array per compartment, the living
      population and the measure in force, one entry per day.  A reset
      replaces the whole record; afterwards only its entries change, so the
      record's own fields are constants. */
  class SimulationData {
    const days: int
    const infected: array<int>
    const dead: array<int>
    const recovered: array<int>
    const susceptible: array<int>
    const population: array<int>
    const currentMeasures: array<string>

    /** The arrays are distinct and have one entry per day. */
    ghost predicate Valid()
    {
      days >= 1
      && infected.Length == days && dead.Length == days && recovered.Length == days
      && susceptible.Length == days && population.Length == days
      && currentMeasures.Length == days
      && infected != dead && infected != recovered && infected != susceptible
      && infected != population && dead != recovered && dead != susceptible
      && dead != population && recovered != susceptible && recovered != population
      && susceptible != population
    }

    /** The field initialiser of the component: Horizon days, no entries. */
    constructor Empty()
      ensures days == Horizon
      ensures infected.Length == 0 && dead.Length == 0 && recovered.Length == 0
      ensures susceptible.Length == 0 && population.Length == 0 && currentMeasures.Length == 0
    {
      days := Horizon;
      infected := new int[0];
      dead := new int[0];
      recovered := new int[0];
      susceptible := new int[0];
      population := new int[0];
      currentMeasures := new string[0];
    }

    /** The record a reset builds: Horizon days, every array filled with 0,
        except the susceptibles (the initial population less the initially
        infected), the living population (the initial population) and the
        measures ("none"). */
    constructor (initialPopulation: int, initialInfected: int)
      ensures Valid() && days == Horizon
      ensures fresh(infected) && fresh(dead) && fresh(recovered)
      ensures fresh(susceptible) && fresh(population) && fresh(currentMeasures)
      ensures forall k | 0 <= k < days :: infected[k] == 0 && dead[k] == 0 && recovered[k] == 0
      ensures forall k | 0 <= k < days :: susceptible[k] == initialPopulation - initialInfected
      ensures forall k | 0 <= k < days :: population[k] == initialPopulation
      ensures forall k | 0 <= k < days :: currentMeasures[k] == "none"
    {
      var s0 := initialPopulation - initialInfected;
      days := Horizon;
      infected := new int[Horizon](_ => 0);
      dead := new int[Horizon](_ => 0);
      recovered := new int[Horizon](_ => 0);
      susceptible := new int[Horizon](_ => s0);
      population := new int[Horizon](_ => initialPopulation);
      currentMeasures := new string[Horizon](_ => "none");
    }

    /** The four compartments stored for day k. */
    function Stored(k: int): Compartments
      reads infected, recovered, dead, susceptible
      requires Valid() && 0 <= k < days
    {
      Compartments(infected[k], recovered[k], dead[k], susceptible[k])
    }

    /** The summary of day `day` (shown as day + 1). */
    function StatsAt(day: int): Stats
      reads infected, recovered, dead, susceptible, population
      requires Valid() && 0 <= day < days
    {
      Stats(day + 1, infected[day], dead[day], recovered[day], susceptible[day], population[day])
    }

    /** Every stored day is day k of the series from day0 under r, the living
        population of every later day is the initial population minus the
        dead, and every day keeps the measure of day 0. */
    ghost predicate Follows(r: Rates, day0: Compartments, population0: int, measure0: string)
      reads infected, recovered, dead, susceptible, population, currentMeasures
      requires Valid() && r.initialPopulation != 0
    {
      && (forall k | 0 <= k < days :: Stored(k) == DayAt(r, day0, k))
      && population[0] == population0
      && (forall k | 1 <= k < days :: population[k] == r.initialPopulation - Stored(k).dead)
      && (forall k | 0 <= k < days :: currentMeasures[k] == measure0)
    }

    /** A record that follows the series keeps its total on every day, never
        stores negative susceptibles, and under non-negative rates with
        bounded outflow stores dead and recovered counts that never decrease
        and susceptible counts that never increase from one day to a later one. */
    lemma FollowsKeepsInvariants(r: Rates, day0: Compartments, population0: int, measure0: string)
      requires Valid() && r.initialPopulation != 0
      requires Follows(r, day0, population0, measure0)
      ensures forall k | 0 <= k < days :: Total(Stored(k)) == Total(day0)
      ensures day0.susceptible >= 0 ==> forall k | 0 <= k < days :: susceptible[k] >= 0
      ensures NonNegative(r) && OutflowBounded(r) && day0.infected >= 0 && day0.recovered >= 0
              && day0.dead >= 0 && day0.susceptible >= 0 ==>
              forall j, k | 0 <= j <= k < days ::
                dead[j] <= dead[k] && recovered[j] <= recovered[k] && susceptible[j] >= susceptible[k]
    {
      forall k | 0 <= k < days
        ensures Total(Stored(k)) == Total(day0)
        ensures day0.susceptible >= 0 ==> susceptible[k] >= 0
      {
        Conservation(r, day0, k);
        if day0.susceptible >= 0 {
          SusceptibleNonNegative(r, day0, k);
        }
      }
      if NonNegative(r) && OutflowBounded(r) && day0.infected >= 0 && day0.recovered >= 0
         && day0.dead >= 0 && day0.susceptible >= 0 {
        forall j, k | 0 <= j <= k < days
          ensures dead[j] <= dead[k] && recovered[j] <= recovered[k] && susceptible[j] >= susceptible[k]
        {
          Monotone(r, day0, j, k);
          assert Stored(j) == DayAt(r, day0, j) && Stored(k) == DayAt(r, day0, k);
        }
      }
    }

    /** The body of the day loop: day `day` from day `day - 1` under r. */
    method AdvanceDay(r: Rates, day: int)
      requires Valid() && r.initialPopulation != 0 && 1 <= day < days
      modifies infected, recovered, dead, susceptible, population, currentMeasures
      ensures Stored(day) == Step(r, old(Stored(day - 1)))
      ensures population[day] == r.initialPopulation - dead[day]
      ensures currentMeasures[day] == old(currentMeasures[day - 1])
      ensures forall k | 0 <= k < days && k != day :: Stored(k) == old(Stored(k))
      ensures forall k | 0 <= k < days && k != day :: population[k] == old(population[k])
      ensures forall k | 0 <= k < days && k != day :: currentMeasures[k] == old(currentMeasures[k])
    {
      var prevInfected := infected[day - 1];
      var prevRecovered := recovered[day - 1];
      var prevDead := dead[day - 1];
      var prevSusceptible := susceptible[day - 1];

      var prev := Compartments(prevInfected, prevRecovered, prevDead, prevSusceptible);
      var newInfected := NewInfected(r, prev);
      var newRecovered := NewRecovered(r, prev);
      var newDead := NewDead(r, prev);

      infected[day] := prevInfected + newInfected - newRecovered - newDead;
      recovered[day] := prevRecovered + newRecovered;
      dead[day] := prevDead + newDead;
      susceptible[day] := prevSusceptible - newInfected;
      population[day] := r.initialPopulation - dead[day];
      currentMeasures[day] := currentMeasures[day - 1];
    }
  }

  /** The root component: its parameters, the two intervention factors, the
      registry of measures, the record of series and the summary panel. */
  class Simulator {
    var simulationData: SimulationData
    var currentStats: Stats

    var initialPopulation: int
    var initialInfected: int
    var infectionRate: real
    var recoveryRate: real
    var mortalityRate: real

    const measureEffects: map<string, Effect>

    var currentInfectionFactor: real
    var currentRecoveryFactor: real

    /** The record holds one entry per day in distinct arrays. */
    ghost predicate Ready()
      reads this`simulationData
    {
      simulationData.Valid()
    }

    /** What a day-advance reads from the component's fields. */
    function CurrentRates(): Rates
      reads this`initialPopulation, this`infectionRate, this`recoveryRate, this`mortalityRate
      reads this`currentInfectionFactor, this`currentRecoveryFactor
    {
      Rates(initialPopulation, infectionRate, recoveryRate, mortalityRate,
            currentInfectionFactor, currentRecoveryFactor)
    }

    /** The field initialisers: default parameters, factors 1.0, an empty record. */
    constructor ()
      ensures fresh(simulationData) && simulationData.days == Horizon
      ensures simulationData.infected.Length == 0 && simulationData.dead.Length == 0
      ensures simulationData.recovered.Length == 0 && simulationData.susceptible.Length == 0
      ensures simulationData.population.Length == 0 && simulationData.currentMeasures.Length == 0
      ensures currentStats == Stats(0, 0, 0, 0, 0, 0)
      ensures initialPopulation == DefaultPopulation && initialInfected == DefaultInfected
      ensures infectionRate == DefaultInfectionRate && recoveryRate == DefaultRecoveryRate
      ensures mortalityRate == DefaultMortalityRate
      ensures measureEffects == MeasureEffects()
      ensures currentInfectionFactor == 1.0 && currentRecoveryFactor == 1.0
    {
      simulationData := new SimulationData.Empty();
      currentStats := Stats(0, 0, 0, 0, 0, 0);
      initialPopulation := DefaultPopulation;
      initialInfected := DefaultInfected;
      infectionRate := DefaultInfectionRate;
      recoveryRate := DefaultRecoveryRate;
      mortalityRate := DefaultMortalityRate;
      measureEffects := MeasureEffects();
      currentInfectionFactor := 1.0;
      currentRecoveryFactor := 1.0;
    }

    /** The lifecycle hook: resets the simulation.  The stored days then all
        hold the initial population, and none holds negative susceptibles
        when the initially infected do not exceed the population. */
    method OnInit()
      requires initialPopulation != 0
      modifies this
      ensures Ready() && simulationData.days == Horizon
      ensures fresh(simulationData) && fresh(simulationData.infected) && fresh(simulationData.dead)
      ensures fresh(simulationData.recovered) && fresh(simulationData.susceptible)
      ensures fresh(simulationData.population) && fresh(simulationData.currentMeasures)
      ensures CurrentRates() == old(CurrentRates()).(infectionFactor := 1.0, recoveryFactor := 1.0)
      ensures initialInfected == old(initialInfected)
      ensures simulationData.Follows(CurrentRates(), Anchor(initialPopulation, initialInfected),
                                     initialPopulation, "none")
      ensures forall k | 0 <= k < simulationData.days :: Total(simulationData.Stored(k)) == initialPopulation
      ensures initialInfected <= initialPopulation ==>
        forall k | 0 <= k < simulationData.days :: simulationData.susceptible[k] >= 0
      ensures currentStats == simulationData.StatsAt(simulationData.days - 1)
    {
      ResetSimulation();
      simulationData.FollowsKeepsInvariants(CurrentRates(), Anchor(initialPopulation, initialInfected),
                                            initialPopulation, "none");
    }

    /** A new record with the day-0 anchors, factors back to 1.0, and the
        whole series recomputed. */
    method ResetSimulation()
      requires initialPopulation != 0
      modifies this
      ensures Ready() && simulationData.days == Horizon
      ensures fresh(simulationData) && fresh(simulationData.infected) && fresh(simulationData.dead)
      ensures fresh(simulationData.recovered) && fresh(simulationData.susceptible)
      ensures fresh(simulationData.population) && fresh(simulationData.currentMeasures)
      ensures currentInfectionFactor == 1.0 && currentRecoveryFactor == 1.0
      ensures initialPopulation == old(initialPopulation) && initialInfected == old(initialInfected)
      ensures infectionRate == old(infectionRate) && recoveryRate == old(recoveryRate)
      ensures mortalityRate == old(mortalityRate)
      ensures simulationData.Stored(0) == Anchor(initialPopulation, initialInfected)
      ensures simulationData.population[0] == initialPopulation
      ensures simulationData.Follows(CurrentRates(), Anchor(initialPopulation, initialInfected),
                                     initialPopulation, "none")
      ensures currentStats == simulationData.StatsAt(simulationData.days - 1)
    {
      simulationData := new SimulationData(initialPopulation, initialInfected);

      simulationData.infected[0] := initialInfected;
      simulationData.susceptible[0] := initialPopulation - initialInfected;

      currentInfectionFactor := 1.0;
      currentRecoveryFactor := 1.0;

      UpdateStats(0);
      RunSimulation();
    }

    /** Overwrites the two factors from the registry entry of `measure` and
        recomputes the whole series from the unchanged day 0. */
    method ApplyMeasure(measure: string)
      requires Ready() && initialPopulation != 0
      requires measure in measureEffects
      modifies this`currentInfectionFactor, this`currentRecoveryFactor, this`currentStats
      modifies simulationData.infected, simulationData.recovered, simulationData.dead
      modifies simulationData.susceptible, simulationData.population, simulationData.currentMeasures
      ensures currentInfectionFactor == measureEffects[measure].infectionFactor
      ensures currentRecoveryFactor == measureEffects[measure].recoveryFactor
      ensures simulationData.Stored(0) == old(simulationData.Stored(0))
      ensures simulationData.Follows(CurrentRates(), old(simulationData.Stored(0)),
                                     old(simulationData.population[0]),
                                     old(simulationData.currentMeasures[0]))
      ensures currentStats == simulationData.StatsAt(simulationData.days - 1)
    {
      var effects := measureEffects[measure];
      currentInfectionFactor := effects.infectionFactor;
      currentRecoveryFactor := effects.recoveryFactor;

      RunSimulation();
    }

    /** Recomputes days 1 .. days-1 in place, each from the previous day
        alone, and shows the summary of the last day. */
    method RunSimulation()
      requires Ready() && initialPopulation != 0
      modifies simulationData.infected, simulationData.recovered, simulationData.dead
      modifies simulationData.susceptible, simulationData.population, simulationData.currentMeasures
      modifies this`currentStats
      ensures simulationData.Stored(0) == old(simulationData.Stored(0))
      ensures simulationData.Follows(CurrentRates(), old(simulationData.Stored(0)),
                                     old(simulationData.population[0]),
                                     old(simulationData.currentMeasures[0]))
      ensures currentStats == simulationData.StatsAt(simulationData.days - 1)
    {
      var data := simulationData;
      ghost var rates := CurrentRates();
      ghost var day0 := data.Stored(0);
      ghost var population0, measure0 := data.population[0], data.currentMeasures[0];
      for day := 1 to data.days
        invariant forall k | 0 <= k < day :: data.Stored(k) == DayAt(rates, day0, k)
        invariant data.population[0] == population0
        invariant forall k | 1 <= k < day :: data.population[k] == initialPopulation - data.Stored(k).dead
        invariant forall k | 0 <= k < day :: data.currentMeasures[k] == measure0
      {
        data.AdvanceDay(CurrentRates(), day);
      }
      assert data.Follows(rates, day0, population0, measure0);
      UpdateStats(data.days - 1);
    }

    /** Projects one day of the record into the summary panel. */
    method UpdateStats(day: int)
      requires Ready() && 0 <= day < simulationData.days
      modifies this`currentStats
      ensures currentStats == simulationData.StatsAt(day)
    {
      var data := simulationData;
      currentStats := Stats(day + 1, data.infected[day], data.dead[day], data.recovered[day],
                            data.susceptible[day], data.population[day]);
    }
  }

  // ---------------------------------------------------------------------
  // Clients

  /** A new component after its lifecycle hook shows the default first day
      and the summary of the last day. */
  method DefaultRun() returns (first: Compartments, stats: Stats)
    ensures first == Compartments(11, 1, 0, 999988)
    ensures stats.day == Horizon
  {
    var sim := new Simulator();
    sim.OnInit();
    DefaultFirstDay(1.0);
    first := sim.simulationData.Stored(1);
    stats := sim.currentStats;
  }

  /** A new component, its lifecycle hook, then the lockdown control: the
      factors are lockdown's, day 0 still holds the default anchors, and the
      summary shows the last day.  What lockdown does to day 1 is
      LowFactorFirstDay. */
  method LockdownRun() returns (day0: Compartments, stats: Stats, infectionFactor: real, recoveryFactor: real)
    ensures day0 == Anchor(DefaultPopulation, DefaultInfected)
    ensures infectionFactor == 0.2 && recoveryFactor == 1.0
    ensures stats.day == Horizon
  {
    var sim := new Simulator();
    sim.OnInit();
    sim.ApplyMeasure("lockdown");
    day0 := sim.simulationData.Stored(0);
    stats := sim.currentStats;
    infectionFactor, recoveryFactor := sim.currentInfectionFactor, sim.currentRecoveryFactor;
  }

  /** Applying a measure to a component whose series already is the result
      of applying it (as ApplyMeasure's postcondition leaves it) changes
      neither the factors nor any stored day. */
  method ReapplyMeasure(sim: Simulator, measure: string)
    requires sim.Ready() && sim.initialPopulation != 0
    requires measure in sim.measureEffects
    requires sim.currentInfectionFactor == sim.measureEffects[measure].infectionFactor
    requires sim.currentRecoveryFactor == sim.measureEffects[measure].recoveryFactor
    requires sim.simulationData.Follows(sim.CurrentRates(), sim.simulationData.Stored(0),
                                        sim.simulationData.population[0],
                                        sim.simulationData.currentMeasures[0])
    modifies sim`currentInfectionFactor, sim`currentRecoveryFactor, sim`currentStats
    modifies sim.simulationData.infected, sim.simulationData.recovered, sim.simulationData.dead
    modifies sim.simulationData.susceptible, sim.simulationData.population
    modifies sim.simulationData.currentMeasures
    ensures sim.currentInfectionFactor == old(sim.currentInfectionFactor)
    ensures sim.currentRecoveryFactor == old(sim.currentRecoveryFactor)
    ensures forall k | 0 <= k < sim.simulationData.days ::
      sim.simulationData.Stored(k) == old(sim.simulationData.Stored(k))
    ensures forall k | 0 <= k < sim.simulationData.days ::
      sim.simulationData.population[k] == old(sim.simulationData.population[k])
    ensures forall k | 0 <= k < sim.simulationData.days ::
      sim.simulationData.currentMeasures[k] == old(sim.simulationData.currentMeasures[k])
  {
    sim.ApplyMeasure(measure);
  }

  /** Resetting a component whose series already is the result of a reset
      with its current parameters stores the same values again: the series
      after a reset depends on the parameters alone. */
  method ResetAgain(sim: Simulator)
    requires sim.Ready() && sim.initialPopulation != 0 && sim.simulationData.days == Horizon
    requires sim.currentInfectionFactor == 1.0 && sim.currentRecoveryFactor == 1.0
    requires sim.simulationData.Follows(sim.CurrentRates(), Anchor(sim.initialPopulation, sim.initialInfected),
                                        sim.initialPopulation, "none")
    modifies sim
    ensures sim.Ready() && sim.simulationData.days == old(sim.simulationData.days)
    ensures sim.CurrentRates() == old(sim.CurrentRates())
    ensures forall k | 0 <= k < sim.simulationData.days ::
      sim.simulationData.Stored(k) == old(sim.simulationData.Stored(k))
    ensures forall k | 0 <= k < sim.simulationData.days ::
      sim.simulationData.population[k] == old(sim.simulationData.population[k])
    ensures forall k | 0 <= k < sim.simulationData.days ::
      sim.simulationData.currentMeasures[k] == old(sim.simulationData.currentMeasures[k])
  {
    sim.ResetSimulation();
  }
}
