# Pandemus simulator: a Dafny model

This project models the two pieces of logic in the Pandemus simulator:

- **The day-by-day epidemic simulator of the Angular root component** (`simulation.dfy`, module `Simulation`). The population is split into susceptible, infected, recovered and dead people. Each day is computed from the previous day alone, with floored counts. New infections are capped at the remaining susceptibles. Two intervention factors scale the infection and recovery rates. They are taken from a fixed registry of measures (none, masks, distancing, lockdown, vaccination).
  - The component is the class `Simulator`. Its fields are the parameters, the factors, the registry, the summary panel `currentStats` and the record `simulationData`.
  - The record is the class `SimulationData`. It has six arrays: infected, dead, recovered, susceptible, living population and the measure of each day.
  - `ResetSimulation`, `ApplyMeasure`, `RunSimulation` and `UpdateStats` change those fields and arrays in place, as the component does. `RunSimulation` keeps the component's `for` loop.
  - Each method is proved against a pure specification. `Step` is one day. `DayAt(r, day0, k)` is day k of the series that starts from `day0` under the rates `r`. The predicate `SimulationData.Follows` says that every stored day equals `DayAt`, that the population of every later day is the initial population minus the dead, and that every day keeps the measure of day 0.
  - Lemmas about `DayAt` prove the invariants of the series: conservation, non-negative susceptibles, monotone dead and recovered counts, and non-negative infected counts under bounded outflow.
- **The validator for persisted simulation records** (`validator.dfy`, module `SimulationValidator`). It is modelled as pure functions that compute the list of issues the rule table reports for a request body. A body is valid when that list is empty. The lemma `ValidIffWellFormed` connects this to an independent description of a well-formed record.
  - The hand-written `checkLength` is modelled. So is JavaScript's `parseInt`, which it calls.
  - The integer rule with a lower bound is modelled.
  - The library's string conversion and its date and float recognisers are parameters (the `Library` datatype).

The two JavaScript number operations the simulator uses are `Math.floor` and division. They are modelled on exact reals: `/` and `.Floor`.

## Model

| member | source | states |
|---|---|---|
| Simulation.MeasureEffects | src/app/app.component.ts:37-44 | The registry has exactly the keys none, masks, distancing, lockdown and vaccination. Every infection factor is in (0, 1] and every recovery factor is at least 1. "none" is the neutral pair 1.0/1.0. |
| Simulation.NewInfected | src/app/app.component.ts:93-102 | New infections are the minimum of the previous day's susceptibles and the floored force of infection: at most each of the two, and equal to one of them. They are non-negative under non-negative rates and counts. |
| Simulation.NewRecovered | src/app/app.component.ts:104-107 | The count is the floor of infected × recovery rate × recovery factor, and is non-negative under non-negative inputs. |
| Simulation.NewDead | src/app/app.component.ts:109-110 | The count is the floor of infected × mortality rate, and is non-negative under non-negative inputs. |
| Simulation.Step | src/app/app.component.ts:88-121 | One day-advance keeps the total of the four compartments. It keeps susceptibles non-negative. Under non-negative rates dead and recovered never decrease and susceptibles never increase. With bounded outflow, infected stays non-negative. |
| Simulation.Anchor | src/app/app.component.ts:66-68 | The day-0 anchors hold initialInfected infected, no recovered and no dead, and add up to the initial population. |
| Simulation.PressureNonNegative | src/app/app.component.ts:94-101 | The force of infection and its floor are non-negative for non-negative rates and counts. |
| Simulation.OutflowAtMostInfected | src/app/app.component.ts:104-110 | When recoveryRate × recoveryFactor + mortalityRate ≤ 1, recoveries plus deaths of a day never exceed the previous day's infected. |
| Simulation.Conservation | src/app/app.component.ts:113-117 | For every day k, susceptible + infected + recovered + dead equals that sum on day 0. Proved by induction on k. |
| Simulation.SusceptibleNonNegative | src/app/app.component.ts:94-102 | If day 0 has non-negative susceptibles, every day has, whatever the rates. |
| Simulation.CompartmentsNonNegative | src/app/app.component.ts:104-117 | With non-negative rates and bounded outflow, no compartment of any day is negative. |
| Simulation.Monotone | src/app/app.component.ts:105-117 | From any day j to any later day k, dead and recovered never decrease and susceptibles never increase. This needs non-negative rates, bounded outflow and non-negative day-0 counts. |
| Simulation.InfectionFactorMonotone | src/app/app.component.ts:94-101 | A smaller infection factor, such as that of lockdown compared with none, never gives more new infections on a day. |
| Simulation.RegistryKeepsInfectedNonNegative | src/app/app.component.ts:31-44 | With the default rates and any registered measure, infected is non-negative on every day. |
| Simulation.InfectedCanGoNegative | src/app/app.component.ts:113-114 | Without bounded outflow the unguarded subtraction gives negative infected. With 10 infected, recovery rate 1.0 and mortality 0.5, the next day holds -5. |
| Simulation.DefaultFirstDay | src/app/app.component.ts:31-35 | With the default parameters, recovery factor 1.0 and any infection factor from 0.7 to 1.0 (masks or no measure), day 1 holds 11 infected, 1 recovered, 0 dead and 999988 susceptible. |
| Simulation.LowFactorFirstDay | src/app/app.component.ts:31-44 | With the default parameters, recovery factor 1.0 and any infection factor up to 0.3 (lockdown's is 0.2), day 1 has no new infection: 9 infected, 1 recovered, 0 dead and 999990 susceptible. |
| Simulation.SimulationData.Empty | src/app/app.component.ts:11-19 | The field initialiser of the record: 100 days and empty arrays. |
| Simulation.SimulationData.constructor | src/app/app.component.ts:54-64 | The record a reset builds: 100 distinct fresh arrays of 100 entries. Infected, dead and recovered are 0. Susceptible is the initial population minus the initially infected. Population is the initial population. Every measure is "none". |
| Simulation.SimulationData.FollowsKeepsInvariants | src/app/app.component.ts:113-121 | A record that follows the series holds the day-0 total on every day. It never stores negative susceptibles when day 0 has none. Under non-negative rates and bounded outflow, its stored dead and recovered counts never decrease and its susceptibles never increase from one day to any later day. |
| Simulation.SimulationData.AdvanceDay | src/app/app.component.ts:88-121 | The loop body: day `day` becomes Step of the old day `day - 1`. Its population is the initial population minus its dead. Its measure is copied from the day before. Every other day is unchanged. |
| Simulation.Simulator.constructor | src/app/app.component.ts:11-47 | The field initialisers: the default parameters, factors 1.0, the registry, a record of 100 days whose six arrays are all empty, and a zero summary. |
| Simulation.Simulator.OnInit | src/app/app.component.ts:49-51 | The lifecycle hook resets. Afterwards the record and its six arrays are new objects, so the controls may update them. Every stored day adds up to the initial population. No day has negative susceptibles when the initially infected do not exceed the population. |
| Simulation.Simulator.ResetSimulation | src/app/app.component.ts:53-75 | A fresh record of 100 days holds the day-0 anchors: infected initialInfected, susceptible initialPopulation − initialInfected, recovered 0, dead 0, population initialPopulation. Both factors are 1.0 and the parameters are unchanged. The whole series follows DayAt from the anchors, with every measure "none". The summary shows the last day. |
| Simulation.Simulator.ApplyMeasure | src/app/app.component.ts:77-84 | The factors are assigned (not multiplied) from the registry entry. Day 0 is unchanged. The series is recomputed from the old day 0 under the new factors. The summary shows the last day. |
| Simulation.Simulator.RunSimulation | src/app/app.component.ts:86-125 | Day 0 is untouched. For every day d ≥ 1 the stored compartments are DayAt(d) from the old day 0. population[d] = initialPopulation − dead[d]. Every measure equals the old measure of day 0. currentStats is the summary of the last day. |
| Simulation.Simulator.UpdateStats | src/app/app.component.ts:127-136 | The summary is day + 1 together with the five values stored at index `day`. |
| Simulation.DefaultRun | src/app/app.component.ts:31-35 | A new component after its lifecycle hook stores day 1 as 11 infected, 1 recovered, 0 dead and 999988 susceptible, and its summary shows day 100. |
| Simulation.LockdownRun | src/app/app.component.ts:49-84 | A new component, its lifecycle hook, then the lockdown control: the factors are 0.2 and 1.0, day 0 still holds the default anchors, and the summary shows day 100. |
| Simulation.ReapplyMeasure | src/app/app.component.ts:77-87 | Applying a measure to a series that already results from applying it changes neither the factors nor any stored value, so applying a measure twice equals applying it once. |
| Simulation.ResetAgain | src/app/app.component.ts:53-75 | Resetting a series that already results from a reset with the same parameters stores the same values again. |
| SimulationValidator.SkipSpace | src/validators/simulationValidator.js:4 | parseInt's leading-space skip returns a suffix that does not start with white space, after a prefix that is all white space. |
| SimulationValidator.LeadingDigits | src/validators/simulationValidator.js:4 | parseInt reads the longest prefix of digits: the result is a prefix of the input, every character of it is a digit, and the next character is not. |
| SimulationValidator.ParseIntSkipsSpace | src/validators/simulationValidator.js:4 | parseInt gives the same result whatever leading white space precedes its input. |
| SimulationValidator.ParseIntReadsIntPrefix | src/validators/simulationValidator.js:4 | parseInt of an integer-rule string followed by text that does not continue the number (such as "12abc" or "12.5") is that integer. |
| SimulationValidator.IntStringParses | src/validators/simulationValidator.js:4 | Every string the integer rule accepts is read by parseInt as exactly the integer the rule checked. |
| SimulationValidator.Utf16Length | src/validators/simulationValidator.js:6 | The string length the engine reports is at least the number of characters, and equals it when every character is in the Basic Multilingual Plane. |
| SimulationValidator.CheckLength | src/validators/simulationValidator.js:3-11 | On an array, checkLength succeeds exactly when its length equals the parsed days. On a string, it succeeds exactly when the string's UTF-16 length equals the parsed days. A boolean or a number, which has no length, is always rejected. Any rejection carries the message "Array length must match days". A missing or null value raises a TypeError. |
| SimulationValidator.CreatedAtIssues | src/validators/simulationValidator.js:14-20 | createdAt reports nothing exactly when it is absent or its string form is a date. Otherwise it reports the date message, on createdAt. |
| SimulationValidator.NameIssues | src/validators/simulationValidator.js:21-28 | name reports nothing exactly when it is absent or its string form has 3 to 255 characters. Otherwise it reports the length message, on name. |
| SimulationValidator.DaysIssues | src/validators/simulationValidator.js:29-34 | days reports nothing exactly when its string form is an integer of at least 1. Then days is present, and the parseInt the length rule uses reads that same integer. Otherwise it reports the days message, on days. |
| SimulationValidator.ElementIssues | src/validators/simulationValidator.js:51-55 | No element issue is reported for a series exactly when every element passes the float rule. Every issue names an element of that series. |
| SimulationValidator.SeriesIssues | src/validators/simulationValidator.js:35-55 | A series field reports no issue exactly when it is an array of at least one element, the parsed days equal its length, and every element is a float. Every issue is on that field or on one of its elements. |
| SimulationValidator.Issues | src/validators/simulationValidator.js:13-98 | Every issue the table reports is on one of its six fields. Element issues are only ever on infected, dead or recovered. |
| SimulationValidator.SeriesIffIsSeries | src/validators/simulationValidator.js:35-97 | With days parsed to n ≥ 1, a series field reports no issue exactly when it is an array of n floats. |
| SimulationValidator.ValidIffWellFormed | src/validators/simulationValidator.js:13-98 | The validator accepts a record exactly when it is well formed. createdAt is absent or a date. name is absent or 3 to 255 characters long. days is an integer n ≥ 1. infected, dead and recovered are arrays of exactly n floats. |
| SimulationValidator.ValidSeriesLengths | src/validators/simulationValidator.js:29-50 | In an accepted record, days is an integer n ≥ 1, and infected, dead and recovered are arrays of n elements each, hence of equal length. |
| SimulationValidator.OptionalFields | src/validators/simulationValidator.js:14-28 | createdAt and name are optional: dropping either from an accepted record keeps it accepted. |
| SimulationValidator.RequiredDaysAndShortName | src/validators/simulationValidator.js:21-34 | A record without days is rejected, and so is one whose name has two characters. |

## Left out

- JavaScript numbers are modelled as exact reals and unbounded integers. The model does not claim bit-exact agreement with IEEE-754 doubles in the products, the division by the population, or `Math.floor`. parseInt's rounding of very long digit strings is not modelled either.
- A zero initial population makes the JavaScript division give NaN or Infinity. Every operation that advances a day requires `initialPopulation != 0` instead.
- Simulator.ApplyMeasure: the model requires the key to be in the registry. For a key that is missing, the source reads `undefined` and crashes. A key inherited from the object prototype, such as "toString", does not crash; it gives undefined factors and a NaN series. Neither case is modelled.
- The source never guards against infected going negative when recoveryRate × recoveryFactor + mortalityRate exceeds 1. The model keeps that behaviour and proves the opposite only under `OutflowBounded`: `InfectedCanGoNegative` exhibits it, and `RegistryKeepsInfectedNonNegative` shows that the default rates never reach it.
- The component checks no parameter: it accepts more initially infected than people, and negative rates. The model does the same. Properties that need sane parameters take them as hypotheses (`NonNegative`, `OutflowBounded`, `initialInfected <= initialPopulation`).
- Stored values are non-negative only under those hypotheses, as the previous lines show.
- Only one day of the lockdown-versus-none comparison is proved (`InfectionFactorMonotone`, and the default first days of `DefaultFirstDay` and `LowFactorFirstDay`: 11 against 9 infected). A comparison of whole series or of epidemic peaks is not.
- LockdownRun: it does not state the stored day 1 of the lockdown run. That day is `LowFactorFirstDay` applied to the factor `LockdownRun` ensures.
- The body of `runSimulation`'s loop is the helper `SimulationData.AdvanceDay`. The reset is split between the `SimulationData` constructor (the object literal) and `ResetSimulation` (the anchors, the factors and the calls). The writes and their order are the source's.
- SimulationValidator: the validator library's `toString`, `isDate` and `isFloat` are abstract parameters. The float rule on `infected.*` and the other series is modelled as `isFloat` of each element's string form.
- SimulationValidator: JSON objects as field values are not modelled, nor is the library applying a standard rule to each element when a field's value is itself an array. A rule is applied to the string form of the whole value.
- SimulationValidator: when a series field is not an array, the model assumes its wildcard rule selects no element.
- SimulationValidator.NameIssues: the table lists the length rule before the `trim` sanitizer, so the length is that of the name as sent, not of the trimmed name. The model counts one per character of the string form (a Unicode code point). Any other counting rule of the library is not modelled.
- SimulationValidator.CheckLength: the text of the TypeError the engine raises is not modelled (`TypeErrorThrown`). The `console.error` of the custom rules (src/validators/simulationValidator.js:45, 66 and 87) is output only and is not modelled.
- The order in which the library reports issues is taken as the table order. Only whether the list is empty matters for acceptance.
- Not modelled, because they hold no simulation or validation logic: the chart, the 3D viewer, routing, UI event emitters, Angular module configuration, the HTTP service, the Express and Prisma controllers, the test scaffold, and the route-parameter validator.
