# CObs ensemble model in Dafny

CObs estimates daily transmission ("actual daily new cases", ADNC) of an epidemic from
public feeds of cases, tests, positivity, mortality and hospital occupancy. It runs an
ensemble of scenarios over a grid of epidemiological parameters and reports, day by
day, the lower, baseline (median) and upper scenario, plus ranged global aggregates.

This project models the computational core of that pipeline and proves properties
of the model:

- `numerics.dfy` (module `Numerics`): `Math.Round` as banker's rounding (ties to
  even) on reals, and rounding to `d` decimal places.
- `base.dfy` (module `Base`): raw days, the centred 5-day and "101-day" rolling
  records (`DayRolling`), and the `BaseDays` store that numbers the parsed rows and
  builds one rolling record per raw day.
- `parameters.dfy` (module `Parameters`): the seven value lists, their Cartesian
  product in LINQ enumeration order, the ordering filter
  (mortality > admission > exposure-to-test), and the `AllScenarios` object that
  generates the scenario parameter sets.
- `selection.dfy` (module `Selection`): the stable `OrderBy` / `OrderByDescending`
  used to pick the lowest, median and highest scenario, and the sorting of a triple.
- `scenario.dfy` (module `Scenarios`): the eight phases of `Scenario.RunScenario`.
  - Phase 1: admissions with churn.
  - Phase 2: the run-up days.
  - Phase 3: the source regions.
  - Phase 4: cases-per-admission autocalibration.
  - Phase 5: the reconstruction of cases per region, with the test-results handover.
  - Phase 6: daily deltas, growth rate, doubling time and R-eff.
  - Phase 7: current growth and R-eff, and the exponential projection.
  - Phase 8: seroprevalence and projected mortality.

  Each phase is a method of the `Scenario` class, proved equal to a specification
  function. The properties of the phases are proved about those functions.
- `build.dfy` (module `Build`): `Builder.ExtractResultDays` (per-day lower /
  baseline / upper selection over all scenarios, including the run-up days) and
  `Builder.ExtractAggregates` (ranged global aggregates and the doubling-time
  instability flag).

Doubles and decimals are modelled as exact reals. `Math.Log` and `Math.Exp` are
function parameters. The logarithm is only assumed to vanish nowhere on the positive
reals except at one (`Scenarios.LogSound`).

## Model

| member | source | states |
|---|---|---|
| Numerics.Round | CObs/Scenario.cs:140-143 | the rounded value is within 1/2 of its argument, a tie goes to the even integer, and integers are unchanged (banker's rounding of `Math.Round`) |
| Numerics.RoundTo | CObs/Scenario.cs:544-547 | rounding to `d` places lands within half a unit of the `d`-th place of the argument |
| Numerics.RoundToMonotone | CObs/Build.cs:409-411 | rounding to 0, 1 or 2 places preserves the order of its arguments |
| Numerics.RoundToIdempotent | CObs/Build.cs:409-411 | rounding an already rounded value to the same places changes nothing |
| Numerics.MeanWithin | CObs/Scenario.cs:540-542 | the mean of a non-empty list lies between any bounds on its elements |
| Base.FromRow | CObs/Base.cs:27-37 | a parsed row becomes a raw day carrying the given timeline index |
| Base.Centred | CObs/Base.cs:54-68 | the clamped window contains the day, stays in [0, last], holds exactly the days within the radius, and has 1 to 2r+1 days |
| Base.CentredNested | CObs/Base.cs:54-68 | the 50-day window contains the 2-day window |
| Base.WhereIndexInIsSlice | CObs/Base.cs:70-76 | when every raw day's index is its position, the `Where` on the index range is exactly the slice of that range |
| Base.MakeRolling | CObs/Base.cs:81 | the rolling record of day i refers to raw day i |
| Base.RollingMeans | CObs/Base.cs:78-89 | each 5-day field is the mean of its channel over the short window; each "101-day" field is the short-window sum over the long-window count, as written |
| Base.ShortAverageBetween | CObs/Base.cs:83-87 | each 5-day average lies between any bounds on the raw values in its window |
| Base.LongFieldsAtMostShort | CObs/Base.cs:88-89 | for non-negative data the "101-day" mortality and hospitalization fields lie between 0 and the 5-day ones |
| Base.BaseDays.constructor | CObs/Base.cs:98-102 | a new store has no raw and no rolling days |
| Base.BaseDays.ReadDaysRaw | CObs/Base.cs:104-131 | the raw days are the rows numbered 0, 1, 2, ... in read order, and there is one rolling record per raw day, the one of its index |
| Parameters.Filter | CObs/Parameters.cs:105-108 | the filter keeps only admissible parameter sets from its input and never lengthens it |
| Parameters.FilterCount | CObs/Parameters.cs:105-108 | an admissible set occurs in the filter's output as often as in its input; an inadmissible set does not occur |
| Parameters.ProductLength | CObs/Parameters.cs:79-95 | the product has the product of the seven list lengths as its length |
| Parameters.ProductAt | CObs/Parameters.cs:79-95 | the combination with indices (i, a, d, m, t, s, w) sits at the mixed-radix position with the IFR outermost and the window innermost |
| Parameters.ProductMembers | CObs/Parameters.cs:79-95 | every generated set draws each value from its own list |
| Parameters.ProductCount | CObs/Parameters.cs:79-95 | a set occurs in the product as often as the product of its values' multiplicities in their lists |
| Parameters.GeneratedOnce | CObs/Parameters.cs:79-108 | on lists without repeats, every admissible combination is generated exactly once and nothing else is generated |
| Parameters.FilterProductLength | CObs/Parameters.cs:79-108 | the number of admissible sets is the IFR count times the per-admission sum of admissible (mortality, test) pairs times the other counts |
| Parameters.DefaultProductLength | CObs/Parameters.cs:66-72 | the literature grid has 3^7 = 2187 combinations |
| Parameters.DefaultScenarioCount | CObs/Parameters.cs:66-108 | the literature grid yields 1944 scenarios |
| Parameters.DefaultExclusions | CObs/Parameters.cs:66-108 | a combination drawn from the literature lists is dropped by the filter exactly when its time to admission and its exposure-to-test delay are both 7 |
| Parameters.DefaultDistinct | CObs/Parameters.cs:66-72 | no literature value list repeats a value |
| Parameters.AppendAdmissible | CObs/Parameters.cs:97-124 | the loop appends the admissible sets of the product, in order, after the existing scenarios |
| Parameters.AllScenarios.constructor | CObs/Parameters.cs:61-75 | a new ensemble has the literature grid and no scenarios |
| Parameters.AllScenarios.GenerateScenarioParameters | CObs/Parameters.cs:77-125 | the scenarios become the old ones followed by the admissible sets of the product, in enumeration order |
| Selection.SortBy | CObs/Build.cs:177-187 | the stable sort is a permutation of its input and is ordered by the key |
| Selection.InsertWithKey | CObs/Build.cs:177-187 | inserting an element puts it in front of every element sharing its key and keeps the order of the others |
| Selection.SortStable | CObs/Build.cs:177-187 | the sort is stable: for every key value, the elements carrying it keep their input order; with ordering and permutation this fixes every position, including the median |
| Selection.FirstExtreme | CObs/Build.cs:189-195 | the chosen element has the extreme key, and no earlier element has that key |
| Selection.SortHead | CObs/Build.cs:173-179 | the head of the stable sort is the first element with the extreme key |
| Selection.Pick | CObs/Build.cs:173-195 | lower, baseline and upper are members of the candidates, with keys in that order |
| Selection.PickExtremes | CObs/Build.cs:173-195 | lower is the first fewest-key candidate and upper the first greatest-key candidate |
| Selection.UpperIsFirstOfTies | CObs/Build.cs:189-195 | on a tie the descending stable sort keeps the earlier scenario first |
| Selection.Ranged | CObs/Build.cs:392-395 | sorting a triple yields a permutation of it in ascending order |
| Scenarios.Fresh | CObs/Scenario.cs:48-57 | a new day with aggregates wraps its rolling record and has an unknown source |
| Scenarios.Admissions | CObs/Scenario.cs:205-206 | admissions with churn are the net admissions clamped at zero: at least both 0 and the net value, and equal to one of them |
| Scenarios.Admitted | CObs/Scenario.cs:136-206 | each day wraps its rolling record, is unsourced, and has non-negative admissions on both channels |
| Scenarios.WithAdmissions | CObs/Scenario.cs:134-218 | phase 1 gives one day per rolling day, with non-negative admissions, and day 0 is back-filled from day 1 on both channels |
| Scenarios.AdmitDay | CObs/Scenario.cs:136-208 | one iteration of the phase-1 loop computes the specified day |
| Scenarios.Admit | CObs/Scenario.cs:132-219 | the phase-1 loop and back-fill compute the phase-1 days |
| Scenarios.RunUpCount | CObs/Scenario.cs:230-232 | the run-up loop stops at the mortality delay or at the last day, whichever comes first |
| Scenarios.RunUp | CObs/Scenario.cs:226-247 | the run-up days have consecutive negative indices ending at -1, are sourced on mortality only, and take their cases from the observed day one mortality delay later via the IFR |
| Scenarios.Classified | CObs/Scenario.cs:252-277 | phase 3 changes only the source of each day and tags every day with its region |
| Scenarios.RegionPartition | CObs/Scenario.cs:258-273 | the four regions are the consecutive index ranges cut at count minus each delay |
| Scenarios.RegionsPresent | CObs/Scenario.cs:258-273 | under the ordering filter every region is non-empty (projected cases when the exposure-to-test delay is positive) |
| Scenarios.LookAheadInRange | CObs/Scenario.cs:290-299 | the mortality and admission look-aheads of the lagged regions stay within the days |
| Scenarios.FirstTagged | CObs/Scenario.cs:374-415 | the result is the first day with the tag |
| Scenarios.LastTagged | CObs/Scenario.cs:306-308 | the result is the last day with the tag (`Where(...).Last()`) |
| Scenarios.LastMortalityAndAdmissionsDay | CObs/Scenario.cs:306-308 | the last mortality-and-admissions day is count minus mortality delay minus one |
| Scenarios.FirstTestResultsDay | CObs/Scenario.cs:374-415 | the handover happens at the first test-results day, count minus admission delay |
| Scenarios.LastTestResultsDay | CObs/Scenario.cs:556-558 | the last test-results day is count minus exposure-to-test delay minus one |
| Scenarios.FlooredCasesPerAdmission | CObs/Scenario.cs:293-303 | cases per admission are the estimate floored at 5 |
| Scenarios.Floored | CObs/Scenario.cs:288-304 | the first phase-4 loop gives each day its floored estimate and keeps the tags |
| Scenarios.CarriedForward | CObs/Scenario.cs:310-316 | admissions-only days take the final value and every other day is unchanged |
| Scenarios.Calibrated | CObs/Scenario.cs:286-317 | phase 4 changes only cases per admission: at least 5 everywhere, the floored estimate outside the admissions-only region, and the last mortality-and-admissions day's value inside it |
| Scenarios.FloorCasesPerAdmission | CObs/Scenario.cs:288-304 | the first phase-4 loop computes `Floored` |
| Scenarios.FloorDay | CObs/Scenario.cs:290-303 | one iteration of that loop computes the floored day from the look-ahead days |
| Scenarios.CarryForward | CObs/Scenario.cs:310-316 | the second phase-4 loop computes `CarriedForward` |
| Scenarios.HandoverAt | CObs/Scenario.cs:376-414 | the scale times the mean reported 5-day cases of the window after equals the mean reconstructed cases of the window before; it is zero exactly when those cases are all zero; positivity and tests are those of the handover day |
| Scenarios.MeanCases | CObs/Scenario.cs:357-359 | the mean of the two estimates, rounded, lies between them up to 1/2 |
| Scenarios.ByMortalityAndAdmissions | CObs/Scenario.cs:343-359 | a mortality-and-admissions day changes only its cases |
| Scenarios.ByAdmissions | CObs/Scenario.cs:362-370 | an admissions-only day changes only its cases |
| Scenarios.ByTestResults | CObs/Scenario.cs:417-422 | a test-results day changes only its cases |
| Scenarios.Lagged | CObs/Scenario.cs:341-370 | a day of the lagged regions changes only its cases |
| Scenarios.HandoverOf | CObs/Scenario.cs:374-415 | the handover is taken at the first test-results day, count minus admission delay, with that day's positivity (non-zero) and tests |
| Scenarios.HandoverScale | CObs/Scenario.cs:376-404 | at the first test-results day t0 the handover scale times the mean reported 5-day cases over [t0, min(t0+2, count-1)] equals the mean reconstructed cases over [max(t0-3, 0), t0), and each window holds 1 to 3 days |
| Scenarios.HandoverWindows | CObs/Scenario.cs:376-397 | for 1 <= t0 < count, both clamped handover windows hold one to three days |
| Scenarios.ReconstructedCases | CObs/Scenario.cs:332-425 | phase 5 changes only cases: the rounded mean of mortality/IFR and admissions times cases per admission, admissions times cases per admission, the scaled reported cases, or nothing, by region |
| Scenarios.ReconstructedKeeps | CObs/Scenario.cs:332-425 | phase 5 keeps the tags, the rolling records and cases per admission |
| Scenarios.TestResultCasesAtHandover | CObs/Scenario.cs:417-422 | on the handover day the ratios are one and the cases are the scale times the reported cases |
| Scenarios.ReconstructDay | CObs/Scenario.cs:341-423 | one iteration of the phase-5 loop computes the reconstructed day and keeps the handover flag and values right |
| Scenarios.TakeHandover | CObs/Scenario.cs:376-414 | the handover computed inside the loop from the days already rewritten equals the specified one |
| Scenarios.Reconstruct | CObs/Scenario.cs:332-425 | the phase-5 loop computes `Reconstructed` |
| Scenarios.CountTagged | CObs/Scenario.cs:435-437 | the count is at most the number of days |
| Scenarios.ProjectedPrefixCount | CObs/Scenario.cs:435-437 | on tagged days the first k days hold max(0, k - (count - test delay)) projected days |
| Scenarios.NonProjectedIsRegion | CObs/Scenario.cs:435-437 | the days without projection number count minus the exposure-to-test delay, at least 3 |
| Scenarios.Differences | CObs/Scenario.cs:455-458 | the zipped differences number one fewer than the days |
| Scenarios.DifferencesTelescope | CObs/Scenario.cs:455-463 | the differences add up to the last day's cases minus the first day's |
| Scenarios.DifferencesOfCases | CObs/Scenario.cs:455-458 | the differences depend on the cases only |
| Scenarios.DeltaWindow | CObs/Scenario.cs:443-449 | the 9-day window contains the day, stays before projection, and has at least two days |
| Scenarios.DeltaTelescopes | CObs/Scenario.cs:443-463 | the mean daily change is the window's change in cases over its number of steps |
| Scenarios.GrowthOf | CObs/Scenario.cs:465-473 | the growth rate is zero at zero cases and otherwise times the cases gives the daily change |
| Scenarios.DoublingTimeOf | CObs/Scenario.cs:475-488 | the doubling time is zero outside the guarded ranges and otherwise solves t * log(1 + g) = log 2 |
| Scenarios.REffOf | CObs/Scenario.cs:490-506 | R-eff is zero when the approximation 1 + g SI + w(1-w)(g SI)^2 is negative or the growth rate is below -0.35, and is that approximation otherwise; it is never negative |
| Scenarios.REffAboveOne | CObs/Scenario.cs:490-506 | for serial intervals up to 11 days, R-eff exceeds one exactly when the growth rate is positive, and is one at zero growth |
| Scenarios.WithDelta | CObs/Scenario.cs:460-506 | phase 6 on a day keeps its rolling record, source and cases |
| Scenarios.DeltaDay | CObs/Scenario.cs:439-507 | phase 6 on a day keeps its rolling record, source and cases, and skips projected days |
| Scenarios.DeltasKeep | CObs/Scenario.cs:433-508 | phase 6 keeps tags, cases and cases per admission, leaves projected days alone, and gives non-negative R-eff elsewhere |
| Scenarios.DeltaDayFields | CObs/Scenario.cs:439-507 | on a day before projection the mean change, growth rate, doubling time and R-eff follow from the window's change |
| Scenarios.DeltaDayKeeps | CObs/Scenario.cs:439-506 | phase 6 on one day keeps source and cases per admission, and gives non-negative R-eff before projection |
| Scenarios.DeltaStep | CObs/Scenario.cs:439-507 | one iteration of the phase-6 loop computes the specified day |
| Scenarios.ComputeDeltas | CObs/Scenario.cs:433-508 | the phase-6 loop computes `WithDeltas` |
| Scenarios.RecentWindow | CObs/Scenario.cs:518-524 | the recent window ends at the last day before projection and has 3 days, or all of them if fewer |
| Scenarios.CurrentGrowthBetween | CObs/Scenario.cs:540-542 | the current growth rate lies between any bounds on the recent days' growth rates |
| Scenarios.CurrentREffNear | CObs/Scenario.cs:544-547 | the current R-eff is within 0.005 of the recent days' mean, and not negative when they are not |
| Scenarios.ProjectedDay | CObs/Scenario.cs:549-568 | phase 7 leaves the days before projection alone; the j-th projected day gets the current R-eff and the last test-results cases grown at the current rate for j days |
| Scenarios.ProjectedOrdinal | CObs/Scenario.cs:555-568 | the projection counter reaches k - (count - test delay) + 1 at projected day k |
| Scenarios.ProjectedREffTagged | CObs/Scenario.cs:549-553 | the first pass keeps every day's source |
| Scenarios.SetProjectedREff | CObs/Scenario.cs:549-553 | the first phase-7 pass computes `WithProjectedREff` |
| Scenarios.CastProjection | CObs/Scenario.cs:555-568 | the second phase-7 pass computes `Cast`, numbering projected days from one |
| Scenarios.Project | CObs/Scenario.cs:516-569 | phase 7 computes the current growth rate, the current R-eff and the projected days |
| Scenarios.LateCasesAreRecent | CObs/Scenario.cs:589-598 | the late regions' cases are the cases of the last mortality-delay days |
| Scenarios.Seroprevalence | CObs/Scenario.cs:582-585 | seroprevalence is within 0.05 of total cases as a percentage of the population |
| Scenarios.ProjectedMortality | CObs/Scenario.cs:576-598 | projected mortality is observed deaths plus the late regions' cases times the IFR, within 1/2 |
| Scenarios.ClassifiedKeeps | CObs/Scenario.cs:252-277 | phase 3 keeps every day's rolling record |
| Scenarios.CalibratedKeeps | CObs/Scenario.cs:286-317 | phase 4 keeps tags and rolling records |
| Scenarios.Estimated | CObs/Scenario.cs:605-610 | after phases 1 to 6 every day is tagged with its region and wraps its rolling record |
| Scenarios.EstimatedDay | CObs/Scenario.cs:605-610 | after phases 1 to 6 every day has at least 5 cases per admission and, before projection, non-negative R-eff |
| Scenarios.ScenarioDays | CObs/Scenario.cs:604-611 | a run gives one day per rolling day |
| Scenarios.ScenarioDay | CObs/Scenario.cs:604-611 | every day of a run keeps its rolling record and region, has at least 5 cases per admission and non-negative R-eff |
| Scenarios.Scenario.constructor | CObs/Scenario.cs:104-121 | a new scenario holds its parameters and base days and has empty day lists |
| Scenarios.Scenario.ComputeAdmissionsWithChurn | CObs/Scenario.cs:132-219 | phase 1 sets the days to `WithAdmissions` and nothing else |
| Scenarios.Scenario.ComputeRunUp | CObs/Scenario.cs:226-247 | phase 2 sets the run-up days to `RunUp` and nothing else |
| Scenarios.Scenario.ComputeSourcedOn | CObs/Scenario.cs:252-277 | phase 3 tags the days by region and changes nothing else |
| Scenarios.Scenario.AutocalibrateCasesPerAdmission | CObs/Scenario.cs:286-317 | phase 4 sets the days to `Calibrated` and nothing else |
| Scenarios.Scenario.ComputeActualDNCWithoutProjection | CObs/Scenario.cs:332-425 | phase 5 sets the days to `Reconstructed` and nothing else |
| Scenarios.Scenario.ComputeDeltasWithoutProjection | CObs/Scenario.cs:433-508 | phase 6 sets the days to `WithDeltas` and nothing else |
| Scenarios.Scenario.ExtractGlobalGrowthAggregatesAndCastProjection | CObs/Scenario.cs:516-569 | phase 7 sets the current growth rate and R-eff and the projected days, and nothing else |
| Scenarios.Scenario.ExtractGlobalLinearAggregates | CObs/Scenario.cs:574-599 | phase 8 sets seroprevalence and projected mortality from the final days, and nothing else |
| Scenarios.Scenario.RunScenario | CObs/Scenario.cs:604-613 | the eight phases in order produce `ScenarioDays`, the run-up, the current aggregates and the linear aggregates |
| Build.MatchingExact | CObs/Build.cs:159-169 | the days selected from one scenario are exactly its days with the index, tagged with the scenario |
| Build.MatchingAt | CObs/Build.cs:159-169 | each selected day belongs to the scenario and has the index |
| Build.GatheredExact | CObs/Build.cs:159-169 | `SelectMany(...).Where(...)` over all scenarios is sound and complete: each candidate is a day of its scenario with the index, and every such day is a candidate |
| Build.MinOf | CObs/Build.cs:136-138 | the minimum is a member and below every element |
| Build.MaxOf | CObs/Build.cs:140-142 | the maximum is a member and above every element |
| Build.LastIndexIsLast | CObs/Build.cs:140-142 | on indexed raw days the largest index is the last position |
| Build.ResultDay | CObs/Build.cs:151-310 | a result day has its index and lower <= baseline <= upper cases |
| Build.ObservedDay | CObs/Build.cs:205-310 | an observed result day copies raw and rolling data of its day, and its estimates come from the first fewest-cases, median and first most-cases scenario-day |
| Build.RunUpDayResult | CObs/Build.cs:153-204 | a run-up result day has no observed data, and its estimates come from the first fewest-cases, median and first most-cases run-up day |
| Build.SelectableAt | CObs/Build.cs:159-249 | on extractable input every day from the first run-up index to the last raw index has candidates and a median in range |
| Build.ResultDaysAt | CObs/Build.cs:149-313 | the k-th result day is the result day of index first + k with the median in force there |
| Build.ResultDays | CObs/Build.cs:134-314 | there is one result day per index from the first run-up index to the last raw index |
| Build.ResultDaysOrdered | CObs/Build.cs:149-313 | the result days carry consecutive indices, each with ordered estimates |
| Build.Extract | CObs/Build.cs:134-314 | the extraction loop computes `ResultDays` |
| Build.Baseline | CObs/Build.cs:165-221 | the median in force is recomputed on run-up days and fixed at the first observed day |
| Build.ResultDaysLength | CObs/Build.cs:136-149 | the loop bounds are the first run-up index and the last raw position |
| Build.ResultDayStep | CObs/Build.cs:149-313 | appending the day's result extends the prefix of `ResultDays` by one |
| Build.GatheredAll | CObs/Build.cs:212-216 | when every scenario has every day, the candidates at an index are one per scenario, in order |
| Build.MedianIsTrue | CObs/Build.cs:210-221 | with every day present, the count made once at the first observed day is the true count at every observed day |
| Build.RunScenariosHaveEveryDay | CObs/Build.cs:210-221 | scenarios run over the same base days have every day present |
| Build.DoublingBound | CObs/Build.cs:413-427 | a doubling-time bound is 0 outside the guarded ranges and otherwise the rounded doubling time |
| Build.Parents | CObs/Build.cs:332-362 | the lower, baseline and upper scenarios at the last day are scenarios of the ensemble |
| Build.ParentsPicked | CObs/Build.cs:328-362 | at the last raw index, lower is the scenario of the first fewest-cases day, baseline that of position floor(n/2) of the stable ascending sort, upper that of the first most-cases day |
| Build.AggregatesRanged | CObs/Build.cs:392-471 | each triple is a sorted permutation of the parents' values, R-eff stays sorted after rounding, guarded doubling times are 0, and the flag is set exactly when unstable or already set |
| Build.REffBoundsUnchanged | CObs/Build.cs:409-411 | when scenario R-effs are already rounded to two places, the R-eff bounds are a permutation of the parents' values |
| Build.RoundedREff | CObs/Build.cs:409-411 | a scenario's R-eff, already rounded, is unchanged by rounding again |
| Build.RoundedRanged | CObs/Build.cs:409-411 | sorting rounded values keeps them rounded |
| Build.Aggregate | CObs/Build.cs:321-472 | the body of `ExtractAggregates` computes `Aggregated` |
| Build.Builder.constructor | CObs/Build.cs:101-109 | a new builder has no result days and empty aggregates |
| Build.Builder.ExtractResultDays | CObs/Build.cs:134-314 | the result days of every index are appended in index order |
| Build.Builder.ExtractAggregates | CObs/Build.cs:321-472 | the aggregates become `Aggregated` of the scenarios' state |

## Left out

- Reading the CSV feed, parsing dates and numbers, and `WriteResults` are I/O. `ReadDaysRaw` receives parsed rows; calendar dates are not modelled.
- `Builder.ReadDaysRaw`, `Builder.GenerateScenarios` and `Builder.RunScenarios` (CObs/Build.cs:111-127) only delegate. They are not modelled; the builder receives the scenarios.
- Doubles and decimals are exact reals. Floating-point rounding, infinities and NaN are not modelled. `(int)` casts of rounded values and 32-bit overflow of sums are not modelled either.
- `Math.Log` and `Math.Exp` are parameters. The only assumption on the logarithm is `LogSound`.
- Divisions the source leaves unguarded (by the IFR, by the hospitalization duration, by handover positivity, tests and reported cases) are preconditions. They are collected in `Scenarios.Runnable` and `Scenarios.TestDataUsable`; the source would produce infinities or NaN there.
- `First()`, `Min()`, `Max()` and list indexing that would throw on missing data are preconditions (`Build.Extractable`, `Build.Aggregable`).
- `Math.Floor(elements / 2.0M)` is integer division of a non-negative count.
- The `Where` filters on the timeline index are modelled as slices; `Base.WhereIndexInIsSlice` proves them equal when indices are positions.
- Phase 5's separate `if`s on the source are an `else if` chain; the source does not change the source tag inside the loop, so they are equivalent.
- Phase 8's LINQ `Sum`/`Where` expressions are computed through recursive functions over the day list.
- Scenarios.REffAboveOne: stated for serial intervals up to 11 days (the grid's largest is 7), not for every serial interval.
- Base.BaseDays.ReadDaysRaw: modelled for a store with no days yet; a second read appending to existing lists is not modelled.
- Parameters.AllScenarios.GenerateScenarioParameters: stores the admissible parameter sets rather than `Scenario` objects over `BaseDays`.
- Parameters.AppendAdmissible: appends to a local copy and assigns the field once, not one `Add` per set.
- Build.Builder.ExtractResultDays: reads each scenario through a value snapshot (`Build.Snapshot`). The `Parent` back-reference becomes a scenario index (`Build.Candidate`).
- Build.Builder.ExtractAggregates: the same snapshot and index modelling applies. Each method modifies only its own field.
- The median count in `ExtractResultDays` is made once, at the first observed index. `Build.MedianIsTrue` and `Build.RunScenariosHaveEveryDay` show this is the true median whenever every scenario holds every observed day, which scenarios run over the same base days do.
- The "101-day" rolling fields divide the 5-day window sum by the 101-day window count, as written. `Base.RollingMeans` states this literally, and `Base.LongFieldsAtMostShort` states what follows from it.
