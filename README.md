# Per-day energy and carbon aggregation (openvolt)

A Dafny model of the consumption calculator of the openvolt service. The
calculator takes three half-hourly series for one meter and one period:
meter consumption, grid carbon intensity and grid generation mix. It groups
each series by calendar day. It then reconciles the series into one summary
per consumption day: the day's total consumption, the day's
consumption-weighted carbon mass, and the day's average share of each fuel.
If any day's consumption and carbon-intensity interval counts differ, the
whole call fails with a single error.

The model also covers the `Id` codec: a string identifier that decodes to
its trimmed form and rejects blank strings. It also covers `makeEqById`, the
equality that compares records by their `id`.

Modules:

- `Wrappers`: `Option`, `Either` and a map lookup that returns `Option`.
- `Types`: the reading records of the three series and the `Fuel` enumeration.
- `Sums`: the folds the service uses, which are the sum, the index-aligned
  weighted sum, and the mean `sum / (length || 1)`, with their bounds.
- `DayGrouping`: the grouping fold of the consumption and carbon-intensity
  passes. The generation-mix pass has its own fold, `MixLists` in
  `ConsumptionCalculator`, with the lemmas `MixListsDays` and
  `MixListsCollectsPerDay`.
  - `Grouped` is the fold as the code runs it: create a day's bucket the
    first time the day is seen, then append to it.
  - `Bucket` is an independent reference: the subsequence of values that
    fall on one day.
  - The lemmas prove the two agree, that regrouping the buckets gives them
    back, and that grouping conserves the count and the total of the readings.
- `ConsumptionCalculator`: the three passes and the reconciler.
  - Each pass is a method with a loop over the readings. The loop is proved
    equal to its fold and, through the fold's lemmas, to the per-day
    meaning.
  - The reconciler is a function whose contract states the throw, failure
    and success cases.
  - `CalculateConsumption` composes the three passes and the reconciler.
- `IdCodec`: `String.prototype.trim` over the ECMAScript whitespace set, the
  `Id` guard, validate and encode, and `makeEqById`.

The calendar day of a timestamp is formatted by dayjs in the source. In the
model it is a parameter `dayOf` of the passes.

## Model

| member | source | states |
|---|---|---|
| DayGrouping.GroupedIsBucketed | src/services/consumptionCalculatorService.ts:36-43 | the grouped record's keys are exactly the days that occur, and each day's list is that day's readings in input order |
| DayGrouping.BucketOfAbsentDay | src/services/consumptionCalculatorService.ts:36-43 | a day with no reading has no values |
| DayGrouping.BucketsAreNonEmpty | src/services/consumptionCalculatorService.ts:38-41 | a day only gets a list when a reading is pushed onto it, so no list is empty |
| DayGrouping.GroupedConservesCount | src/services/consumptionCalculatorService.ts:36-43 | the list lengths add up to the number of readings: none is lost or duplicated |
| DayGrouping.GroupedTotalSnoc | src/services/consumptionCalculatorService.ts:41 | pushing one reading raises the total over all days by exactly its value |
| DayGrouping.GroupedConservesTotal | src/services/consumptionCalculatorService.ts:36-43 | the per-day totals add up to the total of all readings, whatever the key order |
| DayGrouping.GroupedIdempotent | src/services/consumptionCalculatorService.ts:36-43 | laying the buckets out day after day, in any order that lists every day once, and grouping again gives back the same buckets: each bucket keeps its input order |
| DayGrouping.MapTotalRemove | src/services/consumptionCalculatorService.ts:36-43 | the total over a grouped record's days, the measure the two conservation lemmas use, does not depend on the order the days are visited |
| DayGrouping.MapTotalUpdate | src/services/consumptionCalculatorService.ts:41 | replacing one day's list changes the total by the difference for that day only |
| ConsumptionCalculator.ConsumptionEntries | src/services/consumptionCalculatorService.ts:37-41 | one (day, consumption) entry per meter reading |
| ConsumptionCalculator.ProcessConsumptionPerDay | src/services/consumptionCalculatorService.ts:31-44 | the result has one key per day with a reading, and each day's list holds that day's consumptions in input order and is non-empty |
| ConsumptionCalculator.EffectiveIntensity | src/services/consumptionCalculatorService.ts:63 | the actual intensity when present, the forecast otherwise |
| ConsumptionCalculator.IntensityEntries | src/services/consumptionCalculatorService.ts:57-63 | one (day, effective intensity) entry per carbon-intensity reading |
| ConsumptionCalculator.IntensityBucketIsEffective | src/services/consumptionCalculatorService.ts:56-65 | the k-th value of a day's list is the effective intensity of that day's k-th reading |
| ConsumptionCalculator.ProcessCarbonIntensityPerDay | src/services/consumptionCalculatorService.ts:51-66 | one key per day with a reading, and each day's list holds the effective intensities of that day's readings in order and is non-empty |
| ConsumptionCalculator.EmptyFuelLists | src/services/consumptionCalculatorService.ts:80-91 | a new day is seeded with an empty list for each of the nine fuels |
| ConsumptionCalculator.PushShares | src/services/consumptionCalculatorService.ts:95-97 | pushing a reading's shares keeps a list for every fuel |
| ConsumptionCalculator.PushSharesAppends | src/services/consumptionCalculatorService.ts:95-97 | pushing a reading's shares appends to each fuel's list exactly the percentages reported for that fuel, in order |
| ConsumptionCalculator.PushAllShares | src/services/consumptionCalculatorService.ts:95-97 | the loop over the shares computes that push |
| ConsumptionCalculator.MixLists | src/services/consumptionCalculatorService.ts:78-100 | every day's record of the first pass has a list for every fuel |
| ConsumptionCalculator.MixListsDays | src/services/consumptionCalculatorService.ts:78-92 | the first pass creates an entry for exactly the days with a reading |
| ConsumptionCalculator.MixListsCollectsPerDay | src/services/consumptionCalculatorService.ts:78-100 | a day's list for a fuel is every percentage reported for that fuel on that day, in input order |
| ConsumptionCalculator.DayPercentagesOfAbsentDay | src/services/consumptionCalculatorService.ts:78-100 | a day without readings has no percentages |
| ConsumptionCalculator.AverageMixAt | src/services/consumptionCalculatorService.ts:101-113 | the average for a fuel on a day is the mean of that day's percentages for that fuel |
| ConsumptionCalculator.ProcessGenerationMixPerDay | src/services/consumptionCalculatorService.ts:73-115 | one key per day with a reading; every such day maps all nine fuels; each fuel's value is the mean of the percentages reported for it that day |
| ConsumptionCalculator.AverageMixPerDay | src/services/consumptionCalculatorService.ts:73-115 | the same three facts, about the two passes composed as functions |
| ConsumptionCalculator.UnreportedFuelAveragesToZero | src/services/consumptionCalculatorService.ts:110 | a fuel nobody reported on a day that has readings averages to 0, not NaN |
| ConsumptionCalculator.AveragesArePercentages | src/services/consumptionCalculatorService.ts:101-113 | when every reported share is within [0, 100], every average is within [0, 100] |
| ConsumptionCalculator.DayPercentagesArePercentages | src/services/consumptionCalculatorService.ts:78-100 | the collected percentages stay within the bounds of the reported ones |
| ConsumptionCalculator.SharesArePercentages | src/services/consumptionCalculatorService.ts:95-97 | one reading's percentages for a fuel stay within the bounds of its shares |
| ConsumptionCalculator.SummariseDay | src/services/consumptionCalculatorService.ts:137-157 | a day fails exactly when its two interval counts differ, and the failure carries both counts |
| ConsumptionCalculator.Separate | src/services/consumptionCalculatorService.ts:159 | the days are split into failures and successes, disjointly and covering all days, each keeping its own value |
| ConsumptionCalculator.Reconcile | src/services/consumptionCalculatorService.ts:135-167 | it throws iff a consumption day has no carbon-intensity list; otherwise it fails iff some day's counts differ, with the one fixed error; otherwise it returns one summary per consumption day holding the sum, the intensity-weighted sum and the day's mix |
| ConsumptionCalculator.CalculateConsumption | src/services/consumptionCalculatorService.ts:122-168 | reconciles the three per-day groupings; on success the keys are exactly the days with a consumption reading |
| ConsumptionCalculator.ReconcileIgnoresOtherDays | src/services/consumptionCalculatorService.ts:135-137 | days that only the carbon-intensity or generation-mix series have do not change the outcome |
| ConsumptionCalculator.OneMismatchFailsAll | src/services/consumptionCalculatorService.ts:159-166 | one day with differing counts fails the whole call and no partial result is returned |
| ConsumptionCalculator.ReconcileExample | tests/consumptionCalculatorService.test.ts:244-260 | readings 10 and 20 at intensities 100 and 200 give consumption 30 and carbon 5000 |
| ConsumptionCalculator.ConsumptionPerDayExample | tests/consumptionCalculatorService.test.ts:14-62 | four meter readings consuming 10, 20, 30 and 40, whose start times fall on two days, group into [10, 20] and [30, 40] |
| ConsumptionCalculator.GenerationMixExample | tests/consumptionCalculatorService.test.ts:101-160 | gas 10 and 20 and coal 20 and 30 on one day average to gas 15 and coal 25, and an unreported fuel to 0 |
| ConsumptionCalculator.PercentagesOfTwo | src/services/consumptionCalculatorService.ts:95-97 | a reading with two shares contributes each share to its own fuel, in order |
| ConsumptionCalculator.DayPercentagesOfTwo | src/services/consumptionCalculatorService.ts:78-100 | two readings on one day contribute their percentages in input order |
| Sums.SumAppend | src/services/consumptionCalculatorService.ts:147 | the total of two runs of intervals is the sum of their totals |
| Sums.SumBounds | src/services/consumptionCalculatorService.ts:147 | a total of n values within [lo, hi] lies within [n lo, n hi] |
| Sums.WeightedSumBounds | src/services/consumptionCalculatorService.ts:150-154 | with non-negative consumption and intensities within [lo, hi], the carbon mass lies between lo and hi times the total consumption |
| Sums.WeightedSumAtLeast | src/services/consumptionCalculatorService.ts:150-154 | the lower half of that bound |
| Sums.WeightedSumAtMost | src/services/consumptionCalculatorService.ts:150-154 | the upper half of that bound |
| Sums.WeightedSumOfConstant | src/services/consumptionCalculatorService.ts:150-154 | at a constant intensity c, the carbon mass is c times the total consumption, whatever the signs of the consumption values |
| Sums.MeanOfNoSamples | src/services/consumptionCalculatorService.ts:110 | the mean of no values is 0, because of the `length \|\| 1` divisor |
| Sums.MeanBounds | src/services/consumptionCalculatorService.ts:108-110 | the mean of values within [lo, hi] lies within [lo, hi] |
| Sums.MeanTimesCount | src/services/consumptionCalculatorService.ts:108-110 | the mean times the count gives back the sum |
| Types.AllFuelsIsEnumeration | src/services/consumptionCalculatorService.ts:81-91 | the nine seeded fuels are exactly the fuel type |
| Wrappers.Get | src/services/consumptionCalculatorService.ts:156 | looking up a day gives its value when the day is present and nothing otherwise |
| IdCodec.FirstNonBlank | src/types/Id.ts:14 | everything before the returned index is whitespace, and the character at it is not |
| IdCodec.EndOfLastNonBlank | src/types/Id.ts:14 | everything from the returned end onwards is whitespace, and the character before it is not |
| IdCodec.TrimKeepsMiddle | src/types/Id.ts:14 | trim keeps a contiguous middle part, cuts only whitespace on either side, and keeps nothing that starts or ends with whitespace |
| IdCodec.TrimEmptyIffBlank | src/types/Id.ts:9 | a string trims to nothing iff it is all whitespace |
| IdCodec.TrimIdempotent | src/types/Id.ts:14-16 | trimming a trimmed string changes nothing |
| IdCodec.Validate | src/types/Id.ts:10-20 | it succeeds iff the guard holds, with the trimmed, non-empty string; otherwise it fails with one error carrying the input and the context |
| IdCodec.DecodeIsIdempotent | src/types/Id.ts:14-16 | decoding a decoded id gives it back unchanged |
| IdCodec.EncodeThenDecode | src/types/Id.ts:21 | encoding a decoded id and decoding it again gives the same id |
| IdCodec.BlankIsRejected | src/types/Id.ts:17-18 | an empty or whitespace-only string is rejected |
| IdCodec.EqByIdComparesIds | src/types/Id.ts:26-30 | two records are equal iff their ids are equal, and the relation is reflexive, symmetric and transitive |

## Left out

- Fetching the three series is left out: the HTTP clients, the retry loop of the entry point, the API wrappers and the io-ts schemas of the response bodies. The model starts from already-decoded readings.
- Date formatting with dayjs (`format('YYYY-MM-DD')` in UTC) is left out. It is the parameter `dayOf`, and the model assumes nothing about it.
- The printing service and the error classes other than `AppError` are left out. They are I/O and presentation.
- Numbers are modelled as mathematical reals, not IEEE doubles. Rounding is not modelled, and neither is the NaN that `parseFloat` gives for a non-numeric consumption string. Consumption strings are modelled as already parsed.
- The key order of the result records is not modelled: maps are unordered. Each day's value depends only on that day's own lists.
- ConsumptionCalculator.SummariseDay: the per-day failure text, which includes a stray `]}`, is discarded by the code. The model keeps the two counts instead of the text.
- ConsumptionCalculator.ProcessGenerationMixPerDay: the source mutates the fuel lists of a day in place. The model updates a map value (`PushAllShares` returns the updated lists), so aliasing of those lists is not modelled. Nothing else holds a reference to them.
- ConsumptionCalculator.Reconcile: the source throws a TypeError when a consumption day has no carbon-intensity list (src/services/consumptionCalculatorService.ts:139). The model shows this as the outcome `ThrewTypeError` rather than as an exception.
- The `ValidationError` of io-ts is reduced to the value and the context. Its message and the context entry format are not modelled.
- A failed reconciliation carries one fixed message and does not name or count the offending days (src/services/consumptionCalculatorService.ts:162-163).
- A consumption day with no generation-mix readings gets the mix `None`, because `generationMixPerDay[date]` is `undefined` there (src/services/consumptionCalculatorService.ts:156). Fuels unreported on a day that has readings average to 0 (src/services/consumptionCalculatorService.ts:110).
