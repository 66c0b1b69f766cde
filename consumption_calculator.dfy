/**
 * The per-day aggregation service: three grouping passes (consumption, carbon
 * intensity, generation mix) and the reconciler that joins them by day.
 *
 * Each grouping pass folds its readings into a mutable accumulator; here it
 * is a method with a loop over the readings, proved equal to the fold
 * `Grouped` of module DayGrouping, or to `MixLists` below, and, through the
 * lemmas about those folds, to the per-day subsequences of the input.  The
 * reconciler is a pure function.
 */
module ConsumptionCalculator {
  import opened Wrappers
  import opened Types
  import opened Sums
  import opened DayGrouping

  // ---------------------------------------------------------------------------
  // Consumption per day
  // ---------------------------------------------------------------------------

  /** Each meter reading as (its day, its parsed consumption). */
  function ConsumptionEntries(data: seq<Consumption>, dayOf: Timestamp -> DayKey): (r: seq<Keyed<real>>)
    ensures |r| == |data|
  {
    seq(|data|, i requires 0 <= i < |data| => Keyed(dayOf(data[i].startInterval), data[i].consumption))
  }

  /** Reading one more meter reading adds its entry at the end. */
  lemma ConsumptionEntriesSnoc(data: seq<Consumption>, i: nat, dayOf: Timestamp -> DayKey)
    requires i < |data|
    ensures ConsumptionEntries(data[..i + 1], dayOf)
         == ConsumptionEntries(data[..i], dayOf) + [Keyed(dayOf(data[i].startInterval), data[i].consumption)]
  {
    assert data[..i + 1][i] == data[i];
  }

  /**
   * Groups the consumption readings by day.  Each day's list holds that day's
   * readings in input order; a day appears iff some reading falls on it.
   */
  method ProcessConsumptionPerDay(consumptionData: ConsumptionData, dayOf: Timestamp -> DayKey)
    returns (perDay: map<DayKey, seq<real>>)
    ensures perDay == Grouped(ConsumptionEntries(consumptionData.data, dayOf))
    ensures perDay.Keys == DaysIn(ConsumptionEntries(consumptionData.data, dayOf))
    ensures forall d :: d in perDay ==>
              perDay[d] == Bucket(ConsumptionEntries(consumptionData.data, dayOf), d) && perDay[d] != []
  {
    var data := consumptionData.data;
    perDay := map[];
    for i := 0 to |data|
      invariant perDay == Grouped(ConsumptionEntries(data[..i], dayOf))
    {
      var record := data[i];
      var date := dayOf(record.startInterval);
      ConsumptionEntriesSnoc(data, i, dayOf);
      GroupedSnoc(ConsumptionEntries(data[..i], dayOf), Keyed(date, record.consumption));
      if date !in perDay {
        perDay := perDay[date := []];
      }
      perDay := perDay[date := perDay[date] + [record.consumption]];
    }
    assert data[..|data|] == data;
    GroupedIsBucketed(ConsumptionEntries(data, dayOf));
    BucketsAreNonEmpty(ConsumptionEntries(data, dayOf));
  }

  // ---------------------------------------------------------------------------
  // Carbon intensity per day
  // ---------------------------------------------------------------------------

  /** The `actual ?? forecast` selection: the actual reading wins whenever it is present. */
  function EffectiveIntensity(intensity: Intensity): (r: real)
    ensures intensity.actual.Some? ==> r == intensity.actual.value
    ensures intensity.actual.None? ==> r == intensity.forecast
  {
    match intensity.actual
    case Some(actual) => actual
    case None => intensity.forecast
  }

  /** Each carbon-intensity reading as (its day, its effective intensity). */
  function IntensityEntries(data: seq<CarbonIntensity>, dayOf: Timestamp -> DayKey): (r: seq<Keyed<real>>)
    ensures |r| == |data|
  {
    seq(|data|, i requires 0 <= i < |data| => Keyed(dayOf(data[i].from), EffectiveIntensity(data[i].intensity)))
  }

  /** The carbon-intensity readings that fall on `day`, in input order. */
  function IntensityReadingsOn(data: seq<CarbonIntensity>, dayOf: Timestamp -> DayKey, day: DayKey): seq<CarbonIntensity>
  {
    if |data| == 0 then []
    else
      var last := data[|data| - 1];
      IntensityReadingsOn(data[..|data| - 1], dayOf, day) + (if dayOf(last.from) == day then [last] else [])
  }

  /** A day's intensity bucket is the effective intensity of each of that day's readings, in order. */
  lemma {:induction false} IntensityBucketIsEffective(data: seq<CarbonIntensity>, dayOf: Timestamp -> DayKey, day: DayKey)
    ensures |Bucket(IntensityEntries(data, dayOf), day)| == |IntensityReadingsOn(data, dayOf, day)|
    ensures forall k :: 0 <= k < |IntensityReadingsOn(data, dayOf, day)| ==>
              Bucket(IntensityEntries(data, dayOf), day)[k] == EffectiveIntensity(IntensityReadingsOn(data, dayOf, day)[k].intensity)
  {
    if |data| > 0 {
      var prefix := data[..|data| - 1];
      IntensityBucketIsEffective(prefix, dayOf, day);
      assert IntensityEntries(data, dayOf)[..|data| - 1] == IntensityEntries(prefix, dayOf);
    }
  }

  /** Reading one more carbon-intensity reading adds its entry at the end. */
  lemma IntensityEntriesSnoc(data: seq<CarbonIntensity>, i: nat, dayOf: Timestamp -> DayKey)
    requires i < |data|
    ensures IntensityEntries(data[..i + 1], dayOf)
         == IntensityEntries(data[..i], dayOf) + [Keyed(dayOf(data[i].from), EffectiveIntensity(data[i].intensity))]
  {
    assert data[..i + 1][i] == data[i];
  }

  /**
   * Groups the carbon-intensity readings by day, storing the actual intensity
   * when present and the forecast otherwise.
   */
  method ProcessCarbonIntensityPerDay(carbonIntensityData: CarbonIntensityData, dayOf: Timestamp -> DayKey)
    returns (perDay: map<DayKey, seq<real>>)
    ensures perDay == Grouped(IntensityEntries(carbonIntensityData.data, dayOf))
    ensures perDay.Keys == DaysIn(IntensityEntries(carbonIntensityData.data, dayOf))
    ensures forall d :: d in perDay ==>
              perDay[d] == Bucket(IntensityEntries(carbonIntensityData.data, dayOf), d) && perDay[d] != []
  {
    var data := carbonIntensityData.data;
    perDay := map[];
    for i := 0 to |data|
      invariant perDay == Grouped(IntensityEntries(data[..i], dayOf))
    {
      var record := data[i];
      var date := dayOf(record.from);
      var value := EffectiveIntensity(record.intensity);
      IntensityEntriesSnoc(data, i, dayOf);
      GroupedSnoc(IntensityEntries(data[..i], dayOf), Keyed(date, value));
      if date !in perDay {
        perDay := perDay[date := []];
      }
      perDay := perDay[date := perDay[date] + [value]];
    }
    assert data[..|data|] == data;
    GroupedIsBucketed(IntensityEntries(data, dayOf));
    BucketsAreNonEmpty(IntensityEntries(data, dayOf));
  }

  // ---------------------------------------------------------------------------
  // Generation mix per day
  // ---------------------------------------------------------------------------

  /** One day's percentages, collected per fuel. */
  type FuelLists = map<Fuel, seq<real>>

  /** Every fuel of the enumeration has a list. */
  predicate HasAllFuels<V>(lists: map<Fuel, V>)
  {
    forall f: Fuel :: f in lists
  }

  /** The bucket a new day is seeded with: an empty list for each of the nine fuels. */
  function EmptyFuelLists(): (r: FuelLists)
    ensures HasAllFuels(r)
    ensures forall f :: f in r ==> r[f] == []
  {
    AllFuelsIsEnumeration();
    map f | f in AllFuels :: []
  }

  /** The percentages reported for `fuel` in one reading, in order. */
  function PercentagesOf(shares: seq<GenerationMixFuel>, fuel: Fuel): seq<real>
  {
    if |shares| == 0 then []
    else
      var last := shares[|shares| - 1];
      PercentagesOf(shares[..|shares| - 1], fuel) + (if last.fuel == fuel then [last.perc] else [])
  }

  /** The inner `forEach`: push each share's percentage onto its fuel's list, in order. */
  function PushShares(lists: FuelLists, shares: seq<GenerationMixFuel>): (r: FuelLists)
    requires HasAllFuels(lists)
    ensures HasAllFuels(r)
  {
    if |shares| == 0 then lists
    else
      var acc := PushShares(lists, shares[..|shares| - 1]);
      var last := shares[|shares| - 1];
      acc[last.fuel := acc[last.fuel] + [last.perc]]
  }

  /** Pushing one reading's shares appends to each fuel's list exactly that fuel's percentages. */
  lemma {:induction false} PushSharesAppends(lists: FuelLists, shares: seq<GenerationMixFuel>, fuel: Fuel)
    requires HasAllFuels(lists)
    ensures PushShares(lists, shares)[fuel] == lists[fuel] + PercentagesOf(shares, fuel)
  {
    if |shares| > 0 {
      PushSharesAppends(lists, shares[..|shares| - 1], fuel);
    }
  }

  /** The first pass's accumulator after folding the readings in order. */
  function MixLists(data: seq<GenerationMix>, dayOf: Timestamp -> DayKey): (r: map<DayKey, FuelLists>)
    ensures forall d :: d in r ==> HasAllFuels(r[d])
  {
    if |data| == 0 then map[]
    else
      var acc := MixLists(data[..|data| - 1], dayOf);
      var last := data[|data| - 1];
      var date := dayOf(last.from);
      var lists := if date in acc then acc[date] else EmptyFuelLists();
      acc[date := PushShares(lists, last.generationMix)]
  }

  /** One step of the first pass: a reading updates only its own day's lists. */
  lemma MixListsSnoc(data: seq<GenerationMix>, record: GenerationMix, dayOf: Timestamp -> DayKey)
    ensures var acc := MixLists(data, dayOf);
            var date := dayOf(record.from);
            MixLists(data + [record], dayOf)
              == acc[date := PushShares(if date in acc then acc[date] else EmptyFuelLists(), record.generationMix)]
  {
    assert (data + [record])[..|data|] == data;
  }

  /** The days on which some generation-mix reading falls: the generation-mix counterpart of `DaysIn`. */
  function MixDays(data: seq<GenerationMix>, dayOf: Timestamp -> DayKey): set<DayKey>
  {
    set i | 0 <= i < |data| :: dayOf(data[i].from)
  }

  /**
   * Every percentage reported for `fuel` by the readings on `day`, in input
   * order: the generation-mix counterpart of `Bucket`, one list per fuel.
   */
  function DayPercentages(data: seq<GenerationMix>, dayOf: Timestamp -> DayKey, day: DayKey, fuel: Fuel): seq<real>
  {
    if |data| == 0 then []
    else
      var last := data[|data| - 1];
      DayPercentages(data[..|data| - 1], dayOf, day, fuel)
        + (if dayOf(last.from) == day then PercentagesOf(last.generationMix, fuel) else [])
  }

  /** The first pass creates one entry per day with a reading, and no other. */
  lemma {:induction false} MixListsDays(data: seq<GenerationMix>, dayOf: Timestamp -> DayKey)
    ensures MixLists(data, dayOf).Keys == MixDays(data, dayOf)
  {
    if |data| > 0 {
      var prefix := data[..|data| - 1];
      var last := data[|data| - 1];
      MixListsDays(prefix, dayOf);
      forall d | d in MixDays(data, dayOf) ensures d in MixDays(prefix, dayOf) + {dayOf(last.from)} {
        var i :| 0 <= i < |data| && dayOf(data[i].from) == d;
        if i < |prefix| {
          assert prefix[i] == data[i];
        }
      }
      forall d | d in MixDays(prefix, dayOf) ensures d in MixDays(data, dayOf) {
        var i :| 0 <= i < |prefix| && dayOf(prefix[i].from) == d;
        assert data[i] == prefix[i];
      }
      assert dayOf(data[|data| - 1].from) in MixDays(data, dayOf);
    }
  }

  /**
   * The first pass's meaning: each day's list for each fuel is every
   * percentage reported for that fuel by that day's readings, in order.
   */
  lemma {:induction false} MixListsCollectsPerDay(data: seq<GenerationMix>, dayOf: Timestamp -> DayKey, day: DayKey, fuel: Fuel)
    requires day in MixLists(data, dayOf)
    ensures fuel in MixLists(data, dayOf)[day]
    ensures MixLists(data, dayOf)[day][fuel] == DayPercentages(data, dayOf, day, fuel)
  {
    var prefix := data[..|data| - 1];
    var last := data[|data| - 1];
    var date := dayOf(last.from);
    var acc := MixLists(prefix, dayOf);
    if day != date {
      MixListsCollectsPerDay(prefix, dayOf, day, fuel);
    } else if date in acc {
      MixListsCollectsPerDay(prefix, dayOf, day, fuel);
      assert MixLists(data, dayOf)[day] == PushShares(acc[date], last.generationMix);
      PushSharesAppends(acc[date], last.generationMix, fuel);
    } else {
      MixListsDays(prefix, dayOf);
      DayPercentagesOfAbsentDay(prefix, dayOf, day, fuel);
      assert MixLists(data, dayOf)[day] == PushShares(EmptyFuelLists(), last.generationMix);
      PushSharesAppends(EmptyFuelLists(), last.generationMix, fuel);
    }
  }

  /** A day without readings has no percentages. */
  lemma {:induction false} DayPercentagesOfAbsentDay(data: seq<GenerationMix>, dayOf: Timestamp -> DayKey, day: DayKey, fuel: Fuel)
    requires day !in MixDays(data, dayOf)
    ensures DayPercentages(data, dayOf, day, fuel) == []
  {
    if |data| > 0 {
      var prefix := data[..|data| - 1];
      assert day != dayOf(data[|data| - 1].from);
      assert MixDays(prefix, dayOf) <= MixDays(data, dayOf) by {
        forall d | d in MixDays(prefix, dayOf) ensures d in MixDays(data, dayOf) {
          var i :| 0 <= i < |prefix| && dayOf(prefix[i].from) == d;
          assert data[i] == prefix[i];
        }
      }
      DayPercentagesOfAbsentDay(prefix, dayOf, day, fuel);
    }
  }

  /** The second pass: every list becomes its mean, `sum / (length || 1)`. */
  function AverageMix(lists: map<DayKey, FuelLists>): map<DayKey, map<Fuel, real>>
  {
    map d | d in lists :: map f | f in lists[d] :: Mean(lists[d][f])
  }

  /**
   * The inner `forEach` of the first pass: pushes each share's percentage
   * onto its fuel's list, in order.
   */
  method PushAllShares(lists: FuelLists, shares: seq<GenerationMixFuel>) returns (pushed: FuelLists)
    requires HasAllFuels(lists)
    ensures pushed == PushShares(lists, shares)
  {
    pushed := lists;
    for j := 0 to |shares|
      invariant pushed == PushShares(lists, shares[..j])
    {
      var share := shares[j];
      assert shares[..j + 1][..j] == shares[..j];
      pushed := pushed[share.fuel := pushed[share.fuel] + [share.perc]];
    }
    assert shares[..|shares|] == shares;
  }

  /** The average of one fuel on one day with readings. */
  lemma AverageMixAt(data: seq<GenerationMix>, dayOf: Timestamp -> DayKey, day: DayKey, fuel: Fuel)
    requires day in MixLists(data, dayOf)
    ensures day in AverageMix(MixLists(data, dayOf)) && fuel in AverageMix(MixLists(data, dayOf))[day]
    ensures AverageMix(MixLists(data, dayOf))[day][fuel] == Mean(DayPercentages(data, dayOf, day, fuel))
  {
    MixListsCollectsPerDay(data, dayOf, day, fuel);
  }

  /**
   * Averages the generation mix per day and fuel.  Every day with a reading
   * maps all nine fuels; each fuel's value is the mean of the percentages
   * reported for it that day, and 0 when none were.
   */
  method ProcessGenerationMixPerDay(generationMixData: GenerationMixData, dayOf: Timestamp -> DayKey)
    returns (perDay: map<DayKey, map<Fuel, real>>)
    ensures perDay == AverageMix(MixLists(generationMixData.data, dayOf))
    ensures perDay.Keys == MixDays(generationMixData.data, dayOf)
    ensures forall d :: d in perDay ==> perDay[d].Keys == AllFuels
    ensures forall d, f :: d in perDay && f in AllFuels ==>
              perDay[d][f] == Mean(DayPercentages(generationMixData.data, dayOf, d, f))
  {
    var data := generationMixData.data;
    var acc: map<DayKey, FuelLists> := map[];
    for i := 0 to |data|
      invariant acc == MixLists(data[..i], dayOf)
    {
      var record := data[i];
      var date := dayOf(record.from);
      var shares := record.generationMix;
      ghost var before := acc;
      ghost var lists := if date in before then before[date] else EmptyFuelLists();
      assert data[..i + 1] == data[..i] + [record];
      MixListsSnoc(data[..i], record, dayOf);
      if date !in acc {
        acc := acc[date := EmptyFuelLists()];
      }
      var pushed := PushAllShares(acc[date], shares);
      acc := acc[date := pushed];
      assert acc == before[date := PushShares(lists, shares)];
    }
    assert data[..|data|] == data;
    perDay := AverageMix(acc);
    AverageMixPerDay(data, dayOf);
  }

  /**
   * The meaning of the two passes together: one entry per day with a
   * reading, all nine fuels on each, each fuel's mean over that day's reports.
   */
  lemma AverageMixPerDay(data: seq<GenerationMix>, dayOf: Timestamp -> DayKey)
    ensures AverageMix(MixLists(data, dayOf)).Keys == MixDays(data, dayOf)
    ensures forall d :: d in AverageMix(MixLists(data, dayOf)) ==> AverageMix(MixLists(data, dayOf))[d].Keys == AllFuels
    ensures forall d, f :: d in AverageMix(MixLists(data, dayOf)) && f in AllFuels ==>
              AverageMix(MixLists(data, dayOf))[d][f] == Mean(DayPercentages(data, dayOf, d, f))
  {
    var lists := MixLists(data, dayOf);
    MixListsDays(data, dayOf);
    AllFuelsIsEnumeration();
    forall d | d in lists ensures lists[d].Keys == AllFuels {
      assert HasAllFuels(lists[d]);
    }
    forall d, f | d in lists && f in AllFuels
      ensures AverageMix(lists)[d][f] == Mean(DayPercentages(data, dayOf, d, f))
    {
      MixListsCollectsPerDay(data, dayOf, d, f);
    }
  }

  /** A fuel nobody reported on a day averages to 0 for that day. */
  lemma UnreportedFuelAveragesToZero(data: seq<GenerationMix>, dayOf: Timestamp -> DayKey, day: DayKey, fuel: Fuel)
    requires day in MixDays(data, dayOf)
    requires DayPercentages(data, dayOf, day, fuel) == []
    ensures day in AverageMix(MixLists(data, dayOf)) && fuel in AverageMix(MixLists(data, dayOf))[day]
    ensures AverageMix(MixLists(data, dayOf))[day][fuel] == 0.0
  {
    MixListsDays(data, dayOf);
    MixListsCollectsPerDay(data, dayOf, day, fuel);
  }

  /** With every reported percentage within [0, 100], every average is within [0, 100]. */
  lemma AveragesArePercentages(data: seq<GenerationMix>, dayOf: Timestamp -> DayKey)
    requires forall i, k :: 0 <= i < |data| && 0 <= k < |data[i].generationMix| ==>
               0.0 <= data[i].generationMix[k].perc <= 100.0
    ensures forall d, f :: d in AverageMix(MixLists(data, dayOf)) && f in AverageMix(MixLists(data, dayOf))[d] ==>
              0.0 <= AverageMix(MixLists(data, dayOf))[d][f] <= 100.0
  {
    forall d, f | d in MixLists(data, dayOf) && f in MixLists(data, dayOf)[d]
      ensures 0.0 <= Mean(MixLists(data, dayOf)[d][f]) <= 100.0
    {
      MixListsCollectsPerDay(data, dayOf, d, f);
      DayPercentagesArePercentages(data, dayOf, d, f);
      if |DayPercentages(data, dayOf, d, f)| > 0 {
        MeanBounds(DayPercentages(data, dayOf, d, f), 0.0, 100.0);
      }
    }
  }

  lemma {:induction false} DayPercentagesArePercentages(data: seq<GenerationMix>, dayOf: Timestamp -> DayKey, day: DayKey, fuel: Fuel)
    requires forall i, k :: 0 <= i < |data| && 0 <= k < |data[i].generationMix| ==>
               0.0 <= data[i].generationMix[k].perc <= 100.0
    ensures forall k :: 0 <= k < |DayPercentages(data, dayOf, day, fuel)| ==>
              0.0 <= DayPercentages(data, dayOf, day, fuel)[k] <= 100.0
  {
    if |data| > 0 {
      var n := |data| - 1;
      assert forall i :: 0 <= i < n ==> data[..n][i] == data[i];
      DayPercentagesArePercentages(data[..n], dayOf, day, fuel);
      SharesArePercentages(data[n].generationMix, fuel);
    }
  }

  lemma {:induction false} SharesArePercentages(shares: seq<GenerationMixFuel>, fuel: Fuel)
    requires forall k :: 0 <= k < |shares| ==> 0.0 <= shares[k].perc <= 100.0
    ensures forall k :: 0 <= k < |PercentagesOf(shares, fuel)| ==> 0.0 <= PercentagesOf(shares, fuel)[k] <= 100.0
  {
    if |shares| > 0 {
      SharesArePercentages(shares[..|shares| - 1], fuel);
    }
  }

  // ---------------------------------------------------------------------------
  // Reconciliation
  // ---------------------------------------------------------------------------

  /** The one day's summary of the result. */
  datatype DaySummary = DaySummary(
    consumption: real,
    carbonIntensity: real,
    generationMix: Option<map<Fuel, real>>)

  /** The successful result: one summary per consumption day. */
  type ProcessedData = map<DayKey, DaySummary>

  /** The error returned when any day's interval counts disagree. */
  datatype AppError = AppError(message: string)

  const IntervalsMismatchMessage: string := "Intervals for some days do not match"

  /** A day's own failure: its two interval counts (the text built from them is discarded). */
  datatype IntervalCountMismatch = IntervalCountMismatch(consumptionCount: nat, carbonIntensityCount: nat)

  /**
   * How a call ends: it returns its `Either`, or it throws because a
   * consumption day has no carbon-intensity entry (reading `.length` of
   * `undefined`), which no caller-visible `Either` reports.
   */
  datatype Calculation = Returned(result: Either<AppError, ProcessedData>) | ThrewTypeError

  /** One day of the reconciliation: the count check, then the totals. */
  function SummariseDay(consumption: seq<real>, carbonIntensity: seq<real>, generationMix: Option<map<Fuel, real>>)
    : (r: Either<IntervalCountMismatch, DaySummary>)
    ensures r.Left? <==> |consumption| != |carbonIntensity|
    ensures r.Left? ==> r.left == IntervalCountMismatch(|consumption|, |carbonIntensity|)
  {
    if |consumption| != |carbonIntensity| then Left(IntervalCountMismatch(|consumption|, |carbonIntensity|))
    else Right(DaySummary(Sum(consumption), WeightedSum(carbonIntensity, consumption), generationMix))
  }

  /** Splits a record of `Either`s into its failures and its successes, by key. */
  function Separate<L, R>(m: map<DayKey, Either<L, R>>): (r: (map<DayKey, L>, map<DayKey, R>))
    ensures r.0.Keys !! r.1.Keys && r.0.Keys + r.1.Keys == m.Keys
    ensures forall d :: d in r.0 ==> m[d] == Left(r.0[d])
    ensures forall d :: d in r.1 ==> m[d] == Right(r.1[d])
  {
    (map d | d in m && m[d].Left? :: m[d].left, map d | d in m && m[d].Right? :: m[d].right)
  }

  /**
   * Joins the three per-day groupings, driven by the consumption days: it
   * throws when a consumption day has no carbon-intensity entry, fails as a
   * whole with one `AppError` when any day's interval counts differ, and
   * otherwise summarises every consumption day.
   */
  function Reconcile(
    consumptionPerDay: map<DayKey, seq<real>>,
    carbonIntensityPerDay: map<DayKey, seq<real>>,
    generationMixPerDay: map<DayKey, map<Fuel, real>>): (r: Calculation)
    ensures r.ThrewTypeError? <==> !(consumptionPerDay.Keys <= carbonIntensityPerDay.Keys)
    ensures r.Returned? ==>
              (r.result.Left? <==> exists d :: d in consumptionPerDay && d in carbonIntensityPerDay &&
                                               |consumptionPerDay[d]| != |carbonIntensityPerDay[d]|)
    ensures r.Returned? && r.result.Left? ==> r.result.left == AppError(IntervalsMismatchMessage)
    ensures r.Returned? && r.result.Right? ==>
              && r.result.right.Keys == consumptionPerDay.Keys
              && forall d :: d in r.result.right ==>
                   && d in carbonIntensityPerDay
                   && |consumptionPerDay[d]| == |carbonIntensityPerDay[d]|
                   && r.result.right[d] == DaySummary(
                        Sum(consumptionPerDay[d]),
                        WeightedSum(carbonIntensityPerDay[d], consumptionPerDay[d]),
                        Get(generationMixPerDay, d))
  {
    if exists d :: d in consumptionPerDay && d !in carbonIntensityPerDay then ThrewTypeError
    else
      var perDay := map d | d in consumptionPerDay ::
        SummariseDay(consumptionPerDay[d], carbonIntensityPerDay[d], Get(generationMixPerDay, d));
      var (left, right) := Separate(perDay);
      if left != map[] then
        assert exists d :: d in left;
        Returned(Left(AppError(IntervalsMismatchMessage)))
      else
        assert forall d :: d in consumptionPerDay ==> d !in left;
        Returned(Right(right))
  }

  /**
   * Aggregates the three series per day and reconciles them.  On success
   * there is one summary per consumption day, holding the day's total
   * consumption and its consumption-weighted carbon mass.
   */
  method CalculateConsumption(
    consumptionData: ConsumptionData,
    carbonIntensityData: CarbonIntensityData,
    generationMixData: GenerationMixData,
    dayOf: Timestamp -> DayKey) returns (r: Calculation)
    ensures r == Reconcile(
                   Grouped(ConsumptionEntries(consumptionData.data, dayOf)),
                   Grouped(IntensityEntries(carbonIntensityData.data, dayOf)),
                   AverageMix(MixLists(generationMixData.data, dayOf)))
    ensures r.Returned? && r.result.Right? ==>
              r.result.right.Keys == DaysIn(ConsumptionEntries(consumptionData.data, dayOf))
  {
    var consumptionPerDay := ProcessConsumptionPerDay(consumptionData, dayOf);
    var carbonIntensityPerDay := ProcessCarbonIntensityPerDay(carbonIntensityData, dayOf);
    var generationMixPerDay := ProcessGenerationMixPerDay(generationMixData, dayOf);
    r := Reconcile(consumptionPerDay, carbonIntensityPerDay, generationMixPerDay);
  }

  /**
   * Days that only the carbon-intensity or generation-mix series have play no
   * part: dropping them from those maps changes nothing.
   */
  lemma ReconcileIgnoresOtherDays(
    consumptionPerDay: map<DayKey, seq<real>>,
    carbonIntensityPerDay: map<DayKey, seq<real>>,
    generationMixPerDay: map<DayKey, map<Fuel, real>>)
    ensures Reconcile(consumptionPerDay, carbonIntensityPerDay, generationMixPerDay)
         == Reconcile(consumptionPerDay,
                      map d | d in carbonIntensityPerDay && d in consumptionPerDay :: carbonIntensityPerDay[d],
                      map d | d in generationMixPerDay && d in consumptionPerDay :: generationMixPerDay[d])
  {
    var ci' := map d | d in carbonIntensityPerDay && d in consumptionPerDay :: carbonIntensityPerDay[d];
    var mix' := map d | d in generationMixPerDay && d in consumptionPerDay :: generationMixPerDay[d];
    var r := Reconcile(consumptionPerDay, carbonIntensityPerDay, generationMixPerDay);
    var r' := Reconcile(consumptionPerDay, ci', mix');
    if r.Returned? && r.result.Right? {
      assert r'.Returned? && r'.result.Right?;
      assert r.result.right == r'.result.right;
    }
  }

  /**
   * All or nothing: one day whose counts differ fails the whole call, however
   * many other days reconcile, and no summary is returned.
   */
  lemma OneMismatchFailsAll(
    consumptionPerDay: map<DayKey, seq<real>>,
    carbonIntensityPerDay: map<DayKey, seq<real>>,
    generationMixPerDay: map<DayKey, map<Fuel, real>>,
    day: DayKey)
    requires consumptionPerDay.Keys <= carbonIntensityPerDay.Keys
    requires day in consumptionPerDay && |consumptionPerDay[day]| != |carbonIntensityPerDay[day]|
    ensures Reconcile(consumptionPerDay, carbonIntensityPerDay, generationMixPerDay)
         == Returned(Left(AppError(IntervalsMismatchMessage)))
  {
  }

  /**
   * The reconciler's example: readings 10 and 20 at intensities 100 and 200
   * on one day give 30 of consumption and 10 * 100 + 20 * 200 = 5000 of carbon.
   */
  lemma ReconcileExample(mix: map<Fuel, real>)
    ensures Reconcile(map["2022-01-01" := [10.0, 20.0]], map["2022-01-01" := [100.0, 200.0]], map["2022-01-01" := mix])
         == Returned(Right(map["2022-01-01" := DaySummary(30.0, 5000.0, Some(mix))]))
  {
    var r := Reconcile(map["2022-01-01" := [10.0, 20.0]], map["2022-01-01" := [100.0, 200.0]], map["2022-01-01" := mix]);
    assert Sum([10.0, 20.0]) == 30.0;
    assert WeightedSum([100.0, 200.0], [10.0, 20.0]) == 5000.0;
    assert r.Returned? && r.result.Right?;
    assert r.result.right.Keys == {"2022-01-01"};
    assert r.result.right["2022-01-01"] == DaySummary(30.0, 5000.0, Some(mix));
    assert r.result.right == map["2022-01-01" := DaySummary(30.0, 5000.0, Some(mix))];
  }

  // ---------------------------------------------------------------------------
  // The worked examples of the service's unit tests
  // ---------------------------------------------------------------------------

  /** A half-hourly reading of meter 1 (meter number 11, customer 2), in kWh. */
  function MeterReading(startInterval: Timestamp, consumption: real): Consumption
  {
    Consumption(startInterval, "1", "11", "2", consumption, "kWh")
  }

  /**
   * Four half-hour readings over two days, consuming 10 and 20 on the first
   * and 30 and 40 on the second, group into two lists of two, in order.
   */
  lemma ConsumptionPerDayExample(t1: Timestamp, t2: Timestamp, t3: Timestamp, t4: Timestamp,
                                 dayOf: Timestamp -> DayKey, day1: DayKey, day2: DayKey)
    requires day1 != day2
    requires dayOf(t1) == day1 && dayOf(t2) == day1 && dayOf(t3) == day2 && dayOf(t4) == day2
    ensures Grouped(ConsumptionEntries([MeterReading(t1, 10.0), MeterReading(t2, 20.0),
                                        MeterReading(t3, 30.0), MeterReading(t4, 40.0)], dayOf))
         == map[day1 := [10.0, 20.0], day2 := [30.0, 40.0]]
  {
    var data := [MeterReading(t1, 10.0), MeterReading(t2, 20.0), MeterReading(t3, 30.0), MeterReading(t4, 40.0)];
    assert ConsumptionEntries(data, dayOf)
        == [Keyed(day1, 10.0), Keyed(day1, 20.0), Keyed(day2, 30.0), Keyed(day2, 40.0)];
    GroupedTwoDays(day1, day2);
  }

  /** The grouping steps of that example, on the (day, consumption) entries. */
  lemma GroupedTwoDays(day1: DayKey, day2: DayKey)
    requires day1 != day2
    ensures Grouped([Keyed(day1, 10.0), Keyed(day1, 20.0), Keyed(day2, 30.0), Keyed(day2, 40.0)])
         == map[day1 := [10.0, 20.0], day2 := [30.0, 40.0]]
  {
    var e := [Keyed(day1, 10.0), Keyed(day1, 20.0), Keyed(day2, 30.0), Keyed(day2, 40.0)];
    GroupedSnoc([], e[0]);
    assert [] + [e[0]] == e[..1];
    assert [] + [10.0] == [10.0];
    assert Grouped(e[..1]) == map[day1 := [10.0]];
    GroupedSnoc(e[..1], e[1]);
    assert e[..1] + [e[1]] == e[..2];
    assert [10.0] + [20.0] == [10.0, 20.0];
    assert Grouped(e[..2]) == map[day1 := [10.0, 20.0]];
    GroupedSnoc(e[..2], e[2]);
    assert e[..2] + [e[2]] == e[..3];
    assert Grouped(e[..3]) == map[day1 := [10.0, 20.0], day2 := [] + [30.0]];
    assert [] + [30.0] == [30.0];
    GroupedSnoc(e[..3], e[3]);
    assert e[..3] + [e[3]] == e;
    assert [30.0] + [40.0] == [30.0, 40.0];
  }

  /**
   * Two readings on one day reporting gas 10 then 20 and coal 20 then 30
   * average to gas 15 and coal 25, and hydro, which neither reports, to 0.
   */
  lemma GenerationMixExample(from1: Timestamp, from2: Timestamp, dayOf: Timestamp -> DayKey, day: DayKey)
    requires dayOf(from1) == day && dayOf(from2) == day
    ensures var data := [GenerationMix(from1, from1 + 1800000, [GenerationMixFuel(Gas, 10.0), GenerationMixFuel(Coal, 20.0)]),
                         GenerationMix(from2, from2 + 1800000, [GenerationMixFuel(Gas, 20.0), GenerationMixFuel(Coal, 30.0)])];
            var perDay := AverageMix(MixLists(data, dayOf));
            && perDay.Keys == {day}
            && perDay[day][Gas] == 15.0
            && perDay[day][Coal] == 25.0
            && perDay[day][Hydro] == 0.0
  {
    var r1 := GenerationMix(from1, from1 + 1800000, [GenerationMixFuel(Gas, 10.0), GenerationMixFuel(Coal, 20.0)]);
    var r2 := GenerationMix(from2, from2 + 1800000, [GenerationMixFuel(Gas, 20.0), GenerationMixFuel(Coal, 30.0)]);
    var data := [r1, r2];
    var gas := DayPercentagesOfTwo(r1, r2, dayOf, day, Gas);
    var coal := DayPercentagesOfTwo(r1, r2, dayOf, day, Coal);
    var hydro := DayPercentagesOfTwo(r1, r2, dayOf, day, Hydro);
    PercentagesOfTwo(GenerationMixFuel(Gas, 10.0), GenerationMixFuel(Coal, 20.0), Gas);
    PercentagesOfTwo(GenerationMixFuel(Gas, 20.0), GenerationMixFuel(Coal, 30.0), Gas);
    PercentagesOfTwo(GenerationMixFuel(Gas, 10.0), GenerationMixFuel(Coal, 20.0), Coal);
    PercentagesOfTwo(GenerationMixFuel(Gas, 20.0), GenerationMixFuel(Coal, 30.0), Coal);
    PercentagesOfTwo(GenerationMixFuel(Gas, 10.0), GenerationMixFuel(Coal, 20.0), Hydro);
    PercentagesOfTwo(GenerationMixFuel(Gas, 20.0), GenerationMixFuel(Coal, 30.0), Hydro);
    assert gas == [10.0, 20.0];
    assert coal == [20.0, 30.0];
    assert hydro == [];
    assert Sum(gas) == 30.0 by { assert gas[..1] == [10.0]; assert [10.0][..0] == []; }
    assert Sum(coal) == 50.0 by { assert coal[..1] == [20.0]; assert [20.0][..0] == []; }
    assert MixDays(data, dayOf) == {day} by {
      assert dayOf(data[0].from) == day && dayOf(data[1].from) == day;
    }
    MixListsDays(data, dayOf);
    AverageMixAt(data, dayOf, day, Gas);
    AverageMixAt(data, dayOf, day, Coal);
    AverageMixAt(data, dayOf, day, Hydro);
  }

  lemma PercentagesOfTwo(a: GenerationMixFuel, b: GenerationMixFuel, fuel: Fuel)
    ensures PercentagesOf([a, b], fuel)
         == (if a.fuel == fuel then [a.perc] else []) + (if b.fuel == fuel then [b.perc] else [])
  {
    assert [a, b][..1] == [a];
    assert [a][..0] == [];
    assert PercentagesOf([a], fuel) == [] + (if a.fuel == fuel then [a.perc] else []);
    assert [] + (if a.fuel == fuel then [a.perc] else []) == (if a.fuel == fuel then [a.perc] else []);
  }

  lemma DayPercentagesOfTwo(r1: GenerationMix, r2: GenerationMix, dayOf: Timestamp -> DayKey, day: DayKey, fuel: Fuel)
    returns (percentages: seq<real>)
    requires dayOf(r1.from) == day && dayOf(r2.from) == day
    ensures percentages == DayPercentages([r1, r2], dayOf, day, fuel)
    ensures percentages == PercentagesOf(r1.generationMix, fuel) + PercentagesOf(r2.generationMix, fuel)
  {
    assert [r1, r2][..1] == [r1];
    assert [r1][..0] == [];
    assert DayPercentages([r1], dayOf, day, fuel) == [] + PercentagesOf(r1.generationMix, fuel);
    assert [] + PercentagesOf(r1.generationMix, fuel) == PercentagesOf(r1.generationMix, fuel);
    percentages := DayPercentages([r1, r2], dayOf, day, fuel);
  }
}
