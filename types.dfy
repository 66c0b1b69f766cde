/**
 * The already-decoded records the aggregation consumes (the io-ts codecs of
 * src/types/index.ts, after validation).  Timestamps are kept abstract: the
 * calendar day of a timestamp is supplied by the caller as a function
 * `dayOf: Timestamp -> DayKey`, standing for `format('YYYY-MM-DD')`.
 */
module Types {
  import opened Wrappers

  /** An instant, as produced by the date decoder (milliseconds since the epoch). */
  type Timestamp = int

  /** A calendar-day key, `YYYY-MM-DD`. */
  type DayKey = string

  datatype Granularity = HalfHourly | Daily | Weekly | Monthly | Yearly

  /** One meter reading; `consumption` is the text of the feed after `parseFloat`. */
  datatype Consumption = Consumption(
    startInterval: Timestamp,
    meterId: string,
    meterNumber: string,
    customerId: string,
    consumption: real,
    consumptionUnits: string)

  datatype ConsumptionData = ConsumptionData(
    startInterval: Timestamp,
    endInterval: Timestamp,
    granularity: Granularity,
    data: seq<Consumption>)

  datatype IntensityIndex = VeryLow | Low | Moderate | High | VeryHigh

  /** `actual` is nullable in the feed; `forecast` is always there. */
  datatype Intensity = Intensity(forecast: real, actual: Option<real>, index: IntensityIndex)

  datatype CarbonIntensity = CarbonIntensity(from: Timestamp, to: Timestamp, intensity: Intensity)

  datatype CarbonIntensityData = CarbonIntensityData(data: seq<CarbonIntensity>)

  /** The closed enumeration of fuel types. */
  datatype Fuel = Gas | Coal | Biomass | Nuclear | Hydro | Imports | Other | Wind | Solar

  const AllFuels: set<Fuel> := {Gas, Coal, Biomass, Nuclear, Hydro, Imports, Other, Wind, Solar}

  lemma AllFuelsIsEnumeration()
    ensures forall f: Fuel :: f in AllFuels
    ensures |AllFuels| == 9
  {
    forall f: Fuel ensures f in AllFuels {
      match f
      case Gas =>
      case Coal =>
      case Biomass =>
      case Nuclear =>
      case Hydro =>
      case Imports =>
      case Other =>
      case Wind =>
      case Solar =>
    }
  }

  datatype GenerationMixFuel = GenerationMixFuel(fuel: Fuel, perc: real)

  datatype GenerationMix = GenerationMix(from: Timestamp, to: Timestamp, generationMix: seq<GenerationMixFuel>)

  datatype GenerationMixData = GenerationMixData(data: seq<GenerationMix>)
}
