/** The exporter's published metric set: the Prometheus gauges it declares
    at import time, reduced to the map from series to last-written value
    that a scrape reads. */
module Metrics {
  import opened Api

  /** One exported series. Consumption gauges carry the `meter_serial`
      label; the rate gauges have no labels; `TariffInfo` is the Info
      metric that is declared and never set. */
  datatype MetricKey =
    | ConsumptionKwh(fuel: Fuel, meterSerial: string)
    | UnitRatePence(fuel: Fuel)
    | StandingChargePence(fuel: Fuel)
    | TariffInfo

  type Store = map<MetricKey, real>

  /** The metric name a series is exported under. */
  function MetricName(key: MetricKey): string {
    match key
    case ConsumptionKwh(Electricity, _) => "octopus_electric_consumption_kwh"
    case ConsumptionKwh(Gas, _) => "octopus_gas_consumption_kwh"
    case UnitRatePence(Electricity) => "octopus_electric_unit_rate_pence"
    case UnitRatePence(Gas) => "octopus_gas_unit_rate_pence"
    case StandingChargePence(Electricity) => "octopus_electric_standing_charge_pence"
    case StandingChargePence(Gas) => "octopus_gas_standing_charge_pence"
    case TariffInfo => "octopus_tariff"
  }

  /** The label set a series is exported with. */
  function MetricLabels(key: MetricKey): map<string, string> {
    match key
    case ConsumptionKwh(_, serial) => map["meter_serial" := serial]
    case _ => map[]
  }

  /** Distinct keys are distinct exported series: no two keys of the model
      share a metric name and label set. */
  lemma SeriesAreDistinct(k1: MetricKey, k2: MetricKey)
    requires MetricName(k1) == MetricName(k2) && MetricLabels(k1) == MetricLabels(k2)
    ensures k1 == k2
  {
    if k1.ConsumptionKwh? && k2.ConsumptionKwh? {
      assert "meter_serial" in MetricLabels(k1);
      assert MetricLabels(k1)["meter_serial"] == k1.meterSerial;
    }
  }

  /** The gauge series a scrape shows before anything is written: the
      library starts every unlabelled gauge at 0.0, while a labelled gauge
      has no series until a label value is first used. (The constant sample
      of the tariff Info metric is not part of the store.) */
  function InitialStore(): (s: Store)
    ensures s.Keys == RateKeys
    ensures forall k :: k in s ==> s[k] == 0.0
  {
    map k | k in RateKeys :: 0.0
  }

  /** The four unlabelled gauges: unit rate and standing charge per fuel. */
  const RateKeys: set<MetricKey> :=
    {UnitRatePence(Electricity), UnitRatePence(Gas), StandingChargePence(Electricity), StandingChargePence(Gas)}

  /** The process-wide registry of gauges; `Set` is a gauge's `.set(value)`
      (for a consumption gauge, after `.labels(meter_serial=...)`). */
  class Registry {
    var store: Store

    constructor ()
      ensures store == InitialStore()
    {
      store := InitialStore();
    }

    method Set(key: MetricKey, value: real)
      modifies this
      ensures store == old(store)[key := value]
    {
      store := store[key := value];
    }
  }

  /** Series `key` has the same presence and value in both stores. */
  ghost predicate SameAt(s: Store, t: Store, key: MetricKey) {
    (key in s <==> key in t) && (key in s ==> s[key] == t[key])
  }
}
