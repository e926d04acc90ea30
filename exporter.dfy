/** The exporter object and the process around it: each method updates the
    shared gauge registry and the exporter's request log in place, and is
    proved to leave exactly the state the matching step function of
    `Collection` describes. */
module Exporter {
  import opened Api
  import opened Metrics
  import opened Collection

  class OctopusExporter {
    /** The environment read at construction. */
    const env: Env
    /** The module-level gauges the updaters write. */
    const registry: Registry
    /** Every request issued through the exporter's session, in order. */
    var requests: seq<Request>

    /** The credential gate of construction held. */
    predicate Valid() {
      CredentialsPresent(env)
    }

    /** The published metric set together with the request log. */
    function Snapshot(): State
      reads this, registry
    {
      State(registry.store, requests)
    }

    constructor (env: Env, registry: Registry)
      requires CredentialsPresent(env)
      ensures Valid()
      ensures this.env == env && this.registry == registry && requests == []
    {
      this.env := env;
      this.registry := registry;
      requests := [];
    }

    /** `get_account_info`: one request, answered with the body or `None`. */
    method GetAccountInfo(up: Upstream) returns (info: Option<AccountInfo>)
      requires Valid()
      modifies this
      ensures info == up.account(AccountRequest(env).url)
      ensures requests == old(requests) + [AccountRequest(env)]
    {
      var request := Get(AccountUrl(env.accountNumber.value), None);
      requests := requests + [request];
      info := up.account(request.url);
    }

    /** The body shared by the two consumption updaters. */
    method UpdateConsumption(fuel: Fuel, up: Upstream)
      modifies this, registry
      ensures Snapshot() == ConsumptionStep(env, fuel, up, old(Snapshot()))
    {
      var point, serial := MeterPoint(env, fuel), MeterSerial(env, fuel);
      if !Present(point) || !Present(serial) {
        return;
      }
      var request := Get(ConsumptionUrl(fuel, point.value, serial.value), Some(1));
      requests := requests + [request];
      var latest := LatestValue(up.page(request.url), ConsumptionField);
      if latest.Value? {
        registry.Set(ConsumptionKwh(fuel, serial.value), latest.v);
      }
    }

    /** `get_electric_consumption` */
    method GetElectricConsumption(up: Upstream)
      modifies this, registry
      ensures Snapshot() == ConsumptionStep(env, Electricity, up, old(Snapshot()))
    {
      UpdateConsumption(Electricity, up);
    }

    /** `get_gas_consumption` */
    method GetGasConsumption(up: Upstream)
      modifies this, registry
      ensures Snapshot() == ConsumptionStep(env, Gas, up, old(Snapshot()))
    {
      UpdateConsumption(Gas, up);
    }

    /** The body shared by the two rate updaters: the unit rate is set
        before the standing charge is requested; a raising read leaves the
        rest of the updater undone. */
    method UpdateTariff(fuel: Fuel, code: string, up: Upstream)
      modifies this, registry
      ensures Snapshot() == RateStep(fuel, code, up, old(Snapshot()))
    {
      var unitRequest := Get(RateUrl(fuel, code, UnitRate), Some(1));
      requests := requests + [unitRequest];
      var unit := LatestValue(up.page(unitRequest.url), RateField);
      if unit.Raised? {
        return;
      }
      if unit.Value? {
        registry.Set(UnitRatePence(fuel), unit.v);
      }
      var standingRequest := Get(RateUrl(fuel, code, StandingCharge), Some(1));
      requests := requests + [standingRequest];
      var standing := LatestValue(up.page(standingRequest.url), RateField);
      if standing.Value? {
        registry.Set(StandingChargePence(fuel), standing.v);
      }
    }

    /** `get_electric_tariff` */
    method GetElectricTariff(code: string, up: Upstream)
      modifies this, registry
      ensures Snapshot() == RateStep(Electricity, code, up, old(Snapshot()))
    {
      UpdateTariff(Electricity, code, up);
    }

    /** `get_gas_tariff` */
    method GetGasTariff(code: string, up: Upstream)
      modifies this, registry
      ensures Snapshot() == RateStep(Gas, code, up, old(Snapshot()))
    {
      UpdateTariff(Gas, code, up);
    }

    /** One fuel branch of `get_tariff_rates`: when the account lists the
        fuel's supply points, scan them. */
    method UpdateFuelTariff(fuel: Fuel, info: AccountInfo, up: Upstream)
      requires Valid()
      requires up.account(AccountRequest(env).url) == Some(info) && |info| > 0
      modifies this, registry
      ensures Snapshot() == FuelTariffStep(env, up, fuel, old(Snapshot()))
    {
      if SupplyPointsField(fuel) in info {
        assert ResolvedCode(env, up, fuel) == FirstTariffCode(info[SupplyPointsField(fuel)]);
        ScanSupplyPoints(fuel, info[SupplyPointsField(fuel)], up);
      } else {
        assert ResolvedCode(env, up, fuel).None?;
      }
    }

    /** Walk the supply points in order and hand the first tariff code met
        to the fuel's rate updater, then stop; no request without a code. */
    method ScanSupplyPoints(fuel: Fuel, points: seq<SupplyPoint>, up: Upstream)
      modifies this, registry
      ensures Snapshot() == match FirstTariffCode(points)
                            case None => old(Snapshot())
                            case Some(code) => RateStep(fuel, code, up, old(Snapshot()))
    {
      var i := 0;
      while i < |points|
        invariant 0 <= i <= |points|
        invariant forall j :: 0 <= j < i ==> !HasTariffCode(points[j])
        invariant Snapshot() == old(Snapshot())
      {
        if HasTariffCode(points[i]) {
          FirstCodeAt(points, i);
          match fuel {
            case Electricity => GetElectricTariff(points[i][TariffCodeField], up);
            case Gas => GetGasTariff(points[i][TariffCodeField], up);
          }
          return;
        }
        i := i + 1;
      }
    }

    /** `get_tariff_rates`: look the account up; give up on a failure or an
        empty body, otherwise run the electricity branch, then the gas branch. */
    method GetTariffRates(up: Upstream)
      requires Valid()
      modifies this, registry
      ensures Snapshot() == TariffStep(env, up, old(Snapshot()))
    {
      var account := GetAccountInfo(up);
      if account.None? || |account.value| == 0 {
        return;
      }
      UpdateFuelTariff(Electricity, account.value, up);
      UpdateFuelTariff(Gas, account.value, up);
    }

    /** `collect_metrics` */
    method CollectMetrics(up: Upstream)
      requires Valid()
      modifies this, registry
      ensures Snapshot() == CycleStep(env, up, old(Snapshot()))
    {
      GetElectricConsumption(up);
      GetGasConsumption(up);
      GetTariffRates(up);
    }
  }

  /** The scan stops at the first entry with a code, which is the code
      `FirstTariffCode` names. */
  lemma FirstCodeAt(points: seq<SupplyPoint>, i: nat)
    requires i < |points| && HasTariffCode(points[i])
    requires forall j :: 0 <= j < i ==> !HasTariffCode(points[j])
    ensures FirstTariffCode(points) == Some(points[i][TariffCodeField])
  {
    var k := FirstTariffIndex(points);
    assert k.Some?;
    assert k.value == i;
  }

  /** `OctopusExporter()`: the credential check raises `ValueError`
      (here: `None`) unless the API key and the account number are both set
      and non-empty. */
  method Create(env: Env, registry: Registry) returns (r: Option<OctopusExporter>)
    ensures r.Some? <==> CredentialsPresent(env)
    ensures r.Some? ==> fresh(r.value) && r.value.Valid()
                        && r.value.env == env && r.value.registry == registry && r.value.requests == []
  {
    if !(Present(env.apiKey) && Present(env.accountNumber)) {
      return None;
    }
    var exporter := new OctopusExporter(env, registry);
    return Some(exporter);
  }

  /** `main`, cut after the cycles of `ticks`: construct the exporter,
      return at once if construction failed, otherwise run one collection
      cycle per tick. The registry ends as the run of cycles describes. */
  method Serve(env: Env, registry: Registry, ticks: seq<Upstream>) returns (exporter: Option<OctopusExporter>)
    modifies registry
    ensures exporter.Some? <==> CredentialsPresent(env)
    ensures exporter.None? ==> registry.store == old(registry.store)
    ensures exporter.Some? ==> fresh(exporter.value) && exporter.value.registry == registry
                               && exporter.value.Snapshot() == Cycles(env, ticks, State(old(registry.store), []))
  {
    exporter := Create(env, registry);
    if exporter.None? {
      return;
    }
    var e := exporter.value;
    for i := 0 to |ticks|
      invariant e.Snapshot() == Cycles(env, ticks[..i], State(old(registry.store), []))
    {
      e.CollectMetrics(ticks[i]);
      assert ticks[..i + 1][..i] == ticks[..i];
    }
    assert ticks[..|ticks|] == ticks;
  }
}
