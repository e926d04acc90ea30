/** What one collection cycle does to the published metric set and which
    requests it issues, as pure functions of the configuration, the
    upstream answers and the state before: one function per method of the
    exporter, then the properties of a cycle and of a run of cycles. */
module Collection {
  import opened Api
  import opened Metrics

  /** The environment variables the exporter reads at construction. */
  datatype Env = Env(
    apiKey: Option<string>,
    accountNumber: Option<string>,
    electricMpan: Option<string>,
    gasMprn: Option<string>,
    electricSerial: Option<string>,
    gasSerial: Option<string>)

  /** Python truthiness of a variable read with `os.getenv`: set and non-empty. */
  predicate Present(v: Option<string>) {
    v.Some? && |v.value| > 0
  }

  /** `all([api_key, account_number])` */
  predicate CredentialsPresent(env: Env) {
    Present(env.apiKey) && Present(env.accountNumber)
  }

  /** MPAN for electricity, MPRN for gas. */
  function MeterPoint(env: Env, fuel: Fuel): Option<string> {
    match fuel
    case Electricity => env.electricMpan
    case Gas => env.gasMprn
  }

  function MeterSerial(env: Env, fuel: Fuel): Option<string> {
    match fuel
    case Electricity => env.electricSerial
    case Gas => env.gasSerial
  }

  /** A fuel's consumption is collected only when both halves of its meter
      identity are set. */
  predicate MeterConfigured(env: Env, fuel: Fuel) {
    Present(MeterPoint(env, fuel)) && Present(MeterSerial(env, fuel))
  }

  /** The consumption series of a configured meter, labelled by its serial. */
  function ConsumptionKey(env: Env, fuel: Fuel): MetricKey
    requires MeterConfigured(env, fuel)
  {
    ConsumptionKwh(fuel, MeterSerial(env, fuel).value)
  }

  function ConsumptionRequest(env: Env, fuel: Fuel): Request
    requires MeterConfigured(env, fuel)
  {
    Get(ConsumptionUrl(fuel, MeterPoint(env, fuel).value, MeterSerial(env, fuel).value), Some(1))
  }

  /** The published metric set and the log of requests issued so far. */
  datatype State = State(store: Store, sent: seq<Request>)

  /** `get_electric_consumption` / `get_gas_consumption`: skip without a
      request when the meter identity is incomplete; otherwise one request,
      and `results[0].consumption` published under the meter's serial when
      the page has it. A failure or an empty page publishes nothing. */
  function ConsumptionStep(env: Env, fuel: Fuel, up: Upstream, st: State): (r: State)
    ensures !MeterConfigured(env, fuel) ==> r == st
    ensures MeterConfigured(env, fuel) ==> r.sent == st.sent + [ConsumptionRequest(env, fuel)]
    ensures MeterConfigured(env, fuel) ==>
      match LatestValue(up.page(ConsumptionRequest(env, fuel).url), ConsumptionField)
      case Value(v) => r.store == st.store[ConsumptionKey(env, fuel) := v]
      case _ => r.store == st.store
    ensures forall k: MetricKey :: !k.ConsumptionKwh? || k.fuel != fuel ==> SameAt(st.store, r.store, k)
    ensures st.store.Keys <= r.store.Keys
  {
    if !MeterConfigured(env, fuel) then st
    else
      var request := ConsumptionRequest(env, fuel);
      var sent := st.sent + [request];
      match LatestValue(up.page(request.url), ConsumptionField)
      case Value(v) => State(st.store[ConsumptionKwh(fuel, MeterSerial(env, fuel).value) := v], sent)
      case _ => State(st.store, sent)
  }

  function RateRequest(fuel: Fuel, code: string, kind: RateKind): Request {
    Get(RateUrl(fuel, code, kind), Some(1))
  }

  function LatestRate(fuel: Fuel, code: string, kind: RateKind, up: Upstream): Latest {
    LatestValue(up.page(RateUrl(fuel, code, kind)), RateField)
  }

  /** The requests one rate updater issues: the unit-rate listing, then the
      standing-charge listing unless reading the unit rate raised. */
  function RateRequests(fuel: Fuel, code: string, up: Upstream): (rs: seq<Request>)
    ensures 1 <= |rs| <= 2 && rs[0] == RateRequest(fuel, code, UnitRate)
    ensures |rs| == 2 <==> !LatestRate(fuel, code, UnitRate, up).Raised?
    ensures |rs| == 2 ==> rs[1] == RateRequest(fuel, code, StandingCharge)
  {
    [RateRequest(fuel, code, UnitRate)]
      + if LatestRate(fuel, code, UnitRate, up).Raised? then [] else [RateRequest(fuel, code, StandingCharge)]
  }

  /** `get_electric_tariff` / `get_gas_tariff`: the unit rate is published
      before the standing charge is requested, so a failing standing charge
      keeps the new unit rate, while a raising unit-rate read aborts before
      the second request. Only the fuel's own two gauges change. */
  function RateStep(fuel: Fuel, code: string, up: Upstream, st: State): (r: State)
    ensures r.sent == st.sent + RateRequests(fuel, code, up)
    ensures forall k :: k != UnitRatePence(fuel) && k != StandingChargePence(fuel) ==> SameAt(st.store, r.store, k)
    ensures st.store.Keys <= r.store.Keys
    ensures match LatestRate(fuel, code, UnitRate, up)
      case Value(v) => UnitRatePence(fuel) in r.store && r.store[UnitRatePence(fuel)] == v
      case _ => SameAt(st.store, r.store, UnitRatePence(fuel))
    ensures LatestRate(fuel, code, UnitRate, up).Raised? ==> r.store == st.store
    ensures !LatestRate(fuel, code, UnitRate, up).Raised? ==>
      match LatestRate(fuel, code, StandingCharge, up)
      case Value(v) => StandingChargePence(fuel) in r.store && r.store[StandingChargePence(fuel)] == v
      case _ => SameAt(st.store, r.store, StandingChargePence(fuel))
  {
    var st1 := st.(sent := st.sent + [RateRequest(fuel, code, UnitRate)]);
    match LatestRate(fuel, code, UnitRate, up)
    case Raised => st1
    case NoData => StandingStep(fuel, code, up, st1)
    case Value(v) => StandingStep(fuel, code, up, st1.(store := st1.store[UnitRatePence(fuel) := v]))
  }

  /** The second half of a rate updater: the standing-charge listing. */
  function StandingStep(fuel: Fuel, code: string, up: Upstream, st: State): (r: State)
    ensures r.sent == st.sent + [RateRequest(fuel, code, StandingCharge)]
    ensures forall k :: k != StandingChargePence(fuel) ==> SameAt(st.store, r.store, k)
    ensures st.store.Keys <= r.store.Keys
    ensures match LatestRate(fuel, code, StandingCharge, up)
      case Value(v) => StandingChargePence(fuel) in r.store && r.store[StandingChargePence(fuel)] == v
      case _ => r.store == st.store
  {
    var sent := st.sent + [RateRequest(fuel, code, StandingCharge)];
    match LatestRate(fuel, code, StandingCharge, up)
    case Value(v) => State(st.store[StandingChargePence(fuel) := v], sent)
    case _ => State(st.store, sent)
  }

  function AccountRequest(env: Env): Request
    requires CredentialsPresent(env)
  {
    Get(AccountUrl(env.accountNumber.value), None)
  }

  /** The tariff code the scan of `get_tariff_rates` resolves for a fuel
      from the account lookup: none when the lookup failed or gave an empty
      body, when the fuel's supply-point key is missing, or when no supply
      point carries a code; otherwise the first code in list order. */
  function TariffCodeFor(account: Option<AccountInfo>, fuel: Fuel): (r: Option<string>)
    ensures r.Some? ==> account.Some? && SupplyPointsField(fuel) in account.value
                        && r == FirstTariffCode(account.value[SupplyPointsField(fuel)])
    ensures account.None? || account == Some(map[]) ==> r.None?
    ensures account.Some? && |account.value| > 0 && SupplyPointsField(fuel) in account.value ==>
              r == FirstTariffCode(account.value[SupplyPointsField(fuel)])
  {
    match account
    case None => None
    case Some(info) =>
      if |info| == 0 then None
      else if SupplyPointsField(fuel) in info then FirstTariffCode(info[SupplyPointsField(fuel)])
      else None
  }

  function ResolvedCode(env: Env, up: Upstream, fuel: Fuel): Option<string>
    requires CredentialsPresent(env)
  {
    TariffCodeFor(up.account(AccountRequest(env).url), fuel)
  }

  /** The rate requests of one fuel in a cycle: none without a resolved code. */
  function FuelRateRequests(env: Env, up: Upstream, fuel: Fuel): (rs: seq<Request>)
    requires CredentialsPresent(env)
    ensures |rs| <= 2
  {
    match ResolvedCode(env, up, fuel)
    case None => []
    case Some(code) => RateRequests(fuel, code, up)
  }

  /** The rate branch of one fuel inside `get_tariff_rates`. */
  function FuelTariffStep(env: Env, up: Upstream, fuel: Fuel, st: State): (r: State)
    requires CredentialsPresent(env)
    ensures r.sent == st.sent + FuelRateRequests(env, up, fuel)
    ensures ResolvedCode(env, up, fuel).None? ==> r == st
    ensures forall k :: k != UnitRatePence(fuel) && k != StandingChargePence(fuel) ==> SameAt(st.store, r.store, k)
    ensures st.store.Keys <= r.store.Keys
  {
    match ResolvedCode(env, up, fuel)
    case None => st
    case Some(code) => RateStep(fuel, code, up, st)
  }

  /** `get_tariff_rates`: one account lookup, then the electricity branch,
      then the gas branch; each runs its rate updater at most once, with
      the first code its supply points carry. Only rate gauges change. */
  function TariffStep(env: Env, up: Upstream, st: State): (r: State)
    requires CredentialsPresent(env)
    ensures r.sent == st.sent + [AccountRequest(env)]
                      + FuelRateRequests(env, up, Electricity) + FuelRateRequests(env, up, Gas)
    ensures forall k :: k !in RateKeys ==> SameAt(st.store, r.store, k)
    ensures st.store.Keys <= r.store.Keys
  {
    var st1 := st.(sent := st.sent + [AccountRequest(env)]);
    var afterElectricity := FuelTariffStep(env, up, Electricity, st1);
    var afterGas := FuelTariffStep(env, up, Gas, afterElectricity);
    assert afterGas.sent == st.sent + [AccountRequest(env)]
                            + FuelRateRequests(env, up, Electricity) + FuelRateRequests(env, up, Gas);
    afterGas
  }

  function ConsumptionRequests(env: Env, fuel: Fuel): (rs: seq<Request>)
    ensures |rs| <= 1
  {
    if MeterConfigured(env, fuel) then [ConsumptionRequest(env, fuel)] else []
  }

  /** The requests of one cycle, in the order they are issued. */
  function CycleRequests(env: Env, up: Upstream): seq<Request>
    requires CredentialsPresent(env)
  {
    ConsumptionRequests(env, Electricity) + ConsumptionRequests(env, Gas) + [AccountRequest(env)]
      + FuelRateRequests(env, up, Electricity) + FuelRateRequests(env, up, Gas)
  }

  /** `collect_metrics`: electricity consumption, gas consumption, then
      tariff rates, in this order; each step catches its own failures, so
      every step runs whatever the previous ones met. */
  function CycleStep(env: Env, up: Upstream, st: State): (r: State)
    requires CredentialsPresent(env)
    ensures r.sent == st.sent + CycleRequests(env, up)
    ensures SameAt(st.store, r.store, TariffInfo)
    ensures st.store.Keys <= r.store.Keys
  {
    var afterElectricity := ConsumptionStep(env, Electricity, up, st);
    var afterGas := ConsumptionStep(env, Gas, up, afterElectricity);
    assert afterElectricity.sent == st.sent + ConsumptionRequests(env, Electricity);
    assert afterGas.sent == st.sent + ConsumptionRequests(env, Electricity) + ConsumptionRequests(env, Gas);
    assert SameAt(st.store, afterGas.store, TariffInfo);
    assert TariffInfo !in RateKeys;
    var r := TariffStep(env, up, afterGas);
    LogAppend(st.sent, ConsumptionRequests(env, Electricity), ConsumptionRequests(env, Gas), [AccountRequest(env)],
              FuelRateRequests(env, up, Electricity), FuelRateRequests(env, up, Gas));
    r
  }

  /** Appending the requests of a cycle one step at a time appends them all at once. */
  lemma LogAppend(log: seq<Request>, a: seq<Request>, b: seq<Request>, c: seq<Request>, d: seq<Request>, e: seq<Request>)
    ensures log + a + b + c + d + e == log + (a + b + c + d + e)
  {
  }

  /** The `while True` loop of `main`, one upstream per tick. */
  function Cycles(env: Env, ticks: seq<Upstream>, st: State): State
    requires CredentialsPresent(env)
  {
    if |ticks| == 0 then st
    else CycleStep(env, ticks[|ticks| - 1], Cycles(env, ticks[..|ticks| - 1], st))
  }
}
