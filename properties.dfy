/** Properties of one collection cycle and of the collection loop: what a
    cycle writes, what it leaves alone, and how failures stay inside the
    step that met them. */
module Properties {
  import opened Api
  import opened Metrics
  import opened Collection

  /** A rate updater's outcome on its own two gauges depends on nothing of
      the store but those two gauges. */
  lemma RateStepLocal(fuel: Fuel, code: string, up: Upstream, s1: State, s2: State)
    requires SameAt(s1.store, s2.store, UnitRatePence(fuel))
    requires SameAt(s1.store, s2.store, StandingChargePence(fuel))
    ensures SameAt(RateStep(fuel, code, up, s1).store, RateStep(fuel, code, up, s2).store, UnitRatePence(fuel))
    ensures SameAt(RateStep(fuel, code, up, s1).store, RateStep(fuel, code, up, s2).store, StandingChargePence(fuel))
  {
    var r1, r2 := RateStep(fuel, code, up, s1), RateStep(fuel, code, up, s2);
    if LatestRate(fuel, code, UnitRate, up).Raised? {
      assert r1.store == s1.store && r2.store == s2.store;
    }
  }

  /** A consumption updater's outcome on the consumption series of its fuel
      depends on nothing of the store but those series. */
  lemma ConsumptionStepLocal(env: Env, fuel: Fuel, up: Upstream, s1: State, s2: State, serial: string)
    requires SameAt(s1.store, s2.store, ConsumptionKwh(fuel, serial))
    ensures SameAt(ConsumptionStep(env, fuel, up, s1).store, ConsumptionStep(env, fuel, up, s2).store, ConsumptionKwh(fuel, serial))
  {
  }

  /** A consumption fetch that fails, whose page is empty, or whose first
      record lacks `consumption` leaves every series as it was; only the
      request is logged. */
  lemma ConsumptionFailureKeepsStore(env: Env, fuel: Fuel, up: Upstream, st: State)
    requires MeterConfigured(env, fuel)
    requires var resp := up.page(ConsumptionRequest(env, fuel).url);
      resp.Fail? || |resp.results| == 0 || ConsumptionField !in resp.results[0]
    ensures ConsumptionStep(env, fuel, up, st) == st.(sent := st.sent + [ConsumptionRequest(env, fuel)])
  {
  }

  /** A good unit-rate page followed by a failed standing-charge request
      keeps the new unit rate and leaves everything else as it was. */
  lemma StandingFailureKeepsUnitRate(fuel: Fuel, code: string, up: Upstream, st: State)
    requires var unit := up.page(RateUrl(fuel, code, UnitRate));
      unit.Page? && |unit.results| > 0 && RateField in unit.results[0]
    requires up.page(RateUrl(fuel, code, StandingCharge)) == Fail
    ensures RateStep(fuel, code, up, st)
      == State(st.store[UnitRatePence(fuel) := up.page(RateUrl(fuel, code, UnitRate)).results[0][RateField]],
               st.sent + [RateRequest(fuel, code, UnitRate), RateRequest(fuel, code, StandingCharge)])
  {
  }

  /** A unit-rate request that fails, or whose first record lacks
      `value_inc_vat`, ends the updater: no standing-charge request, both
      gauges as they were. */
  lemma UnitFailureAbortsStanding(fuel: Fuel, code: string, up: Upstream, st: State)
    requires var unit := up.page(RateUrl(fuel, code, UnitRate));
      unit.Fail? || (|unit.results| > 0 && RateField !in unit.results[0])
    ensures RateStep(fuel, code, up, st) == st.(sent := st.sent + [RateRequest(fuel, code, UnitRate)])
  {
  }

  /** Within one cycle each rate listing of a fuel is requested at most
      once, and only for the code the scan resolved: each rate updater runs
      at most once per cycle, and asks for the standing charge only when the
      unit-rate read did not raise. */
  lemma RateRequestedOnce(env: Env, up: Upstream, fuel: Fuel, code: string, kind: RateKind)
    requires CredentialsPresent(env)
    ensures multiset(CycleRequests(env, up))[RateRequest(fuel, code, kind)]
      == if ResolvedCode(env, up, fuel) == Some(code)
            && (kind == UnitRate || !LatestRate(fuel, code, UnitRate, up).Raised?) then 1 else 0
  {
    ConsumptionRequestsCount(env, Electricity, fuel, code, kind);
    ConsumptionRequestsCount(env, Gas, fuel, code, kind);
    FuelRateRequestsCount(env, up, Electricity, fuel, code, kind);
    FuelRateRequestsCount(env, up, Gas, fuel, code, kind);
  }

  /** How often one updater run requests a given rate listing. */
  lemma RateRequestsCount(f: Fuel, c: string, up: Upstream, fuel: Fuel, code: string, kind: RateKind)
    ensures multiset(RateRequests(f, c, up))[RateRequest(fuel, code, kind)]
      == if f == fuel && c == code && (kind == UnitRate || !LatestRate(f, c, UnitRate, up).Raised?) then 1 else 0
  {
    var rs := RateRequests(f, c, up);
    var x := RateRequest(fuel, code, kind);
    if rs[0] == x {
      RateUrlInjective(f, c, UnitRate, fuel, code, kind);
    }
    if |rs| == 2 {
      if rs[1] == x {
        RateUrlInjective(f, c, StandingCharge, fuel, code, kind);
      }
      assert rs == [rs[0]] + [rs[1]];
    } else {
      assert rs == [rs[0]];
    }
  }

  /** How often one fuel branch of `get_tariff_rates` requests a given rate listing. */
  lemma FuelRateRequestsCount(env: Env, up: Upstream, f: Fuel, fuel: Fuel, code: string, kind: RateKind)
    requires CredentialsPresent(env)
    ensures multiset(FuelRateRequests(env, up, f))[RateRequest(fuel, code, kind)]
      == if f == fuel && ResolvedCode(env, up, f) == Some(code)
            && (kind == UnitRate || !LatestRate(f, code, UnitRate, up).Raised?) then 1 else 0
  {
    match ResolvedCode(env, up, f)
    case None =>
    case Some(c) => RateRequestsCount(f, c, up, fuel, code, kind);
  }

  /** A consumption updater never requests a rate listing. */
  lemma ConsumptionRequestsCount(env: Env, f: Fuel, fuel: Fuel, code: string, kind: RateKind)
    ensures multiset(ConsumptionRequests(env, f))[RateRequest(fuel, code, kind)] == 0
  {
    if MeterConfigured(env, f) {
      ConsumptionUrlIsNotRateUrl(f, MeterPoint(env, f).value, MeterSerial(env, f).value, fuel, code, kind);
    }
  }

  /** Whatever the electricity branch meets, each fuel's rate gauges end a
      cycle exactly as that fuel's updater alone would leave them: failures
      do not cross from one fuel to the other, and the gas branch runs after
      a failed electricity branch. */
  lemma RatesAsIfAlone(env: Env, up: Upstream, st: State, fuel: Fuel, code: string)
    requires CredentialsPresent(env)
    requires ResolvedCode(env, up, fuel) == Some(code)
    ensures SameAt(CycleStep(env, up, st).store, RateStep(fuel, code, up, st).store, UnitRatePence(fuel))
    ensures SameAt(CycleStep(env, up, st).store, RateStep(fuel, code, up, st).store, StandingChargePence(fuel))
  {
    var afterGas := ConsumptionsOf(env, up, st);
    TariffRatesAsIfAlone(env, up, afterGas, fuel, code);
    RateStepLocal(fuel, code, up, afterGas, st);
  }

  /** The state the consumption steps of a cycle hand to `get_tariff_rates`. */
  function ConsumptionsOf(env: Env, up: Upstream, st: State): (r: State)
    requires CredentialsPresent(env)
    ensures forall k :: k in RateKeys ==> SameAt(st.store, r.store, k)
    ensures CycleStep(env, up, st) == TariffStep(env, up, r)
  {
    assert forall k :: k in RateKeys ==> !k.ConsumptionKwh?;
    ConsumptionStep(env, Gas, up, ConsumptionStep(env, Electricity, up, st))
  }

  /** Within `get_tariff_rates`, each fuel's rate gauges end as its own
      updater alone would leave them. */
  lemma TariffRatesAsIfAlone(env: Env, up: Upstream, st: State, fuel: Fuel, code: string)
    requires CredentialsPresent(env)
    requires ResolvedCode(env, up, fuel) == Some(code)
    ensures SameAt(TariffStep(env, up, st).store, RateStep(fuel, code, up, st).store, UnitRatePence(fuel))
    ensures SameAt(TariffStep(env, up, st).store, RateStep(fuel, code, up, st).store, StandingChargePence(fuel))
  {
    match fuel
    case Electricity => ElectricityRatesAsIfAlone(env, up, st, code);
    case Gas => GasRatesAsIfAlone(env, up, st, code);
  }

  /** The electricity branch runs first; the gas branch after it touches
      neither electricity gauge. */
  lemma ElectricityRatesAsIfAlone(env: Env, up: Upstream, st: State, code: string)
    requires CredentialsPresent(env)
    requires ResolvedCode(env, up, Electricity) == Some(code)
    ensures SameAt(TariffStep(env, up, st).store, RateStep(Electricity, code, up, st).store, UnitRatePence(Electricity))
    ensures SameAt(TariffStep(env, up, st).store, RateStep(Electricity, code, up, st).store, StandingChargePence(Electricity))
  {
    var st1 := st.(sent := st.sent + [AccountRequest(env)]);
    var afterElectricity := FuelTariffStep(env, up, Electricity, st1);
    var afterGas := FuelTariffStep(env, up, Gas, afterElectricity);
    assert TariffStep(env, up, st).store == afterGas.store;
    assert SameAt(afterElectricity.store, afterGas.store, UnitRatePence(Electricity));
    assert SameAt(afterElectricity.store, afterGas.store, StandingChargePence(Electricity));
    assert afterElectricity.store == RateStep(Electricity, code, up, st1).store;
    RateStepLocal(Electricity, code, up, st1, st);
  }

  /** The gas branch runs on whatever the electricity branch left, which
      holds the gas gauges as they were. */
  lemma GasRatesAsIfAlone(env: Env, up: Upstream, st: State, code: string)
    requires CredentialsPresent(env)
    requires ResolvedCode(env, up, Gas) == Some(code)
    ensures SameAt(TariffStep(env, up, st).store, RateStep(Gas, code, up, st).store, UnitRatePence(Gas))
    ensures SameAt(TariffStep(env, up, st).store, RateStep(Gas, code, up, st).store, StandingChargePence(Gas))
  {
    var st1 := st.(sent := st.sent + [AccountRequest(env)]);
    var afterElectricity := FuelTariffStep(env, up, Electricity, st1);
    var afterGas := FuelTariffStep(env, up, Gas, afterElectricity);
    assert TariffStep(env, up, st).store == afterGas.store;
    assert afterGas.store == RateStep(Gas, code, up, afterElectricity).store;
    assert SameAt(afterElectricity.store, st.store, UnitRatePence(Gas));
    assert SameAt(afterElectricity.store, st.store, StandingChargePence(Gas));
    RateStepLocal(Gas, code, up, afterElectricity, st);
  }

  /** A fuel without a resolved tariff code gets no rate request and keeps
      both rate gauges. */
  lemma NoCodeNoRates(env: Env, up: Upstream, st: State, fuel: Fuel)
    requires CredentialsPresent(env)
    requires ResolvedCode(env, up, fuel).None?
    ensures FuelRateRequests(env, up, fuel) == []
    ensures SameAt(st.store, CycleStep(env, up, st).store, UnitRatePence(fuel))
    ensures SameAt(st.store, CycleStep(env, up, st).store, StandingChargePence(fuel))
  {
    var afterGas := ConsumptionsOf(env, up, st);
    var st1 := afterGas.(sent := afterGas.sent + [AccountRequest(env)]);
    var afterElectricity := FuelTariffStep(env, up, Electricity, st1);
    assert TariffStep(env, up, afterGas).store == FuelTariffStep(env, up, Gas, afterElectricity).store;
  }

  /** A failed account lookup, or an empty body, means no rate request and
      no rate gauge written in that cycle, for either fuel. */
  lemma AccountFailureWritesNoRates(env: Env, up: Upstream, st: State)
    requires CredentialsPresent(env)
    requires up.account(AccountRequest(env).url) in {None, Some(map[])}
    ensures CycleStep(env, up, st).sent
      == st.sent + ConsumptionRequests(env, Electricity) + ConsumptionRequests(env, Gas) + [AccountRequest(env)]
    ensures forall k :: k in RateKeys ==> SameAt(st.store, CycleStep(env, up, st).store, k)
  {
    NoCodeNoRates(env, up, st, Electricity);
    NoCodeNoRates(env, up, st, Gas);
  }

  /** Each fuel's consumption series end a cycle exactly as that fuel's
      consumption updater alone would leave them. */
  lemma ConsumptionAsIfAlone(env: Env, up: Upstream, st: State, fuel: Fuel, serial: string)
    requires CredentialsPresent(env)
    ensures SameAt(CycleStep(env, up, st).store, ConsumptionStep(env, fuel, up, st).store, ConsumptionKwh(fuel, serial))
  {
    var key := ConsumptionKwh(fuel, serial);
    var afterElectricity := ConsumptionStep(env, Electricity, up, st);
    var afterGas := ConsumptionStep(env, Gas, up, afterElectricity);
    assert key !in RateKeys;
    assert SameAt(afterGas.store, CycleStep(env, up, st).store, key);
    match fuel
    case Electricity =>
    case Gas =>
      ConsumptionStepLocal(env, Gas, up, afterElectricity, st, serial);
  }

  /** Credentials and an electricity meter present, gas meter pair absent,
      every electricity answer good: after one cycle the electricity
      consumption and both electricity rates are published, no gas
      consumption series is touched, and the gas rates change only through
      a gas tariff code resolved from the account. */
  lemma ElectricityOnlyCycle(env: Env, up: Upstream, st: State, code: string)
    requires CredentialsPresent(env) && MeterConfigured(env, Electricity) && !MeterConfigured(env, Gas)
    requires LatestValue(up.page(ConsumptionRequest(env, Electricity).url), ConsumptionField).Value?
    requires ResolvedCode(env, up, Electricity) == Some(code)
    requires LatestRate(Electricity, code, UnitRate, up).Value?
    requires LatestRate(Electricity, code, StandingCharge, up).Value?
    ensures var r := CycleStep(env, up, st).store;
      && ConsumptionKey(env, Electricity) in r
      && r[ConsumptionKey(env, Electricity)] == LatestValue(up.page(ConsumptionRequest(env, Electricity).url), ConsumptionField).v
      && UnitRatePence(Electricity) in r && r[UnitRatePence(Electricity)] == LatestRate(Electricity, code, UnitRate, up).v
      && StandingChargePence(Electricity) in r
      && r[StandingChargePence(Electricity)] == LatestRate(Electricity, code, StandingCharge, up).v
    ensures forall serial :: SameAt(st.store, CycleStep(env, up, st).store, ConsumptionKwh(Gas, serial))
    ensures ResolvedCode(env, up, Gas).None? ==>
      SameAt(st.store, CycleStep(env, up, st).store, UnitRatePence(Gas))
      && SameAt(st.store, CycleStep(env, up, st).store, StandingChargePence(Gas))
  {
    ConsumptionAsIfAlone(env, up, st, Electricity, MeterSerial(env, Electricity).value);
    RatesAsIfAlone(env, up, st, Electricity, code);
    forall serial
      ensures SameAt(st.store, CycleStep(env, up, st).store, ConsumptionKwh(Gas, serial))
    {
      ConsumptionAsIfAlone(env, up, st, Gas, serial);
    }
    if ResolvedCode(env, up, Gas).None? {
      NoCodeNoRates(env, up, st, Gas);
    }
  }

  /** Publishing a unit rate of 24.5 and then a standing charge of 45.0
      reads back both, the second write leaving the first in place. */
  lemma RatesReadBack(fuel: Fuel, code: string, st: State)
    ensures var up := Upstream(_ => None, url =>
                        if url == RateUrl(fuel, code, UnitRate) then Page([map[RateField := 24.5]])
                        else Page([map[RateField := 45.0]]));
      var r := RateStep(fuel, code, up, st).store;
      UnitRatePence(fuel) in r && r[UnitRatePence(fuel)] == 24.5
      && StandingChargePence(fuel) in r && r[StandingChargePence(fuel)] == 45.0
  {
    if RateUrl(fuel, code, StandingCharge) == RateUrl(fuel, code, UnitRate) {
      RateUrlInjective(fuel, code, StandingCharge, fuel, code, UnitRate);
    }
  }

  /** An upstream that fails every request. */
  ghost predicate Down(up: Upstream) {
    forall url :: up.account(url) == None && up.page(url) == Fail
  }

  /** A cycle that meets only failures leaves the published metric set as it was. */
  lemma OutageCycleKeepsStore(env: Env, up: Upstream, st: State)
    requires CredentialsPresent(env) && Down(up)
    ensures CycleStep(env, up, st).store == st.store
  {
    var afterElectricity := ConsumptionStep(env, Electricity, up, st);
    if MeterConfigured(env, Electricity) {
      assert up.page(ConsumptionRequest(env, Electricity).url) == Fail;
    }
    var afterGas := ConsumptionStep(env, Gas, up, afterElectricity);
    if MeterConfigured(env, Gas) {
      assert up.page(ConsumptionRequest(env, Gas).url) == Fail;
    }
    assert up.account(AccountRequest(env).url) == None;
    NoCodeNoRates(env, up, afterGas, Electricity);
    NoCodeNoRates(env, up, afterGas, Gas);
  }

  /** Published values persist through any number of cycles that only meet
      failures: nothing is reset to zero or removed. */
  lemma {:induction false} OutageKeepsStore(env: Env, ticks: seq<Upstream>, st: State)
    requires CredentialsPresent(env)
    requires forall i :: 0 <= i < |ticks| ==> Down(ticks[i])
    ensures Cycles(env, ticks, st).store == st.store
  {
    if |ticks| > 0 {
      var earlier := ticks[..|ticks| - 1];
      OutageKeepsStore(env, earlier, st);
      OutageCycleKeepsStore(env, ticks[|ticks| - 1], Cycles(env, earlier, st));
    }
  }

  /** No cycle unpublishes a series: once set, a series stays in the
      metric set for the rest of the run. */
  lemma {:induction false} CyclesNeverUnpublish(env: Env, ticks: seq<Upstream>, st: State)
    requires CredentialsPresent(env)
    ensures st.store.Keys <= Cycles(env, ticks, st).store.Keys
  {
    if |ticks| > 0 {
      CyclesNeverUnpublish(env, ticks[..|ticks| - 1], st);
    }
  }

  /** The tariff Info metric is never written by any run of cycles. */
  lemma {:induction false} CyclesNeverWriteTariffInfo(env: Env, ticks: seq<Upstream>, st: State)
    requires CredentialsPresent(env)
    ensures SameAt(st.store, Cycles(env, ticks, st).store, TariffInfo)
  {
    if |ticks| > 0 {
      CyclesNeverWriteTariffInfo(env, ticks[..|ticks| - 1], st);
    }
  }
}
