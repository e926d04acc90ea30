# Octopus Energy Prometheus exporter, modelled in Dafny

The exporter polls the Octopus Energy REST API and publishes what it finds as
Prometheus gauges:
- the latest consumption reading of the electricity and the gas meter;
- the unit rate and standing charge of the tariff each fuel is on.

One collection cycle (`collect_metrics`) runs three steps in a fixed order:
1. electricity consumption;
2. gas consumption;
3. tariff rates: one account lookup, then for each fuel the first supply point with a `tariff_code`, and for that code the unit-rate listing, then the standing-charge listing unless the first read raised.

Each step catches its own failures. A failure never overwrites a published value.

The model has four layers:

- `Api` (`api.dfy`) covers the requests and answers.
  - A request is a URL plus an optional `page_size`.
  - A paged answer is `Fail` or `Page(results)`; records are maps from field name to number.
  - It holds the URL builders and a reader that parses a rate URL back into its fuel, code and listing.
  - It holds the first-tariff-code scan, and `LatestValue`, which reads `results[0][field]` with the exceptions the exporter's `try` blocks catch.
- `Metrics` (`metrics.dfy`) covers the gauges.
  - One key per exported series.
  - `Registry` is the process-wide gauge set: a class whose `store` maps each series to its last written value.
- `Collection` (`collection.dfy`) is the specification of every exporter method as a pure function of `State`.
  - `State` is the store plus the log of requests issued.
  - The configuration is `Env`.
  - One `Upstream` per cycle says what the server answers to each URL.
  - `Cycles` iterates `CycleStep` over a sequence of upstreams.
- `Exporter` (`exporter.dfy`) is the exporter itself, a class with the Python methods.
  - Each method updates the shared `Registry` and the request log in place.
  - Each is proved to leave the state its `Collection` function describes.
  - `Create` is the constructor's credential gate; `Serve` is `main` cut after a finite number of cycles.

`Properties` (`properties.dfy`) proves what a cycle and a run of cycles promise:
- Failure isolation between the steps and between the two fuels.
- What a failed request leaves untouched.
- That each rate listing is requested at most once per cycle.
- That series are never unpublished.
- That an outage leaves the published values in place.

Python truthiness of an environment variable (`not self.electric_mpan`)
is `Present`: set and non-empty. The constructor's `ValueError` is the
`None` result of `Create`.

The metrics server starts before the credential check
(`octopus_exporter.py:189`, `194-197`). Until `main` returns, a scrape
sees the four unlabelled rate gauges at 0.0 (`octopus_exporter.py:18-21`);
then the process exits and the listener with it. The model keeps the
store as it was: `InitialStore` holds those four series at 0.0, and a
failed `Serve` leaves the store unchanged.

## Model

| member | source | states |
|---|---|---|
| Api.LatestValue | octopus-rest-exporter/octopus_exporter.py:60-64 | a value is read exactly when the request succeeded, `results` is non-empty and its first record has the field, and it is that field's value; an empty page reads nothing; every other outcome raises |
| Api.RateUrlLetters | octopus-rest-exporter/octopus_exporter.py:120-132 | the listing letter and the register letter of every rate URL sit at fixed distances from its end, and the URL is as long as its fixed text plus two copies of the code |
| Api.TargetOfRateUrl | octopus-rest-exporter/octopus_exporter.py:120-161 | every rate URL reads back as the fuel, tariff code and listing it was built from |
| Api.RateUrlInjective | octopus-rest-exporter/octopus_exporter.py:120-161 | two rate URLs are equal only when fuel, code and listing are all equal |
| Api.RateUrlCodeSlots | octopus-rest-exporter/octopus_exporter.py:120-161 | for either fuel (the f-strings at lines 120, 132, 149 and 161), a rate URL is `products/`, the code, the fuel's tariff segment (`/electricity-tariffs/E-1R-` or `/gas-tariffs/G-1R-`), the code again, the register suffix and the listing, each at its own position |
| Api.ConsumptionUrlIsNotRateUrl | octopus-rest-exporter/octopus_exporter.py:57 | no consumption URL of either fuel equals any rate URL |
| Api.AccountUrl | octopus-rest-exporter/octopus_exporter.py:42 | the account URL: the API root, `accounts/`, the account number and `/`; `GetAccountInfo` carries its use |
| Api.ConsumptionUrl | octopus-rest-exporter/octopus_exporter.py:57 | a meter's consumption URL: the fuel's `*-meter-points/` path with MPAN or MPRN and serial; `ConsumptionUrlIsNotRateUrl` states that it never collides with a rate URL |
| Api.RateUrl | octopus-rest-exporter/octopus_exporter.py:120-161 | the four rate f-strings, one function of fuel, code and listing; `TargetOfRateUrl` (round trip), `RateUrlInjective` and `RateUrlCodeSlots` state its properties |
| Api.FirstTariffIndex | octopus-rest-exporter/octopus_exporter.py:100-104 | the scan stops at an entry that has a `tariff_code`, every earlier entry lacks one, and no stop means no entry has one |
| Api.FirstTariffCode | octopus-rest-exporter/octopus_exporter.py:100-104 | no code exactly when no entry has `tariff_code`; otherwise the code of an entry that has one, all earlier entries lacking it |
| Api.FirstTariffCodeIgnoresLater | octopus-rest-exporter/octopus_exporter.py:100-104 | first wins: entries appended after a list that yields a code do not change the code |
| Api.FirstTariffCodeSkipsCodeless | octopus-rest-exporter/octopus_exporter.py:100-104 | entries without a code placed in front of a list do not change the code |
| Api.FirstTariffCodeSkipsHead | octopus-rest-exporter/octopus_exporter.py:101 | a first entry without a code is skipped |
| Metrics.SeriesAreDistinct | octopus-rest-exporter/octopus_exporter.py:16-22 | distinct keys are distinct exported series: no two share metric name and label set |
| Metrics.InitialStore | octopus-rest-exporter/octopus_exporter.py:18-21 | before any write, the gauge store holds exactly the four unlabelled rate series, each at 0.0, and no consumption series |
| Metrics.Registry.constructor | octopus-rest-exporter/octopus_exporter.py:16-22 | the gauge set starts as the initial store |
| Metrics.Registry.Set | octopus-rest-exporter/octopus_exporter.py:65 | a gauge write replaces that one series' value and leaves every other series |
| Collection.CredentialsPresent | octopus-rest-exporter/octopus_exporter.py:33 | `all([api_key, account_number])`: both set and non-empty; `Exporter.Create` states that an exporter exists exactly when it holds |
| Collection.MeterConfigured | octopus-rest-exporter/octopus_exporter.py:52 | a fuel's consumption is fetched only when both meter identifier and serial are set and non-empty (also line 72); `ConsumptionStep` states the skip |
| Collection.ConsumptionStep | octopus-rest-exporter/octopus_exporter.py:50-68 | with an incomplete meter identity: no request, store unchanged; otherwise one request with page size 1, the reading published under the meter serial when present, the store unchanged when not; series of other fuels and the rate gauges never change; no series disappears |
| Collection.RateRequests | octopus-rest-exporter/octopus_exporter.py:119-135 | a rate updater requests the unit-rate listing first, then the standing-charge listing exactly when the unit-rate read did not raise |
| Collection.RateStep | octopus-rest-exporter/octopus_exporter.py:117-144 | only the fuel's two rate gauges change; a read unit rate is published before the standing charge is requested; a raising unit-rate read leaves the whole store unchanged; a read standing charge is published, and an unread one left as it was |
| Collection.StandingStep | octopus-rest-exporter/octopus_exporter.py:131-141 | the standing-charge half: one request; only the standing-charge gauge can change, keeping its value unless the listing has one |
| Collection.TariffCodeFor | octopus-rest-exporter/octopus_exporter.py:94-112 | a code is resolved only from a successful, non-empty account lookup that has the fuel's supply-point list, and it is the first code of that list; conversely such a lookup always resolves that list's first code (none when no entry has one); a failed lookup or an empty body resolves nothing |
| Collection.FuelRateRequests | octopus-rest-exporter/octopus_exporter.py:99-112 | a fuel branch issues at most two rate requests |
| Collection.FuelTariffStep | octopus-rest-exporter/octopus_exporter.py:99-112 | a fuel branch without a resolved code changes nothing; with one it only logs its rate requests and changes only that fuel's two gauges |
| Collection.TariffStep | octopus-rest-exporter/octopus_exporter.py:90-115 | the account lookup, then the electricity and the gas rate requests, are logged in that order; only rate gauges change; no series disappears |
| Collection.ConsumptionRequests | octopus-rest-exporter/octopus_exporter.py:52-58 | a consumption updater issues at most one request |
| Collection.CycleStep | octopus-rest-exporter/octopus_exporter.py:175-181 | a cycle logs electricity consumption, gas consumption, account lookup, electricity rates and gas rates in this order; the tariff Info metric is untouched; no series disappears |
| Collection.Cycles | octopus-rest-exporter/octopus_exporter.py:200-206 | the `while True` loop cut after the given ticks, one cycle per upstream; `OutageKeepsStore`, `CyclesNeverUnpublish` and `CyclesNeverWriteTariffInfo` state its properties, and `Exporter.Serve` is proved to end in its state |
| Properties.RateStepLocal | octopus-rest-exporter/octopus_exporter.py:117-173 | a rate updater's outcome on its own two gauges depends only on those gauges' prior values |
| Properties.ConsumptionStepLocal | octopus-rest-exporter/octopus_exporter.py:50-88 | a consumption updater's outcome on a series of its fuel depends only on that series' prior value |
| Properties.ConsumptionFailureKeepsStore | octopus-rest-exporter/octopus_exporter.py:56-68 | a failed consumption request, an empty page or a first record without `consumption` leaves every series unchanged and only logs the request |
| Properties.StandingFailureKeepsUnitRate | octopus-rest-exporter/octopus_exporter.py:125-144 | a good unit rate followed by a failed standing-charge request leaves exactly the new unit rate written, after both requests |
| Properties.UnitFailureAbortsStanding | octopus-rest-exporter/octopus_exporter.py:119-144 | a failed unit-rate request, or a first record without `value_inc_vat`, means no standing-charge request and no gauge change |
| Properties.RateRequestedOnce | octopus-rest-exporter/octopus_exporter.py:99-112 | in one cycle, a fuel's unit-rate listing for a code is requested once when that code is the one resolved and never otherwise; its standing-charge listing likewise, and only when the unit-rate read did not raise |
| Properties.RateRequestsCount | octopus-rest-exporter/octopus_exporter.py:119-133 | one updater run requests each of its two listings at most once and no other listing |
| Properties.FuelRateRequestsCount | octopus-rest-exporter/octopus_exporter.py:99-104 | one fuel branch requests only listings of that fuel and of the resolved code, each at most once |
| Properties.ConsumptionRequestsCount | octopus-rest-exporter/octopus_exporter.py:56-58 | a consumption updater never requests a rate listing |
| Properties.RatesAsIfAlone | octopus-rest-exporter/octopus_exporter.py:175-181 | whatever the consumption steps and the other fuel meet, each fuel's rate gauges end a cycle exactly as that fuel's updater alone would leave them |
| Properties.TariffRatesAsIfAlone | octopus-rest-exporter/octopus_exporter.py:98-112 | within `get_tariff_rates` each fuel's rate gauges end as its own updater alone would leave them |
| Properties.ElectricityRatesAsIfAlone | octopus-rest-exporter/octopus_exporter.py:98-104 | the gas branch after the electricity branch leaves both electricity gauges as the electricity updater left them |
| Properties.GasRatesAsIfAlone | octopus-rest-exporter/octopus_exporter.py:106-112 | the gas branch runs on whatever the electricity branch met, and the gas gauges end as the gas updater alone would leave them |
| Properties.NoCodeNoRates | octopus-rest-exporter/octopus_exporter.py:99-112 | a fuel without a resolved code gets no rate request and keeps both its rate gauges through the cycle |
| Properties.AccountFailureWritesNoRates | octopus-rest-exporter/octopus_exporter.py:94-96 | a failed account lookup or an empty body means the cycle issues no rate request and writes no rate gauge of either fuel |
| Properties.ConsumptionAsIfAlone | octopus-rest-exporter/octopus_exporter.py:175-181 | each consumption series ends a cycle exactly as its fuel's consumption updater alone would leave it |
| Properties.ElectricityOnlyCycle | octopus-rest-exporter/octopus_exporter.py:175-181 | with an electricity meter, no gas meter and good electricity answers, a cycle publishes the electricity reading and both electricity rates, touches no gas consumption series, and keeps the gas rates unless a gas code is resolved |
| Properties.RatesReadBack | octopus-rest-exporter/octopus_exporter.py:125-141 | a unit rate of 24.5 then a standing charge of 45.0 both read back, the second write leaving the first |
| Properties.OutageCycleKeepsStore | octopus-rest-exporter/octopus_exporter.py:175-181 | a cycle in which every request fails leaves the published metric set as it was |
| Properties.OutageKeepsStore | octopus-rest-exporter/octopus_exporter.py:200-206 | any number of failing cycles leaves every published value in place |
| Properties.CyclesNeverUnpublish | octopus-rest-exporter/octopus_exporter.py:200-206 | a series, once published, stays published for the rest of the run |
| Properties.CyclesNeverWriteTariffInfo | octopus-rest-exporter/octopus_exporter.py:22 | no run of cycles writes the tariff Info metric |
| Exporter.OctopusExporter.constructor | octopus-rest-exporter/octopus_exporter.py:25-37 | an exporter holds the environment it was built from, knows the credentials are present, and has issued no request |
| Exporter.OctopusExporter.GetAccountInfo | octopus-rest-exporter/octopus_exporter.py:39-48 | one request without page size to the account URL; the answer is the server's body or none |
| Exporter.OctopusExporter.UpdateConsumption | octopus-rest-exporter/octopus_exporter.py:50-68 | the new store and log are those of `ConsumptionStep` for the fuel |
| Exporter.OctopusExporter.GetElectricConsumption | octopus-rest-exporter/octopus_exporter.py:50-68 | the new store and log are those of `ConsumptionStep` for electricity |
| Exporter.OctopusExporter.GetGasConsumption | octopus-rest-exporter/octopus_exporter.py:70-88 | the new store and log are those of `ConsumptionStep` for gas |
| Exporter.OctopusExporter.UpdateTariff | octopus-rest-exporter/octopus_exporter.py:117-144 | the new store and log are those of `RateStep` for the fuel and code |
| Exporter.OctopusExporter.GetElectricTariff | octopus-rest-exporter/octopus_exporter.py:117-144 | the new store and log are those of `RateStep` for electricity |
| Exporter.OctopusExporter.GetGasTariff | octopus-rest-exporter/octopus_exporter.py:146-173 | the new store and log are those of `RateStep` for gas |
| Exporter.OctopusExporter.ScanSupplyPoints | octopus-rest-exporter/octopus_exporter.py:100-104 | the loop hands the first code of the list to the fuel's rate updater and stops; without a code nothing changes |
| Exporter.OctopusExporter.UpdateFuelTariff | octopus-rest-exporter/octopus_exporter.py:99-104 | the new store and log are those of `FuelTariffStep` for the fuel |
| Exporter.OctopusExporter.GetTariffRates | octopus-rest-exporter/octopus_exporter.py:90-115 | the new store and log are those of `TariffStep` |
| Exporter.OctopusExporter.CollectMetrics | octopus-rest-exporter/octopus_exporter.py:175-181 | the new store and log are those of `CycleStep` |
| Exporter.FirstCodeAt | octopus-rest-exporter/octopus_exporter.py:100-104 | the entry where the loop breaks holds the code `FirstTariffCode` names |
| Exporter.Create | octopus-rest-exporter/octopus_exporter.py:33-34 | an exporter exists exactly when API key and account number are both set and non-empty; the meter settings are not required |
| Exporter.Serve | octopus-rest-exporter/octopus_exporter.py:183-206 | without credentials no cycle runs and the gauges keep their values; otherwise the gauges and the request log end as the run of cycles over the given upstreams describes |

## Left out

- The HTTP session, basic auth, `raise_for_status` and JSON decoding are not modelled. A request is answered by the `Upstream` given to the cycle; a transport error, a non-2xx status, a body that is not JSON and a body without `results` all appear as `Fail`.
- Only the JSON shapes the exporter expects are modelled: a `results` list of objects with numeric fields, and an account object whose supply-point fields hold lists of string-valued objects. Other shapes are not modelled. These include:
  - a `results` value that is not a list;
  - a reading that is a string: `Gauge.set` converts it with `float`, which accepts a numeric string and raises on any other, a raise the updater's `except` catches; for a consumption reading, `.labels(meter_serial=...)` at lines 65 and 85 has by then created the labelled series at 0.0, so a first non-numeric reading leaves a new 0.0 consumption series behind;
  - a supply-point list that is not a list of objects.
- TariffCodeFor: the account body keeps only its supply-point fields. A body that has other fields but neither supply-point list is therefore the empty map. Python treats it as truthy and the model as empty, but both end with no rate request and no write.
- RateUrlCodeSlots: states that the code fills its two slots and that the rest is fixed text. It does not state that the code occurs nowhere else in the URL. For a code such as `E`, that "exactly twice" reading is false. The round trips `TargetOfRateUrl` and `RateUrlInjective` stand in for it.
- Logging is not modelled. It has no effect on the gauges.
- `prometheus_client` internals are not modelled: the scrape endpoint, `start_http_server` and concurrent reads of the gauges. The model keeps only the map of last-written values.
- The `page_size` parameter is recorded in each request, but its effect on the server's answer is part of what `Upstream` returns.
- `main` is not modelled as its endless loop:
  - `time.sleep` and the parsing of `PROM_PORT` and `INTERVAL` are left out;
  - the loop is modelled as a finite sequence of cycles, one upstream per tick.
- The outer `except` in `main` (`octopus_exporter.py:203-204`) and the `except` of `get_tariff_rates` (`octopus_exporter.py:114-115`) are not modelled. With the JSON shapes above, nothing inside them raises past the inner handlers.
- Readings and rates are modelled as `real`. `Gauge.set` stores them as Python floats, but no arithmetic is done on them, so rounding plays no part; `NaN` and infinities are not modelled.
- The constant sample the tariff Info metric exports from its declaration (`octopus_exporter.py:22`) is not in the store; the store holds the gauge series only.
- The tariff Info metric is declared and never set. It is a key that nothing writes.
- Reading the environment is not modelled. `Env` holds the values `os.getenv` returned.
