/** The Octopus Energy REST API as the exporter sees it: the requests it
    issues (URLs built by string interpolation), the shapes of the answers
    it reads, and the one piece of pure logic applied to an answer, the
    first-tariff-code scan over a supply-point list. */
module Api {

  datatype Option<+T> = None | Some(value: T)

  datatype Fuel = Electricity | Gas

  /** The two rate listings published per tariff. */
  datatype RateKind = UnitRate | StandingCharge

  /** An HTTP GET issued through the exporter's session: the URL and the
      `page_size` query parameter, when one is passed. */
  datatype Request = Get(url: string, pageSize: Option<nat>)

  /** One entry of a `results` list, reduced to its numeric fields. */
  type Record = map<string, real>

  /** One entry of a supply-point list, reduced to its string fields. */
  type SupplyPoint = map<string, string>

  /** An account body, reduced to its fields that hold supply-point lists. */
  type AccountInfo = map<string, seq<SupplyPoint>>

  /** The outcome of a paged GET: `Fail` covers a transport error, a non-2xx
      status, a body that is not JSON and a body without a `results` key;
      otherwise the `results` list. */
  datatype Resp = Fail | Page(results: seq<Record>)

  /** The upstream side of one collection cycle: what the server answers
      to each URL. `account` yields `None` where `get_account_info` returns
      `None` (any failure, or a JSON `null` body). */
  datatype Upstream = Upstream(account: string -> Option<AccountInfo>, page: string -> Resp)

  const ConsumptionField: string := "consumption"
  const RateField: string := "value_inc_vat"
  const TariffCodeField: string := "tariff_code"

  const BaseUrl: string := "https://api.octopus.energy/v1/"
  const ProductsUrl: string := BaseUrl + "products/"

  /** The account key that holds the supply points of a fuel. */
  function SupplyPointsField(fuel: Fuel): string {
    match fuel
    case Electricity => "electricity_supply_points"
    case Gas => "gas_supply_points"
  }

  function AccountUrl(accountNumber: string): string {
    BaseUrl + "accounts/" + accountNumber + "/"
  }

  function MeterPointsSegment(fuel: Fuel): string {
    match fuel
    case Electricity => "electricity-meter-points/"
    case Gas => "gas-meter-points/"
  }

  function ConsumptionUrl(fuel: Fuel, meterPoint: string, serial: string): string {
    BaseUrl + MeterPointsSegment(fuel) + meterPoint + "/meters/" + serial + "/consumption/"
  }

  /** The text between the two copies of the tariff code: the fuel's tariff
      collection and the head of its single-register rate-plan name. */
  function TariffsSegment(fuel: Fuel): string {
    match fuel
    case Electricity => "/electricity-tariffs/E-1R-"
    case Gas => "/gas-tariffs/G-1R-"
  }

  /** The tail of the single-register rate-plan name. */
  function RegisterSuffix(fuel: Fuel): string {
    match fuel
    case Electricity => "-E/"
    case Gas => "-G/"
  }

  function RateSegment(kind: RateKind): string {
    match kind
    case UnitRate => "standard-unit-rates/"
    case StandingCharge => "standing-charges/"
  }

  /** `.../products/{code}/electricity-tariffs/E-1R-{code}-E/<listing>/`
      and the gas counterpart with `gas-tariffs/G-1R-{code}-G/`. */
  function RateUrl(fuel: Fuel, code: string, kind: RateKind): string {
    ProductsUrl + code + TariffsSegment(fuel) + code + RegisterSuffix(fuel) + RateSegment(kind)
  }

  /** What a rate URL addresses. */
  datatype RateTarget = RateTarget(fuel: Fuel, code: string, kind: RateKind)

  /** The listing a rate URL names, read off its fourth character from the
      end (the `t` of `rates/` against the `g` of `charges/`). */
  function ListingOf(url: string): RateKind {
    if |url| >= 4 && url[|url| - 4] == 't' then UnitRate else StandingCharge
  }

  /** The fuel a rate URL names, read off the register letter in front of
      the listing. */
  function FuelOf(url: string, kind: RateKind): Fuel {
    var tail := |RateSegment(kind)| + 2;
    if |url| >= tail && url[|url| - tail] == 'E' then Electricity else Gas
  }

  /** The length of a rate URL apart from its two copies of the code. */
  function FixedLength(fuel: Fuel, kind: RateKind): nat {
    |ProductsUrl| + |TariffsSegment(fuel)| + |RegisterSuffix(fuel)| + |RateSegment(kind)|
  }

  /** Reads fuel, tariff code and listing back out of a rate URL: the code
      is as long as half of what the fixed text leaves over, and starts
      right after `products/`. */
  function TargetOf(url: string): RateTarget {
    var kind := ListingOf(url);
    var fuel := FuelOf(url, kind);
    var fixed := FixedLength(fuel, kind);
    var code := if |url| < fixed then "" else url[|ProductsUrl|..|ProductsUrl| + (|url| - fixed) / 2];
    RateTarget(fuel, code, kind)
  }

  /** Every rate URL reads back as the fuel, code and listing it was built from. */
  lemma TargetOfRateUrl(fuel: Fuel, code: string, kind: RateKind)
    ensures TargetOf(RateUrl(fuel, code, kind)) == RateTarget(fuel, code, kind)
  {
    var url := RateUrl(fuel, code, kind);
    RateUrlLetters(fuel, code, kind);
    assert (|url| - FixedLength(fuel, kind)) / 2 == |code|;
    assert url[|ProductsUrl|..|ProductsUrl| + |code|] == code;
  }

  /** The listing and register letters of a rate URL sit at fixed distances
      from its end, and its length is the fixed text plus two codes. */
  lemma RateUrlLetters(fuel: Fuel, code: string, kind: RateKind)
    ensures ListingOf(RateUrl(fuel, code, kind)) == kind
    ensures FuelOf(RateUrl(fuel, code, kind), kind) == fuel
    ensures |RateUrl(fuel, code, kind)| == FixedLength(fuel, kind) + 2 * |code|
  {
    var url := RateUrl(fuel, code, kind);
    var head := ProductsUrl + code + TariffsSegment(fuel) + code;
    var suffix := RegisterSuffix(fuel) + RateSegment(kind);
    assert url == head + suffix;
    SuffixAt(head, suffix, |suffix| - 4);
    SuffixAt(head, suffix, 1);
  }

  lemma SuffixAt(a: string, b: string, i: nat)
    requires i < |b|
    ensures (a + b)[|a| + i] == b[i]
  {
  }

  /** Two rate URLs are equal only when fuel, code and listing are: every
      request of a cycle goes to its own URL. */
  lemma RateUrlInjective(f1: Fuel, c1: string, k1: RateKind, f2: Fuel, c2: string, k2: RateKind)
    requires RateUrl(f1, c1, k1) == RateUrl(f2, c2, k2)
    ensures f1 == f2 && c1 == c2 && k1 == k2
  {
    TargetOfRateUrl(f1, c1, k1);
    TargetOfRateUrl(f2, c2, k2);
  }

  /** The tariff code fills both of its slots in a rate URL: right after
      `products/`, and again after the tariff collection's segment. This
      spells the template out; the property the other proofs rely on is the
      round trip `TargetOfRateUrl` and its consequence `RateUrlInjective`. */
  lemma RateUrlCodeSlots(fuel: Fuel, code: string, kind: RateKind)
    ensures var url := RateUrl(fuel, code, kind);
      var second := |ProductsUrl| + |code| + |TariffsSegment(fuel)|;
      && url[..|ProductsUrl|] == ProductsUrl
      && url[|ProductsUrl|..|ProductsUrl| + |code|] == code
      && url[|ProductsUrl| + |code|..second] == TariffsSegment(fuel)
      && url[second..second + |code|] == code
      && url[second + |code|..] == RegisterSuffix(fuel) + RateSegment(kind)
  {
    Slices(ProductsUrl, code, TariffsSegment(fuel), code, RegisterSuffix(fuel), RateSegment(kind));
  }

  /** Where each part of a six-part concatenation sits. */
  lemma Slices(a: string, b: string, c: string, d: string, e: string, f: string)
    ensures var u := a + b + c + d + e + f;
      && u[..|a|] == a
      && u[|a|..|a| + |b|] == b
      && u[|a| + |b|..|a| + |b| + |c|] == c
      && u[|a| + |b| + |c|..|a| + |b| + |c| + |d|] == d
      && u[|a| + |b| + |c| + |d|..] == e + f
  {
    var u := a + b + c + d + e + f;
    assert u == a + (b + (c + (d + (e + f))));
  }

  /** No consumption URL is a rate URL: the part after the API root differs,
      at `electricity-meter-points/` or `gas-meter-points/` against `products/`. */
  lemma ConsumptionUrlIsNotRateUrl(fuel: Fuel, point: string, serial: string, f: Fuel, code: string, kind: RateKind)
    ensures ConsumptionUrl(fuel, point, serial) != RateUrl(f, code, kind)
  {
    assert ConsumptionUrl(fuel, point, serial)[|BaseUrl|] != 'p';
    assert RateUrl(f, code, kind)[|BaseUrl|] == 'p';
  }

  /** `'tariff_code' in supply_point` */
  predicate HasTariffCode(p: SupplyPoint) {
    TariffCodeField in p
  }

  /** The position at which the scan over a supply-point list stops: the
      first entry carrying a tariff code, if any. */
  function FirstTariffIndex(points: seq<SupplyPoint>): (r: Option<nat>)
    ensures r.Some? ==> r.value < |points| && HasTariffCode(points[r.value])
    ensures r.Some? ==> forall j :: 0 <= j < r.value ==> !HasTariffCode(points[j])
    ensures r.None? ==> forall j :: 0 <= j < |points| ==> !HasTariffCode(points[j])
  {
    if |points| == 0 then None
    else if HasTariffCode(points[0]) then Some(0)
    else
      match FirstTariffIndex(points[1..])
      case None => None
      case Some(i) => Some(i + 1)
  }

  /** The tariff code the scan hands on: that of the first supply point, in
      list order, that has one; `None` when no entry has one. A code that is
      the empty string still counts, since the scan tests for the key. */
  function FirstTariffCode(points: seq<SupplyPoint>): (r: Option<string>)
    ensures r.None? <==> forall j :: 0 <= j < |points| ==> !HasTariffCode(points[j])
    ensures r.Some? ==> exists i :: 0 <= i < |points| && HasTariffCode(points[i]) && points[i][TariffCodeField] == r.value
                          && forall j :: 0 <= j < i ==> !HasTariffCode(points[j])
  {
    match FirstTariffIndex(points)
    case None => None
    case Some(i) => Some(points[i][TariffCodeField])
  }

  /** First wins: once a list yields a code, entries appended after it are ignored. */
  lemma {:induction false} FirstTariffCodeIgnoresLater(points: seq<SupplyPoint>, later: seq<SupplyPoint>)
    requires FirstTariffCode(points).Some?
    ensures FirstTariffCode(points + later) == FirstTariffCode(points)
  {
    if HasTariffCode(points[0]) {
      assert (points + later)[0] == points[0];
    } else {
      assert (points + later)[1..] == points[1..] + later;
      assert FirstTariffCode(points[1..]).Some?;
      FirstTariffCodeIgnoresLater(points[1..], later);
    }
  }

  /** Entries without a tariff code in front of the list change nothing. */
  lemma {:induction false} FirstTariffCodeSkipsCodeless(skipped: seq<SupplyPoint>, points: seq<SupplyPoint>)
    requires forall j :: 0 <= j < |skipped| ==> !HasTariffCode(skipped[j])
    ensures FirstTariffCode(skipped + points) == FirstTariffCode(points)
  {
    if |skipped| == 0 {
      assert skipped + points == points;
    } else {
      assert (skipped + points)[0] == skipped[0];
      assert (skipped + points)[1..] == skipped[1..] + points;
      FirstTariffCodeSkipsHead(skipped + points);
      FirstTariffCodeSkipsCodeless(skipped[1..], points);
    }
  }

  /** The scan moves past a first entry without a code. */
  lemma FirstTariffCodeSkipsHead(points: seq<SupplyPoint>)
    requires |points| > 0 && !HasTariffCode(points[0])
    ensures FirstTariffCode(points) == FirstTariffCode(points[1..])
  {
    match FirstTariffIndex(points[1..])
    case None =>
    case Some(i) => assert points[1..][i] == points[i + 1];
  }

  /** What reading `data['results'][0][field]` out of a page does. */
  datatype Latest = Raised | NoData | Value(v: real)

  /** `if data['results']: latest = data['results'][0]; x = latest[field]`
      with the exceptions that the surrounding `try` catches: a failed
      request and a missing field both raise, an empty list reads nothing. */
  function LatestValue(resp: Resp, field: string): (r: Latest)
    ensures r.Value? <==> resp.Page? && |resp.results| > 0 && field in resp.results[0]
    ensures r.Value? ==> r.v == resp.results[0][field]
    ensures r.NoData? <==> resp == Page([])
  {
    match resp
    case Fail => Raised
    case Page(results) =>
      if |results| == 0 then NoData
      else if field in results[0] then Value(results[0][field])
      else Raised
  }
}
