/** The location-resolution controller: region → countries, country name →
    country code → admin areas, province name → location key → forecast.
    Each request goes to the parameter `net`; `countryCode` is the controller's
    `country_code` attribute, threaded in and out explicitly. */
module LocationController {
  import opened Outcomes
  import opened Json
  import opened ErrorMessage
  import opened Upstream

  /** The ten region tokens the provider accepts. */
  const ValidRegionCodes: seq<string> :=
    ["AFR", "ANT", "ARC", "ASI", "CAC", "EUR", "MEA", "NAM", "OCN", "SAM"]

  predicate IsValidRegionCode(code: Json) {
    code.Str? && code.s in ValidRegionCodes
  }

  /** The branch after every request: the decoded body when ok, else the error envelope. */
  function Relay(resp: Response): Outcome<Json> {
    if resp.ok then Done(resp.body) else ReturnErrorFromApi(resp.body)
  }

  // ---------------------------------------------------------------- regions

  /** `api_call_region_continent`: the provider's answer for a valid region code;
      an invalid code yields the region-code error and no request at all. */
  function ApiCallRegionContinent(code: Json, net: Net): (c: Call)
    ensures !IsValidRegionCode(code) ==> c == Call(Done(NotAValidRegionCode(code)), [])
    ensures IsValidRegionCode(code) ==> c.sent == [CountriesOf(code.s)]
    ensures IsValidRegionCode(code) && net(CountriesOf(code.s)).ok ==>
              c.out == Done(net(CountriesOf(code.s)).body)
    ensures IsValidRegionCode(code) && !net(CountriesOf(code.s)).ok ==>
              c.out == ReturnErrorFromApi(net(CountriesOf(code.s)).body)
  {
    if IsValidRegionCode(code) then
      var req := CountriesOf(code.s);
      Call(Relay(net(req)), [req])
    else
      Call(Done(NotAValidRegionCode(code)), [])
  }

  /** `api_continent_response`: its error check returns the same value on both
      branches, so it passes the region lookup through unchanged. */
  function ApiContinentResponse(code: Json, net: Net): (c: Call)
    ensures c == ApiCallRegionContinent(code, net)
  {
    var c := ApiCallRegionContinent(code, net);
    if c.out.Done? && c.out.value.Obj?
       && (Truthy(Get(c.out.value.fields, ApiErrorKey)) || Truthy(Get(c.out.value.fields, ValueErrorKey)))
    then c
    else c
  }

  // ------------------------------------------------------ country code scan

  /** A dict entry whose `EnglishName` or `LocalizedName` equals the target.
      A missing name reads as `None`, so a `None` target matches it. */
  predicate NameMatches(e: Json, target: Json)
    requires e.Obj?
  {
    target == Get(e.fields, "EnglishName") || target == Get(e.fields, "LocalizedName")
  }

  /** The scan stops at a matching dict, and at a non-dict, whose `.get` raises. */
  predicate EndsScan(e: Json, target: Json) {
    !e.Obj? || NameMatches(e, target)
  }

  /** `i` is the first entry the scan stops at. */
  ghost predicate ScanEndsAt(countries: seq<Json>, target: Json, i: int) {
    && 0 <= i < |countries|
    && EndsScan(countries[i], target)
    && forall j :: 0 <= j < i ==> !EndsScan(countries[j], target)
  }

  /** `api_call_if_country_code_on_continent`: the `ID` of the first entry named
      `target`; `None` when the whole list is scanned without a match. A non-dict
      entry is caught as `AttributeError`, but the handler calls `e.json()` on the
      exception, which raises again, so it aborts; a match without `ID` raises
      `KeyError`. */
  function FindCountryId(countries: seq<Json>, target: Json): (r: Outcome<Json>)
    ensures (forall i :: 0 <= i < |countries| ==> !EndsScan(countries[i], target)) ==> r == Done(Null)
    ensures forall i :: ScanEndsAt(countries, target, i) ==>
              && (countries[i].Obj? && "ID" in countries[i].fields ==> r == Done(countries[i].fields["ID"]))
              && (!countries[i].Obj? || "ID" !in countries[i].fields ==> r == Crashed)
  {
    if |countries| == 0 then Done(Null)
    else
      var e := countries[0];
      if !e.Obj? then Crashed
      else if NameMatches(e, target) then
        if "ID" in e.fields then Done(e.fields["ID"]) else Crashed
      else
        assert forall i :: ScanEndsAt(countries, target, i) ==> i > 0 && ScanEndsAt(countries[1..], target, i - 1);
        FindCountryId(countries[1..], target)
  }

  /** Once an entry in `a` ends the scan, nothing after it is examined. */
  lemma {:induction false} FindCountryIdIgnoresSuffix(a: seq<Json>, b: seq<Json>, target: Json, i: int)
    requires 0 <= i < |a| && EndsScan(a[i], target)
    ensures FindCountryId(a + b, target) == FindCountryId(a, target)
  {
    if !EndsScan(a[0], target) {
      assert (a + b)[1..] == a[1..] + b;
      FindCountryIdIgnoresSuffix(a[1..], b, target, i - 1);
    }
  }

  /** Entries that neither match nor abort are skipped. */
  lemma {:induction false} FindCountryIdSkipsPrefix(a: seq<Json>, b: seq<Json>, target: Json)
    requires forall i :: 0 <= i < |a| ==> !EndsScan(a[i], target)
    ensures FindCountryId(a + b, target) == FindCountryId(b, target)
  {
    if |a| == 0 {
      assert a + b == b;
    } else {
      assert (a + b)[1..] == a[1..] + b;
      FindCountryIdSkipsPrefix(a[1..], b, target);
    }
  }

  /** Of two entries with the searched name, the earlier one's `ID` wins
      provided every entry before it is a non-matching dict: the later match
      is never reached, so removing it changes nothing. */
  lemma EarlierMatchWins(countries: seq<Json>, target: Json, i: int, j: int)
    requires 0 <= i < j < |countries|
    requires forall k :: 0 <= k < i ==> countries[k].Obj? && !NameMatches(countries[k], target)
    requires countries[i].Obj? && NameMatches(countries[i], target) && "ID" in countries[i].fields
    requires countries[j].Obj? && NameMatches(countries[j], target)
    ensures FindCountryId(countries, target) == Done(countries[i].fields["ID"])
    ensures FindCountryId(countries[..j] + countries[j + 1..], target) == FindCountryId(countries, target)
  {
    assert ScanEndsAt(countries, target, i);
    var rest := countries[..j] + countries[j + 1..];
    assert forall k :: 0 <= k <= i ==> rest[k] == countries[k];
    assert ScanEndsAt(rest, target, i);
  }

  /** Result of the country stage: the new `country_code` and the call. */
  datatype CountryStep = CountryStep(countryCode: Option<string>, call: Call)

  /** `api_country_response`: on a string `ID` it records the code and fetches the
      country's admin areas; otherwise it keeps the code, sends nothing and returns
      `None`. With no cached list (`None`) the scan itself raises. */
  function ApiCountryResponse(countryCode: Option<string>, countries: Option<seq<Json>>,
                              target: Json, net: Net): (st: CountryStep)
    ensures countries.None? ==> st == CountryStep(countryCode, Call(Crashed, []))
    ensures countries.Some? ==>
              var found := FindCountryId(countries.value, target);
              && (found.Done? && found.value.Str? ==>
                    var req := AdminAreasOf(found.value.s);
                    && st.countryCode == Some(found.value.s)
                    && st.call.sent == [req]
                    && (net(req).ok ==> st.call.out == Done(net(req).body))
                    && (!net(req).ok ==> st.call.out == ReturnErrorFromApi(net(req).body)))
              && (!(found.Done? && found.value.Str?) ==>
                    && st.countryCode == countryCode
                    && st.call.sent == []
                    && st.call.out == (if found.Crashed? then Crashed else Done(Null)))
  {
    if countries.None? then CountryStep(countryCode, Call(Crashed, []))
    else
      match FindCountryId(countries.value, target)
      case Crashed => CountryStep(countryCode, Call(Crashed, []))
      case Done(details) =>
        if details.Str? then
          var req := AdminAreasOf(details.s);
          CountryStep(Some(details.s), Call(Relay(net(req)), [req]))
        else
          CountryStep(countryCode, Call(Done(Null), []))
  }

  // --------------------------------------------------------- location key

  /** The key search stops at the first dict holding `Key`, and at a non-dict,
      whose `.items()` raises. */
  predicate EndsKeySearch(e: Json) {
    !e.Obj? || "Key" in e.fields
  }

  ghost predicate KeySearchEndsAt(records: seq<Json>, i: int) {
    && 0 <= i < |records|
    && EndsKeySearch(records[i])
    && forall j :: 0 <= j < i ==> !EndsKeySearch(records[j])
  }

  /** The value of the first `Key` field in response order; `None` if no record has one. */
  function FirstKey(records: seq<Json>): (r: Outcome<Json>)
    ensures (forall i :: 0 <= i < |records| ==> !EndsKeySearch(records[i])) ==> r == Done(Null)
    ensures forall i :: KeySearchEndsAt(records, i) ==>
              && (records[i].Obj? ==> r == Done(records[i].fields["Key"]))
              && (!records[i].Obj? ==> r == Crashed)
  {
    if |records| == 0 then Done(Null)
    else if !records[0].Obj? then Crashed
    else if "Key" in records[0].fields then Done(records[0].fields["Key"])
    else
      assert forall i :: KeySearchEndsAt(records, i) ==> i > 0 && KeySearchEndsAt(records[1..], i - 1);
      FirstKey(records[1..])
  }

  /** Records after the first one holding `Key` are never looked at. */
  lemma {:induction false} FirstKeyIgnoresSuffix(a: seq<Json>, b: seq<Json>, i: int)
    requires 0 <= i < |a| && EndsKeySearch(a[i])
    ensures FirstKey(a + b) == FirstKey(a)
  {
    if !EndsKeySearch(a[0]) {
      assert (a + b)[1..] == a[1..] + b;
      FirstKeyIgnoresSuffix(a[1..], b, i - 1);
    }
  }

  /** The loop over a successful search body. Iterating a dict or a string yields
      strings, whose `.items()` raises unless there is nothing to iterate;
      iterating `None` raises. */
  function KeyFromSearch(body: Json): (r: Outcome<Json>)
    ensures body.Arr? ==> r == FirstKey(body.items)
    ensures body == Arr([]) ==> r == Done(Null)
    ensures body == Null ==> r == Crashed
    ensures (body.Str? || body.Obj?) && Truthy(body) ==> r == Crashed
    ensures (body.Str? || body.Obj?) && !Truthy(body) ==> r == Done(Null)
  {
    match body
    case Arr(records) => FirstKey(records)
    case Null => Crashed
    case Str(s) => if |s| == 0 then Done(Null) else Crashed
    case Obj(m) => if |m| == 0 then Done(Null) else Crashed
  }

  /** A search is issued only when a country code is cached and non-empty. */
  predicate HasCountryCode(countryCode: Option<string>) {
    countryCode.Some? && |countryCode.value| > 0
  }

  /** `api_province_key`: searches the cached country for `province` and returns
      the first `Key`; with no usable country code or an empty name it returns
      `None` without a request; a failed search yields the error envelope. */
  function ApiProvinceKey(countryCode: Option<string>, province: Json, net: Net): (c: Call)
    ensures !(HasCountryCode(countryCode) && Truthy(province)) ==> c == Call(Done(Null), [])
    ensures HasCountryCode(countryCode) && Truthy(province) ==>
              var req := CitySearch(countryCode.value, province);
              && c.sent == [req]
              && (net(req).ok ==> c.out == KeyFromSearch(net(req).body))
              && (!net(req).ok ==> c.out == ReturnErrorFromApi(net(req).body))
  {
    if HasCountryCode(countryCode) && Truthy(province) then
      var req := CitySearch(countryCode.value, province);
      var resp := net(req);
      if resp.ok then Call(KeyFromSearch(resp.body), [req])
      else Call(ReturnErrorFromApi(resp.body), [req])
    else
      Call(Done(Null), [])
  }

  // -------------------------------------------------------------- forecast

  /** `api_get_daily_weather_forecast`: the provider's forecast for `key`, passed
      through verbatim; a falsy key returns `None` and sends nothing. */
  function ApiGetDailyWeatherForecast(period: string, key: Json, net: Net): (c: Call)
    ensures !Truthy(key) ==> c == Call(Done(Null), [])
    ensures Truthy(key) ==> c.sent == [DailyForecast(period, key)]
    ensures Truthy(key) && net(DailyForecast(period, key)).ok ==>
              c.out == Done(net(DailyForecast(period, key)).body)
    ensures Truthy(key) && !net(DailyForecast(period, key)).ok ==>
              c.out == ReturnErrorFromApi(net(DailyForecast(period, key)).body)
  {
    if Truthy(key) then
      var req := DailyForecast(period, key);
      Call(Relay(net(req)), [req])
    else
      Call(Done(Null), [])
  }

  /** The three request fields the forecast route needs, all truthy. */
  predicate HasAllFields(data: map<string, Json>) {
    Truthy(Get(data, "continent")) && Truthy(Get(data, "country")) && Truthy(Get(data, "province"))
  }

  /** `weather_forecast_router`: with continent, country and province present it
      resolves the province under the cached country code and fetches the
      forecast for whatever the key lookup returned; otherwise `missing_datas()`. */
  function WeatherForecastRouter(countryCode: Option<string>, period: string, data: Json, net: Net): (c: Call)
    ensures !data.Obj? ==> c == Call(Crashed, [])
    ensures data.Obj? && !HasAllFields(data.fields) ==> c == Call(Done(MissingDatas()), [])
    ensures data.Obj? && HasAllFields(data.fields) ==>
              var key := ApiProvinceKey(countryCode, Get(data.fields, "province"), net);
              && (key.out.Crashed? ==> c == key)
              && (key.out.Done? ==>
                    var fc := ApiGetDailyWeatherForecast(period, key.out.value, net);
                    c == Call(fc.out, key.sent + fc.sent))
  {
    match data
    case Obj(fields) =>
      if HasAllFields(fields) then
        var key := ApiProvinceKey(countryCode, Get(fields, "province"), net);
        match key.out
        case Crashed => key
        case Done(locationKey) =>
          var fc := ApiGetDailyWeatherForecast(period, locationKey, net);
          Call(fc.out, key.sent + fc.sent)
      else
        Call(Done(MissingDatas()), [])
    case _ => Call(Crashed, [])
  }

  /** The `country` field only gates the route: the search uses the cached code. */
  lemma ForecastIgnoresRequestCountry(countryCode: Option<string>, period: string,
                                      d1: map<string, Json>, d2: map<string, Json>, net: Net)
    requires HasAllFields(d1) && HasAllFields(d2)
    requires Get(d1, "province") == Get(d2, "province")
    ensures WeatherForecastRouter(countryCode, period, Obj(d1), net)
         == WeatherForecastRouter(countryCode, period, Obj(d2), net)
  {
  }

  /** With a cached code, the first request is the search in that country. */
  lemma ForecastSearchesCachedCountry(countryCode: Option<string>, period: string,
                                      data: map<string, Json>, net: Net)
    requires HasAllFields(data) && HasCountryCode(countryCode)
    ensures var c := WeatherForecastRouter(countryCode, period, Obj(data), net);
            |c.sent| >= 1 && c.sent[0] == CitySearch(countryCode.value, Get(data, "province"))
  {
  }

  /** A failed province search does not stop the route: its error envelope is
      truthy and is sent to the forecast endpoint as the location key. */
  lemma ProvinceErrorBecomesLocationKey(countryCode: Option<string>, period: string,
                                        data: map<string, Json>, net: Net)
    requires HasAllFields(data) && HasCountryCode(countryCode)
    requires !net(CitySearch(countryCode.value, Get(data, "province"))).ok
    requires net(CitySearch(countryCode.value, Get(data, "province"))).body.Obj?
    ensures var search := CitySearch(countryCode.value, Get(data, "province"));
            var err := ReturnErrorFromApi(net(search).body);
            && err.Done?
            && WeatherForecastRouter(countryCode, period, Obj(data), net).sent
               == [search, DailyForecast(period, err.value)]
  {
    var search := CitySearch(countryCode.value, Get(data, "province"));
    var err := ReturnErrorFromApi(net(search).body);
    ApiErrorIsTruthy(err.value);
  }
}
