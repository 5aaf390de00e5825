/** The three routes used in sequence within one session. */
module Pipeline {
  import opened Outcomes
  import opened Json
  import opened Datas
  import UnpackJson
  import opened Upstream
  import opened LocationController
  import opened Routes

  const France := Obj(map["ID" := Str("FR"), "EnglishName" := Str("France"), "LocalizedName" := Str("France")])
  const Spain := Obj(map["ID" := Str("ES"), "EnglishName" := Str("Spain"), "LocalizedName" := Str("España")])
  const IleDeFrance := Obj(map["ID" := Str("IDF"), "EnglishName" := Str("Île-de-France")])
  const Paris := Obj(map["Key" := Str("123"), "EnglishName" := Str("Paris")])
  const Report := Obj(map["DailyForecasts" := Arr([])])

  /** A provider that knows one region, one country, one city and one forecast. */
  function ScenarioNet(req: Request): Response {
    match req
    case CountriesOf(region) =>
      if region == "EUR" then Response(true, Arr([Spain, France])) else Response(false, Obj(map[]))
    case AdminAreasOf(code) =>
      if code == "FR" then Response(true, Arr([IleDeFrance])) else Response(false, Obj(map[]))
    case CitySearch(code, q) =>
      if code == "FR" && q == Str("Paris") then Response(true, Arr([Paris])) else Response(true, Arr([]))
    case DailyForecast(period, key) =>
      if key == Str("123") then Response(true, Report) else Response(false, Obj(map[]))
  }

  const Countries := [Spain, France]
  const AfterRegion := Session(None, Storage(Some(Countries), None))
  const AfterCountry := Session(Some("FR"), Storage(Some(Countries), Some([IleDeFrance])))
  const ForecastRequest :=
    Obj(map["continent" := Str("EUR"), "country" := Str("France"), "province" := Str("Paris")])

  /** Region "EUR": the English names come back and the raw list is cached. */
  lemma ScenarioRegion()
    ensures ContinentRouter(NewSession(), Obj(map["continent" := Str("EUR")]), ScenarioNet)
         == Reply(AfterRegion, Done(Arr([Str("Spain"), Str("France")])), [CountriesOf("EUR")])
  {
    assert Get(map["continent" := Str("EUR")], "continent") == Str("EUR");
    assert IsValidRegionCode(Str("EUR"));
    assert ScenarioNet(CountriesOf("EUR")) == Response(true, Arr(Countries));
    assert ApiContinentResponse(Str("EUR"), ScenarioNet) == Call(Done(Arr(Countries)), [CountriesOf("EUR")]);
    assert UnpackJson.HasEnglishName(Spain) && UnpackJson.HasEnglishName(France);
    assert UnpackJson.AllHaveEnglishName(Countries);
    var names := UnpackJson.UnpackJsonResponse(Countries);
    assert names[0] == Str("Spain") && names[1] == Str("France");
    assert names == [Str("Spain"), Str("France")];
    assert SetCountries(NewStorage(), Countries) == AfterRegion.storage;
  }

  /** Country "France": its code "FR" is recorded, its admin areas fetched and cached. */
  lemma ScenarioCountry()
    ensures CountryRouter(AfterRegion, Obj(map["country" := Str("France")]), ScenarioNet)
         == Reply(AfterCountry, Done(Arr([Str("Île-de-France")])), [AdminAreasOf("FR")])
  {
    assert Get(map["country" := Str("France")], "country") == Str("France");
    assert GetCountries(AfterRegion.storage) == Some(Countries);
    assert !EndsScan(Spain, Str("France"));
    assert ScanEndsAt(Countries, Str("France"), 1);
    assert UnpackJson.AllHaveEnglishName([IleDeFrance]);
    assert FindCountryId(Countries, Str("France")) == Done(Str("FR"));
    assert ScenarioNet(AdminAreasOf("FR")) == Response(true, Arr([IleDeFrance]));
    assert ApiCountryResponse(None, Some(Countries), Str("France"), ScenarioNet)
        == CountryStep(Some("FR"), Call(Done(Arr([IleDeFrance])), [AdminAreasOf("FR")]));
    var names := UnpackJson.UnpackJsonResponse([IleDeFrance]);
    assert names[0] == Str("Île-de-France");
    assert names == [Str("Île-de-France")];
    assert SetProvinces(AfterRegion.storage, [IleDeFrance]) == AfterCountry.storage;
  }

  /** With "FR" cached, the forecast for "Paris" is the provider's report for key "123". */
  lemma ScenarioForecast(s: Session, period: string)
    requires s.countryCode == Some("FR")
    ensures DisplayForecastRouter(s, period, ForecastRequest, ScenarioNet)
         == Reply(s, Done(Report), [CitySearch("FR", Str("Paris")), DailyForecast(period, Str("123"))])
  {
    assert HasAllFields(ForecastRequest.fields);
    assert Get(ForecastRequest.fields, "province") == Str("Paris");
    assert KeySearchEndsAt([Paris], 0);
  }

  /** Region "EUR", then country "France", then a forecast for "Paris": each
      step caches what the next one reads, and the last one returns the
      provider's forecast for key "123" unchanged. */
  lemma ResolveThenForecast(period: string)
    ensures var r1 := ContinentRouter(NewSession(), Obj(map["continent" := Str("EUR")]), ScenarioNet);
            var r2 := CountryRouter(r1.session, Obj(map["country" := Str("France")]), ScenarioNet);
            var r3 := DisplayForecastRouter(r2.session, period, ForecastRequest, ScenarioNet);
            && r1.out == Done(Arr([Str("Spain"), Str("France")]))
            && r2.out == Done(Arr([Str("Île-de-France")]))
            && r3.out == Done(Report)
            && r3.sent == [CitySearch("FR", Str("Paris")), DailyForecast(period, Str("123"))]
  {
    ScenarioRegion();
    ScenarioCountry();
    ScenarioForecast(AfterCountry, period);
  }
}
