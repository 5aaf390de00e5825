/** The three POST routes, with the global router's `country_code` and the
    global `Storage` gathered into one session value threaded through the calls. */
module Routes {
  import opened Outcomes
  import opened Json
  import opened ErrorMessage
  import opened UnpackJson
  import opened Datas
  import opened Upstream
  import opened LocationController

  /** The state that survives between requests. */
  datatype Session = Session(countryCode: Option<string>, storage: Storage)

  /** The state at process start. */
  function NewSession(): (s: Session)
    ensures s.countryCode == None
    ensures GetCountries(s.storage) == None && GetProvinces(s.storage) == None
  {
    Session(None, NewStorage())
  }

  /** A route's answer (before `jsonify`), the requests it sent, and the new state. */
  datatype Reply = Reply(session: Session, out: Outcome<Json>, sent: seq<Request>)

  /** `display_forecast_router` (`/weather-forecast`): the controller's forecast
      route verbatim; the session is read, never written. */
  function DisplayForecastRouter(s: Session, period: string, data: Json, net: Net): (r: Reply)
    ensures r.session == s
    ensures Call(r.out, r.sent) == WeatherForecastRouter(s.countryCode, period, data, net)
  {
    var c := WeatherForecastRouter(s.countryCode, period, data, net);
    Reply(s, c.out, c.sent)
  }

  /** The English names of a list answer, or an abort when a record lacks one. */
  function NamesOf(records: seq<Json>): Outcome<Json> {
    if AllHaveEnglishName(records) then Done(Arr(UnpackJsonResponse(records))) else Crashed
  }

  /** `continent_router` (`/country_response`): a list answer is projected to its
      English names and cached raw; anything else is returned as is and the cache
      is left alone. Projection happens before the write, so an abort there
      leaves the cache untouched too. */
  function ContinentRouter(s: Session, data: Json, net: Net): (r: Reply)
    ensures !data.Obj? ==> r == Reply(s, Crashed, [])
    ensures r.session.countryCode == s.countryCode
    ensures r.session.storage.responseProvinces == s.storage.responseProvinces
    ensures data.Obj? ==>
              var up := ApiContinentResponse(Get(data.fields, "continent"), net);
              && r.sent == up.sent
              && (up.out.Done? && up.out.value.Arr? && AllHaveEnglishName(up.out.value.items) ==>
                    && r.out == Done(Arr(UnpackJsonResponse(up.out.value.items)))
                    && r.session.storage == SetCountries(s.storage, up.out.value.items))
              && (up.out.Done? && up.out.value.Arr? && !AllHaveEnglishName(up.out.value.items) ==>
                    r.out == Crashed && r.session == s)
              && (!(up.out.Done? && up.out.value.Arr?) ==> r.out == up.out && r.session == s)
  {
    match data
    case Obj(fields) =>
      var up := ApiContinentResponse(Get(fields, "continent"), net);
      if up.out.Done? && up.out.value.Arr? then
        var names := NamesOf(up.out.value.items);
        if names.Done? then
          Reply(s.(storage := SetCountries(s.storage, up.out.value.items)), names, up.sent)
        else
          Reply(s, Crashed, up.sent)
      else
        Reply(s, up.out, up.sent)
    case _ => Reply(s, Crashed, [])
  }

  /** `country_router` (`/province_response`): resolves the country against the
      cached country list; a list answer is projected and cached raw as the
      provinces, anything else is returned as is. The country cache is never
      written; `country_code` changes exactly as the country stage says, even
      when the request later aborts. */
  function CountryRouter(s: Session, data: Json, net: Net): (r: Reply)
    ensures !data.Obj? ==> r == Reply(s, Crashed, [])
    ensures r.session.storage.responseCountries == s.storage.responseCountries
    ensures data.Obj? ==>
              var st := ApiCountryResponse(s.countryCode, GetCountries(s.storage), Get(data.fields, "country"), net);
              var out := st.call.out;
              && r.sent == st.call.sent
              && r.session.countryCode == st.countryCode
              && (out.Done? && out.value.Arr? && AllHaveEnglishName(out.value.items) ==>
                    && r.out == Done(Arr(UnpackJsonResponse(out.value.items)))
                    && r.session.storage == SetProvinces(s.storage, out.value.items))
              && (out.Done? && out.value.Arr? && !AllHaveEnglishName(out.value.items) ==>
                    r.out == Crashed)
              && (!(out.Done? && out.value.Arr? && AllHaveEnglishName(out.value.items)) ==>
                    r.session.storage == s.storage)
              && (!(out.Done? && out.value.Arr?) ==> r.out == out)
  {
    match data
    case Obj(fields) =>
      var st := ApiCountryResponse(s.countryCode, GetCountries(s.storage), Get(fields, "country"), net);
      var s1 := s.(countryCode := st.countryCode);
      var out := st.call.out;
      if out.Done? && out.value.Arr? then
        var names := NamesOf(out.value.items);
        if names.Done? then
          Reply(s1.(storage := SetProvinces(s.storage, out.value.items)), names, st.call.sent)
        else
          Reply(s1, Crashed, st.call.sent)
      else
        Reply(s1, out, st.call.sent)
    case _ => Reply(s, Crashed, [])
  }

  /** An invalid region code reaches the client as the region-code error, with
      no request sent and no change to the session. */
  lemma InvalidRegionIsRejected(s: Session, data: map<string, Json>, net: Net)
    requires !IsValidRegionCode(Get(data, "continent"))
    ensures ContinentRouter(s, Obj(data), net)
         == Reply(s, Done(NotAValidRegionCode(Get(data, "continent"))), [])
  {
  }

  /** A valid region code's list answer is cached verbatim. */
  lemma ValidRegionListIsCached(s: Session, code: string, net: Net)
    requires code in ValidRegionCodes
    requires net(CountriesOf(code)).ok && net(CountriesOf(code)).body.Arr?
    requires AllHaveEnglishName(net(CountriesOf(code)).body.items)
    requires |net(CountriesOf(code)).body.items| > 0
    ensures var r := ContinentRouter(s, Obj(map["continent" := Str(code)]), net);
            GetCountries(r.session.storage) == Some(net(CountriesOf(code)).body.items)
  {
    assert Get(map["continent" := Str(code)], "continent") == Str(code);
  }

  /** Before any country has been resolved, a complete forecast request sends
      nothing and answers `None`: there is no code to search under. */
  lemma FreshSessionForecastIsSilent(period: string, data: map<string, Json>, net: Net)
    requires HasAllFields(data)
    ensures DisplayForecastRouter(NewSession(), period, Obj(data), net) == Reply(NewSession(), Done(Null), [])
  {
  }
}
