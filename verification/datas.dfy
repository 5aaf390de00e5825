/** The cache of the last country list and the last province list. */
module Datas {
  import opened Outcomes
  import opened Json

  /** The two stored provider responses; `None` until first written. */
  datatype Storage = Storage(responseCountries: Option<seq<Json>>, responseProvinces: Option<seq<Json>>)

  /** A list is returned only while it is stored and non-empty. */
  function TruthyList(v: Option<seq<Json>>): Option<seq<Json>> {
    if v.Some? && |v.value| > 0 then v else None
  }

  /** `Storage()`: nothing stored yet. */
  function NewStorage(): (s: Storage)
    ensures GetCountries(s) == None && GetProvinces(s) == None
  {
    Storage(None, None)
  }

  /** The stored country list, or `None` when nothing or an empty list is stored. */
  function GetCountries(s: Storage): (r: Option<seq<Json>>)
    ensures r.Some? ==> |r.value| > 0 && s.responseCountries == r
    ensures r.None? <==> s.responseCountries.None? || s.responseCountries.value == []
  {
    TruthyList(s.responseCountries)
  }

  /** Overwrites the country list and nothing else. */
  function SetCountries(s: Storage, v: seq<Json>): (r: Storage)
    ensures GetCountries(r) == if |v| > 0 then Some(v) else None
    ensures r.responseProvinces == s.responseProvinces
  {
    s.(responseCountries := Some(v))
  }

  /** The stored province list, or `None` when nothing or an empty list is stored. */
  function GetProvinces(s: Storage): (r: Option<seq<Json>>)
    ensures r.Some? ==> |r.value| > 0 && s.responseProvinces == r
    ensures r.None? <==> s.responseProvinces.None? || s.responseProvinces.value == []
  {
    TruthyList(s.responseProvinces)
  }

  /** Overwrites the province list and nothing else. */
  function SetProvinces(s: Storage, v: seq<Json>): (r: Storage)
    ensures GetProvinces(r) == if |v| > 0 then Some(v) else None
    ensures r.responseCountries == s.responseCountries
  {
    s.(responseProvinces := Some(v))
  }

  /** Of two country writes only the last one is visible. */
  lemma LastCountriesWriteWins(s: Storage, a: seq<Json>, b: seq<Json>)
    ensures SetCountries(SetCountries(s, a), b) == SetCountries(s, b)
  {
  }

  /** Of two province writes only the last one is visible. */
  lemma LastProvincesWriteWins(s: Storage, a: seq<Json>, b: seq<Json>)
    ensures SetProvinces(SetProvinces(s, a), b) == SetProvinces(s, b)
  {
  }

  /** Writes to the two lists do not interfere: their order does not matter. */
  lemma WritesCommute(s: Storage, c: seq<Json>, p: seq<Json>)
    ensures SetCountries(SetProvinces(s, p), c) == SetProvinces(SetCountries(s, c), p)
  {
  }
}
