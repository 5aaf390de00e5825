/** The uniform error payloads the backend answers with. */
module ErrorMessage {
  import opened Outcomes
  import opened Json

  const ValueErrorKey := "ValueError"
  const RegionCodeKey := "Region_Code"
  const InvalidRegionText := "Region code is not valid"
  const ApiErrorKey := "ACCUWEATHER_ERROR_RESPONSE"
  const NestedErrorKey := "error"
  /** The provider's trace field, never passed on to the client. */
  const TraceKey := "Reference"
  const InputErrorKey := "InputError"
  const MissingDataText := "continent, or country or province data is missing"

  /** The payload for a region code outside the accepted list; it echoes the code. */
  function NotAValidRegionCode(code: Json): (r: Json)
    ensures r.Obj? && r.fields.Keys == {ValueErrorKey, RegionCodeKey}
    ensures r.fields[RegionCodeKey] == code
    ensures r.fields[ValueErrorKey] == Str(InvalidRegionText)
    ensures Truthy(r) && !IsApiError(r)
  {
    Obj(map[ValueErrorKey := Str(InvalidRegionText), RegionCodeKey := code])
  }

  /** The provider's error body with its `Reference` entry dropped. */
  function WithoutReference(m: map<string, Json>): (r: map<string, Json>)
    ensures TraceKey !in r
    ensures forall k :: k in r <==> k in m && k != TraceKey
    ensures forall k :: k in r ==> r[k] == m[k]
  {
    map k | k in m && k != TraceKey :: m[k]
  }

  /** Dropping the trace field a second time changes nothing. */
  lemma WithoutReferenceIdempotent(m: map<string, Json>)
    ensures WithoutReference(WithoutReference(m)) == WithoutReference(m)
  {
  }

  /** A body without a trace field passes through unchanged. */
  lemma WithoutReferenceKeepsCleanBody(m: map<string, Json>)
    requires TraceKey !in m
    ensures WithoutReference(m) == m
  {
  }

  /** Recognises the envelope `{ACCUWEATHER_ERROR_RESPONSE: {error: {...}}}`. */
  predicate IsApiError(j: Json) {
    && j.Obj?
    && j.fields.Keys == {ApiErrorKey}
    && j.fields[ApiErrorKey].Obj?
    && j.fields[ApiErrorKey].fields.Keys == {NestedErrorKey}
    && j.fields[ApiErrorKey].fields[NestedErrorKey].Obj?
  }

  /** The provider body carried inside an error envelope. */
  function ApiErrorBody(j: Json): map<string, Json>
    requires IsApiError(j)
  {
    j.fields[ApiErrorKey].fields[NestedErrorKey].fields
  }

  /** Wraps a failed response's body. `response.json().items()` raises unless the
      body is a dict, so any other body aborts the request. */
  function ReturnErrorFromApi(body: Json): (r: Outcome<Json>)
    ensures r.Done? <==> body.Obj?
    ensures r.Done? ==> IsApiError(r.value)
    ensures r.Done? ==> ApiErrorBody(r.value) == WithoutReference(body.fields)
    ensures r.Done? ==> TraceKey !in ApiErrorBody(r.value)
  {
    match body
    case Obj(m) => Done(Obj(map[ApiErrorKey := Obj(map[NestedErrorKey := Obj(WithoutReference(m))])]))
    case _ => Crashed
  }

  /** Every error envelope is a non-empty dict, so Python treats it as true. */
  lemma ApiErrorIsTruthy(j: Json)
    requires IsApiError(j)
    ensures Truthy(j)
  {
    assert ApiErrorKey in j.fields;
  }

  /** The payload for a forecast request missing one of its three fields. */
  function MissingDatas(): (r: Json)
    ensures r.Obj? && r.fields.Keys == {InputErrorKey}
    ensures r.fields[InputErrorKey] == Str(MissingDataText)
    ensures !IsApiError(r)
  {
    Obj(map[InputErrorKey := Str(MissingDataText)])
  }
}
