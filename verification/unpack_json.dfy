/** The projection of provider records onto their English names. */
module UnpackJson {
  import opened Json

  const TargetKey := "EnglishName"

  /** `items["EnglishName"]` succeeds only on a dict holding that key. */
  predicate HasEnglishName(j: Json) {
    j.Obj? && TargetKey in j.fields
  }

  predicate AllHaveEnglishName(items: seq<Json>) {
    forall i :: 0 <= i < |items| ==> HasEnglishName(items[i])
  }

  /** The English name of every record, in the order of the records. */
  function UnpackJsonResponse(records: seq<Json>): (names: seq<Json>)
    requires AllHaveEnglishName(records)
    ensures |names| == |records|
    ensures forall i :: 0 <= i < |records| ==> names[i] == records[i].fields[TargetKey]
  {
    if |records| == 0 then []
    else [records[0].fields[TargetKey]] + UnpackJsonResponse(records[1..])
  }

  /** Projecting a concatenation is concatenating the projections. */
  lemma {:induction false} UnpackConcat(a: seq<Json>, b: seq<Json>)
    requires AllHaveEnglishName(a) && AllHaveEnglishName(b)
    ensures AllHaveEnglishName(a + b)
    ensures UnpackJsonResponse(a + b) == UnpackJsonResponse(a) + UnpackJsonResponse(b)
  {
    assert AllHaveEnglishName(a + b) by {
      forall i | 0 <= i < |a + b|
        ensures HasEnglishName((a + b)[i])
      {
        if i < |a| { assert (a + b)[i] == a[i]; } else { assert (a + b)[i] == b[i - |a|]; }
      }
    }
    if |a| == 0 {
      assert a + b == b;
    } else {
      assert (a + b)[1..] == a[1..] + b;
      assert AllHaveEnglishName(a[1..]);
      UnpackConcat(a[1..], b);
      assert UnpackJsonResponse(a + b)
          == [a[0].fields[TargetKey]] + UnpackJsonResponse(a[1..] + b);
    }
  }
}
