/** removeEmptyParams of src/utils/clean.ts: a copy of a parameter record without
    the entries whose value is the empty string, null, undefined or an empty array. */
module Clean {

  /** The JavaScript values a parameter record holds. Non-array objects are opaque. */
  datatype Value = Str(s: string) | Num(n: int) | Bool(b: bool) | Null | Undefined | Arr(items: seq<Value>) | Obj

  /** The four values the filter drops. */
  function IsEmptyValue(v: Value): (r: bool)
    ensures v.Num? || v.Bool? || v.Obj? ==> !r
    ensures v.Str? ==> (r <==> v.s == "")
    ensures v.Arr? ==> (r <==> v.items == [])
    ensures v.Null? || v.Undefined? ==> r
  {
    v == Str("") || v.Null? || v.Undefined? || (v.Arr? && |v.items| == 0)
  }

  /** The specification of the copy. */
  function Cleaned(params: map<string, Value>): (r: map<string, Value>)
    ensures r.Keys <= params.Keys
    ensures forall k :: k in r ==> r[k] == params[k] && !IsEmptyValue(r[k])
  {
    map k | k in params && !IsEmptyValue(params[k]) :: params[k]
  }

  /** The `for...in` loop, which copies the non-empty entries one key at a time. */
  method RemoveEmptyParams(params: map<string, Value>) returns (cleaned: map<string, Value>)
    ensures cleaned == Cleaned(params)
  {
    cleaned := map[];
    var remaining := params.Keys;
    while remaining != {}
      invariant remaining <= params.Keys
      invariant forall k :: k in cleaned <==> k in params && k !in remaining && !IsEmptyValue(params[k])
      invariant forall k :: k in cleaned ==> cleaned[k] == params[k]
      decreases |remaining|
    {
      var key :| key in remaining;
      var value := params[key];
      if !IsEmptyValue(value) {
        cleaned := cleaned[key := value];
      }
      remaining := remaining - {key};
    }
    assert cleaned.Keys == Cleaned(params).Keys;
  }

  /** An entry survives exactly when its value is not one of the four empty values. */
  lemma KeptIff(params: map<string, Value>, k: string)
    requires k in params
    ensures k in Cleaned(params) <==> !IsEmptyValue(params[k])
  {
  }

  /** Falsy values other than the four, and non-empty arrays, are kept as they are. */
  lemma KeepsZeroFalseAndNonEmptyArrays(params: map<string, Value>, k: string)
    requires k in params
    requires params[k] == Num(0) || params[k] == Bool(false) || (params[k].Arr? && |params[k].items| > 0)
    ensures k in Cleaned(params) && Cleaned(params)[k] == params[k]
  {
  }

  /** A record with nothing empty in it is returned as it is. */
  lemma NothingEmptyIsFixedPoint(params: map<string, Value>)
    requires forall k :: k in params ==> !IsEmptyValue(params[k])
    ensures Cleaned(params) == params
  {
    assert Cleaned(params).Keys == params.Keys;
  }

  /** Cleaning a cleaned record changes nothing. */
  lemma CleanedIdempotent(params: map<string, Value>)
    ensures Cleaned(Cleaned(params)) == Cleaned(params)
  {
    NothingEmptyIsFixedPoint(Cleaned(params));
  }
}
