/**
  What the three "Add" forms share: the form state as a map from field
  name to the typed text, the required-field check, and the payload built
  by trimming every field (`Object.keys(formData).reduce(...)`).
*/
module Forms {
  import opened JsStrings

  type FormData = map<string, string>

  /** `!formData[field]`: an absent field reads `undefined`, and "" is falsy too. */
  predicate Blank(form: FormData, field: string) {
    field !in form || form[field] == ""
  }

  /** `formData[field]` as text, read once the required check has found the field present. */
  function Value(form: FormData, field: string): string {
    if field in form then form[field] else ""
  }

  /** Every required field holds a non-empty value: `missingFields.length` is zero. */
  predicate AllPresent(form: FormData, required: seq<string>) {
    forall i :: 0 <= i < |required| ==> !Blank(form, required[i])
  }

  /** `requiredFields.filter(field => !formData[field])`, in the order of `required`. */
  function MissingFields(form: FormData, required: seq<string>): (r: seq<string>)
    ensures |r| <= |required|
    ensures forall f :: f in r <==> f in required && Blank(form, f)
    ensures r == [] <==> AllPresent(form, required)
    decreases |required|
  {
    if required == [] then []
    else
      var rest := MissingFields(form, required[1..]);
      assert forall f :: f in required <==> f == required[0] || f in required[1..];
      assert forall i :: 1 <= i < |required| ==> required[i] == required[1..][i - 1];
      if Blank(form, required[0]) then [required[0]] + rest else rest
  }

  /** The trimmed payload: the same fields, each value with its edge whitespace removed. */
  function TrimAll(form: FormData): (r: FormData)
    ensures r.Keys == form.Keys
  {
    map k | k in form :: Trim(form[k])
  }

  /** The `reduce` over `Object.keys(formData)` that builds the trimmed payload. */
  method BuildTrimmedPayload(form: FormData) returns (payload: FormData)
    ensures payload == TrimAll(form)
  {
    payload := map[];
    var remaining := form.Keys;
    while remaining != {}
      invariant remaining <= form.Keys
      invariant payload.Keys == form.Keys - remaining
      invariant forall k :: k in payload ==> payload[k] == Trim(form[k])
      decreases remaining
    {
      var k :| k in remaining;
      payload := payload[k := Trim(form[k])];
      remaining := remaining - {k};
    }
  }

  /** No value of the payload starts or ends with whitespace. */
  lemma TrimAllClean(form: FormData)
    ensures forall k :: k in TrimAll(form) ==> NoEdgeWhitespace(TrimAll(form)[k])
  {
    forall k | k in TrimAll(form)
      ensures NoEdgeWhitespace(TrimAll(form)[k])
    {
      TrimSlice(form[k]);
    }
  }

  lemma SameEntries(a: FormData, b: FormData)
    requires a.Keys == b.Keys
    requires forall k :: k in a ==> a[k] == b[k]
    ensures a == b
  {
  }

  lemma TrimAllAt(form: FormData, k: string)
    requires k in form
    ensures TrimAll(form)[k] == Trim(form[k])
  {
  }

  /** Trimming a payload again changes nothing. */
  lemma TrimAllIdempotent(form: FormData)
    ensures TrimAll(TrimAll(form)) == TrimAll(form)
  {
    var once := TrimAll(form);
    var twice := TrimAll(once);
    forall k | k in once
      ensures twice[k] == once[k]
    {
      TrimAllAt(form, k);
      TrimAllAt(once, k);
      TrimIdempotent(form[k]);
    }
    SameEntries(twice, once);
  }

  /** A field that is all whitespace is sent as "". */
  lemma TrimAllBlankField(form: FormData, k: string)
    requires k in form && AllWhitespace(form[k])
    ensures TrimAll(form)[k] == ""
  {
    TrimEmptyIff(form[k]);
  }
}
