/**
 * ResponseWrapper: JSON text to and from response values, and the rendering
 * of an exception as `"<ClassName>: <message>"`.
 */
module ResponseWrapper {
  import opened Python

  /** `ResponseWrapper.unwrap_response`: parse a string, pass anything else through. */
  function UnwrapResponse(response: Value, json: Codec): (r: Result<Value, Error>)
    ensures !response.PyStr? ==> r == Ok(response)
    ensures response.PyStr? ==> (r.Ok? <==> json.loads(response.s).Ok?)
    ensures response.PyStr? && r.Ok? ==> r.value == json.loads(response.s).value
    ensures r.Err? ==> r.error == ResponseUnwrappingException(json.loads(response.s).error.message)
  {
    if response.PyStr? then
      match json.loads(response.s)
      case Ok(v) => Ok(v)
      case Err(x) => Err(ResponseUnwrappingException(x.message))
    else Ok(response)
  }

  /** `ResponseWrapper.wrap_response`: JSON text for a non-string, a string as is. */
  function WrapResponse(response: Value, json: Codec): (r: Result<Value, Error>)
    ensures response.PyStr? ==> r == Ok(response)
    ensures r.Ok? ==> r.value.PyStr?
    ensures !response.PyStr? ==> (r.Ok? <==> json.dumps(response).Ok?)
    ensures !response.PyStr? && r.Ok? ==> r.value == PyStr(json.dumps(response).value)
    ensures r.Err? ==> r.error == ResponseWrappingException(json.dumps(response).error.message)
  {
    if response.PyStr? then Ok(response)
    else
      match json.dumps(response)
      case Ok(s) => Ok(PyStr(s))
      case Err(x) => Err(ResponseWrappingException(x.message))
  }

  lemma WrapResponseIdempotent(response: Value, json: Codec)
    requires WrapResponse(response, json).Ok?
    ensures WrapResponse(WrapResponse(response, json).value, json) == WrapResponse(response, json)
  {
  }

  /** `HttpErrorWrapper(e)`: holds the exception it was built with. */
  datatype HttpErrorWrapper = HttpErrorWrapper(e: Error) {
    /** `str(wrapper)`. */
    function ToString(): (text: string)
      ensures |text| == |ClassName(e)| + 2 + |Str(e)|
      ensures text[..|ClassName(e)|] == ClassName(e) && text[|ClassName(e)|..|ClassName(e)| + 2] == ": "
      ensures text[|ClassName(e)| + 2..] == Str(e)
    {
      ClassName(e) + ": " + Str(e)
    }
  }

  /** Everything before the first `": "`, and everything after it. */
  function SplitAtSeparator(s: string): (string, string) {
    if |s| < 2 then (s, "")
    else if s[..2] == ": " then ("", s[2..])
    else
      var rest := SplitAtSeparator(s[1..]);
      (s[..1] + rest.0, rest.1)
  }

  /** The rendering can be read back: the text splits at its first `": "` into
      the class name and `str(e)`, for every class name without a colon. */
  lemma {:induction false} ErrorTextSplits(w: HttpErrorWrapper)
    requires ':' !in ClassName(w.e)
    ensures SplitAtSeparator(w.ToString()) == (ClassName(w.e), Str(w.e))
  {
    SplitPrefix(ClassName(w.e), Str(w.e));
  }

  lemma {:induction false} SplitPrefix(name: string, rest: string)
    requires ':' !in name
    ensures SplitAtSeparator(name + ": " + rest) == (name, rest)
  {
    var s := name + ": " + rest;
    if name == [] {
      assert s[..2] == ": ";
      assert s[2..] == rest;
    } else {
      assert s[0] == name[0] && s[0] != ':';
      assert s[..2] != ": ";
      assert s[1..] == name[1..] + ": " + rest;
      SplitPrefix(name[1..], rest);
      assert s[..1] + name[1..] == name;
    }
  }
}
