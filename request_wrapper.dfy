/**
 * RequestWrapper: an incoming Flask request to the Python value it carries,
 * and a value to JSON text.
 */
module RequestWrapper {
  import opened Python

  /** The parts of a Flask request the wrapper looks at: the HTTP method, the
      query arguments, what `request.get_json()` returns or raises, and the raw
      body `request.data`. */
  datatype HttpRequest = HttpRequest(
    verb: string,
    args: map<string, string>,
    getJson: Result<Value, Raised>,
    data: string)

  /** `request.args` as a dictionary of strings. */
  function ArgsValue(args: map<string, string>): (r: Value)
    ensures r.PyDict? && r.entries.Keys == args.Keys
    ensures forall k :: k in args ==> r.entries[k] == PyStr(args[k])
  {
    PyDict(map k | k in args :: PyStr(args[k]))
  }

  /** `RequestWrapper.unwrap_request`: the query arguments of a GET; otherwise
      `get_json()` when that is truthy, else `json.loads(request.data)`. */
  function UnwrapRequest(request: HttpRequest, json: Codec): (r: Result<Value, Error>)
    ensures r.Err? ==> r.error.RequestUnwrappingException?
  {
    if request.verb == "GET" then Ok(ArgsValue(request.args))
    else
      match request.getJson
      case Err(x) => Err(RequestUnwrappingException(x.message))
      case Ok(body) =>
        match Truth(body)
        case Err(e) => Err(RequestUnwrappingException(Str(e)))
        case Ok(truthy) =>
          if truthy then Ok(body)
          else
            match json.loads(request.data)
            case Ok(v) => Ok(v)
            case Err(x) => Err(RequestUnwrappingException(x.message))
  }

  /** A GET request unwraps to its query arguments: its body, parsed or raw,
      is never read, so two GETs with the same arguments unwrap alike. */
  lemma GetReadsOnlyArgs(r1: HttpRequest, r2: HttpRequest, json: Codec)
    requires r1.verb == "GET" && r2.verb == "GET" && r1.args == r2.args
    ensures UnwrapRequest(r1, json) == UnwrapRequest(r2, json) == Ok(ArgsValue(r1.args))
  {
  }

  /** For any other method a truthy `get_json()` wins and the raw body is not
      parsed; a falsy one falls back to parsing the raw body. */
  lemma NonGetBodyChoice(request: HttpRequest, json: Codec)
    requires request.verb != "GET" && request.getJson.Ok?
    requires Truth(request.getJson.value).Ok?
    ensures Truth(request.getJson.value).value ==> UnwrapRequest(request, json) == Ok(request.getJson.value)
    ensures !Truth(request.getJson.value).value ==>
              (UnwrapRequest(request, json).Ok? <==> json.loads(request.data).Ok?)
    ensures !Truth(request.getJson.value).value && json.loads(request.data).Ok? ==>
              UnwrapRequest(request, json) == Ok(json.loads(request.data).value)
  {
  }

  /** `RequestWrapper.wrap_request`: JSON text for a non-string, a string as is. */
  function WrapRequest(request: Value, json: Codec): (r: Result<Value, Error>)
    ensures request.PyStr? ==> r == Ok(request)
    ensures r.Ok? ==> r.value.PyStr?
    ensures !request.PyStr? ==> (r.Ok? <==> json.dumps(request).Ok?)
    ensures r.Err? ==> r.error == RequestWrappingException(json.dumps(request).error.message)
  {
    if request.PyStr? then Ok(request)
    else
      match json.dumps(request)
      case Ok(s) => Ok(PyStr(s))
      case Err(x) => Err(RequestWrappingException(x.message))
  }

  lemma WrapRequestIdempotent(request: Value, json: Codec)
    requires WrapRequest(request, json).Ok?
    ensures WrapRequest(WrapRequest(request, json).value, json) == WrapRequest(request, json)
  {
  }
}
