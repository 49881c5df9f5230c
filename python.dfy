/**
 * The slice of the Python object model that the prediction service handles:
 * JSON-like values, numpy arrays (shape plus raw elements), the exceptions the
 * service raises or re-raises, Python truthiness and `str(exception)`.
 */
module Python {

  /** The usual success/failure carrier; `:-` propagates the failure. */
  datatype Result<+T, +E> = Ok(value: T) | Err(error: E) {
    predicate IsFailure() {
      Err?
    }

    function PropagateFailure<U>(): Result<U, E>
      requires Err?
    {
      Err(error)
    }

    function Extract(): T
      requires Ok?
    {
      value
    }
  }

  datatype Option<+T> = None | Some(value: T)

  /** A 64-bit IEEE 754 number kept as its bit pattern, so that equality is
      bitwise: a NaN equals itself and +0.0 differs from -0.0. */
  datatype Float64 = Float64(bits: bv64)

  const SignMask: bv64 := 0x7FFF_FFFF_FFFF_FFFF

  /** +0.0 and -0.0 are the only falsy floats (NaN is truthy). */
  predicate IsZero(f: Float64) {
    f.bits & SignMask == 0
  }

  /** One element of a numpy array: an integer or a double. */
  datatype Scalar = IntScalar(i: int) | FloatScalar(f: Float64)

  /** The number of elements an array of this shape holds (`ndarray.size`);
      the empty shape is a 0-d array with one element. */
  function Product(shape: seq<nat>): nat {
    if shape == [] then 1 else shape[0] * Product(shape[1..])
  }

  datatype ArrayData = ArrayData(shape: seq<nat>, elems: seq<Scalar>)

  /** A numpy.ndarray: a shape and its elements in row-major order. */
  type NdArray = a: ArrayData | |a.elems| == Product(a.shape)
    witness ArrayData([], [IntScalar(0)])

  /** A Python value as it reaches the service: decoded JSON, query arguments,
      a decoded numpy array, or some other object. Dict keys are strings. */
  datatype Value =
    | PyNone
    | PyBool(b: bool)
    | PyInt(i: int)
    | PyFloat(f: Float64)
    | PyStr(s: string)
    | PyList(items: seq<Value>)
    | PyTuple(items: seq<Value>)
    | PyDict(entries: map<string, Value>)
    | PyArray(arr: NdArray)
    | PyObject(typeName: string)

  /** An exception raised inside a library the model treats as opaque
      (json, json_tricks, joblib, the file system, the trained model). A
      werkzeug `HTTPException` is the separate case `HttpException` of
      `Error`: its class name, status code, `str` (werkzeug's
      `"<code> <name>: <description>"`) and the `data` dict webargs attaches
      to it. */
  datatype Raised = Raised(className: string, message: string)

  /** A text serialisation library (json or json_tricks) seen from outside:
      `dumps` turns a value into text, `loads` parses text, and either may raise. */
  datatype Codec = Codec(dumps: Value -> Result<string, Raised>, loads: string -> Result<Value, Raised>)

  /** One entry of a marshmallow error dictionary `{field: [message]}`. */
  datatype FieldError = FieldError(field: string, message: string)

  /** A marshmallow ValidationError either carries the message and field name it
      was raised with, or, once a schema has caught and normalised it, the
      dictionary of messages per field. */
  datatype Messages = Raw(message: string, field: string) | ByField(errors: seq<FieldError>)

  datatype Error =
    | ValidationError(messages: Messages)
    | RequestUnwrappingException(cause: string)
    | RequestWrappingException(cause: string)
    | ResponseUnwrappingException(cause: string)
    | ResponseWrappingException(cause: string)
    | DataUnwrappingException(cause: string)
    | DataWrappingException(cause: string)
    | NoLoadablePredictorException(message: string)
    | AttributeError(message: string)
    | IndexError(message: string)
    | ValueError(message: string)
    | Foreign(raised: Raised)
    | HttpException(httpName: string, code: int, text: string, data: map<string, Value>)

  /** `type(v).__name__` as it appears in Python's error messages. */
  function TypeName(v: Value): string {
    match v
    case PyNone => "NoneType"
    case PyBool(_) => "bool"
    case PyInt(_) => "int"
    case PyFloat(_) => "float"
    case PyStr(_) => "str"
    case PyList(_) => "list"
    case PyTuple(_) => "tuple"
    case PyDict(_) => "dict"
    case PyArray(_) => "numpy.ndarray"
    case PyObject(t) => t
  }

  /** The error Python raises when attribute `name` is looked up on `v`. */
  function NoAttribute(v: Value, name: string): Error {
    AttributeError("'" + TypeName(v) + "' object has no attribute '" + name + "'")
  }

  /** `e.__class__.__name__`. */
  function ClassName(e: Error): (r: string)
    ensures e.Foreign? ==> r == e.raised.className
    ensures e.HttpException? ==> r == e.httpName
    ensures e.ValidationError? ==> r == "ValidationError"
    ensures e.NoLoadablePredictorException? ==> r == "NoLoadablePredictorException"
  {
    match e
    case ValidationError(_) => "ValidationError"
    case RequestUnwrappingException(_) => "RequestUnwrappingException"
    case RequestWrappingException(_) => "RequestWrappingException"
    case ResponseUnwrappingException(_) => "ResponseUnwrappingException"
    case ResponseWrappingException(_) => "ResponseWrappingException"
    case DataUnwrappingException(_) => "DataUnwrappingException"
    case DataWrappingException(_) => "DataWrappingException"
    case NoLoadablePredictorException(_) => "NoLoadablePredictorException"
    case AttributeError(_) => "AttributeError"
    case IndexError(_) => "IndexError"
    case ValueError(_) => "ValueError"
    case Foreign(x) => x.className
    case HttpException(name, _, _, _) => name
  }

  /** The repr of a normalised marshmallow error dictionary,
      `{'field': ['message'], ...}`, entries in the order they were stored. */
  function ReprFieldErrors(errors: seq<FieldError>): string {
    if errors == [] then ""
    else
      var head := "'" + errors[0].field + "': ['" + errors[0].message + "']";
      if |errors| == 1 then head else head + ", " + ReprFieldErrors(errors[1..])
  }

  /** `str(e)`: an exception built as `X(message)` prints its message; a
      normalised validation error prints its dictionary. */
  function Str(e: Error): (r: string)
    ensures e.ValidationError? && e.messages.Raw? ==> r == e.messages.message
    ensures e.ValidationError? && e.messages.ByField? ==> |r| >= 2 && r[0] == '{' && r[|r| - 1] == '}'
    ensures e.Foreign? ==> r == e.raised.message
    ensures e.HttpException? ==> r == e.text
    ensures e.DataUnwrappingException? || e.DataWrappingException? ==> r == e.cause
  {
    match e
    case ValidationError(Raw(m, _)) => m
    case ValidationError(ByField(errs)) => "{" + ReprFieldErrors(errs) + "}"
    case RequestUnwrappingException(c) => c
    case RequestWrappingException(c) => c
    case ResponseUnwrappingException(c) => c
    case ResponseWrappingException(c) => c
    case DataUnwrappingException(c) => c
    case DataWrappingException(c) => c
    case NoLoadablePredictorException(m) => m
    case AttributeError(m) => m
    case IndexError(m) => m
    case ValueError(m) => m
    case Foreign(x) => x.message
    case HttpException(_, _, t, _) => t
  }

  /** `marshmallow.ValidationError(message, field)` as raised by the service. */
  function Invalid(message: string, field: string): Error {
    ValidationError(Raw(message, field))
  }

  /** What a marshmallow schema re-raises when a processor raised `e`:
      `{field: [message]}` for a validation error, anything else unchanged. */
  function Normalized(e: Error): (r: Error)
    ensures e.ValidationError? <==> r.ValidationError?
    ensures e.ValidationError? && e.messages.Raw? ==>
              r.messages == ByField([FieldError(e.messages.field, e.messages.message)])
    ensures !e.ValidationError? ==> r == e
  {
    match e
    case ValidationError(Raw(m, f)) => ValidationError(ByField([FieldError(f, m)]))
    case _ => e
  }

  function ScalarTruth(x: Scalar): bool {
    match x
    case IntScalar(i) => i != 0
    case FloatScalar(f) => !IsZero(f)
  }

  const AmbiguousTruth := "The truth value of an array with more than one element is ambiguous. Use a.any() or a.all()"

  /** `bool(v)`. Only a numpy array with more than one element refuses to
      answer, by raising ValueError. */
  function Truth(v: Value): (r: Result<bool, Error>)
    ensures r.Err? <==> v.PyArray? && Product(v.arr.shape) > 1
    ensures r.Err? ==> r.error.ValueError?
    ensures v == PyNone ==> r == Ok(false)
    ensures v.PyStr? ==> r == Ok(v.s != "")
    ensures v.PyList? || v.PyTuple? ==> r == Ok(|v.items| > 0)
    ensures v.PyDict? ==> r == Ok(|v.entries| > 0)
  {
    match v
    case PyNone => Ok(false)
    case PyBool(b) => Ok(b)
    case PyInt(i) => Ok(i != 0)
    case PyFloat(f) => Ok(!IsZero(f))
    case PyStr(s) => Ok(s != "")
    case PyList(items) => Ok(|items| > 0)
    case PyTuple(items) => Ok(|items| > 0)
    case PyDict(m) => Ok(|m| > 0)
    case PyArray(a) =>
      var n := Product(a.shape);
      if n == 0 then Ok(false)
      else if n == 1 then Ok(ScalarTruth(a.elems[0]))
      else Err(ValueError(AmbiguousTruth))
    case PyObject(_) => Ok(true)
  }

  /** An HTTP response as Flask sends it: the body (JSON text as a string, or
      a value Flask serialises), the status, the mimetype and extra headers. */
  datatype Response = Response(body: Value, status: int, mimetype: string, headers: Option<Value>)

  const JsonMimetype := "application/json"

  /** `d.get(key, default)`. */
  function Get(m: map<string, Value>, key: string, default: Value): (r: Value)
    ensures key in m ==> r == m[key]
    ensures key !in m ==> r == default
  {
    if key in m then m[key] else default
  }

  /** An array is empty (`size == 0`) exactly when one of its dimensions is 0. */
  lemma {:induction false} ProductZero(shape: seq<nat>)
    ensures Product(shape) == 0 <==> 0 in shape
  {
    if shape != [] {
      ProductZero(shape[1..]);
      assert shape == [shape[0]] + shape[1..];
    }
  }
}
