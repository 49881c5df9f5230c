/**
 * The output interface: `Predictions` holds what the predictor returned, and
 * dumping it through `PredictionsSchema` checks that it is a numpy array,
 * encodes it with json_tricks and writes the encoded text back into the
 * object, so that the object can be dumped only once.
 */
module Outputs {
  import opened Python
  import opened DataWrapper

  const PredictedField := "predicted.values"
  const PredictedKey := "predicted"

  const MissingMessage := "Missing data for required field."
  const NotAnArrayMessage := "Not a valid numpy.array."

  /** `PredictedValuesValidator.validate`: None, then the type; any array,
      empty or not, passes unchanged. */
  function ValidatePredicted(values: Value): (r: Result<Value, Error>)
    ensures r.Ok? <==> values.PyArray?
    ensures r.Ok? ==> r.value == values
    ensures values == PyNone ==> r == Err(Invalid(MissingMessage, PredictedField))
    ensures values != PyNone && !values.PyArray? ==> r == Err(Invalid(NotAnArrayMessage, PredictedField))
  {
    if values == PyNone then Err(Invalid(MissingMessage, PredictedField))
    else if !values.PyArray? then Err(Invalid(NotAnArrayMessage, PredictedField))
    else Ok(values)
  }

  /** `PredictionsSchema._pre_dump` on an object holding `predicted`: the
      encoded text, which is both the new value of the field and the only
      entry of the dumped dict. The error is raised as is: a dump does not
      normalise it. */
  function Encoded(predicted: Value, tricks: Codec): (r: Result<string, Error>)
    ensures r.Ok? <==> predicted.PyArray? && tricks.dumps(predicted).Ok?
    ensures r.Ok? ==> r.value == tricks.dumps(predicted).value
    ensures !predicted.PyArray? ==> r == Err(Invalid(NotAnArrayMessage, PredictedField))
    ensures predicted.PyArray? && r.Err? ==> r == Err(DataWrappingException(tricks.dumps(predicted).error.message))
  {
    if !predicted.PyArray? then Err(Invalid(NotAnArrayMessage, PredictedField))
    else
      // The validator cannot fail on an array; it is called for its result.
      var checked := ValidatePredicted(predicted).value;
      var wrapped :- WrapData(checked, tricks);
      Ok(wrapped.s)
  }

  /** The dict `to_response` returns for encoded text. */
  function Dumped(text: string): (d: Value)
    ensures d.PyDict? && d.entries.Keys == {PredictedKey} && d.entries[PredictedKey] == PyStr(text)
  {
    PyDict(map[PredictedKey := PyStr(text)])
  }

  /** `Predictions`: the output object, whose field the dump overwrites. */
  class Predictions {
    var predicted: Value

    /** `Predictions(predicted)` stores its argument unchanged. */
    constructor(predicted: Value)
      ensures this.predicted == predicted
    {
      this.predicted := predicted;
    }

    /** `Predictions.to_response`: the schema dump. On success the field now
        holds the encoded text; on failure it is left as it was. */
    method ToResponse(tricks: Codec) returns (r: Result<Value, Error>)
      modifies this
      ensures Encoded(old(predicted), tricks).Ok? ==>
                r == Ok(Dumped(Encoded(old(predicted), tricks).value))
                && predicted == PyStr(Encoded(old(predicted), tricks).value)
      ensures Encoded(old(predicted), tricks).Err? ==>
                r == Err(Encoded(old(predicted), tricks).error) && predicted == old(predicted)
    {
      if !predicted.PyArray? {
        return Err(Invalid(NotAnArrayMessage, PredictedField));
      }
      var checked := ValidatePredicted(predicted);
      var wrapped := WrapData(checked.value, tricks);
      if wrapped.Err? {
        return Err(wrapped.error);
      }
      predicted := wrapped.value;
      r := Ok(Dumped(predicted.s));
    }
  }

  /** Dumping twice: the first dump leaves text in the field, which the second
      refuses as not an array. */
  lemma SecondDumpFails(predicted: Value, tricks: Codec)
    requires Encoded(predicted, tricks).Ok?
    ensures Encoded(PyStr(Encoded(predicted, tricks).value), tricks)
            == Err(Invalid(NotAnArrayMessage, PredictedField))
  {
  }

  /** Whatever array the predictor returned, including one with NaN or
      infinite elements or no elements at all, is dumped, and its text decodes
      to that array with its NaNs made quiet. */
  lemma EveryArrayDumps(a: NdArray, tricks: Codec)
    requires FaithfulForArrays(tricks)
    ensures Encoded(PyArray(a), tricks).Ok?
    ensures UnwrapData(Dumped(Encoded(PyArray(a), tricks).value).entries[PredictedKey], tricks)
            == Ok(PyArray(ReadBackArray(a)))
  {
    ArrayRoundTrip(a, tricks);
  }

  /** What a caller sees when it dumps the same object twice. */
  method DumpTwice(predicted: Value, tricks: Codec) returns (first: Result<Value, Error>, second: Result<Value, Error>)
    ensures first == (if Encoded(predicted, tricks).Ok? then Ok(Dumped(Encoded(predicted, tricks).value))
                      else Err(Encoded(predicted, tricks).error))
    ensures first.Ok? ==> second == Err(Invalid(NotAnArrayMessage, PredictedField))
    ensures first.Err? ==> second == first
  {
    var p := new Predictions(predicted);
    first := p.ToResponse(tricks);
    second := p.ToResponse(tricks);
  }
}
