/**
 * The two checks applied to decoded feature data: the values must be a
 * non-empty numpy array, and non-empty labels must be a list or tuple with one
 * label per entry of the values' last dimension.
 */
module InputValidators {
  import opened Python

  const ValuesField := "features.values"
  const LabelsField := "features.labels"

  const MissingMessage := "Missing data for required field."
  const NotAnArrayMessage := "Not a valid numpy.array."
  const EmptyArrayMessage := "Empty numpy.array."
  const NotASequenceMessage := "Not a valid (tuple, list)."
  const ShapeMessage := "Not a valid shape (must match the values). The API expects the same number of labels "
    + "as the shape of the last dimension of the features (for more information, check the "
    + "documentation or the docstring for the predictors resources (resources.<predictor>)."

  /** `FeaturesValuesValidator.validate`: None, then the type, then emptiness. */
  function ValidateValues(values: Value): (r: Result<Value, Error>)
    ensures r.Ok? <==> values.PyArray? && 0 !in values.arr.shape
    ensures r.Ok? ==> r.value == values
    ensures values == PyNone ==> r == Err(Invalid(MissingMessage, ValuesField))
    ensures values != PyNone && !values.PyArray? ==> r == Err(Invalid(NotAnArrayMessage, ValuesField))
    ensures values.PyArray? && r.Err? ==> r == Err(Invalid(EmptyArrayMessage, ValuesField))
  {
    ProductZero(if values.PyArray? then values.arr.shape else []);
    if values == PyNone then Err(Invalid(MissingMessage, ValuesField))
    else if !values.PyArray? then Err(Invalid(NotAnArrayMessage, ValuesField))
    else if Product(values.arr.shape) == 0 then Err(Invalid(EmptyArrayMessage, ValuesField))
    else Ok(values)
  }

  /** `values.shape[-1]`, which raises for anything but an array of rank >= 1. */
  function LastDimension(values: Value): (r: Result<nat, Error>)
    ensures r.Ok? <==> values.PyArray? && |values.arr.shape| > 0
    ensures r.Ok? ==> r.value == values.arr.shape[|values.arr.shape| - 1]
    ensures !values.PyArray? ==> r == Err(NoAttribute(values, "shape"))
  {
    if !values.PyArray? then Err(NoAttribute(values, "shape"))
    else if values.arr.shape == [] then Err(IndexError("tuple index out of range"))
    else Ok(values.arr.shape[|values.arr.shape| - 1])
  }

  /** `FeaturesLabelsValidator.validate`: falsy labels pass untouched; others
      must be a list or tuple as long as the last dimension of the values. */
  function ValidateLabels(labels: Value, values: Value): (r: Result<Value, Error>)
    ensures r.Ok? ==> r.value == labels
    ensures Truth(labels) == Ok(false) ==> r == Ok(labels)
    ensures Truth(labels) == Ok(true) && !(labels.PyList? || labels.PyTuple?) ==>
              r == Err(Invalid(NotASequenceMessage, LabelsField))
    ensures Truth(labels) == Ok(true) && (labels.PyList? || labels.PyTuple?) && LastDimension(values).Ok? ==>
              (r.Ok? <==> |labels.items| == LastDimension(values).value)
    ensures r.Ok? <==>
              || Truth(labels) == Ok(false)
              || (&& Truth(labels) == Ok(true) && (labels.PyList? || labels.PyTuple?)
                  && LastDimension(values).Ok? && |labels.items| == LastDimension(values).value)
  {
    var truthy :- Truth(labels);
    if !truthy then Ok(labels)
    else if !(labels.PyList? || labels.PyTuple?) then Err(Invalid(NotASequenceMessage, LabelsField))
    else
      var last :- LastDimension(values);
      if |labels.items| != last then Err(Invalid(ShapeMessage, LabelsField))
      else Ok(labels)
  }

  /** The order of the value checks decides the message: a None is reported as
      missing even though it is not an array either. */
  lemma NoneIsMissingNotMistyped()
    ensures ValidateValues(PyNone) == Err(Invalid(MissingMessage, ValuesField))
    ensures ValidateValues(PyStr("[1]")).error.messages.message == NotAnArrayMessage
  {
  }

  /** A label list that fits the values passes, whatever the values' rank. */
  lemma LabelsMatchingLastDimensionPass(labels: seq<Value>, a: NdArray)
    requires |a.shape| > 0 && |labels| == a.shape[|a.shape| - 1]
    ensures ValidateLabels(PyList(labels), PyArray(a)) == Ok(PyList(labels))
    ensures ValidateLabels(PyTuple(labels), PyArray(a)) == Ok(PyTuple(labels))
  {
  }
}
