/**
 * The marshmallow schemas of the input interface. `FeaturesSchema` unwraps the
 * `features` object, loads its `values` (a required string) and `labels` (a
 * list of strings, `[]` when absent), then decodes and validates them;
 * `PredictorModelSchema` loads the required `model` string. Unknown keys are
 * excluded by both.
 */
module InputSchema {
  import opened Python
  import opened DataWrapper
  import opened InputValidators

  const FeaturesField := "features"
  const ValuesKey := "values"
  const LabelsKey := "labels"
  const ModelKey := "model"

  const FieldMissing := "Missing data for required field."
  const FieldNull := "Field may not be null."
  const NotAString := "Not a valid string."
  const NotAList := "Not a valid list."
  const NotADict := "Not a valid dict."
  const InvalidInputType := "Invalid input type."

  /** `FeaturesSchema._pre_load`: `features` must be truthy, then a dict; the
      load goes on with that inner dict. */
  function PreLoad(data: Value): (r: Result<map<string, Value>, Error>)
    ensures !data.PyDict? ==> r == Err(NoAttribute(data, "get"))
    ensures data.PyDict? && Truth(Get(data.entries, FeaturesField, PyNone)) == Ok(false) ==>
              r == Err(Invalid(FieldMissing, FeaturesField))
    ensures data.PyDict? && Truth(Get(data.entries, FeaturesField, PyNone)) == Ok(true)
            && !Get(data.entries, FeaturesField, PyNone).PyDict? ==>
              r == Err(Invalid(NotADict, FeaturesField))
    ensures r.Ok? <==> data.PyDict? && FeaturesField in data.entries
                       && data.entries[FeaturesField].PyDict? && |data.entries[FeaturesField].entries| > 0
    ensures r.Ok? ==> r.value == data.entries[FeaturesField].entries
  {
    if !data.PyDict? then Err(NoAttribute(data, "get"))
    else
      var features := Get(data.entries, FeaturesField, PyNone);
      var truthy :- Truth(features);
      if !truthy then Err(Invalid(FieldMissing, FeaturesField))
      else if !features.PyDict? then Err(Invalid(NotADict, FeaturesField))
      else Ok(features.entries)
  }

  /** A required `fields.Str`: present, not None, a string. */
  function StringField(m: map<string, Value>, name: string): (r: Result<string, FieldError>)
    ensures r.Ok? <==> name in m && m[name].PyStr?
    ensures r.Ok? ==> r.value == m[name].s
    ensures r.Err? ==> r.error.field == name
    ensures name !in m ==> r == Err(FieldError(name, FieldMissing))
  {
    if name !in m then Err(FieldError(name, FieldMissing))
    else match m[name]
      case PyNone => Err(FieldError(name, FieldNull))
      case PyStr(s) => Ok(s)
      case _ => Err(FieldError(name, NotAString))
  }

  /** The index of the first item that is not a string, if any. */
  function FirstNonString(items: seq<Value>): (r: Option<nat>)
    ensures r.None? <==> forall i :: 0 <= i < |items| ==> items[i].PyStr?
    ensures r.Some? ==> r.value < |items| && !items[r.value].PyStr?
    ensures r.Some? ==> forall i :: 0 <= i < r.value ==> items[i].PyStr?
  {
    if items == [] then None
    else if !items[0].PyStr? then Some(0)
    else match FirstNonString(items[1..])
      case None => None
      case Some(i) => Some(i + 1)
  }

  /** `fields.List(fields.String, missing=[])`: absent means `[]`; otherwise a
      list or tuple of strings, loaded as a list. */
  function LabelsFieldValue(m: map<string, Value>): (r: Result<Value, FieldError>)
    ensures LabelsKey !in m ==> r == Ok(PyList([]))
    ensures r.Ok? ==> r.value.PyList? && forall i :: 0 <= i < |r.value.items| ==> r.value.items[i].PyStr?
    ensures LabelsKey in m && (m[LabelsKey].PyList? || m[LabelsKey].PyTuple?) && r.Ok? ==>
              r.value.items == m[LabelsKey].items
    ensures r.Err? ==> r.error.field == LabelsKey
  {
    if LabelsKey !in m then Ok(PyList([]))
    else match m[LabelsKey]
      case PyNone => Err(FieldError(LabelsKey, FieldNull))
      case PyList(items) => ItemsAsLabels(items)
      case PyTuple(items) => ItemsAsLabels(items)
      case _ => Err(FieldError(LabelsKey, NotAList))
  }

  function ItemsAsLabels(items: seq<Value>): (r: Result<Value, FieldError>)
    ensures r.Ok? <==> forall i :: 0 <= i < |items| ==> items[i].PyStr?
    ensures r.Ok? ==> r.value == PyList(items)
    ensures r.Err? ==> r.error.field == LabelsKey
  {
    match FirstNonString(items)
    case None => Ok(PyList(items))
    case Some(i) =>
      Err(FieldError(LabelsKey, if items[i] == PyNone then FieldNull else NotAString))
  }

  /** The field pass over the inner dict: every declared field is loaded and
      the errors of all failing fields are reported together, `values` first. */
  function LoadFields(m: map<string, Value>): (r: Result<(string, Value), Error>)
    ensures r.Ok? <==> StringField(m, ValuesKey).Ok? && LabelsFieldValue(m).Ok?
    ensures r.Ok? ==> r.value == (StringField(m, ValuesKey).value, LabelsFieldValue(m).value)
    ensures r.Err? ==> r.error.ValidationError? && r.error.messages.ByField?
    ensures r.Err? ==> |r.error.messages.errors| in {1, 2}
    ensures r.Err? && StringField(m, ValuesKey).Err? ==>
              r.error.messages.errors[0] == StringField(m, ValuesKey).error
  {
    match (StringField(m, ValuesKey), LabelsFieldValue(m))
    case (Ok(v), Ok(l)) => Ok((v, l))
    case (Err(e), Ok(_)) => Err(ValidationError(ByField([e])))
    case (Ok(_), Err(e)) => Err(ValidationError(ByField([e])))
    case (Err(e1), Err(e2)) => Err(ValidationError(ByField([e1, e2])))
  }

  /** `labels or []`, for labels whose truth value is defined. */
  function LabelsOrEmpty(labels: Value): (r: Value)
    ensures Truth(labels) == Ok(true) ==> r == labels
    ensures Truth(labels) == Ok(false) ==> r == PyList([])
  {
    if Truth(labels) == Ok(true) then labels else PyList([])
  }

  /** `FeaturesSchema._post_load`: decode the values, replace falsy labels by
      `[]`, validate the values, then validate the labels against them. */
  function PostLoad(values: string, labels: Value, tricks: Codec): (r: Result<Value, Error>)
    ensures r.Ok? <==>
              && tricks.loads(values).Ok? && Truth(labels).Ok?
              && ValidateValues(tricks.loads(values).value).Ok?
              && ValidateLabels(LabelsOrEmpty(labels), tricks.loads(values).value).Ok?
    ensures r.Ok? ==> r.value.PyDict? && r.value.entries.Keys == {ValuesKey, LabelsKey}
    ensures r.Ok? ==> r.value.entries[ValuesKey] == tricks.loads(values).value
    ensures r.Ok? ==> r.value.entries[LabelsKey] == LabelsOrEmpty(labels)
    ensures tricks.loads(values).Err? ==>
              r == Err(DataUnwrappingException(tricks.loads(values).error.message))
    ensures tricks.loads(values).Ok? && Truth(labels).Ok? && ValidateValues(tricks.loads(values).value).Err? ==>
              r == ValidateValues(tricks.loads(values).value)
  {
    var decoded :- UnwrapData(PyStr(values), tricks);
    var truthy :- Truth(labels);
    var labels := if truthy then labels else PyList([]);
    var checked :- ValidateValues(decoded);
    var labelled :- ValidateLabels(labels, checked);
    Ok(PyDict(map[ValuesKey := checked, LabelsKey := labelled]))
  }

  /** `FeaturesSchema().load(request)`: the pre-load step, the field pass, the
      post-load step. A validation error raised by either processor is
      re-raised as `{field: [message]}`; any other exception passes as is. */
  function LoadFeatures(request: Value, tricks: Codec): (r: Result<Value, Error>)
    ensures r.Ok? ==> r.value.PyDict? && r.value.entries.Keys == {ValuesKey, LabelsKey}
    ensures PreLoad(request).Err? ==> r == Err(Normalized(PreLoad(request).error))
    ensures PreLoad(request).Ok? && LoadFields(PreLoad(request).value).Err? ==>
              r == Err(LoadFields(PreLoad(request).value).error)
    ensures PreLoad(request).Ok? && LoadFields(PreLoad(request).value).Ok? ==>
              var fields := LoadFields(PreLoad(request).value).value;
              r == Normalize(PostLoad(fields.0, fields.1, tricks))
    ensures r.Err? && r.error.ValidationError? ==> r.error.messages.ByField?
  {
    var inner :- Normalize(PreLoad(request));
    var fields :- LoadFields(inner);
    Normalize(PostLoad(fields.0, fields.1, tricks))
  }

  function Normalize<T>(r: Result<T, Error>): (n: Result<T, Error>)
    ensures r.Ok? ==> n == r
    ensures r.Err? ==> n == Err(Normalized(r.error))
  {
    match r
    case Ok(v) => Ok(v)
    case Err(e) => Err(Normalized(e))
  }

  /** `PredictorModelSchema().load(request)`: a dict with a `model` string. */
  function LoadModel(request: Value): (r: Result<string, Error>)
    ensures !request.PyDict? ==> r == Err(ValidationError(ByField([FieldError("_schema", InvalidInputType)])))
    ensures r.Ok? <==> request.PyDict? && ModelKey in request.entries && request.entries[ModelKey].PyStr?
    ensures r.Ok? ==> r.value == request.entries[ModelKey].s
    ensures r.Err? ==> r.error.ValidationError? && r.error.messages.ByField?
  {
    if !request.PyDict? then Err(ValidationError(ByField([FieldError("_schema", InvalidInputType)])))
    else match StringField(request.entries, ModelKey)
      case Ok(s) => Ok(s)
      case Err(e) => Err(ValidationError(ByField([e])))
  }

  /** A missing `features`, or an empty one, is reported as a missing field
      before anything else is looked at. */
  lemma MissingFeatures(request: map<string, Value>, tricks: Codec)
    requires FeaturesField !in request || request[FeaturesField] == PyDict(map[])
    ensures LoadFeatures(PyDict(request), tricks)
            == Err(ValidationError(ByField([FieldError(FeaturesField, FieldMissing)])))
  {
  }

  /** `values` must be a string: anything else fails in the field pass, so the
      decoder is never consulted and the outcome is the same for every codec. */
  lemma ValuesCheckedBeforeDecoding(request: Value, t1: Codec, t2: Codec)
    requires PreLoad(request).Ok?
    requires !StringField(PreLoad(request).value, ValuesKey).Ok?
    ensures LoadFeatures(request, t1) == LoadFeatures(request, t2)
    ensures LoadFeatures(request, t1).Err? && LoadFeatures(request, t1).error.ValidationError?
  {
  }

  /** A `values` string the decoder rejects surfaces as the unwrapping
      exception, not as a validation error. */
  lemma MalformedEncodingIsUnwrappingError(inner: map<string, Value>, tricks: Codec)
    requires |inner| > 0
    requires ValuesKey in inner && inner[ValuesKey].PyStr?
    requires LabelsKey !in inner
    requires tricks.loads(inner[ValuesKey].s).Err?
    ensures LoadFeatures(PyDict(map[FeaturesField := PyDict(inner)]), tricks)
            == Err(DataUnwrappingException(tricks.loads(inner[ValuesKey].s).error.message))
  {
    var request := PyDict(map[FeaturesField := PyDict(inner)]);
    assert PreLoad(request) == Ok(inner);
  }

  /** Absent labels load as `[]` and are then accepted for any valid values;
      keys other than `values` and `labels` are ignored. */
  lemma LabelsDefaultToEmpty(inner: map<string, Value>, tricks: Codec, a: NdArray)
    requires |inner| > 0
    requires ValuesKey in inner && inner[ValuesKey].PyStr? && LabelsKey !in inner
    requires tricks.loads(inner[ValuesKey].s) == Ok(PyArray(a)) && 0 !in a.shape
    ensures LoadFeatures(PyDict(map[FeaturesField := PyDict(inner)]), tricks)
            == Ok(PyDict(map[ValuesKey := PyArray(a), LabelsKey := PyList([])]))
  {
    var request := PyDict(map[FeaturesField := PyDict(inner)]);
    assert PreLoad(request) == Ok(inner);
    assert Truth(PyList([])) == Ok(false);
  }

  /** Labels whose number differs from the last dimension of the decoded
      values are refused on `features.labels`, after the values passed. */
  lemma LabelCountMismatch(values: string, labels: seq<Value>, tricks: Codec, a: NdArray)
    requires tricks.loads(values) == Ok(PyArray(a)) && 0 !in a.shape
    requires |a.shape| > 0 && |labels| > 0 && |labels| != a.shape[|a.shape| - 1]
    ensures PostLoad(values, PyList(labels), tricks) == Err(Invalid(ShapeMessage, LabelsField))
  {
  }

  /** Labels that fit the decoded array pass the post-load step, which then
      returns exactly the decoded values and those labels. */
  lemma MatchingLabelsPass(values: string, labels: seq<Value>, tricks: Codec, a: NdArray)
    requires tricks.loads(values) == Ok(PyArray(a)) && 0 !in a.shape
    requires |a.shape| > 0 && |labels| == a.shape[|a.shape| - 1]
    ensures PostLoad(values, PyList(labels), tricks)
            == Ok(PyDict(map[ValuesKey := PyArray(a), LabelsKey := PyList(labels)]))
  {
    ProductZero(a.shape);
  }

  /** What every successful load holds: the values are a non-empty numpy array,
      and the labels are a list of strings that is either empty or has one
      label per entry of the last dimension of the values. */
  lemma {:induction false} LoadedFeatureSet(request: Value, tricks: Codec)
    requires LoadFeatures(request, tricks).Ok?
    ensures var d := LoadFeatures(request, tricks).value.entries;
            && d[ValuesKey].PyArray? && 0 !in d[ValuesKey].arr.shape
            && d[LabelsKey].PyList?
            && (forall i :: 0 <= i < |d[LabelsKey].items| ==> d[LabelsKey].items[i].PyStr?)
            && (|d[LabelsKey].items| == 0
                || (|d[ValuesKey].arr.shape| > 0
                    && |d[LabelsKey].items| == d[ValuesKey].arr.shape[|d[ValuesKey].arr.shape| - 1]))
  {
    var inner := PreLoad(request).value;
    var fields := LoadFields(inner).value;
    var labels := fields.1;
    assert labels == LabelsFieldValue(inner).value;
    assert labels.PyList?;
    assert PostLoad(fields.0, labels, tricks).Ok?;
  }
}
