/**
 * The input interface objects: `Features` (validated values and labels) and
 * `PredictorModel` (the predictor named by the request, already loaded).
 */
module InputInterface {
  import opened Python
  import opened InputSchema
  import opened Manager

  /** `Features`: the decoded, validated values and their labels. */
  datatype Features = Features(values: Value, labels: Value)

  /** `Features.from_request`: the schema's loaded dict, spread into the
      constructor; a schema failure leaves no object behind. */
  function FeaturesFromRequest(request: Value, tricks: Codec): (r: Result<Features, Error>)
    ensures r.Ok? <==> LoadFeatures(request, tricks).Ok?
    ensures r.Ok? ==> var d := LoadFeatures(request, tricks).value.entries;
                      r.value == Features(d[ValuesKey], d[LabelsKey])
    ensures r.Err? ==> r.error == LoadFeatures(request, tricks).error
  {
    var loaded :- LoadFeatures(request, tricks);
    Ok(Features(loaded.entries[ValuesKey], loaded.entries[LabelsKey]))
  }

  /** `PredictorModel`: the constructor loads the predictor it is named after. */
  datatype PredictorModel = PredictorModel(model: Predictor)

  /** `PredictorModel.from_request`: the `model` string is validated first,
      then handed to `PredictorManager().load`. */
  function PredictorModelFromRequest(request: Value, storage: Storage): (r: Result<PredictorModel, Error>)
    ensures LoadModel(request).Err? ==> r == Err(LoadModel(request).error)
    ensures LoadModel(request).Ok? ==>
              (r.Ok? <==> Load(LoadModel(request).value, storage).Ok?)
    ensures LoadModel(request).Ok? && r.Ok? ==>
              r.value.model == Load(LoadModel(request).value, storage).value
    ensures LoadModel(request).Ok? && r.Err? ==>
              r.error == Load(LoadModel(request).value, storage).error
  {
    var identifier :- LoadModel(request);
    var predictor :- Load(identifier, storage);
    Ok(PredictorModel(predictor))
  }

  /** A request naming a model that is not listed fails with
      `NoLoadablePredictorException` naming it; a request whose `model` is
      missing or not a string fails validation and never reaches the store. */
  lemma UnknownModelRefused(request: map<string, Value>, storage: Storage)
    requires ModelKey in request && request[ModelKey].PyStr?
    requires request[ModelKey].s !in AvailableModels(storage.matched)
    ensures PredictorModelFromRequest(PyDict(request), storage)
            == Err(NoLoadablePredictorException(NotLoadableMessage(request[ModelKey].s)))
  {
  }

  lemma ModelValidatedBeforeLoad(request: Value, s1: Storage, s2: Storage)
    requires LoadModel(request).Err?
    ensures PredictorModelFromRequest(request, s1) == PredictorModelFromRequest(request, s2)
    ensures PredictorModelFromRequest(request, s1).error.ValidationError?
  {
  }
}
