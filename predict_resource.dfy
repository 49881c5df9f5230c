/**
 * `PredictClassesResource.post`: unwrap the request, log it, build the
 * features, load the named predictor, predict, dump the predictions, log the
 * response, wrap it and answer 200. The first exception ends the run: it is
 * logged on the application logger and raised again, and no response is built.
 */
module PredictResource {
  import opened Python
  import opened RequestWrapper
  import opened ResponseWrapper
  import opened DataWrapper
  import opened Manager
  import opened InputSchema
  import opened InputInterface
  import opened Outputs
  import opened Logging
  import opened Resources

  /** What the handler reaches outside itself: the json library, json_tricks
      and the model store. */
  datatype Services = Services(json: Codec, tricks: Codec, storage: Storage)

  /** The part of the run between the two log calls: features, model,
      prediction, dump. */
  function Predicted(request: Value, s: Services): (r: Result<Value, Error>)
    ensures FeaturesFromRequest(request, s.tricks).Err? ==> r == Err(FeaturesFromRequest(request, s.tricks).error)
    ensures r.Ok? ==> r.value.PyDict? && r.value.entries.Keys == {PredictedKey}
  {
    var features :- FeaturesFromRequest(request, s.tricks);
    var model :- PredictorModelFromRequest(request, s.storage);
    var predicted :- Predict(model.model, features.values);
    var text :- Encoded(predicted, s.tricks);
    Ok(Dumped(text))
  }

  /** The outcome of one call to `post`, with the records the request and
      response loggers received. */
  datatype Trace = Trace(result: Result<Response, Error>, requestRecord: Option<Value>, responseRecord: Option<Value>)

  /** The specification of `post`, stage by stage, for a fresh request
      identifier `freshId`. */
  function PostSpec(flaskRequest: HttpRequest, s: Services, freshId: string): (t: Trace)
    ensures t.result.Ok? ==> t.result.value.status == 200 && t.result.value.mimetype == JsonMimetype
    ensures t.result.Ok? ==> t.requestRecord.Some? && t.responseRecord.Some?
    ensures t.responseRecord.Some? ==> t.requestRecord.Some?
  {
    match UnwrapRequest(flaskRequest, s.json)
    case Err(e) => Trace(Err(e), None, None)
    case Ok(request) =>
      match LoggableObject(request, PyStr(freshId))
      case Err(e) => Trace(Err(e), None, None)
      case Ok(requestRecord) =>
        match Predicted(request, s)
        case Err(e) => Trace(Err(e), Some(requestRecord), None)
        case Ok(body) =>
          var responseRecord := LoggableObject(body, PyStr(freshId)).value;
          match WrapResponse(body, s.json)
          case Err(e) => Trace(Err(e), Some(requestRecord), Some(responseRecord))
          case Ok(text) => Trace(Ok(Response(text, 200, JsonMimetype, None)), Some(requestRecord), Some(responseRecord))
  }

  function Records(r: Option<Value>): seq<Value> {
    if r.Some? then [r.value] else []
  }

  class PredictClassesResource {
    /** The logging mix-in this resource inherits from. */
    const logs: LoggableResource

    constructor()
      ensures fresh(logs) && logs.identifier == PyNone
      ensures logs.requestLog == [] && logs.responseLog == [] && logs.applicationLog == []
    {
      logs := new LoggableResource();
    }

    /** `PredictClassesResource.post`. */
    method Post(flaskRequest: HttpRequest, s: Services, freshId: string) returns (r: Result<Response, Error>)
      modifies logs
      ensures r == PostSpec(flaskRequest, s, freshId).result
      ensures logs.requestLog == old(logs.requestLog) + Records(PostSpec(flaskRequest, s, freshId).requestRecord)
      ensures logs.responseLog == old(logs.responseLog) + Records(PostSpec(flaskRequest, s, freshId).responseRecord)
      ensures r.Err? ==> logs.applicationLog == old(logs.applicationLog) + [r.error]
      ensures r.Ok? ==> logs.applicationLog == old(logs.applicationLog)
      ensures UnwrapRequest(flaskRequest, s.json).Ok? ==> logs.identifier == PyStr(freshId)
      ensures UnwrapRequest(flaskRequest, s.json).Err? ==> logs.identifier == old(logs.identifier)
    {
      var unwrapped := UnwrapRequest(flaskRequest, s.json);
      if unwrapped.Err? {
        logs.LogError(unwrapped.error);
        return Err(unwrapped.error);
      }
      var request := unwrapped.value;
      var logged := logs.LogRequestData(request, freshId);
      if logged.Err? {
        logs.LogError(logged.error);
        return Err(logged.error);
      }
      var features := FeaturesFromRequest(request, s.tricks);
      if features.Err? {
        logs.LogError(features.error);
        return Err(features.error);
      }
      var model := PredictorModelFromRequest(request, s.storage);
      if model.Err? {
        logs.LogError(model.error);
        return Err(model.error);
      }
      var predicted := Predict(model.value.model, features.value.values);
      if predicted.Err? {
        logs.LogError(predicted.error);
        return Err(predicted.error);
      }
      var predictions := new Predictions(predicted.value);
      var body := predictions.ToResponse(s.tricks);
      if body.Err? {
        logs.LogError(body.error);
        return Err(body.error);
      }
      var _ := logs.LogResponseData(body.value);
      var response := WrapResponse(body.value, s.json);
      if response.Err? {
        logs.LogError(response.error);
        return Err(response.error);
      }
      r := Ok(Response(response.value, 200, JsonMimetype, None));
    }
  }

  /** The request record and the response record of a successful call carry
      the same identifier, the fresh one taken for this request. */
  lemma RecordsCorrelate(flaskRequest: HttpRequest, s: Services, freshId: string)
    requires PostSpec(flaskRequest, s, freshId).result.Ok?
    ensures var t := PostSpec(flaskRequest, s, freshId);
            && t.requestRecord.value.PyDict? && t.responseRecord.value.PyDict?
            && IdentifierKey in t.requestRecord.value.entries && IdentifierKey in t.responseRecord.value.entries
            && t.requestRecord.value.entries[IdentifierKey] == PyStr(freshId)
            && t.responseRecord.value.entries[IdentifierKey] == PyStr(freshId)
  {
  }

  /** Invalid features are reported even when the named model does not exist:
      the features are built before the model is looked up. */
  lemma FeaturesBeforeModel(request: Value, s: Services)
    requires FeaturesFromRequest(request, s.tricks).Err?
    requires LoadModel(request).Ok? && LoadModel(request).value !in AvailableModels(s.storage.matched)
    ensures Predicted(request, s) == Err(FeaturesFromRequest(request, s.tricks).error)
  {
  }

  /** With valid features, a model that is not listed ends the run with
      `NoLoadablePredictorException` naming it, and the model is never read. */
  lemma UnknownModelAfterValidFeatures(request: Value, s: Services)
    requires FeaturesFromRequest(request, s.tricks).Ok?
    requires LoadModel(request).Ok? && LoadModel(request).value !in AvailableModels(s.storage.matched)
    ensures Predicted(request, s) == Err(NoLoadablePredictorException(NotLoadableMessage(LoadModel(request).value)))
  {
  }

  /** The estimator is given the validated feature values, a non-empty numpy
      array, and whatever it raises is what the run raises. */
  lemma PredictorSeesValidatedValues(request: Value, s: Services)
    requires FeaturesFromRequest(request, s.tricks).Ok? && PredictorModelFromRequest(request, s.storage).Ok?
    ensures var values := FeaturesFromRequest(request, s.tricks).value.values;
            values.PyArray? && 0 !in values.arr.shape
    ensures var values := FeaturesFromRequest(request, s.tricks).value.values;
            var model := PredictorModelFromRequest(request, s.storage).value.model.model;
            model.predict(values).Err? ==> Predicted(request, s) == Err(Foreign(model.predict(values).error))
  {
    LoadedFeatureSet(request, s.tricks);
  }

  /** A successful run answers with the JSON text of `{"predicted": text}`,
      where `text` is the json_tricks encoding of the prediction; with a
      faithful json_tricks, decoding `text` gives the predicted array back,
      its NaNs made quiet. */
  lemma SuccessCarriesDecodablePrediction(request: Value, s: Services, a: NdArray)
    requires FaithfulForArrays(s.tricks)
    requires FeaturesFromRequest(request, s.tricks).Ok? && PredictorModelFromRequest(request, s.storage).Ok?
    requires var values := FeaturesFromRequest(request, s.tricks).value.values;
             PredictorModelFromRequest(request, s.storage).value.model.model.predict(values) == Ok(PyArray(a))
    ensures Predicted(request, s).Ok?
    ensures UnwrapData(Predicted(request, s).value.entries[PredictedKey], s.tricks) == Ok(PyArray(ReadBackArray(a)))
  {
    EveryArrayDumps(a, s.tricks);
  }
}
