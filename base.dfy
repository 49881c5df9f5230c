/**
 * The resource mix-ins. A `LoggableResource` remembers the identifier of the
 * request it last logged and tags the response record with it, so the two
 * records of one request can be matched. A `CacheableResource` takes its
 * expiration time from the caching configuration. The loggers are modelled by
 * the sequences of records they received; the identifier source (a fresh
 * uuid4 hex string) is a parameter.
 */
module Resources {
  import opened Python
  import opened Logging

  /** `DEFAULT_CACHING_TIME`, in seconds. */
  const DefaultCachingTime := 60

  /** `CacheableResource.CACHE_EXPIRATION_TIME` for a caching configuration. */
  function CacheExpirationTime(config: map<string, Value>): (t: Value)
    ensures "expiration_time_in_seconds" in config ==> t == config["expiration_time_in_seconds"]
    ensures "expiration_time_in_seconds" !in config ==> t == PyInt(DefaultCachingTime)
  {
    Get(config, "expiration_time_in_seconds", PyInt(DefaultCachingTime))
  }

  class LoggableResource {
    /** The identifier of the last request logged, None before any. */
    var identifier: Value
    /** What the request, response and application loggers were given. */
    var requestLog: seq<Value>
    var responseLog: seq<Value>
    var applicationLog: seq<Error>

    constructor()
      ensures identifier == PyNone
      ensures requestLog == [] && responseLog == [] && applicationLog == []
    {
      identifier := PyNone;
      requestLog := [];
      responseLog := [];
      applicationLog := [];
    }

    /** `log_request_data`: a new identifier is taken first, then the record
        tagged with it is logged; a request that is not a dict raises after
        the identifier was replaced. */
    method LogRequestData(request: Value, freshId: string) returns (r: Result<(), Error>)
      modifies this
      ensures identifier == PyStr(freshId)
      ensures r.Ok? <==> LoggableObject(request, PyStr(freshId)).Ok?
      ensures r.Ok? ==> requestLog == old(requestLog) + [LoggableObject(request, PyStr(freshId)).value]
      ensures r.Err? ==> r.error == LoggableObject(request, PyStr(freshId)).error && requestLog == old(requestLog)
      ensures responseLog == old(responseLog) && applicationLog == old(applicationLog)
    {
      identifier := PyStr(freshId);
      var record := LoggableObject(request, identifier);
      if record.Err? {
        return Err(record.error);
      }
      requestLog := requestLog + [record.value];
      r := Ok(());
    }

    /** `log_response_data`: the response record carries whatever identifier
        the last request log left, None if there was none. */
    method LogResponseData(response: Value) returns (r: Result<(), Error>)
      modifies this
      ensures identifier == old(identifier)
      ensures r.Ok? <==> LoggableObject(response, identifier).Ok?
      ensures r.Ok? ==> responseLog == old(responseLog) + [LoggableObject(response, identifier).value]
      ensures r.Err? ==> r.error == LoggableObject(response, identifier).error && responseLog == old(responseLog)
      ensures requestLog == old(requestLog) && applicationLog == old(applicationLog)
    {
      var record := LoggableObject(response, identifier);
      if record.Err? {
        return Err(record.error);
      }
      responseLog := responseLog + [record.value];
      r := Ok(());
    }

    /** `self.application_logger.error(e)`. */
    method LogError(e: Error)
      modifies this
      ensures applicationLog == old(applicationLog) + [e]
      ensures identifier == old(identifier) && requestLog == old(requestLog) && responseLog == old(responseLog)
    {
      applicationLog := applicationLog + [e];
    }
  }

  /** One request and its response, logged on the same resource, carry the
      same identifier: the one taken for the request. */
  method LogExchange(request: Value, response: Value, freshId: string)
    returns (requestRecord: Value, responseRecord: Value)
    requires request.PyDict? && response.PyDict?
    ensures requestRecord.PyDict? && IdentifierKey in requestRecord.entries
    ensures responseRecord.PyDict? && IdentifierKey in responseRecord.entries
    ensures requestRecord.entries[IdentifierKey] == responseRecord.entries[IdentifierKey] == PyStr(freshId)
  {
    var resource := new LoggableResource();
    var _ := resource.LogRequestData(request, freshId);
    var _ := resource.LogResponseData(response);
    requestRecord := resource.requestLog[0];
    responseRecord := resource.responseLog[0];
  }

  /** Without a request log first, the response record is tagged None. */
  method LogResponseFirst(response: Value) returns (responseRecord: Value)
    requires response.PyDict?
    ensures responseRecord.PyDict? && IdentifierKey in responseRecord.entries
    ensures responseRecord.entries[IdentifierKey] == PyNone
  {
    var resource := new LoggableResource();
    var _ := resource.LogResponseData(response);
    responseRecord := resource.responseLog[0];
  }
}
