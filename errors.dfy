/**
 * Error handling: which exception class is answered by which handler, and the
 * JSON body each handler builds. Flask looks a handler up by the exception's
 * class, and an HTTP exception also by its status code (the handler registered
 * for 422). An HTTP exception with no handler is answered by werkzeug with its
 * own status; any other exception with no handler of its own is wrapped in an
 * `InternalServerError`, whose handler then answers.
 */
module Errors {
  import opened Python

  /** `errors_client_side`, in declaration order. */
  const ClientSideErrors: seq<string> := [
    "ValidationError",
    "RequestWrappingException",
    "RequestUnwrappingException",
    "ResponseWrappingException",
    "ResponseUnwrappingException",
    "DataWrappingException",
    "DataUnwrappingException",
    "NoLoadablePredictorException"
  ]

  const BadRequest := "BadRequest"
  const NotFound := "NotFound"
  const InternalServerError := "InternalServerError"

  const ServerErrorMessage := "Internal server error: we are working to resolve the issue"
  const InvalidRequestMessage := "Invalid request."

  /** The three handler functions. */
  datatype Handler = Handle400 | Handle404 | HandleServer

  /** `generate_error(error, status_code, message)` for an error whose `str`
      is `text`: the text, or when it is empty the fallback, which Python's
      f-string prints as `None` when there is none. */
  function GenerateError(text: string, status: int, fallback: Option<string>): (r: Response)
    ensures r.status == status && r.mimetype == JsonMimetype && r.headers == None
    ensures r.body.PyDict? && r.body.entries.Keys == {"message"}
    ensures text != "" ==> r.body.entries["message"] == PyStr(text)
    ensures text == "" && fallback.Some? ==> r.body.entries["message"] == PyStr(fallback.value)
    ensures text == "" && fallback.None? ==> r.body.entries["message"] == PyStr("None")
  {
    var message := if text != "" then text else if fallback.Some? then fallback.value else "None";
    Response(PyDict(map["message" := PyStr(message)]), status, JsonMimetype, None)
  }

  /** What a handler answers for an error whose `str` is `text`; only the
      server handler has a fallback message. */
  function Answer(h: Handler, text: string): (r: Response)
    ensures h == Handle400 ==> r == GenerateError(text, 400, None)
    ensures h == Handle404 ==> r == GenerateError(text, 404, None)
    ensures h == HandleServer ==> r == GenerateError(text, 500, Some(ServerErrorMessage))
  {
    match h
    case Handle400 => GenerateError(text, 400, None)
    case Handle404 => GenerateError(text, 404, None)
    case HandleServer => GenerateError(text, 500, Some(ServerErrorMessage))
  }

  /** The handler table after the client-side classes in `names` were mapped,
      one by one, to the 400 handler. */
  function WithClientSide(h: map<string, Handler>, names: seq<string>): (r: map<string, Handler>)
    ensures h.Keys <= r.Keys
    ensures forall n :: n in r ==> n in h || n in names
  {
    if names == [] then h
    else WithClientSide(h, names[..|names| - 1])[names[|names| - 1] := Handle400]
  }

  /** The table `register_errors` leaves behind, starting from `h`. */
  function Registered(h: map<string, Handler>): (r: map<string, Handler>)
    ensures h.Keys + {BadRequest, NotFound, InternalServerError} <= r.Keys
    ensures forall n :: n in r ==> n in h || n in ClientSideErrors || n in {BadRequest, NotFound, InternalServerError}
  {
    WithClientSide(h[BadRequest := Handle400][NotFound := Handle404][InternalServerError := HandleServer],
                   ClientSideErrors)
  }

  /** Mapping names to the 400 handler adds exactly those names and leaves
      every other entry alone. */
  lemma {:induction false} WithClientSideEntries(h: map<string, Handler>, names: seq<string>)
    ensures WithClientSide(h, names).Keys == h.Keys + set n | n in names
    ensures forall n :: n in names ==> WithClientSide(h, names)[n] == Handle400
    ensures forall n :: n in h && n !in names ==> WithClientSide(h, names)[n] == h[n]
  {
    if names != [] {
      var init := names[..|names| - 1];
      WithClientSideEntries(h, init);
      assert names == init + [names[|names| - 1]];
    }
  }

  /** The application: its handler table by exception class name, and
      whether a handler for status 422 was registered. */
  class App {
    var handlers: map<string, Handler>
    var handles422: bool

    constructor()
      ensures handlers == map[] && !handles422
    {
      handlers := map[];
      handles422 := false;
    }

    /** `register_errors(app)`: the three HTTP classes, then every client-side
        class in turn, then the 422 handler. */
    method RegisterErrors()
      modifies this
      ensures handlers == Registered(old(handlers))
      ensures handles422
    {
      handlers := handlers[BadRequest := Handle400][NotFound := Handle404][InternalServerError := HandleServer];
      ghost var base := handlers;
      for i := 0 to |ClientSideErrors|
        invariant handlers == WithClientSide(base, ClientSideErrors[..i])
      {
        assert ClientSideErrors[..i + 1][..i] == ClientSideErrors[..i];
        handlers := handlers[ClientSideErrors[i] := Handle400];
      }
      assert ClientSideErrors[..|ClientSideErrors|] == ClientSideErrors;
      handles422 := true;
    }
  }

  /** How the handling of an exception ends: the response of a registered
      handler, werkzeug's own response with the status of an HTTP exception
      that has no handler, or an exception the handler itself raised. */
  datatype Reply = Handled(response: Response) | OwnResponse(status: int) | HandlerFailed(error: Error)

  /** The 422 handler's reply to an HTTP exception. */
  function Reply422(e: Error): (r: Reply)
    requires e.HttpException?
    ensures r.Handled? <==> Handle422(e.data, e.code).Ok?
    ensures r.Handled? ==> r.response == Handle422(e.data, e.code).value
    ensures r.HandlerFailed? ==> r.error == Handle422(e.data, e.code).error
    ensures !r.OwnResponse?
  {
    match Handle422(e.data, e.code)
    case Ok(response) => Handled(response)
    case Err(x) => HandlerFailed(x)
  }

  /** How Flask answers `e` with this table and, if `handles422`, the handler
      registered for status 422: the handler of its class; for an HTTP
      exception without one, the 422 handler when its code is 422 and
      werkzeug's own response otherwise; for any other exception, the server
      handler given the wrapping `InternalServerError`, whose `str` is
      `serverErrorText`, or Flask's default 500 when there is none. */
  function HandleError(handlers: map<string, Handler>, handles422: bool, e: Error, serverErrorText: string): (r: Reply)
    ensures ClassName(e) in handlers ==> r == Handled(Answer(handlers[ClassName(e)], Str(e)))
    ensures ClassName(e) !in handlers && e.HttpException? && e.code == 422 && handles422 ==> r == Reply422(e)
    ensures ClassName(e) !in handlers && e.HttpException? && !(e.code == 422 && handles422) ==>
              r == OwnResponse(e.code)
    ensures ClassName(e) !in handlers && !e.HttpException? && InternalServerError in handlers ==>
              r == Handled(Answer(handlers[InternalServerError], serverErrorText))
    ensures ClassName(e) !in handlers && !e.HttpException? && InternalServerError !in handlers ==>
              r == OwnResponse(500)
  {
    if ClassName(e) in handlers then Handled(Answer(handlers[ClassName(e)], Str(e)))
    else if e.HttpException? then
      if e.code == 422 && handles422 then Reply422(e) else OwnResponse(e.code)
    else if InternalServerError in handlers then Handled(Answer(handlers[InternalServerError], serverErrorText))
    else OwnResponse(500)
  }

  /** The client-side classes are exactly the validation error, the six
      wrapper exceptions and the missing-predictor exception (or a foreign
      exception that happens to share one of their names). */
  lemma ClientSideClasses(e: Error)
    ensures ClassName(e) in ClientSideErrors <==>
              || e.ValidationError? || e.RequestWrappingException? || e.RequestUnwrappingException?
              || e.ResponseWrappingException? || e.ResponseUnwrappingException?
              || e.DataWrappingException? || e.DataUnwrappingException?
              || e.NoLoadablePredictorException?
              || (e.Foreign? && e.raised.className in ClientSideErrors)
              || (e.HttpException? && e.httpName in ClientSideErrors)
  {
  }

  /** The entries `register_errors` leaves in a table that had `h`. */
  lemma RegisteredEntries(h: map<string, Handler>)
    ensures forall n :: n in ClientSideErrors ==> n in Registered(h) && Registered(h)[n] == Handle400
    ensures BadRequest in Registered(h) && Registered(h)[BadRequest] == Handle400
    ensures NotFound in Registered(h) && Registered(h)[NotFound] == Handle404
    ensures InternalServerError in Registered(h) && Registered(h)[InternalServerError] == HandleServer
    ensures forall n :: n in Registered(h) && n !in ClientSideErrors && n !in {BadRequest, NotFound, InternalServerError}
              ==> n in h
  {
    var base := h[BadRequest := Handle400][NotFound := Handle404][InternalServerError := HandleServer];
    WithClientSideEntries(base, ClientSideErrors);
    assert BadRequest !in ClientSideErrors;
    assert NotFound !in ClientSideErrors;
    assert InternalServerError !in ClientSideErrors;
  }

  /** Once registered, every client-side error is a 400 whose message is its
      `str` (or "None" if that is empty). */
  lemma ClientSideIs400(h: map<string, Handler>, e: Error, serverErrorText: string)
    requires ClassName(e) in ClientSideErrors
    ensures HandleError(Registered(h), true, e, serverErrorText) == Handled(GenerateError(Str(e), 400, None))
  {
    RegisteredEntries(h);
  }

  /** The HTTP classes keep their own codes, and an exception of any other
      class without a handler that is not an HTTP exception becomes a 500
      carrying the server error's text, or the fallback message when that
      text is empty. */
  lemma HttpClassesAndServerErrors(e: Error, serverErrorText: string)
    ensures ClassName(e) == NotFound ==>
              HandleError(Registered(map[]), true, e, serverErrorText) == Handled(GenerateError(Str(e), 404, None))
    ensures ClassName(e) == BadRequest ==>
              HandleError(Registered(map[]), true, e, serverErrorText) == Handled(GenerateError(Str(e), 400, None))
    ensures !e.HttpException? && ClassName(e) !in ClientSideErrors
            && ClassName(e) !in {BadRequest, NotFound, InternalServerError} ==>
              HandleError(Registered(map[]), true, e, serverErrorText)
              == Handled(GenerateError(serverErrorText, 500, Some(ServerErrorMessage)))
  {
    RegisteredEntries(map[]);
  }

  /** An HTTP exception of a class without a handler: a 422 (the webargs
      failure) goes to the 422 handler, and any other keeps its own status,
      `MethodNotAllowed` a 405 for instance, instead of becoming a 500. */
  lemma UnhandledHttpExceptions(e: Error, serverErrorText: string)
    requires e.HttpException?
    requires ClassName(e) !in ClientSideErrors && ClassName(e) !in {BadRequest, NotFound, InternalServerError}
    ensures e.code == 422 ==> HandleError(Registered(map[]), true, e, serverErrorText) == Reply422(e)
    ensures e.code != 422 ==> HandleError(Registered(map[]), true, e, serverErrorText) == OwnResponse(e.code)
  {
    RegisteredEntries(map[]);
  }

  /** The 422 handler: `{"errors": messages}` with `["Invalid request."]` when
      the error carries none, the error's own code, and its headers exactly
      when they are truthy. */
  function Handle422(data: map<string, Value>, code: int): (r: Result<Response, Error>)
    ensures r.Ok? <==> Truth(Get(data, "headers", PyNone)).Ok?
    ensures r.Ok? ==> r.value.status == code && r.value.mimetype == JsonMimetype
    ensures r.Ok? ==> r.value.body.PyDict? && r.value.body.entries.Keys == {"errors"}
    ensures r.Ok? && "messages" in data ==> r.value.body.entries["errors"] == data["messages"]
    ensures r.Ok? && "messages" !in data ==>
              r.value.body.entries["errors"] == PyList([PyStr(InvalidRequestMessage)])
    ensures r.Ok? ==> (r.value.headers.Some? <==> Truth(Get(data, "headers", PyNone)) == Ok(true))
    ensures r.Ok? && r.value.headers.Some? ==> r.value.headers.value == data["headers"]
  {
    var headers := Get(data, "headers", PyNone);
    var message := Get(data, "messages", PyList([PyStr(InvalidRequestMessage)]));
    var truthy :- Truth(headers);
    var body := PyDict(map["errors" := message]);
    if truthy then Ok(Response(body, code, JsonMimetype, Some(headers)))
    else Ok(Response(body, code, JsonMimetype, None))
  }
}
