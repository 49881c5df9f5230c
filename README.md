# predictor-api, modelled in Dafny

This project models the request-to-response path of a small Flask prediction
service, and the decision rules around it. The service takes a JSON request
holding json_tricks-encoded numpy features and the identifier of a trained
model. It validates the features, loads the model from the model store,
predicts, and answers with the json_tricks-encoded prediction.

The project covers these parts:

- **Wire wrappers:** data, request and response encoding and decoding, and the
  rendering of an error as `"<ClassName>: <message>"`.
- **Input interface:** the marshmallow schemas and validators that turn a
  request into `(values, labels)`, plus the required `model` string.
- **Output interface:** the `Predictions` object, which encodes its prediction
  in place when dumped.
- **Predictor registry:** the identifiers derived from the stored file names,
  and loading by identifier.
- **Predict resource:** its fixed stage order, its failure handling, and its
  request and response logging.
- **Error handling:** which exception classes map to which status, and the
  error body.
- **Account rules:** the password policy, sign-up, log-in and refreshing an
  access token, over a user table.

## Modelling choices

Python values are one datatype, `Python.Value`. A numpy array is a shape plus
its elements, with `|elems| == product(shape)`. Floats are IEEE 754 bit
patterns, so equality is bitwise.

Every opaque library is a function-valued parameter, never an axiom:

- json and json_tricks (`Codec`);
- reading and unpickling a model file (`Storage.read`);
- the trained estimator (`Model`);
- bcrypt (`hash`, `check`);
- JWT token creation (`Tokens`);
- the outcome of a database commit (`CommitOutcome`);
- the uuid source (`freshId`).

The json_tricks round trip is the ghost predicate
`DataWrapper.FaithfulForArrays`, and lemmas that need it take it as a
precondition. It does not promise the array back bit for bit. json_tricks
writes every NaN as `NaN`, and Python reads that back as the one quiet NaN
`0x7FF8000000000000`, so sign and payload are lost. The round trip therefore
gives `DataWrapper.ReadBackArray(a)`: the array with each NaN made that quiet
NaN, and every other element kept bit for bit.

Python truthiness is `Python.Truth`. It returns an error for a numpy array of
more than one element, as numpy before version 2.2 raises ValueError there.

A marshmallow `ValidationError` comes in two forms:

- as raised (`Raw(message, field)`);
- as a schema re-raises it from a pre- or post-load processor (`ByField`,
  i.e. `{field: [message]}`).

A pre-dump processor's error is not normalised.

Objects that the source updates in place are classes:

- `Outputs.Predictions`, whose `predicted` field is overwritten by the dump;
- `Resources.LoggableResource`, which holds the request identifier and the
  records each logger received;
- `Errors.App`, which holds the handler table;
- `AuthModels.Database` and `AuthModels.User`.

`PredictResource.PredictClassesResource.Post` is proved against the stage-by-stage
specification `PredictResource.PostSpec`.

The password regex `^(?=.*[0-9]+.*)(?=.*[a-zA-Z]+.*).{7,50}$` is used with
`re.match`. Its pattern structure is modelled in `Security.PasswordMatches`, and
it is proved equivalent to a plain-words rule. The rule requires 7 to 50
characters, although the message shown to users says 6 to 50. Python's `$`
also matches before one final line feed, so a password such as
`"abcdef1\n"` is accepted: the rule is stated on the text without that final
line feed.

After a rolled-back save, sign-up still answers 201 with the username. The
model keeps this behaviour of the code.

The sign-up and sign-in forms are read as webargs 6 and later reads them:

- a key that is not a declared field is refused with "Unknown field.";
- the messages are nested under the location `json`;
- the parser ends the request with `abort(422)`.

That abort raises werkzeug's `UnprocessableEntity`, an HTTP exception
(`Python.HttpException`) whose `data` holds the messages. No class handler
takes it, so Flask passes it to the handler registered for status 422,
`Errors.Handle422`. An HTTP exception of any other code without a handler gets
werkzeug's own response with its own status.

## Model

| member | source | states |
|---|---|---|
| Python.Truth | api/interfaces/inputs/utilities.py:48 | `bool(v)` as numpy before 2.2 defines it: raises exactly for arrays of more than one element; None, empty strings, lists, tuples and dicts are falsy |
| Python.Normalized | api/interfaces/inputs/schema.py:26-29 | a validation error raised in a load processor is re-raised as `{field: [message]}`; other exceptions pass unchanged |
| Python.ClassName | api/wrappers/response.py:46 | `e.__class__.__name__`: a foreign exception's own class, an HTTP exception's werkzeug class, `ValidationError` for a validation error |
| Python.Str | api/common/errors.py:47 | `str(e)`: a raw validation error's message, a re-raised one's dictionary text between `{` and `}`, a foreign exception's message, an HTTP exception's `str`, `"<code> <name>: <description>"` |
| Python.ProductZero | api/interfaces/inputs/utilities.py:24 | an array has size 0 exactly when one of its dimensions is 0 |
| DataWrapper.UnwrapData | api/wrappers/data.py:19-24 | non-strings returned unchanged; strings parsed; any parse failure is `DataUnwrappingException` carrying the library's message |
| DataWrapper.WrapData | api/wrappers/data.py:27-32 | strings returned unchanged; the result is always a string; any failure is `DataWrappingException` |
| DataWrapper.WrapDataIdempotent | api/wrappers/data.py:30 | wrapping twice equals wrapping once |
| DataWrapper.UnwrapDataFixesNonStrings | api/wrappers/data.py:22 | unwrapping a decoded non-string again changes nothing |
| DataWrapper.ArrayRoundTrip | api/wrappers/data.py:20-30 | with a faithful json_tricks every array, non-finite elements included, wraps without error and unwraps to the same array with its NaNs made quiet |
| DataWrapper.ReadBack | api/wrappers/data.py:22 | a NaN, whatever its sign and payload, reads back as the quiet NaN; an integer or any other float is unchanged |
| DataWrapper.ReadBackArray | api/wrappers/data.py:22 | the read-back array has the same shape and element count, each element read back one by one |
| DataWrapper.ReadBackKeepsQuietArrays | api/wrappers/data.py:20-30 | an array without NaNs, or whose NaNs are all quiet, comes back bit for bit |
| DataWrapper.ReadBackIdempotent | api/wrappers/data.py:20-30 | reading back twice equals reading back once, so a second round trip changes nothing |
| RequestWrapper.UnwrapRequest | api/wrappers/request.py:19-24 | every failure surfaces as `RequestUnwrappingException` |
| RequestWrapper.GetReadsOnlyArgs | api/wrappers/request.py:22 | a GET unwraps to its query arguments whatever its body |
| RequestWrapper.NonGetBodyChoice | api/wrappers/request.py:22 | other methods: a truthy `get_json()` wins; otherwise the raw body is parsed, and its failure is the unwrap's failure |
| RequestWrapper.WrapRequest | api/wrappers/request.py:27-32 | strings returned unchanged; result is a string; failure is `RequestWrappingException` |
| RequestWrapper.WrapRequestIdempotent | api/wrappers/request.py:30 | wrapping a request twice equals wrapping it once |
| ResponseWrapper.UnwrapResponse | api/wrappers/response.py:19-24 | strings parsed, other values returned unchanged; failure is `ResponseUnwrappingException` |
| ResponseWrapper.WrapResponse | api/wrappers/response.py:27-32 | strings returned unchanged; result is a string; failure is `ResponseWrappingException` |
| ResponseWrapper.WrapResponseIdempotent | api/wrappers/response.py:30 | wrapping a response twice equals wrapping it once |
| ResponseWrapper.HttpErrorWrapper.ToString | api/wrappers/response.py:45-46 | the text is the class name, then `": "`, then `str(e)` |
| ResponseWrapper.ErrorTextSplits | api/wrappers/response.py:39-46 | the text `"<ClassName>: <str(e)>"` splits back at its first `": "` into class name and message |
| InputValidators.ValidateValues | api/interfaces/inputs/utilities.py:9-28 | passes exactly non-empty arrays, unchanged; None is "missing", a non-array "not a valid numpy.array", an empty array "empty", all on `features.values` |
| InputValidators.LastDimension | api/interfaces/inputs/utilities.py:51 | `values.shape[-1]`: defined exactly for arrays of rank at least 1 |
| InputValidators.ValidateLabels | api/interfaces/inputs/utilities.py:35-59 | passes iff the labels are falsy, or a list/tuple as long as the last dimension; returned unchanged; errors on `features.labels` |
| InputValidators.NoneIsMissingNotMistyped | api/interfaces/inputs/utilities.py:20-23 | the None check comes before the type check |
| InputValidators.LabelsMatchingLastDimensionPass | api/interfaces/inputs/utilities.py:51-59 | a list or tuple of the right length passes for any array rank |
| InputSchema.PreLoad | api/interfaces/inputs/schema.py:21-32 | falsy `features` is missing, a truthy non-dict is "Not a valid dict.", a non-empty dict is loaded next |
| InputSchema.StringField | api/interfaces/inputs/schema.py:18 | a required string field: loads iff present and a string; missing, null and wrong type are reported on the field |
| InputSchema.LabelsFieldValue | api/interfaces/inputs/schema.py:19 | absent labels load as `[]`; otherwise a list or tuple of strings, kept item for item |
| InputSchema.LoadFields | api/interfaces/inputs/schema.py:14-19 | loads iff both fields load; errors of both fields reported together, `values` first |
| InputSchema.LabelsOrEmpty | api/interfaces/inputs/schema.py:40 | falsy labels become `[]`; truthy labels are kept |
| InputSchema.PostLoad | api/interfaces/inputs/schema.py:34-47 | succeeds iff the decode, the truth test of the labels, the values check and the labels check all pass; then exactly `{"values": decoded array, "labels": labels or []}`; a decode failure is the unwrap exception, and a values failure wins over a labels failure |
| InputSchema.LoadFeatures | api/interfaces/inputs/schema.py:10-47 | pre-load, then fields, then post-load: a field error is the load's error, and loaded fields give the normalised post-load result; the result has exactly the keys `values` and `labels` |
| InputSchema.MatchingLabelsPass | api/interfaces/inputs/schema.py:43-44 | labels as many as the last dimension of a non-empty decoded array load unchanged |
| InputSchema.LoadedFeatureSet | api/interfaces/inputs/schema.py:34-47 | every loaded feature set is a non-empty array and a list of string labels, either empty or as long as the array's last dimension |
| InputSchema.LoadModel | api/interfaces/inputs/schema.py:54-62 | loads iff the request is a dict whose `model` is a string; a non-dict is an invalid input type |
| InputSchema.MissingFeatures | api/interfaces/inputs/schema.py:26-27 | absent or empty `features` gives `{'features': ['Missing data for required field.']}` |
| InputSchema.ValuesCheckedBeforeDecoding | api/interfaces/inputs/schema.py:18 | a non-string `values` fails validation whatever the decoder does |
| InputSchema.MalformedEncodingIsUnwrappingError | api/interfaces/inputs/schema.py:39 | a `values` string the decoder rejects raises `DataUnwrappingException`, not a validation error |
| InputSchema.LabelsDefaultToEmpty | api/interfaces/inputs/schema.py:19-44 | without labels the load yields `{"values": array, "labels": []}` for any valid array |
| InputSchema.LabelCountMismatch | api/interfaces/inputs/schema.py:43-44 | labels whose number differs from the last dimension fail on `features.labels` |
| Manager.Predict | api/ml/interface.py:12-21 | the estimator's `predict` on the feature values, its exception passed on |
| Manager.PredictProba | api/ml/interface.py:23-32 | the estimator's `predict_proba` on the feature values, its exception passed on |
| Manager.IdentifierOf | api/ml/manager.py:43 | an identifier never contains a path separator |
| Manager.AvailableModels | api/ml/manager.py:40-45 | one identifier per matched path, in order, duplicates kept |
| Manager.Load | api/ml/manager.py:25-38 | `NoLoadablePredictorException` naming the identifier iff it is not listed; otherwise the file `<location>/<id>.joblib` is read and wrapped |
| Manager.ListedArtifactInsideLocation | api/ml/manager.py:37 | the file `load` opens for a listed identifier, `<location>/<id>.joblib`, lies directly inside the configured location |
| Manager.IdentifierOfArtifactName | api/ml/manager.py:43-44 | `<dir>/<x>.joblib` has identifier `x` for every separator-free `x` not made of dots only |
| Manager.ListingFollowsStorage | api/ml/manager.py:35 | the listing is recomputed: a model refused before is loadable once stored |
| InputInterface.FeaturesFromRequest | api/interfaces/inputs/interface.py:27-36 | the object holds the schema's loaded `values` and `labels`; a schema failure is raised and nothing is built |
| InputInterface.PredictorModelFromRequest | api/interfaces/inputs/interface.py:49-69 | `model` is validated first, then loaded through the registry; either failure is raised |
| InputInterface.UnknownModelRefused | api/interfaces/inputs/interface.py:51 | an unlisted `model` raises `NoLoadablePredictorException` naming it |
| InputInterface.ModelValidatedBeforeLoad | api/interfaces/inputs/interface.py:69 | an invalid `model` fails validation whatever the store holds |
| Outputs.ValidatePredicted | api/interfaces/outputs/utilities.py:9-26 | passes exactly arrays (empty ones too), unchanged; None "missing", others "not a valid numpy.array", on `predicted.values` |
| Outputs.Encoded | api/interfaces/outputs/schema.py:22-33 | non-arrays fail before encoding; arrays encode to the json_tricks text; an encoding failure is `DataWrappingException` |
| Outputs.Predictions.constructor | api/interfaces/outputs/interface.py:14-16 | stores `predicted` unchanged |
| Outputs.Predictions.ToResponse | api/interfaces/outputs/interface.py:24-26 | returns `{"predicted": text}` and leaves `text` in the field; on failure the field is unchanged |
| Outputs.SecondDumpFails | api/interfaces/outputs/interface.py:26 | after one successful dump a second one fails with "Not a valid numpy.array." |
| Outputs.Dumped | api/interfaces/outputs/schema.py:33 | the dump is `{"predicted": text}` with that key only |
| Outputs.EveryArrayDumps | api/interfaces/outputs/schema.py:30 | with a faithful json_tricks every array dumps, and the dumped text decodes to it with its NaNs made quiet |
| Outputs.DumpTwice | api/interfaces/outputs/interface.py:24-26 | two dumps of one object: the second fails whenever the first succeeded |
| Logging.LoggableObject | api/common/logging.py:176-186 | a dict gets `identifier` set and keeps every other entry; a non-dict has no `update` |
| Logging.RetagKeepsLast | api/common/logging.py:183 | an existing `identifier` entry is overwritten |
| Logging.Split | api/common/logging.py:69 | `split(".")` gives at least one dot-free piece |
| Logging.JoinSplit | api/common/logging.py:69-70 | joining the pieces with `"."` gives the path back |
| Logging.ClassPath | api/common/logging.py:69-70 | the class name is dot-free |
| Logging.ClassPathSplit | api/common/logging.py:69-70 | the class is the last dot-free segment; module + "." + class is the path, or the module is empty when there is no dot |
| Resources.CacheExpirationTime | api/resources/base.py:52 | the configured expiration time, else 60 seconds |
| Resources.LoggableResource.constructor | api/resources/base.py:23-24 | a new resource has no identifier and empty logs |
| Resources.LoggableResource.LogRequestData | api/resources/base.py:26-29 | the identifier becomes the fresh one, then the tagged request record is logged |
| Resources.LoggableResource.LogResponseData | api/resources/base.py:31-33 | the response record is tagged with the current identifier |
| Resources.LoggableResource.LogError | api/resources/predict.py:185-187 | the exception is appended to the application log |
| Resources.LogExchange | api/resources/base.py:26-33 | a request and its response logged on one resource carry the same identifier |
| Resources.LogResponseFirst | api/resources/base.py:23-33 | with no request logged first, the response record is tagged None |
| Errors.GenerateError | api/common/errors.py:34-47 | body `{"message": str(error)}`, else the fallback, else the literal "None"; the given status |
| Errors.Answer | api/common/errors.py:50-62 | 400 and 404 handlers have no fallback; the 500 handler's fallback is the server-error message |
| Errors.WithClientSide | api/common/errors.py:74-75 | every existing entry is kept and every new key is one of the given names |
| Errors.Registered | api/common/errors.py:65-75 | the three HTTP classes are registered, and every key comes from the table, the client-side list or those three |
| Errors.WithClientSideEntries | api/common/errors.py:74-75 | registering names adds exactly those names, each mapped to the 400 handler |
| Errors.RegisteredEntries | api/common/errors.py:65-75 | after registration the client-side classes and `BadRequest` map to the 400 handler, `NotFound` to 404 and `InternalServerError` to the server handler; no other class is added |
| Errors.App.RegisterErrors | api/common/errors.py:65-89 | the table gains the three HTTP handlers and the client-side classes; a 422 handler is installed |
| Errors.Reply422 | api/common/errors.py:77-89 | the 422 handler's response when it builds one, else the exception it raised; never werkzeug's own response |
| Errors.HandleError | api/common/errors.py:65-89 | the handler of the exception's class; else for an HTTP exception the 422 handler when the code is 422, werkzeug's own response with the exception's code otherwise; else the internal-server-error handler, or Flask's default 500 |
| Errors.ClientSideClasses | api/common/errors.py:18-27 | the client-side classes are the validation, wrapper, data and missing-predictor exceptions |
| Errors.ClientSideIs400 | api/common/errors.py:18-75 | after registration every client-side exception is handled as a 400 carrying `str(e)` |
| Errors.HttpClassesAndServerErrors | api/common/errors.py:69-71 | NotFound is 404, BadRequest 400, and every unregistered non-HTTP exception goes to the server handler with status 500 |
| Errors.UnhandledHttpExceptions | api/common/errors.py:77-89 | an HTTP exception with no class handler goes to the 422 handler when its code is 422, and gets werkzeug's own response with its code otherwise |
| Errors.Handle422 | api/common/errors.py:77-89 | `{"errors": messages}` with `["Invalid request."]` by default; status `err.code`; headers present iff truthy |
| PredictResource.Predicted | api/resources/predict.py:166-175 | features, then model, then prediction, then dump; the first failure ends it |
| PredictResource.PostSpec | api/resources/predict.py:149-187 | success is 200 `application/json` with both log records written |
| PredictResource.PredictClassesResource.Post | api/resources/predict.py:149-187 | follows `PostSpec`: result, request and response log records, the error logged once on failure, the identifier set |
| PredictResource.RecordsCorrelate | api/resources/predict.py:162-176 | on success the request and response records carry the same fresh identifier |
| PredictResource.FeaturesBeforeModel | api/resources/predict.py:166-169 | invalid features are reported even for an unknown model |
| PredictResource.UnknownModelAfterValidFeatures | api/resources/predict.py:169 | valid features with an unlisted model end in `NoLoadablePredictorException` |
| PredictResource.PredictorSeesValidatedValues | api/resources/predict.py:172 | the estimator gets the validated values, a non-empty array, and its exception is the run's |
| PredictResource.SuccessCarriesDecodablePrediction | api/resources/predict.py:175-182 | a predicted array reaches the response body as text that decodes back to it, NaNs made quiet |
| AuthModels.GetByUsername | api/authentication/database/models.py:59-61 | the first row with that name, or none if no row has it |
| AuthModels.Authenticate | api/authentication/database/models.py:77-92 | none for an empty name or password, an unknown name or a failed hash check; otherwise the row found |
| AuthModels.User.HashPassword | api/authentication/database/models.py:68-70 | the password field becomes the hash of its former value |
| AuthModels.WithRow | api/authentication/database/models.py:25-33 | the table keeps its length; the row with the given key is replaced, every other row is kept |
| AuthModels.User.Save | api/authentication/database/models.py:25-33 | a committed save of a new user appends its row and keys it; of a keyed user, rewrites its row in place; a failed commit leaves the table as it was |
| AuthModels.SaveTwice | api/authentication/database/models.py:25-33 | saving one user twice leaves a single row for it under the first key |
| AuthModels.User.Delete | api/authentication/database/models.py:39-45 | a committed delete removes the row; otherwise the table is unchanged |
| AuthModels.SaveThenDelete | api/authentication/database/models.py:25-45 | saving then deleting one user restores the table |
| Security.PasswordMatches | api/resources/security.py:21-24 | a match has 7 to 51 characters (50 plus one final line feed) |
| Security.PasswordRule | api/resources/security.py:21-24 | the regex accepts exactly 7 to 50 characters, no line feed except one final one, with an ASCII digit and an ASCII letter |
| Security.PasswordExamples | api/resources/security.py:21-24 | 6 characters are refused despite the message; a final line feed is let through |
| Security.PasswordField | api/resources/security.py:29 | the password loads iff it is present, a string and, when the rule applies, matches it; the rule's message otherwise |
| Security.UnknownFields | api/resources/security.py:27-36 | each key that is not `username` or `password` gets "Unknown field.", and only those |
| Security.LoadForm | api/resources/security.py:27-36 | a non-dict is a `_schema` error; a dict loads iff it has no unknown key and both fields load; the errors are the field errors plus the unknown keys |
| Security.SignUpForm | api/resources/security.py:27-30 | loads iff the body is a dict with only `username` and `password`, both strings, the password matching the rule; each error key names a failing field or an unknown key |
| Security.SignInForm | api/resources/security.py:33-36 | loads iff the body is a dict with only `username` and `password`, both strings; no password rule |
| Security.ExtraKeyRefused | api/resources/security.py:27-30 | a valid sign-up body with an extra `email` key is refused on that key alone |
| Security.FormRejected | api/resources/security.py:42 | the parser's abort: an `UnprocessableEntity` with code 422 whose `messages` nest the form errors under `json` |
| Security.FormFailureIs422 | api/common/errors.py:77-89 | after registration a form failure is answered 422 with `{"errors": {"json": messages}}` |
| Security.SignupSpec | api/resources/security.py:76-86 | a taken name gives 400 "Username already exist" and no change; else 201 `{"username"}`, with the hashed row added iff committed |
| Security.Signup | api/resources/security.py:42-86 | form errors are raised as the 422 abort and change nothing; otherwise the table and the answer follow `SignupSpec` |
| Security.DecimalString | api/resources/security.py:135 | `str(id)` is a non-empty string of digits |
| Security.DecimalRoundTrip | api/resources/security.py:135-136 | the token identity reads back as the user's key |
| Security.LoginSpec | api/resources/security.py:127-140 | failed authentication is 401 "Invalid credentials"; success is 200 with name and tokens for `str(id)`, the access token fresh |
| Security.Login | api/resources/security.py:92-140 | form errors are raised as the 422 abort; otherwise `LoginSpec` |
| Security.Refresh | api/resources/security.py:176-184 | a falsy identity is 401 "Invalid user"; any other gets a non-fresh access token with 200 |
| Security.SignupThenLogin | api/resources/security.py:76-140 | after a committed sign-up under a free name, logging in with that password succeeds with tokens for the new key |
| Security.SecondSignupRefused | api/resources/security.py:77-78 | signing up twice under one name: the second is refused and changes nothing |
| Security.RefreshAfterLogin | api/resources/security.py:176-184 | the identity a log-in issues is truthy, so refreshing with it is granted |

## Left out

- api/resources/predict_proba.py is not part of this model. Only `Predictor.predict_proba` is modelled.
- Reading configuration files, creating directories, and the glob itself are left out. The matched paths and the location are inputs.
- `ntpath.basename` of a UNC path (`//server/share`) is not modelled. That function treats the whole UNC prefix as the drive; the model strips only an `X:` drive.
- Manager.ListedArtifactInsideLocation: a listed identifier's matched file need not be the file `load` opens. The pattern `<location>**/*.joblib` is globbed without `recursive=True`, so it can match files in subdirectories, or in a sibling directory such as `models_old` when the location has no trailing slash; reading the opened path may then fail, and that failure is raised as a foreign exception.
- Manager.Load: the registry opens `<location>/<id>.joblib` by posix `os.path.join`, since the service runs on posix paths.
- InputSchema.LabelsFieldValue: a non-string label is reported on `labels` with one message, not with marshmallow's per-index dictionary `{'labels': {i: [...]}}`.
- InputSchema.PreLoad: any non-dict request raises the `get` attribute error. An arbitrary object with its own `get` method is not modelled.
- Logging.LoggableObject: any non-dict raises the `update` attribute error. An arbitrary object with its own `update` is not modelled. The deep copy is implicit, because values are immutable.
- Errors.HandleError: exceptions are dispatched by class name only. Flask's lookup through base classes is not modelled.
- Errors.HandleError: the flask_restful error router in api/common/base.py is not modelled. A 422 is assumed to reach the Flask handler registered for that status.
- Errors.HandleError: werkzeug's own response for an HTTP exception without a handler is reduced to its status.
- Errors.HandleError: the text of werkzeug's `InternalServerError` is a parameter.
- Security.SignUpForm: the `str` of werkzeug's `UnprocessableEntity` is a constant of the model, and the schema webargs attaches is an opaque object.
- Security.SignUpForm: a request without a JSON body is not modelled; the JSON body is an input.
- `@jwt_required` and `@ApiCache` are not modelled; a request reaches `post` as if authorised and not cached.
- Hashing, token creation and the uuid source are parameters. bcrypt's random salt is covered because `hash` is given per call.
- AuthModels.User.Save: re-saving a user whose row is gone leaves the table unchanged, as a stale-data rollback would.
- SQLAlchemy sessions, and the timestamp columns `created_on` and `updated_on`, are not modelled.
- The unique-constraint behaviour of the database is not modelled. Commit success or failure is an input.
- `User.update`, `get_by_identifier` and `check_password` are not modelled. The core rules do not call them.
- Logger handler construction, date-stamped file names and importing the handler class are not modelled. Only the dotted-path split is.
- Python.Truth: numpy 2.2 and later also raise ValueError for `bool()` of an empty array; the model follows earlier versions, since the numpy version is not pinned and no modelled path applies `bool()` to an array.
- Concurrency between requests is not modelled. Each call is modelled on its own resource object.
- RequestWrapper.UnwrapRequest: `request.args` is a multi-dict. It is modelled as a map from each key to its first value.
