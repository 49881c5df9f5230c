/**
 * The account resources: the password rule, the sign-up and log-in forms,
 * sign-up over the user table, log-in, and refreshing an access token. Token
 * creation (JWT) and password hashing (bcrypt) are parameters.
 */
module Security {
  import opened Python
  import opened InputSchema
  import opened AuthModels
  import opened Errors

  const PasswordRuleMessage := "Password must meet: a) contain at least 1 letter and at least 1 number, b) between 6-50 characters"
  const UsernameTaken := "Username already exist"
  const InvalidCredentials := "Invalid credentials"
  const InvalidUser := "Invalid user"

  predicate IsAsciiDigit(c: char) {
    '0' <= c <= '9'
  }

  predicate IsAsciiLetter(c: char) {
    'a' <= c <= 'z' || 'A' <= c <= 'Z'
  }

  /** What `.` matches: any character but a line feed. */
  predicate Dot(c: char) {
    c != '\n'
  }

  /** The lookahead `(?=.*[0-9]+.*)` at the start: a digit is reached through
      characters `.` matches. */
  predicate DigitAhead(s: string) {
    exists i :: 0 <= i < |s| && IsAsciiDigit(s[i]) && forall k :: 0 <= k < i ==> Dot(s[k])
  }

  /** The lookahead `(?=.*[a-zA-Z]+.*)` at the start. */
  predicate LetterAhead(s: string) {
    exists i :: 0 <= i < |s| && IsAsciiLetter(s[i]) && forall k :: 0 <= k < i ==> Dot(s[k])
  }

  /** `.{7,50}$` at the start: 7 to 50 characters `.` matches, then the end
      of the text or a line feed that ends it. */
  predicate RunToEnd(s: string) {
    exists n {:trigger s[..n]} :: 7 <= n <= 50 && n <= |s| && (forall k :: 0 <= k < n ==> Dot(s[k]))
                && (n == |s| || (n + 1 == |s| && s[n] == '\n'))
  }

  /** `re.match("^(?=.*[0-9]+.*)(?=.*[a-zA-Z]+.*).{7,50}$", s)` succeeds. */
  predicate PasswordMatches(s: string): (b: bool)
    ensures b ==> 7 <= |s| <= 51
  {
    DigitAhead(s) && LetterAhead(s) && RunToEnd(s)
  }

  /** The text without one final line feed, which `$` lets through. */
  function Body(s: string): (b: string)
    ensures b <= s && |s| - 1 <= |b|
  {
    if |s| > 0 && s[|s| - 1] == '\n' then s[..|s| - 1] else s
  }

  /** The rule in words: apart from one final line feed, 7 to 50 characters,
      no line feed, an ASCII digit and an ASCII letter. */
  predicate PasswordPolicy(s: string) {
    var b := Body(s);
    && 7 <= |b| <= 50
    && (forall k :: 0 <= k < |b| ==> b[k] != '\n')
    && (exists k :: 0 <= k < |b| && IsAsciiDigit(b[k]))
    && (exists k :: 0 <= k < |b| && IsAsciiLetter(b[k]))
  }

  /** The regular expression accepts exactly the passwords the rule in words
      describes; in particular 6 characters are too few, whatever the error
      message says. */
  lemma PasswordRule(s: string)
    ensures PasswordMatches(s) <==> PasswordPolicy(s)
  {
    if PasswordMatches(s) {
      MatchesImpliesPolicy(s);
    }
    if PasswordPolicy(s) {
      PolicyImpliesMatches(s);
    }
  }

  lemma MatchesImpliesPolicy(s: string)
    requires PasswordMatches(s)
    ensures PasswordPolicy(s)
  {
    var n :| 7 <= n <= 50 && n <= |s| && (forall k :: 0 <= k < n ==> Dot(s[k]))
             && (n == |s| || (n + 1 == |s| && s[n] == '\n'));
    var b := Body(s);
    assert b == s[..n] by {
      if n == |s| {
        assert Dot(s[n - 1]);
      }
    }
    forall k | 0 <= k < |b|
      ensures b[k] != '\n'
    {
      assert b[k] == s[k] && Dot(s[k]);
    }
    var d :| 0 <= d < |s| && IsAsciiDigit(s[d]) && forall k :: 0 <= k < d ==> Dot(s[k]);
    assert d < n && b[d] == s[d];
    var l :| 0 <= l < |s| && IsAsciiLetter(s[l]) && forall k :: 0 <= k < l ==> Dot(s[k]);
    assert l < n && b[l] == s[l];
  }

  lemma PolicyImpliesMatches(s: string)
    requires PasswordPolicy(s)
    ensures PasswordMatches(s)
  {
    var b := Body(s);
    var n := |b|;
    assert forall k :: 0 <= k < n ==> s[k] == b[k];
    assert n == |s| || (n + 1 == |s| && s[n] == '\n');
    assert s[..n] == b;
    var d :| 0 <= d < |b| && IsAsciiDigit(b[d]);
    assert s[d] == b[d];
    var l :| 0 <= l < |b| && IsAsciiLetter(b[l]);
    assert s[l] == b[l];
  }

  /** The edges of the rule. */
  lemma PasswordExamples()
    ensures !PasswordPolicy("abcde1")
    ensures PasswordPolicy("abcdef1")
    ensures PasswordPolicy("abcdef1\n")
    ensures !PasswordPolicy("abcdefg")
  {
    assert IsAsciiDigit("abcdef1"[6]);
    assert IsAsciiLetter("abcdef1"[0]);
    assert Body("abcdef1\n") == "abcdef1";
  }

  /** The keys the two forms declare. */
  const FormFields: set<string> := {"username", "password"}
  const UnknownField := "Unknown field."

  /** marshmallow's error dictionary for a form: the messages per key. */
  type FormErrors = map<string, seq<string>>

  function FieldErrors(r: Result<string, FieldError>): (errors: FormErrors)
    ensures r.Ok? ==> errors == map[]
    ensures r.Err? ==> errors == map[r.error.field := [r.error.message]]
  {
    if r.Ok? then map[] else map[r.error.field := [r.error.message]]
  }

  /** Every key the form does not declare is refused (`unknown=RAISE`). */
  function UnknownFields(body: map<string, Value>): (errors: FormErrors)
    ensures errors.Keys == body.Keys - FormFields
    ensures forall k :: k in errors ==> errors[k] == [UnknownField]
  {
    map k | k in body.Keys - FormFields :: [UnknownField]
  }

  /** The `password` field of a form; on the sign-up form it must also match
      the rule. */
  function PasswordField(body: map<string, Value>, checkRule: bool): (r: Result<string, FieldError>)
    ensures r.Ok? <==> StringField(body, "password").Ok?
                       && (checkRule ==> PasswordMatches(StringField(body, "password").value))
    ensures r.Ok? ==> r == StringField(body, "password")
    ensures r.Err? ==> r.error.field == "password"
  {
    var p := StringField(body, "password");
    if checkRule && p.Ok? && !PasswordMatches(p.value) then Err(FieldError("password", PasswordRuleMessage)) else p
  }

  /** Loading the JSON body into a form: a dict whose keys are all declared
      and whose fields load, or the errors of every failing and every unknown
      key together. */
  function LoadForm(body: Value, checkRule: bool): (r: Result<(string, string), FormErrors>)
    ensures r.Ok? <==> && body.PyDict? && body.entries.Keys <= FormFields
                       && StringField(body.entries, "username").Ok? && PasswordField(body.entries, checkRule).Ok?
    ensures body.PyDict? && r.Err? ==>
              && ("username" in r.error <==> StringField(body.entries, "username").Err?)
              && ("password" in r.error <==> PasswordField(body.entries, checkRule).Err?)
              && (forall k :: k in body.entries && k !in FormFields ==> k in r.error && r.error[k] == [UnknownField])
              && r.error.Keys <= FormFields + body.entries.Keys
  {
    if !body.PyDict? then Err(map["_schema" := [InvalidInputType]])
    else
      var user := StringField(body.entries, "username");
      var pass := PasswordField(body.entries, checkRule);
      var unknown := UnknownFields(body.entries);
      if user.Ok? && pass.Ok? && body.entries.Keys <= FormFields then Ok((user.value, pass.value))
      else Err(FieldErrors(user) + FieldErrors(pass) + unknown)
  }

  /** The sign-up form (`username` and `password` strings from the JSON body,
      the password under the rule, no other key), or the errors per key. */
  function SignUpForm(body: Value): (r: Result<(string, string), FormErrors>)
    ensures r.Ok? <==> && body.PyDict? && body.entries.Keys <= FormFields
                       && StringField(body.entries, "username").Ok?
                       && StringField(body.entries, "password").Ok?
                       && PasswordMatches(StringField(body.entries, "password").value)
    ensures r.Ok? ==> r.value == (body.entries["username"].s, body.entries["password"].s)
    ensures !body.PyDict? ==> r == Err(map["_schema" := [InvalidInputType]])
    ensures body.PyDict? && r.Err? ==>
              && ("username" in r.error <==> StringField(body.entries, "username").Err?)
              && ("password" in r.error <==>
                    (StringField(body.entries, "password").Err?
                     || !PasswordMatches(StringField(body.entries, "password").value)))
              && (forall k :: k in body.entries && k !in FormFields ==> k in r.error && r.error[k] == [UnknownField])
              && r.error.Keys <= FormFields + body.entries.Keys
  {
    LoadForm(body, true)
  }

  /** The log-in form: both fields are only required to be strings, and no
      other key may be present. */
  function SignInForm(body: Value): (r: Result<(string, string), FormErrors>)
    ensures r.Ok? <==> && body.PyDict? && body.entries.Keys <= FormFields
                       && StringField(body.entries, "username").Ok?
                       && StringField(body.entries, "password").Ok?
    ensures r.Ok? ==> r.value == (body.entries["username"].s, body.entries["password"].s)
    ensures !body.PyDict? ==> r == Err(map["_schema" := [InvalidInputType]])
    ensures body.PyDict? && r.Err? ==>
              && ("username" in r.error <==> StringField(body.entries, "username").Err?)
              && ("password" in r.error <==> StringField(body.entries, "password").Err?)
              && (forall k :: k in body.entries && k !in FormFields ==> k in r.error && r.error[k] == [UnknownField])
              && r.error.Keys <= FormFields + body.entries.Keys
  {
    LoadForm(body, false)
  }

  /** A body with a key the form does not declare is refused, even when both
      fields are valid. */
  lemma ExtraKeyRefused()
    ensures SignUpForm(PyDict(map["username" := PyStr("user"), "password" := PyStr("abcdef1"),
                                  "email" := PyStr("user@example.com")]))
            == Err(map["email" := [UnknownField]])
  {
    var body := map["username" := PyStr("user"), "password" := PyStr("abcdef1"), "email" := PyStr("user@example.com")];
    SamplePasswordMatches();
    assert StringField(body, "username") == Ok("user");
    assert PasswordField(body, true) == Ok("abcdef1");
    assert "email" in body.Keys && "email" !in FormFields;
    var errors: FormErrors := map[];
    assert FieldErrors(StringField(body, "username")) == errors;
    assert FieldErrors(PasswordField(body, true)) == errors;
    assert LoadForm(PyDict(body), true) == Err(errors + errors + UnknownFields(body));
    assert errors + errors + UnknownFields(body) == UnknownFields(body);
    assert UnknownFields(body) == map["email" := [UnknownField]];
  }

  lemma SamplePasswordMatches()
    ensures PasswordMatches("abcdef1")
  {
    var s := "abcdef1";
    assert IsAsciiDigit(s[6]) && forall k :: 0 <= k < 6 ==> Dot(s[k]);
    assert IsAsciiLetter(s[0]);
    assert s[..7] == s;
  }

  /** The JSON location under which webargs files the form errors. */
  const JsonLocation := "json"
  const UnprocessableText := "422 Unprocessable Entity: The request was well-formed but was unable to be followed due to semantic errors."

  /** The messages of one key as a list of strings. */
  function Texts(messages: seq<string>): (v: Value)
    ensures v.PyList? && |v.items| == |messages|
    ensures forall i :: 0 <= i < |messages| ==> v.items[i] == PyStr(messages[i])
  {
    PyList(seq(|messages|, i requires 0 <= i < |messages| => PyStr(messages[i])))
  }

  /** The error dictionary as the Python value webargs hands on. */
  function MessagesValue(errors: FormErrors): (v: Value)
    ensures v.PyDict? && v.entries.Keys == errors.Keys
    ensures forall k :: k in errors ==> v.entries[k] == Texts(errors[k])
  {
    PyDict(map k | k in errors :: Texts(errors[k]))
  }

  /** What `use_kwargs` raises when the form does not load: `abort(422)`, an
      `UnprocessableEntity` whose `data` holds the messages filed under the
      JSON location, the schema, and no headers. */
  function FormRejected(errors: FormErrors): (e: Error)
    ensures e.HttpException? && e.httpName == "UnprocessableEntity" && e.code == 422
    ensures "messages" in e.data && e.data["messages"] == PyDict(map[JsonLocation := MessagesValue(errors)])
    ensures "headers" in e.data && e.data["headers"] == PyNone
  {
    HttpException("UnprocessableEntity", 422, UnprocessableText,
                  map["messages" := PyDict(map[JsonLocation := MessagesValue(errors)]),
                      "schema" := PyObject("Schema"),
                      "headers" := PyNone])
  }

  /** A form that does not load is answered by the 422 handler: status 422
      and `{"errors": {"json": {key: [message, ...]}}}`, without headers. */
  lemma FormFailureIs422(errors: FormErrors, serverErrorText: string)
    ensures HandleError(Registered(map[]), true, FormRejected(errors), serverErrorText)
            == Handled(Response(PyDict(map["errors" := PyDict(map[JsonLocation := MessagesValue(errors)])]),
                                422, JsonMimetype, None))
  {
    var e := FormRejected(errors);
    assert ClassName(e) !in ClientSideErrors;
    UnhandledHttpExceptions(e, serverErrorText);
  }

  /** A flask_restful answer `(dict, status)`. */
  function Answer(entries: map<string, Value>, status: int): Response {
    Response(PyDict(entries), status, JsonMimetype, None)
  }

  /** The table after sign-up and the answer, for the given commit outcome. */
  datatype SignupResult = SignupResult(rows: seq<UserRow>, nextId: nat, response: Response)

  /** `SignupResource.post` on valid form fields: a taken name is refused and
      the table is left alone; otherwise the hashed password is saved, and the
      answer is 201 even when the commit was rolled back. */
  function SignupSpec(rows: seq<UserRow>, nextId: nat, username: string, password: string,
                      hash: string -> string, outcome: CommitOutcome): (r: SignupResult)
    ensures GetByUsername(rows, username).Some? ==>
              r == SignupResult(rows, nextId, Answer(map["message" := PyStr(UsernameTaken)], 400))
    ensures GetByUsername(rows, username).None? ==>
              r.response == Answer(map["username" := PyStr(username)], 201)
    ensures GetByUsername(rows, username).None? && outcome == Committed ==>
              r.rows == rows + [UserRow(nextId, username, hash(password))] && r.nextId == nextId + 1
    ensures outcome != Committed ==> r.rows == rows && r.nextId == nextId
  {
    if GetByUsername(rows, username).Some? then
      SignupResult(rows, nextId, Answer(map["message" := PyStr(UsernameTaken)], 400))
    else if outcome == Committed then
      SignupResult(rows + [UserRow(nextId, username, hash(password))], nextId + 1,
                   Answer(map["username" := PyStr(username)], 201))
    else
      SignupResult(rows, nextId, Answer(map["username" := PyStr(username)], 201))
  }

  /** `SignupResource.post` behind its form: a form that does not load is
      raised as a 422 for the 422 handler, otherwise the user table changes as `SignupSpec` says. */
  method Signup(db: Database, body: Value, hash: string -> string, outcome: CommitOutcome)
    returns (r: Result<Response, Error>)
    modifies db
    ensures SignUpForm(body).Err? ==>
              r == Err(FormRejected(SignUpForm(body).error)) && db.rows == old(db.rows) && db.nextId == old(db.nextId)
    ensures SignUpForm(body).Ok? ==>
              var (u, p) := SignUpForm(body).value;
              var spec := SignupSpec(old(db.rows), old(db.nextId), u, p, hash, outcome);
              r == Ok(spec.response) && db.rows == spec.rows && db.nextId == spec.nextId
  {
    var form := SignUpForm(body);
    if form.Err? {
      return Err(FormRejected(form.error));
    }
    var (username, password) := form.value;
    if GetByUsername(db.rows, username).Some? {
      return Ok(Answer(map["message" := PyStr(UsernameTaken)], 400));
    }
    var user := new User(username, password);
    user.HashPassword(hash);
    user.Save(db, outcome);
    r := Ok(Answer(map["username" := PyStr(user.username)], 201));
  }

  /** `str(n)` for a natural number. */
  function DecimalString(n: nat): (s: string)
    ensures |s| > 0
    ensures forall k :: 0 <= k < |s| ==> IsAsciiDigit(s[k])
  {
    var d := ['0' + (n % 10) as char];
    if n < 10 then d else DecimalString(n / 10) + d
  }

  /** `int(s)` for a string of ASCII digits. */
  function DecimalValue(s: string): nat
    requires forall k :: 0 <= k < |s| ==> IsAsciiDigit(s[k])
  {
    if s == [] then 0
    else
      var c := s[|s| - 1];
      assert IsAsciiDigit(c);
      10 * DecimalValue(s[..|s| - 1]) + (c as int - '0' as int)
  }

  /** The token identity reads back as the user's key, so distinct users get
      distinct identities. */
  lemma {:induction false} DecimalRoundTrip(n: nat)
    ensures DecimalValue(DecimalString(n)) == n
  {
    var s := DecimalString(n);
    assert s[..|s| - 1] == if n < 10 then "" else DecimalString(n / 10);
    if n >= 10 {
      DecimalRoundTrip(n / 10);
    }
  }

  /** The token factory of flask_jwt_extended: an access token for an
      identity and a freshness flag, a refresh token for an identity. */
  datatype Tokens = Tokens(access: (Value, bool) -> string, refresh: Value -> string)

  /** `LoginResource.post` on valid form fields. */
  function LoginSpec(rows: seq<UserRow>, username: string, password: string,
                     check: (string, string) -> bool, tokens: Tokens): (r: Response)
    ensures Authenticate(rows, username, password, check).None? ==>
              r == Answer(map["message" := PyStr(InvalidCredentials)], 401)
    ensures Authenticate(rows, username, password, check).Some? ==>
              var user := Authenticate(rows, username, password, check).value;
              var identity := PyStr(DecimalString(user.id));
              r == Answer(map["username" := PyStr(user.username),
                              "access_token" := PyStr(tokens.access(identity, true)),
                              "refresh_token" := PyStr(tokens.refresh(identity))], 200)
  {
    match Authenticate(rows, username, password, check)
    case None => Answer(map["message" := PyStr(InvalidCredentials)], 401)
    case Some(user) =>
      var identity := PyStr(DecimalString(user.id));
      Answer(map["username" := PyStr(user.username),
                 "access_token" := PyStr(tokens.access(identity, true)),
                 "refresh_token" := PyStr(tokens.refresh(identity))], 200)
  }

  /** `LoginResource.post` behind its form. */
  function Login(rows: seq<UserRow>, body: Value, check: (string, string) -> bool, tokens: Tokens): (r: Result<Response, Error>)
    ensures SignInForm(body).Err? ==> r == Err(FormRejected(SignInForm(body).error))
    ensures SignInForm(body).Ok? ==> r == Ok(LoginSpec(rows, SignInForm(body).value.0, SignInForm(body).value.1, check, tokens))
  {
    match SignInForm(body)
    case Err(errors) => Err(FormRejected(errors))
    case Ok(form) => Ok(LoginSpec(rows, form.0, form.1, check, tokens))
  }

  /** `RefreshAccessTokenResource.post` for the identity in the refresh token:
      a falsy identity is refused, any other gets a non-fresh access token. */
  function Refresh(identity: Value, tokens: Tokens): (r: Result<Response, Error>)
    ensures Truth(identity) == Ok(false) ==> r == Ok(Answer(map["message" := PyStr(InvalidUser)], 401))
    ensures Truth(identity) == Ok(true) ==>
              r == Ok(Answer(map["access_token" := PyStr(tokens.access(identity, false))], 200))
    ensures Truth(identity).Err? ==> r == Err(Truth(identity).error)
  {
    var truthy :- Truth(identity);
    if !truthy then Ok(Answer(map["message" := PyStr(InvalidUser)], 401))
    else Ok(Answer(map["access_token" := PyStr(tokens.access(identity, false))], 200))
  }

  /** A user who signed up under a free name with a committed save can log in
      with the same password, provided bcrypt checks the stored hash against
      it; the tokens are issued for the new key. */
  lemma SignupThenLogin(rows: seq<UserRow>, nextId: nat, username: string, password: string,
                        hash: string -> string, check: (string, string) -> bool, tokens: Tokens)
    requires username != "" && password != ""
    requires GetByUsername(rows, username).None?
    requires check(hash(password), password)
    ensures var after := SignupSpec(rows, nextId, username, password, hash, Committed).rows;
            var identity := PyStr(DecimalString(nextId));
            LoginSpec(after, username, password, check, tokens)
            == Answer(map["username" := PyStr(username),
                          "access_token" := PyStr(tokens.access(identity, true)),
                          "refresh_token" := PyStr(tokens.refresh(identity))], 200)
  {
    var after := rows + [UserRow(nextId, username, hash(password))];
    assert FirstNamed(after, username) == Some(|rows|) by {
      FirstNamedAppend(rows, UserRow(nextId, username, hash(password)));
    }
  }

  lemma {:induction false} FirstNamedAppend(rows: seq<UserRow>, row: UserRow)
    requires forall i :: 0 <= i < |rows| ==> rows[i].username != row.username
    ensures FirstNamed(rows + [row], row.username) == Some(|rows|)
  {
    if rows != [] {
      assert (rows + [row])[1..] == rows[1..] + [row];
      FirstNamedAppend(rows[1..], row);
    }
  }

  /** A name that is taken stays with its first owner: signing up again under
      it changes nothing, whatever the password. */
  lemma SecondSignupRefused(rows: seq<UserRow>, nextId: nat, username: string, p1: string, p2: string,
                            hash: string -> string)
    requires GetByUsername(rows, username).None?
    ensures var first := SignupSpec(rows, nextId, username, p1, hash, Committed);
            SignupSpec(first.rows, first.nextId, username, p2, hash, Committed)
            == SignupResult(first.rows, first.nextId, Answer(map["message" := PyStr(UsernameTaken)], 400))
  {
    var first := SignupSpec(rows, nextId, username, p1, hash, Committed);
    assert first.rows[|rows|].username == username;
  }

  /** The identity a log-in puts in its refresh token is a non-empty string,
      so refreshing with it is granted. */
  lemma RefreshAfterLogin(id: nat, tokens: Tokens)
    ensures Refresh(PyStr(DecimalString(id)), tokens)
            == Ok(Answer(map["access_token" := PyStr(tokens.access(PyStr(DecimalString(id)), false))], 200))
  {
  }
}
