/** The pure decisions of the Odoo login handler: reading its configuration
    and request, classifying the JSON-RPC 2.0 reply of the authenticate call,
    and reading the profile row. Replies arrive already decoded. */
module OdooRpc {
  import opened Common
  import opened Text

  // ---------------------------------------------------------------------------
  // Configuration and request

  /** The environment values the handler reads: MM_ODOO_BASE_URL, MM_ODOO_DB,
      MM_ODOO_JSONRPC_PATH and MM_ODOO_TIMEOUT_MS ("" when unset). */
  datatype Env = Env(baseUrl: string, db: string, rpcPath: string, timeoutMs: string)

  /** The JSON body of the login request. */
  datatype LoginRequest = LoginRequest(identifier: string, password: string)

  /** Everything the handler has checked before its first remote call. */
  datatype Config = Config(baseUrl: string, db: string, rpcPath: string, timeoutMs: int, request: LoginRequest)

  const DefaultRpcPath := "/jsonrpc"
  const DefaultTimeoutMs := 8000

  const MissingBaseUrl := AppError("loginOdoo", "api.user.odoo_login.missing_base_url", "", StatusInternalServerError)
  const MissingDb := AppError("loginOdoo", "api.user.odoo_login.missing_db", "", StatusInternalServerError)

  /** The error the request context reports for a bad body parameter. */
  function InvalidParam(name: string): AppError {
    AppError("Context", "api.context.invalid_body_param.app_error", name, StatusBadRequest)
  }

  /** The per-call timeout: the environment value when it parses as a positive
      integer, 8000 ms otherwise. */
  function TimeoutMs(v: string): (r: int)
    ensures r > 0
    ensures (match ParseInt(v) case Some(n) => n > 0 case None => false) ==> Some(r) == ParseInt(v)
    ensures (match ParseInt(v) case Some(n) => n <= 0 case None => true) ==> r == DefaultTimeoutMs
  {
    if v != "" then
      match ParseInt(v)
      case Some(n) => if n > 0 then n else DefaultTimeoutMs
      case None => DefaultTimeoutMs
    else DefaultTimeoutMs
  }

  /** Every positive int64 written in decimal is taken as the timeout. */
  lemma TimeoutRoundTrip(n: int)
    requires 0 < n <= MaxInt64
    ensures TimeoutMs(FormatInt(n)) == n
  {
    ParseFormat(n);
  }

  /** Configuration checks, then the body (None when it does not decode),
      then the two credentials. */
  function LoadConfig(env: Env, body: Option<LoginRequest>): (r: Result<Config, AppError>)
    ensures TrimRightChar(env.baseUrl, '/') == "" ==> r == Failure(MissingBaseUrl)
    ensures TrimRightChar(env.baseUrl, '/') != "" && env.db == "" ==> r == Failure(MissingDb)
    ensures (r.Failure? && r.error.status == StatusInternalServerError)
      <==> TrimRightChar(env.baseUrl, '/') == "" || env.db == ""
    ensures (r.Failure? && r.error.status == StatusBadRequest)
      <==> TrimRightChar(env.baseUrl, '/') != "" && env.db != ""
           && (body.None? || body.value.identifier == "" || body.value.password == "")
    ensures r.Failure? ==> r.error.status == StatusInternalServerError || r.error.status == StatusBadRequest
    ensures r.Success? <==>
      TrimRightChar(env.baseUrl, '/') != "" && env.db != ""
      && body.Some? && body.value.identifier != "" && body.value.password != ""
    ensures r.Success? ==>
      && body.Some? && r.value.request == body.value
      && r.value.request.identifier != "" && r.value.request.password != ""
      && r.value.baseUrl != "" && r.value.baseUrl[|r.value.baseUrl| - 1] != '/'
      && r.value.baseUrl <= env.baseUrl
      && (forall i :: |r.value.baseUrl| <= i < |env.baseUrl| ==> env.baseUrl[i] == '/')
      && r.value.db == env.db
      && r.value.rpcPath == (if env.rpcPath == "" then DefaultRpcPath else env.rpcPath)
      && r.value.timeoutMs == TimeoutMs(env.timeoutMs)
  {
    var baseUrl := TrimRightChar(env.baseUrl, '/');
    if baseUrl == "" then Failure(MissingBaseUrl)
    else if env.db == "" then Failure(MissingDb)
    else if body.None? then Failure(InvalidParam("body"))
    else if body.value.identifier == "" || body.value.password == "" then Failure(InvalidParam("identifier/password"))
    else
      var rpcPath := if env.rpcPath == "" then DefaultRpcPath else env.rpcPath;
      Success(Config(baseUrl, env.db, rpcPath, TimeoutMs(env.timeoutMs), body.value))
  }

  /** A missing base URL or database name is reported before the body is
      looked at: whatever the body, the answer is the same. */
  lemma ConfigErrorIgnoresBody(env: Env, b1: Option<LoginRequest>, b2: Option<LoginRequest>)
    requires TrimRightChar(env.baseUrl, '/') == "" || env.db == ""
    ensures LoadConfig(env, b1) == LoadConfig(env, b2)
  {
  }

  // ---------------------------------------------------------------------------
  // JSON-RPC replies

  /** A decoded JSON value (numbers are modelled as integers). */
  datatype Json =
    | JNull
    | JBool(b: bool)
    | JNumber(n: int)
    | JString(s: string)
    | JArray(items: seq<Json>)
    | JObject(fields: map<string, Json>)

  /** The error object of a JSON-RPC 2.0 response. */
  datatype RpcError = RpcError(code: int, message: string, data: Json)

  /** A decoded JSON-RPC 2.0 response envelope; `result` is the decoded
      form of its result member. */
  datatype Envelope<R> = Envelope(error: Option<RpcError>, result: R)

  /** What one HTTP POST gave back: a transport failure, or a status and a
      body that decoded as an envelope (Some) or did not (None). */
  datatype Exchange<R> = Unreachable(reason: string) | Responded(status: int, body: Option<Envelope<R>>)

  const UpstreamError := "api.user.odoo_login.upstream_error"
  const DecodeError := "api.user.odoo_login.decode_error"
  const DecodeUidError := "api.user.odoo_login.decode_uid_error"
  const DecodeUserError := "api.user.odoo_login.decode_user_error"
  const UserNotFound := "api.user.odoo_login.user_not_found"

  // ---------------------------------------------------------------------------
  // Authenticate

  datatype Company = Company(id: int, name: string)

  /** The fields of the authenticate result that the handler uses. The
      companies come from `user_companies.allowed_companies`, in whatever order
      the map was walked. */
  datatype OdooAuthResult = OdooAuthResult(
    uid: int, isSystem: bool, isAdmin: bool, name: string, username: string,
    allowedCompanies: seq<Company>)

  /** The zero value returned for "rejected": uid 0. */
  const EmptyAuth := OdooAuthResult(0, false, false, "", "", [])

  /** The result member of the authenticate reply: empty or `null`, decoded
      (by the typed decoder or by the uid-only fallback), or undecodable. */
  datatype AuthPayload = NoResult | Decoded(auth: OdooAuthResult) | Undecodable(reason: string)

  /** The words whose presence in an error message means "wrong credentials". */
  const RejectionKeywords: seq<string> := ["wrong", "password", "access denied", "invalid", "authentication failed"]

  /** Whether the lower-cased error message holds one of the rejection
      keywords. */
  function MessageRejects(message: string): (r: bool)
    ensures r <==> exists k :: k in RejectionKeywords && Contains(Lower(message), k)
  {
    var msg := Lower(message);
    var r := Contains(msg, "wrong") || Contains(msg, "password") || Contains(msg, "access denied")
             || Contains(msg, "invalid") || Contains(msg, "authentication failed");
    assert r ==> exists k :: k in RejectionKeywords && Contains(msg, k) by {
      assert RejectionKeywords[0] == "wrong" && RejectionKeywords[1] == "password";
      assert RejectionKeywords[2] == "access denied" && RejectionKeywords[3] == "invalid";
      assert RejectionKeywords[4] == "authentication failed";
      if Contains(msg, "wrong") { assert "wrong" in RejectionKeywords; }
      else if Contains(msg, "password") { assert "password" in RejectionKeywords; }
      else if Contains(msg, "access denied") { assert "access denied" in RejectionKeywords; }
      else if Contains(msg, "invalid") { assert "invalid" in RejectionKeywords; }
      else if Contains(msg, "authentication failed") { assert "authentication failed" in RejectionKeywords; }
    }
    r
  }

  /** A string member of a JSON object that mentions `word` in any case. */
  predicate MemberMentions(data: Json, key: string, word: string) {
    data.JObject? && key in data.fields && data.fields[key].JString?
    && Contains(Lower(data.fields[key].s), word)
  }

  /** `error.data` as a JSON object whose `name` mentions "accessdenied" or
      whose `message` mentions "access denied" or "invalid" (any case). Any
      other member, and data that is not an object, is ignored. */
  function DataRejects(data: Json): (r: bool)
    ensures !data.JObject? ==> !r
    ensures r <==>
      || MemberMentions(data, "name", "accessdenied")
      || MemberMentions(data, "message", "access denied")
      || MemberMentions(data, "message", "invalid")
  {
    data.JObject? &&
    (("name" in data.fields && data.fields["name"].JString?
       && Contains(Lower(data.fields["name"].s), "accessdenied"))
     || ("message" in data.fields && data.fields["message"].JString?
       && (Contains(Lower(data.fields["message"].s), "access denied")
           || Contains(Lower(data.fields["message"].s), "invalid"))))
  }

  /** Whether an RPC error is read as "invalid credentials" rather than as a
      failure of the upstream service. */
  function ErrorMeansRejected(e: RpcError): (r: bool)
    ensures MessageRejects(e.message) ==> r
    ensures DataRejects(e.data) ==> r
    // Nothing but the message and the data's `name` and `message` members counts.
    ensures r ==> MessageRejects(e.message) || DataRejects(e.data)
    ensures !e.data.JObject? ==> (r <==> MessageRejects(e.message))
  {
    MessageRejects(e.message) || DataRejects(e.data)
  }

  /** Classifies the reply to `/web/session/authenticate`. A success with uid 0
      means "credentials rejected"; every failure is a 502. */
  function Authenticate(x: Exchange<AuthPayload>): (r: Result<OdooAuthResult, AppError>)
    ensures r.Failure? ==> r.error.status == StatusBadGateway
    ensures x.Responded? && (x.status == StatusUnauthorized || x.status == StatusForbidden) ==> r == Success(EmptyAuth)
    ensures (x.Responded? && x.status != StatusUnauthorized && x.status != StatusForbidden
             && x.body.Some? && x.body.value.error.Some?) ==>
        (r.Success? <==> ErrorMeansRejected(x.body.value.error.value))
        && (r.Success? ==> r.value == EmptyAuth)
        && (r.Failure? ==> r.error.id == UpstreamError && r.error.detail == x.body.value.error.value.message)
    ensures r.Success? && r.value.uid != 0 ==>
      x.Responded? && x.status != StatusUnauthorized && x.status != StatusForbidden
      && x.body.Some? && x.body.value.error.None? && x.body.value.result == Decoded(r.value)
    ensures x.Unreachable? ==> r.Failure? && r.error.id == UpstreamError
    ensures x.Responded? && x.status != StatusUnauthorized && x.status != StatusForbidden && x.body.None?
      ==> r.Failure? && r.error.id == DecodeError
    // Without an RPC error the result member decides: empty or `null` is
    // uid 0, a decoded result is returned as it is, anything else is a 502.
    ensures x.Responded? && x.status != StatusUnauthorized && x.status != StatusForbidden
            && x.body.Some? && x.body.value.error.None? ==>
      match x.body.value.result
      case NoResult => r == Success(EmptyAuth)
      case Decoded(auth) => r == Success(auth)
      case Undecodable(reason) => r.Failure? && r.error.id == DecodeUidError && r.error.detail == reason
  {
    match x
    case Unreachable(reason) => Failure(AppError("odooAuth", UpstreamError, reason, StatusBadGateway))
    case Responded(status, body) =>
      if status == StatusUnauthorized || status == StatusForbidden then Success(EmptyAuth)
      else if body.None? then Failure(AppError("odooAuth", DecodeError, "", StatusBadGateway))
      else if body.value.error.Some? then
        var e := body.value.error.value;
        if ErrorMeansRejected(e) then Success(EmptyAuth)
        else Failure(AppError("odooAuth", UpstreamError, e.message, StatusBadGateway))
      else
        match body.value.result
        case NoResult => Success(EmptyAuth)
        case Decoded(auth) => Success(auth)
        case Undecodable(reason) => Failure(AppError("odooAuth", DecodeUidError, reason, StatusBadGateway))
  }

  /** An error message holding one of the rejection keywords, in any mix of
      upper and lower case, means "invalid credentials". */
  lemma KeywordInAnyCaseRejects(message: string, k: string, i: int)
    requires k in RejectionKeywords
    requires 0 <= i && i + |k| <= |message|
    requires Lower(message[i..i + |k|]) == k
    ensures MessageRejects(message)
  {
    LowerOfSlice(message, i, i + |k|);
    assert OccursAt(Lower(message), k, i);
  }

  /** An `error.data.name` such as "odoo.exceptions.AccessDenied" means
      "invalid credentials", whatever the message says. */
  lemma AccessDeniedNameRejects(e: RpcError, i: int)
    requires e.data.JObject? && "name" in e.data.fields && e.data.fields["name"].JString?
    requires 0 <= i && i + 12 <= |e.data.fields["name"].s|
    requires Lower(e.data.fields["name"].s[i..i + 12]) == "accessdenied"
    ensures ErrorMeansRejected(e)
  {
    var name := e.data.fields["name"].s;
    LowerOfSlice(name, i, i + 12);
    assert OccursAt(Lower(name), "accessdenied", i);
  }

  /** An `error.data.message` holding "access denied" or "invalid", in any
      mix of upper and lower case, means "invalid credentials", whatever the
      error's own message says. */
  lemma DataMessageRejects(e: RpcError, k: string, i: int)
    requires k == "access denied" || k == "invalid"
    requires e.data.JObject? && "message" in e.data.fields && e.data.fields["message"].JString?
    requires 0 <= i && i + |k| <= |e.data.fields["message"].s|
    requires Lower(e.data.fields["message"].s[i..i + |k|]) == k
    ensures ErrorMeansRejected(e)
  {
    var m := e.data.fields["message"].s;
    LowerOfSlice(m, i, i + |k|);
    assert OccursAt(Lower(m), k, i);
  }

  /** Object data with neither a `name` nor a `message` member leaves the
      decision to the error's message. */
  lemma OtherDataIgnored(e: RpcError)
    requires e.data.JObject? && "name" !in e.data.fields && "message" !in e.data.fields
    ensures ErrorMeansRejected(e) <==> MessageRejects(e.message)
  {
  }

  /** An RPC error that neither the message nor the data marks as a rejection
      is an upstream failure. */
  lemma UnclassifiedErrorIsUpstream(status: int, e: RpcError, result: AuthPayload)
    requires status != StatusUnauthorized && status != StatusForbidden
    requires !ErrorMeansRejected(e)
    ensures Authenticate(Responded(status, Some(Envelope(Some(e), result))))
      == Failure(AppError("odooAuth", UpstreamError, e.message, StatusBadGateway))
  {
  }

  // ---------------------------------------------------------------------------
  // Profile

  /** The result member of the profile reply: absent, a list of rows, or not
      a list of rows. A `null` result decodes as the empty list. */
  datatype RowsPayload = NoRows | RowList(rows: seq<map<string, Json>>) | RowsUndecodable(reason: string)

  datatype Profile = Profile(email: string, login: string, name: string)

  /** A string field of a row, or "" when it is missing or not a string. */
  function GetString(row: map<string, Json>, key: string): (r: string)
    ensures key in row && row[key].JString? ==> r == row[key].s
    ensures !(key in row && row[key].JString?) ==> r == ""
  {
    if key in row then
      match row[key]
      case JString(s) => s
      case _ => ""
    else ""
  }

  /** Classifies the reply to the `res.users` `search_read` call. The HTTP
      status is not consulted. */
  function FetchProfile(x: Exchange<RowsPayload>): (r: Result<Profile, AppError>)
    ensures r.Failure? ==> r.error.status == StatusUnauthorized || r.error.status == StatusBadGateway
    ensures (r.Failure? && r.error.status == StatusUnauthorized) <==>
      x.Responded? && x.body.Some? && x.body.value.error.None?
      && (x.body.value.result.NoRows? || x.body.value.result == RowList([]))
    ensures r.Failure? && r.error.status == StatusUnauthorized ==> r.error.id == UserNotFound
    ensures x.Responded? && x.body.Some? && x.body.value.error.Some? ==>
      r == Failure(AppError("odooUserInfo", UpstreamError, x.body.value.error.value.message, StatusBadGateway))
    ensures x.Responded? && x.body.None? ==> r.Failure? && r.error.id == DecodeError
    ensures x.Responded? && x.body.Some? && x.body.value.error.None? && x.body.value.result.RowsUndecodable?
      ==> r.Failure? && r.error.id == DecodeUserError && r.error.detail == x.body.value.result.reason
    ensures r.Success? <==>
      x.Responded? && x.body.Some? && x.body.value.error.None?
      && x.body.value.result.RowList? && |x.body.value.result.rows| > 0
    ensures r.Success? ==>
      var row := x.body.value.result.rows[0];
         r.value == Profile(GetString(row, "email"), GetString(row, "login"), GetString(row, "name"))
  {
    match x
    case Unreachable(reason) => Failure(AppError("odooUserInfo", UpstreamError, reason, StatusBadGateway))
    case Responded(_, body) =>
      if body.None? then Failure(AppError("odooUserInfo", DecodeError, "", StatusBadGateway))
      else if body.value.error.Some? then
        Failure(AppError("odooUserInfo", UpstreamError, body.value.error.value.message, StatusBadGateway))
      else
        match body.value.result
        case NoRows => Failure(AppError("odooUserInfo", UserNotFound, "", StatusUnauthorized))
        case RowsUndecodable(reason) => Failure(AppError("odooUserInfo", DecodeUserError, reason, StatusBadGateway))
        case RowList(rows) =>
          if |rows| == 0 then Failure(AppError("odooUserInfo", UserNotFound, "", StatusUnauthorized))
          else
            var row := rows[0];
            Success(Profile(GetString(row, "email"), GetString(row, "login"), GetString(row, "name")))
  }
}
