/** The Docs API client (client.py): how a request URL is formed, how a
    response or a transport failure becomes a result or an error, and the
    client object whose HTTP session is opened on demand and closed on
    request. Requests the client sends are recorded in `sent`, in order;
    the network itself is the parameter `send`. */
module Client {
  import opened Wrappers
  import opened Strings
  import opened Json
  import opened Http
  import opened Exceptions
  import opened Config
  import Crdt
  import YjsUtils
  import Models

  /** The errors the client's operations raise besides `DocsError`s. */
  datatype ClientError =
    | Docs(error: DocsError)
    | ValueError(message: string)
    | BadRetryAfter(value: string)
    | NotAnObject
    | HttpStatus(code: int)
    | Transport(detail: string)
    | Yjs(yjs: YjsUtils.YjsError)
    | Malformed(what: string)
    | NotSerializable(typeName: string)

  // ---------------------------------------------------------------------------
  // URLs

  /** The URL of an endpoint: the API base URL, `/`, and the endpoint
      without its leading slashes. */
  function RequestUrl(c: DocsConfig, endpoint: string): (r: string)
    ensures var base := ApiBaseUrl(c) + "/";
      && |base| <= |r| && r[..|base|] == base
      && var tail := r[|base|..];
        && (tail == [] || tail[0] != '/')
        && |tail| <= |endpoint| && tail == endpoint[|endpoint| - |tail|..]
        && (forall i :: 0 <= i < |endpoint| - |tail| ==> endpoint[i] == '/')
  {
    var base := ApiBaseUrl(c) + "/";
    var r := base + LStripChar(endpoint, '/');
    assert r[..|base|] == base;
    assert r[|base|..] == LStripChar(endpoint, '/');
    r
  }

  /** Leading slashes on an endpoint make no difference. */
  lemma RequestUrlIgnoresLeadingSlash(c: DocsConfig, endpoint: string)
    ensures RequestUrl(c, "/" + endpoint) == RequestUrl(c, endpoint)
  {
    assert ("/" + endpoint)[1..] == endpoint;
  }

  // ---------------------------------------------------------------------------
  // Responses

  const AuthFailedMessage := "Authentication failed - invalid or expired token"
  const NoContentResult: Json := JObj(map["success" := JBool(true)])

  /** The `Retry-After` header as `int()` reads it: absent or empty means no
      wait was given; text that is not an integer raises `ValueError`. */
  function RetryAfter(headers: map<string, string>): (r: Result<Option<int>, ClientError>)
    ensures ("retry-after" !in headers || headers["retry-after"] == "") ==> r == Ok(None)
    ensures "retry-after" in headers && headers["retry-after"] != "" ==>
              var h := headers["retry-after"];
              && (ParseInt(h).Some? ==> r == Ok(Some(ParseInt(h).value)))
              && (ParseInt(h).None? ==> r == Err(BadRetryAfter(h)))
  {
    if "retry-after" !in headers || headers["retry-after"] == "" then Ok(None)
    else
      var h := headers["retry-after"];
      match ParseInt(h)
      case Some(n) => Ok(Some(n))
      case None => Err(BadRetryAfter(h))
  }

  /** The error of a status of 400 or more that has no error of its own: a
      generic API error carrying the status and the body, whose message is
      the body's `detail` or else `HTTP <status>`. A body that is not JSON
      counts as `{"detail": <text>}`; a JSON body that is not an object has
      no `get`, which raises `AttributeError`. */
  function ApiFailure(resp: Response): (e: ClientError)
    ensures resp.json.Some? && !resp.json.value.JObj? <==> e == NotAnObject
    ensures e != NotAnObject ==>
              && e.Docs? && IsApiError(e.error)
              && e.error.kind.statusCode == Some(resp.status)
              && e.error.kind.api == GenericApi
    ensures resp.json.None? ==>
              e.Docs? && e.error.message == JStr(resp.text)
              && e.error.kind.responseData == map["detail" := JStr(resp.text)]
    ensures resp.json.Some? && resp.json.value.JObj? ==>
              var body := resp.json.value.fields;
              && e.Docs? && e.error.kind.responseData == body
              && e.error.message == (if "detail" in body then body["detail"]
                                     else JStr("HTTP " + IntToString(resp.status)))
  {
    var body := if resp.json.Some? then resp.json.value else JObj(map["detail" := JStr(resp.text)]);
    match body
    case JObj(fields) =>
      var message := if "detail" in fields then fields["detail"] else JStr("HTTP " + IntToString(resp.status));
      Docs(ApiError(message, Some(resp.status), Some(fields), GenericApi))
    case _ => NotAnObject
  }

  /** What `_request` makes of a response, in the order it checks: 204 is
      success with no body, then 401, 403, 404 and 429 raise their own
      errors, any other status of 400 or more raises a generic API error,
      a status outside 2xx raises from `raise_for_status`, and a 2xx body is
      returned as decoded JSON, or as `{"data": <text>}` when it is not
      JSON. */
  function Classify(resp: Response): (r: Result<Json, ClientError>)
    ensures resp.status == 204 ==> r == Ok(NoContentResult)
    ensures r.Ok? <==> 200 <= resp.status < 300
    ensures r.Ok? && resp.status != 204 ==>
              r.value == (if resp.json.Some? then resp.json.value else JObj(map["data" := JStr(resp.text)]))
    ensures resp.status == 401 ==> r == Err(Docs(AuthError(Some(AuthFailedMessage))))
    ensures resp.status == 403 ==> r == Err(Docs(PermissionError("Permission denied", None)))
    ensures resp.status == 404 ==> r == Err(Docs(NotFoundError("Resource", "unknown")))
    ensures resp.status == 429 ==>
              && (RetryAfter(resp.headers).Ok? ==> r == Err(Docs(RateLimitError(RetryAfter(resp.headers).value))))
              && (RetryAfter(resp.headers).Err? ==> r == Err(RetryAfter(resp.headers).error))
    ensures resp.status >= 400 && resp.status !in {401, 403, 404, 429} ==> r == Err(ApiFailure(resp))
    ensures (resp.status < 200 || 300 <= resp.status < 400) ==> r == Err(HttpStatus(resp.status))
  {
    if resp.status == 204 then Ok(NoContentResult)
    else if resp.status == 401 then Err(Docs(AuthError(Some(AuthFailedMessage))))
    else if resp.status == 403 then Err(Docs(PermissionError("Permission denied", None)))
    else if resp.status == 404 then Err(Docs(NotFoundError("Resource", "unknown")))
    else if resp.status == 429 then
      match RetryAfter(resp.headers)
      case Ok(wait) => Err(Docs(RateLimitError(wait)))
      case Err(e) => Err(e)
    else if resp.status >= 400 then Err(ApiFailure(resp))
    else if resp.status < 200 || resp.status >= 300 then Err(HttpStatus(resp.status))
    else if resp.json.Some? then Ok(resp.json.value)
    else Ok(JObj(map["data" := JStr(resp.text)]))
  }

  /** Every API error raised for a response carries that response's status,
      including the fixed codes of the not-found, permission and rate-limit
      errors; the only other `DocsError` of a status of 400 or more is the
      authentication error of 401. */
  lemma ErrorCarriesStatus(resp: Response)
    requires resp.status >= 400
    ensures Classify(resp).Err?
    ensures Classify(resp).error.Docs? && IsApiError(Classify(resp).error.error) ==>
              Classify(resp).error.error.kind.statusCode == Some(resp.status)
    ensures Classify(resp).error.Docs? && !IsApiError(Classify(resp).error.error) ==>
              resp.status == 401 && Classify(resp).error.error.kind == Auth
  {
    if resp.status == 429 && RetryAfter(resp.headers).Ok? {
      assert Classify(resp) == Err(Docs(RateLimitError(RetryAfter(resp.headers).value)));
    }
  }

  /** A 422 answer is caught by the generic branch for statuses of 400 or
      more, so it becomes an API error with status 422; the validation-error
      branch of the handler for `raise_for_status` is never reached. */
  lemma UnprocessableIsApiError(resp: Response)
    requires resp.status == 422 && (resp.json.None? || resp.json.value.JObj?)
    ensures Classify(resp).Err? && Classify(resp).error.Docs?
    ensures IsApiError(Classify(resp).error.error)
    ensures Classify(resp).error.error.kind.statusCode == Some(422)
    ensures !Classify(resp).error.error.kind.Validation?
  {
  }

  /** A `Retry-After` of `"0"` gives the same message as no header at all. */
  lemma RetryAfterZero(resp: Response)
    requires resp.status == 429 && "retry-after" in resp.headers && resp.headers["retry-after"] == "0"
    ensures Classify(resp).Err? && Classify(resp).error.Docs?
    ensures Classify(resp).error.error.message == JStr(RateLimitMessage(None))
  {
    ParseZero();
  }

  lemma ParseZero()
    ensures ParseInt("0") == Some(0)
  {
    assert IntToString(0) == [DigitChar(0)] == "0";
    ParseIntToString(0);
  }

  /** What a transport failure becomes: a timeout and a failed connection are
      raised as the client's own errors with the failure's text; any other
      transport error is raised as it is. */
  function TransportError(f: TransportFault): (e: ClientError)
    ensures f.TimeoutFault? ==> e == Docs(TimeoutError(Some("Request timed out: " + f.detail)))
    ensures f.ConnectFault? ==> e == Docs(ConnectionError(Some("Failed to connect: " + f.detail)))
    ensures f.OtherFault? || f.InvalidUrlFault? ==> e == Transport(f.detail)
    ensures e.Docs? ==> !IsApiError(e.error)
  {
    match f
    case TimeoutFault(d) => Docs(TimeoutError(Some("Request timed out: " + d)))
    case ConnectFault(d) => Docs(ConnectionError(Some("Failed to connect: " + d)))
    case OtherFault(d) => Transport(d)
    case InvalidUrlFault(d) => Transport(d)
  }

  /** Sending `q` with `send` and reading the outcome. */
  function Exchange(send: Request -> Result<Response, TransportFault>, q: Request): Result<Json, ClientError>
  {
    match send(q)
    case Err(f) => Err(TransportError(f))
    case Ok(resp) => Classify(resp)
  }

  // ---------------------------------------------------------------------------
  // Shapes of particular requests and responses

  /** The query of `search_users`: always `q`, and `document_id` only when
      one is given. */
  method SearchUsersParams(query: string, documentId: Option<string>) returns (params: map<string, Json>)
    ensures params.Keys == {"q"} + (if Truthy(documentId) then {"document_id"} else {})
    ensures params["q"] == JStr(query)
    ensures Truthy(documentId) ==> params["document_id"] == JStr(documentId.value)
  {
    params := map["q" := JStr(query)];
    if Truthy(documentId) {
      params := params["document_id" := JStr(documentId.value)];
    }
  }

  /** The query of `list_versions`: `version_id` and `page_size` each only
      when given and truthy (a page size of 0 is left out). */
  method ListVersionsParams(fromVersionId: Option<string>, pageSize: Option<int>) returns (params: map<string, Json>)
    ensures "version_id" in params <==> Truthy(fromVersionId)
    ensures "page_size" in params <==> pageSize.Some? && pageSize.value != 0
    ensures params.Keys <= {"version_id", "page_size"}
    ensures "version_id" in params ==> params["version_id"] == JStr(fromVersionId.value)
    ensures "page_size" in params ==> params["page_size"] == JInt(pageSize.value)
  {
    params := map[];
    if Truthy(fromVersionId) {
      params := params["version_id" := JStr(fromVersionId.value)];
    }
    if pageSize.Some? && pageSize.value != 0 {
      params := params["page_size" := JInt(pageSize.value)];
    }
  }

  /** The users of a `search_users` answer: a bare list, or the `results`
      list of a paginated object. */
  function UserResults(data: Json): (r: Result<seq<Json>, ClientError>)
    ensures data.JList? ==> r == Ok(data.items)
    ensures data.JObj? && "results" in data.fields && data.fields["results"].JList? ==>
              r == Ok(data.fields["results"].items)
    ensures r.Ok? <==> data.JList? || (data.JObj? && "results" in data.fields && data.fields["results"].JList?)
    ensures r.Err? ==> r.error == Malformed("user list")
  {
    match data
    case JList(items) => Ok(items)
    case JObj(fields) =>
      if "results" in fields && fields["results"].JList? then Ok(fields["results"].items)
      else Err(Malformed("user list"))
    case _ => Err(Malformed("user list"))
  }

  /** The `id` of the first user found. */
  function FirstUserId(users: seq<Json>): (r: Result<string, ClientError>)
    requires users != []
    ensures r.Ok? <==> users[0].JObj? && "id" in users[0].fields && users[0].fields["id"].JStr?
    ensures r.Ok? ==> r.value == users[0].fields["id"].s
  {
    match users[0]
    case JObj(fields) =>
      if "id" in fields && fields["id"].JStr? then Ok(fields["id"].s) else Err(Malformed("user"))
    case _ => Err(Malformed("user"))
  }

  /** The id `grant_access` finds for an address, from the outcome of the
      user search: the first user's id; a search that finds nobody is a
      not-found error for the address. */
  function ResolvedId(found: Result<Json, ClientError>, email: string): (r: Result<string, ClientError>)
    ensures found.Err? ==> r == Err(found.error)
    ensures found.Ok? && UserResults(found.value) == Ok([]) ==> r == Err(Docs(NotFoundError("User", email)))
    ensures r.Ok? ==> found.Ok? && UserResults(found.value).Ok? && UserResults(found.value).value != []
    ensures r.Ok? ==> var u := UserResults(found.value).value[0];
                      u.JObj? && "id" in u.fields && u.fields["id"] == JStr(r.value)
    ensures found.Ok? && UserResults(found.value).Err? ==> r == Err(UserResults(found.value).error)
    ensures found.Ok? && UserResults(found.value).Ok? && UserResults(found.value).value != [] ==>
              r == FirstUserId(UserResults(found.value).value)
  {
    if found.Err? then Err(found.error)
    else
      var users := UserResults(found.value);
      if users.Err? then Err(users.error)
      else if users.value == [] then Err(Docs(NotFoundError("User", email)))
      else FirstUserId(users.value)
  }

  /** The items `get_tree` reads from its answer: the items under `results`
      of an object that has the key, the object itself for any other object,
      the items of a list, and nothing for any other value. Iterating
      `results` succeeds only for a list or an empty object or string. */
  function TreeItems(data: Json): (r: Result<seq<Json>, ClientError>)
    ensures data.JList? ==> r == Ok(data.items)
    ensures data.JObj? && "results" !in data.fields ==> r == Ok([data])
    ensures !data.JList? && !data.JObj? ==> r == Ok([])
    ensures data.JObj? && "results" in data.fields ==>
              var results := data.fields["results"];
              && (results.JList? ==> r == Ok(results.items))
              && (r.Ok? <==> results.JList? || results == JObj(map[]) || results == JStr(""))
              && (r.Ok? && !results.JList? ==> r.value == [])
  {
    match data
    case JObj(fields) =>
      if "results" in fields then
        match fields["results"]
        case JList(items) => Ok(items)
        case JObj(m) => if m == map[] then Ok([]) else Err(Malformed("tree item"))
        case JStr(s) => if s == "" then Ok([]) else Err(Malformed("tree item"))
        case _ => Err(Malformed("tree items"))
      else Ok([data])
    case JList(items) => Ok(items)
    case _ => Ok([])
  }

  /** A list of items reads the same bare or paginated. */
  lemma TreeItemsPaginationAgnostic(items: seq<Json>, fields: map<string, Json>)
    ensures TreeItems(JList(items)) == Ok(items)
    ensures TreeItems(JObj(fields["results" := JList(items)])) == Ok(items)
  {
  }

  /** The HTTP session the client opens: the configured timeout, the
      authentication headers, and redirects followed. */
  datatype Session = Session(timeout: int, headers: map<string, string>, followRedirects: bool)

  function SessionFor(c: DocsConfig): (s: Session)
    ensures s.timeout == c.timeout && s.followRedirects
    ensures s.headers == AuthHeaders(c)
  {
    Session(c.timeout, AuthHeaders(c), true)
  }

  /** The request the client sends for an endpoint. */
  function RequestFor(c: DocsConfig, verb: string, endpoint: string, params: map<string, Json>, body: Option<Json>): Request
  {
    Request(verb, RequestUrl(c, endpoint), params, AuthHeaders(c), body)
  }

  const InvalidFormatTail := ". Must be 'text' or 'markdown'"
  const NoUserGiven := "Either user_id or user_email must be provided"

  /** The body `update_content` sends: the encoded content and the
      websocket flag, always both. */
  function ContentPatch(c: DocsConfig, documentId: string, encoded: Json): (q: Request)
    ensures q.verb == "PATCH" && q.params == map[]
    ensures q.url == RequestUrl(c, "documents/" + documentId + "/")
    ensures q.body.Some? && q.body.value.JObj?
    ensures q.body.value.fields.Keys == {"content", "websocket"}
    ensures q.body.value.fields["content"] == encoded && q.body.value.fields["websocket"] == JBool(true)
  {
    RequestFor(c, "PATCH", "documents/" + documentId + "/", map[],
      Some(JObj(map["content" := encoded, "websocket" := JBool(true)])))
  }

  function SearchRequest(c: DocsConfig, query: string): Request
  {
    RequestFor(c, "GET", "users/", map["q" := JStr(query)], None)
  }

  function AccessRequest(c: DocsConfig, documentId: string, userId: string, role: string): Request
  {
    RequestFor(c, "POST", "documents/" + documentId + "/accesses/", map[],
      Some(JObj(map["user_id" := JStr(userId), "role" := JStr(role)])))
  }

  /** A value of the dictionary a request model's `.dict()` returns: text
      (an enumeration member is a `str`), or a `uuid.UUID` object, which
      `.dict()` keeps as it is. */
  datatype ModelValue = TextValue(s: string) | UuidValue(hex: string)

  /** `json.dumps` of such a dictionary, as httpx encodes a `json=` body:
      text becomes a JSON string, while a `UUID` is not JSON serialisable,
      so any `UUID` value raises `TypeError`. */
  function JsonDumps(fields: map<string, ModelValue>): (r: Result<Json, ClientError>)
    ensures r.Err? <==> exists k :: k in fields && fields[k].UuidValue?
    ensures r.Err? ==> r.error == NotSerializable("UUID")
    ensures r.Ok? ==> r.value.JObj? && r.value.fields.Keys == fields.Keys
    ensures r.Ok? ==> forall k :: k in fields ==> fields[k].TextValue? && r.value.fields[k] == JStr(fields[k].s)
  {
    if exists k :: k in fields && fields[k].UuidValue? then Err(NotSerializable("UUID"))
    else Ok(JObj(map k | k in fields :: JStr(fields[k].s)))
  }

  /** The access body of `grant_access` as written: the request model's
      dictionary without the absent address, with the id kept a `UUID`. */
  function AccessFieldsAsWritten(userId: string, role: string): map<string, ModelValue>
  {
    map["user_id" := UuidValue(userId), "role" := TextValue(role)]
  }

  /** The same dictionary with the id rendered as text, as
      `model_dump(mode="json")` renders it. */
  function AccessFields(userId: string, role: string): map<string, ModelValue>
  {
    map["user_id" := TextValue(userId), "role" := TextValue(role)]
  }

  /** As written, the access body can never be encoded, whatever the id and
      the role. */
  lemma AccessBodyAsWrittenFails(userId: string, role: string)
    ensures JsonDumps(AccessFieldsAsWritten(userId, role)) == Err(NotSerializable("UUID"))
  {
    assert AccessFieldsAsWritten(userId, role)["user_id"].UuidValue?;
  }

  /** With the id as text, the body encodes to exactly the body of the
      access request. */
  lemma AccessBodyEncodes(c: DocsConfig, documentId: string, userId: string, role: string)
    ensures JsonDumps(AccessFields(userId, role)) == Ok(AccessRequest(c, documentId, userId, role).body.value)
  {
    var r := JsonDumps(AccessFields(userId, role));
    assert r.value.fields == map["user_id" := JStr(userId), "role" := JStr(role)];
  }

  /** No environment variables set: the markdown path of `update_content`
      passes both credentials, so the settings are never loaded. */
  const NoSettings := RawSettings(None, None, None, None, None, None, None, None, None, None, None, None)

  /** `DocsAPIClient`, built from a configuration. */
  class DocsApiClient {
    const config: DocsConfig
    /** Permits of the `asyncio.Semaphore` every request passes through. */
    const permits: int
    var session: Option<Session>
    var sent: seq<Request>

    /** An open session is always the one built from the configuration. */
    ghost predicate Valid()
      reads this
    {
      session.Some? ==> session.value == SessionFor(config)
    }

    /** `DocsAPIClient(config=config)`: no session is open yet. */
    constructor(config: DocsConfig)
      ensures this.config == config && session == None && sent == []
      ensures permits == Permits(config.rateLimit) && permits >= 1
      ensures Valid()
    {
      this.config := config;
      permits := Permits(config.rateLimit);
      session := None;
      sent := [];
    }

    /** `_ensure_client`: opens the session if none is open. */
    method EnsureClient()
      requires Valid()
      modifies this
      ensures Valid() && session == Some(SessionFor(config))
      ensures old(session).Some? ==> session == old(session)
      ensures sent == old(sent)
    {
      if session.None? {
        session := Some(SessionFor(config));
      }
    }

    /** `close`: the open session, if any, is closed. */
    method Close()
      requires Valid()
      modifies this
      ensures Valid() && session == None && sent == old(sent)
    {
      if session.Some? {
        session := None;
      }
    }

    /** `_request`: opens the session if needed, sends one request to the
        endpoint with the session's headers, and classifies the outcome.
        Retries and rate limiting are not modelled. */
    method Request(verb: string, endpoint: string, params: map<string, Json>, body: Option<Json>,
                   send: Http.Request -> Result<Response, TransportFault>)
      returns (r: Result<Json, ClientError>)
      requires Valid()
      modifies this
      ensures Valid() && session == Some(SessionFor(config))
      ensures sent == old(sent) + [RequestFor(config, verb, endpoint, params, body)]
      ensures r == Exchange(send, RequestFor(config, verb, endpoint, params, body))
    {
      EnsureClient();
      var q := Http.Request(verb, RequestUrl(config, endpoint), params, session.value.headers, body);
      sent := sent + [q];
      match send(q)
      case Err(f) =>
        r := Err(TransportError(f));
      case Ok(resp) =>
        r := Classify(resp);
    }

    /** `update_content`: an unknown format is refused before anything is
        encoded or sent; otherwise the content is encoded as a document (by
        the conversion service for markdown) and sent with the websocket
        flag. `blockId` is the id `create_from_text` would draw. */
    method UpdateContent(documentId: string, content: string, format: string,
                         engine: Crdt.Engine, blockId: string,
                         post: Http.Request -> Result<Response, TransportFault>,
                         send: Http.Request -> Result<Response, TransportFault>)
      returns (r: Result<Json, ClientError>)
      requires Valid()
      modifies this
      ensures Valid()
      ensures format != "text" && format != "markdown" ==>
                && r == Err(ValueError("Invalid format: " + format + InvalidFormatTail))
                && sent == old(sent) && session == old(session)
      ensures format == "text" ==>
                var q := ContentPatch(config, documentId, JStr(YjsUtils.TextDocument(engine, content, blockId)));
                && sent == old(sent) + [q] && r == Exchange(send, q)
                && session == Some(SessionFor(config))
      ensures format == "markdown" ==>
                var conv := YjsUtils.CreateFromMarkdown(content, Some(config.baseUrl), Some(config.apiToken), NoSettings, post);
                && (conv.Err? ==> r == Err(Yjs(conv.error)) && sent == old(sent) && session == old(session))
                && (conv.Ok? ==> var q := ContentPatch(config, documentId, conv.value);
                                 && sent == old(sent) + [q] && r == Exchange(send, q)
                                 && session == Some(SessionFor(config)))
    {
      if format != "text" && format != "markdown" {
        return Err(ValueError("Invalid format: " + format + InvalidFormatTail));
      }
      var encoded: Json;
      if format == "markdown" {
        var conv := YjsUtils.CreateFromMarkdown(content, Some(config.baseUrl), Some(config.apiToken), NoSettings, post);
        if conv.Err? {
          return Err(Yjs(conv.error));
        }
        encoded := conv.value;
      } else {
        var doc := YjsUtils.CreateFromText(engine, content, blockId);
        encoded := JStr(doc);
      }
      r := Request("PATCH", "documents/" + documentId + "/",
                   map[], Some(JObj(map["content" := encoded, "websocket" := JBool(true)])), send);
    }

    /** `search_users`: one request to `users/`, whose answer is read as a
        list of users. */
    method SearchUsers(query: string, documentId: Option<string>,
                       send: Http.Request -> Result<Response, TransportFault>)
      returns (r: Result<seq<Json>, ClientError>)
      requires Valid()
      modifies this
      ensures Valid() && session == Some(SessionFor(config))
      ensures var params := map["q" := JStr(query)]
                + (if Truthy(documentId) then map["document_id" := JStr(documentId.value)] else map[]);
              var q := RequestFor(config, "GET", "users/", params, None);
              && sent == old(sent) + [q]
              && (Exchange(send, q).Err? ==> r == Err(Exchange(send, q).error))
              && (Exchange(send, q).Ok? ==> r == UserResults(Exchange(send, q).value))
    {
      var params := SearchUsersParams(query, documentId);
      assert params == map["q" := JStr(query)]
        + (if Truthy(documentId) then map["document_id" := JStr(documentId.value)] else map[]);
      var data := Request("GET", "users/", params, None, send);
      if data.Err? {
        return Err(data.error);
      }
      r := UserResults(data.value);
    }

    /** The search half of `grant_access`: the address is looked up and
        the first user found gives the id. */
    method ResolveUser(email: string, send: Http.Request -> Result<Response, TransportFault>)
      returns (r: Result<string, ClientError>)
      requires Valid()
      modifies this
      ensures Valid() && session == Some(SessionFor(config))
      ensures sent == old(sent) + [SearchRequest(config, email)]
      ensures r == ResolvedId(Exchange(send, SearchRequest(config, email)), email)
    {
      assert map["q" := JStr(email)] + map[] == map["q" := JStr(email)];
      ghost var found := Exchange(send, SearchRequest(config, email));
      var users := SearchUsers(email, None, send);
      assert users == if found.Err? then Err(found.error) else UserResults(found.value);
      if users.Err? {
        return Err(users.error);
      }
      if users.value == [] {
        return Err(Docs(NotFoundError("User", email)));
      }
      r := FirstUserId(users.value);
    }

    /** `grant_access`: a user id or an e-mail address must be given; an
        address alone is looked up first, and an address that finds nobody
        is a not-found error for that address; then the access is created
        for the id given or found, once the role has been checked. */
    method GrantAccess(documentId: string, userId: Option<string>, userEmail: Option<string>, role: string,
                       send: Http.Request -> Result<Response, TransportFault>)
      returns (r: Result<Json, ClientError>)
      requires Valid()
      modifies this
      ensures Valid()
      ensures !Truthy(userId) && !Truthy(userEmail) ==>
                r == Err(ValueError(NoUserGiven)) && sent == old(sent) && session == old(session)
      ensures Truthy(userId) && Models.ParseRole(role).None? ==>
                r == Err(Malformed("role")) && sent == old(sent) && session == old(session)
      ensures Truthy(userId) && Models.ParseRole(role).Some? ==>
                var q := AccessRequest(config, documentId, userId.value, role);
                sent == old(sent) + [q] && r == Exchange(send, q) && session == Some(SessionFor(config))
      ensures !Truthy(userId) && Truthy(userEmail) ==> session == Some(SessionFor(config))
      ensures !Truthy(userId) && Truthy(userEmail) ==>
                var search := SearchRequest(config, userEmail.value);
                var id := ResolvedId(Exchange(send, search), userEmail.value);
                && (id.Err? ==> r == Err(id.error) && sent == old(sent) + [search])
                && (id.Ok? && Models.ParseRole(role).None? ==>
                      r == Err(Malformed("role")) && sent == old(sent) + [search])
                && (id.Ok? && Models.ParseRole(role).Some? ==>
                      var q := AccessRequest(config, documentId, id.value, role);
                      sent == old(sent) + [search, q] && r == Exchange(send, q))
    {
      if !Truthy(userId) && !Truthy(userEmail) {
        return Err(ValueError(NoUserGiven));
      }
      if Truthy(userEmail) && !Truthy(userId) {
        r := GrantByEmail(documentId, userEmail.value, role, send);
      } else {
        r := CreateAccess(documentId, userId.value, role, send);
      }
    }

    /** `grant_access` given only an address: the user is looked up, then
        the access is created for the id found. */
    method GrantByEmail(documentId: string, email: string, role: string,
                        send: Http.Request -> Result<Response, TransportFault>)
      returns (r: Result<Json, ClientError>)
      requires Valid()
      modifies this
      ensures Valid() && session == Some(SessionFor(config))
      ensures var search := SearchRequest(config, email);
              var id := ResolvedId(Exchange(send, search), email);
              && (id.Err? ==> r == Err(id.error) && sent == old(sent) + [search])
              && (id.Ok? && Models.ParseRole(role).None? ==>
                    r == Err(Malformed("role")) && sent == old(sent) + [search])
              && (id.Ok? && Models.ParseRole(role).Some? ==>
                    var q := AccessRequest(config, documentId, id.value, role);
                    sent == old(sent) + [search, q] && r == Exchange(send, q))
    {
      ghost var before := sent;
      var found := ResolveUser(email, send);
      if found.Err? {
        return Err(found.error);
      }
      ghost var searched := sent;
      r := CreateAccess(documentId, found.value, role, send);
      assert searched + [AccessRequest(config, documentId, found.value, role)]
          == before + [SearchRequest(config, email), AccessRequest(config, documentId, found.value, role)];
    }

    /** The second half of `grant_access`: the request model checks the
        role, then the access is created for the user id, sent as text. */
    method CreateAccess(documentId: string, id: string, role: string,
                        send: Http.Request -> Result<Response, TransportFault>)
      returns (r: Result<Json, ClientError>)
      requires Valid()
      modifies this
      ensures Valid()
      ensures Models.ParseRole(role).None? ==>
                r == Err(Malformed("role")) && sent == old(sent) && session == old(session)
      ensures Models.ParseRole(role).Some? ==>
                var q := AccessRequest(config, documentId, id, role);
                sent == old(sent) + [q] && r == Exchange(send, q) && session == Some(SessionFor(config))
    {
      if Models.ParseRole(role).None? {
        return Err(Malformed("role"));
      }
      AccessBodyEncodes(config, documentId, id, role);
      r := PostModel("documents/" + documentId + "/accesses/", AccessFields(id, role), send);
    }

    /** The second half of `grant_access` as written: once the role is
        accepted, the body still holds the `UUID` object, so encoding it
        raises `TypeError` and the access request is never sent. */
    method CreateAccessAsWritten(documentId: string, id: string, role: string,
                                 send: Http.Request -> Result<Response, TransportFault>)
      returns (r: Result<Json, ClientError>)
      requires Valid()
      modifies this
      ensures Valid()
      ensures Models.ParseRole(role).None? ==>
                r == Err(Malformed("role")) && sent == old(sent) && session == old(session)
      ensures Models.ParseRole(role).Some? ==>
                r == Err(NotSerializable("UUID")) && sent == old(sent) && session == Some(SessionFor(config))
    {
      if Models.ParseRole(role).None? {
        return Err(Malformed("role"));
      }
      AccessBodyAsWrittenFails(id, role);
      r := PostModel("documents/" + documentId + "/accesses/", AccessFieldsAsWritten(id, role), send);
    }

    /** `_request` with a request model's dictionary as `json_data`: the
        session is opened, then httpx encodes the body, and a value it
        cannot encode raises before anything is sent. */
    method PostModel(endpoint: string, fields: map<string, ModelValue>,
                     send: Http.Request -> Result<Response, TransportFault>)
      returns (r: Result<Json, ClientError>)
      requires Valid()
      modifies this
      ensures Valid() && session == Some(SessionFor(config))
      ensures JsonDumps(fields).Err? ==> r == Err(JsonDumps(fields).error) && sent == old(sent)
      ensures JsonDumps(fields).Ok? ==>
                var q := RequestFor(config, "POST", endpoint, map[], Some(JsonDumps(fields).value));
                sent == old(sent) + [q] && r == Exchange(send, q)
    {
      EnsureClient();
      var body := JsonDumps(fields);
      if body.Err? {
        return Err(body.error);
      }
      r := Request("POST", endpoint, map[], Some(body.value), send);
    }

    /** `get_tree`: one request to the tree endpoint, whose answer is read
        as a list of documents. */
    method GetTree(documentId: string, send: Http.Request -> Result<Response, TransportFault>)
      returns (r: Result<seq<Json>, ClientError>)
      requires Valid()
      modifies this
      ensures Valid() && session == Some(SessionFor(config))
      ensures var q := RequestFor(config, "GET", "documents/" + documentId + "/tree/", map[], None);
              && sent == old(sent) + [q]
              && (Exchange(send, q).Err? ==> r == Err(Exchange(send, q).error))
              && (Exchange(send, q).Ok? ==> r == TreeItems(Exchange(send, q).value))
    {
      var data := Request("GET", "documents/" + documentId + "/tree/", map[], None, send);
      if data.Err? {
        return Err(data.error);
      }
      r := TreeItems(data.value);
    }
  }
}
