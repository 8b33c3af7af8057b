/** The exception family of the server (exceptions.py). Every error is a
    `DocsError` with a message, a details dictionary and a kind; the API kinds
    carry a status code and the decoded response body, and not-found,
    permission and rate-limit errors are API errors. A message is kept as
    the JSON value it was given, because the API error path passes the
    decoded `detail` field through unchanged. */
module Exceptions {
  import opened Wrappers
  import opened Json
  import opened Strings

  datatype ApiKind =
    | GenericApi
    | NotFound(resourceType: string, resourceId: string)
    | Permission(operation: string, resource: Option<string>)
    | RateLimit(retryAfter: Option<int>)

  datatype Kind =
    | Plain
    | Api(statusCode: Option<int>, responseData: map<string, Json>, api: ApiKind)
    | Auth
    | Connection
    | Timeout
    | Validation(field: Option<string>)

  datatype DocsError = DocsError(message: Json, details: map<string, Json>, kind: Kind)

  /** `isinstance(e, DocsAPIError)`. */
  predicate IsApiError(e: DocsError) {
    e.kind.Api?
  }

  function OptionalInt(i: Option<int>): Json {
    if i.Some? then JInt(i.value) else JNull
  }

  function OptionalObject(m: Option<map<string, Json>>): Json {
    if m.Some? then JObj(m.value) else JNull
  }

  /** `DocsError(message, details)`: missing or empty details become `{}`. */
  function PlainError(message: Json, details: Option<map<string, Json>>): (e: DocsError)
    ensures e.kind == Plain && e.message == message
    ensures details.None? ==> e.details == map[]
    ensures details.Some? ==> e.details == details.value
  {
    DocsError(message, if details.Some? then details.value else map[], Plain)
  }

  /** `DocsAPIError(message, status_code, response_data)`: the details are
      exactly the status code and the raw response data (null when absent),
      while the `response_data` attribute defaults to `{}`. */
  function ApiError(message: Json, statusCode: Option<int>, responseData: Option<map<string, Json>>, api: ApiKind): (e: DocsError)
    ensures IsApiError(e) && e.message == message
    ensures e.details.Keys == {"status_code", "response"}
    ensures e.details["status_code"] == (if statusCode.Some? then JInt(statusCode.value) else JNull)
    ensures e.details["response"] == (if responseData.Some? then JObj(responseData.value) else JNull)
    ensures e.kind.statusCode == statusCode
    ensures e.kind.responseData == (if responseData.Some? then responseData.value else map[])
  {
    var details := map["status_code" := OptionalInt(statusCode), "response" := OptionalObject(responseData)];
    DocsError(message, details, Api(statusCode, if responseData.Some? then responseData.value else map[], api))
  }

  /** `DocsAuthError(message)`, by default "Authentication failed". */
  function AuthError(message: Option<string>): (e: DocsError)
    ensures e.kind == Auth && e.details == map[] && !IsApiError(e)
    ensures message.None? ==> e.message == JStr("Authentication failed")
    ensures message.Some? ==> e.message == JStr(message.value)
  {
    DocsError(JStr(if message.Some? then message.value else "Authentication failed"), map[], Auth)
  }

  /** `DocsConnectionError(message)`, by default "Failed to connect to Docs API". */
  function ConnectionError(message: Option<string>): (e: DocsError)
    ensures e.kind == Connection && e.details == map[] && !IsApiError(e)
    ensures message.None? ==> e.message == JStr("Failed to connect to Docs API")
    ensures message.Some? ==> e.message == JStr(message.value)
  {
    DocsError(JStr(if message.Some? then message.value else "Failed to connect to Docs API"), map[], Connection)
  }

  /** `DocsTimeoutError(message)`, by default "Request to Docs API timed out". */
  function TimeoutError(message: Option<string>): (e: DocsError)
    ensures e.kind == Timeout && e.details == map[] && !IsApiError(e)
    ensures message.None? ==> e.message == JStr("Request to Docs API timed out")
    ensures message.Some? ==> e.message == JStr(message.value)
  {
    DocsError(JStr(if message.Some? then message.value else "Request to Docs API timed out"), map[], Timeout)
  }

  /** `DocsValidationError(message, field)`: the details name the field only
      when a non-empty field is given. */
  function ValidationError(message: Json, field: Option<string>): (e: DocsError)
    ensures e.kind == Validation(field) && e.message == message && !IsApiError(e)
    ensures "field" in e.details <==> Truthy(field)
    ensures Truthy(field) ==> e.details == map["field" := JStr(field.value)]
    ensures !Truthy(field) ==> e.details == map[]
  {
    DocsError(message, if Truthy(field) then map["field" := JStr(field.value)] else map[], Validation(field))
  }

  function NotFoundMessage(resourceType: string, resourceId: string): string {
    resourceType + " with ID '" + resourceId + "' not found"
  }

  /** `DocsNotFoundError(resource_type, resource_id)`: an API error with
      status 404 and no response data. */
  function NotFoundError(resourceType: string, resourceId: string): (e: DocsError)
    ensures IsApiError(e) && e.kind.statusCode == Some(404) && e.kind.responseData == map[]
    ensures e.kind.api == NotFound(resourceType, resourceId)
    ensures e.message == JStr(NotFoundMessage(resourceType, resourceId))
    ensures e.details == map["status_code" := JInt(404), "response" := JNull]
  {
    ApiError(JStr(NotFoundMessage(resourceType, resourceId)), Some(404), None, NotFound(resourceType, resourceId))
  }

  function PermissionMessage(operation: string, resource: Option<string>): string {
    var base := "Permission denied for operation: " + operation;
    if Truthy(resource) then base + " on " + resource.value else base
  }

  /** `DocsPermissionError(operation, resource)`: an API error with status
      403; the resource is named in the message only when it is non-empty. */
  function PermissionError(operation: string, resource: Option<string>): (e: DocsError)
    ensures IsApiError(e) && e.kind.statusCode == Some(403) && e.kind.responseData == map[]
    ensures e.kind.api == Permission(operation, resource)
    ensures e.message == JStr(PermissionMessage(operation, resource))
    ensures e.details == map["status_code" := JInt(403), "response" := JNull]
  {
    ApiError(JStr(PermissionMessage(operation, resource)), Some(403), None, Permission(operation, resource))
  }

  function RateLimitMessage(retryAfter: Option<int>): string {
    var base := "API rate limit exceeded";
    if retryAfter.Some? && retryAfter.value != 0 then
      base + ". Retry after " + IntToString(retryAfter.value) + " seconds"
    else base
  }

  /** `DocsRateLimitError(retry_after)`: an API error with status 429; the
      wait is named in the message only when it is non-zero. */
  function RateLimitError(retryAfter: Option<int>): (e: DocsError)
    ensures IsApiError(e) && e.kind.statusCode == Some(429) && e.kind.responseData == map[]
    ensures e.kind.api == RateLimit(retryAfter)
    ensures e.message == JStr(RateLimitMessage(retryAfter))
    ensures e.details == map["status_code" := JInt(429), "response" := JNull]
  {
    ApiError(JStr(RateLimitMessage(retryAfter)), Some(429), None, RateLimit(retryAfter))
  }

  /** A permission message names the resource exactly when one is given:
      an absent and an empty resource read the same, and a named resource
      always lengthens the message. */
  lemma PermissionMessageResource(operation: string, resource: string)
    ensures PermissionMessage(operation, None) == PermissionMessage(operation, Some(""))
    ensures resource != [] ==>
      |PermissionMessage(operation, Some(resource))| == |PermissionMessage(operation, None)| + 4 + |resource|
  {
  }

  /** The not-found message determines the identifier it reports. */
  lemma NotFoundMessageInjective(resourceType: string, id1: string, id2: string)
    requires NotFoundMessage(resourceType, id1) == NotFoundMessage(resourceType, id2)
    ensures id1 == id2
  {
    var m1, m2 := NotFoundMessage(resourceType, id1), NotFoundMessage(resourceType, id2);
    var a := |resourceType + " with ID '"|;
    assert m1[a..a + |id1|] == id1;
    assert m2[a..a + |id2|] == id2;
  }

  /** A zero wait adds nothing to the rate-limit message; two different
      non-zero waits always give different messages. */
  lemma RateLimitMessageInjective(n1: int, n2: int)
    requires n1 != 0 && n2 != 0
    requires RateLimitMessage(Some(n1)) == RateLimitMessage(Some(n2))
    ensures n1 == n2
    ensures RateLimitMessage(Some(0)) == RateLimitMessage(None)
  {
    var prefix := "API rate limit exceeded. Retry after ";
    var s1, s2 := IntToString(n1), IntToString(n2);
    var m1, m2 := RateLimitMessage(Some(n1)), RateLimitMessage(Some(n2));
    assert m1 == prefix + s1 + " seconds";
    assert m2 == prefix + s2 + " seconds";
    assert s1 == s2 by {
      assert |s1| == |s2|;
      assert m1[|prefix|..|prefix| + |s1|] == s1;
      assert m2[|prefix|..|prefix| + |s2|] == s2;
    }
    ParseIntToString(n1);
    ParseIntToString(n2);
  }
}
