/** The HTTP boundary: a request as the code builds it and a response as the
    code reads it. Sending a request is not modelled; where the code sends
    one, the sender is a parameter. */
module Http {
  import opened Wrappers
  import opened Json

  /** A request: HTTP method, full URL, query parameters, headers and an optional
      JSON body. */
  datatype Request = Request(
    verb: string,
    url: string,
    params: map<string, Json>,
    headers: map<string, string>,
    body: Option<Json>)

  /** A response: status code, headers under lower-case names, the body as
      text, and the body decoded as JSON (`None` when `response.json()` would
      raise because the body is not JSON). */
  datatype Response = Response(
    status: int,
    headers: map<string, string>,
    text: string,
    json: Option<Json>)

  /** What httpx raises instead of a response, with its text: a timeout, a
      failed connection or another `httpx.HTTPError`, or `httpx.InvalidURL`,
      which is not an `httpx.HTTPError`. */
  datatype TransportFault =
    | TimeoutFault(detail: string)
    | ConnectFault(detail: string)
    | OtherFault(detail: string)
    | InvalidUrlFault(detail: string)

  function FaultText(f: TransportFault): string {
    match f
    case TimeoutFault(d) => d
    case ConnectFault(d) => d
    case OtherFault(d) => d
    case InvalidUrlFault(d) => d
  }

  /** `text[:n]`. */
  function Prefix(s: string, n: nat): (r: string)
    ensures |r| <= n && |r| <= |s| && r == s[..|r|]
    ensures |s| <= n ==> r == s
    ensures |s| > n ==> |r| == n
  {
    if |s| <= n then s else s[..n]
  }
}
