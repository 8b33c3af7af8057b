/** The server's settings (config.py): the fields read from the environment,
    their defaults and bounds, the two field validators, the derived API base
    URL and request headers, and the process-wide configuration slot. */
module Config {
  import opened Wrappers
  import opened Strings

  /** A validated `DocsConfig`. The float `rate_limit` is a `real`. */
  datatype DocsConfig = DocsConfig(
    baseUrl: string,
    apiToken: string,
    apiVersion: string,
    timeout: int,
    maxRetries: int,
    rateLimit: real,
    serverName: string,
    logLevel: string,
    logFormat: string,
    debug: bool,
    cacheEnabled: bool,
    cacheTtl: int)

  /** The values found in the environment before validation; `None` where a
      variable is not set. The two boolean switches arrive as text. */
  datatype RawSettings = RawSettings(
    baseUrl: Option<string>,
    apiToken: Option<string>,
    apiVersion: Option<string>,
    timeout: Option<int>,
    maxRetries: Option<int>,
    rateLimit: Option<real>,
    serverName: Option<string>,
    logLevel: Option<string>,
    logFormat: Option<string>,
    debug: Option<string>,
    cacheEnabled: Option<string>,
    cacheTtl: Option<int>)

  datatype Problem =
    | Missing
    | TokenTooShort
    | BelowMinimum(minimum: int)
    | AboveMaximum(maximum: int)
    | BelowRealMinimum(realMinimum: real)
    | AboveRealMaximum(realMaximum: real)
    | NotALogLevel
    | NotABool

  /** One entry of pydantic's `ValidationError`: the field and what is wrong. */
  datatype FieldError = FieldError(field: string, problem: Problem)

  const DefaultApiVersion := "v1.0"
  const DefaultTimeout := 30
  const DefaultMaxRetries := 3
  const DefaultRateLimit := 10.0
  const MinRateLimit := 0.1
  const MaxRateLimit := 100.0
  const DefaultServerName := "docs-mcp-server"
  const LogLevels: seq<string> := ["DEBUG", "INFO", "WARNING", "ERROR", "CRITICAL"]
  const DefaultLogLevel := "INFO"
  const DefaultLogFormat := "%(asctime)s - %(name)s - %(levelname)s - %(message)s"
  const DefaultDebug := false
  const DefaultCacheEnabled := true
  /** The words pydantic reads as `True` and as `False`, in lower case. */
  const TrueWords: set<string> := {"1", "on", "t", "true", "y", "yes"}
  const FalseWords: set<string> := {"0", "off", "f", "false", "n", "no"}
  const DefaultCacheTtl := 300

  predicate EndsWithSlash(s: string) {
    s != [] && s[|s| - 1] == '/'
  }

  // ---------------------------------------------------------------------------
  // base_url

  /** The text pydantic gives a URL whose path is empty: it adds `/` after
      the host. Only this normalisation is modelled, for a URL without query
      or fragment; `s` is taken to be a URL that has already been accepted. */
  function HttpUrlText(s: string): (r: string)
    ensures r == s || (r == s + "/" && SchemeEnd(s).Some?)
    ensures SchemeEnd(s).None? ==> r == s
  {
    var i := SchemeEnd(s);
    if i.Some? && '/' !in s[i.value..] then s + "/" else s
  }

  /** `s` starts with `://`. */
  predicate SchemeSeparatorAt(s: string, i: int) {
    0 <= i && i + 3 <= |s| && s[i] == ':' && s[i + 1] == '/' && s[i + 2] == '/'
  }

  /** Index just after the first `://` in `s`, if there is one. */
  function SchemeEnd(s: string): (r: Option<nat>)
    ensures r.Some? ==> 3 <= r.value <= |s| && SchemeSeparatorAt(s, r.value - 3)
    ensures r.Some? ==> forall i :: 0 <= i < r.value - 3 ==> !SchemeSeparatorAt(s, i)
    ensures r.None? ==> forall i :: 0 <= i <= |s| - 3 ==> !SchemeSeparatorAt(s, i)
  {
    if |s| < 3 then None
    else if SchemeSeparatorAt(s, 0) then Some(3)
    else match SchemeEnd(s[1..])
      case Some(k) =>
        assert forall i :: 1 <= i < k + 1 - 3 ==> SchemeSeparatorAt(s, i) == SchemeSeparatorAt(s[1..], i - 1);
        Some(k + 1)
      case None =>
        assert forall i :: 1 <= i <= |s| - 3 ==> SchemeSeparatorAt(s, i) == SchemeSeparatorAt(s[1..], i - 1);
        None
  }

  /** `validate_base_url` as written: strip the trailing slashes, then build
      an `HttpUrl` again, which re-renders the text. */
  function ValidateBaseUrlAsWritten(v: string): (r: string)
    ensures !EndsWithSlash(v) ==> r == v
    ensures EndsWithSlash(v) ==> r == RStripChar(v, '/') || r == RStripChar(v, '/') + "/"
  {
    if EndsWithSlash(v) then HttpUrlText(RStripChar(v, '/')) else v
  }

  /** In `https://host` the scheme ends after the eighth character. */
  lemma SchemeEndHttps(host: string)
    ensures SchemeEnd("https://" + host) == Some(8)
  {
    var s := "https://" + host;
    assert SchemeSeparatorAt(s, 5);
    assert s[0] == 'h' && s[1] == 't' && s[2] == 't' && s[3] == 'p' && s[4] == 's';
  }

  /** For a bare host the re-rendered URL gets its slash back, so the
      validator leaves the trailing slash it was written to remove. */
  lemma BareHostKeepsSlash(host: string)
    requires host != [] && '/' !in host && '?' !in host && '#' !in host
    ensures ValidateBaseUrlAsWritten("https://" + host + "/") == "https://" + host + "/"
  {
    var v := "https://" + host + "/";
    var stripped := "https://" + host;
    assert v[..|v| - 1] == stripped;
    assert stripped[|stripped| - 1] == host[|host| - 1];
    assert RStripChar(v, '/') == stripped;
    SchemeEndHttps(host);
    assert stripped[8..] == host;
  }

  /** `validate_base_url` as intended: the trailing slashes are removed and
      nothing else changes. */
  function ValidateBaseUrl(v: string): (r: string)
    ensures !EndsWithSlash(r)
    ensures !EndsWithSlash(v) ==> r == v
    ensures |r| <= |v| && r == v[..|r|]
    ensures forall i :: |r| <= i < |v| ==> v[i] == '/'
  {
    if EndsWithSlash(v) then RStripChar(v, '/') else v
  }

  lemma ValidateBaseUrlIdempotent(v: string)
    ensures ValidateBaseUrl(ValidateBaseUrl(v)) == ValidateBaseUrl(v)
  {
  }

  // ---------------------------------------------------------------------------
  // api_token

  /** `validate_api_token`: the length is checked on the token as given, and
      the accepted token is stored stripped. */
  function ValidateApiToken(v: string): (r: Result<string, Problem>)
    ensures r.Err? <==> |v| < 10
    ensures r.Err? ==> r.error == TokenTooShort
    ensures r.Ok? ==> r.value == Strip(v) && Trimmed(r.value)
  {
    if |v| < 10 then Err(TokenTooShort) else Ok(Strip(v))
  }

  /** Because the length is measured before stripping, a padded short token
      is accepted and stored shorter than the minimum. */
  lemma PaddedShortTokenAccepted()
    ensures ValidateApiToken("   abcd   ") == Ok("abcd")
  {
    var v := "   abcd   ";
    StripUnique("   ", "abcd", "   ");
    assert "   " + "abcd" + "   " == v;
  }

  // ---------------------------------------------------------------------------
  // Building the settings

  function CheckRange(field: string, value: int, minimum: Option<int>, maximum: Option<int>): (r: seq<FieldError>)
    ensures r == [] <==> (minimum.None? || minimum.value <= value) && (maximum.None? || value <= maximum.value)
    ensures |r| <= 1
  {
    if minimum.Some? && value < minimum.value then [FieldError(field, BelowMinimum(minimum.value))]
    else if maximum.Some? && value > maximum.value then [FieldError(field, AboveMaximum(maximum.value))]
    else []
  }

  /** The same check for a float field. */
  function CheckRealRange(field: string, value: real, minimum: real, maximum: real): (r: seq<FieldError>)
    ensures r == [] <==> minimum <= value <= maximum
    ensures |r| <= 1
  {
    if value < minimum then [FieldError(field, BelowRealMinimum(minimum))]
    else if value > maximum then [FieldError(field, AboveRealMaximum(maximum))]
    else []
  }

  /** pydantic's reading of a `bool` field given as text: a true or a false
      word, whatever its ASCII case; any other text is refused. */
  function ParseBool(s: string): (r: Option<bool>)
    ensures r == Some(true) <==> Lower(s) in TrueWords
    ensures r == Some(false) <==> Lower(s) in FalseWords
    ensures r.None? <==> Lower(s) !in TrueWords && Lower(s) !in FalseWords
  {
    if Lower(s) in TrueWords then Some(true)
    else if Lower(s) in FalseWords then Some(false)
    else None
  }

  /** The case of the text does not matter. */
  lemma ParseBoolIgnoresCase(s: string)
    ensures ParseBool(Lower(s)) == ParseBool(s)
  {
    LowerIdempotent(s);
  }

  /** Python's own `str(b)` reads back as `b`. */
  lemma ParseBoolOfStr(b: bool)
    ensures ParseBool(if b then "True" else "False") == Some(b)
  {
    assert Lower("True") == "true";
    assert Lower("False") == "false";
  }

  /** A `Literal` is matched exactly: a log level in lower case is refused,
      although the boolean switches ignore case. */
  lemma LowerCaseLogLevelRefused(raw: RawSettings)
    requires raw.logLevel == Some("debug")
    ensures Load(raw).Err?
  {
    assert "debug" != LogLevels[0];
  }

  /** The check of a `Literal` field: only one of the listed words, in
      exactly that case. */
  function CheckLogLevel(value: Option<string>): (r: seq<FieldError>)
    ensures r == [] <==> value.None? || value.value in LogLevels
    ensures |r| <= 1
  {
    if value.Some? && value.value !in LogLevels then [FieldError("log_level", NotALogLevel)] else []
  }

  /** The check of a `bool` field given as text. */
  function CheckBool(field: string, value: Option<string>): (r: seq<FieldError>)
    ensures r == [] <==> value.None? || ParseBool(value.value).Some?
    ensures |r| <= 1
  {
    if value.Some? && ParseBool(value.value).None? then [FieldError(field, NotABool)] else []
  }

  /** The value of a `bool` field: its reading when set, else the default. */
  function BoolOrElse(value: Option<string>, default: bool): bool
  {
    if value.Some? then ParseBool(value.value) == Some(true) else default
  }

  function OrElse<T>(o: Option<T>, default: T): T {
    if o.Some? then o.value else default
  }

  /** `DocsConfig()` from the environment: every field is checked in
      declaration order and all problems are reported together; a missing
      optional field takes its default. */
  function Load(raw: RawSettings): (r: Result<DocsConfig, seq<FieldError>>)
    ensures r.Ok? <==>
              && raw.baseUrl.Some? && raw.apiToken.Some? && |raw.apiToken.value| >= 10
              && 1 <= OrElse(raw.timeout, DefaultTimeout) <= 300
              && 0 <= OrElse(raw.maxRetries, DefaultMaxRetries) <= 10
              && MinRateLimit <= OrElse(raw.rateLimit, DefaultRateLimit) <= MaxRateLimit
              && (raw.logLevel.None? || raw.logLevel.value in LogLevels)
              && (raw.debug.None? || ParseBool(raw.debug.value).Some?)
              && (raw.cacheEnabled.None? || ParseBool(raw.cacheEnabled.value).Some?)
              && 0 <= OrElse(raw.cacheTtl, DefaultCacheTtl)
    ensures r.Ok? ==>
              && r.value.baseUrl == ValidateBaseUrl(raw.baseUrl.value)
              && r.value.apiToken == Strip(raw.apiToken.value)
              && r.value.apiVersion == OrElse(raw.apiVersion, DefaultApiVersion)
              && r.value.timeout == OrElse(raw.timeout, DefaultTimeout)
              && r.value.maxRetries == OrElse(raw.maxRetries, DefaultMaxRetries)
              && r.value.rateLimit == OrElse(raw.rateLimit, DefaultRateLimit)
              && r.value.serverName == OrElse(raw.serverName, DefaultServerName)
              && r.value.logLevel == OrElse(raw.logLevel, DefaultLogLevel)
              && r.value.logFormat == OrElse(raw.logFormat, DefaultLogFormat)
              && r.value.debug == (raw.debug.Some? && ParseBool(raw.debug.value) == Some(true))
              && r.value.cacheEnabled == (raw.cacheEnabled.None? || ParseBool(raw.cacheEnabled.value) == Some(true))
              && r.value.cacheTtl == OrElse(raw.cacheTtl, DefaultCacheTtl)
    ensures r.Ok? ==> 1 <= r.value.timeout <= 300
    ensures r.Ok? ==> MinRateLimit <= r.value.rateLimit <= MaxRateLimit
    ensures r.Ok? ==> 0 <= r.value.maxRetries <= 10
    ensures r.Ok? ==> r.value.logLevel in LogLevels
    ensures r.Ok? ==> r.value.cacheTtl >= 0
    ensures r.Ok? ==> !EndsWithSlash(r.value.baseUrl) && Trimmed(r.value.apiToken)
    ensures r.Ok? ==> raw.baseUrl.Some? && raw.apiToken.Some? && |raw.apiToken.value| >= 10
    ensures r.Ok? && raw.timeout.None? ==> r.value.timeout == DefaultTimeout
    ensures r.Ok? && raw.maxRetries.None? ==> r.value.maxRetries == DefaultMaxRetries
    ensures r.Ok? && raw.cacheTtl.None? ==> r.value.cacheTtl == DefaultCacheTtl
    ensures r.Ok? && raw.apiVersion.None? ==> r.value.apiVersion == DefaultApiVersion
    ensures r.Ok? && raw.serverName.None? ==> r.value.serverName == DefaultServerName
    ensures r.Err? ==> r.error != []
    ensures raw.baseUrl.None? ==> r.Err? && r.error[0] == FieldError("base_url", Missing)
  {
    var urlErrors := if raw.baseUrl.None? then [FieldError("base_url", Missing)] else [];
    var token :=
      if raw.apiToken.None? then Err(Missing) else ValidateApiToken(raw.apiToken.value);
    var tokenErrors := if token.Err? then [FieldError("api_token", token.error)] else [];
    var timeout := OrElse(raw.timeout, DefaultTimeout);
    var maxRetries := OrElse(raw.maxRetries, DefaultMaxRetries);
    var rateLimit := OrElse(raw.rateLimit, DefaultRateLimit);
    var cacheTtl := OrElse(raw.cacheTtl, DefaultCacheTtl);
    var errors := urlErrors + tokenErrors
      + CheckRange("timeout", timeout, Some(1), Some(300))
      + CheckRange("max_retries", maxRetries, Some(0), Some(10))
      + CheckRealRange("rate_limit", rateLimit, MinRateLimit, MaxRateLimit)
      + CheckLogLevel(raw.logLevel)
      + CheckBool("debug", raw.debug)
      + CheckBool("cache_enabled", raw.cacheEnabled)
      + CheckRange("cache_ttl", cacheTtl, Some(0), None);
    if errors != [] then Err(errors)
    else
      Ok(DocsConfig(
        ValidateBaseUrl(raw.baseUrl.value),
        token.value,
        OrElse(raw.apiVersion, DefaultApiVersion),
        timeout,
        maxRetries,
        rateLimit,
        OrElse(raw.serverName, DefaultServerName),
        OrElse(raw.logLevel, DefaultLogLevel),
        OrElse(raw.logFormat, DefaultLogFormat),
        BoolOrElse(raw.debug, DefaultDebug),
        BoolOrElse(raw.cacheEnabled, DefaultCacheEnabled),
        cacheTtl))
  }

  /** With only the two required variables set, the defaults are used. */
  lemma LoadDefaults(baseUrl: string, apiToken: string)
    requires |apiToken| >= 10
    ensures Load(RawSettings(Some(baseUrl), Some(apiToken), None, None, None, None, None, None, None, None, None, None))
         == Ok(DocsConfig(ValidateBaseUrl(baseUrl), Strip(apiToken), "v1.0", 30, 3, 10.0, "docs-mcp-server",
                          "INFO", "%(asctime)s - %(name)s - %(levelname)s - %(message)s", false, true, 300))
  {
  }

  // ---------------------------------------------------------------------------
  // The client's rate limiter

  /** `int(rate_limit)`, the permits of the client's semaphore as written:
      `int()` truncates, which for a positive rate is the floor. */
  function PermitsAsWritten(rateLimit: real): (n: int)
    ensures n as real <= rateLimit < n as real + 1.0
    ensures rateLimit < 1.0 ==> n <= 0
  {
    rateLimit.Floor
  }

  /** A rate below one request per second is accepted, yet as written it
      leaves the semaphore without a permit, so every request waits forever. */
  lemma SubUnitRateLimitBlocks(baseUrl: string, apiToken: string, rate: real)
    requires |apiToken| >= 10 && MinRateLimit <= rate < 1.0
    ensures var r := Load(RawSettings(Some(baseUrl), Some(apiToken), None, None, None, Some(rate), None, None, None, None, None, None));
            r.Ok? && r.value.rateLimit == rate && PermitsAsWritten(r.value.rateLimit) == 0
  {
  }

  /** The permits as intended: at least one, so a slow rate still lets a
      request through; from one request per second up, as written. */
  function Permits(rateLimit: real): (n: int)
    ensures n >= 1
    ensures rateLimit >= 1.0 ==> n == PermitsAsWritten(rateLimit)
  {
    if rateLimit < 1.0 then 1 else rateLimit.Floor
  }

  // ---------------------------------------------------------------------------
  // Derived values

  /** `api_base_url`: the base URL without trailing slashes, then `/api/`
      and the API version. */
  function ApiBaseUrl(c: DocsConfig): (r: string)
    ensures var n := |r| - |c.apiVersion| - 5;
      && 0 <= n <= |c.baseUrl|
      && r[..n] == c.baseUrl[..n]
      && !EndsWithSlash(r[..n])
      && (forall i :: n <= i < |c.baseUrl| ==> c.baseUrl[i] == '/')
      && r[n..] == "/api/" + c.apiVersion
  {
    var base := RStripChar(c.baseUrl, '/');
    var r := base + "/api/" + c.apiVersion;
    assert r[..|base|] == base;
    r
  }

  /** Trailing slashes on the configured base URL do not reach the API URL. */
  lemma ApiBaseUrlIgnoresTrailingSlash(c: DocsConfig)
    ensures ApiBaseUrl(c.(baseUrl := c.baseUrl + "/")) == ApiBaseUrl(c)
  {
    var b := c.baseUrl + "/";
    assert b[..|b| - 1] == c.baseUrl;
  }

  /** `auth_headers`: exactly these three headers. */
  function AuthHeaders(c: DocsConfig): (h: map<string, string>)
    ensures h.Keys == {"Authorization", "Content-Type", "User-Agent"}
    ensures h["Authorization"] == "Token " + c.apiToken
    ensures h["Content-Type"] == "application/json"
    ensures h["User-Agent"] == c.serverName + "/0.1.0"
  {
    map[
      "Authorization" := "Token " + c.apiToken,
      "Content-Type" := "application/json",
      "User-Agent" := c.serverName + "/0.1.0"]
  }

  // ---------------------------------------------------------------------------
  // The global configuration

  /** The module-level `_config` slot. */
  class GlobalConfig {
    var current: Option<DocsConfig>

    constructor()
      ensures current == None
    {
      current := None;
    }

    /** `get_global_config()`: the stored configuration if there is one;
        otherwise the configuration loaded from `env`, which is stored when
        it loads. A load that fails leaves the slot empty. */
    method Get(env: RawSettings) returns (r: Result<DocsConfig, seq<FieldError>>)
      modifies this
      ensures old(current).Some? ==> r == Ok(old(current).value) && current == old(current)
      ensures old(current).None? ==> r == Load(env)
      ensures old(current).None? && r.Ok? ==> current == Some(r.value)
      ensures old(current).None? && r.Err? ==> current == None
    {
      if current.None? {
        r := Load(env);
        if r.Ok? {
          current := Some(r.value);
        }
      } else {
        r := Ok(current.value);
      }
    }

    /** `set_global_config(config)`. */
    method Set(c: DocsConfig)
      modifies this
      ensures current == Some(c)
    {
      current := Some(c);
    }
  }
}
