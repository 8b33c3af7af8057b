# docs-mcp-server core, modelled in Dafny

This project models the core of `docs-mcp-server`, a client for the Docs
collaborative editor (La Suite numérique). It covers five parts.

- **Yjs content helpers** (`yjs_utils.py`):
  - reading the plain text of a stored document (`extract_text`);
  - building a one-paragraph document from text (`create_from_text`);
  - describing a document's structure (`get_structure_info`);
  - the URL building and status handling of the markdown conversion call (`create_from_markdown`).
- **API client** (`client.py`):
  - how `_request` forms the URL and turns a response or a transport failure into a result or an error;
  - the client object whose HTTP session opens on demand and closes on request;
  - `update_content`, `search_users`, `grant_access` and `get_tree`, with the query parameters of `search_users` and `list_versions`.
- **Settings** (`config.py`):
  - field defaults and bounds;
  - the `base_url` and `api_token` validators;
  - `api_base_url` and `auth_headers`;
  - the process-wide configuration slot.
- **Request models** (`models.py`): the choice enumerations and their defaults, and the field validators.
- **Exceptions** (`exceptions.py`): the messages, details and status codes of every error class.

The modules follow the program, one file each:

- `yjs_utils.dfy`, `client.dfy`, `config.dfy`, `models.dfy` and `exceptions.dfy` model the five source files.
- Support modules:
  - `strings.dfy` models the Python `str` operations: `strip`, `lstrip(c)`, `rstrip(c)`, `lower`, `int()` and `str(int)`. Whitespace is the full `str.isspace` set.
  - `text_extract.dfy` models the two regular-expression substitutions and the strip of `extract_text`.
  - `xml.dfy` models the engine's XML tree and its text form.
  - `crdt.dfy` models the CRDT document: a class whose roots change as updates are applied. Base64, the binary update format and merging are functions of an `Engine` value.
  - `http.dfy` models requests and responses.
  - `json.dfy` models JSON values.
  - `wrappers.dfy` holds `Option` and `Result`.

Where Python raises, the model returns `Err`. Where the code calls the network, draws a UUID or reads the environment, that input is a parameter. The network is a `send` function, the UUID is `blockId`, and the environment is a `RawSettings` value.

The engine is trusted on four facts, stated as the hypothesis `Crdt.Coherent`:
- base64 decoding inverts encoding;
- applying an encoded state to an empty document reproduces that state;
- an encoded state is never empty;
- the base64 text of non-empty bytes is never empty.

Only the round-trip lemma relies on this hypothesis.

Four places where the model departs from a first reading of the code:
- The `HTTPStatusError` handler of `_request` has a branch for status 422. It can never run, because every status of 400 or more is already turned into a `DocsAPIError` above it. `Client.UnprocessableIsApiError` proves that a 422 answer becomes a generic API error.
- `validate_base_url` does not remove the slash from a bare-host URL; see Findings. The settings use the corrected validator.
- `grant_access` never sends its access request, because the body it builds cannot be encoded as JSON; see Findings. The client uses the corrected body.
- `create_from_markdown` always calls `/api/v1.0/convert/`, whatever `api_version` is set. The model follows the code.

## Model

| member | source | states |
|---|---|---|
| YjsUtils.ExtractText | src/docs_mcp_server/yjs_utils.py:27-70 | An absent or empty input gives `""` without decoding. A decode failure becomes an extract error carrying the library's message. A document without `document-store` gives `""`. A `document-store` that the engine refuses to read as an XML fragment is an error (see Left out). Otherwise the result is the text of the stringified fragment. Every success is tag-free, collapsed and trimmed. |
| YjsUtils.ExtractTextFailures | src/docs_mcp_server/yjs_utils.py:42-70 | For a non-empty input, extraction fails exactly when decoding fails or the engine refuses to read `document-store` as a fragment. A failure is never an empty text. |
| TextExtract.TextOfXml | src/docs_mcp_server/yjs_utils.py:57-65 | The tag substitution, whitespace collapse and strip always give text that contains no `<…>` tag, has single spaces between words and has no space at either end. |
| TextExtract.TagLength | src/docs_mcp_server/yjs_utils.py:61 | The length of the `<[^>]+>` match at the start of a string, if any. The matched piece is a tag. With no match, either `<` is followed directly by `>` or no `>` follows at all. |
| TextExtract.StripTags | src/docs_mcp_server/yjs_utils.py:61 | Tag substitution adds nothing but spaces. It keeps a first character that does not open a tag. |
| TextExtract.StripTagsNoTagStarts | src/docs_mcp_server/yjs_utils.py:61 | After the substitution, no `<` can start a tag any more. |
| TextExtract.NoTagStartsTagFree | src/docs_mcp_server/yjs_utils.py:61 | A text in which no `<` starts a tag contains no substring `<`, non-`>` characters, `>`. |
| TextExtract.Collapse | src/docs_mcp_server/yjs_utils.py:64 | `\s+` → one space. The first character is kept, or becomes a space when it is whitespace. |
| TextExtract.CollapseIsCollapsed | src/docs_mcp_server/yjs_utils.py:64 | After the collapse, every whitespace character is a plain space and no two whitespace characters are adjacent. |
| TextExtract.CollapseChars | src/docs_mcp_server/yjs_utils.py:64 | The collapse introduces no character other than a space. |
| TextExtract.CollapseNoTagStarts | src/docs_mcp_server/yjs_utils.py:61-64 | The collapse cannot create a tag. |
| TextExtract.Normalize | src/docs_mcp_server/yjs_utils.py:64-65 | The collapsed text is stripped, so the result has no whitespace at either end. The lemmas below state the rest. |
| TextExtract.NormalizeIsNormalized | src/docs_mcp_server/yjs_utils.py:64-65 | Collapse then strip gives single inner spaces and no space at either end. |
| TextExtract.NormalizeTagFree | src/docs_mcp_server/yjs_utils.py:61-65 | If the substituted text has no tag start, the final text is tag-free. |
| TextExtract.NormalizePadded | src/docs_mcp_server/yjs_utils.py:64-65 | Surrounding whitespace makes no difference to the extracted text. |
| TextExtract.NormalizeJoin | src/docs_mcp_server/yjs_utils.py:64-65 | Two texts that meet at whitespace normalise to their two normal forms joined by one space. |
| TextExtract.StripTagsOfNodes | src/docs_mcp_server/yjs_utils.py:57-61 | For well-formed nodes, the substitution applied to the stringified fragment gives the fragment's text, with every tag replaced by one space. |
| TextExtract.ExtractFragment | src/docs_mcp_server/yjs_utils.py:57-65 | The extracted text of a well-formed fragment is the normal form of its flattened text. |
| TextExtract.FragmentsSeparated | src/docs_mcp_server/yjs_utils.py:61-64 | Text in two fragments separated by an element boundary is never run together. The whole is the two extracted texts joined by exactly one space. |
| TextExtract.NormalizeNonEmpty | src/docs_mcp_server/yjs_utils.py:64-65 | Non-empty extracted text comes from text that was not all whitespace. |
| Xml.Stringify | src/docs_mcp_server/yjs_utils.py:57 | `str()` of a text node is its text. An element's text form opens with `<` and closes with `>`. |
| Xml.StringifySeqAppend | src/docs_mcp_server/yjs_utils.py:57 | The text form of a fragment is the text forms of its parts, one after another. |
| YjsUtils.BlockTree | src/docs_mcp_server/yjs_utils.py:101-130 | One `blockGroup` holding one `blockContainer` with `id` = block id, holding one `paragraph` with `textColor=default`, `textAlignment=left`, `backgroundColor=default`. The paragraph has the single text child `text` if and only if `text` is non-empty, and otherwise has no children. |
| YjsUtils.BlockTreeWellFormed | src/docs_mcp_server/yjs_utils.py:104-130 | For text without `<` and a block id without `>`, the tree is one the tag substitution reads back exactly. |
| YjsUtils.FlattenBlockTree | src/docs_mcp_server/yjs_utils.py:104-133 | Replacing the tree's six tags by spaces leaves the text between three spaces on each side. |
| YjsUtils.CreateFromText | src/docs_mcp_server/yjs_utils.py:73-141 | The result is the base64 text of the whole state of a fresh document whose `document-store` holds the block tree. |
| YjsUtils.TextRoundTrip | src/docs_mcp_server/yjs_utils.py:44-138 | Under a coherent engine, extracting from a created document gives back the text, whitespace-collapsed and trimmed. |
| Crdt.YDoc.constructor | src/docs_mcp_server/yjs_utils.py:47 | A new document has no roots. |
| Crdt.YDoc.ApplyUpdate | src/docs_mcp_server/yjs_utils.py:48 | A successful update replaces the state by the merged state. A refused update leaves the document unchanged and reports the library's message. |
| Crdt.YDoc.Set | src/docs_mcp_server/yjs_utils.py:134 | Assigning a root replaces that root and keeps every other one. |
| Crdt.YDoc.Keys | src/docs_mcp_server/yjs_utils.py:246 | Every root name is listed exactly once. |
| Crdt.DecodeEncoded | src/docs_mcp_server/yjs_utils.py:44-48 | Under a coherent engine, decoding the base64 of an encoded state gives that state back, and that base64 text is not empty. |
| YjsUtils.KeyList | src/docs_mcp_server/yjs_utils.py:246 | The JSON key list holds exactly the root names, in the same positions. |
| YjsUtils.GetStructureInfo | src/docs_mcp_server/yjs_utils.py:222-258 | An absent or empty input gives `{"empty": True, "keys": []}`. A decode failure is a structure error. A decoded document fails only when the engine refuses to read `document-store` as a fragment. Otherwise the info describes the document. |
| YjsUtils.DescribeDoc | src/docs_mcp_server/yjs_utils.py:244-255 | The info is filled in for a decoded document. `empty` is false. Every root name is listed once. `has_document_store` is true exactly when the store is there. `document_store_xml` and `document_store_type` are present exactly when the store is there, and hold the first 500 characters of the fragment's text and its type name. A store the engine refuses to read as a fragment is an error. |
| YjsUtils.PreviewBounded | src/docs_mcp_server/yjs_utils.py:252 | The XML preview has at most 500 characters and is a prefix of the fragment's text. |
| Http.Prefix | src/docs_mcp_server/yjs_utils.py:211 | `text[:n]`: the whole text when it is no longer than `n`, and otherwise its first `n` characters. |
| YjsUtils.ResolveCredentials | src/docs_mcp_server/yjs_utils.py:179-182 | When both values are given they are used as they are. Otherwise the settings are loaded. A load failure is an error. Each missing or empty value is then taken from the settings. |
| YjsUtils.ConvertUrl | src/docs_mcp_server/yjs_utils.py:186-187 | The endpoint is the base URL with all trailing `/` removed, followed by `/api/v1.0/convert/`. |
| YjsUtils.ConvertUrlIgnoresTrailingSlash | src/docs_mcp_server/yjs_utils.py:186 | A trailing slash on the base URL does not change the endpoint. |
| YjsUtils.ConvertUrlUnderApi | src/docs_mcp_server/yjs_utils.py:187 | The endpoint is the API base URL of version `v1.0` followed by `/convert/`, whatever version the settings name. |
| YjsUtils.ConversionRequest | src/docs_mcp_server/yjs_utils.py:189-197 | A POST to the endpoint with exactly the `Authorization: Token …` and `Content-Type: application/json` headers, and `{"markdown": …}` as the body. |
| YjsUtils.ConversionOutcome | src/docs_mcp_server/yjs_utils.py:199-212 | 200 returns `content` verbatim and is the only success. 400 gives the service's `error`, by default "Invalid request". 401 and 503 give their own errors. Any other status gives the code and at most the first 200 characters of the body. A 200 or 400 body that cannot be read is a conversion failure. |
| YjsUtils.CreateFromMarkdown | src/docs_mcp_server/yjs_utils.py:174-219 | Credentials are resolved, then the request is posted. An `httpx.HTTPError` is a network error. An invalid URL, which is not an `httpx.HTTPError`, is a generic conversion failure. The response decides the outcome, and its errors reach the caller unwrapped. |
| Config.ValidateBaseUrl | src/docs_mcp_server/config.py:98-106 | Corrected validator: the result never ends in `/`. A URL without a trailing slash is unchanged. Otherwise only the trailing slashes are removed. |
| Config.ValidateBaseUrlIdempotent | src/docs_mcp_server/config.py:98-106 | Validating a validated URL changes nothing. |
| Config.HttpUrlText | src/docs_mcp_server/config.py:105 | Rebuilding an `HttpUrl` changes the text at most by adding one `/`, and only for a text with a scheme. |
| Config.ValidateBaseUrlAsWritten | src/docs_mcp_server/config.py:98-106 | As written: a URL without a trailing slash is unchanged. Otherwise the result is the text with its trailing slashes removed, possibly with one `/` put back (see Findings). |
| Config.BareHostKeepsSlash | src/docs_mcp_server/config.py:102-105 | As written, `https://host/` for a bare host without query or fragment is returned with its slash, because rebuilding the `HttpUrl` puts it back. |
| Config.ValidateApiToken | src/docs_mcp_server/config.py:108-114 | A token shorter than 10 characters, counted before stripping, is refused. An accepted token is stored stripped. |
| Config.PaddedShortTokenAccepted | src/docs_mcp_server/config.py:112-114 | Because the length is checked before stripping, `"   abcd   "` is accepted and stored as `"abcd"`. |
| Config.CheckRange | src/docs_mcp_server/config.py:33-47 | A bounded field is reported exactly when it lies outside its bounds, and then only once. |
| Config.Load | src/docs_mcp_server/config.py:14-96 | Loading succeeds exactly when the base URL and a token of at least 10 characters are given, and `timeout` is in [1,300], `max_retries` in [0,10], `rate_limit` in [0.1,100.0] and `cache_ttl` ≥ 0, each as given or by default. In addition, a given `log_level` must be one of the five levels, and a given `debug` or `cache_enabled` must read as a boolean. A loaded configuration holds the validated base URL (no trailing slash) and the stripped token. Every other field is as given or else its default: v1.0, 30, 3, 10.0, docs-mcp-server, INFO, the default format, debug off, caching on and 300. A failure lists at least one error, and a missing base URL is always reported first. |
| Config.CheckRealRange | src/docs_mcp_server/config.py:49-55 | The float `rate_limit` is reported exactly when it lies outside its bounds, and then only once. |
| Config.LoadDefaults | src/docs_mcp_server/config.py:26-96 | With only the two required variables set, every other field takes its default, `INFO`, the default log format, debug off and caching on included. |
| Config.ParseBool | src/docs_mcp_server/config.py:78-89 | A `bool` field given as text is `True` exactly for a true word and `False` exactly for a false word, in any ASCII case. Any other text is refused. |
| Config.ParseBoolIgnoresCase | src/docs_mcp_server/config.py:78-89 | Lowering the text does not change how it reads. |
| Config.ParseBoolOfStr | src/docs_mcp_server/config.py:78-89 | Python's `str(True)` and `str(False)` read back as the same value. |
| Config.CheckLogLevel | src/docs_mcp_server/config.py:65-69 | `log_level` is reported exactly when it is set to a word outside the five levels, and then only once. |
| Config.CheckBool | src/docs_mcp_server/config.py:78-89 | A boolean switch is reported exactly when it is set to text that does not read as a boolean, and then only once. |
| Config.LowerCaseLogLevelRefused | src/docs_mcp_server/config.py:65-69 | The `Literal` is matched exactly: `debug` in lower case makes loading fail. |
| Config.PermitsAsWritten | src/docs_mcp_server/client.py:82 | `int(rate_limit)` is the integer part of the rate: at most the rate and more than the rate minus one. Below one, it has no positive permit. |
| Config.SubUnitRateLimitBlocks | src/docs_mcp_server/client.py:82 | As written: any rate in [0.1,1) is accepted by loading and kept, yet `int(rate_limit)` gives the semaphore no permit (see Findings). |
| Config.Permits | src/docs_mcp_server/client.py:82 | Corrected permit count: always at least one, and equal to `int(rate_limit)` from one request per second up. |
| Config.ApiBaseUrl | src/docs_mcp_server/config.py:116-121 | The base URL with all trailing `/` removed, then `/api/`, then the API version. |
| Config.ApiBaseUrlIgnoresTrailingSlash | src/docs_mcp_server/config.py:119-121 | A trailing slash on the base URL does not change the API base URL. |
| Config.AuthHeaders | src/docs_mcp_server/config.py:123-130 | Exactly three headers: `Authorization` = `Token <token>`, `Content-Type` = `application/json`, `User-Agent` = `<server name>/0.1.0`. |
| Config.GlobalConfig.constructor | src/docs_mcp_server/config.py:192 | The slot starts empty. |
| Config.GlobalConfig.Get | src/docs_mcp_server/config.py:195-200 | A stored configuration is returned unchanged. An empty slot loads the configuration, stores it when the load succeeds and stays empty when it fails. |
| Config.GlobalConfig.Set | src/docs_mcp_server/config.py:203-206 | The slot then holds the given configuration. |
| Models.RoleValue | src/docs_mcp_server/models.py:11-17 | Each role has one of the four wire values. |
| Models.ParseRole | src/docs_mcp_server/models.py:11-17 | A string is a role exactly when it is one of the four wire values, and the role read renders back to it. |
| Models.RoleRoundTrip | src/docs_mcp_server/models.py:11-17 | Reading a role's wire value gives the role back. |
| Models.LinkReachValue | src/docs_mcp_server/models.py:20-25 | Each link reach has one of the three wire values. |
| Models.ParseLinkReach | src/docs_mcp_server/models.py:20-25 | Exactly the three wire values are accepted, and each renders back to itself. |
| Models.LinkReachRoundTrip | src/docs_mcp_server/models.py:20-25 | Reading a link reach's wire value gives it back. |
| Models.LinkRoleValue | src/docs_mcp_server/models.py:28-32 | Each link role has one of the two wire values. |
| Models.ParseLinkRole | src/docs_mcp_server/models.py:28-32 | Exactly the two wire values are accepted, and each renders back to itself. |
| Models.LinkRoleRoundTrip | src/docs_mcp_server/models.py:28-32 | Reading a link role's wire value gives it back. |
| Models.MovePositionValue | src/docs_mcp_server/models.py:35-41 | Each move position has one of the four wire values. |
| Models.ParseMovePosition | src/docs_mcp_server/models.py:35-41 | Exactly the four wire values are accepted, and each renders back to itself. |
| Models.MovePositionRoundTrip | src/docs_mcp_server/models.py:35-41 | Reading a move position's wire value gives it back. |
| Models.ChoiceDomains | src/docs_mcp_server/models.py:11-41 | Roles and move positions have four distinct values each, link reach three and link roles two. |
| Models.LinkReachField | src/docs_mcp_server/models.py:107 | An absent link reach is `restricted`. A given one must be a wire value. |
| Models.LinkRoleField | src/docs_mcp_server/models.py:108 | An absent link role is `reader`. A given one must be a wire value. |
| Models.MovePositionField | src/docs_mcp_server/models.py:257 | An absent position is `last-child`. A given one must be a wire value. |
| Models.ValidateCreateTitle | src/docs_mcp_server/models.py:231-236 | Refused, with "Title cannot be empty", exactly when the title is all whitespace. Otherwise the stripped title is kept, and it is non-empty and trimmed. |
| Models.CreateTitleIdempotent | src/docs_mcp_server/models.py:236 | An accepted title validates again to itself. |
| Models.ValidateUpdateTitle | src/docs_mcp_server/models.py:245-250 | No title stays absent. A blank title, the empty one included, is refused. Any other title is kept stripped and non-empty. |
| Models.UpdateTitleIdempotent | src/docs_mcp_server/models.py:250 | An accepted title validates again to itself. |
| Models.ValidateUserEmail | src/docs_mcp_server/models.py:273-278 | Refused exactly when the address is present, non-empty and has no `@`. Otherwise the value is returned unchanged. |
| Models.ValidateInvitationEmail | src/docs_mcp_server/models.py:293-298 | Refused exactly when the raw address has no `@`. Otherwise the result is the address stripped and lower-cased: it still contains `@`, is trimmed, is no longer than the input and has no upper-case ASCII letter. |
| Models.InvitationEmailCheckOrder | src/docs_mcp_server/models.py:296-298 | Checking `@` before stripping accepts the same addresses as checking after. |
| Models.InvitationEmailIdempotent | src/docs_mcp_server/models.py:298 | A stored address validates again to itself. |
| Models.ValidateAiText | src/docs_mcp_server/models.py:314-319 | Refused, with "Text cannot be empty", exactly when the text is all whitespace. Otherwise the text is kept unstripped. The same validator is at lines 328-333. |
| Strings.LStrip | src/docs_mcp_server/yjs_utils.py:65 | The suffix from the first non-whitespace character. Everything cut off is whitespace. |
| Strings.RStrip | src/docs_mcp_server/yjs_utils.py:65 | The prefix up to the last non-whitespace character. Everything cut off is whitespace. |
| Strings.Strip | src/docs_mcp_server/yjs_utils.py:65 | A contiguous, trimmed piece of the input. Everything cut off on either side is whitespace. |
| Strings.StripUnique | src/docs_mcp_server/yjs_utils.py:65 | A trimmed string surrounded by any whitespace strips to itself. |
| Strings.StripParts | src/docs_mcp_server/yjs_utils.py:65 | A string is its leading whitespace, its stripped form and its trailing whitespace, in that order. |
| Strings.StripEmpty | src/docs_mcp_server/models.py:234 | `not v.strip()` holds exactly when `v` is all whitespace. |
| Strings.StripTrimmed | src/docs_mcp_server/models.py:236 | Stripping a trimmed string changes nothing. |
| Strings.StripKeeps | src/docs_mcp_server/models.py:296-298 | A non-whitespace character is in the stripped string exactly when it is in the original. |
| Strings.RStripChar | src/docs_mcp_server/config.py:120 | `rstrip("/")`: a prefix no longer ending in `/`, after which only `/` follows. |
| Strings.LStripChar | src/docs_mcp_server/client.py:125 | `lstrip("/")`: a suffix no longer starting with `/`, before which only `/` comes. |
| Strings.Lower | src/docs_mcp_server/models.py:298 | Same length. Each ASCII capital is lowered and every other character kept. |
| Strings.LowerIdempotent | src/docs_mcp_server/models.py:298 | Lowering twice is lowering once. |
| Strings.LowerTrimmed | src/docs_mcp_server/models.py:298 | Lowering keeps a trimmed string trimmed. |
| Strings.LowerKeeps | src/docs_mcp_server/models.py:298 | A character that is not a letter survives lowering exactly when present. |
| Strings.NatToString | src/docs_mcp_server/client.py:165 | `str(n)` is non-empty, all digits, and starts with `0` only for 0. |
| Strings.IntToString | src/docs_mcp_server/client.py:165 | `str(i)` is non-empty and starts with `-` exactly for a negative number. `Strings.ParseIntToString` reads it back. |
| Strings.ParseInt | src/docs_mcp_server/client.py:155 | `int()` refuses the empty text. `Strings.ParseIntNeedsDigit` and `Strings.ParseIntToString` state the rest. |
| Strings.ParseIntNeedsDigit | src/docs_mcp_server/client.py:155 | An accepted text, once stripped, ends in a digit, and a negative value needs a leading minus sign. |
| Strings.ParseIntToString | src/docs_mcp_server/client.py:155 | `int(str(i)) == i` for every integer. |
| Exceptions.PlainError | src/docs_mcp_server/exceptions.py:9-12 | The details default to `{}`. |
| Exceptions.ApiError | src/docs_mcp_server/exceptions.py:18-26 | The details are exactly `status_code` and `response`, null when absent. `response_data` defaults to `{}`. The error is an API error. |
| Exceptions.AuthError | src/docs_mcp_server/exceptions.py:32-33 | The default message is "Authentication failed". There are no details, and it is not an API error. |
| Exceptions.ConnectionError | src/docs_mcp_server/exceptions.py:39-40 | The default message is "Failed to connect to Docs API". There are no details. |
| Exceptions.TimeoutError | src/docs_mcp_server/exceptions.py:46-47 | The default message is "Request to Docs API timed out". There are no details. |
| Exceptions.ValidationError | src/docs_mcp_server/exceptions.py:53-55 | The details name the field exactly when a non-empty field is given. |
| Exceptions.NotFoundError | src/docs_mcp_server/exceptions.py:61-65 | The message is `"<type> with ID '<id>' not found"`. The status is 404 and the details are exactly the status and a null response. |
| Exceptions.PermissionError | src/docs_mcp_server/exceptions.py:71-77 | The message is `"Permission denied for operation: <op>"`, with `" on <resource>"` only for a non-empty resource. The status is 403. |
| Exceptions.RateLimitError | src/docs_mcp_server/exceptions.py:83-88 | The message is "API rate limit exceeded", with `". Retry after N seconds"` only for a non-zero wait. The status is 429. |
| Exceptions.PermissionMessageResource | src/docs_mcp_server/exceptions.py:72-74 | An absent and an empty resource give the same message. A named resource lengthens it by ` on ` and the name. |
| Exceptions.NotFoundMessageInjective | src/docs_mcp_server/exceptions.py:62 | The not-found message determines the identifier. |
| Exceptions.RateLimitMessageInjective | src/docs_mcp_server/exceptions.py:84-86 | A wait of 0 reads like no wait. Different non-zero waits give different messages. |
| Client.RequestUrl | src/docs_mcp_server/client.py:125 | The URL is the API base URL and `/`, followed by the endpoint with all its leading `/` removed. |
| Client.RequestUrlIgnoresLeadingSlash | src/docs_mcp_server/client.py:125 | A leading slash on the endpoint makes no difference. |
| Client.RetryAfter | src/docs_mcp_server/client.py:153-155 | An absent or empty header means no wait. Otherwise the header's integer value is the wait. Text that is not an integer is an error. |
| Client.ApiFailure | src/docs_mcp_server/client.py:158-168 | The generic API error carries the status and the body. The message is the body's `detail`, else `HTTP <status>`. A body that is not JSON counts as `{"detail": text}`. A JSON body that is not an object raises. |
| Client.Classify | src/docs_mcp_server/client.py:140-176 | 204 is `{"success": True}` and is checked first. 401, 403, 404 and 429 map to auth, permission, not-found and rate-limit. Any other status ≥ 400 is a generic API error, and a status outside 2xx is an error. Success happens exactly for 2xx: the JSON body, else `{"data": text}`. |
| Client.ErrorCarriesStatus | src/docs_mcp_server/client.py:144-168 | Every status ≥ 400 is an error. Every API error raised carries the response's status. The only non-API `DocsError` is the auth error of 401. |
| Client.UnprocessableIsApiError | src/docs_mcp_server/client.py:158-191 | A 422 answer becomes a generic API error with status 422, never a validation error. |
| Client.RetryAfterZero | src/docs_mcp_server/client.py:153-156 | `Retry-After: 0` gives the message of no header at all. |
| Client.TransportError | src/docs_mcp_server/client.py:178-181 | A timeout and a failed connection become the client's errors, carrying the failure's text. Any other transport error, an invalid URL included, passes through. None of them is an API error. |
| Client.SearchUsersParams | src/docs_mcp_server/client.py:578-580 | The query always has `q`, and has `document_id` only when a document id is given. |
| Client.ListVersionsParams | src/docs_mcp_server/client.py:668-672 | `version_id` and `page_size` appear only when truthy; a page size of 0 is left out. |
| Client.UserResults | src/docs_mcp_server/client.py:584-588 | A bare list is the user list. A paginated object gives its `results`. The answer is read exactly when it is one of these two shapes; otherwise it is a `Malformed("user list")` error. |
| Client.FirstUserId | src/docs_mcp_server/client.py:501 | The first user's `id`, when it has one. |
| Client.ResolvedId | src/docs_mcp_server/client.py:497-501 | A failed search fails with its error, and an unreadable answer with the reading error. A search that finds nobody is a not-found error for `("User", email)`. Otherwise the outcome is exactly the first user's id as `Client.FirstUserId` reads it, and any id returned is that of the first result. |
| Client.TreeItems | src/docs_mcp_server/client.py:628-643 | An object whose `results` is a list gives those items. A `results` that is an empty object or an empty string gives `[]`. Any other `results` is an error. An object without `results` gives a list of itself. A list gives its items. Anything else gives `[]`. |
| Client.TreeItemsPaginationAgnostic | src/docs_mcp_server/client.py:633-640 | A list of items reads the same bare or under `results`. |
| Client.SessionFor | src/docs_mcp_server/client.py:96-100 | The session has the configured timeout and the authentication headers, and follows redirects. |
| Client.ContentPatch | src/docs_mcp_server/client.py:373-377 | A PATCH to `documents/<id>/` whose body is exactly `{"content": <encoded>, "websocket": True}`. |
| Client.DocsApiClient.constructor | src/docs_mcp_server/client.py:70-82 | A client built from a configuration has no open session and has sent nothing. Its rate limiter has the corrected permit count, at least one. |
| Client.DocsApiClient.EnsureClient | src/docs_mcp_server/client.py:93-100 | Afterwards the session built from the configuration is open, and an open session is kept. |
| Client.DocsApiClient.Close | src/docs_mcp_server/client.py:102-106 | Afterwards no session is open. |
| Client.DocsApiClient.Request | src/docs_mcp_server/client.py:113-192 | The session is opened if needed and exactly one request is sent to the endpoint's URL with the session headers. The result is the classified outcome. |
| Client.DocsApiClient.UpdateContent | src/docs_mcp_server/client.py:328-380 | An unknown format is refused before anything is encoded or sent. Text is encoded locally and markdown by the conversion service. A conversion error is returned without sending. Otherwise exactly one PATCH with the content and the websocket flag is sent. The session is untouched when nothing is sent and is the configured one after a send. |
| Client.DocsApiClient.SearchUsers | src/docs_mcp_server/client.py:576-588 | One GET to `users/` with the built query. The answer is read as a user list. |
| Client.DocsApiClient.ResolveUser | src/docs_mcp_server/client.py:497-501 | One search for the address. The id is the one `Client.ResolvedId` gives. |
| Client.DocsApiClient.GrantAccess | src/docs_mcp_server/client.py:485-512 | With neither an id nor an address, the call is refused and nothing is sent. A given id is used directly. An address alone is searched first. An invalid role is refused before the access request. Otherwise one POST creates the access for the id, sent as text (the corrected body; see Findings). The session is untouched when nothing is sent and is the configured one otherwise. |
| Client.DocsApiClient.GrantByEmail | src/docs_mcp_server/client.py:497-511 | The search is sent first. A failed or empty search stops there. Otherwise the access is created for the first user found, through the corrected body. The configured session is open afterwards. |
| Client.DocsApiClient.CreateAccess | src/docs_mcp_server/client.py:503-511 | Corrected request: an invalid role is refused and nothing is sent. Otherwise the body, with the id as text, encodes, and one POST to `documents/<id>/accesses/` carries exactly the user id and the role, over the configured session. |
| Client.DocsApiClient.CreateAccessAsWritten | src/docs_mcp_server/client.py:503-511 | As written: an invalid role is refused. A valid role opens the session, but encoding the body raises `TypeError` for the `UUID`, so nothing is sent. |
| Client.DocsApiClient.PostModel | src/docs_mcp_server/client.py:120-137 | The session is opened first. A body that cannot be encoded fails with nothing sent. Otherwise exactly one POST carries the encoded body, and the result is the classified outcome. |
| Client.JsonDumps | src/docs_mcp_server/client.py:132-137 | Encoding fails exactly when some value is a `UUID`, with `TypeError`. Otherwise the JSON object has the same keys, each holding its text. |
| Client.AccessBodyAsWrittenFails | src/docs_mcp_server/client.py:503-510 | For every id and role, the body as written (`user_id` a `UUID`, models.py:269) cannot be encoded. |
| Client.AccessBodyEncodes | src/docs_mcp_server/client.py:503-510 | With the id as text, the body encodes to exactly the body of the access request. |
| Client.DocsApiClient.GetTree | src/docs_mcp_server/client.py:628-643 | One GET to the tree endpoint. The answer is read as tree items. |

## Left out

- All network I/O is a parameter (`send`, `post`): the `httpx` clients, request execution and connection pooling.
- The retry with exponential backoff (client.py:108-112) and the `asyncio.Semaphore` rate limiter (client.py:82) are left out. Both are timing and concurrency.
- The CRDT engine's binary update format, its merge rules and base64 (section 4 of RFC 4648) are functions of an `Engine` value. The model assumes only the `Crdt.Coherent` facts about them.
- The wording of library exceptions (`{e}` in the messages) is the library's message string, passed through.
- `uuid.uuid4()` in `create_from_text` is the parameter `blockId`.
- Environment variables, `.env` files, `load_config_from_file` and `create_example_config` are left out. The environment is a `RawSettings` value; case-insensitive variable names are not modelled.
- Pydantic's `HttpUrl` parsing is left out. A base URL is taken as text already accepted as a URL, and only the re-added `/` after a bare host is modelled.
- Config.Load: the environment arrives as `RawSettings`, already read by name, with the integer and float fields already parsed. Reading variables and parsing numbers are not modelled. `log_format` accepts any text, as in the source.
- Config.ParseBool: the words are those pydantic reads as booleans. Surrounding whitespace is not modelled: such text is refused.
- Client.DocsApiClient.Request: the `asyncio.Semaphore` of client.py:82 and :128 is not modelled as a wait. A request always completes, which holds for the corrected permit count `Config.Permits` the client keeps. As written, a `rate_limit` below 1 gives the semaphore no permit and every request waits forever (see Findings). Concurrency between requests is not modelled.
- `Xml.Stringify`: attribute order and the absence of escaping are assumptions about the engine's text form of an XML fragment.
- Response models (`Document`, `DocumentAccess`, `UserListResponse`, `ListDocument`, `parse_obj`) are not modelled. The operations return the raw JSON.
- The other endpoint wrappers of `client.py` (documents, favorites, invitations, versions, AI actions and others) are left out. They pass a fixed endpoint and body to `_request`, which is modelled.
- `server.py`, `cli.py`, `__init__.py` and `__main__.py` are not part of this model.
- Logging calls are left out.
- Client.DocsApiClient.Request: sends once. The retry of client.py:108-112 is not modelled, and it changes what callers see. `_request` is retried on `DocsConnectionError` and `DocsTimeoutError`, and the decorator does not set `reraise`. So a timeout or failed connection on all three attempts reaches the caller as `tenacity.RetryError`. The `DocsTimeoutError` and `DocsConnectionError` that `Client.TransportError` and this method return never reach a caller of `_request`.
- Client.DocsApiClient.constructor: only the `config=` path is modelled. The path that writes `DOCS_BASE_URL` and `DOCS_API_TOKEN` into the environment is not.
- Client.DocsApiClient.GrantAccess: it uses the corrected access body of Findings, so it sends a POST that the code as written never sends (`Client.DocsApiClient.CreateAccessAsWritten`). `UUID(str(user_id))` is not modelled, so an id that is not a UUID is sent as given rather than refused, and a valid one is not put in canonical form. An invalid role is reported as `Malformed("role")`, not as pydantic's validation error.
- Client.DocsApiClient.UpdateContent: the `create_from_text` failure path is absent, because the engine's functions are total.
- Client.RetryAfter: the header is looked up under its lower-case name. This stands for httpx's case-insensitive lookup.
- Strings.Lower: only ASCII letters are lowered. Python's full Unicode case mapping is not modelled.
- Models.ValidateInvitationEmail: "no longer than the input" holds only because lowering is ASCII. Python's `"İ".lower()` has two characters.
- YjsUtils.ConversionRequest: the `timeout=30.0` of the conversion call (yjs_utils.py:196) is not part of the request model.
- YjsUtils.ExtractText: pycrdt reads any `document-store` root as a fragment when asked (yjs_utils.py:54). The source never fails because the root is not a fragment. The `NotAFragment` error stands for an engine that cannot stringify that root as a fragment.
- YjsUtils.GetStructureInfo: the same applies to yjs_utils.py:251. Its `NotAFragment` error stands for an engine that cannot read the root as a fragment.
- Strings.ParseIntToString: `int()` is modelled for ASCII digits only, with optional sign, underscores between digits and surrounding whitespace. Unicode digits are not modelled.
- Config.GlobalConfig.Get: "the same instance" is modelled as the same value. Object identity is not modelled.
- YjsUtils.GetStructureInfo: `list(ydoc.keys())` is modelled as each root name exactly once, in an unspecified order.

## Findings

| source | as written | input that shows it | evidently intended | confidence | as-written member | corrected member |
|---|---|---|---|---|---|---|
| src/docs_mcp_server/client.py:503-510 | The access body is `request_data.dict(exclude_none=True)`, which keeps `user_id` as a `uuid.UUID` (models.py:269). httpx encodes `json=` with `json.dumps`, which raises `TypeError` for a `UUID`. Nothing catches it, and the retry does not match it. | `grant_access(doc, user_id="3fa85f64-5717-4562-b3fc-2c963f66afa6", role="reader")` raises `TypeError` and sends no POST | the POST `{"user_id": "<id>", "role": "reader"}`, e.g. via `model_dump(mode="json")` | medium, not executed | Client.AccessBodyAsWrittenFails | Client.DocsApiClient.CreateAccess |
| src/docs_mcp_server/client.py:82 | The semaphore gets `int(self.config.rate_limit)` permits, while config.py:49-55 accepts any rate from 0.1. `int()` truncates a rate below 1 to 0, and `_request` waits on the semaphore (client.py:128) before sending. | `DocsAPIClient(config=DocsConfig(base_url=…, api_token=…, rate_limit=0.5))`: the configuration validates, and every call then waits forever on a semaphore with no permit | at least one permit for any accepted rate, e.g. `max(1, int(rate_limit))` | medium, not executed | Config.SubUnitRateLimitBlocks | Config.Permits |
| src/docs_mcp_server/config.py:98-106 | The trailing slashes are stripped, then the text is parsed again as an `HttpUrl`. For a URL with an empty path, rendering it adds the `/` back. | `https://docs.example.com/` is returned as `https://docs.example.com/` | the validated URL never ends in `/` (the docstring says so) | medium, not executed | Config.BareHostKeepsSlash | Config.ValidateBaseUrl |
