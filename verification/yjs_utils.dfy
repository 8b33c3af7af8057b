/** The Yjs document helpers (yjs_utils.py): reading the plain text of a
    stored document, building a document that holds one paragraph, describing
    a document's structure, and the status handling of the markdown
    conversion service. A raised `YjsDocumentError` is an `Err` here. */
module YjsUtils {
  import opened Wrappers
  import opened Strings
  import opened Json
  import opened Xml
  import opened TextExtract
  import opened Crdt
  import opened Http
  import Config

  /** The root under which the editor keeps its block tree. */
  const DocumentStore := "document-store"

  /** Why a stored document could not be read: the base64 text or the update
      was refused (with the library's message), or the `document-store` root
      holds something other than an XML fragment. */
  datatype DocFault =
    | Undecodable(message: string)
    | NotAFragment(kind: string)

  /** What goes wrong inside the markdown conversion other than the cases the
      service reports by status: the settings could not be loaded, the URL
      was refused before sending, or a response body is not JSON, not an
      object, or lacks `content`. */
  datatype ConversionFault =
    | ConfigInvalid(errors: seq<Config.FieldError>)
    | UnusableUrl(detail: string)
    | BodyNotJson
    | BodyNotObject
    | MissingContent

  /** The `YjsDocumentError`s, one per place the code raises one. */
  datatype YjsError =
    | ExtractFailed(fault: DocFault)
    | InvalidMarkdown(detail: Json)
    | ConversionAuthFailed
    | ConversionUnavailable
    | ConversionHttpFailed(status: int, body: string)
    | ConversionNetworkError(reason: string)
    | ConversionFailed(cause: ConversionFault)
    | StructureFailed(fault: DocFault)

  function FaultText(f: DocFault): string {
    match f
    case Undecodable(m) => m
    case NotAFragment(k) => "the root is a " + k + ", not an XML fragment"
  }

  /** The error's message; `render` is `str()` of a JSON value and `problem`
      the text of a conversion fault. */
  function Message(e: YjsError, render: Json -> string, problem: ConversionFault -> string): string {
    match e
    case ExtractFailed(f) => "Failed to extract text from Yjs document: " + FaultText(f)
    case InvalidMarkdown(d) => "Invalid markdown: " + render(d)
    case ConversionAuthFailed => "Authentication failed. Check your API token."
    case ConversionUnavailable => "Conversion service temporarily unavailable. Try again later."
    case ConversionHttpFailed(status, body) =>
      "Markdown conversion failed: HTTP " + IntToString(status) + " - " + body
    case ConversionNetworkError(d) => "Network error during markdown conversion: " + d
    case ConversionFailed(c) => "Failed to convert markdown to Yjs: " + problem(c)
    case StructureFailed(f) => "Failed to get structure info: " + FaultText(f)
  }

  // ---------------------------------------------------------------------------
  // Reading text

  /** `extract_text`: no text for an absent or empty input; otherwise the
      document is decoded, and its `document-store` fragment, if it has one,
      is stringified and reduced to plain text. */
  function ExtractText(engine: Engine, input: Option<string>): (r: Result<string, YjsError>)
    ensures !Truthy(input) ==> r == Ok("")
    ensures r.Ok? ==> TagFree(r.value) && Normalized(r.value)
    ensures Truthy(input) && DecodeDoc(engine, input.value).Err? ==>
              r == Err(ExtractFailed(Undecodable(DecodeDoc(engine, input.value).error)))
    ensures Truthy(input) && DecodeDoc(engine, input.value).Ok? ==>
              var roots := DecodeDoc(engine, input.value).value;
              && (DocumentStore !in roots ==> r == Ok(""))
              && (r.Err? <==> DocumentStore in roots && roots[DocumentStore].OtherRoot?)
              && (DocumentStore in roots && roots[DocumentStore].XmlRoot? ==>
                    r == Ok(TextOfXml(StringifySeq(roots[DocumentStore].nodes))))
  {
    if !Truthy(input) then Ok("")
    else
      match DecodeDoc(engine, input.value)
      case Err(m) => Err(ExtractFailed(Undecodable(m)))
      case Ok(roots) =>
        if DocumentStore !in roots then Ok("")
        else
          match roots[DocumentStore]
          case OtherRoot(kind) => Err(ExtractFailed(NotAFragment(kind)))
          case XmlRoot(nodes) => Ok(TextOfXml(StringifySeq(nodes)))
  }

  /** An error from `extract_text` is never an empty text in disguise: every
      decodable document without a foreign `document-store` yields text, and
      every failure is reported. */
  lemma ExtractTextFailures(engine: Engine, input: string)
    requires input != ""
    ensures ExtractText(engine, Some(input)).Err? <==>
              DecodeDoc(engine, input).Err?
              || (DocumentStore in DecodeDoc(engine, input).value
                  && DecodeDoc(engine, input).value[DocumentStore].OtherRoot?)
  {
  }

  // ---------------------------------------------------------------------------
  // Building a document from text

  const ParagraphAttrs: seq<Attr> :=
    [Attr("textColor", "default"), Attr("textAlignment", "left"), Attr("backgroundColor", "default")]

  /** The tree `create_from_text` builds: a `blockGroup` holding one
      `blockContainer` with the block id, holding one `paragraph` with the
      default styling, holding the text if there is any. */
  function BlockTree(blockId: string, text: string): (r: Node)
    ensures r.Element? && r.tag == "blockGroup" && r.attrs == [] && |r.children| == 1
    ensures var c := r.children[0];
      && c.Element? && c.tag == "blockContainer" && c.attrs == [Attr("id", blockId)]
      && |c.children| == 1
      && var p := c.children[0];
        && p.Element? && p.tag == "paragraph" && p.attrs == ParagraphAttrs
        && (p.children == [Text(text)] <==> text != "")
        && (text == "" <==> p.children == [])
  {
    var kids := if text != "" then [Text(text)] else [];
    var paragraph := Element("paragraph", ParagraphAttrs, kids);
    var container := Element("blockContainer", [Attr("id", blockId)], [paragraph]);
    Element("blockGroup", [], [container])
  }

  /** Plain text with no `<` and a block id with no `>` give a tree that the
      text extractor reads back exactly. */
  lemma BlockTreeWellFormed(blockId: string, text: string)
    requires '<' !in text && '>' !in blockId
    ensures WellFormed(BlockTree(blockId, text))
  {
    var kids := if text != "" then [Text(text)] else [];
    var paragraph := Element("paragraph", ParagraphAttrs, kids);
    ParagraphWellFormed(text);
    var container := Element("blockContainer", [Attr("id", blockId)], [paragraph]);
    ContainerWellFormed(blockId, paragraph);
    assert '>' !in "blockGroup";
    assert BlockTree(blockId, text) == Element("blockGroup", [], [container]);
  }

  lemma ParagraphWellFormed(text: string)
    requires '<' !in text
    ensures WellFormed(Element("paragraph", ParagraphAttrs, if text != "" then [Text(text)] else []))
  {
    assert '>' !in "textColor" && '>' !in "textAlignment" && '>' !in "backgroundColor";
    assert '>' !in "default" && '>' !in "left";
    assert '>' !in "paragraph";
  }

  lemma ContainerWellFormed(blockId: string, paragraph: Node)
    requires '>' !in blockId && WellFormed(paragraph)
    ensures WellFormed(Element("blockContainer", [Attr("id", blockId)], [paragraph]))
  {
    assert '>' !in "blockContainer" && '>' !in "id";
  }

  /** The tree's text, as the tag substitution makes it: the paragraph text
      between three spaces on either side. */
  lemma FlattenBlockTree(blockId: string, text: string)
    ensures FlattenSeq([BlockTree(blockId, text)]) == "   " + text + "   "
  {
    var t := BlockTree(blockId, text);
    var c := t.children[0];
    var p := c.children[0];
    if text == "" {
      assert FlattenSeq(p.children) == "";
    } else {
      assert FlattenSeq(p.children) == text + "" by {
        assert p.children[1..] == [];
      }
    }
    assert Flatten(p) == " " + text + " ";
    assert FlattenSeq(c.children) == Flatten(p) + "" by {
      assert c.children[1..] == [];
    }
    assert FlattenSeq(t.children) == Flatten(c) + "" by {
      assert t.children[1..] == [];
    }
    assert [t][1..] == [];
  }

  /** The base64 text `create_from_text` returns, for the given block id. */
  function TextDocument(engine: Engine, text: string, blockId: string): string
  {
    engine.b64encode(engine.encodeState(map[DocumentStore := XmlRoot([BlockTree(blockId, text)])]))
  }

  /** `create_from_text`: a fresh document gets the block tree under
      `document-store`, and its whole state is returned in base64. The block
      id, a fresh UUID in the source, is a parameter. */
  method CreateFromText(engine: Engine, text: string, blockId: string) returns (r: string)
    ensures r == TextDocument(engine, text, blockId)
  {
    var doc := new YDoc();
    doc.Set(DocumentStore, XmlRoot([BlockTree(blockId, text)]));
    var update := doc.Update(engine);
    r := engine.b64encode(update);
  }

  /** Reading back a created document gives the text with its whitespace
      runs collapsed to single spaces and its ends trimmed. */
  lemma TextRoundTrip(engine: Engine, text: string, blockId: string)
    requires Coherent(engine)
    requires '<' !in text && '>' !in blockId
    ensures ExtractText(engine, Some(TextDocument(engine, text, blockId))) == Ok(Normalize(text))
  {
    var roots := map[DocumentStore := XmlRoot([BlockTree(blockId, text)])];
    DecodeEncoded(engine, roots);
    BlockTreeWellFormed(blockId, text);
    ExtractFragment([BlockTree(blockId, text)]);
    FlattenBlockTree(blockId, text);
    NormalizePadded("   ", text, "   ");
  }

  // ---------------------------------------------------------------------------
  // Structure information

  const FragmentTypeName := "<class 'pycrdt._xml.XmlFragment'>"
  const XmlPreviewLength := 500

  /** The answer for an absent or empty input. */
  const EmptyInfo: map<string, Json> := map["empty" := JBool(true), "keys" := JList([])]

  /** The root names as a JSON list. */
  function KeyList(ks: seq<string>): (r: seq<Json>)
    ensures |r| == |ks|
    ensures forall i :: 0 <= i < |ks| ==> r[i] == JStr(ks[i])
    ensures forall k :: JStr(k) in r <==> k in ks
  {
    var r := seq(|ks|, i requires 0 <= i < |ks| => JStr(ks[i]));
    forall k | JStr(k) in r ensures k in ks {
      var i :| 0 <= i < |r| && r[i] == JStr(k);
      assert ks[i] == k;
    }
    r
  }

  /** `info` describes the document `roots`, whose `document-store` root, if
      any, is an XML fragment: the document is not empty, every root name is
      listed once, `has_document_store` says whether the store is there, and
      only then is its text (cut to 500 characters) and type given. */
  ghost predicate DescribesDoc(info: map<string, Json>, roots: Roots)
    requires DocumentStore in roots ==> roots[DocumentStore].XmlRoot?
  {
    && (info.Keys == {"empty", "keys", "has_document_store"}
        + (if DocumentStore in roots then {"document_store_xml", "document_store_type"} else {}))
    && info["empty"] == JBool(false)
    && info["has_document_store"] == JBool(DocumentStore in roots)
    && info["keys"].JList?
    && |info["keys"].items| == |roots|
    && (forall k :: JStr(k) in info["keys"].items <==> k in roots)
    && (forall i, j :: 0 <= i < j < |info["keys"].items| ==> info["keys"].items[i] != info["keys"].items[j])
    && (DocumentStore in roots ==>
          && info["document_store_xml"] == JStr(Prefix(StringifySeq(roots[DocumentStore].nodes), XmlPreviewLength))
          && info["document_store_type"] == JStr(FragmentTypeName))
  }

  /** `get_structure_info`: the `info` dictionary is filled in step by step
      from a freshly decoded document. */
  method GetStructureInfo(engine: Engine, input: Option<string>) returns (r: Result<map<string, Json>, YjsError>)
    ensures !Truthy(input) ==> r == Ok(EmptyInfo)
    ensures Truthy(input) && DecodeDoc(engine, input.value).Err? ==>
              r == Err(StructureFailed(Undecodable(DecodeDoc(engine, input.value).error)))
    ensures Truthy(input) && DecodeDoc(engine, input.value).Ok? ==>
              var roots := DecodeDoc(engine, input.value).value;
              && (r.Err? <==> DocumentStore in roots && roots[DocumentStore].OtherRoot?)
              && (r.Ok? ==> DescribesDoc(r.value, roots))
  {
    if !Truthy(input) {
      return Ok(EmptyInfo);
    }
    var bytes := engine.b64decode(input.value);
    if bytes.Err? {
      return Err(StructureFailed(Undecodable(bytes.error)));
    }
    var doc := new YDoc();
    var applied := doc.ApplyUpdate(engine, bytes.value);
    if applied.Err? {
      return Err(StructureFailed(Undecodable(applied.error)));
    }
    r := DescribeDoc(doc);
  }

  /** The `info` dictionary of a decoded document, filled in step by step:
      the root names, whether `document-store` is there, and then its text
      and type, which fails when that root is not an XML fragment. */
  method DescribeDoc(doc: YDoc) returns (r: Result<map<string, Json>, YjsError>)
    ensures r.Err? <==> DocumentStore in doc.roots && doc.roots[DocumentStore].OtherRoot?
    ensures r.Err? ==> r == Err(StructureFailed(NotAFragment(doc.roots[DocumentStore].kind)))
    ensures r.Ok? ==> DescribesDoc(r.value, doc.roots)
  {
    var ks := doc.Keys();
    var keys := KeyList(ks);
    var info: map<string, Json> := map[
      "empty" := JBool(false),
      "keys" := JList(keys),
      "has_document_store" := JBool(DocumentStore in doc.roots)];
    if DocumentStore in doc.roots {
      match doc.roots[DocumentStore]
      case OtherRoot(kind) =>
        return Err(StructureFailed(NotAFragment(kind)));
      case XmlRoot(nodes) =>
        info := info["document_store_xml" := JStr(Prefix(StringifySeq(nodes), XmlPreviewLength))];
        info := info["document_store_type" := JStr(FragmentTypeName)];
    }
    r := Ok(info);
  }

  /** The XML preview never exceeds 500 characters and is the start of the
      fragment's text. */
  lemma PreviewBounded(info: map<string, Json>, roots: Roots)
    requires DocumentStore in roots && roots[DocumentStore].XmlRoot?
    requires DescribesDoc(info, roots)
    ensures info["document_store_xml"].JStr?
    ensures |info["document_store_xml"].s| <= XmlPreviewLength
    ensures var xml := StringifySeq(roots[DocumentStore].nodes);
      info["document_store_xml"].s == xml[..|info["document_store_xml"].s|]
  {
  }

  // ---------------------------------------------------------------------------
  // Markdown conversion

  /** The base URL and token of a conversion call: when either is not given
      the settings are loaded from the environment, and each value that is
      absent or empty is taken from them. When both are given they are used
      as they are, even if empty. */
  function ResolveCredentials(baseUrl: Option<string>, apiToken: Option<string>, env: Config.RawSettings)
    : (r: Result<(string, string), YjsError>)
    ensures baseUrl.Some? && apiToken.Some? ==> r == Ok((baseUrl.value, apiToken.value))
    ensures (baseUrl.None? || apiToken.None?) && Config.Load(env).Err? ==>
              r == Err(ConversionFailed(ConfigInvalid(Config.Load(env).error)))
    ensures (baseUrl.None? || apiToken.None?) && Config.Load(env).Ok? ==>
              && r.Ok?
              && r.value.0 == (if Truthy(baseUrl) then baseUrl.value else Config.Load(env).value.baseUrl)
              && r.value.1 == (if Truthy(apiToken) then apiToken.value else Config.Load(env).value.apiToken)
  {
    if baseUrl.Some? && apiToken.Some? then Ok((baseUrl.value, apiToken.value))
    else
      match Config.Load(env)
      case Err(errors) => Err(ConversionFailed(ConfigInvalid(errors)))
      case Ok(config) =>
        Ok((if Truthy(baseUrl) then baseUrl.value else config.baseUrl,
            if Truthy(apiToken) then apiToken.value else config.apiToken))
  }

  /** The conversion endpoint: the base URL without trailing slashes, then
      the fixed path `/api/v1.0/convert/`. */
  function ConvertUrl(base: string): (r: string)
    ensures var n := |r| - 18;
      && 0 <= n <= |base|
      && r[..n] == base[..n]
      && !Config.EndsWithSlash(r[..n])
      && (forall i :: n <= i < |base| ==> base[i] == '/')
      && r[n..] == "/api/v1.0/convert/"
  {
    var stem := RStripChar(base, '/');
    var r := stem + "/api/v1.0/convert/";
    assert r[..|stem|] == stem;
    r
  }

  /** The endpoint does not depend on trailing slashes of the base URL. */
  lemma ConvertUrlIgnoresTrailingSlash(base: string)
    ensures ConvertUrl(base + "/") == ConvertUrl(base)
  {
    var b := base + "/";
    assert b[..|b| - 1] == base;
  }

  /** The conversion endpoint lies under the API base URL of version
      `v1.0`, whatever version the settings name. */
  lemma ConvertUrlUnderApi(c: Config.DocsConfig)
    ensures ConvertUrl(c.baseUrl) == Config.ApiBaseUrl(c.(apiVersion := "v1.0")) + "/convert/"
  {
    var stem := RStripChar(c.baseUrl, '/');
    ConvertPath(stem, ConvertUrl(c.baseUrl), Config.ApiBaseUrl(c.(apiVersion := "v1.0")));
  }

  lemma ConvertPath(stem: string, url: string, api: string)
    requires url == stem + "/api/v1.0/convert/" && api == stem + "/api/" + "v1.0"
    ensures url == api + "/convert/"
  {
    assert "/api/" + "v1.0" + "/convert/" == "/api/v1.0/convert/";
  }

  /** The request sent to the conversion service. */
  function ConversionRequest(url: string, token: string, markdown: string): (q: Request)
    ensures q.verb == "POST" && q.url == url && q.params == map[]
    ensures q.headers.Keys == {"Authorization", "Content-Type"}
    ensures q.headers["Authorization"] == "Token " + token
    ensures q.headers["Content-Type"] == "application/json"
    ensures q.body == Some(JObj(map["markdown" := JStr(markdown)]))
  {
    Request("POST", url, map[],
      map["Authorization" := "Token " + token, "Content-Type" := "application/json"],
      Some(JObj(map["markdown" := JStr(markdown)])))
  }

  /** What a response of the conversion service becomes: the `content` of
      a 200 answer verbatim; the service's own `error` for a 400 answer; a
      fixed error for 401 and for 503; and for any other status the code and
      the first 200 characters of the body. */
  function ConversionOutcome(resp: Response): (r: Result<Json, YjsError>)
    ensures r.Ok? <==> resp.status == 200 && resp.json.Some? && resp.json.value.JObj?
                       && "content" in resp.json.value.fields
    ensures r.Ok? ==> r.value == resp.json.value.fields["content"]
    ensures resp.status == 400 && resp.json.Some? && resp.json.value.JObj? ==>
              var fields := resp.json.value.fields;
              r == Err(InvalidMarkdown(if "error" in fields then fields["error"] else JStr("Invalid request")))
    ensures resp.status == 401 ==> r == Err(ConversionAuthFailed)
    ensures resp.status == 503 ==> r == Err(ConversionUnavailable)
    ensures resp.status !in {200, 400, 401, 503} ==>
              && r.Err? && r.error.ConversionHttpFailed?
              && r.error.status == resp.status
              && |r.error.body| <= 200 && |r.error.body| <= |resp.text|
              && r.error.body == resp.text[..|r.error.body|]
              && (|resp.text| <= 200 ==> r.error.body == resp.text)
    ensures (resp.status == 200 || resp.status == 400) && r.Err? && !r.error.InvalidMarkdown? ==>
              r.error.ConversionFailed?
  {
    if resp.status == 200 then
      match resp.json
      case None => Err(ConversionFailed(BodyNotJson))
      case Some(JObj(fields)) =>
        if "content" in fields then Ok(fields["content"]) else Err(ConversionFailed(MissingContent))
      case Some(_) => Err(ConversionFailed(BodyNotObject))
    else if resp.status == 400 then
      match resp.json
      case None => Err(ConversionFailed(BodyNotJson))
      case Some(JObj(fields)) =>
        Err(InvalidMarkdown(if "error" in fields then fields["error"] else JStr("Invalid request")))
      case Some(_) => Err(ConversionFailed(BodyNotObject))
    else if resp.status == 401 then Err(ConversionAuthFailed)
    else if resp.status == 503 then Err(ConversionUnavailable)
    else Err(ConversionHttpFailed(resp.status, Prefix(resp.text, 200)))
  }

  /** `create_from_markdown`: the credentials are resolved, the markdown is
      posted to the conversion endpoint by `post`, and the response decides
      the outcome. An `httpx.HTTPError` is a network error; an invalid URL,
      which is not one, is a conversion failure; the errors the response
      handling raises reach the caller as they are. */
  function CreateFromMarkdown(
    markdown: string, baseUrl: Option<string>, apiToken: Option<string>,
    env: Config.RawSettings, post: Request -> Result<Response, TransportFault>)
    : (r: Result<Json, YjsError>)
    ensures ResolveCredentials(baseUrl, apiToken, env).Err? ==> r == Err(ResolveCredentials(baseUrl, apiToken, env).error)
    ensures ResolveCredentials(baseUrl, apiToken, env).Ok? ==>
              var (base, token) := ResolveCredentials(baseUrl, apiToken, env).value;
              var sent := post(ConversionRequest(ConvertUrl(base), token, markdown));
              && (sent.Err? && sent.error.InvalidUrlFault? ==>
                    r == Err(ConversionFailed(UnusableUrl(sent.error.detail))))
              && (sent.Err? && !sent.error.InvalidUrlFault? ==>
                    r == Err(ConversionNetworkError(Http.FaultText(sent.error))))
              && (sent.Ok? ==> r == ConversionOutcome(sent.value))
    ensures r.Ok? ==> ResolveCredentials(baseUrl, apiToken, env).Ok?
  {
    match ResolveCredentials(baseUrl, apiToken, env)
    case Err(e) => Err(e)
    case Ok((base, token)) =>
      match post(ConversionRequest(ConvertUrl(base), token, markdown))
      case Err(InvalidUrlFault(d)) => Err(ConversionFailed(UnusableUrl(d)))
      case Err(fault) => Err(ConversionNetworkError(Http.FaultText(fault)))
      case Ok(resp) => ConversionOutcome(resp)
  }
}
