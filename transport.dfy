/**
 * The REST transport of client/client.go: how a request is routed, which
 * headers it carries, and how the status and the decoded body of the reply
 * become a value or an error. The HTTP exchange itself is a parameter
 * `send`; JSON encoding and decoding are trusted and appear as the `Json`
 * datatype (or `None` for a body that is not valid JSON).
 */
module Transport {

  import opened Wrappers
  import opened Json
  import opened Text
  import Base64
  import Decimal

  /** The fields of `upstashClient`; the HTTP client is the `send` parameter. */
  datatype Config = Config(url: string, edgeUrl: string, token: string, enableBase64: bool)

  datatype Method = GET | POST

  /** What the caller passes as `Request.Body`: nothing, a JSON document, or a value `json.Marshal` rejects. */
  datatype Body = NoBody | Doc(doc: Json) | Unmarshalable(cause: string)

  datatype HttpRequest = HttpRequest(verb: Method, url: string, headers: map<string, string>, payload: Option<Json>)

  /**
   * The outcome of building and performing one HTTP request: the request
   * could not be created, could not be performed, or came back with a status
   * and a body.
   */
  datatype Exchange<B> = CannotCreate(cause: string) | CannotPerform(cause: string) | Response(status: int, body: B)

  datatype Error =
    | MarshalFailed(cause: string)
    | CreateFailed(cause: string)
    | PerformFailed(cause: string)
    | BadResponseUndecodable(status: int)
    | BadStatus(status: int, path: seq<string>)
    | Unmarshal
    | Logical(text: string)
    | StreamCreateFailed(cause: string)
    | StreamPerformFailed(cause: string)
    | StreamStatus(status: int)

  /**
   * The leading text of each error's message. For the two bad-status errors
   * the remainder (Go's status line or the pretty-printed body, and the path)
   * is not modelled.
   */
  function Message(e: Error): string
  {
    match e
    case MarshalFailed(c) => "unable to marshal request body: " + c
    case CreateFailed(c) => "unable to create request: " + c
    case PerformFailed(c) => "unable to perform request: " + c
    case BadResponseUndecodable(_) => "unable to decode response body of bad response: "
    case BadStatus(s, _) => "response returned status code " + Decimal.DecimalString(s)
    case Unmarshal => "unable to unmarshal response: "
    case Logical(t) => t
    case StreamCreateFailed(c) => "unable to create stream request: " + c
    case StreamPerformFailed(c) => "unable to perform stream request: " + c
    case StreamStatus(s) => "stream request returned status code " + Decimal.DecimalString(s)
  }

  /** Every error about a bad status names that status code, in the words of its kind. */
  lemma StatusErrorsNameTheCode(e: Error)
    requires e.BadStatus? || e.StreamStatus?
    ensures e.BadStatus? ==> HasPrefix(Message(e), "response returned status code " + Decimal.DecimalString(e.status))
    ensures e.StreamStatus? ==> HasPrefix(Message(e), "stream request returned status code " + Decimal.DecimalString(e.status))
  {
    var m := Message(e);
    if e.BadStatus? {
      assert m[..|"response returned status code " + Decimal.DecimalString(e.status)|] == m;
    } else {
      assert m[..|"stream request returned status code " + Decimal.DecimalString(e.status)|] == m;
    }
  }

  /**
   * An error that wraps a cause (Go's `%w`) ends with the cause's text, and a
   * logical error is exactly the server's text.
   */
  lemma MessageWrapsCause(e: Error)
    ensures (e.MarshalFailed? || e.CreateFailed? || e.PerformFailed? || e.StreamCreateFailed? || e.StreamPerformFailed?) ==>
      |e.cause| < |Message(e)| && Message(e)[|Message(e)| - |e.cause|..] == e.cause
    ensures e.Logical? ==> Message(e) == e.text
  {
    if e.MarshalFailed? || e.CreateFailed? || e.PerformFailed? || e.StreamCreateFailed? || e.StreamPerformFailed? {
      var m := Message(e);
      var head := m[..|m| - |e.cause|];
      assert m == head + e.cause;
    }
  }

  /** `marshalBody`: no payload for a nil body, the document otherwise. */
  function MarshalBody(body: Body): (r: Result<Option<Json>, string>)
    ensures r.Ok? <==> !body.Unmarshalable?
    ensures r == Ok(None) <==> body.NoBody?
    ensures body.Doc? ==> r == Ok(Some(body.doc))
    ensures body.Unmarshalable? ==> r == Err(body.cause)
  {
    match body
    case NoBody => Ok(None)
    case Doc(d) => Ok(Some(d))
    case Unmarshalable(c) => Err(c)
  }

  /** The base URL a request goes to. */
  function BaseUrl(cfg: Config, verb: Method): (u: string)
    ensures u == cfg.edgeUrl <== verb == GET && cfg.edgeUrl != ""
    ensures u == cfg.url <== verb == POST || cfg.edgeUrl == ""
  {
    if verb == GET && cfg.edgeUrl != "" then cfg.edgeUrl else cfg.url
  }

  /** The request URL: the base, a slash, then the path segments joined by slashes. */
  function TargetUrl(base: string, path: seq<string>): (u: string)
    ensures |u| > |base| && u[..|base|] == base && u[|base|] == '/'
    ensures u[|base| + 1..] == Join(path, "/")
  {
    base + "/" + Join(path, "/")
  }

  function BearerHeader(token: string): string
  {
    "Bearer " + token
  }

  /** The headers `request` sets. */
  function RequestHeaders(cfg: Config): (h: map<string, string>)
    ensures "Authorization" in h && h["Authorization"] == BearerHeader(cfg.token)
    ensures "Content-Type" in h && h["Content-Type"] == "application/json"
    ensures "Upstash-Encoding" in h <==> cfg.enableBase64
    ensures "Upstash-Encoding" in h ==> h["Upstash-Encoding"] == "base64"
    ensures "Accept" !in h
  {
    var h := map["Content-Type" := "application/json", "Authorization" := BearerHeader(cfg.token)];
    if cfg.enableBase64 then h["Upstash-Encoding" := "base64"] else h
  }

  /** The headers `Stream` sets. */
  function StreamHeaders(cfg: Config): (h: map<string, string>)
    ensures "Authorization" in h && h["Authorization"] == BearerHeader(cfg.token)
    ensures "Accept" in h && h["Accept"] == "text/event-stream"
    ensures "Upstash-Encoding" !in h && "Content-Type" !in h
  {
    map["Authorization" := BearerHeader(cfg.token), "Accept" := "text/event-stream"]
  }

  /** The request `request` builds: the verb and payload as given, the routed URL, the request headers. */
  function BuildRequest(cfg: Config, verb: Method, path: seq<string>, payload: Option<Json>): (r: HttpRequest)
    ensures r.verb == verb && r.payload == payload
    ensures "Authorization" in r.headers && r.headers["Authorization"] == BearerHeader(cfg.token)
    ensures HasPrefix(r.url, BaseUrl(cfg, verb) + "/")
  {
    HttpRequest(verb, TargetUrl(BaseUrl(cfg, verb), path), RequestHeaders(cfg), payload)
  }

  /** A string of the reply after base64 decoding: "OK" is kept, and so is anything that does not decode. */
  function DecodeString(s: string): (r: string)
    ensures s == "OK" ==> r == s
    ensures Base64.Decode(s).None? ==> r == s
    ensures s != "OK" && Base64.Decode(s).Some? ==> r == Base64.Decode(s).value
  {
    if s == "OK" then s
    else match Base64.Decode(s)
      case None => s
      case Some(d) => d
  }

  /** `decodeBase64`: every string of the tree decoded, the rest untouched. */
  function DecodeTree(v: Json): (r: Json)
    ensures v.JStr? <==> r.JStr?
    ensures v.JArr? <==> r.JArr?
    ensures v.JObj? <==> r.JObj?
    ensures v.JArr? ==> |r.items| == |v.items|
    ensures v.JObj? ==> r.fields.Keys == v.fields.Keys
    ensures v.JNull? || v.JBool? || v.JNum? ==> r == v
    decreases v
  {
    match v
    case JStr(s) => JStr(DecodeString(s))
    case JArr(items) => JArr(seq(|items|, i requires 0 <= i < |items| => DecodeTree(items[i])))
    case JObj(m) => JObj(map k | k in m :: DecodeTree(m[k]))
    case _ => v
  }

  /**
   * `decodeBase64` as the source runs it: lists and maps are rewritten
   * element by element.
   */
  method DecodeBase64(v: Json) returns (r: Json)
    ensures r == DecodeTree(v)
    decreases v
  {
    match v {
      case JStr(s) =>
        r := JStr(DecodeString(s));
      case JArr(items) =>
        var out := items;
        var i := 0;
        while i < |items|
          invariant 0 <= i <= |items| && |out| == |items|
          invariant forall j :: 0 <= j < i ==> out[j] == DecodeTree(items[j])
          invariant forall j :: i <= j < |items| ==> out[j] == items[j]
        {
          var d := DecodeBase64(items[i]);
          out := out[i := d];
          i := i + 1;
        }
        assert out == seq(|items|, i requires 0 <= i < |items| => DecodeTree(items[i]));
        r := JArr(out);
      case JObj(m) =>
        var out := m;
        var todo := m.Keys;
        while todo != {}
          invariant todo <= m.Keys && out.Keys == m.Keys
          invariant forall k :: k in m && k !in todo ==> out[k] == DecodeTree(m[k])
          invariant forall k :: k in todo ==> out[k] == m[k]
          decreases |todo|
        {
          var k :| k in todo;
          var d := DecodeBase64(m[k]);
          out := out[k := d];
          todo := todo - {k};
        }
        assert out == map k | k in m :: DecodeTree(m[k]);
        r := JObj(out);
      case _ =>
        r := v;
    }
  }

  /** The value handed back for a successful reply. */
  function Decoded(cfg: Config, v: Json): Json
  {
    if cfg.enableBase64 then DecodeTree(v) else v
  }

  predicate HasLogicalError(m: map<string, Json>)
  {
    "error" in m && m["error"].JStr? && m["error"].s != ""
  }

  /**
   * How `request` turns the status and the decoded body (`None`: not valid
   * JSON) into its result.
   */
  function Interpret(cfg: Config, path: seq<string>, status: int, body: Option<Json>): (r: Result<Json, Error>)
    ensures r.Ok? ==> 200 <= status < 300 && body.Some?
    ensures !(200 <= status < 300) ==> r.Err? && (r.error.BadStatus? || r.error.BadResponseUndecodable?)
    ensures r.Err? ==> r.error.BadStatus? || r.error.BadResponseUndecodable? || r.error.Unmarshal? || r.error.Logical?
    ensures r.Err? && r.error.Logical? ==> r.error.text != ""
  {
    if status < 200 || status >= 300 then
      if body.Some? && (body.value.JObj? || body.value.JNull?) then Err(BadStatus(status, path))
      else Err(BadResponseUndecodable(status))
    else if body.None? then Err(Unmarshal)
    else match body.value
      case JObj(m) =>
        if HasLogicalError(m) then Err(Logical(m["error"].s))
        else if "result" in m then Ok(Decoded(cfg, m["result"]))
        else Ok(Decoded(cfg, body.value))
      case other => Ok(Decoded(cfg, other))
  }

  /** `request`: marshal, route, send, then interpret. */
  function Request(cfg: Config, verb: Method, path: seq<string>, body: Body,
                   send: HttpRequest -> Exchange<Option<Json>>): (r: Result<Json, Error>)
    ensures r.Err? && r.error.MarshalFailed? <==> body.Unmarshalable?
    ensures body.Unmarshalable? ==> r == Err(MarshalFailed(body.cause))
  {
    match MarshalBody(body)
    case Err(cause) => Err(MarshalFailed(cause))
    case Ok(payload) =>
      Outcome(cfg, path, send(BuildRequest(cfg, verb, path, payload)))
  }

  /** What `request` makes of the exchange once the request is built. */
  function Outcome(cfg: Config, path: seq<string>, ex: Exchange<Option<Json>>): (r: Result<Json, Error>)
    ensures r.Ok? ==> ex.Response? && 200 <= ex.status < 300
    ensures !ex.Response? <==> r.Err? && (r.error.CreateFailed? || r.error.PerformFailed?)
    ensures ex.CannotCreate? ==> r == Err(CreateFailed(ex.cause))
    ensures ex.CannotPerform? ==> r == Err(PerformFailed(ex.cause))
  {
    match ex
    case CannotCreate(c) => Err(CreateFailed(c))
    case CannotPerform(c) => Err(PerformFailed(c))
    case Response(status, b) => Interpret(cfg, path, status, b)
  }

  /** `Read`: a GET without a body. */
  function Read(cfg: Config, path: seq<string>, send: HttpRequest -> Exchange<Option<Json>>): (r: Result<Json, Error>)
    ensures r.Err? ==> !r.error.MarshalFailed?
  {
    Request(cfg, GET, path, NoBody, send)
  }

  /** `Write`: a POST with the request's body. */
  function Write(cfg: Config, path: seq<string>, body: Body, send: HttpRequest -> Exchange<Option<Json>>): (r: Result<Json, Error>)
    ensures r.Err? && r.error.MarshalFailed? <==> body.Unmarshalable?
  {
    Request(cfg, POST, path, body, send)
  }

  function StreamRequest(cfg: Config, path: seq<string>): HttpRequest
  {
    HttpRequest(GET, TargetUrl(cfg.url, path), StreamHeaders(cfg), None)
  }

  /** `Stream`: a GET to the main URL whose 2xx body (a sequence of lines) is handed back unread. */
  function Stream(cfg: Config, path: seq<string>, send: HttpRequest -> Exchange<seq<string>>): (r: Result<seq<string>, Error>)
    ensures r.Ok? <==> send(StreamRequest(cfg, path)).Response? && 200 <= send(StreamRequest(cfg, path)).status < 300
    ensures r.Ok? ==> r.value == send(StreamRequest(cfg, path)).body
    ensures r.Err? ==> r.error.StreamCreateFailed? || r.error.StreamPerformFailed? || r.error.StreamStatus?
  {
    match send(StreamRequest(cfg, path))
    case CannotCreate(c) => Err(StreamCreateFailed(c))
    case CannotPerform(c) => Err(StreamPerformFailed(c))
    case Response(status, lines) =>
      if status < 200 || status >= 300 then Err(StreamStatus(status)) else Ok(lines)
  }

  // ---------------------------------------------------------------------
  // Routing, URL and headers

  /** The URL `Read` requests: the edge URL when one is set, the main URL otherwise. */
  lemma ReadRouting(cfg: Config, path: seq<string>, send: HttpRequest -> Exchange<Option<Json>>, sent: HttpRequest)
    requires sent == BuildRequest(cfg, GET, path, None)
    ensures cfg.edgeUrl != "" ==> sent.url == cfg.edgeUrl + "/" + Join(path, "/")
    ensures cfg.edgeUrl == "" ==> sent.url == cfg.url + "/" + Join(path, "/")
    ensures sent.verb == GET && sent.payload == None
    ensures Read(cfg, path, send) == Outcome(cfg, path, send(sent))
  {
  }

  /** `Write` always goes to the main URL and carries its body. */
  lemma WriteRouting(cfg: Config, path: seq<string>, doc: Json, send: HttpRequest -> Exchange<Option<Json>>, sent: HttpRequest)
    requires sent == BuildRequest(cfg, POST, path, Some(doc))
    ensures sent.url == cfg.url + "/" + Join(path, "/")
    ensures sent.verb == POST && sent.payload == Some(doc)
    ensures Write(cfg, path, Doc(doc), send) == Outcome(cfg, path, send(sent))
  {
  }

  /** `Stream` always goes to the main URL, asks for an event stream and never for base64. */
  lemma StreamRouting(cfg: Config, path: seq<string>)
    ensures StreamRequest(cfg, path).url == cfg.url + "/" + Join(path, "/")
    ensures StreamRequest(cfg, path).headers["Accept"] == "text/event-stream"
    ensures "Upstash-Encoding" !in StreamRequest(cfg, path).headers
  {
  }

  /** Path ["get", "foo"] is requested at "<base>/get/foo". */
  lemma TargetUrlExample(base: string)
    ensures TargetUrl(base, ["get", "foo"]) == base + "/get/foo"
  {
    assert Join(["get", "foo"], "/") == "get" + "/" + Join(["foo"], "/");
  }

  /** Requests carry the base64 header exactly when the client decodes base64. */
  lemma Base64HeaderIff(cfg: Config, verb: Method, path: seq<string>, payload: Option<Json>)
    ensures "Upstash-Encoding" in BuildRequest(cfg, verb, path, payload).headers <==> cfg.enableBase64
    ensures BuildRequest(cfg, verb, path, payload).headers["Authorization"] == "Bearer " + cfg.token
  {
  }

  /** A body that cannot be marshalled fails before anything is sent, whatever `send` would do. */
  lemma MarshalFailsFirst(cfg: Config, verb: Method, path: seq<string>, cause: string,
                          send1: HttpRequest -> Exchange<Option<Json>>, send2: HttpRequest -> Exchange<Option<Json>>)
    ensures Request(cfg, verb, path, Unmarshalable(cause), send1) == Err(MarshalFailed(cause))
    ensures Request(cfg, verb, path, Unmarshalable(cause), send1) == Request(cfg, verb, path, Unmarshalable(cause), send2)
  {
  }

  // ---------------------------------------------------------------------
  // Classification of the reply

  /** Outside [200, 300) the result is always an error that carries the status. */
  lemma BadStatusIsError(cfg: Config, path: seq<string>, status: int, body: Option<Json>)
    requires status < 200 || status >= 300
    ensures Interpret(cfg, path, status, body).Err?
    ensures Interpret(cfg, path, status, body).error.status == status
    ensures Interpret(cfg, path, status, body).error.BadStatus?
        <==> body.Some? && (body.value.JObj? || body.value.JNull?)
  {
  }

  /** A non-empty string `error` fails with exactly that text, even when `result` is present. */
  lemma LogicalErrorWins(cfg: Config, path: seq<string>, status: int, m: map<string, Json>, text: string)
    requires 200 <= status < 300
    requires "error" in m && m["error"] == JStr(text) && text != ""
    ensures Interpret(cfg, path, status, Some(JObj(m))) == Err(Logical(text))
    ensures Message(Interpret(cfg, path, status, Some(JObj(m))).error) == text
  {
  }

  /** An empty or non-string `error` does not fail; a `result` key (even null) gives its value. */
  lemma ResultIsReturned(cfg: Config, path: seq<string>, status: int, m: map<string, Json>)
    requires 200 <= status < 300
    requires "error" in m ==> m["error"] == JStr("") || !m["error"].JStr?
    requires "result" in m
    ensures Interpret(cfg, path, status, Some(JObj(m))) == Ok(Decoded(cfg, m["result"]))
  {
  }

  /** Without base64 decoding a 2xx reply returns the decoded value itself. */
  lemma PlainReplies(cfg: Config, path: seq<string>, status: int, v: Json)
    requires 200 <= status < 300 && !cfg.enableBase64
    requires !v.JObj? || (!HasLogicalError(v.fields) && "result" !in v.fields)
    ensures Interpret(cfg, path, status, Some(v)) == Ok(v)
  {
  }

  /** A 2xx body that is not valid JSON is an unmarshal error. */
  lemma UndecodableReply(cfg: Config, path: seq<string>, status: int)
    requires 200 <= status < 300
    ensures Interpret(cfg, path, status, None) == Err(Unmarshal)
  {
  }

  // ---------------------------------------------------------------------
  // Base64 decoding of the reply tree

  /**
   * Every string of the tree holds bytes only. A model string is a Go string
   * read one char per byte, so every value the server can send satisfies this.
   */
  predicate ByteStrings(v: Json)
    decreases v
  {
    match v
    case JStr(s) => Base64.IsByteString(s)
    case JArr(items) => forall i :: 0 <= i < |items| ==> ByteStrings(items[i])
    case JObj(m) => forall k :: k in m ==> ByteStrings(m[k])
    case _ => true
  }

  /** The server side of `Upstash-Encoding: base64`: every string encoded. */
  function EncodeTree(v: Json): (r: Json)
    requires ByteStrings(v)
    decreases v
  {
    match v
    case JStr(s) => JStr(Base64.Encode(Base64.StringToBytes(s)))
    case JArr(items) => JArr(seq(|items|, i requires 0 <= i < |items| => EncodeTree(items[i])))
    case JObj(m) => JObj(map k | k in m :: EncodeTree(m[k]))
    case _ => v
  }

  /** Decoding undoes the server's encoding: the client sees the original values. */
  lemma {:induction false} DecodeTreeEncodeTree(v: Json)
    requires ByteStrings(v)
    ensures DecodeTree(EncodeTree(v)) == v
    decreases v
  {
    match v {
      case JStr(s) =>
        var e := Base64.Encode(Base64.StringToBytes(s));
        Base64.DecodeEncode(s);
        assert |e| % 4 == 0;
        assert e != "OK";
      case JArr(items) =>
        var enc := EncodeTree(v).items;
        forall i | 0 <= i < |items|
          ensures DecodeTree(enc[i]) == items[i]
        {
          DecodeTreeEncodeTree(items[i]);
        }
      case JObj(m) =>
        var enc := EncodeTree(v).fields;
        forall k | k in m
          ensures DecodeTree(enc[k]) == m[k]
        {
          DecodeTreeEncodeTree(m[k]);
        }
      case _ =>
    }
  }

  /** "OK" is kept, and a padded base64 string is replaced by what it encodes. */
  lemma DecodeStringExamples()
    ensures DecodeString("OK") == "OK"
    ensures DecodeString("YmFy") == "bar"
  {
    Base64.DecodeBar();
  }
}
