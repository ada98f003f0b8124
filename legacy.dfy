/**
 * The older facade of upstash.go: string bodies with `%d`-formatted
 * integers, SET and GETEX option encoders, MSET bodies, and the Pipeline and
 * Multi whose `Exec` always writes. Its commands are stated over a
 * `Rest.Client`; the client upstash.go actually builds is the one of
 * client/client.go, `TransportClient` below.
 */
module Legacy {

  import opened Wrappers
  import opened Json
  import opened Text
  import opened Decimal
  import opened Rest
  import opened Replies
  import Upstash
  import Transport
  import Base64

  datatype KV = KV(key: string, value: string)

  datatype SetOptions = SetOptions(ex: int, px: int, nx: bool, xx: bool)

  datatype GetExOptions = GetExOptions(ex: int, px: int, exat: int, pxat: int, persist: bool)

  /** A `[]string` body posted with no path. */
  function WriteBody(c: Client, body: seq<string>): Result<Json, string>
  {
    c.write(Request([], Some(JArr(Strs(body)))))
  }

  /** What a command returning only `error` reports: nothing on success, the error text otherwise. */
  function ErrorOf(res: Result<Json, string>): (err: Option<string>)
    ensures err.None? <==> res.Ok?
    ensures res.Err? ==> err == Some(res.error)
  {
    if res.Err? then Some(res.error) else None
  }

  // ---------------------------------------------------------------------
  // SET with options

  /** The options after `set key value`: EX before PX, then NX before XX; at most one of each pair. */
  function SetTail(o: SetOptions): (r: seq<string>)
    ensures |r| <= 3
    ensures |r| == 0 <==> o.ex == 0 && o.px == 0 && !o.nx && !o.xx
  {
    (if o.ex != 0 then ["ex", DecimalString(o.ex)] else if o.px != 0 then ["px", DecimalString(o.px)] else [])
    + (if o.nx then ["nx"] else if o.xx then ["xx"] else [])
  }

  function SetBody(key: string, value: string, o: SetOptions): (body: seq<string>)
    ensures |body| >= 3 && body[..3] == ["set", key, value]
    ensures |body| <= 6
  {
    ["set", key, value] + SetTail(o)
  }

  /** The options that survive encoding: EX overrides PX and NX overrides XX. */
  function SetWins(o: SetOptions): SetOptions
  {
    SetOptions(o.ex, if o.ex != 0 then 0 else o.px, o.nx, o.xx && !o.nx)
  }

  function ParseSetCondition(t: seq<string>, ex: int, px: int): Option<SetOptions>
  {
    if t == [] then Some(SetOptions(ex, px, false, false))
    else if t == ["nx"] then Some(SetOptions(ex, px, true, false))
    else if t == ["xx"] then Some(SetOptions(ex, px, false, true))
    else None
  }

  /** How the server reads the options after `set key value`. */
  function ParseSetTail(t: seq<string>): Option<SetOptions>
  {
    if |t| >= 2 && t[0] == "ex" then
      match ParseDecimal(t[1])
      case None => None
      case Some(n) => ParseSetCondition(t[2..], n, 0)
    else if |t| >= 2 && t[0] == "px" then
      match ParseDecimal(t[1])
      case None => None
      case Some(n) => ParseSetCondition(t[2..], 0, n)
    else ParseSetCondition(t, 0, 0)
  }

  /** The encoded options read back as the winning ones: EX over PX, NX over XX. */
  lemma SetTailRoundTrip(o: SetOptions)
    ensures ParseSetTail(SetTail(o)) == Some(SetWins(o))
  {
    var cond: seq<string> := if o.nx then ["nx"] else if o.xx then ["xx"] else [];
    if o.ex != 0 {
      ParseDecimalString(o.ex);
      assert SetTail(o)[2..] == cond;
    } else if o.px != 0 {
      ParseDecimalString(o.px);
      assert SetTail(o)[2..] == cond;
    } else {
      assert SetTail(o) == cond;
    }
  }

  /** Options that already obey the precedence are sent unchanged. */
  lemma SetWinsKeeps(o: SetOptions)
    requires o.ex == 0 || o.px == 0
    requires !(o.nx && o.xx)
    ensures SetWins(o) == o
  {
  }

  /** `SetWithOptions`: a failed `Write` is reported as `error [body]: cause`. */
  function SetWithOptions(c: Client, key: string, value: string, o: SetOptions): (err: Option<string>)
    ensures err.None? <==> WriteBody(c, SetBody(key, value, o)).Ok?
  {
    var body := SetBody(key, value, o);
    match WriteBody(c, body)
    case Ok(_) => None
    case Err(e) => Some("error [" + Join(body, " ") + "]: " + e)
  }

  /** Success is reported as no error; a failure names the whole body and keeps the cause at its end. */
  lemma SetWithOptionsReports(c: Client, key: string, value: string, o: SetOptions)
    ensures var res := WriteBody(c, SetBody(key, value, o));
      && (res.Ok? <==> SetWithOptions(c, key, value, o).None?)
      && (res.Err? ==> HasPrefix(SetWithOptions(c, key, value, o).value, "error [set " + key + " " + value))
      && (res.Err? ==> Ends(SetWithOptions(c, key, value, o).value, "]: " + res.error))
  {
    var body := SetBody(key, value, o);
    var res := WriteBody(c, body);
    if res.Err? {
      var msg := SetWithOptions(c, key, value, o).value;
      var joined := Join(body, " ");
      JoinHead(key, value, SetTail(o));
      assert body == ["set", key, value] + SetTail(o);
      assert msg == "error [" + joined + "]: " + res.error;
      assert ("error [" + joined + "]: " + res.error)[..|"error [set " + key + " " + value|] == "error [set " + key + " " + value;
    }
  }

  predicate Ends(s: string, suffix: string)
  {
    |suffix| <= |s| && s[|s| - |suffix|..] == suffix
  }

  /** Joining a body that starts with `set key value` gives a text starting with those words. */
  lemma JoinHead(key: string, value: string, rest: seq<string>)
    ensures var j := Join(["set", key, value] + rest, " ");
      |j| >= |"set " + key + " " + value| && j[..|"set " + key + " " + value|] == "set " + key + " " + value
  {
    var parts := ["set", key, value] + rest;
    assert parts[1..] == [key, value] + rest;
    assert parts[1..][1..] == [value] + rest;
    var j2 := Join([value] + rest, " ");
    var j1 := Join([key, value] + rest, " ");
    assert |j2| >= |value| && j2[..|value|] == value by {
      if |rest| > 0 {
        assert ([value] + rest)[1..] == rest;
      }
    }
    assert j1 == (key + " ") + j2;
    PrefixConcat(key + " ", j2, value);
    assert Join(parts, " ") == ("set" + " ") + j1;
    PrefixConcat("set" + " ", j1, key + " " + value);
    assert "set" + " " + (key + " " + value) == "set " + key + " " + value;
  }

  /** A prefix of `t` stays a prefix once both are preceded by `a`. */
  lemma PrefixConcat(a: string, t: string, p: string)
    requires |p| <= |t| && t[..|p|] == p
    ensures |a + p| <= |a + t| && (a + t)[..|a + p|] == a + p
  {
    assert (a + t)[..|a + p|] == a + t[..|p|];
  }

  // ---------------------------------------------------------------------
  // GETEX

  /** At most one option group, chosen by priority EX, PX, EXAT, PXAT, PERSIST. */
  function GetExTail(o: GetExOptions): (r: seq<string>)
    ensures |r| <= 2
    ensures |r| == 0 <==> o.ex == 0 && o.px == 0 && o.exat == 0 && o.pxat == 0 && !o.persist
  {
    if o.ex != 0 then ["ex", DecimalString(o.ex)]
    else if o.px != 0 then ["px", DecimalString(o.px)]
    else if o.exat != 0 then ["exat", DecimalString(o.exat)]
    else if o.pxat != 0 then ["pxat", DecimalString(o.pxat)]
    else if o.persist then ["persist"]
    else []
  }

  function GetExBody(key: string, o: GetExOptions): (body: seq<string>)
    ensures |body| >= 2 && body[..2] == ["getex", key]
    ensures |body| <= 4
  {
    ["getex", key] + GetExTail(o)
  }

  /** The option that wins: the first non-zero one in priority order, every later one dropped. */
  function GetExWins(o: GetExOptions): GetExOptions
  {
    if o.ex != 0 then GetExOptions(o.ex, 0, 0, 0, false)
    else if o.px != 0 then GetExOptions(0, o.px, 0, 0, false)
    else if o.exat != 0 then GetExOptions(0, 0, o.exat, 0, false)
    else if o.pxat != 0 then GetExOptions(0, 0, 0, o.pxat, false)
    else GetExOptions(0, 0, 0, 0, o.persist)
  }

  function ParseGetExTail(t: seq<string>): Option<GetExOptions>
  {
    if t == [] then Some(GetExOptions(0, 0, 0, 0, false))
    else if t == ["persist"] then Some(GetExOptions(0, 0, 0, 0, true))
    else if |t| != 2 then None
    else
      match ParseDecimal(t[1])
      case None => None
      case Some(n) =>
        if t[0] == "ex" then Some(GetExOptions(n, 0, 0, 0, false))
        else if t[0] == "px" then Some(GetExOptions(0, n, 0, 0, false))
        else if t[0] == "exat" then Some(GetExOptions(0, 0, n, 0, false))
        else if t[0] == "pxat" then Some(GetExOptions(0, 0, 0, n, false))
        else None
  }

  /** The GETEX options read back as the single winning one. */
  lemma GetExTailRoundTrip(o: GetExOptions)
    ensures ParseGetExTail(GetExTail(o)) == Some(GetExWins(o))
  {
    if o.ex != 0 {
      ParseDecimalString(o.ex);
    } else if o.px != 0 {
      ParseDecimalString(o.px);
    } else if o.exat != 0 {
      ParseDecimalString(o.exat);
    } else if o.pxat != 0 {
      ParseDecimalString(o.pxat);
    }
  }

  /** `GetEx`: nil (no such key) is "". */
  function GetEx(c: Client, key: string, o: GetExOptions): (r: Result<string, string>)
    requires StringOrNullReply(WriteBody(c, GetExBody(key, o)))
    ensures var res := WriteBody(c, GetExBody(key, o));
      && (res.Err? ==> r == Err(res.error))
      && (res == Ok(JNull) ==> r == Ok(""))
      && (res.Ok? && res.value.JStr? ==> r == Ok(res.value.s))
  {
    AsStringOrEmpty(WriteBody(c, GetExBody(key, o)))
  }

  // ---------------------------------------------------------------------
  // MSET and MSETNX

  /** The command name, then each pair's key and value, in input order. */
  function KVBody(name: string, kvs: seq<KV>): seq<string>
  {
    if |kvs| == 0 then [name]
    else KVBody(name, kvs[..|kvs| - 1]) + [kvs[|kvs| - 1].key, kvs[|kvs| - 1].value]
  }

  /** Position 1 + 2i holds the i-th key and 2 + 2i its value, so the body has 1 + 2n words. */
  lemma {:induction false} KVBodyPositions(name: string, kvs: seq<KV>)
    ensures |KVBody(name, kvs)| == 1 + 2 * |kvs|
    ensures KVBody(name, kvs)[0] == name
    ensures forall i :: 0 <= i < |kvs| ==> KVBody(name, kvs)[1 + 2 * i] == kvs[i].key && KVBody(name, kvs)[2 + 2 * i] == kvs[i].value
  {
    if |kvs| > 0 {
      var init := kvs[..|kvs| - 1];
      KVBodyPositions(name, init);
      forall i | 0 <= i < |init|
        ensures KVBody(name, kvs)[1 + 2 * i] == kvs[i].key && KVBody(name, kvs)[2 + 2 * i] == kvs[i].value
      {
        assert kvs[i] == init[i];
      }
    }
  }

  /** The loop of `MSet` and `MSetNX` that appends each pair's key and value. */
  method BuildKVBody(name: string, kvs: seq<KV>) returns (body: seq<string>)
    ensures body == KVBody(name, kvs)
  {
    body := [name];
    var i := 0;
    while i < |kvs|
      invariant 0 <= i <= |kvs|
      invariant body == KVBody(name, kvs[..i])
    {
      assert kvs[..i + 1][..i] == kvs[..i];
      body := body + [kvs[i].key, kvs[i].value];
      i := i + 1;
    }
    assert kvs[..i] == kvs;
  }

  /** `MSet`: only the error is reported. */
  method MSet(c: Client, kvs: seq<KV>) returns (err: Option<string>)
    ensures err == ErrorOf(WriteBody(c, KVBody("mset", kvs)))
  {
    var body := BuildKVBody("mset", kvs);
    err := ErrorOf(WriteBody(c, body));
  }

  /** `MSetNX`: nil is 0, otherwise the number the server answered. */
  method MSetNX(c: Client, kvs: seq<KV>) returns (r: Result<int, string>)
    requires var res := WriteBody(c, KVBody("msetnx", kvs)); res.Ok? ==> NumOrNull(res.value)
    ensures var res := WriteBody(c, KVBody("msetnx", kvs));
      && (res.Err? ==> r == Err(res.error))
      && (res == Ok(JNull) ==> r == Ok(0))
      && (res.Ok? && res.value.JNum? ==> r == Ok(res.value.n))
  {
    var body := BuildKVBody("msetnx", kvs);
    var res := WriteBody(c, body);
    if res.Err? {
      return Err(res.error);
    }
    if res.value.JNull? {
      return Ok(0);
    }
    r := Ok(res.value.n);
  }

  // ---------------------------------------------------------------------
  // Integer arguments rendered with %d

  predicate LegacyNumReply(c: Client, body: seq<string>)
  {
    NumReply(WriteBody(c, body))
  }

  /** `DecrBy`: decrby, key, the decrement in decimal. */
  function DecrBy(c: Client, key: string, decrement: int): (r: Result<int, string>)
    requires LegacyNumReply(c, ["decrby", key, DecimalString(decrement)])
    ensures var res := WriteBody(c, ["decrby", key, DecimalString(decrement)]);
      && (res.Err? ==> r == Err(res.error))
      && (res.Ok? ==> r == Ok(res.value.n))
  {
    AsInt(WriteBody(c, ["decrby", key, DecimalString(decrement)]))
  }

  /** `IncrBy`: incrby, key, the increment in decimal. */
  function IncrBy(c: Client, key: string, increment: int): (r: Result<int, string>)
    requires LegacyNumReply(c, ["incrby", key, DecimalString(increment)])
    ensures var res := WriteBody(c, ["incrby", key, DecimalString(increment)]);
      && (res.Err? ==> r == Err(res.error))
      && (res.Ok? ==> r == Ok(res.value.n))
  {
    AsInt(WriteBody(c, ["incrby", key, DecimalString(increment)]))
  }

  /** `SetEX`: setex, key, seconds in decimal, value. */
  function SetEX(c: Client, key: string, seconds: int, value: string): (err: Option<string>)
    ensures err == ErrorOf(WriteBody(c, ["setex", key, DecimalString(seconds), value]))
  {
    ErrorOf(WriteBody(c, ["setex", key, DecimalString(seconds), value]))
  }

  /** `PSetEX`: psetex, key, milliseconds in decimal, value. */
  function PSetEX(c: Client, key: string, milliseconds: int, value: string): (err: Option<string>)
    ensures err == ErrorOf(WriteBody(c, ["psetex", key, DecimalString(milliseconds), value]))
  {
    ErrorOf(WriteBody(c, ["psetex", key, DecimalString(milliseconds), value]))
  }

  /** The number in every `%d` body reads back as the number given, and distinct numbers give distinct bodies. */
  lemma DecimalArgument(name: string, key: string, a: int, b: int)
    ensures ParseDecimal([name, key, DecimalString(a)][2]) == Some(a)
    ensures [name, key, DecimalString(a)] == [name, key, DecimalString(b)] ==> a == b
  {
    ParseDecimalString(a);
    if [name, key, DecimalString(a)] == [name, key, DecimalString(b)] {
      assert DecimalString(a) == [name, key, DecimalString(b)][2];
      DecimalStringInjective(a, b);
    }
  }

  // ---------------------------------------------------------------------
  // The older Pipeline and Multi

  /** `Exec` of upstash.go: the buffer is written even when it is empty. */
  function ExecAlways(c: Client, path: string, commands: seq<seq<Json>>): Result<Option<seq<Json>>, string>
  {
    Upstash.BatchResult(c.write(Request([path], Some(Upstash.Batch(commands)))), path)
  }

  /** With commands buffered the two generations agree. */
  lemma ExecAgreesWhenNonEmpty(c: Client, path: string, commands: seq<seq<Json>>)
    requires |commands| > 0
    ensures ExecAlways(c, path, commands) == Upstash.ExecBatch(c, path, commands)
  {
  }

  /**
   * On an empty buffer they differ: the older `Exec` still writes an empty
   * batch, so a nil answer gives no result where the newer one gives an
   * empty list.
   */
  lemma EmptyExecDiffers(c: Client, path: string)
    requires c.write(Request([path], Some(JArr([])))) == Ok(JNull)
    ensures ExecAlways(c, path, []) == Ok(None)
    ensures Upstash.ExecBatch(c, path, []) == Ok(Some([]))
  {
    assert Upstash.Batch([]) == JArr([]);
  }

  /** `Pipeline` of upstash.go. */
  class Pipeline {
    var commands: seq<seq<Json>>
    const client: Client

    constructor (c: Client)
      ensures commands == [] && client == c
    {
      commands := [];
      client := c;
    }

    /** `Push`: exactly one command, `[command] ++ args`, appended at the end. */
    method Push(command: string, args: seq<Json>)
      modifies this
      ensures commands == old(commands) + [[JStr(command)] + args]
    {
      commands := commands + [[JStr(command)] + args];
    }

    /** `Exec`: one `Write` of the whole buffer to `/pipeline`, even an empty one. */
    method Exec() returns (r: Result<Option<seq<Json>>, string>)
      ensures r == ExecAlways(client, "pipeline", commands)
    {
      var res := client.write(Request(["pipeline"], Some(Upstash.Batch(commands))));
      r := Upstash.BatchResult(res, "pipeline");
    }
  }

  /** `Multi` of upstash.go. */
  class Multi {
    var commands: seq<seq<Json>>
    const client: Client

    constructor (c: Client)
      ensures commands == [] && client == c
    {
      commands := [];
      client := c;
    }

    /** `Push`: exactly one command, `[command] ++ args`, appended at the end. */
    method Push(command: string, args: seq<Json>)
      modifies this
      ensures commands == old(commands) + [[JStr(command)] + args]
    {
      commands := commands + [[JStr(command)] + args];
    }

    /** `Exec`: one `Write` of the whole buffer to `/multi-exec`, even an empty one. */
    method Exec() returns (r: Result<Option<seq<Json>>, string>)
      ensures r == ExecAlways(client, "multi-exec", commands)
    {
      var res := client.write(Request(["multi-exec"], Some(Upstash.Batch(commands))));
      r := Upstash.BatchResult(res, "multi-exec");
    }
  }

  // ---------------------------------------------------------------------
  // The client behind the facade: client/client.go

  /** `Options` of upstash.go. */
  datatype Options = Options(url: string, edgeUrl: string, token: string, readFromEdge: bool, enableBase64: bool)

  /**
   * What `New` passes to `client.New`: each URL and the token fall back to
   * the environment when left empty; `ReadFromEdge` is not passed on.
   */
  function New(o: Options, env: map<string, string>): (cfg: Transport.Config)
    ensures cfg.enableBase64 == o.enableBase64
    ensures o.url != "" ==> cfg.url == o.url
    ensures o.edgeUrl != "" ==> cfg.edgeUrl == o.edgeUrl
    ensures o.token != "" ==> cfg.token == o.token
  {
    Transport.Config(
      Upstash.OrEnv(o.url, env, "UPSTASH_REDIS_REST_URL"),
      Upstash.OrEnv(o.edgeUrl, env, "UPSTASH_REDIS_EDGE_URL"),
      Upstash.OrEnv(o.token, env, "UPSTASH_REDIS_REST_TOKEN"),
      o.enableBase64)
  }

  /**
   * The two generations reach the same endpoint with the same token and
   * encoding from the same options, and `ReadFromEdge` changes nothing.
   */
  lemma NewAgreesWithNewer(o: Options, u: Upstash.Options, env: map<string, string>)
    requires u.url == o.url && u.edgeUrl == o.edgeUrl && u.token == o.token && u.enableBase64 == o.enableBase64
    ensures var n := Upstash.Configure(u, env);
      New(o, env) == Transport.Config(n.url, n.edgeUrl, n.token, n.enableBase64)
    ensures New(o.(readFromEdge := !o.readFromEdge), env) == New(o, env)
  {
  }

  /** The body `json.Marshal` is given: none for a nil body, the document otherwise. */
  function BodyOf(body: Option<Json>): (b: Transport.Body)
    ensures b.NoBody? <==> body.None?
    ensures body.Some? ==> b == Transport.Doc(body.value)
  {
    if body.None? then Transport.NoBody else Transport.Doc(body.value)
  }

  /** A result of client/client.go as the facade receives it: an error is its `Error()` text. */
  function ErrorText<T>(r: Result<T, Transport.Error>): (t: Result<T, string>)
    ensures t.Ok? <==> r.Ok?
    ensures r.Ok? ==> t.value == r.value
    ensures r.Err? ==> t.error == Transport.Message(r.error)
  {
    if r.Ok? then Ok(r.value) else Err(Transport.Message(r.error))
  }

  /**
   * The `client.Client` that `New` builds (upstash.go:55): `Read`, `Write`
   * and `Stream` of client/client.go over the exchanges `send` and
   * `streamSend`.
   */
  function TransportClient(cfg: Transport.Config,
                           send: Transport.HttpRequest -> Transport.Exchange<Option<Json>>,
                           streamSend: Transport.HttpRequest -> Transport.Exchange<seq<string>>): Client
  {
    Client(
      (req: Request) => ErrorText(Transport.Read(cfg, req.path, send)),
      (req: Request) => ErrorText(Transport.Write(cfg, req.path, BodyOf(req.body), send)),
      (req: Request) => ErrorText(Transport.Stream(cfg, req.path, streamSend)))
  }

  /**
   * Over client/client.go a `[]string` body always marshals, and a failed SET
   * ends with the transport's own error message.
   */
  lemma SetOverTransport(cfg: Transport.Config,
                         send: Transport.HttpRequest -> Transport.Exchange<Option<Json>>,
                         streamSend: Transport.HttpRequest -> Transport.Exchange<seq<string>>,
                         key: string, value: string, o: SetOptions)
    ensures var res := Transport.Write(cfg, [], Transport.Doc(JArr(Strs(SetBody(key, value, o)))), send);
      var err := SetWithOptions(TransportClient(cfg, send, streamSend), key, value, o);
      && !(res.Err? && res.error.MarshalFailed?)
      && (err.None? <==> res.Ok?)
      && (res.Err? ==> Ends(err.value, "]: " + Transport.Message(res.error)))
  {
    var c := TransportClient(cfg, send, streamSend);
    SetWithOptionsReports(c, key, value, o);
    assert WriteBody(c, SetBody(key, value, o))
      == ErrorText(Transport.Write(cfg, [], Transport.Doc(JArr(Strs(SetBody(key, value, o)))), send));
  }

  /** Over client/client.go the older `Exec` reports a failed batch by the transport's message. */
  lemma ExecAlwaysOverTransport(cfg: Transport.Config,
                                send: Transport.HttpRequest -> Transport.Exchange<Option<Json>>,
                                streamSend: Transport.HttpRequest -> Transport.Exchange<seq<string>>,
                                path: string, commands: seq<seq<Json>>)
    ensures var res := Transport.Write(cfg, [path], Transport.Doc(Upstash.Batch(commands)), send);
      var r := ExecAlways(TransportClient(cfg, send, streamSend), path, commands);
      && (res.Err? ==> r == Err(Transport.Message(res.error)))
      && (res.Ok? ==> r == Upstash.BatchResult(Ok(res.value), path))
  {
    var c := TransportClient(cfg, send, streamSend);
    assert c.write(Request([path], Some(Upstash.Batch(commands))))
      == ErrorText(Transport.Write(cfg, [path], Transport.Doc(Upstash.Batch(commands)), send));
  }

  /**
   * With base64 on, a GETEX whose reply the server encoded returns the
   * original string: the decoding in client/client.go is what `GetEx` sees.
   */
  lemma GetExDecodesBase64(cfg: Transport.Config,
                           send: Transport.HttpRequest -> Transport.Exchange<Option<Json>>,
                           streamSend: Transport.HttpRequest -> Transport.Exchange<seq<string>>,
                           key: string, o: GetExOptions, s: string)
    requires cfg.enableBase64 && Base64.IsByteString(s)
    requires send(Transport.BuildRequest(cfg, Transport.POST, [], Some(JArr(Strs(GetExBody(key, o))))))
          == Transport.Response(200, Some(JObj(map["result" := Transport.EncodeTree(JStr(s))])))
    ensures var c := TransportClient(cfg, send, streamSend);
      StringOrNullReply(WriteBody(c, GetExBody(key, o))) && GetEx(c, key, o) == Ok(s)
  {
    var c := TransportClient(cfg, send, streamSend);
    var m := map["result" := Transport.EncodeTree(JStr(s))];
    Transport.DecodeTreeEncodeTree(JStr(s));
    assert Transport.Interpret(cfg, [], 200, Some(JObj(m))) == Ok(JStr(s));
    assert WriteBody(c, GetExBody(key, o)) == Ok(JStr(s));
  }
}
