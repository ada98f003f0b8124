/**
 * The `Upstash` client of client.go: option defaults, `Send`, the
 * Pipeline and Multi command buffers, and the SCAN family's argument
 * builder and reply shaper. The REST client behind it is a `Rest.Client`.
 */
module Upstash {

  import opened Wrappers
  import opened Json
  import opened Rest
  import opened Replies
  import Format

  // ---------------------------------------------------------------------
  // New

  /** A retry backoff: the library default or one the caller supplied. */
  datatype Backoff = DefaultBackoff | CustomBackoff(id: nat)

  /** An HTTP client: a new default one or one the caller supplied. */
  datatype HttpClient = NewHttpClient | SuppliedHttpClient(id: nat)

  /** The fields of `Options` that `New` reads; durations are in nanoseconds. */
  datatype Options = Options(
    url: string,
    edgeUrl: string,
    token: string,
    readFromEdge: bool,
    enableBase64: bool,
    disableTelemetry: bool,
    retries: int,
    backoff: Option<Backoff>,
    httpClient: Option<HttpClient>,
    enableAutoPipelining: bool,
    autoPipelineWindow: int)

  const Millisecond: int := 1000000
  const DefaultRetries: int := 5

  /** `os.Getenv`: the variable's value, or "" when it is unset. */
  function Getenv(env: map<string, string>, name: string): string
  {
    if name in env then env[name] else ""
  }

  /** A string option, or the environment variable when it was left empty. */
  function OrEnv(value: string, env: map<string, string>, name: string): string
  {
    if value == "" then Getenv(env, name) else value
  }

  /**
   * The options after `New`'s defaulting: environment fallbacks for the URLs
   * and the token, telemetry switched off by the environment, and defaults for
   * every zero-valued setting.
   */
  function Configure(o: Options, env: map<string, string>): (r: Options)
    ensures Complete(r)
    ensures r.readFromEdge == o.readFromEdge && r.enableBase64 == o.enableBase64
    ensures r.enableAutoPipelining == o.enableAutoPipelining
  {
    Options(
      OrEnv(o.url, env, "UPSTASH_REDIS_REST_URL"),
      OrEnv(o.edgeUrl, env, "UPSTASH_REDIS_EDGE_URL"),
      OrEnv(o.token, env, "UPSTASH_REDIS_REST_TOKEN"),
      o.readFromEdge,
      o.enableBase64,
      o.disableTelemetry || Getenv(env, "UPSTASH_DISABLE_TELEMETRY") != "",
      if o.retries == 0 then DefaultRetries else o.retries,
      if o.backoff.None? then Some(DefaultBackoff) else o.backoff,
      if o.httpClient.None? then Some(NewHttpClient) else o.httpClient,
      o.enableAutoPipelining,
      if o.autoPipelineWindow == 0 then 50 * Millisecond else o.autoPipelineWindow)
  }

  /**
   * `New` replaces exactly the zero-valued options: 5 retries, the default
   * backoff, a new HTTP client and a 50 ms window, and the environment for
   * empty URLs and token; every supplied value is kept.
   */
  lemma ConfigureReplacesOnlyZeros(o: Options, env: map<string, string>)
    ensures var r := Configure(o, env);
      && (o.retries == 0 ==> r.retries == 5) && (o.retries != 0 ==> r.retries == o.retries)
      && (o.backoff.None? ==> r.backoff == Some(DefaultBackoff)) && (o.backoff.Some? ==> r.backoff == o.backoff)
      && (o.httpClient.None? ==> r.httpClient == Some(NewHttpClient)) && (o.httpClient.Some? ==> r.httpClient == o.httpClient)
      && (o.autoPipelineWindow == 0 ==> r.autoPipelineWindow == 50000000)
      && (o.autoPipelineWindow != 0 ==> r.autoPipelineWindow == o.autoPipelineWindow)
      && (o.url != "" ==> r.url == o.url) && (o.url == "" ==> r.url == Getenv(env, "UPSTASH_REDIS_REST_URL"))
      && (o.edgeUrl != "" ==> r.edgeUrl == o.edgeUrl) && (o.edgeUrl == "" ==> r.edgeUrl == Getenv(env, "UPSTASH_REDIS_EDGE_URL"))
      && (o.token != "" ==> r.token == o.token) && (o.token == "" ==> r.token == Getenv(env, "UPSTASH_REDIS_REST_TOKEN"))
      && (r.disableTelemetry <==> o.disableTelemetry || Getenv(env, "UPSTASH_DISABLE_TELEMETRY") != "")
      && r.readFromEdge == o.readFromEdge && r.enableBase64 == o.enableBase64
      && r.enableAutoPipelining == o.enableAutoPipelining
  {
  }

  /**
   * What `New` passes to `rest.New`: eight of the configured options
   * (`LatencyLogger`, the ninth, is not modelled). `ReadFromEdge`,
   * `EnableAutoPipelining` and the defaulted `AutoPipelineWindow` go nowhere.
   */
  datatype RestSettings = RestSettings(
    url: string,
    edgeUrl: string,
    token: string,
    enableBase64: bool,
    disableTelemetry: bool,
    retries: int,
    backoff: Option<Backoff>,
    httpClient: Option<HttpClient>)

  function SettingsOf(o: Options): RestSettings
  {
    RestSettings(o.url, o.edgeUrl, o.token, o.enableBase64, o.disableTelemetry, o.retries, o.backoff, o.httpClient)
  }

  /**
   * The REST client is built the same whatever `ReadFromEdge`,
   * `EnableAutoPipelining` and `AutoPipelineWindow` say: those options have
   * no effect in this generation of the client.
   */
  lemma UnusedOptions(o: Options, env: map<string, string>, readFromEdge: bool, autoPipelining: bool, window: int)
    ensures SettingsOf(Configure(o.(readFromEdge := readFromEdge, enableAutoPipelining := autoPipelining,
                                     autoPipelineWindow := window), env))
         == SettingsOf(Configure(o, env))
  {
  }

  /**
   * `New`: fill in each option the caller left at its zero value, then build
   * the REST client from the settings it takes. A method, because `New`
   * assigns the options one field at a time; `Configure` is the same
   * defaulting as a value, for the lemmas.
   */
  method New(options: Options, env: map<string, string>) returns (settings: RestSettings)
    ensures settings == SettingsOf(Configure(options, env))
    ensures settings.retries != 0 && settings.backoff.Some? && settings.httpClient.Some?
  {
    var edgeUrl, url, token := options.edgeUrl, options.url, options.token;
    if edgeUrl == "" {
      edgeUrl := Getenv(env, "UPSTASH_REDIS_EDGE_URL");
    }
    if url == "" {
      url := Getenv(env, "UPSTASH_REDIS_REST_URL");
    }
    if token == "" {
      token := Getenv(env, "UPSTASH_REDIS_REST_TOKEN");
    }
    var disableTelemetry := options.disableTelemetry;
    if !disableTelemetry {
      if Getenv(env, "UPSTASH_DISABLE_TELEMETRY") != "" {
        disableTelemetry := true;
      }
    }
    var retries, backoff, httpClient, window := options.retries, options.backoff, options.httpClient, options.autoPipelineWindow;
    if retries == 0 {
      retries := DefaultRetries;
    }
    if backoff.None? {
      backoff := Some(DefaultBackoff);
    }
    if httpClient.None? {
      httpClient := Some(NewHttpClient);
    }
    if window == 0 {
      window := 50 * Millisecond;
    }
    var configured := Options(url, edgeUrl, token, options.readFromEdge, options.enableBase64, disableTelemetry,
                              retries, backoff, httpClient, options.enableAutoPipelining, window);
    assert configured == Configure(options, env);
    settings := SettingsOf(configured);
  }

  /** Options without a zero-valued default field. */
  predicate Complete(o: Options)
  {
    o.retries != 0 && o.backoff.Some? && o.httpClient.Some? && o.autoPipelineWindow != 0
  }

  /**
   * Defaults are filled once and for all: a configured client's options are
   * complete, and configuring them again (with the same environment) changes
   * nothing.
   */
  lemma ConfigureIdempotent(o: Options, env: map<string, string>)
    ensures Complete(Configure(o, env))
    ensures Configure(Configure(o, env), env) == Configure(o, env)
  {
  }

  /** Supplied non-zero values are kept, whatever the environment says. */
  lemma ConfigureKeepsSupplied(o: Options, env: map<string, string>)
    requires Complete(o) && o.url != "" && o.edgeUrl != "" && o.token != "" && o.disableTelemetry
    ensures Configure(o, env) == o
  {
  }

  // ---------------------------------------------------------------------
  // Send

  /** The body `Send` posts: the command name, then its arguments in order. */
  function CommandBody(command: string, args: seq<Json>): (b: Json)
    ensures b.JArr? && |b.items| == 1 + |args|
    ensures b.items[0] == JStr(command) && b.items[1..] == args
  {
    JArr([JStr(command)] + args)
  }

  /** `Send`: one `Write` with no path and the command body. */
  function Send(c: Client, command: string, args: seq<Json>): Result<Json, string>
  {
    c.write(Request([], Some(CommandBody(command, args))))
  }

  /** Two commands are sent with the same body only if they are the same command. */
  lemma CommandBodyInjective(c1: string, a1: seq<Json>, c2: string, a2: seq<Json>)
    requires CommandBody(c1, a1) == CommandBody(c2, a2)
    ensures c1 == c2 && a1 == a2
  {
    assert CommandBody(c1, a1).items[1..] == a1;
  }

  // ---------------------------------------------------------------------
  // Pipeline and Multi

  /** The `[][]any` body of a batch: each buffered command as a list, in push order. */
  function Batch(commands: seq<seq<Json>>): (b: Json)
    ensures b.JArr? && |b.items| == |commands|
    ensures forall i :: 0 <= i < |commands| ==> b.items[i] == JArr(commands[i])
  {
    JArr(seq(|commands|, i requires 0 <= i < |commands| => JArr(commands[i])))
  }

  /** What a batch reply means: nil is no result, a list is the results, anything else is an error. */
  function BatchResult(res: Result<Json, string>, path: string): (r: Result<Option<seq<Json>>, string>)
    ensures res.Err? ==> r == Err(res.error)
    ensures r.Ok? <==> res.Ok? && (res.value.JNull? || res.value.JArr?)
    ensures r == Ok(None) <==> res == Ok(JNull)
    ensures res.Ok? && res.value.JArr? ==> r == Ok(Some(res.value.items))
  {
    match res
    case Err(e) => Err(e)
    case Ok(JNull) => Ok(None)
    case Ok(JArr(list)) => Ok(Some(list))
    case Ok(other) => Err("unexpected return type for " + path + ": " + TypeName(other))
  }

  /** `Exec` of client.go: an empty buffer is answered without a `Write`. */
  function ExecBatch(c: Client, path: string, commands: seq<seq<Json>>): (r: Result<Option<seq<Json>>, string>)
    ensures |commands| == 0 ==> r == Ok(Some([]))
    ensures r.Err? || r == Ok(None) ==> |commands| > 0
  {
    if |commands| == 0 then Ok(Some([]))
    else BatchResult(c.write(Request([path], Some(Batch(commands)))), path)
  }

  /** An empty buffer gives an empty list whatever the client would have answered: no `Write` happens. */
  lemma ExecEmptyWritesNothing(c1: Client, c2: Client, path: string)
    ensures ExecBatch(c1, path, []) == Ok(Some([]))
    ensures ExecBatch(c1, path, []) == ExecBatch(c2, path, [])
  {
  }

  /**
   * A non-empty buffer is sent whole, in push order, as one `Write` to
   * `path`; the reply decides the result.
   */
  lemma ExecNonEmpty(c: Client, path: string, commands: seq<seq<Json>>)
    requires |commands| > 0
    ensures var res := c.write(Request([path], Some(Batch(commands))));
      && (res.Err? ==> ExecBatch(c, path, commands) == Err(res.error))
      && (res == Ok(JNull) ==> ExecBatch(c, path, commands) == Ok(None))
      && (res.Ok? && res.value.JArr? ==> ExecBatch(c, path, commands) == Ok(Some(res.value.items)))
      && (res.Ok? && !res.value.JNull? && !res.value.JArr? ==> ExecBatch(c, path, commands).Err?)
  {
  }

  /** `Pipeline`: commands buffered for one request to `/pipeline`. */
  class Pipeline {
    var commands: seq<seq<Json>>
    const client: Client

    constructor (c: Client)
      ensures commands == [] && client == c
    {
      commands := [];
      client := c;
    }

    /** `Push`: exactly one command, `[command] ++ args`, appended at the end. */
    method Push(command: string, args: seq<Json>)
      modifies this
      ensures commands == old(commands) + [[JStr(command)] + args]
    {
      commands := commands + [[JStr(command)] + args];
    }

    /** `Exec`; the buffer is left as it is. */
    method Exec() returns (r: Result<Option<seq<Json>>, string>)
      ensures r == ExecBatch(client, "pipeline", commands)
    {
      if |commands| == 0 {
        return Ok(Some([]));
      }
      var res := client.write(Request(["pipeline"], Some(Batch(commands))));
      r := BatchResult(res, "pipeline");
    }
  }

  /** `Multi`: commands buffered for one transaction at `/multi-exec`. */
  class Multi {
    var commands: seq<seq<Json>>
    const client: Client

    constructor (c: Client)
      ensures commands == [] && client == c
    {
      commands := [];
      client := c;
    }

    /** `Push`: exactly one command, `[command] ++ args`, appended at the end. */
    method Push(command: string, args: seq<Json>)
      modifies this
      ensures commands == old(commands) + [[JStr(command)] + args]
    {
      commands := commands + [[JStr(command)] + args];
    }

    /** `Discard`: the buffer is emptied. */
    method Discard()
      modifies this
      ensures commands == []
    {
      commands := [];
    }

    /** `Exec`; the buffer is left as it is. */
    method Exec() returns (r: Result<Option<seq<Json>>, string>)
      ensures r == ExecBatch(client, "multi-exec", commands)
    {
      if |commands| == 0 {
        return Ok(Some([]));
      }
      var res := client.write(Request(["multi-exec"], Some(Batch(commands))));
      r := BatchResult(res, "multi-exec");
    }
  }

  /** `Tx`: the same as `Multi`. */
  method Tx(c: Client) returns (m: Multi)
    ensures fresh(m) && m.commands == [] && m.client == c
  {
    m := new Multi(c);
  }

  /** Push, Discard, Exec: after a discard, `Exec` returns an empty list and writes nothing. */
  method DiscardThenExec(c: Client, command: string, args: seq<Json>) returns (r: Result<Option<seq<Json>>, string>)
    ensures r == Ok(Some([]))
  {
    var m := Tx(c);
    m.Push(command, args);
    m.Discard();
    r := m.Exec();
  }

  // ---------------------------------------------------------------------
  // scan

  /** `ScanOptions`: MATCH pattern, COUNT and TYPE, each absent when zero. */
  datatype ScanOptions = ScanOptions(pattern: string, count: int, kind: string)

  datatype ScanResult = ScanResult(cursor: string, items: seq<string>)

  /** The options `scan` appends after the cursor: MATCH, COUNT, then TYPE only for SCAN. */
  function ScanOptionTail(o: ScanOptions, command: string): seq<Json>
  {
    (if o.pattern != "" then [JStr("MATCH"), JStr(o.pattern)] else [])
    + (if o.count != 0 then [JStr("COUNT"), JNum(o.count)] else [])
    + (if o.kind != "" && command == "SCAN" then [JStr("TYPE"), JStr(o.kind)] else [])
  }

  /** The arguments `scan` sends, as one expression. */
  function ScanArgs(key: string, cursor: string, o: ScanOptions, command: string): (r: seq<Json>)
    ensures key != "" ==> |r| >= 2 && r[0] == JStr(key) && r[1] == JStr(cursor)
    ensures key == "" ==> |r| >= 1 && r[0] == JStr(cursor)
    ensures |r| % 2 == (if key != "" then 0 else 1)
  {
    (if key != "" then [JStr(key)] else []) + [JStr(cursor)] + ScanOptionTail(o, command)
  }

  /** `scan`'s argument list, built by successive appends. */
  method BuildScanArgs(key: string, cursor: string, o: ScanOptions, command: string) returns (args: seq<Json>)
    ensures args == ScanArgs(key, cursor, o, command)
  {
    args := [];
    if key != "" {
      args := args + [JStr(key)];
    }
    args := args + [JStr(cursor)];
    ghost var head := args;
    if o.pattern != "" {
      args := args + [JStr("MATCH"), JStr(o.pattern)];
    }
    if o.count != 0 {
      args := args + [JStr("COUNT"), JNum(o.count)];
    }
    if o.kind != "" && command == "SCAN" {
      args := args + [JStr("TYPE"), JStr(o.kind)];
    }
    assert args == head + ScanOptionTail(o, command);
  }

  /** The options a SCAN-family command actually transmits: TYPE only for SCAN. */
  function Transmitted(o: ScanOptions, command: string): ScanOptions
  {
    if command == "SCAN" then o else o.(kind := "")
  }

  /** One optional `NAME value` pair at the head of `rest`. */
  function TakeOption(rest: seq<Json>, name: string): (Option<Json>, seq<Json>)
  {
    if |rest| >= 2 && rest[0] == JStr(name) then (Some(rest[1]), rest[2..]) else (None, rest)
  }

  /** How the server reads the options after the cursor: MATCH, COUNT and TYPE, each optional, in that order. */
  function ParseScanOptions(rest: seq<Json>): Option<ScanOptions>
  {
    var (m, r1) := TakeOption(rest, "MATCH");
    var (n, r2) := TakeOption(r1, "COUNT");
    var (t, r3) := TakeOption(r2, "TYPE");
    if r3 != [] || (m.Some? && !m.value.JStr?) || (n.Some? && !n.value.JNum?) || (t.Some? && !t.value.JStr?) then None
    else Some(ScanOptions(
      if m.Some? then m.value.s else "",
      if n.Some? then n.value.n else 0,
      if t.Some? then t.value.s else ""))
  }

  /**
   * How the server reads a SCAN-family argument list: the key (except for
   * SCAN), the cursor, then the options.
   */
  function ParseScanArgs(command: string, args: seq<Json>): Option<(string, string, ScanOptions)>
  {
    var skip := if command == "SCAN" then 0 else 1;
    if |args| < skip + 1 || !args[skip].JStr? || (skip == 1 && !args[0].JStr?) then None
    else
      var key := if skip == 1 then args[0].s else "";
      match ParseScanOptions(args[skip + 1..])
      case None => None
      case Some(opts) => Some((key, args[skip].s, opts))
  }

  /** Every option that was set is read back, TYPE only for SCAN. */
  lemma ScanOptionTailRoundTrip(o: ScanOptions, command: string)
    ensures ParseScanOptions(ScanOptionTail(o, command)) == Some(Transmitted(o, command))
  {
    var m := if o.pattern != "" then [JStr("MATCH"), JStr(o.pattern)] else [];
    var n := if o.count != 0 then [JStr("COUNT"), JNum(o.count)] else [];
    var t := if o.kind != "" && command == "SCAN" then [JStr("TYPE"), JStr(o.kind)] else [];
    var tail := ScanOptionTail(o, command);
    assert tail == m + n + t;
    var r1 := TakeOption(tail, "MATCH").1;
    if o.pattern != "" {
      assert tail[2..] == n + t;
      assert r1 == n + t;
    } else {
      assert r1 == n + t;
    }
    var r2 := TakeOption(r1, "COUNT").1;
    if o.count != 0 {
      assert (n + t)[2..] == t;
      assert r2 == t;
    } else {
      assert r2 == t;
    }
    assert TakeOption(r2, "TYPE").1 == [];
  }

  /**
   * The arguments carry the key, the cursor and the options in an order the
   * server reads back: key first (when one is given), cursor, then the
   * non-zero options, TYPE only for SCAN.
   */
  lemma ScanArgsRoundTrip(key: string, cursor: string, o: ScanOptions, command: string)
    requires command == "SCAN" <==> key == ""
    ensures ParseScanArgs(command, ScanArgs(key, cursor, o, command)) == Some((key, cursor, Transmitted(o, command)))
  {
    var args := ScanArgs(key, cursor, o, command);
    var skip := if command == "SCAN" then 0 else 1;
    assert args[skip] == JStr(cursor);
    assert args[skip + 1..] == ScanOptionTail(o, command);
    ScanOptionTailRoundTrip(o, command);
  }

  predicate ScanReply(res: Result<Json, string>)
  {
    res.Ok? ==> res.value.JArr? && |res.value.items| >= 2 && res.value.items[1].JArr?
  }

  /** `scan`'s reply: the cursor and the items, each stringified, length and order kept. */
  method ShapeScan(list: seq<Json>) returns (r: ScanResult)
    requires |list| >= 2 && list[1].JArr?
    ensures r.cursor == Format.Sprint(list[0])
    ensures |r.items| == |list[1].items|
    ensures forall i :: 0 <= i < |r.items| ==> r.items[i] == Format.Sprint(list[1].items[i])
  {
    var items := SprintAll(list[1].items);
    r := ScanResult(Format.Sprint(list[0]), items);
  }

  /** `scan`: SCAN, HSCAN, SSCAN or ZSCAN. */
  method Scan(c: Client, key: string, cursor: string, o: ScanOptions, command: string) returns (r: Result<ScanResult, string>)
    requires ScanReply(Send(c, command, ScanArgs(key, cursor, o, command)))
    ensures var res := Send(c, command, ScanArgs(key, cursor, o, command));
      && (res.Err? ==> r == Err(res.error))
      && (res.Ok? ==> r.Ok? && r.value.cursor == Format.Sprint(res.value.items[0])
                      && |r.value.items| == |res.value.items[1].items|
                      && forall i :: 0 <= i < |r.value.items| ==> r.value.items[i] == Format.Sprint(res.value.items[1].items[i]))
  {
    var args := BuildScanArgs(key, cursor, o, command);
    var res := Send(c, command, args);
    if res.Err? {
      return Err(res.error);
    }
    var shaped := ShapeScan(res.value.items);
    r := Ok(shaped);
  }
}
