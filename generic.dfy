/** Key-space commands of cmd_generic.go: `Keys`, the variadic key commands and the option builders. */
module Generic {

  import opened Wrappers
  import opened Json
  import opened Rest
  import opened Replies
  import opened Upstash
  import Format

  // ---------------------------------------------------------------------
  // Keys

  /**
   * What `Keys` can be handed: a value the JSON decoder produced, or a
   * `[]string` a different client implementation may return.
   */
  datatype KeysReply = Decoded(v: Json) | StringSlice(ss: seq<string>)

  /** The conversion `Keys` applies to the reply. */
  function KeysResult(reply: KeysReply): (r: Result<seq<string>, string>)
    ensures reply.Decoded? && reply.v.JNull? ==> r == Ok([])
    ensures reply.Decoded? && reply.v.JArr? ==> r.Ok? && |r.value| == |reply.v.items|
    ensures reply.StringSlice? ==> r == Ok(reply.ss)
    ensures r.Err? <==> reply.Decoded? && !reply.v.JNull? && !reply.v.JArr?
  {
    match reply
    case StringSlice(ss) => Ok(ss)
    case Decoded(v) =>
      if v.JNull? then Ok([])
      else if v.JArr? then Ok(seq(|v.items|, i requires 0 <= i < |v.items| => Format.Sprint(v.items[i])))
      else Err("unexpected return type for keys: " + TypeName(v))
  }

  /** The loop of `Keys`: `keys[i] = fmt.Sprint(v)`. */
  method KeysOf(reply: KeysReply) returns (r: Result<seq<string>, string>)
    ensures r == KeysResult(reply)
  {
    match reply
    case StringSlice(ss) =>
      return Ok(ss);
    case Decoded(v) =>
      if v.JNull? {
        return Ok([]);
      }
      if v.JArr? {
        var keys := SprintAll(v.items);
        assert keys == seq(|v.items|, i requires 0 <= i < |v.items| => Format.Sprint(v.items[i]));
        return Ok(keys);
      }
      r := Err("unexpected return type for keys: " + TypeName(v));
  }

  /** `Keys`: a Read on path keys/pattern, its reply converted. */
  method Keys(c: Client, pattern: string) returns (r: Result<seq<string>, string>)
    ensures var res := c.read(Request(["keys", pattern], None));
      && (res.Err? ==> r == Err(res.error))
      && (res.Ok? ==> r == KeysResult(Decoded(res.value)))
  {
    var res := c.read(Request(["keys", pattern], None));
    if res.Err? {
      return Err(res.error);
    }
    r := KeysOf(Decoded(res.value));
  }

  /** A list of key names comes back from `Keys` exactly as the server listed it. */
  lemma KeysOfNames(names: seq<string>)
    ensures KeysResult(Decoded(JArr(Strs(names)))) == Ok(names)
  {
    var items := Strs(names);
    assert seq(|items|, i requires 0 <= i < |items| => Format.Sprint(items[i])) == names;
  }

  /** A reply of another shape is an error naming its Go type, never a list. */
  lemma KeysRejects()
    ensures KeysResult(Decoded(JStr("a"))) == Err("unexpected return type for keys: string")
    ensures KeysResult(Decoded(JNum(1))) == Err("unexpected return type for keys: float64")
  {
    assert TypeName(JStr("a")) == "string";
    assert TypeName(JNum(1)) == "float64";
    assert "unexpected return type for keys: " + "string" == "unexpected return type for keys: string";
    assert "unexpected return type for keys: " + "float64" == "unexpected return type for keys: float64";
  }

  // ---------------------------------------------------------------------
  // Variadic key commands and nil readers

  /** `Del`, `Exists`, `Touch` and `Unlink`: the keys in input order. */
  method KeysCommand(c: Client, command: string, keys: seq<string>) returns (r: Result<int, string>)
    requires NumReply(Send(c, command, Strs(keys)))
    ensures r == AsInt(Send(c, command, Strs(keys)))
  {
    var args := AppendStrings([], keys);
    assert args == Strs(keys);
    r := AsInt(Send(c, command, args));
  }

  method Del(c: Client, keys: seq<string>) returns (r: Result<int, string>)
    requires NumReply(Send(c, "DEL", Strs(keys)))
    ensures r == AsInt(Send(c, "DEL", Strs(keys)))
  {
    r := KeysCommand(c, "DEL", keys);
  }

  method Exists(c: Client, keys: seq<string>) returns (r: Result<int, string>)
    requires NumReply(Send(c, "EXISTS", Strs(keys)))
    ensures r == AsInt(Send(c, "EXISTS", Strs(keys)))
  {
    r := KeysCommand(c, "EXISTS", keys);
  }

  method Touch(c: Client, keys: seq<string>) returns (r: Result<int, string>)
    requires NumReply(Send(c, "TOUCH", Strs(keys)))
    ensures r == AsInt(Send(c, "TOUCH", Strs(keys)))
  {
    r := KeysCommand(c, "TOUCH", keys);
  }

  method Unlink(c: Client, keys: seq<string>) returns (r: Result<int, string>)
    requires NumReply(Send(c, "UNLINK", Strs(keys)))
    ensures r == AsInt(Send(c, "UNLINK", Strs(keys)))
  {
    r := KeysCommand(c, "UNLINK", keys);
  }

  /** `Dump`: a missing key (nil) is "". */
  method Dump(c: Client, key: string) returns (r: Result<string, string>)
    requires StringOrNullReply(Send(c, "DUMP", [JStr(key)]))
    ensures var res := Send(c, "DUMP", [JStr(key)]);
      && (res.Err? ==> r == Err(res.error))
      && (res.Ok? && res.value.JNull? ==> r == Ok(""))
      && (res.Ok? && res.value.JStr? ==> r == Ok(res.value.s))
  {
    r := AsStringOrEmpty(Send(c, "DUMP", [JStr(key)]));
  }

  /** `RandomKey`: an empty database (nil) is "". */
  method RandomKey(c: Client) returns (r: Result<string, string>)
    requires StringOrNullReply(Send(c, "RANDOMKEY", []))
    ensures var res := Send(c, "RANDOMKEY", []);
      && (res.Err? ==> r == Err(res.error))
      && (res.Ok? && res.value.JNull? ==> r == Ok(""))
      && (res.Ok? && res.value.JStr? ==> r == Ok(res.value.s))
  {
    r := AsStringOrEmpty(Send(c, "RANDOMKEY", []));
  }

  // ---------------------------------------------------------------------
  // Option builders

  datatype MigrateOptions = MigrateOptions(copy: bool, replace: bool, keys: seq<string>)

  /** The flags and key list after the five fixed MIGRATE arguments. */
  function MigrateTail(o: MigrateOptions): seq<Json>
  {
    (if o.copy then [JStr("COPY")] else [])
    + (if o.replace then [JStr("REPLACE")] else [])
    + KeyList(o.keys)
  }

  function MigrateArgs(host: string, port: string, key: string, db: string, timeout: int, o: MigrateOptions): (r: seq<Json>)
    ensures |r| >= 5 && r[..5] == [JStr(host), JStr(port), JStr(key), JStr(db), JNum(timeout)]
    ensures ParseMigrateTail(r[5..]) == Some(o)
  {
    var head := [JStr(host), JStr(port), JStr(key), JStr(db), JNum(timeout)];
    MigrateTailRoundTrip(o);
    assert (head + MigrateTail(o))[5..] == MigrateTail(o);
    head + MigrateTail(o)
  }

  /** `Migrate`. */
  method Migrate(c: Client, host: string, port: string, key: string, db: string, timeout: int, o: MigrateOptions)
    returns (r: Result<string, string>)
    requires StringReply(Send(c, "MIGRATE", MigrateArgs(host, port, key, db, timeout, o)))
    ensures r == AsString(Send(c, "MIGRATE", MigrateArgs(host, port, key, db, timeout, o)))
  {
    var args := [JStr(host), JStr(port), JStr(key), JStr(db), JNum(timeout)];
    var tail := BuildMigrateTail(o);
    args := args + tail;
    r := AsString(Send(c, "MIGRATE", args));
  }

  /** The conditional appends of `Migrate`. */
  method BuildMigrateTail(o: MigrateOptions) returns (t: seq<Json>)
    ensures t == MigrateTail(o)
  {
    t := [];
    if o.copy {
      t := t + [JStr("COPY")];
    }
    if o.replace {
      t := t + [JStr("REPLACE")];
    }
    ghost var flags := t;
    if |o.keys| > 0 {
      t := AppendStrings(t + [JStr("KEYS")], o.keys);
    }
    assert t == flags + KeyList(o.keys);
  }

  /** The key list of the MIGRATE tail: KEYS and the keys, or nothing. */
  function KeyList(keys: seq<string>): seq<Json>
  {
    if |keys| > 0 then [JStr("KEYS")] + Strs(keys) else []
  }

  function ParseKeyList(t: seq<Json>): Option<seq<string>>
  {
    if |t| == 0 then Some([])
    else if t[0] == JStr("KEYS") && |t| > 1 then ParseStrings(t[1..])
    else None
  }

  /** A flag word at the head of `t`: whether it is there, and what follows it. */
  function DropFlag(t: seq<Json>, word: string): (bool, seq<Json>)
  {
    if |t| > 0 && t[0] == JStr(word) then (true, t[1..]) else (false, t)
  }

  /** How the server reads the MIGRATE tail: optional COPY, optional REPLACE, then KEYS and at least one key. */
  function ParseMigrateTail(t: seq<Json>): Option<MigrateOptions>
  {
    var (copy, t1) := DropFlag(t, "COPY");
    var (replace, t2) := DropFlag(t1, "REPLACE");
    match ParseKeyList(t2)
    case None => None
    case Some(ks) => Some(MigrateOptions(copy, replace, ks))
  }

  /** A flag written in front of a list that does not start with it is read back, with the list. */
  lemma DropFlagPrepend(word: string, present: bool, rest: seq<Json>)
    requires |rest| == 0 || rest[0] != JStr(word)
    ensures DropFlag((if present then [JStr(word)] else []) + rest, word) == (present, rest)
  {
    var t := (if present then [JStr(word)] else []) + rest;
    if present {
      assert t[0] == JStr(word) && t[1..] == rest;
    } else {
      assert t == rest;
    }
  }

  lemma KeyListRoundTrip(keys: seq<string>)
    ensures ParseKeyList(KeyList(keys)) == Some(keys)
  {
    if |keys| > 0 {
      assert KeyList(keys)[1..] == Strs(keys);
      ParseStringsStrs(keys);
    }
  }

  /** Every combination of flags and keys is read back as it was given. */
  lemma MigrateTailRoundTrip(o: MigrateOptions)
    ensures ParseMigrateTail(MigrateTail(o)) == Some(o)
  {
    var ks := KeyList(o.keys);
    var t1 := (if o.replace then [JStr("REPLACE")] else []) + ks;
    assert MigrateTail(o) == (if o.copy then [JStr("COPY")] else []) + t1;
    assert "KEYS"[0] != "REPLACE"[0] && "KEYS"[0] != "COPY"[0] && "REPLACE"[0] != "COPY"[0];
    DropFlagPrepend("REPLACE", o.replace, ks);
    DropFlagPrepend("COPY", o.copy, t1);
    KeyListRoundTrip(o.keys);
  }

  /** The RESTORE arguments: REPLACE is appended exactly when asked for. */
  function RestoreArgs(key: string, ttl: int, serialized: string, replace: bool): (args: seq<Json>)
    ensures |args| >= 3 && args[..3] == [JStr(key), JNum(ttl), JStr(serialized)]
    ensures |args| == 4 <==> replace
    ensures replace ==> args[3] == JStr("REPLACE")
  {
    [JStr(key), JNum(ttl), JStr(serialized)] + (if replace then [JStr("REPLACE")] else [])
  }

  /** `Restore`. */
  method Restore(c: Client, key: string, ttl: int, serialized: string, replace: bool) returns (r: Result<string, string>)
    requires StringReply(Send(c, "RESTORE", RestoreArgs(key, ttl, serialized, replace)))
    ensures r == AsString(Send(c, "RESTORE", RestoreArgs(key, ttl, serialized, replace)))
  {
    var args := [JStr(key), JNum(ttl), JStr(serialized)];
    if replace {
      args := args + [JStr("REPLACE")];
    }
    assert args == RestoreArgs(key, ttl, serialized, replace);
    r := AsString(Send(c, "RESTORE", args));
  }

  /** `Sort` and `SortRO`: the key, then the caller's arguments unchanged. */
  method Sort(c: Client, key: string, args: seq<Json>) returns (r: Result<Json, string>)
    ensures r == Send(c, "SORT", [JStr(key)] + args)
  {
    r := Send(c, "SORT", [JStr(key)] + args);
  }

  method SortRO(c: Client, key: string, args: seq<Json>) returns (r: Result<Json, string>)
    ensures r == Send(c, "SORT_RO", [JStr(key)] + args)
  {
    r := Send(c, "SORT_RO", [JStr(key)] + args);
  }
}
