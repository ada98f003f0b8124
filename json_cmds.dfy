/** RedisJSON commands of cmd_json.go: argument layouts and the `[]int` reply shaper. */
module JsonCommands {

  import opened Wrappers
  import opened Json
  import opened Rest
  import opened Replies
  import opened Upstash

  /** A reply `parseIntSlice` accepts: a list of numbers and nils. */
  predicate IntListReply(res: Result<Json, string>)
  {
    res.Ok? ==> res.value.JArr? && forall i :: 0 <= i < |res.value.items| ==> NumOrNull(res.value.items[i])
  }

  /** What `parseIntSlice` makes of one element: nil is 0. */
  function IntOrZero(v: Json): (n: int)
    requires NumOrNull(v)
    ensures v.JNull? ==> n == 0
    ensures v.JNum? ==> n == v.n
  {
    if v.JNull? then 0 else v.n
  }

  /**
   * `parseIntSlice` and its inline copies: send, then one int per reply
   * element, in order, nil read as 0.
   */
  method IntList(c: Client, command: string, args: seq<Json>) returns (r: Result<seq<int>, string>)
    requires IntListReply(Send(c, command, args))
    ensures var res := Send(c, command, args);
      && (res.Err? ==> r == Err(res.error))
      && (res.Ok? ==> r.Ok? && |r.value| == |res.value.items|)
      && (res.Ok? ==> forall i :: 0 <= i < |r.value| ==> r.value[i] == IntOrZero(res.value.items[i]))
  {
    var res := Send(c, command, args);
    if res.Err? {
      return Err(res.error);
    }
    var ints := IntsOf(res.value.items);
    r := Ok(ints);
  }

  /** `JsonGet`: key, then every path in order; the reply is returned as it is. */
  method JsonGet(c: Client, key: string, paths: seq<string>) returns (r: Result<Json, string>)
    ensures r == Send(c, "JSON.GET", [JStr(key)] + Strs(paths))
  {
    var args := AppendStrings([JStr(key)], paths);
    r := Send(c, "JSON.GET", args);
  }

  /** `JsonMGet`: every key in order, the path last. */
  method JsonMGet(c: Client, path: string, keys: seq<string>) returns (r: Result<seq<Json>, string>)
    requires ListReply(Send(c, "JSON.MGET", Strs(keys) + [JStr(path)]))
    ensures r == AsList(Send(c, "JSON.MGET", Strs(keys) + [JStr(path)]))
  {
    var args := AppendStrings([], keys);
    assert args == Strs(keys);
    args := args + [JStr(path)];
    r := AsList(Send(c, "JSON.MGET", args));
  }

  /** `JsonClear` and `JsonForget`: key, then the paths in order. */
  method KeyPaths(c: Client, command: string, key: string, paths: seq<string>) returns (r: Result<int, string>)
    requires NumReply(Send(c, command, [JStr(key)] + Strs(paths)))
    ensures r == AsInt(Send(c, command, [JStr(key)] + Strs(paths)))
  {
    var args := AppendStrings([JStr(key)], paths);
    r := AsInt(Send(c, command, args));
  }

  method JsonClear(c: Client, key: string, paths: seq<string>) returns (r: Result<int, string>)
    requires NumReply(Send(c, "JSON.CLEAR", [JStr(key)] + Strs(paths)))
    ensures r == AsInt(Send(c, "JSON.CLEAR", [JStr(key)] + Strs(paths)))
  {
    r := KeyPaths(c, "JSON.CLEAR", key, paths);
  }

  method JsonForget(c: Client, key: string, paths: seq<string>) returns (r: Result<int, string>)
    requires NumReply(Send(c, "JSON.FORGET", [JStr(key)] + Strs(paths)))
    ensures r == AsInt(Send(c, "JSON.FORGET", [JStr(key)] + Strs(paths)))
  {
    r := KeyPaths(c, "JSON.FORGET", key, paths);
  }

  /** The JSON.ARRPOP arguments: at most the first index is passed. */
  function ArrPopArgs(key: string, path: string, index: seq<int>): (args: seq<Json>)
    ensures |args| == if |index| == 0 then 2 else 3
  {
    [JStr(key), JStr(path)] + (if |index| > 0 then [JNum(index[0])] else [])
  }

  /** `JsonArrPop`. */
  method JsonArrPop(c: Client, key: string, path: string, index: seq<int>) returns (r: Result<seq<Json>, string>)
    requires ListReply(Send(c, "JSON.ARRPOP", ArrPopArgs(key, path, index)))
    ensures r == AsList(Send(c, "JSON.ARRPOP", ArrPopArgs(key, path, index)))
  {
    var args := [JStr(key), JStr(path)];
    if |index| > 0 {
      args := args + [JNum(index[0])];
    }
    assert args == ArrPopArgs(key, path, index);
    r := AsList(Send(c, "JSON.ARRPOP", args));
  }

  lemma ArrPopFirstIndexOnly(key: string, path: string, n: int, more: seq<int>)
    ensures ArrPopArgs(key, path, [n] + more) == [JStr(key), JStr(path), JNum(n)]
    ensures ArrPopArgs(key, path, []) == [JStr(key), JStr(path)]
  {
  }

  /** `JsonArrIndex`: key, path, value, then the optional start and end. */
  method JsonArrIndex(c: Client, key: string, path: string, value: Json, startEnd: seq<int>) returns (r: Result<seq<int>, string>)
    requires IntListReply(Send(c, "JSON.ARRINDEX", [JStr(key), JStr(path), value] + Nums(startEnd)))
    ensures var res := Send(c, "JSON.ARRINDEX", [JStr(key), JStr(path), value] + Nums(startEnd));
      && (res.Err? ==> r == Err(res.error))
      && (res.Ok? ==> r.Ok? && |r.value| == |res.value.items|)
      && (res.Ok? ==> forall i :: 0 <= i < |r.value| ==> r.value[i] == IntOrZero(res.value.items[i]))
  {
    var args := AppendNums([JStr(key), JStr(path), value], startEnd);
    r := IntList(c, "JSON.ARRINDEX", args);
  }

  /** `JsonArrInsert`: key, path, index, then the values in order. */
  method JsonArrInsert(c: Client, key: string, path: string, index: int, values: seq<Json>) returns (r: Result<seq<int>, string>)
    requires IntListReply(Send(c, "JSON.ARRINSERT", [JStr(key), JStr(path), JNum(index)] + values))
    ensures var res := Send(c, "JSON.ARRINSERT", [JStr(key), JStr(path), JNum(index)] + values);
      && (res.Err? ==> r == Err(res.error))
      && (res.Ok? ==> r.Ok? && |r.value| == |res.value.items|)
      && (res.Ok? ==> forall i :: 0 <= i < |r.value| ==> r.value[i] == IntOrZero(res.value.items[i]))
  {
    r := IntList(c, "JSON.ARRINSERT", [JStr(key), JStr(path), JNum(index)] + values);
  }

  /** `JsonArrAppend`: key, path, then the values in order. */
  method JsonArrAppend(c: Client, key: string, path: string, values: seq<Json>) returns (r: Result<seq<int>, string>)
    requires IntListReply(Send(c, "JSON.ARRAPPEND", [JStr(key), JStr(path)] + values))
    ensures var res := Send(c, "JSON.ARRAPPEND", [JStr(key), JStr(path)] + values);
      && (res.Err? ==> r == Err(res.error))
      && (res.Ok? ==> r.Ok? && |r.value| == |res.value.items|)
      && (res.Ok? ==> forall i :: 0 <= i < |r.value| ==> r.value[i] == IntOrZero(res.value.items[i]))
  {
    r := IntList(c, "JSON.ARRAPPEND", [JStr(key), JStr(path)] + values);
  }

  /** `JsonArrLen`, `JsonObjLen` and `JsonStrLen`: key and path. */
  method KeyPathInts(c: Client, command: string, key: string, path: string) returns (r: Result<seq<int>, string>)
    requires IntListReply(Send(c, command, [JStr(key), JStr(path)]))
    ensures var res := Send(c, command, [JStr(key), JStr(path)]);
      && (res.Err? ==> r == Err(res.error))
      && (res.Ok? ==> r.Ok? && |r.value| == |res.value.items|)
      && (res.Ok? ==> forall i :: 0 <= i < |r.value| ==> r.value[i] == IntOrZero(res.value.items[i]))
  {
    r := IntList(c, command, [JStr(key), JStr(path)]);
  }

  /** `JsonStrAppend`: key, path, value. */
  method JsonStrAppend(c: Client, key: string, path: string, value: string) returns (r: Result<seq<int>, string>)
    requires IntListReply(Send(c, "JSON.STRAPPEND", [JStr(key), JStr(path), JStr(value)]))
    ensures var res := Send(c, "JSON.STRAPPEND", [JStr(key), JStr(path), JStr(value)]);
      && (res.Err? ==> r == Err(res.error))
      && (res.Ok? ==> r.Ok? && |r.value| == |res.value.items|)
      && (res.Ok? ==> forall i :: 0 <= i < |r.value| ==> r.value[i] == IntOrZero(res.value.items[i]))
  {
    r := IntList(c, "JSON.STRAPPEND", [JStr(key), JStr(path), JStr(value)]);
  }

  /** `JsonArrTrim`: key, path, start, stop. */
  method JsonArrTrim(c: Client, key: string, path: string, start: int, stop: int) returns (r: Result<seq<int>, string>)
    requires IntListReply(Send(c, "JSON.ARRTRIM", [JStr(key), JStr(path), JNum(start), JNum(stop)]))
    ensures var res := Send(c, "JSON.ARRTRIM", [JStr(key), JStr(path), JNum(start), JNum(stop)]);
      && (res.Err? ==> r == Err(res.error))
      && (res.Ok? ==> r.Ok? && |r.value| == |res.value.items|)
      && (res.Ok? ==> forall i :: 0 <= i < |r.value| ==> r.value[i] == IntOrZero(res.value.items[i]))
  {
    r := IntList(c, "JSON.ARRTRIM", [JStr(key), JStr(path), JNum(start), JNum(stop)]);
  }

  predicate ObjKeysReply(res: Result<Json, string>)
  {
    res.Ok? ==> res.value.JNull? || (res.value.JArr? && AllStrings(res.value.items))
  }

  /** `JsonObjKeys`: nil stays nil (None); otherwise one string per element, in order. */
  method JsonObjKeys(c: Client, key: string, path: string) returns (r: Result<Option<seq<string>>, string>)
    requires ObjKeysReply(Send(c, "JSON.OBJKEYS", [JStr(key), JStr(path)]))
    ensures var res := Send(c, "JSON.OBJKEYS", [JStr(key), JStr(path)]);
      && (res.Err? ==> r == Err(res.error))
      && (res.Ok? && res.value.JNull? ==> r == Ok(None))
      && (res.Ok? && res.value.JArr? ==> r.Ok? && r.value.Some? && Strs(r.value.value) == res.value.items)
  {
    var res := Send(c, "JSON.OBJKEYS", [JStr(key), JStr(path)]);
    if res.Err? {
      return Err(res.error);
    }
    if res.value.JNull? {
      return Ok(None);
    }
    var keys := StringsOf(res.value.items);
    r := Ok(Some(keys));
  }
}
