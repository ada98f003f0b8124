/** Hash commands of cmd_hashes.go: argument layouts and reply shapers. */
module Hashes {

  import opened Wrappers
  import opened Json
  import opened Rest
  import opened Replies
  import opened Upstash

  /** `HSet`: the body is HSET, key, field, value. */
  method HSet(c: Client, key: string, field: string, value: string) returns (r: Result<int, string>)
    requires NumReply(Send(c, "HSET", [JStr(key), JStr(field), JStr(value)]))
    ensures r == AsInt(Send(c, "HSET", [JStr(key), JStr(field), JStr(value)]))
  {
    r := AsInt(Send(c, "HSET", [JStr(key), JStr(field), JStr(value)]));
  }

  /** `HGet`: a nil reply (no such field) is "". */
  method HGet(c: Client, key: string, field: string) returns (r: Result<string, string>)
    requires StringOrNullReply(Send(c, "HGET", [JStr(key), JStr(field)]))
    ensures Send(c, "HGET", [JStr(key), JStr(field)]) == Ok(JNull) ==> r == Ok("")
    ensures r == AsStringOrEmpty(Send(c, "HGET", [JStr(key), JStr(field)]))
  {
    r := AsStringOrEmpty(Send(c, "HGET", [JStr(key), JStr(field)]));
  }

  predicate PairListReply(res: Result<Json, string>)
  {
    res.Ok? ==> res.value.JArr? && PairList(res.value.items)
  }

  /** `HGetAll`: the flat field/value reply folded into a map, a later field winning. */
  method HGetAll(c: Client, key: string) returns (r: Result<map<string, string>, string>)
    requires PairListReply(Send(c, "HGETALL", [JStr(key)]))
    ensures Send(c, "HGETALL", [JStr(key)]).Err? ==> r == Err(Send(c, "HGETALL", [JStr(key)]).error)
    ensures Send(c, "HGETALL", [JStr(key)]).Ok? ==> r == Ok(Pairs(Send(c, "HGETALL", [JStr(key)]).value.items))
  {
    var res := Send(c, "HGETALL", [JStr(key)]);
    if res.Err? {
      return Err(res.error);
    }
    var m := FoldPairs(res.value.items);
    r := Ok(m);
  }

  /** `HDel`: the key, then the fields in order. */
  method HDel(c: Client, key: string, fields: seq<string>) returns (r: Result<int, string>)
    requires NumReply(Send(c, "HDEL", [JStr(key)] + Strs(fields)))
    ensures r == AsInt(Send(c, "HDEL", [JStr(key)] + Strs(fields)))
  {
    var args := AppendStrings([JStr(key)], fields);
    r := AsInt(Send(c, "HDEL", args));
  }

  predicate StringOrNullListReply(res: Result<Json, string>)
  {
    res.Ok? ==> res.value.JArr? && forall i :: 0 <= i < |res.value.items| ==> StringOrNull(res.value.items[i])
  }

  /** `HMGet`: one string per reply element, in order, a nil element (missing field) as "". */
  method HMGet(c: Client, key: string, fields: seq<string>) returns (r: Result<seq<string>, string>)
    requires StringOrNullListReply(Send(c, "HMGET", [JStr(key)] + Strs(fields)))
    ensures var res := Send(c, "HMGET", [JStr(key)] + Strs(fields));
      && (res.Err? ==> r == Err(res.error))
      && (res.Ok? ==> r.Ok? && |r.value| == |res.value.items|)
      && (res.Ok? ==> forall i :: 0 <= i < |r.value| ==> r.value[i] == StringOrEmpty(res.value.items[i]))
  {
    var args := AppendStrings([JStr(key)], fields);
    var res := Send(c, "HMGET", args);
    if res.Err? {
      return Err(res.error);
    }
    var values := StringsOrEmpty(res.value.items);
    r := Ok(values);
  }

  /**
   * `HMSet`: the key, then every entry of the map as an adjacent field,
   * value pair, in the order Go ranges over the map.
   */
  method HMSet(c: Client, key: string, kv: map<string, string>) returns (r: Result<string, string>)
    requires forall order :: IsOrdering(order, kv) ==> StringReply(Send(c, "HMSET", [JStr(key)] + Interleave(order, kv)))
    ensures exists order :: IsOrdering(order, kv) && r == AsString(Send(c, "HMSET", [JStr(key)] + Interleave(order, kv)))
  {
    var args, order := AppendPairs([JStr(key)], kv);
    r := AsString(Send(c, "HMSET", args));
  }

  /**
   * Whatever order `HMSet` ranges over the map in, its arguments hold
   * 1 + 2·|kv| strings and fold back into exactly `kv`.
   */
  lemma HMSetArgsFoldBack(key: string, kv: map<string, string>, order: seq<string>)
    requires IsOrdering(order, kv)
    ensures |[JStr(key)] + Interleave(order, kv)| == 1 + 2 * |kv|
    ensures Pairs(([JStr(key)] + Interleave(order, kv))[1..]) == kv
  {
    PairsInterleave(order, kv);
    assert ([JStr(key)] + Interleave(order, kv))[1..] == Interleave(order, kv);
  }

  predicate StringListReply(res: Result<Json, string>)
  {
    res.Ok? ==> res.value.JArr? && AllStrings(res.value.items)
  }

  /** `HKeys` and `HVals`: one string per reply element, in the same order. */
  method StringList(c: Client, command: string, key: string) returns (r: Result<seq<string>, string>)
    requires StringListReply(Send(c, command, [JStr(key)]))
    ensures var res := Send(c, command, [JStr(key)]);
      && (res.Err? ==> r == Err(res.error))
      && (res.Ok? ==> r.Ok? && Strs(r.value) == res.value.items)
  {
    var res := Send(c, command, [JStr(key)]);
    if res.Err? {
      return Err(res.error);
    }
    var values := StringsOf(res.value.items);
    r := Ok(values);
  }

  method HKeys(c: Client, key: string) returns (r: Result<seq<string>, string>)
    requires StringListReply(Send(c, "HKEYS", [JStr(key)]))
    ensures var res := Send(c, "HKEYS", [JStr(key)]);
      && (res.Err? ==> r == Err(res.error))
      && (res.Ok? ==> r.Ok? && Strs(r.value) == res.value.items)
  {
    r := StringList(c, "HKEYS", key);
  }

  method HVals(c: Client, key: string) returns (r: Result<seq<string>, string>)
    requires StringListReply(Send(c, "HVALS", [JStr(key)]))
    ensures var res := Send(c, "HVALS", [JStr(key)]);
      && (res.Err? ==> r == Err(res.error))
      && (res.Ok? ==> r.Ok? && Strs(r.value) == res.value.items)
  {
    r := StringList(c, "HVALS", key);
  }
}
