/** Stream commands of cmd_streams.go: argument layouts and the entry parser. */
module Streams {

  import opened Wrappers
  import opened Json
  import opened Rest
  import opened Replies
  import opened Upstash

  datatype StreamMessage = StreamMessage(id: string, values: map<string, string>)

  /** One stream entry `[id, [f1, v1, …]]` whose assertions cannot panic. */
  predicate EntryShaped(e: Json)
  {
    e.JArr? && |e.items| >= 2 && e.items[0].JStr? && e.items[1].JArr? && PairList(e.items[1].items)
  }

  predicate EntriesShaped(v: Json)
  {
    v.JNull? || (v.JArr? && forall i :: 0 <= i < |v.items| ==> EntryShaped(v.items[i]))
  }

  /** The messages a stream reply holds: none for nil, else one per entry, in order. */
  function StreamMessages(v: Json): (r: seq<StreamMessage>)
    requires EntriesShaped(v)
    ensures v.JNull? ==> r == []
    ensures v.JArr? ==> |r| == |v.items|
  {
    if v.JNull? then [] else
    seq(|v.items|, i requires 0 <= i < |v.items| =>
      StreamMessage(v.items[i].items[0].s, Pairs(v.items[i].items[1].items)))
  }

  /** `parseStreamMessages`. */
  method ParseStreamMessages(v: Json) returns (r: seq<StreamMessage>)
    requires EntriesShaped(v)
    ensures r == StreamMessages(v)
  {
    if v.JNull? {
      return [];
    }
    var list := v.items;
    r := [];
    var i := 0;
    while i < |list|
      invariant 0 <= i <= |list| && |r| == i
      invariant forall j :: 0 <= j < i ==> r[j] == StreamMessage(list[j].items[0].s, Pairs(list[j].items[1].items))
    {
      var entry := list[i].items;
      var fields := FoldPairs(entry[1].items);
      r := r + [StreamMessage(entry[0].s, fields)];
      i := i + 1;
    }
  }

  /** How the server lays out messages: each entry is the id and the values' pairs in some order. */
  function Render(msgs: seq<StreamMessage>, orders: seq<seq<string>>): (v: Json)
    requires |orders| == |msgs|
    requires forall i :: 0 <= i < |msgs| ==> IsOrdering(orders[i], msgs[i].values)
  {
    JArr(seq(|msgs|, i requires 0 <= i < |msgs| => RenderEntry(msgs[i], orders[i])))
  }

  function RenderEntry(msg: StreamMessage, order: seq<string>): Json
    requires IsOrdering(order, msg.values)
  {
    JArr([JStr(msg.id), JArr(Interleave(order, msg.values))])
  }

  /** Parsing gives back every message, whatever order the values' pairs came in. */
  lemma ParseRendered(msgs: seq<StreamMessage>, orders: seq<seq<string>>)
    requires |orders| == |msgs|
    requires forall i :: 0 <= i < |msgs| ==> IsOrdering(orders[i], msgs[i].values)
    ensures EntriesShaped(Render(msgs, orders))
    ensures StreamMessages(Render(msgs, orders)) == msgs
  {
    var v := Render(msgs, orders);
    forall i | 0 <= i < |msgs|
      ensures StreamMessages(v)[i] == msgs[i]
    {
      PairsInterleave(orders[i], msgs[i].values);
    }
  }

  predicate StreamReply(res: Result<Json, string>)
  {
    res.Ok? ==> EntriesShaped(res.value)
  }

  /** The arguments of XRANGE and XREVRANGE: COUNT only when a count is given, and only the first. */
  function RangeArgs(key: string, first: string, last: string, count: seq<int>): (r: seq<Json>)
    ensures |r| >= 3 && r[..3] == [JStr(key), JStr(first), JStr(last)]
    ensures |r| == 5 <==> |count| > 0
    ensures |r| == 3 || |r| == 5
    ensures |count| > 0 ==> r[3..] == [JStr("COUNT"), JNum(count[0])]
  {
    [JStr(key), JStr(first), JStr(last)] + (if |count| > 0 then [JStr("COUNT"), JNum(count[0])] else [])
  }

  /** `XRange` and `XRevRange`: send the range, parse the entries. */
  method Range(c: Client, command: string, key: string, first: string, last: string, count: seq<int>)
    returns (r: Result<seq<StreamMessage>, string>)
    requires StreamReply(Send(c, command, RangeArgs(key, first, last, count)))
    ensures var res := Send(c, command, RangeArgs(key, first, last, count));
      && (res.Err? ==> r == Err(res.error))
      && (res.Ok? ==> r == Ok(StreamMessages(res.value)))
  {
    var args := [JStr(key), JStr(first), JStr(last)];
    if |count| > 0 {
      args := args + [JStr("COUNT"), JNum(count[0])];
    }
    assert args == RangeArgs(key, first, last, count);
    var res := Send(c, command, args);
    if res.Err? {
      return Err(res.error);
    }
    var msgs := ParseStreamMessages(res.value);
    r := Ok(msgs);
  }

  method XRange(c: Client, key: string, start: string, stop: string, count: seq<int>) returns (r: Result<seq<StreamMessage>, string>)
    requires StreamReply(Send(c, "XRANGE", RangeArgs(key, start, stop, count)))
    ensures var res := Send(c, "XRANGE", RangeArgs(key, start, stop, count));
      && (res.Err? ==> r == Err(res.error))
      && (res.Ok? ==> r == Ok(StreamMessages(res.value)))
  {
    r := Range(c, "XRANGE", key, start, stop, count);
  }

  method XRevRange(c: Client, key: string, stop: string, start: string, count: seq<int>) returns (r: Result<seq<StreamMessage>, string>)
    requires StreamReply(Send(c, "XREVRANGE", RangeArgs(key, stop, start, count)))
    ensures var res := Send(c, "XREVRANGE", RangeArgs(key, stop, start, count));
      && (res.Err? ==> r == Err(res.error))
      && (res.Ok? ==> r == Ok(StreamMessages(res.value)))
  {
    r := Range(c, "XREVRANGE", key, stop, start, count);
  }

  /** Only the first count is sent; further ones are ignored. */
  lemma RangeCountFirstOnly(key: string, first: string, last: string, n: int, more: seq<int>)
    ensures RangeArgs(key, first, last, [n] + more) == RangeArgs(key, first, last, [n])
    ensures |RangeArgs(key, first, last, [])| == 3
  {
  }

  /** `XAdd`: key, id, then each value as an adjacent field, value pair, in Go's map order. */
  method XAdd(c: Client, key: string, id: string, values: map<string, string>) returns (r: Result<string, string>)
    requires forall order :: IsOrdering(order, values) ==> StringReply(Send(c, "XADD", [JStr(key), JStr(id)] + Interleave(order, values)))
    ensures exists order :: IsOrdering(order, values) && r == AsString(Send(c, "XADD", [JStr(key), JStr(id)] + Interleave(order, values)))
  {
    var args, order := AppendPairs([JStr(key), JStr(id)], values);
    r := AsString(Send(c, "XADD", args));
  }

  /** The XADD arguments are 2 + 2|values| long and the server folds the pairs back into the values. */
  lemma XAddArgsFoldBack(key: string, id: string, values: map<string, string>, order: seq<string>)
    requires IsOrdering(order, values)
    ensures var args := [JStr(key), JStr(id)] + Interleave(order, values);
      && |args| == 2 + 2 * |values|
      && args[..2] == [JStr(key), JStr(id)]
      && PairList(args[2..]) && Pairs(args[2..]) == values
  {
    var args := [JStr(key), JStr(id)] + Interleave(order, values);
    assert args[2..] == Interleave(order, values);
    PairsInterleave(order, values);
  }

  /** `XAck`: key, group, then the ids in order. */
  method XAck(c: Client, key: string, group: string, ids: seq<string>) returns (r: Result<int, string>)
    requires NumReply(Send(c, "XACK", [JStr(key), JStr(group)] + Strs(ids)))
    ensures r == AsInt(Send(c, "XACK", [JStr(key), JStr(group)] + Strs(ids)))
  {
    var args := AppendStrings([JStr(key), JStr(group)], ids);
    r := AsInt(Send(c, "XACK", args));
  }

  /** `XDel`: key, then the ids in order. */
  method XDel(c: Client, key: string, ids: seq<string>) returns (r: Result<int, string>)
    requires NumReply(Send(c, "XDEL", [JStr(key)] + Strs(ids)))
    ensures r == AsInt(Send(c, "XDEL", [JStr(key)] + Strs(ids)))
  {
    var args := AppendStrings([JStr(key)], ids);
    r := AsInt(Send(c, "XDEL", args));
  }

  /** `XTrim`: key, strategy, threshold, then the extra arguments. */
  method XTrim(c: Client, key: string, strategy: string, threshold: Json, args: seq<Json>) returns (r: Result<int, string>)
    requires NumReply(Send(c, "XTRIM", [JStr(key), JStr(strategy), threshold] + args))
    ensures r == AsInt(Send(c, "XTRIM", [JStr(key), JStr(strategy), threshold] + args))
  {
    r := AsInt(Send(c, "XTRIM", [JStr(key), JStr(strategy), threshold] + args));
  }

  // ---------------------------------------------------------------------
  // XRead

  /** The ids of the streams, in the order of their keys. */
  function IdsOf(keys: seq<string>, streams: map<string, string>): (ids: seq<string>)
    requires forall i :: 0 <= i < |keys| ==> keys[i] in streams
    ensures |ids| == |keys|
    ensures forall i :: 0 <= i < |keys| ==> ids[i] == streams[keys[i]]
  {
    seq(|keys|, i requires 0 <= i < |keys| => streams[keys[i]])
  }

  /** The options before STREAMS: COUNT only when positive, BLOCK only when not negative. */
  function XReadHead(count: int, block: int): seq<Json>
  {
    (if count > 0 then [JStr("COUNT"), JNum(count)] else [])
    + (if block >= 0 then [JStr("BLOCK"), JNum(block)] else [])
  }

  function XReadArgs(count: int, block: int, keys: seq<string>, streams: map<string, string>): (r: seq<Json>)
    requires forall i :: 0 <= i < |keys| ==> keys[i] in streams
    ensures |r| == |XReadHead(count, block)| + 1 + 2 * |keys|
    ensures r[|XReadHead(count, block)|] == JStr("STREAMS")
  {
    XReadHead(count, block) + [JStr("STREAMS")] + Strs(keys) + Strs(IdsOf(keys, streams))
  }

  /** The two loops of `XRead`: keys and ids collected side by side from the map. */
  method StreamKeysAndIds(streams: map<string, string>) returns (keys: seq<string>, ids: seq<string>)
    ensures IsOrdering(keys, streams)
    ensures ids == IdsOf(keys, streams)
  {
    keys, ids := [], [];
    var todo := streams.Keys;
    assert |todo| == |streams|;
    while todo != {}
      invariant todo <= streams.Keys
      invariant forall i :: 0 <= i < |keys| ==> keys[i] in streams && keys[i] !in todo
      invariant forall k :: k in streams && k !in todo ==> k in keys
      invariant forall i, j :: 0 <= i < j < |keys| ==> keys[i] != keys[j]
      invariant |keys| + |todo| == |streams|
      invariant |ids| == |keys| && forall i :: 0 <= i < |keys| ==> ids[i] == streams[keys[i]]
      decreases |todo|
    {
      var k :| k in todo;
      keys := keys + [k];
      ids := ids + [streams[k]];
      todo := todo - {k};
    }
  }

  /** `XRead`: the i-th id after STREAMS belongs to the i-th key, and every stream appears once. */
  method XRead(c: Client, count: int, block: int, streams: map<string, string>) returns (r: Result<Json, string>)
    ensures exists keys :: IsOrdering(keys, streams) && r == Send(c, "XREAD", XReadArgs(count, block, keys, streams))
  {
    var args: seq<Json> := [];
    if count > 0 {
      args := args + [JStr("COUNT"), JNum(count)];
    }
    if block >= 0 {
      args := args + [JStr("BLOCK"), JNum(block)];
    }
    assert args == XReadHead(count, block);
    args := args + [JStr("STREAMS")];
    var keys, ids := StreamKeysAndIds(streams);
    args := args + Strs(keys) + Strs(ids);
    assert args == XReadArgs(count, block, keys, streams);
    r := Send(c, "XREAD", args);
  }

  /** How the server pairs the names and ids after STREAMS: first half names, second half ids. */
  function StreamsOf(tail: seq<Json>): Option<map<string, string>>
  {
    if |tail| % 2 != 0 || !AllStrings(tail) then None
    else
      var n := |tail| / 2;
      Some(Zip(tail[..n], tail[n..]))
  }

  function Zip(names: seq<Json>, ids: seq<Json>): map<string, string>
    requires |names| == |ids| && AllStrings(names) && AllStrings(ids)
  {
    if |names| == 0 then map[]
    else Zip(names[..|names| - 1], ids[..|ids| - 1])[names[|names| - 1].s := ids[|ids| - 1].s]
  }

  /** Zipping the keys with their ids maps each key to its id. */
  lemma {:induction false} ZipKeysIds(keys: seq<string>, streams: map<string, string>)
    requires forall i :: 0 <= i < |keys| ==> keys[i] in streams
    ensures var z := Zip(Strs(keys), Strs(IdsOf(keys, streams)));
      && (forall k :: k in z <==> k in keys)
      && (forall k :: k in z ==> z[k] == streams[k])
  {
    if |keys| > 0 {
      var init := keys[..|keys| - 1];
      ZipKeysIds(init, streams);
      assert Strs(keys)[..|keys| - 1] == Strs(init);
      assert IdsOf(keys, streams)[..|keys| - 1] == IdsOf(init, streams);
      assert Strs(IdsOf(keys, streams))[..|keys| - 1] == Strs(IdsOf(init, streams));
      assert keys == init + [keys[|keys| - 1]];
    }
  }

  lemma ZipIsStreams(keys: seq<string>, streams: map<string, string>)
    requires IsOrdering(keys, streams)
    ensures Zip(Strs(keys), Strs(IdsOf(keys, streams))) == streams
  {
    ZipKeysIds(keys, streams);
  }

  /** The server reads back exactly the streams map from what `XRead` sends after STREAMS. */
  lemma XReadPairsRoundTrip(keys: seq<string>, streams: map<string, string>)
    requires IsOrdering(keys, streams)
    ensures StreamsOf(Strs(keys) + Strs(IdsOf(keys, streams))) == Some(streams)
  {
    var a, b := Strs(keys), Strs(IdsOf(keys, streams));
    var tail := a + b;
    var n := |keys|;
    assert |tail| == n + n;
    assert |tail| / 2 == n;
    assert AllStrings(tail);
    assert tail[..n] == a;
    assert tail[n..] == b;
    ZipIsStreams(keys, streams);
  }
}
