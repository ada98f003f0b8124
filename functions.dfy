/** Redis Functions commands of cmd_functions.go. */
module Functions {

  import opened Wrappers
  import opened Json
  import opened Rest
  import opened Replies
  import opened Upstash
  import opened Scripting

  /** `FCall`: function name, number of keys, the keys, then the args. */
  method FCall(c: Client, name: string, keys: seq<string>, args: seq<Json>) returns (r: Result<Json, string>)
    ensures r == Send(c, "FCALL", NumkeysLayout(name, keys, args))
  {
    var cmdArgs := NumkeysArgs(name, keys, args);
    r := Send(c, "FCALL", cmdArgs);
  }

  /** `FCallRO`: the same layout under FCALL_RO. */
  method FCallRO(c: Client, name: string, keys: seq<string>, args: seq<Json>) returns (r: Result<Json, string>)
    ensures r == Send(c, "FCALL_RO", NumkeysLayout(name, keys, args))
  {
    var cmdArgs := NumkeysArgs(name, keys, args);
    r := Send(c, "FCALL_RO", cmdArgs);
  }

  /** The FUNCTION LOAD arguments: LOAD, REPLACE only when asked, the payload last. */
  function LoadArgs(payload: string, replace: bool): (args: seq<Json>)
    ensures |args| >= 2 && args[0] == JStr("LOAD") && args[|args| - 1] == JStr(payload)
    ensures |args| == 3 <==> replace
    ensures |args| == 2 <==> !replace
    ensures replace ==> args[1] == JStr("REPLACE")
  {
    [JStr("LOAD")] + (if replace then [JStr("REPLACE")] else []) + [JStr(payload)]
  }

  /** `FunctionLoad`. */
  method FunctionLoad(c: Client, payload: string, replace: bool) returns (r: Result<string, string>)
    requires StringReply(Send(c, "FUNCTION", LoadArgs(payload, replace)))
    ensures r == AsString(Send(c, "FUNCTION", LoadArgs(payload, replace)))
  {
    var args := [JStr("LOAD")];
    if replace {
      args := args + [JStr("REPLACE")];
    }
    args := args + [JStr(payload)];
    assert args == LoadArgs(payload, replace);
    r := AsString(Send(c, "FUNCTION", args));
  }

  /** The FUNCTION LIST arguments: LIBRARYNAME and the first name only when a name is given. */
  function ListArgs(libraryName: seq<string>): (args: seq<Json>)
    ensures |libraryName| == 0 ==> args == [JStr("LIST")]
    ensures |libraryName| > 0 ==> args == [JStr("LIST"), JStr("LIBRARYNAME"), JStr(libraryName[0])]
  {
    [JStr("LIST")] + (if |libraryName| > 0 then [JStr("LIBRARYNAME"), JStr(libraryName[0])] else [])
  }

  /** `FunctionList`. */
  method FunctionList(c: Client, libraryName: seq<string>) returns (r: Result<seq<Json>, string>)
    requires ListReply(Send(c, "FUNCTION", ListArgs(libraryName)))
    ensures r == AsList(Send(c, "FUNCTION", ListArgs(libraryName)))
  {
    var args := [JStr("LIST")];
    if |libraryName| > 0 {
      args := args + [JStr("LIBRARYNAME"), JStr(libraryName[0])];
    }
    r := AsList(Send(c, "FUNCTION", args));
  }

  /** `FunctionDelete`: FUNCTION DELETE name. */
  method FunctionDelete(c: Client, libraryName: string) returns (r: Result<string, string>)
    requires StringReply(Send(c, "FUNCTION", [JStr("DELETE"), JStr(libraryName)]))
    ensures r == AsString(Send(c, "FUNCTION", [JStr("DELETE"), JStr(libraryName)]))
  {
    r := AsString(Send(c, "FUNCTION", [JStr("DELETE"), JStr(libraryName)]));
  }

  /** `FunctionFlush`: FUNCTION FLUSH. */
  method FunctionFlush(c: Client) returns (r: Result<string, string>)
    requires StringReply(Send(c, "FUNCTION", [JStr("FLUSH")]))
    ensures r == AsString(Send(c, "FUNCTION", [JStr("FLUSH")]))
  {
    r := AsString(Send(c, "FUNCTION", [JStr("FLUSH")]));
  }

  /** `FunctionStats`: FUNCTION STATS, reply returned as it is. */
  method FunctionStats(c: Client) returns (r: Result<Json, string>)
    ensures r == Send(c, "FUNCTION", [JStr("STATS")])
  {
    r := Send(c, "FUNCTION", [JStr("STATS")]);
  }
}
