/** Lua scripting commands of cmd_scripting.go and the "numkeys" argument layout they share with FCALL. */
module Scripting {

  import opened Wrappers
  import opened Json
  import opened Rest
  import opened Replies
  import opened Upstash

  /** The layout `head, len(keys), keys…, args…`. */
  function NumkeysLayout(head: string, keys: seq<string>, args: seq<Json>): (r: seq<Json>)
    ensures |r| == 2 + |keys| + |args|
    ensures r[0] == JStr(head) && r[1] == JNum(|keys|)
  {
    [JStr(head), JNum(|keys|)] + Strs(keys) + args
  }

  /** The appends that build a numkeys argument list: head and count, the keys one by one, then the args. */
  method NumkeysArgs(head: string, keys: seq<string>, args: seq<Json>) returns (r: seq<Json>)
    ensures r == NumkeysLayout(head, keys, args)
  {
    r := AppendStrings([JStr(head), JNum(|keys|)], keys);
    r := r + args;
  }

  datatype Call = Call(head: string, keys: seq<string>, args: seq<Json>)

  /** How the server splits a numkeys list: the count says where the keys end and the args begin. */
  function ParseNumkeys(r: seq<Json>): Option<Call>
  {
    if |r| < 2 || !r[0].JStr? || !r[1].JNum? || r[1].n < 0 || |r| < 2 + r[1].n then None
    else
      match ParseStrings(r[2..2 + r[1].n])
      case None => None
      case Some(keys) => Some(Call(r[0].s, keys, r[2 + r[1].n..]))
  }

  /** The numkeys slot counts exactly the keys, so the server recovers head, keys and args as given. */
  lemma NumkeysRoundTrip(head: string, keys: seq<string>, args: seq<Json>)
    ensures ParseNumkeys(NumkeysLayout(head, keys, args)) == Some(Call(head, keys, args))
  {
    var r := NumkeysLayout(head, keys, args);
    var n := |keys|;
    assert r[2..2 + n] == Strs(keys);
    assert r[2 + n..] == args;
    ParseStringsStrs(keys);
  }

  /** With no keys the count is 0 and the args follow it directly. */
  lemma NoKeys(head: string, args: seq<Json>)
    ensures NumkeysLayout(head, [], args) == [JStr(head), JNum(0)] + args
  {
  }

  /** `Eval`. */
  method Eval(c: Client, script: string, keys: seq<string>, args: seq<Json>) returns (r: Result<Json, string>)
    ensures r == Send(c, "EVAL", NumkeysLayout(script, keys, args))
  {
    var cmdArgs := NumkeysArgs(script, keys, args);
    r := Send(c, "EVAL", cmdArgs);
  }

  /** `EvalSha`: the same layout with the digest first. */
  method EvalSha(c: Client, sha1: string, keys: seq<string>, args: seq<Json>) returns (r: Result<Json, string>)
    ensures r == Send(c, "EVALSHA", NumkeysLayout(sha1, keys, args))
  {
    var cmdArgs := NumkeysArgs(sha1, keys, args);
    r := Send(c, "EVALSHA", cmdArgs);
  }

  /** `ScriptLoad`: the body is SCRIPT, LOAD, script. */
  method ScriptLoad(c: Client, script: string) returns (r: Result<string, string>)
    requires StringReply(Send(c, "SCRIPT", [JStr("LOAD"), JStr(script)]))
    ensures r == AsString(Send(c, "SCRIPT", [JStr("LOAD"), JStr(script)]))
  {
    r := AsString(Send(c, "SCRIPT", [JStr("LOAD"), JStr(script)]));
  }

  /** What `ScriptLoad` posts is the three-word body SCRIPT LOAD script. */
  lemma ScriptLoadBody(script: string)
    ensures CommandBody("SCRIPT", [JStr("LOAD"), JStr(script)]) == JArr([JStr("SCRIPT"), JStr("LOAD"), JStr(script)])
  {
  }
}
