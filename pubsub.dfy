/**
 * Publish/subscribe over the REST event stream (cmd_pubsub.go): the line
 * reader that turns `data: ` lines into messages on a channel, and the
 * commands that open the stream. The reader is a small subset of the
 * server-sent-events format of section 9.2 of the WHATWG HTML Living
 * Standard: no field other than `data`, no multi-line events, no escapes.
 */
module PubSub {

  import opened Wrappers
  import opened Json
  import opened Text
  import Rest
  import Replies
  import Upstash

  const DataPrefix: string := "data: "

  predicate IsDataLine(line: string)
  {
    HasPrefix(line, DataPrefix)
  }

  /** One layer of surrounding double quotes removed, when there are two to remove. */
  function Unquote(msg: string): (r: string)
    ensures |msg| >= 2 && msg[0] == '"' && msg[|msg| - 1] == '"' ==> r == msg[1..|msg| - 1]
    ensures !(|msg| >= 2 && msg[0] == '"' && msg[|msg| - 1] == '"') ==> r == msg
  {
    if |msg| >= 2 && msg[0] == '"' && msg[|msg| - 1] == '"' then msg[1..|msg| - 1] else msg
  }

  /** The message a data line carries. */
  function Payload(line: string): string
    requires IsDataLine(line)
  {
    Unquote(line[|DataPrefix|..])
  }

  /** What one line contributes: one message for a data line, nothing otherwise. */
  function Emit(line: string): seq<string>
  {
    if IsDataLine(line) then [Payload(line)] else []
  }

  /** A line emits one message exactly when it is a data line, and none otherwise. */
  lemma EmitsAtMostOne(line: string)
    ensures |Emit(line)| <= 1
    ensures |Emit(line)| == 1 <==> IsDataLine(line)
    ensures IsDataLine(line) ==> Emit(line) == [Payload(line)]
  {
  }

  /** Every message of a stream that is read to its end, in line order. */
  function Messages(lines: seq<string>): seq<string>
  {
    if |lines| == 0 then []
    else Messages(lines[..|lines| - 1]) + Emit(lines[|lines| - 1])
  }

  /** Reading one more line of a stream adds what that line emits. */
  lemma MessagesPrefix(lines: seq<string>, i: nat)
    requires i < |lines|
    ensures Messages(lines[..i + 1]) == Messages(lines[..i]) + Emit(lines[i])
  {
    assert lines[..i + 1][..i] == lines[..i];
  }

  /** Reading two pieces of a stream one after the other is reading them together. */
  lemma {:induction false} MessagesAppend(a: seq<string>, b: seq<string>)
    ensures Messages(a + b) == Messages(a) + Messages(b)
    decreases |b|
  {
    if |b| > 0 {
      var b' := b[..|b| - 1];
      assert (a + b)[..|a + b| - 1] == a + b';
      MessagesAppend(a, b');
    } else {
      assert a + b == a;
    }
  }

  /** How the server frames a string message: `data: "<text>"`. */
  function Frame(msg: string): string
  {
    DataPrefix + "\"" + msg + "\""
  }

  lemma UnquoteQuoted(x: string)
    ensures Unquote("\"" + x + "\"") == x
  {
    var q := "\"" + x + "\"";
    assert q[1..|q| - 1] == x;
  }

  lemma FramePayload(msg: string)
    ensures IsDataLine(Frame(msg)) && Payload(Frame(msg)) == msg
  {
    var f := Frame(msg);
    assert f[..|DataPrefix|] == DataPrefix;
    assert f[|DataPrefix|..] == "\"" + msg + "\"";
    UnquoteQuoted(msg);
  }

  /**
   * Framed messages read back as exactly those messages, in order, whatever
   * other fields (lines that are not data lines) sit between them.
   */
  lemma ReadsBackFrames(msgs: seq<string>, other: seq<string>)
    requires forall i :: 0 <= i < |other| ==> !IsDataLine(other[i])
    ensures Messages(Interleaved(msgs, other)) == msgs
  {
    NoDataNoMessages(other);
    SilentLinesReadBack(msgs, other);
  }

  /** The induction behind `ReadsBackFrames`, for any run of lines that emits nothing. */
  lemma {:induction false} SilentLinesReadBack(msgs: seq<string>, other: seq<string>)
    requires Messages(other) == []
    ensures Messages(Interleaved(msgs, other)) == msgs
    decreases |msgs|
  {
    if |msgs| > 0 {
      SilentLinesReadBack(msgs[..|msgs| - 1], other);
      FrameStep(msgs, other);
    }
  }

  /** Appending one framed message to a stream that reads back its predecessors. */
  lemma FrameStep(msgs: seq<string>, other: seq<string>)
    requires |msgs| > 0 && Messages(other) == []
    requires Messages(Interleaved(msgs[..|msgs| - 1], other)) == msgs[..|msgs| - 1]
    ensures Messages(Interleaved(msgs, other)) == msgs
  {
    var init := msgs[..|msgs| - 1];
    var last := msgs[|msgs| - 1];
    var pre := Interleaved(init, other);
    var f := Frame(last);
    assert Interleaved(msgs, other) == pre + other + [f];
    MessagesOfFrame(last);
    SilentStep(pre, other, f, init, last);
    assert msgs == init + [last];
  }

  /** One more line after a run that emits nothing adds what that line emits, and only that. */
  lemma SilentStep(pre: seq<string>, other: seq<string>, line: string, init: seq<string>, last: string)
    requires Messages(pre) == init && Messages(other) == [] && Messages([line]) == [last]
    ensures Messages(pre + other + [line]) == init + [last]
  {
    MessagesAppend3(pre, other, [line]);
  }

  lemma MessagesAppend3(a: seq<string>, b: seq<string>, c: seq<string>)
    ensures Messages(a + b + c) == Messages(a) + Messages(b) + Messages(c)
  {
    MessagesAppend(a, b);
    MessagesAppend(a + b, c);
  }

  lemma MessagesOfFrame(msg: string)
    ensures Messages([Frame(msg)]) == [msg]
  {
    FramePayload(msg);
    assert [Frame(msg)][..0] == [];
  }

  /** Each framed message preceded by the same run of other lines. */
  function Interleaved(msgs: seq<string>, other: seq<string>): seq<string>
  {
    if |msgs| == 0 then []
    else Interleaved(msgs[..|msgs| - 1], other) + other + [Frame(msgs[|msgs| - 1])]
  }

  lemma {:induction false} NoDataNoMessages(lines: seq<string>)
    requires forall i :: 0 <= i < |lines| ==> !IsDataLine(lines[i])
    ensures Messages(lines) == []
  {
    if |lines| > 0 {
      NoDataNoMessages(lines[..|lines| - 1]);
    }
  }

  /** Blank lines, comments, other fields and `data:` without its space emit nothing. */
  lemma OnlyDataLinesEmit()
    ensures Messages(["", ": ping", "event: message", "data:x"]) == []
  {
    var ls := ["", ": ping", "event: message", "data:x"];
    assert ls[1][..6][0] == ':' && ls[2][..6][0] == 'e' && DataPrefix[0] == 'd';
    assert ls[3][..6] == "data:x";
    NoDataNoMessages(ls);
  }

  /** A lone quote is kept, and an escaped quote inside is not interpreted. */
  lemma UnquoteExamples()
    ensures Unquote("\"") == "\""
    ensures Unquote("\"a\\\"b\"") == "a\\\"b"
    ensures Unquote("hello") == "hello"
  {
    assert "\"a\\\"b\""[1..5] == "a\\\"b";
  }

  // ---------------------------------------------------------------------
  // The reader and its channel

  /** An unbuffered Go channel of strings, seen through what was sent on it. */
  class Channel {
    var sent: seq<string>
    var closed: bool

    constructor ()
      ensures sent == [] && !closed
    {
      sent := [];
      closed := false;
    }

    method Send(msg: string)
      requires !closed
      modifies this
      ensures sent == old(sent) + [msg] && !closed
    {
      sent := sent + [msg];
    }

    method Close()
      modifies this
      ensures closed && sent == old(sent)
    {
      closed := true;
    }
  }

  /** The response body of a stream request: its lines, and whether it was closed. */
  class EventStream {
    const lines: seq<string>
    var closed: bool

    constructor (lines: seq<string>)
      ensures this.lines == lines && !closed
    {
      this.lines := lines;
      closed := false;
    }

    method Close()
      modifies this
      ensures closed
    {
      closed := true;
    }
  }

  /**
   * `streamReader`. Cancellation is observed through `done(i)`, the state of
   * `ctx.Done()` while line `i` is handled; when a send races with it,
   * `delivers(i)` says whether the send wins. Returns how many lines'
   * messages were delivered.
   */
  method StreamReader(stream: EventStream, out: Channel, done: nat -> bool, delivers: nat -> bool) returns (consumed: nat)
    requires !out.closed && out.sent == []
    modifies stream, out
    ensures consumed <= |stream.lines|
    ensures out.sent == Messages(stream.lines[..consumed])
    ensures out.closed && stream.closed
    ensures forall i :: 0 <= i < consumed - 1 ==> !done(i)
    ensures consumed == |stream.lines| || done(consumed) || (consumed > 0 && done(consumed - 1))
    ensures (forall i :: 0 <= i < |stream.lines| ==> !done(i)) ==> consumed == |stream.lines|
  {
    var lines := stream.lines;
    consumed := |lines|;
    var i := 0;
    while i < |lines|
      invariant 0 <= i <= |lines| && consumed == |lines|
      invariant out.sent == Messages(lines[..i]) && !out.closed
      invariant forall j :: 0 <= j < i ==> !done(j)
    {
      var line := lines[i];
      MessagesPrefix(lines, i);
      if HasPrefix(line, DataPrefix) {
        var msg := Payload(line);
        if done(i) && !delivers(i) {
          consumed := i;
          break;
        }
        out.Send(msg);
      }
      if done(i) {
        consumed := i + 1;
        break;
      }
      i := i + 1;
    }
    if consumed == |lines| {
      assert lines[..|lines|] == lines;
    }
    out.Close();
    stream.Close();
  }

  /**
   * `Subscribe` and `Monitor`: open the stream at `path`; on failure return
   * the error and start no reader, otherwise read it into a new channel.
   * Without cancellation the channel receives every message of the stream.
   */
  method Listen(c: Rest.Client, path: seq<string>, done: nat -> bool, delivers: nat -> bool) returns (r: Result<Channel, string>)
    ensures c.stream(Rest.Request(path, None)).Err? ==> r == Err(c.stream(Rest.Request(path, None)).error)
    ensures c.stream(Rest.Request(path, None)).Ok? ==> r.Ok? && fresh(r.value) && r.value.closed
    ensures r.Ok? ==> exists n ::
      && 0 <= n <= |c.stream(Rest.Request(path, None)).value|
      && r.value.sent == Messages(c.stream(Rest.Request(path, None)).value[..n])
    ensures c.stream(Rest.Request(path, None)).Ok? && (forall i :: 0 <= i < |c.stream(Rest.Request(path, None)).value| ==> !done(i)) ==>
      r.Ok? && r.value.sent == Messages(c.stream(Rest.Request(path, None)).value)
  {
    var open := c.stream(Rest.Request(path, None));
    if open.Err? {
      return Err(open.error);
    }
    var stream := new EventStream(open.value);
    var out := new Channel();
    var n := StreamReader(stream, out, done, delivers);
    assert open.value[..|open.value|] == open.value;
    r := Ok(out);
  }

  method Subscribe(c: Rest.Client, channel: string, done: nat -> bool, delivers: nat -> bool) returns (r: Result<Channel, string>)
    ensures c.stream(Rest.Request(["subscribe", channel], None)).Err? <==> r.Err?
    ensures c.stream(Rest.Request(["subscribe", channel], None)).Err? ==> r == Err(c.stream(Rest.Request(["subscribe", channel], None)).error)
    ensures r.Ok? ==> fresh(r.value) && r.value.closed
    ensures r.Ok? ==> exists n ::
      && 0 <= n <= |c.stream(Rest.Request(["subscribe", channel], None)).value|
      && r.value.sent == Messages(c.stream(Rest.Request(["subscribe", channel], None)).value[..n])
    ensures c.stream(Rest.Request(["subscribe", channel], None)).Ok? && (forall i :: 0 <= i < |c.stream(Rest.Request(["subscribe", channel], None)).value| ==> !done(i)) ==>
      r.Ok? && r.value.sent == Messages(c.stream(Rest.Request(["subscribe", channel], None)).value)
  {
    r := Listen(c, ["subscribe", channel], done, delivers);
  }

  method Monitor(c: Rest.Client, done: nat -> bool, delivers: nat -> bool) returns (r: Result<Channel, string>)
    ensures c.stream(Rest.Request(["monitor"], None)).Err? <==> r.Err?
    ensures c.stream(Rest.Request(["monitor"], None)).Err? ==> r == Err(c.stream(Rest.Request(["monitor"], None)).error)
    ensures r.Ok? ==> fresh(r.value) && r.value.closed
    ensures r.Ok? ==> exists n ::
      && 0 <= n <= |c.stream(Rest.Request(["monitor"], None)).value|
      && r.value.sent == Messages(c.stream(Rest.Request(["monitor"], None)).value[..n])
    ensures c.stream(Rest.Request(["monitor"], None)).Ok? && (forall i :: 0 <= i < |c.stream(Rest.Request(["monitor"], None)).value| ==> !done(i)) ==>
      r.Ok? && r.value.sent == Messages(c.stream(Rest.Request(["monitor"], None)).value)
  {
    r := Listen(c, ["monitor"], done, delivers);
  }

  /** `Unsubscribe`: the channels, in order, as arguments of UNSUBSCRIBE. */
  method Unsubscribe(c: Rest.Client, channels: seq<string>) returns (r: Result<Json, string>)
    ensures r == Upstash.Send(c, "UNSUBSCRIBE", Strs(channels))
  {
    var args := Replies.AppendStrings([], channels);
    assert args == Strs(channels);
    r := Upstash.Send(c, "UNSUBSCRIBE", args);
  }
}
