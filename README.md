# Upstash Redis REST client, modelled in Dafny

This project models the core of a Go client for the Upstash Redis REST API.

- **Transport.** The HTTP layer (`client/client.go`) does the following:
  - turns a Read, Write or Stream call into an HTTP request: base URL, path, headers and JSON body;
  - classifies the reply (bad status, logical `error`, `result` envelope, plain value);
  - when base64 encoding is on, walks the decoded JSON tree and decodes every string.
- **The `Upstash` facade** (`client.go`) does the following:
  - `New` fills in defaults;
  - `Send` posts `[command] ++ args`;
  - `Pipeline` and `Multi` buffer commands and send them in one request;
  - `scan` builds the SCAN family's arguments.
- **The event-stream reader** (`cmd_pubsub.go`) turns `data: ` lines into messages. Cancellation stops it early.
- **The command files** (`cmd_hashes.go`, `cmd_streams.go`, `cmd_json.go`, `cmd_generic.go`, `cmd_functions.go`, `cmd_scripting.go`) lay out each command's arguments and shape its reply.
- **The older facade** (`upstash.go`) supplies the SET and GETEX option encoders, the MSET bodies, the `%d`-formatted bodies, and the Pipeline and Multi whose `Exec` always writes.

A decoded JSON value is the datatype `Json`.

The transport is modelled over an abstract exchange: the request that was built goes in, and a status with a decoded body (or a transport error) comes out.

The newer facade of client.go is built on `internal/rest`, which is not part of this model. That client appears as `Rest.Client`, a record of three functions, `read`, `write` and `stream`, from a request to a result or an error text. The older facade of upstash.go is built instead on the client of client/client.go, modelled as `Transport` (upstash.go:17, 55). Its commands are stated over the same `Rest.Client` record. `Legacy.TransportClient` fills that record with `Transport.Read`, `Write` and `Stream`, each error becoming its `Transport.Message`, and the `…OverTransport` lemmas and `Legacy.GetExDecodesBase64` state what the older commands make of that client.

A Go type assertion on a reply panics when the reply has the wrong shape. Each such assertion is stated as a precondition on the reply, for example `NumReply(...)` for `res.(float64)`.

Every model `string` stands for a Go string as its bytes: one `char` per byte, each below 256 (`Base64.IsByteString`). JSON text is therefore its UTF-8 bytes: the Go value "é" is the two chars `\u00C3\u00A9` whether it arrives plainly or as the base64 text "w6k=". Under this reading every Go string satisfies `Transport.ByteStrings`, and `Format.LessEq` is Go's byte-wise order.

Go's map iteration order is unspecified. An operation that loops over a map therefore promises its result for SOME ordering of the keys (`IsOrdering`). The lemmas about it hold for every ordering.

Modules:

- `Wrappers`: `Option` and `Result`.
- `Json`: the `Json` datatype and lists of strings and numbers.
- `Decimal`: `%d` and Go's float printing of integers.
- `Base64`: Go's `StdEncoding` decoder, and an encoder as its partner.
- `Text`: `strings.Join` and `strings.HasPrefix`.
- `Format`: `fmt.Sprint`.
- `Transport`: `client/client.go`.
- `Rest`: the abstract REST client.
- `Replies`: the shared argument builders and reply shapers.
- `Upstash`: `client.go`.
- `PubSub`: `cmd_pubsub.go`.
- `Hashes`, `Streams`, `JsonCommands`, `Generic`, `Functions`, `Scripting`: the command files.
- `Legacy`: `upstash.go`.

## Model

| member | source | states |
|---|---|---|
| Transport.MarshalBody | client/client.go:67-77 | a nil body gives no payload, a document is sent as is, and an unmarshalable body is an error — each exactly when |
| Transport.MarshalFailsFirst | client/client.go:80-84 | an unmarshalable body fails with MarshalFailed before anything is sent: the outcome is the same whatever the exchange would have done |
| Transport.BaseUrl | client/client.go:86-89 | GET goes to the edge URL when one is set; POST, or no edge URL, goes to the main URL |
| Transport.TargetUrl | client/client.go:91 | the URL is the base, one slash, then the path segments joined by slashes (`Text.SplitJoin` recovers the segments) |
| Transport.BuildRequest | client/client.go:86-101 | the built request keeps the verb and payload, goes to the routed base URL followed by a slash, and carries the bearer token |
| Transport.Interpret | client/client.go:111-162 | a value comes back only for a 2xx status with a JSON body; any other status is a bad-status or undecodable-bad-response error; a logical error has non-empty text; no other error kind arises here |
| Transport.Outcome | client/client.go:92-109 | a request that cannot be created or performed fails with the matching error and no other; a value comes back only from a 2xx response |
| Transport.Request | client/client.go:80-162 | a marshal failure happens exactly when the body cannot be marshalled, and then nothing is sent |
| Transport.Read | client/client.go:191-193 | a read never fails to marshal, since it sends no body |
| Transport.Write | client/client.go:196-198 | a write fails to marshal exactly when its body cannot be marshalled |
| Transport.Stream | client/client.go:200-223 | the body comes back exactly for a 2xx response, unread; every failure is a create, perform or status error of the stream |
| Transport.ReadRouting | client/client.go:86-91 | `Read` is a GET with no payload to `edgeUrl/path` when an edge URL is set and to `url/path` otherwise, and its result is that exchange's outcome |
| Transport.WriteRouting | client/client.go:196-198 | `Write` is a POST to `url/path` carrying the body, whatever the edge URL |
| Transport.TargetUrlExample | client/client.go:91 | path ["get","foo"] is requested at `<base>/get/foo` |
| Transport.RequestHeaders | client/client.go:97-101 | Authorization `Bearer <token>` and JSON Content-Type are always set; Upstash-Encoding base64 is set if and only if base64 is enabled; no Accept header |
| Transport.Base64HeaderIff | client/client.go:97-101 | every request built for Read or Write carries the base64 header exactly when base64 is enabled, and always the bearer token |
| Transport.StreamHeaders | client/client.go:209-210 | a stream request sends Authorization and `Accept: text/event-stream` and never the base64 or Content-Type header |
| Transport.StreamRouting | client/client.go:200-210 | `Stream` always goes to the main URL, asks for an event stream and never for base64 |
| Transport.BadStatusIsError | client/client.go:111-125 | any status outside [200,300) is an error carrying that status, never a result; it is a bad-status error exactly when the body decodes as a JSON object (or null), else a decode error |
| Transport.Message | client/client.go:81-219 | defined as the leading text of each error `request` and `Stream` return: the marshal, create, perform, decode, unmarshal and stream wrappers, and the server's own text for a logical error; `MessageWrapsCause` and `StatusErrorsNameTheCode` are its partners |
| Transport.MessageWrapsCause | client/client.go:81-219 | an error that wraps a cause ends with the cause's text, and a logical error is exactly the server's text |
| Transport.StatusErrorsNameTheCode | client/client.go:122-124 | a bad-status error's message begins "response returned status code N", a stream-status error's "stream request returned status code N", N being the status in decimal |
| Transport.UndecodableReply | client/client.go:127-131 | a 2xx body that is not JSON is an unmarshal error |
| Transport.LogicalErrorWins | client/client.go:134-137 | a non-empty string `error` fails with exactly that text, even when `result` is present |
| Transport.ResultIsReturned | client/client.go:138-143 | with no such error (absent, empty or not a string), a present `result` key, even null, gives its (decoded) value |
| Transport.PlainReplies | client/client.go:144-162 | with base64 off, an object without error or result, an array or any other value is returned exactly as decoded |
| Transport.DecodeString | client/client.go:167-175 | "OK" is kept; a string that is valid padded standard base64 is replaced by what it encodes; any other string is kept |
| Transport.DecodeTree | client/client.go:165-189 | the walk keeps array length and order, a map's key set, and every non-string value; strings are decoded as above |
| Transport.DecodeBase64 | client/client.go:165-189 | the in-place loops over arrays and maps compute exactly the decoded tree |
| Transport.DecodeTreeEncodeTree | client/client.go:165-189 | decoding undoes the server's base64 encoding of every string (every model string being a Go byte string, one char per byte): the client sees the original values |
| Transport.DecodeStringExamples | client/client.go:168-175 | "OK" stays "OK" and "YmFy" decodes to "bar" |
| Base64.DecodeEncode | client/client.go:171 | `StdEncoding` decoding of the padded encoding of any byte string gives that string back |
| Base64.DecodeQuantaEncode | client/client.go:171 | the decoder inverts the encoder quantum by quantum, including the one- and two-byte padded tails |
| Base64.DecodeGroup | client/client.go:171 | four alphabet characters decode to the three bytes they encode |
| Base64.DecodeOneByte | client/client.go:171 | a final `xx==` group decodes to its one byte |
| Base64.DecodeTwoBytes | client/client.go:171 | a final `xxx=` group decodes to its two bytes |
| Base64.Bytes3Inverts | client/client.go:171 | splitting three bytes into four sextets and joining them back is the identity |
| Base64.StripNewlinesIdentity | client/client.go:171 | text without CR or LF is unchanged by the newline skipping |
| Base64.StripNewlines | client/client.go:171 | the decoder skips CR and LF: what it reads is no longer than the input and holds neither |
| Base64.Encode | client/client.go:171 | the padded encoding is a whole number of four-character quanta and holds no CR or LF |
| Base64.DecodeQuantaLength | client/client.go:171 | only text made of whole four-character quanta decodes |
| Base64.RejectsPartialQuantum | client/client.go:171-174 | text whose length, once CR and LF are skipped, is not a multiple of four does not decode, so it is kept |
| Base64.OkDoesNotDecode | client/client.go:168-171 | "OK" would not decode anyway: two characters are not a quantum |
| Base64.DecodeBar | client/client.go:171 | "YmFy" decodes to "bar" |
| Base64.SextetOfAlphabetChar | client/client.go:171 | each alphabet character maps back to its sextet |
| Base64.BytesToString | client/client.go:175 | `string(decoded)` keeps the bytes in order, one character per byte |
| Base64.StringToBytes | client/client.go:175 | a byte string turns back into the same bytes |
| Upstash.New | client.go:69-106 | `New` passes exactly eight of the configured options to the REST client: the URLs, the token, base64, telemetry, retries, backoff and the HTTP client; retries, backoff and client are never left unset |
| Upstash.UnusedOptions | client.go:101-102 | `ReadFromEdge`, `EnableAutoPipelining` and `AutoPipelineWindow` do not change what the REST client is built with |
| Upstash.Configure | client.go:69-99 | the options after `New`'s defaulting are complete (no zero-valued default left), and the flags the caller set are kept |
| Upstash.ConfigureReplacesOnlyZeros | client.go:87-99 | Retries 0 becomes 5, a nil backoff the default, a nil HTTP client a new one, window 0 becomes 50ms; every non-zero supplied value is kept; other fields fall back to the environment only when empty |
| Upstash.ConfigureIdempotent | client.go:87-99 | configured options have no zero left, and configuring them again changes nothing |
| Upstash.ConfigureKeepsSupplied | client.go:69-99 | complete options that give both URLs and the token and disable telemetry are returned unchanged, whatever the environment |
| Upstash.CommandBody | client.go:111-121 | the body is the command name followed by its arguments in order |
| Upstash.CommandBodyInjective | client.go:111-121 | distinct commands or argument lists give distinct bodies |
| Upstash.Send | client.go:111-121 | defined as one Write with an empty path whose body is `CommandBody(command, args)`; `CommandBodyInjective` is its partner |
| Upstash.Batch | client.go:151-155 | the batch body holds one list per buffered command, in push order |
| Upstash.ExecEmptyWritesNothing | client.go:147-150 | `Exec` on an empty buffer returns an empty list whatever the client would answer: no Write happens |
| Upstash.BatchResult | client.go:156-168 | an error passes through; nil gives no result; a list is returned as is; every other reply is an error |
| Upstash.ExecBatch | client.go:147-168 | an empty buffer gives an empty list, and only a non-empty buffer can fail or give no result |
| Upstash.ExecNonEmpty | client.go:151-168 | a non-empty buffer is one Write of the whole batch to the path; a nil answer gives no result, a list is returned unchanged, anything else is an "unexpected return type" error |
| Upstash.Pipeline.constructor | client.go:130-135 | a new pipeline has an empty buffer |
| Upstash.Pipeline.Push | client.go:138-143 | exactly one command `[command] ++ args` is appended at the end; earlier commands are unchanged |
| Upstash.Pipeline.Exec | client.go:147-168 | the result is the batch execution of the whole buffer at `pipeline`; the buffer is not cleared |
| Upstash.Multi.constructor | client.go:177-182 | a new transaction has an empty buffer |
| Upstash.Multi.Push | client.go:218-223 | exactly one command is appended at the end; earlier commands are unchanged |
| Upstash.Multi.Discard | client.go:213-215 | the buffer becomes empty |
| Upstash.Multi.Exec | client.go:227-248 | the result is the batch execution of the whole buffer at `multi-exec`; the buffer is not cleared |
| Upstash.Tx | client.go:185-187 | `Tx` is a fresh, empty `Multi` on the same client |
| Upstash.DiscardThenExec | client.go:213-215 | push, discard, then exec gives an empty list |
| Upstash.ScanArgs | client.go:250-265 | the key (when given) comes first, then the cursor; the options come in pairs, so the length is even exactly when a key is given |
| Upstash.BuildScanArgs | client.go:250-265 | the appends build the SCAN argument list: key only if non-empty, cursor, MATCH m if m is set, COUNT c if c≠0, TYPE t only for SCAN |
| Upstash.ScanArgsRoundTrip | client.go:250-265 | the server reads back key, cursor and every option that was set (TYPE only for SCAN), in that order |
| Upstash.ShapeScan | client.go:271-282 | Cursor is the printed first element; Items are the printed elements of the second, same length and order |
| Upstash.Scan | client.go:250-283 | an error passes through; otherwise the reply is shaped as above |
| PubSub.Unquote | cmd_pubsub.go:79-81 | one leading and one trailing quote are removed exactly when the text has length ≥ 2 and starts and ends with `"`; anything else, a lone `"` included, is kept |
| PubSub.UnquoteExamples | cmd_pubsub.go:79-81 | a lone quote is kept, escapes are not interpreted, unquoted text is kept |
| PubSub.UnquoteQuoted | cmd_pubsub.go:79-81 | quoting any text and unquoting it gives it back |
| PubSub.Emit | cmd_pubsub.go:75-81 | defined as one message, the payload, for a `data: ` line and nothing for any other line; `EmitsAtMostOne` and `OnlyDataLinesEmit` are its partners |
| PubSub.EmitsAtMostOne | cmd_pubsub.go:75-81 | a line emits one message exactly when it starts with `data: `, otherwise none |
| PubSub.OnlyDataLinesEmit | cmd_pubsub.go:75-76 | blank, comment, other-field and `data:` lines without the space emit nothing |
| PubSub.Payload | cmd_pubsub.go:76-81 | defined as the data line with `data: ` removed and then unquoted; `FramePayload` is its partner |
| PubSub.Messages | cmd_pubsub.go:73-87 | defined as the messages of the lines in line order, each line adding what it emits; `MessagesAppend` and `ReadsBackFrames` are its partners |
| PubSub.NoDataNoMessages | cmd_pubsub.go:73-87 | lines with no data line among them produce no messages |
| PubSub.MessagesAppend | cmd_pubsub.go:73-87 | messages come out in line order: the messages of `a + b` are those of `a` followed by those of `b` |
| PubSub.FramePayload | cmd_pubsub.go:75-81 | a message framed as `data: "msg"` is read back as `msg` |
| PubSub.ReadsBackFrames | cmd_pubsub.go:73-87 | framed messages interleaved with any non-data lines are read back exactly, in order |
| PubSub.Channel.Send | cmd_pubsub.go:82-87 | a send on an open channel appends the message |
| PubSub.Channel.Close | cmd_pubsub.go:71 | closing keeps what was sent |
| PubSub.EventStream.Close | cmd_pubsub.go:68-70 | the stream is closed |
| PubSub.StreamReader | cmd_pubsub.go:67-95 | what was sent is exactly the messages of the lines consumed, a prefix of the input; output channel and stream are both closed; no cancellation was seen before the last line consumed; it stops at end of input or on cancellation, and without cancellation it consumes every line |
| PubSub.Listen | cmd_pubsub.go:22-47 | if opening fails that error is returned and no reader runs; otherwise a fresh, closed channel holds the messages of a prefix of the lines, and of all the lines when no cancellation is observed |
| PubSub.Subscribe | cmd_pubsub.go:22-33 | opens path ["subscribe", channel]; fails exactly when opening fails, returning that error; without cancellation the channel receives every message of the stream |
| PubSub.Monitor | cmd_pubsub.go:36-47 | opens path ["monitor"]; fails exactly when opening fails, returning that error; without cancellation the channel receives every message of the stream |
| PubSub.Unsubscribe | cmd_pubsub.go:59-65 | sends UNSUBSCRIBE with the channels in order |
| Replies.TypeName | cmd_generic.go:36 | defined as Go's `%T` of each kind of decoded value; `TypeNameIdentifiesKind` is its partner |
| Replies.TypeNameIdentifiesKind | cmd_generic.go:36 | two decoded values have the same `%T` text exactly when they are of the same kind |
| Replies.AsInt | cmd_hashes.go:10-14 | the error passes through unchanged; otherwise the number the reply is |
| Replies.AsString | cmd_generic.go:155-162 | the error passes through unchanged; otherwise the string the reply is |
| Replies.AsStringOrEmpty | cmd_hashes.go:19-26 | the error passes through; nil is ""; a string reply gives what `AsString` gives |
| Replies.AsList | cmd_hashes.go:35 | the error passes through unchanged; otherwise the elements of the list the reply is |
| Replies.AppendStrings | cmd_hashes.go:45-49 | appending strings one by one gives the prefix followed by the strings in order |
| Replies.AppendNums | cmd_json.go:212-215 | appending ints one by one gives the prefix followed by the numbers in order |
| Replies.StringsOf | cmd_hashes.go:104-108 | one string per element, same length and order |
| Replies.StringsOrEmpty | cmd_hashes.go:124-131 | same length and order; nil is "" and a string is itself |
| Replies.IntsOf | cmd_json.go:266-275 | same length and order; nil is 0 and a number is itself |
| Replies.SprintAll | cmd_generic.go:24-27 | each element printed with `fmt.Sprint`, same length and order |
| Replies.Pairs | cmd_hashes.go:36-39 | defined as the map built by assigning each odd element to the even element before it, in list order; `PairsDomain` and `PairsLaterWins` are its partners |
| Replies.FoldPairs | cmd_hashes.go:37-39 | the stride-2 loop builds exactly the folded map of the pairs |
| Replies.PairsDomain | cmd_hashes.go:37-39 | a field is in the map exactly when it occurs at an even position |
| Replies.PairsLaterWins | cmd_hashes.go:37-39 | a repeated field keeps the value of its last occurrence |
| Replies.Interleave | cmd_hashes.go:138-140 | flattening a map in a key order gives an even-length list of strings, two per key |
| Replies.PairsInterleave | cmd_hashes.go:138-140 | whatever the key order, folding the flattened entries gives the map back, and the list is twice the map's size |
| Replies.AppendPairs | cmd_hashes.go:138-140 | the map loop appends each entry as adjacent field, value, in some ordering of all the keys |
| Hashes.HSet | cmd_hashes.go:9-15 | the body is HSET, key, field, value |
| Hashes.HGet | cmd_hashes.go:18-27 | a nil reply is "", a string is returned, an error passes through |
| Hashes.HGetAll | cmd_hashes.go:30-41 | an error passes through; otherwise the result is the flat reply folded into a map |
| Hashes.HDel | cmd_hashes.go:44-55 | the arguments are the key then the fields in order |
| Hashes.HKeys | cmd_hashes.go:99-110 | one string per reply element, in order |
| Hashes.HMGet | cmd_hashes.go:113-133 | the arguments are the key then the fields; the result has the reply's length and order, nil read as "" |
| Hashes.HMSet | cmd_hashes.go:136-147 | the arguments are the key then each entry as adjacent field, value, in some ordering of all the keys |
| Hashes.HMSetArgsFoldBack | cmd_hashes.go:136-141 | those arguments have length 1 + 2·\|kv\|, and folding everything after the key gives the map back |
| Hashes.HVals | cmd_hashes.go:168-179 | one string per reply element, in order |
| Streams.StreamMessages | cmd_streams.go:58-78 | a nil reply is no messages; otherwise one message per entry |
| Streams.ParseStreamMessages | cmd_streams.go:58-78 | the loops compute exactly the messages: entry i gives ID entry[0] and the values folded from entry[1] |
| Streams.ParseRendered | cmd_streams.go:58-78 | whatever order each entry's pairs come in, parsing gives back every message's id and values |
| Streams.RangeArgs | cmd_streams.go:31-36 | key, start and stop come first; COUNT count[0] follows exactly when a count is given; nothing else |
| Streams.XRange | cmd_streams.go:31-42 | the arguments are key, start, stop, then COUNT count[0] only when a count is given; the reply is parsed |
| Streams.XRevRange | cmd_streams.go:45-56 | the same layout under XREVRANGE |
| Streams.Range | cmd_streams.go:31-56 | the shared body: an error passes through, a reply is parsed into messages |
| Streams.RangeCountFirstOnly | cmd_streams.go:34-36 | extra counts are ignored; with no count only the three positional arguments are sent |
| Streams.XAdd | cmd_streams.go:8-19 | the arguments are key, id, then each value as field, value, in some ordering of all the fields |
| Streams.XAddArgsFoldBack | cmd_streams.go:8-13 | those arguments have length 2 + 2·\|values\|, and folding everything after key and id gives the values back |
| Streams.XAck | cmd_streams.go:81-92 | the arguments are key, group, then the ids in order |
| Streams.XDel | cmd_streams.go:95-106 | the arguments are key, then the ids in order |
| Streams.XTrim | cmd_streams.go:138-147 | the arguments are key, strategy, threshold, then the extra arguments |
| Streams.StreamKeysAndIds | cmd_streams.go:126-131 | the map loop lists every stream once, and the i-th id is the id of the i-th key |
| Streams.XReadArgs | cmd_streams.go:117-134 | after the COUNT/BLOCK head comes STREAMS, then one key and one id per stream |
| Streams.XRead | cmd_streams.go:117-135 | the arguments are COUNT n only if n>0, BLOCK b only if b≥0, STREAMS, all keys, then all ids, for some ordering of all the streams |
| Streams.IdsOf | cmd_streams.go:128-131 | there is one id per key, and the i-th is that key's id |
| Streams.ZipKeysIds | cmd_streams.go:132-133 | pairing the key half with the id half maps each key to its own id |
| Streams.XReadPairsRoundTrip | cmd_streams.go:125-133 | the server recovers exactly the streams map from what follows STREAMS |
| JsonCommands.IntOrZero | cmd_json.go:270-272 | nil is 0 and a number is itself |
| JsonCommands.IntList | cmd_json.go:266-275 | an error passes through; otherwise one int per reply element, in order, nil read as 0 |
| JsonCommands.JsonGet | cmd_json.go:18-25 | the arguments are the key then the paths in order; the reply is returned as is |
| JsonCommands.JsonMGet | cmd_json.go:37-48 | the arguments are all keys in order, then the path last |
| JsonCommands.KeyPaths | cmd_json.go:95-120 | the arguments are the key then the paths in order |
| JsonCommands.JsonClear | cmd_json.go:95-106 | JSON.CLEAR with the key then the paths |
| JsonCommands.JsonForget | cmd_json.go:109-120 | JSON.FORGET with the key then the paths |
| JsonCommands.ArrPopArgs | cmd_json.go:237-240 | two arguments with no index, three with one |
| JsonCommands.ArrPopFirstIndexOnly | cmd_json.go:236-246 | only the first index is passed, and none when omitted |
| JsonCommands.JsonArrPop | cmd_json.go:236-246 | JSON.ARRPOP with those arguments; the reply list is returned |
| JsonCommands.JsonArrIndex | cmd_json.go:211-221 | the arguments are key, path, value, then start and end; the reply is shaped as an int list |
| JsonCommands.JsonArrInsert | cmd_json.go:224-233 | the arguments are key, path, index, then the values; the reply is shaped as an int list |
| JsonCommands.JsonArrAppend | cmd_json.go:60-76 | the arguments are key, path, then the values; the reply is shaped as an int list |
| JsonCommands.KeyPathInts | cmd_json.go:79-92 | JSON.ARRLEN, JSON.OBJLEN and JSON.STRLEN send key and path and shape the reply as an int list |
| JsonCommands.JsonStrAppend | cmd_json.go:174-187 | the arguments are key, path, value; the reply is shaped as an int list |
| JsonCommands.JsonArrTrim | cmd_json.go:249-255 | the arguments are key, path, start, stop; the reply is shaped as an int list |
| JsonCommands.JsonObjKeys | cmd_json.go:141-155 | a nil reply stays nil; otherwise one string per element, in order |
| Generic.KeysResult | cmd_generic.go:18-36 | nil is an empty list; a decoded list gives one printed element each, same length; a `[]string` is returned unchanged; anything else, and only that, is an error |
| Generic.KeysOf | cmd_generic.go:18-36 | the loop computes exactly that conversion |
| Generic.Keys | cmd_generic.go:11-17 | a Read on path ["keys", pattern]; an error passes through, a reply is converted |
| Generic.KeysOfNames | cmd_generic.go:23-28 | a list of key names is returned exactly as the server listed it |
| Generic.KeysRejects | cmd_generic.go:36 | a string or number reply is an "unexpected return type for keys" error naming its Go type |
| Generic.KeysCommand | cmd_generic.go:40-50 | the arguments are the keys in input order |
| Generic.Del | cmd_generic.go:40-50 | DEL with the keys in order |
| Generic.Exists | cmd_generic.go:53-63 | EXISTS with the keys in order |
| Generic.Touch | cmd_generic.go:181-191 | TOUCH with the keys in order |
| Generic.Unlink | cmd_generic.go:203-213 | UNLINK with the keys in order |
| Generic.Dump | cmd_generic.go:106-115 | a nil reply is "" |
| Generic.RandomKey | cmd_generic.go:154-163 | a nil reply is "" |
| Generic.BuildMigrateTail | cmd_generic.go:219-230 | COPY if copy, REPLACE if replace, then KEYS and the keys only when there are keys |
| Generic.MigrateArgs | cmd_generic.go:216-229 | host, port, key, db and timeout come first, and the server reads the flags and keys after them back as given |
| Generic.Migrate | cmd_generic.go:216-236 | the arguments are host, port, key, db, timeout, then that tail |
| Generic.MigrateTailRoundTrip | cmd_generic.go:219-230 | the server reads back both flags and the key list as given |
| Generic.RestoreArgs | cmd_generic.go:297-300 | key, ttl, serialized value, then REPLACE if and only if replace |
| Generic.Restore | cmd_generic.go:296-306 | RESTORE with those arguments |
| Generic.Sort | cmd_generic.go:244-249 | SORT with the key then the arguments |
| Generic.SortRO | cmd_generic.go:252-257 | SORT_RO with the key then the arguments |
| Scripting.NumkeysLayout | cmd_scripting.go:9-14 | the head, then the count slot holding the number of keys, then the keys and the args: 2 + keys + args elements |
| Scripting.NumkeysArgs | cmd_scripting.go:9-14 | the appends give head, number of keys, the keys in order, then the args |
| Scripting.NumkeysRoundTrip | cmd_scripting.go:9-14 | the numkeys slot counts exactly the keys, so the server recovers head, keys and args as given |
| Scripting.NoKeys | cmd_scripting.go:10-14 | with no keys the count is 0 and the args follow it directly |
| Scripting.Eval | cmd_scripting.go:8-16 | EVAL with the numkeys layout |
| Scripting.EvalSha | cmd_scripting.go:19-27 | EVALSHA with the same layout, the digest first |
| Scripting.ScriptLoad | cmd_scripting.go:30-36 | SCRIPT with LOAD and the script |
| Scripting.ScriptLoadBody | cmd_scripting.go:31 | the body posted is SCRIPT, LOAD, script |
| Functions.FCall | cmd_functions.go:8-16 | FCALL with the numkeys layout |
| Functions.FCallRO | cmd_functions.go:19-27 | FCALL_RO with the numkeys layout |
| Functions.LoadArgs | cmd_functions.go:31-35 | LOAD first, the payload last, REPLACE between them if and only if replace |
| Functions.FunctionLoad | cmd_functions.go:30-41 | FUNCTION with those arguments |
| Functions.ListArgs | cmd_functions.go:45-48 | LIST, plus LIBRARYNAME and the first name only when a name is given |
| Functions.FunctionList | cmd_functions.go:44-54 | FUNCTION with those arguments; the reply list is returned |
| Functions.FunctionDelete | cmd_functions.go:57-63 | FUNCTION DELETE name |
| Functions.FunctionFlush | cmd_functions.go:66-72 | FUNCTION FLUSH |
| Functions.FunctionStats | cmd_functions.go:75-77 | FUNCTION STATS |
| Legacy.New | upstash.go:42-57 | the client of client/client.go gets the caller's URLs and token when given (the environment otherwise) and the caller's base64 flag |
| Legacy.NewAgreesWithNewer | upstash.go:42-57 | from the same options both generations reach the same URLs with the same token and encoding, and `ReadFromEdge` changes nothing |
| Legacy.TransportClient | upstash.go:55 | defined as `Read`, `Write` and `Stream` of client/client.go, each error reaching the facade as its `Message`; the lemmas below instantiate the facade with it |
| Legacy.ErrorText | upstash.go:55 | a result of client/client.go as the facade gets it: the same value, or the error's message |
| Legacy.SetOverTransport | upstash.go:305-311 | over client/client.go a SET body always marshals, it fails exactly when the transport fails, and the report ends with the transport's message |
| Legacy.ExecAlwaysOverTransport | upstash.go:444-462 | over client/client.go a failed batch is reported by the transport's message, and a reply is read by `BatchResult` |
| Legacy.GetExDecodesBase64 | upstash.go:138-163 | over client/client.go with base64 on, a reply the server encoded comes back to `GetEx` as the original string |
| Legacy.SetTail | upstash.go:293-302 | at most three option words, and none exactly when no option is set |
| Legacy.SetWithOptions | upstash.go:291-312 | no error exactly when the Write succeeds |
| Legacy.SetBody | upstash.go:292-303 | set, key, value come first, followed by at most three option words |
| Legacy.SetTailRoundTrip | upstash.go:292-303 | the server reads back the winning options: `ex N` if EX≠0 else `px N` if PX≠0, then `nx` if NX else `xx` if XX |
| Legacy.SetWinsKeeps | upstash.go:294-303 | options that already obey the precedence are sent unchanged |
| Legacy.SetWithOptionsReports | upstash.go:305-311 | success reports no error; a failed Write is reported as `error [set key value …]: <cause>` |
| Legacy.GetExTail | upstash.go:140-150 | at most one option group of at most two words, and none exactly when no option is set |
| Legacy.GetExBody | upstash.go:139-150 | getex and key come first, followed by at most one option group |
| Legacy.GetExTailRoundTrip | upstash.go:139-150 | the server reads back the single winning option, by priority EX, PX, EXAT, PXAT, PERSIST |
| Legacy.GetEx | upstash.go:138-163 | a nil reply is "", a string is returned, an error passes through |
| Legacy.KVBodyPositions | upstash.go:244-248 | the body has length 1 + 2n; position 1+2i is the i-th key and 2+2i its value |
| Legacy.KVBody | upstash.go:245-248 | defined as the name followed by each key and value in order; `KVBodyPositions` is its partner |
| Legacy.BuildKVBody | upstash.go:245-248 | the loop builds exactly that body |
| Legacy.MSet | upstash.go:244-254 | only the Write's error is reported |
| Legacy.MSetNX | upstash.go:257-273 | nil is 0, a number is returned, an error passes through |
| Legacy.ErrorOf | upstash.go:250-253 | no error exactly when the Write succeeded |
| Legacy.DecrBy | upstash.go:111-119 | the body is decrby, key, the decrement in decimal |
| Legacy.IncrBy | upstash.go:201-209 | the body is incrby, key, the increment in decimal |
| Legacy.SetEX | upstash.go:315-320 | the body is setex, key, seconds in decimal, value |
| Legacy.PSetEX | upstash.go:276-281 | the body is psetex, key, milliseconds in decimal, value |
| Legacy.DecimalArgument | upstash.go:113 | the `%d` text reads back as the number, and distinct numbers give distinct bodies |
| Decimal.DecimalString | upstash.go:113 | defined as `%d`: a minus sign for negatives, then the digits; `ParseDecimalString` and `DecimalStringInjective` are its partners |
| Decimal.ParseDecimalString | upstash.go:113 | decimal text of any integer parses back to it |
| Decimal.DecimalStringInjective | upstash.go:113 | distinct integers have distinct decimal texts |
| Legacy.ExecAlways | upstash.go:444-462 | defined as one Write of the whole batch, empty or not, read by `BatchResult`; `ExecAgreesWhenNonEmpty` and `EmptyExecDiffers` are its partners |
| Legacy.ExecAgreesWhenNonEmpty | upstash.go:444-462 | with commands buffered, the older `Exec` gives the same result as the newer one |
| Legacy.EmptyExecDiffers | upstash.go:444-462 | on an empty buffer the older `Exec` still writes, so a nil answer gives no result where the newer one gives an empty list |
| Legacy.Pipeline.constructor | upstash.go:426-432 | a new pipeline has an empty buffer on the given client |
| Legacy.Pipeline.Push | upstash.go:435-440 | exactly one command is appended at the end |
| Legacy.Pipeline.Exec | upstash.go:444-462 | one Write of the whole buffer to `pipeline`, even when it is empty |
| Legacy.Multi.constructor | upstash.go:470-476 | a new transaction has an empty buffer on the given client |
| Legacy.Multi.Push | upstash.go:479-484 | exactly one command is appended at the end |
| Legacy.Multi.Exec | upstash.go:488-506 | one Write of the whole buffer to `multi-exec`, even when it is empty |
| Format.Sprint | cmd_generic.go:26 | defined as `fmt.Sprint` of a decoded value: `<nil>`, true/false, the float text of a number, a string as is, lists as `[a b]`, maps as `map[k:v]` with sorted keys; `SprintList` and `SortedKeys` are its partners |
| Format.SortedKeys | cmd_generic.go:26 | `fmt.Sprint` prints a map's keys in sorted order: each key exactly once, strictly increasing |
| Format.LessEqTotal | cmd_generic.go:26 | the byte-wise key order is total |
| Format.LessEqTransitive | cmd_generic.go:26 | the byte-wise key order is transitive |
| Format.LessEqAntisymmetric | cmd_generic.go:26 | the byte-wise key order is antisymmetric |
| Format.SprintList | cmd_generic.go:26 | a list of strings prints as `[a b]` |
| Decimal.FloatText | client.go:272 | defined as `%v` of a whole float64: the digits below a million, exponent form `d.ddde+XX` from a million on; `FloatTextSmall` and `FloatTextMillion` are its partners |
| Decimal.FloatTextSmall | client.go:272 | a whole float64 below a million in magnitude prints as its decimal digits |
| Decimal.FloatTextMillion | client.go:272 | 1000000 prints as `1e+06` |
| Json.ParseStringsStrs | cmd_scripting.go:11-13 | a list of string arguments reads back as the strings |
| Text.SplitJoin | client/client.go:91 | splitting a joined path at "/" gives back its segments when none holds "/" |

## Left out

- Strings are byte strings: a model string holds the bytes of the Go string, so text outside ASCII appears as its UTF-8 bytes and is never decoded into Unicode characters. Characters from U+0100 up stand for no Go string.
- Network I/O is left out: `http.NewRequestWithContext`, `httpClient.Do` and closing response bodies are replaced by an abstract exchange that answers a built request with a status and decoded body, or a transport error.
- JSON encoding and decoding are trusted. A body is either a `Json` value or not JSON at all.
- Transport.Message: only the leading words of the two bad-status errors are modelled. Go's status line, the pretty-printed body and the path that follow them are not.
- Transport.DecodeBase64 overwrites the Go slice and map in place. The model returns the new tree instead, so the aliasing with the caller's value is not captured.
- Retries, backoff, telemetry and latency logging are not part of this model. They live in `internal/rest`, which is not shown; `New` only configures them.
- Upstash.New: `ReadFromEdge`, `EnableAutoPipelining` and `AutoPipelineWindow` have no effect in this generation of the client. `New` defaults the window to 50 ms (client.go:97-98) but passes none of the three to `rest.New` (client.go:101-102), so nothing reads them; `Upstash.UnusedOptions` states this.
- Legacy.New: `ReadFromEdge` of upstash.go is likewise never read. The older commands other than SET, GETEX and Exec are stated over an arbitrary `Rest.Client`; what they make of the client of client/client.go follows by instantiating them with `Legacy.TransportClient`, as the three lemmas about it do.
- Upstash.New: `Options` is reduced to the fields that decide the configuration. `LatencyLogger`, a callback that `New` passes on to the REST client unchanged (client.go:64-65, 102), is dropped, because the latency logging it feeds is not part of this model. The default backoff and the new HTTP client are opaque tags, because they are floating-point timing code and a library object.
- Numbers are unbounded integers. float64 rounding, `float64→int` truncation and fractional replies are not modelled.
- Float-returning commands are left out: `IncrByFloat`, `HIncrByFloat`, `JsonNumIncrBy`, `JsonNumMultBy`, `ZScore` and the geo commands.
- Format.Sprint prints only integral numbers. It follows Go's shortest `%v` form (exponent form from a million on) exactly up to 2^53, where float64 holds the integer; Go's rounding beyond that is not modelled.
- Concurrency in `Subscribe` and `Monitor` is not modelled. The goroutine, the unbuffered channel and the `select` on `ctx.Done()` are replaced by two oracles: `done(i)` tells whether cancellation is observed after line i, and `delivers(i)` whether the send of line i's message wins the race.
- PubSub.StreamReader: `bufio.Scanner` mechanics (line splitting, CR stripping, the 64 KiB token limit) are not modelled. The stream is a sequence of lines.
- PubSub.Listen: the reader runs to completion before the channel is returned. The consumer's view while the reader is running is not modelled.
- A type assertion that would panic on a malformed reply is a precondition on the reply (`NumReply`, `StringReply`, `ListReply`, `PairList`, `EntriesShaped` and the like). The panic itself is not modelled.
- Go's map iteration order in `HMSet`, `XAdd` and `XRead`, and in the map walk of `decodeBase64`, is not fixed. Results are stated for some ordering of the keys; the lemmas hold for every ordering.
- Pure pass-through commands are left out: one `Send` with the parameters in order plus a cast, adding nothing beyond `Send`'s `[command] ++ args`. These are:
  - cmd_bitmaps.go, cmd_sorted_sets.go, cmd_sets.go, cmd_lists.go, cmd_server.go, cmd_hyperloglog.go, cmd_connection.go, streams.go and cmd_geo.go;
  - `Publish`, `PubSub`, `Watch`, `Unwatch`, `XLen`, `XGroup`, `JsonSet`, `JsonDel`, `JsonType`, `JsonMerge` and `JsonToggle`;
  - the single-key integer and string readers of cmd_generic.go and cmd_hashes.go.
- `Keys` of upstash.go (upstash.go:60-87) is not modelled separately: it is the same conversion as `Keys` of cmd_generic.go, `[]string` fallback included, and `Generic.Keys` models both.
- The older `Send` (upstash.go:408-418) is `Upstash.Send`: same body, same path.
- The older `streamReader` (upstash.go:902-930) is the same loop as cmd_pubsub.go's and is modelled once, as `PubSub.StreamReader`.
- Upstash.ScanArgsRoundTrip assumes the key is empty exactly for SCAN. `HScan`, `SScan` and `ZScan` called with an empty key drop it from the arguments, and the server then reads the cursor as the key.
- Environment-variable fallbacks in `New` are a map parameter `env`; reading the process environment is not modelled.
- Generic.KeysResult: the `[]string` fallback can only come from a different REST client implementation, so it is an input case (`StringSlice`) and not something the modelled client produces.
