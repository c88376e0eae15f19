# Streaming chat-completion consumer of the SenseAuto load test

This project models the one piece of real logic in the Locust load-test user
`SenseAutoApiUser`: the task `sense_chat_streaming_response`, which posts a
chat request, reads the streamed reply line by line in the server-sent-events
style (`data: <payload>` lines ending with a `[DONE]` sentinel), measures when
the first non-blank text arrived and when the sentinel arrived, keeps the
first finish reason, assembles the message, and builds one metrics record.
It also models how each simulated user gets its id from a counter shared by
the class.

Modules:

- `Wrappers` (`wrappers.dfy`): `Option` and `Result`.
- `JsonValue` (`json_value.dfy`): a decoded JSON document and the lookup chain
  `sse.get("data", {}).get('choices', [{}])[0].get(...)`, including the
  exceptions it can raise.
- `Frames` (`frames.dfy`): how one line is read — six characters cut off
  unchecked, substring search for `[DONE]`, otherwise decode and extract.
- `Consumer` (`consumer.dfy`): the loop body as a function `Step`, the fold
  `Run` over all lines, and the imperative loop `ConsumeLines` (four local
  variables, as in the source) proved equal to `Run`.
- `ConsumerProperties` (`consumer_properties.dfy`): an independent,
  line-by-line description `Expected` of the final state (last sentinel, first
  latching finish reason, first non-blank delta, every data delta from there
  on) and the lemmas tying `Run` to it, plus an exact characterisation of when
  and where the loop raises.
- `ChatResult` (`chat_result.dfy`): the content-type switch, `''.join`, the
  record, and the whole task as a method.
- `Scenarios` (`scenarios.dfy`): two example streams.
- `Users` (`users.dfy`): the shared user counter and user creation.

Modelling choices:

- `json.loads` and `response.json()` are a caller-supplied total function
  `string -> Option<Json>`; `None` stands for "raised".
- `time.time()` is the `at` field of each line: the clock reading taken while
  that line is processed, in whole milliseconds. The request start is a
  parameter.
- A Python exception ends the task before any record is logged. It is an
  `Err` outcome here, which names the line that raised and why.
- `x is not ""` is read as `x != ""`. CPython shares one empty string object, so
  this is what the comparison does for strings. For other JSON values it is
  always true. A JSON `null` finish reason assigns `None` and so leaves the
  latch open. Any value other than `""` and `null` closes it, including
  `[]`, `{}`, `0` and `false`.
- `str.strip()` blankness follows Python's `str.isspace` character set.

## Behaviour of `sense_chat_streaming_response` worth knowing

Four facts about `locustfile.py` that the model reproduces:

- Only empty lines are skipped (`if data:`). A whitespace-only line is read as a
  frame. Its payload fails to decode, so the task raises.
- The sentinel does not stop the loop. Later lines are still processed, and the
  end time is that of the last sentinel line (`EndTimeIsLastSentinel`).
- A frame that does not decode, or whose lookup chain fails, is not recovered
  from. The task raises at that line (`BrokenLineAborts`, `MalformedLineRaises`).
- Any line whose text after the first six characters contains `[DONE]` counts
  as a sentinel. That includes a data frame whose delta is the text `[DONE]`
  (`SentinelAnywhere`).

## Model

| member | source | states |
|---|---|---|
| JsonValue.FirstChoice | locustfile.py:80 | `sse` and its `data` must be dicts (else AttributeError); a missing `data` or `choices` gives one empty choice; a `choices` list gives its first item and a string its first character, each raising IndexError when empty; a dict, number, bool or null `choices` cannot be indexed |
| JsonValue.ExtractChunk | locustfile.py:80-85 | the lookup succeeds exactly when the first choice is found and is a dict, and otherwise raises the first choice's error or AttributeError; a missing `data` or `choices` gives finish reason `""` and delta `""`; on success the two values are the first choice's fields or `""` |
| JsonValue.WellShapedChunk | locustfile.py:80-85 | a frame of the documented `{"data":{"choices":[{"delta":…,"finish_reason":…}]}}` shape yields exactly its first choice's delta and finish reason |
| Frames.Payload | locustfile.py:74 | the payload is what follows the first six characters, whatever they are; a line of six characters or fewer leaves nothing |
| Frames.ContainsIff | locustfile.py:76 | the sentinel search succeeds exactly when the token occurs at some position of the payload |
| Frames.Classify | locustfile.py:72-85 | a line is skipped iff it is empty; it is a sentinel iff its payload contains `[DONE]`; any other line is Malformed when it does not decode, and otherwise is the extracted chunk, or the lookup's error when extraction raises |
| Frames.SentinelAnywhere | locustfile.py:74-77 | any line whose payload mentions `[DONE]` anywhere, whatever its first six characters and whatever surrounds the token, is a sentinel line |
| Frames.PrefixNotChecked | locustfile.py:73-74 | a line is read the same whatever its first six characters are; the `data: ` prefix is never checked |
| Consumer.Step | locustfile.py:72-92 | an empty line changes nothing; a sentinel line only sets the end time to its own time; other lines leave the end time alone; a latched finish reason and a stamped first-char time never change; deltas are only appended, at most one per line, and none while no first char has arrived |
| Consumer.Run | locustfile.py:71-92 | a failed run names a line of the body |
| Consumer.FailureIsFinal | locustfile.py:71-92 | once a prefix of the lines has raised, the whole run fails with that same failure |
| Consumer.ConsumeLines | locustfile.py:59-92 | the loop over the lines, updating the end time, finish reason, first-char time and delta list, ends exactly as the fold `Run`, including which line raises |
| ConsumerProperties.RunMeaning | locustfile.py:71-92 | a run that does not raise ends with: the end time of the last sentinel line; the finish reason of the first data line that latches; the time of the first data line with a non-blank string delta; the deltas of every data line from that one on, in order, or none if there is none |
| ConsumerProperties.ExpectedSnoc | locustfile.py:76-92 | the line-by-line description changes, on one more line, as the loop body would: sentinel sets end, first latching reason kept, first non-blank delta stamps time and starts accumulation, later data deltas appended |
| ConsumerProperties.RunFailure | locustfile.py:79-91 | the run raises exactly when some line is broken (undecodable or failing lookup) or carries a non-string delta before any first char; it raises at the first such line, with that line's own error or, for the delta, the failed `.strip()` |
| ConsumerProperties.BrokenLineAborts | locustfile.py:79-80 | a line that does not decode or whose lookup chain raises makes the whole run fail, at that line or earlier |
| ConsumerProperties.EmptyLinesIgnored | locustfile.py:71-72 | removing every empty line neither makes a run fail or succeed nor changes the state it ends in |
| ConsumerProperties.RunGrows | locustfile.py:82-92 | along a run that does not raise, every prefix succeeds, a latched finish reason and a stamped first-char time stay as they are, and the delta list is only extended |
| ConsumerProperties.NoTextNoMessage | locustfile.py:87-92 | when no delta is ever a non-blank string, the first-char time stays unset and no delta is kept |
| ConsumerProperties.EndTimeIsLastSentinel | locustfile.py:76-77 | the end time is unset iff no line is a sentinel, and otherwise is the time of a sentinel line after which none follows |
| ConsumerProperties.EndNotBeforeFirstChar | locustfile.py:76-89 | for a stream ending with the sentinel and a clock that never runs backwards, the end time is set and is not earlier than the first-char time |
| ChatResult.Join | locustfile.py:110 | joining succeeds exactly when every accumulated delta is a string |
| ChatResult.JoinAppend | locustfile.py:110 | the join of two lists is the concatenation of their joins, and succeeds iff both do |
| ChatResult.JoinSingle | locustfile.py:110 | a single string joins to itself |
| ChatResult.BuildRecord | locustfile.py:97-110 | the record exists iff the deltas join; the elapsed time is absent iff the end time is, and otherwise spans start to end; the first-char delay is absent iff the first-char time is, and otherwise spans start to it; end time, finish reason and first-char time are carried over and the message is the join |
| ChatResult.DelaysNotNegative | locustfile.py:101-105 | when the clock reads no earlier than the request start, the elapsed time and the first-char delay are never negative |
| ChatResult.SenseChatStreamingResponse | locustfile.py:59-110 | a missing Content-Type raises; for an event stream the record is the one built from the last sentinel's time, the first latching finish reason, the first non-blank delta's time and the joined deltas, so the elapsed time is absent iff no sentinel and the delay absent iff no first char; the task fails at the line that raised, or when a kept delta is not a string; for any other content type no line is read, the body is decoded whole, and end time, first-char time, finish reason are absent and the message is empty |
| Scenarios.TwoFramesAndSentinel | locustfile.py:71-92 | lines carrying "你" (no finish reason), "好" (finish reason "stop") and the sentinel end with message "你好", finish reason "stop", first char at the first line and end time at the sentinel |
| Scenarios.MalformedLineRaises | locustfile.py:79 | an undecodable line between two good ones makes the run fail at that line |
| Scenarios.ExampleMessage | locustfile.py:110 | the example's two deltas join to "你好" |
| Users.UserCounter.constructor | locustfile.py:15 | the shared counter starts at zero |
| Users.VirtualUser.constructor | locustfile.py:18-22 | creating a user increments the shared counter by one and takes its new value as the id |
| Users.CreateTwo | locustfile.py:18-22 | two users created in turn get increasing ids above every earlier id, so ids are never shared |

## Left out

- Network I/O and the Locust framework are not modelled: the HTTP client calls,
  `iter_lines` splitting the body into lines, scheduling, `wait_time` and the
  task tags. Lines arrive as already-split text.
- UTF-8 decoding of each line (`data.decode('utf-8')`) is not modelled. Lines are
  text already, so an undecodable byte line is not represented.
- Real JSON decoding is not modelled. It is a parameter, and the JSON number
  value is kept as an integer whose value nothing depends on.
- Response headers other than `Content-Type` are not modelled. The source
  copies them into the record unchanged; the model's record has no headers
  field. `Content-Type` is one optional value, looked up without
  case-insensitive header matching.
- The request payload, the question text and the authentication token read
  from the environment are not modelled. They are constants or configuration,
  and no logic depends on them.
- `logging.info` of the body and of the record is not modelled. The record is
  returned instead of logged.
- The thread lock around the user counter is not modelled. Only the sequential
  increment is modelled.
- `health_check_endpoint` is not modelled. It is a single request followed by
  record assembly, with no logic.
- ChatResult.BuildRecord: times are whole milliseconds, and the elapsed time
  and delay are exact differences. The source computes
  `int((end - start) * 1000)` on floating-point seconds, and that rounding is
  not modelled.
- Scenarios.TwoFramesAndSentinel: the two frame texts are left abstract. They
  may be any text that decodes to the documented frame and does not contain
  `[DONE]`, so the literal example strings are not spelt out.
