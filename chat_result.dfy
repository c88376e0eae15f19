/** The chat-completion task as a whole: the content-type switch, the line
    consumer, and the metrics record built from what it found. */
module ChatResult {
  import opened Wrappers
  import opened JsonValue
  import opened Frames
  import opened Consumer
  import opened ConsumerProperties

  const EventStreamType: string := "text/event-stream"

  /** What the HTTP client hands over: the status, the `Content-Type` header
      (absent when the server sent none), the body's lines with the clock
      reading taken while each is processed, and the whole body as text. */
  datatype Response = Response(status: int, contentType: Option<string>, lines: seq<Arrival>, body: string)

  /** The metrics record; times are whole milliseconds. */
  datatype ChatRecord = ChatRecord(
    userId: nat,
    requestStart: int,
    requestEnd: Option<int>,
    elapseMs: Option<int>,
    firstCharArrivalTime: Option<int>,
    firstCharDelayMs: Option<int>,
    status: int,
    body: Option<Json>,
    finishReason: Option<Json>,
    resMessage: string)

  /** The exceptions that end the task before a record is logged. */
  datatype TaskError =
    | NoContentType              // `None.startswith(...)`
    | StreamRaised(f: Failure)   // a line of the stream raised
    | BodyNotJson                // `response.json()` raised
    | DeltaNotJoinable           // `''.join(...)` met a delta that is not a string

  predicate StartsWith(s: string, prefix: string) {
    |prefix| <= |s| && s[..|prefix|] == prefix
  }

  /** `''.join(ds)`: the concatenation of the texts, or nothing when one item is not a string. */
  function Join(ds: seq<Json>): (r: Option<string>)
    ensures r.Some? <==> forall i :: 0 <= i < |ds| ==> ds[i].JStr?
    decreases |ds|
  {
    if ds == [] then Some("")
    else
      match Join(ds[..|ds| - 1])
      case None => None
      case Some(s) => if ds[|ds| - 1].JStr? then Some(s + ds[|ds| - 1].s) else None
  }

  /** Joining is concatenation: joining two lists joins each and concatenates the results. */
  lemma {:induction false} JoinAppend(a: seq<Json>, b: seq<Json>)
    ensures Join(a + b).Some? <==> Join(a).Some? && Join(b).Some?
    ensures Join(a + b).Some? ==> Join(a + b).value == Join(a).value + Join(b).value
    decreases |b|
  {
    if b == [] {
      assert a + b == a;
    } else {
      var n := |b| - 1;
      JoinAppend(a, b[..n]);
      assert (a + b)[..|a + b| - 1] == a + b[..n];
      if Join(a + b).Some? {
        assert Join(a + b).value == Join(a).value + Join(b[..n]).value + b[n].s;
      }
    }
  }

  /** A single string joins to itself. */
  lemma {:induction false} JoinSingle(s: string)
    ensures Join([JStr(s)]) == Some(s)
  {
    assert [JStr(s)][..0] == [];
    assert Join([]) == Some("");
    assert "" + s == s;
  }

  /** The record assembled after the loop; it exists exactly when the deltas can be joined. */
  function BuildRecord(userId: nat, requestStart: int, status: int, body: Option<Json>, st: State): (r: Option<ChatRecord>)
    ensures r.Some? <==> Join(st.deltas).Some?
    ensures r.Some? ==> r.value.userId == userId && r.value.requestStart == requestStart
                        && r.value.status == status && r.value.body == body
    ensures r.Some? ==> r.value.requestEnd == st.endTime && r.value.firstCharArrivalTime == st.firstCharTime
                        && r.value.finishReason == st.finishReason && r.value.resMessage == Join(st.deltas).value
    // the elapsed time exists exactly when an end time does, and spans start to end
    ensures r.Some? ==> (r.value.elapseMs.None? <==> st.endTime.None?)
                        && (r.value.elapseMs.Some? ==> requestStart + r.value.elapseMs.value == st.endTime.value)
    // the first-char delay exists exactly when a first-char time does, and spans start to it
    ensures r.Some? ==> (r.value.firstCharDelayMs.None? <==> st.firstCharTime.None?)
                        && (r.value.firstCharDelayMs.Some? ==> requestStart + r.value.firstCharDelayMs.value == st.firstCharTime.value)
  {
    match Join(st.deltas)
    case None => None
    case Some(message) =>
      Some(ChatRecord(
        userId,
        requestStart,
        st.endTime,
        if st.endTime.None? then None else Some(st.endTime.value - requestStart),
        st.firstCharTime,
        if st.firstCharTime.None? then None else Some(st.firstCharTime.value - requestStart),
        status,
        body,
        st.finishReason,
        message))
  }

  /** With a clock that reads no earlier than the request start on every
      line, neither the elapsed time nor the first-char delay is negative. */
  lemma DelaysNotNegative(userId: nat, requestStart: int, status: int, lines: seq<Arrival>,
                          parse: string -> Option<Json>)
    requires forall i :: 0 <= i < |lines| ==> requestStart <= lines[i].at
    requires Run(lines, parse).Ok? && Join(Run(lines, parse).value.deltas).Some?
    ensures var r := BuildRecord(userId, requestStart, status, None, Run(lines, parse).value).value;
            (r.elapseMs.Some? ==> r.elapseMs.value >= 0) && (r.firstCharDelayMs.Some? ==> r.firstCharDelayMs.value >= 0)
  {
    RunMeaning(lines, parse);
  }

  /** Sends the chat request's response through the consumer and builds the
      record to log; `parse` stands for `json.loads` and `response.json()`. */
  method SenseChatStreamingResponse(userId: nat, requestStart: int, response: Response,
                                    parse: string -> Option<Json>)
    returns (r: Result<ChatRecord, TaskError>)
    ensures response.contentType.None? ==> r == Err(NoContentType)
    ensures r.Ok? ==> r.value.userId == userId && r.value.requestStart == requestStart
                      && r.value.status == response.status
    // an event stream: the record reports what the lines describe, or the line that raised
    ensures response.contentType.Some? && StartsWith(response.contentType.value, EventStreamType) ==>
              if Run(response.lines, parse).Err? then r == Err(StreamRaised(Run(response.lines, parse).error))
              else
                var e := Expected(response.lines, parse);
                && (r.Ok? <==> Join(e.deltas).Some?)
                && (Join(e.deltas).None? ==> r == Err(DeltaNotJoinable))
                // the durations: absent exactly when their timestamp is, else spanning from the start
                && (r.Ok? ==> Some(r.value) == BuildRecord(userId, requestStart, response.status, None, e))
                && (r.Ok? ==> r.value.requestEnd == e.endTime && r.value.finishReason == e.finishReason
                              && r.value.firstCharArrivalTime == e.firstCharTime
                              && r.value.resMessage == Join(e.deltas).value && r.value.body.None?)
    // any other content type: no line is read, the body is decoded whole
    ensures response.contentType.Some? && !StartsWith(response.contentType.value, EventStreamType) ==>
              && (r.Ok? <==> parse(response.body).Some?)
              && (parse(response.body).None? ==> r == Err(BodyNotJson))
              && (r.Ok? ==> r.value.body == parse(response.body)
                            && r.value.requestEnd.None? && r.value.elapseMs.None?
                            && r.value.firstCharArrivalTime.None? && r.value.firstCharDelayMs.None?
                            && r.value.finishReason.None? && r.value.resMessage == "")
  {
    if response.contentType.None? {
      return Err(NoContentType);
    }
    var st := Initial;
    var jsonResponseBody: Option<Json> := None;
    if StartsWith(response.contentType.value, EventStreamType) {
      var consumed := ConsumeLines(response.lines, parse);
      if consumed.Err? {
        return Err(StreamRaised(consumed.error));
      }
      RunMeaning(response.lines, parse);
      st := consumed.value;
    } else {
      jsonResponseBody := parse(response.body);
      if jsonResponseBody.None? {
        return Err(BodyNotJson);
      }
    }
    var testResult := BuildRecord(userId, requestStart, response.status, jsonResponseBody, st);
    if testResult.None? {
      return Err(DeltaNotJoinable);
    }
    r := Ok(testResult.value);
  }
}
