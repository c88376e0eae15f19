/** The streaming-response consumer: a fold over the lines of an event-stream
    body that keeps the end time, the latched finish reason, the first-char
    time and the list of accumulated deltas. */
module Consumer {
  import opened Wrappers
  import opened JsonValue
  import opened Frames

  /** A line of the body together with the clock reading `time.time()` would
      give while that line is processed. */
  datatype Arrival = Arrival(text: string, at: int)

  /** The four variables the loop updates. */
  datatype State = State(
    endTime: Option<int>,
    finishReason: Option<Json>,
    firstCharTime: Option<int>,
    deltas: seq<Json>)

  const Initial: State := State(None, None, None, [])

  /** The line (by index in the body) whose processing raised, and why. */
  datatype Failure = Failure(line: nat, why: FrameError)

  /** `finish_reason_str is not ""` and the assignment actually changes
      `finish_reason`: assigning a JSON null leaves it `None`. */
  predicate Latches(v: Json) {
    v != JStr("") && v != JNull
  }

  /** The delta is a non-blank string, the condition that stamps the first char. */
  predicate StartsText(delta: Json) {
    delta.JStr? && !IsBlank(delta.s)
  }

  /** One iteration of the loop body. */
  function Step(st: State, x: Arrival, parse: string -> Option<Json>): (r: Result<State, FrameError>)
    // an empty line changes nothing
    ensures x.text == [] ==> r == Ok(st)
    // a sentinel line stamps the end time and changes nothing else
    ensures IsTerminalLine(x.text) ==> r == Ok(st.(endTime := Some(x.at)))
    // a line that is neither empty nor a sentinel leaves the end time alone
    ensures r.Ok? && !IsTerminalLine(x.text) ==> r.value.endTime == st.endTime
    // a latched finish reason and a stamped first-char time never change
    ensures r.Ok? && st.finishReason.Some? ==> r.value.finishReason == st.finishReason
    ensures r.Ok? && st.firstCharTime.Some? ==> r.value.firstCharTime == st.firstCharTime
    // deltas are only ever appended, one at most per line
    ensures r.Ok? ==> st.deltas <= r.value.deltas && |r.value.deltas| <= |st.deltas| + 1
    // no delta is kept while no first char has arrived
    ensures r.Ok? && r.value.firstCharTime.None? ==> r.value.deltas == st.deltas
  {
    match Classify(x.text, parse)
    case EmptyLine => Ok(st)
    case Terminal => Ok(st.(endTime := Some(x.at)))
    case Broken(e) => Err(e)
    case Data(c) =>
      var latched := if Latches(c.finishReason) && st.finishReason.None?
                     then st.(finishReason := Some(c.finishReason)) else st;
      if latched.firstCharTime.Some? then
        Ok(latched.(deltas := latched.deltas + [c.delta]))
      else if !c.delta.JStr? then
        Err(DeltaNotText)
      else if IsBlank(c.delta.s) then
        Ok(latched)
      else
        Ok(latched.(firstCharTime := Some(x.at), deltas := latched.deltas + [c.delta]))
  }

  /** The whole loop over `xs`, from the initial state; the first line that
      raises ends it with that failure. */
  function Run(xs: seq<Arrival>, parse: string -> Option<Json>): (r: Result<State, Failure>)
    ensures r.Err? ==> r.error.line < |xs|
    decreases |xs|
  {
    if xs == [] then Ok(Initial)
    else
      match Run(xs[..|xs| - 1], parse)
      case Err(f) => Err(f)
      case Ok(st) =>
        match Step(st, xs[|xs| - 1], parse)
        case Err(e) => Err(Failure(|xs| - 1, e))
        case Ok(next) => Ok(next)
  }

  /** Once a prefix has failed, the whole run fails with that same failure. */
  lemma {:induction false} FailureIsFinal(xs: seq<Arrival>, k: nat, parse: string -> Option<Json>)
    requires k <= |xs| && Run(xs[..k], parse).Err?
    ensures Run(xs, parse) == Run(xs[..k], parse)
    decreases |xs| - k
  {
    if k < |xs| {
      var ys := xs[..k + 1];
      assert ys[..k] == xs[..k];
      assert Run(ys, parse) == Run(xs[..k], parse);
      assert xs[..k + 1][..k + 1] == xs[..k + 1];
      FailureIsFinal(xs, k + 1, parse);
    } else {
      assert xs[..k] == xs;
    }
  }

  /** The loop of the consumer, with the four variables it updates. */
  method ConsumeLines(lines: seq<Arrival>, parse: string -> Option<Json>) returns (r: Result<State, Failure>)
    ensures r == Run(lines, parse)
  {
    var requestEndTime: Option<int> := None;
    var finishReason: Option<Json> := None;
    var firstCharArrivalTime: Option<int> := None;
    var resDeltaList: seq<Json> := [];
    var i := 0;
    while i < |lines|
      invariant 0 <= i <= |lines|
      invariant Run(lines[..i], parse) == Ok(State(requestEndTime, finishReason, firstCharArrivalTime, resDeltaList))
    {
      assert lines[..i + 1][..i] == lines[..i];
      var data := lines[i];
      if data.text != [] {
        var sseStr := Payload(data.text);
        if Contains(sseStr, DoneToken) {
          requestEndTime := Some(data.at);
        } else {
          var sse := parse(sseStr);
          if sse.None? {
            r := Err(Failure(i, Malformed));
            FailureIsFinal(lines, i + 1, parse);
            return;
          }
          var chunk := ExtractChunk(sse.value);
          if chunk.Err? {
            r := Err(Failure(i, Lookup(chunk.error)));
            FailureIsFinal(lines, i + 1, parse);
            return;
          }
          var finishReasonStr := chunk.value.finishReason;
          if Latches(finishReasonStr) && finishReason.None? {
            finishReason := Some(finishReasonStr);
          }
          var deltaStr := chunk.value.delta;
          if firstCharArrivalTime.None? {
            if !deltaStr.JStr? {
              r := Err(Failure(i, DeltaNotText));
              FailureIsFinal(lines, i + 1, parse);
              return;
            }
            if !IsBlank(deltaStr.s) {
              firstCharArrivalTime := Some(data.at);
            } else {
              i := i + 1;
              continue;
            }
          }
          resDeltaList := resDeltaList + [deltaStr];
        }
      }
      i := i + 1;
    }
    assert lines[..i] == lines;
    r := Ok(State(requestEndTime, finishReason, firstCharArrivalTime, resDeltaList));
  }
}
