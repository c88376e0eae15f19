/** Two example streams run through the consumer. The frame texts are left
    abstract: any text that decodes to the frame and does not mention the
    sentinel will do. */
module Scenarios {
  import opened Wrappers
  import opened JsonValue
  import opened Frames
  import opened Consumer
  import opened ConsumerProperties
  import opened ChatResult

  /** The documented frame shape with a single choice. */
  function ChatFrame(delta: string, finish: string): Json {
    JObj(map["data" := JObj(map["choices" := JArr([JObj(map["delta" := JStr(delta), "finish_reason" := JStr(finish)])])])])
  }

  /** A data line whose payload decodes to the documented shape is read as that chunk. */
  lemma FrameLine(payload: string, delta: string, finish: string, parse: string -> Option<Json>)
    requires parse(payload) == Some(ChatFrame(delta, finish)) && !Contains(payload, DoneToken)
    ensures Classify("data: " + payload, parse) == Data(Chunk(JStr(finish), JStr(delta)))
  {
    assert Payload("data: " + payload) == payload;
    WellShapedChunk(delta, finish, []);
    assert [JObj(map["delta" := JStr(delta), "finish_reason" := JStr(finish)])] + []
        == [JObj(map["delta" := JStr(delta), "finish_reason" := JStr(finish)])];
  }

  /** The state after the first example line. */
  const AfterFirst: State := State(None, None, Some(1), [JStr("你")])

  /** The state after the second example line. */
  const AfterSecond: State := State(None, Some(JStr("stop")), Some(1), [JStr("你"), JStr("好")])

  /** The first line brings the first char. */
  lemma FirstStep(line: string, parse: string -> Option<Json>)
    requires Classify(line, parse) == Data(Chunk(JStr(""), JStr("你")))
    ensures Step(Initial, Arrival(line, 1), parse) == Ok(AfterFirst)
  {
    assert !IsBlank(JStr("你").s) by { assert !IsSpace("你"[0]); }
    assert Initial.firstCharTime.None? && !Latches(JStr(""));
    var r := Step(Initial, Arrival(line, 1), parse);
    assert r.Ok? && r.value.firstCharTime == Some(1);
    assert r.value.deltas == [JStr("你")];
  }

  /** The second line latches the finish reason and appends its delta. */
  lemma SecondStep(line: string, parse: string -> Option<Json>)
    requires Classify(line, parse) == Data(Chunk(JStr("stop"), JStr("好")))
    ensures Step(AfterFirst, Arrival(line, 2), parse) == Ok(AfterSecond)
  {
    assert Latches(JStr("stop")) && AfterFirst.firstCharTime.Some?;
    assert AfterFirst.deltas + [JStr("好")] == [JStr("你"), JStr("好")];
  }

  /** Two data lines, "你" with no finish reason and "好" with "stop", then the
      sentinel: the message is "你好", the finish reason "stop", the first
      char arrives with the first line and the end time is the sentinel's. */
  lemma TwoFramesAndSentinel(first: string, second: string, parse: string -> Option<Json>)
    requires parse(first) == Some(ChatFrame("你", "")) && !Contains(first, DoneToken)
    requires parse(second) == Some(ChatFrame("好", "stop")) && !Contains(second, DoneToken)
    ensures var lines := [Arrival("data: " + first, 1), Arrival("data: " + second, 2), Arrival("data: [DONE]", 3)];
            Run(lines, parse) == Ok(AfterSecond.(endTime := Some(3)))
            && Join(Run(lines, parse).value.deltas) == Some("你好")
  {
    var lines := [Arrival("data: " + first, 1), Arrival("data: " + second, 2), Arrival("data: [DONE]", 3)];
    FrameLine(first, "你", "", parse);
    FrameLine(second, "好", "stop", parse);
    FirstStep("data: " + first, parse);
    SecondStep("data: " + second, parse);
    assert IsTerminalLine("data: [DONE]") by {
      assert Payload("data: [DONE]") == DoneToken;
    }
    assert lines[..1][..0] == [];
    assert lines[..2][..1] == lines[..1];
    assert lines[..3] == lines;
    assert Run(lines[..1], parse) == Ok(AfterFirst);
    assert Run(lines[..2], parse) == Ok(AfterSecond);
    assert Run(lines, parse).value.deltas == AfterSecond.deltas;
    ExampleMessage();
  }

  /** The two example deltas join to "你好". */
  lemma ExampleMessage()
    ensures Join(AfterSecond.deltas) == Some("你好")
  {
    JoinAppend([JStr("你")], [JStr("好")]);
    JoinSingle("你");
    JoinSingle("好");
    assert [JStr("你")] + [JStr("好")] == AfterSecond.deltas;
    assert "你" + "好" == "你好";
  }

  /** A line that does not decode, between two good ones, ends the run with a
      failure at that line: the decoding error is not caught. */
  lemma MalformedLineRaises(first: string, bad: string, second: string, parse: string -> Option<Json>)
    requires parse(first) == Some(ChatFrame("你", "")) && !Contains(first, DoneToken)
    requires parse(bad).None? && !Contains(bad, DoneToken)
    ensures var lines := [Arrival("data: " + first, 1), Arrival("data: " + bad, 2), Arrival("data: " + second, 3)];
            Run(lines, parse) == Err(Failure(1, Malformed))
  {
    var lines := [Arrival("data: " + first, 1), Arrival("data: " + bad, 2), Arrival("data: " + second, 3)];
    FrameLine(first, "你", "", parse);
    assert Payload("data: " + bad) == bad;
    assert lines[..1][..0] == [];
    assert lines[..2][..1] == lines[..1];
    FirstStep("data: " + first, parse);
    assert Run(lines[..1], parse) == Ok(AfterFirst);
    assert Run(lines[..2], parse) == Err(Failure(1, Malformed));
    FailureIsFinal(lines, 2, parse);
    assert lines[..3] == lines;
  }
}
