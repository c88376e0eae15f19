/** What the consumer computes, stated without its state machine: the end
    time of the last sentinel line, the first finish reason that latches, the
    time of the first non-blank delta and every data delta from there on. */
module ConsumerProperties {
  import opened Wrappers
  import opened JsonValue
  import opened Frames
  import opened Consumer

  /** The index of the first element satisfying `p`. */
  function FirstWhere<T>(xs: seq<T>, p: T -> bool): (r: Option<nat>)
    ensures r.Some? ==> r.value < |xs| && p(xs[r.value])
    ensures r.Some? ==> forall j :: 0 <= j < r.value ==> !p(xs[j])
    ensures r.None? <==> forall j :: 0 <= j < |xs| ==> !p(xs[j])
    decreases |xs|
  {
    if xs == [] then None
    else
      match FirstWhere(xs[..|xs| - 1], p)
      case Some(k) => Some(k)
      case None => if p(xs[|xs| - 1]) then Some(|xs| - 1) else None
  }

  /** The index of the last element satisfying `p`. */
  function LastWhere<T>(xs: seq<T>, p: T -> bool): (r: Option<nat>)
    ensures r.Some? ==> r.value < |xs| && p(xs[r.value])
    ensures r.Some? ==> forall j :: r.value < j < |xs| ==> !p(xs[j])
    ensures r.None? <==> forall j :: 0 <= j < |xs| ==> !p(xs[j])
    decreases |xs|
  {
    if xs == [] then None
    else if p(xs[|xs| - 1]) then Some(|xs| - 1)
    else LastWhere(xs[..|xs| - 1], p)
  }

  /** A sentinel line. */
  function TerminalTest(): Arrival -> bool {
    (x: Arrival) => IsTerminalLine(x.text)
  }

  /** A data line whose finish reason latches. */
  function LatchTest(parse: string -> Option<Json>): Arrival -> bool {
    (x: Arrival) => var f := Classify(x.text, parse); f.Data? && Latches(f.chunk.finishReason)
  }

  /** A data line whose delta is a non-blank string. */
  function FirstCharTest(parse: string -> Option<Json>): Arrival -> bool {
    (x: Arrival) => var f := Classify(x.text, parse); f.Data? && StartsText(f.chunk.delta)
  }

  /** The deltas of all data lines, in order. */
  function DataDeltas(xs: seq<Arrival>, parse: string -> Option<Json>): seq<Json>
    decreases |xs|
  {
    if xs == [] then []
    else
      DataDeltas(xs[..|xs| - 1], parse)
      + match Classify(xs[|xs| - 1].text, parse)
        case Data(c) => [c.delta]
        case _ => []
  }

  /** The state the consumer ends in, described line by line rather than step by step. */
  function Expected(xs: seq<Arrival>, parse: string -> Option<Json>): State {
    var finish := FirstWhere(xs, LatchTest(parse));
    var first := FirstWhere(xs, FirstCharTest(parse));
    var end := LastWhere(xs, TerminalTest());
    State(
      if end.None? then None else Some(xs[end.value].at),
      if finish.None? then None else Some(Classify(xs[finish.value].text, parse).chunk.finishReason),
      if first.None? then None else Some(xs[first.value].at),
      if first.None? then [] else DataDeltas(xs[first.value..], parse))
  }

  /** How the described state changes when one more line arrives; this
      mirrors the loop body without being defined by it. */
  lemma ExpectedSnoc(xs: seq<Arrival>, parse: string -> Option<Json>)
    requires xs != []
    ensures var e, e', x := Expected(xs[..|xs| - 1], parse), Expected(xs, parse), xs[|xs| - 1];
            var f := Classify(x.text, parse);
            var starts := f.Data? && StartsText(f.chunk.delta);
            && e'.endTime == (if IsTerminalLine(x.text) then Some(x.at) else e.endTime)
            && e'.finishReason == (if e.finishReason.None? && f.Data? && Latches(f.chunk.finishReason)
                                   then Some(f.chunk.finishReason) else e.finishReason)
            && e'.firstCharTime == (if e.firstCharTime.None? && starts then Some(x.at) else e.firstCharTime)
            && e'.deltas == (if e.firstCharTime.None? && !starts then []
                             else e.deltas + (if f.Data? then [f.chunk.delta] else []))
  {
    ExpectedDeltasSnoc(xs, parse);
  }

  /** The delta part of ExpectedSnoc. */
  lemma ExpectedDeltasSnoc(xs: seq<Arrival>, parse: string -> Option<Json>)
    requires xs != []
    ensures var e, e', x := Expected(xs[..|xs| - 1], parse), Expected(xs, parse), xs[|xs| - 1];
            var f := Classify(x.text, parse);
            var starts := f.Data? && StartsText(f.chunk.delta);
            e'.deltas == (if e.firstCharTime.None? && !starts then []
                          else e.deltas + (if f.Data? then [f.chunk.delta] else []))
  {
    var n := |xs| - 1;
    var ys, x := xs[..n], xs[n];
    var f := Classify(x.text, parse);
    var first := FirstWhere(ys, FirstCharTest(parse));
    var first' := FirstWhere(xs, FirstCharTest(parse));
    if first.Some? {
      var k := first.value;
      assert first' == first;
      DataDeltasSnoc(xs[k..], parse);
      assert xs[k..][..|xs[k..]| - 1] == ys[k..];
    } else if first'.Some? {
      assert first'.value == n;
      DataDeltasSnoc(xs[n..], parse);
      assert xs[n..][..0] == [];
    }
  }

  /** One more line adds its delta to the data deltas if it is a data line. */
  lemma DataDeltasSnoc(xs: seq<Arrival>, parse: string -> Option<Json>)
    requires xs != []
    ensures var f := Classify(xs[|xs| - 1].text, parse);
            DataDeltas(xs, parse) == DataDeltas(xs[..|xs| - 1], parse) + (if f.Data? then [f.chunk.delta] else [])
  {
  }

  /** A run that does not raise ends in the described state: the end time is
      that of the last sentinel line, the finish reason the first one that
      latches, the first-char time that of the first non-blank delta, and the
      deltas those of every data line from that one on. */
  lemma {:induction false} RunMeaning(xs: seq<Arrival>, parse: string -> Option<Json>)
    requires Run(xs, parse).Ok?
    ensures Run(xs, parse).value == Expected(xs, parse)
    decreases |xs|
  {
    if xs != [] {
      var ys := xs[..|xs| - 1];
      RunMeaning(ys, parse);
      ExpectedSnoc(xs, parse);
    }
  }

  /** Line `i` raises: it is broken, or it is a data line whose delta is not a
      string while no first char has arrived yet (so `.strip()` is called on it). */
  predicate Raises(xs: seq<Arrival>, i: nat, parse: string -> Option<Json>)
    requires i < |xs|
  {
    var f := Classify(xs[i].text, parse);
    f.Broken? || (f.Data? && !f.chunk.delta.JStr? && FirstWhere(xs[..i], FirstCharTest(parse)).None?)
  }

  /** Whether a line raises depends only on the lines up to it. */
  lemma RaisesOnPrefix(xs: seq<Arrival>, n: nat, parse: string -> Option<Json>)
    requires n <= |xs|
    ensures forall i :: 0 <= i < n ==> Raises(xs, i, parse) == Raises(xs[..n], i, parse)
  {
    forall i | 0 <= i < n
      ensures Raises(xs, i, parse) == Raises(xs[..n], i, parse)
    {
      assert xs[..n][..i] == xs[..i];
    }
  }

  /** After a prefix that did not raise, the next step fails exactly when its line raises. */
  lemma StepFailsIffRaises(xs: seq<Arrival>, parse: string -> Option<Json>)
    requires xs != [] && Run(xs[..|xs| - 1], parse).Ok?
    ensures Step(Run(xs[..|xs| - 1], parse).value, xs[|xs| - 1], parse).Err? <==> Raises(xs, |xs| - 1, parse)
    ensures Step(Run(xs[..|xs| - 1], parse).value, xs[|xs| - 1], parse).Err? ==>
              Step(Run(xs[..|xs| - 1], parse).value, xs[|xs| - 1], parse).error == RaiseReason(xs[|xs| - 1], parse)
  {
    RunMeaning(xs[..|xs| - 1], parse);
  }

  /** What a raising line raises: the frame's own error, or `.strip()` on a non-string delta. */
  function RaiseReason(x: Arrival, parse: string -> Option<Json>): FrameError {
    var f := Classify(x.text, parse);
    if f.Broken? then f.why else DeltaNotText
  }

  /** A run fails exactly when some line raises, and then it fails at the
      first such line, with that line's reason. */
  lemma {:induction false} RunFailure(xs: seq<Arrival>, parse: string -> Option<Json>)
    ensures Run(xs, parse).Ok? <==> forall i :: 0 <= i < |xs| ==> !Raises(xs, i, parse)
    ensures Run(xs, parse).Err? ==>
              var k := Run(xs, parse).error.line;
              k < |xs| && Raises(xs, k, parse) && forall j :: 0 <= j < k ==> !Raises(xs, j, parse)
    ensures Run(xs, parse).Err? ==>
              var k := Run(xs, parse).error.line;
              k < |xs| && Run(xs, parse).error.why == RaiseReason(xs[k], parse)
    decreases |xs|
  {
    if xs != [] {
      var n := |xs| - 1;
      var ys := xs[..n];
      RunFailure(ys, parse);
      RaisesOnPrefix(xs, n, parse);
      if Run(ys, parse).Err? {
        assert Run(xs, parse) == Run(ys, parse);
        var k := Run(ys, parse).error.line;
        assert Raises(xs, k, parse);
      } else {
        StepFailsIffRaises(xs, parse);
        if Raises(xs, n, parse) {
          assert Run(xs, parse).Err? && Run(xs, parse).error.line == n;
        } else {
          assert Run(xs, parse).Ok?;
          assert forall i :: 0 <= i < n ==> !Raises(xs, i, parse);
        }
      }
    }
  }

  /** A line that `json.loads` rejects, or whose lookup chain raises, aborts the run at or before it. */
  lemma BrokenLineAborts(xs: seq<Arrival>, i: nat, parse: string -> Option<Json>)
    requires i < |xs| && Classify(xs[i].text, parse).Broken?
    ensures Run(xs, parse).Err? && Run(xs, parse).error.line <= i
  {
    RunFailure(xs, parse);
    assert Raises(xs, i, parse);
  }

  /** `xs` with its empty lines removed. */
  function DropEmpty(xs: seq<Arrival>): seq<Arrival>
    decreases |xs|
  {
    if xs == [] then []
    else DropEmpty(xs[..|xs| - 1]) + (if xs[|xs| - 1].text == [] then [] else [xs[|xs| - 1]])
  }

  /** Empty lines do not matter: removing them all neither makes a run fail
      nor changes the state it ends in. */
  lemma {:induction false} EmptyLinesIgnored(xs: seq<Arrival>, parse: string -> Option<Json>)
    ensures Run(DropEmpty(xs), parse).Ok? <==> Run(xs, parse).Ok?
    ensures Run(xs, parse).Ok? ==> Run(DropEmpty(xs), parse).value == Run(xs, parse).value
    decreases |xs|
  {
    if xs != [] {
      var n := |xs| - 1;
      EmptyLinesIgnored(xs[..n], parse);
      var d := DropEmpty(xs[..n]);
      if xs[n].text != [] {
        assert DropEmpty(xs) == d + [xs[n]];
        assert (d + [xs[n]])[..|d|] == d;
      } else {
        assert DropEmpty(xs) == d;
      }
    }
  }

  /** A prefix of a run that does not raise does not raise either, and the
      state only grows along it: a latched finish reason and a stamped
      first-char time stay, and the delta list is only ever extended. */
  lemma {:induction false} RunGrows(xs: seq<Arrival>, k: nat, parse: string -> Option<Json>)
    requires k <= |xs| && Run(xs, parse).Ok?
    ensures Run(xs[..k], parse).Ok?
    ensures var before, after := Run(xs[..k], parse).value, Run(xs, parse).value;
            (before.finishReason.Some? ==> after.finishReason == before.finishReason)
            && (before.firstCharTime.Some? ==> after.firstCharTime == before.firstCharTime)
            && before.deltas <= after.deltas
    decreases |xs| - k
  {
    if k == |xs| {
      assert xs[..k] == xs;
    } else {
      RunGrows(xs, k + 1, parse);
      assert xs[..k + 1][..k] == xs[..k];
    }
  }

  /** A stream in which no delta is ever a non-blank string has no first-char
      time and keeps no delta, so its message is empty. */
  lemma NoTextNoMessage(xs: seq<Arrival>, parse: string -> Option<Json>)
    requires Run(xs, parse).Ok?
    requires forall i :: 0 <= i < |xs| ==> !FirstCharTest(parse)(xs[i])
    ensures Run(xs, parse).value.firstCharTime.None? && Run(xs, parse).value.deltas == []
  {
    RunMeaning(xs, parse);
  }

  /** Without a sentinel line there is no end time; with one, the end time is
      that of the last one, since the loop does not stop at a sentinel. */
  lemma EndTimeIsLastSentinel(xs: seq<Arrival>, parse: string -> Option<Json>)
    requires Run(xs, parse).Ok?
    ensures Run(xs, parse).value.endTime.None? <==> forall i :: 0 <= i < |xs| ==> !IsTerminalLine(xs[i].text)
    ensures Run(xs, parse).value.endTime.Some? ==>
              exists i :: 0 <= i < |xs| && IsTerminalLine(xs[i].text) && Run(xs, parse).value.endTime == Some(xs[i].at)
                          && forall j :: i < j < |xs| ==> !IsTerminalLine(xs[j].text)
  {
    RunMeaning(xs, parse);
    var end := LastWhere(xs, TerminalTest());
    if end.Some? {
      assert TerminalTest()(xs[end.value]);
    } else {
      assert forall i :: 0 <= i < |xs| ==> !TerminalTest()(xs[i]);
    }
  }

  /** The clock never runs backwards along the lines. */
  predicate ClockMonotone(xs: seq<Arrival>) {
    forall i, j :: 0 <= i <= j < |xs| ==> xs[i].at <= xs[j].at
  }

  /** For a stream that ends with the sentinel and a clock that never runs
      backwards, the end time is set and is not before the first char. */
  lemma EndNotBeforeFirstChar(xs: seq<Arrival>, parse: string -> Option<Json>)
    requires ClockMonotone(xs) && Run(xs, parse).Ok?
    requires |xs| > 0 && IsTerminalLine(xs[|xs| - 1].text)
    ensures var st := Run(xs, parse).value;
            st.endTime == Some(xs[|xs| - 1].at)
            && (st.firstCharTime.Some? ==> st.firstCharTime.value <= st.endTime.value)
  {
    RunMeaning(xs, parse);
    assert TerminalTest()(xs[|xs| - 1]);
  }
}
