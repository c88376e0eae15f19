/** How one line of an event-stream body is read: the field prefix is cut
    off by length, the terminal sentinel is found by substring search, and
    anything else is decoded as a chat-completion chunk. */
module Frames {
  import opened Wrappers
  import opened JsonValue

  /** `len('data: ')`: the number of characters cut from every line. */
  const PrefixLength: nat := 6

  /** The terminal sentinel token. */
  const DoneToken: string := "[DONE]"

  /** `data_str[len('data: '):]`: the first six characters are dropped,
      whatever they are; a shorter line leaves nothing. */
  function Payload(line: string): (p: string)
    ensures |line| >= PrefixLength ==> line == line[..PrefixLength] + p
    ensures |line| <= PrefixLength <==> p == []
  {
    if |line| <= PrefixLength then [] else line[PrefixLength..]
  }

  /** Does `pat` occur in `s` (`s.find(pat) != -1`)? */
  function Contains(s: string, pat: string): bool
    decreases |s|
  {
    if |s| < |pat| then false
    else s[..|pat|] == pat || Contains(s[1..], pat)
  }

  /** `pat` occurs in `s` starting at index `i`. */
  predicate OccursAt(s: string, pat: string, i: int) {
    0 <= i <= |s| - |pat| && s[i..i + |pat|] == pat
  }

  /** A slice of `s` that skips its first element is the same slice of `s[1..]`, shifted. */
  lemma SliceOfTail(s: string, i: nat, n: nat)
    requires 1 <= i && i + n <= |s|
    ensures s[i..i + n] == s[1..][i - 1..i - 1 + n]
  {
  }

  /** The substring search agrees with the positional definition of an occurrence. */
  lemma {:induction false} ContainsIff(s: string, pat: string)
    ensures Contains(s, pat) <==> exists i :: OccursAt(s, pat, i)
    decreases |s|
  {
    if |s| < |pat| {
      forall i ensures !OccursAt(s, pat, i) { }
    } else if s[..|pat|] == pat {
      assert OccursAt(s, pat, 0);
    } else {
      ContainsIff(s[1..], pat);
      if Contains(s[1..], pat) {
        var i :| OccursAt(s[1..], pat, i);
        SliceOfTail(s, i + 1, |pat|);
        assert OccursAt(s, pat, i + 1);
      } else {
        forall i | 1 <= i <= |s| - |pat|
          ensures !OccursAt(s, pat, i)
        {
          SliceOfTail(s, i, |pat|);
          assert !OccursAt(s[1..], pat, i - 1);
        }
        assert !OccursAt(s, pat, 0);
      }
    }
  }

  /** The characters Python's `str.strip()` removes (`str.isspace`). */
  predicate IsSpace(c: char) {
    ('\U{9}' <= c <= '\U{D}') || ('\U{1C}' <= c <= '\U{20}') || c == '\U{85}' || c == '\U{A0}'
    || c == '\U{1680}' || ('\U{2000}' <= c <= '\U{200A}') || c == '\U{2028}' || c == '\U{2029}'
    || c == '\U{202F}' || c == '\U{205F}' || c == '\U{3000}'
  }

  /** `s.strip() == ""`: the text is empty or whitespace only. */
  predicate IsBlank(s: string) {
    forall i :: 0 <= i < |s| ==> IsSpace(s[i])
  }

  /** Why processing a non-empty, non-sentinel line raised. */
  datatype FrameError =
    | Malformed              // `json.loads` rejected the payload
    | Lookup(e: LookupError) // the `.get(...)[0].get(...)` chain raised
    | DeltaNotText           // `.strip()` on a delta that is not a string

  /** What a line is to the consumer. */
  datatype Frame =
    | EmptyLine                // skipped by `if data:`
    | Terminal                 // its payload contains the sentinel
    | Data(chunk: Chunk)       // a decoded chunk
    | Broken(why: FrameError)  // processing it raises

  /** Is this line a sentinel line? Decoding is not involved. */
  predicate IsTerminalLine(line: string) {
    line != [] && Contains(Payload(line), DoneToken)
  }

  /** Classifies a line; `parse` stands for `json.loads`, `None` meaning it raised. */
  function Classify(line: string, parse: string -> Option<Json>): (f: Frame)
    ensures f.EmptyLine? <==> line == []
    ensures f.Terminal? <==> IsTerminalLine(line)
    ensures f.Data? || f.Broken? ==> parse(Payload(line)).Some? || f == Broken(Malformed)
    ensures f.Data? ==> ExtractChunk(parse(Payload(line)).value) == Ok(f.chunk)
    ensures f.Broken? ==> f.why != DeltaNotText
    // a non-empty, non-sentinel line: undecodable is Malformed, otherwise the lookup decides
    ensures line != [] && !IsTerminalLine(line) && parse(Payload(line)).None? ==> f == Broken(Malformed)
    ensures line != [] && !IsTerminalLine(line) && parse(Payload(line)).Some? ==>
              var c := ExtractChunk(parse(Payload(line)).value);
              (c.Ok? ==> f == Data(c.value)) && (c.Err? ==> f == Broken(Lookup(c.error)))
  {
    if line == [] then EmptyLine
    else
      var sseStr := Payload(line);
      if Contains(sseStr, DoneToken) then Terminal
      else
        match parse(sseStr)
        case None => Broken(Malformed)
        case Some(sse) =>
          match ExtractChunk(sse)
          case Err(e) => Broken(Lookup(e))
          case Ok(c) => Data(c)
  }

  /** Any line whose text after the first six characters mentions the sentinel
      is taken for the sentinel, whatever surrounds it: a data line whose delta
      is the text "[DONE]" is one, and that delta is never seen. */
  lemma SentinelAnywhere(head: string, before: string, after: string, parse: string -> Option<Json>)
    requires |head| == PrefixLength
    ensures Classify(head + before + DoneToken + after, parse) == Terminal
  {
    var line := head + before + DoneToken + after;
    var p := Payload(line);
    assert p == before + DoneToken + after;
    assert p[|before|..|before| + |DoneToken|] == DoneToken;
    assert OccursAt(p, DoneToken, |before|);
    ContainsIff(p, DoneToken);
  }

  /** The prefix is not checked: a line whose first six characters are not
      `data: ` is read the same way. */
  lemma PrefixNotChecked(head: string, rest: string, parse: string -> Option<Json>)
    requires |head| == PrefixLength
    ensures Classify(head + rest, parse) == Classify("data: " + rest, parse)
  {
    assert Payload(head + rest) == rest;
    assert Payload("data: " + rest) == rest;
  }
}
