/** The decoded JSON documents a chat-completion stream carries, and the
    defensive field lookups the consumer performs on them. */
module JsonValue {
  import opened Wrappers

  /** A document as `json.loads` returns it. An object is a dictionary (a
      repeated key keeps one value), hence a map. Numbers are kept as integers:
      nothing in the consumer depends on their value. */
  datatype Json =
    | JNull
    | JBool(b: bool)
    | JNum(n: int)
    | JStr(s: string)
    | JArr(items: seq<Json>)
    | JObj(fields: map<string, Json>)

  /** The exceptions a lookup chain can raise. */
  datatype LookupError =
    | NotADict      // `.get` on a value that is not a dict (AttributeError)
    | NoFirstItem   // `[0]` on an empty list or string (IndexError)
    | NotIndexable  // `[0]` on a dict (KeyError), a number, a bool or null (TypeError)

  /** The first choice's finish reason and delta, each possibly any JSON value. */
  datatype Chunk = Chunk(finishReason: Json, delta: Json)

  const EmptyObject: Json := JObj(map[])

  /** `v.get(key, default)` */
  function Get(v: Json, key: string, default: Json): Result<Json, LookupError> {
    match v
    case JObj(fields) => Ok(if key in fields then fields[key] else default)
    case _ => Err(NotADict)
  }

  /** `v[0]` */
  function Index0(v: Json): Result<Json, LookupError> {
    match v
    case JArr(items) => if |items| == 0 then Err(NoFirstItem) else Ok(items[0])
    case JStr(s) => if |s| == 0 then Err(NoFirstItem) else Ok(JStr(s[..1]))
    case _ => Err(NotIndexable)
  }

  /** `sse.get("data", {}).get('choices', [{}])[0]` */
  function FirstChoice(sse: Json): (r: Result<Json, LookupError>)
    // `sse` and its `data` must be dicts
    ensures !sse.JObj? ==> r == Err(NotADict)
    ensures sse.JObj? && "data" in sse.fields && !sse.fields["data"].JObj? ==> r == Err(NotADict)
    // a missing `data` or `choices` gives the single empty choice
    ensures sse.JObj? && "data" !in sse.fields ==> r == Ok(EmptyObject)
    ensures sse.JObj? && "data" in sse.fields && sse.fields["data"].JObj? ==>
              var d := sse.fields["data"].fields;
              && ("choices" !in d ==> r == Ok(EmptyObject))
              // a list gives its first item, or raises when empty
              && ("choices" in d && d["choices"].JArr? ==>
                    r == (if d["choices"].items == [] then Err(NoFirstItem) else Ok(d["choices"].items[0])))
              // a string gives its first character, or raises when empty
              && ("choices" in d && d["choices"].JStr? ==>
                    r == (if d["choices"].s == [] then Err(NoFirstItem) else Ok(JStr(d["choices"].s[..1]))))
              // a dict, number, bool or null cannot be indexed by 0
              && ("choices" in d && !d["choices"].JArr? && !d["choices"].JStr? ==> r == Err(NotIndexable))
  {
    match Get(sse, "data", EmptyObject)
    case Err(e) => Err(e)
    case Ok(data) =>
      match Get(data, "choices", JArr([EmptyObject]))
      case Err(e) => Err(e)
      case Ok(choices) => Index0(choices)
  }

  /** The finish reason (default "") and the delta (default "") of the first
      choice of a decoded frame. The finish reason is looked up first, so a
      first choice that is not a dict fails there. */
  function ExtractChunk(sse: Json): (r: Result<Chunk, LookupError>)
    // the lookup succeeds exactly when the first choice is found and is a dict
    ensures r.Ok? <==> FirstChoice(sse).Ok? && FirstChoice(sse).value.JObj?
    ensures FirstChoice(sse).Err? ==> r == Err(FirstChoice(sse).error)
    ensures FirstChoice(sse).Ok? && !FirstChoice(sse).value.JObj? ==> r == Err(NotADict)
    // only a dict can be looked into at all
    ensures !sse.JObj? ==> r == Err(NotADict)
    // a missing "data" or "choices" key falls back to a single empty choice
    ensures sse.JObj? && "data" !in sse.fields ==> r == Ok(Chunk(JStr(""), JStr("")))
    ensures (sse.JObj? && "data" in sse.fields && sse.fields["data"].JObj?
             && "choices" !in sse.fields["data"].fields) ==> r == Ok(Chunk(JStr(""), JStr("")))
    // an empty choices list cannot be indexed
    ensures (sse.JObj? && "data" in sse.fields && sse.fields["data"].JObj?
             && "choices" in sse.fields["data"].fields
             && sse.fields["data"].fields["choices"] == JArr([])) ==> r == Err(NoFirstItem)
    // otherwise the result is read from the first choice, with "" for a missing field
    ensures r.Ok? ==> FirstChoice(sse).Ok? && FirstChoice(sse).value.JObj?
    ensures r.Ok? ==> var c := FirstChoice(sse).value.fields;
              r.value.finishReason == (if "finish_reason" in c then c["finish_reason"] else JStr(""))
              && r.value.delta == (if "delta" in c then c["delta"] else JStr(""))
  {
    match FirstChoice(sse)
    case Err(e) => Err(e)
    case Ok(choice) =>
      match Get(choice, "finish_reason", JStr(""))
      case Err(e) => Err(e)
      case Ok(finish) =>
        match Get(choice, "delta", JStr(""))
        case Err(e) => Err(e)
        case Ok(delta) => Ok(Chunk(finish, delta))
  }

  /** A frame of the documented shape yields its first choice's two fields verbatim. */
  lemma WellShapedChunk(delta: string, finish: string, rest: seq<Json>)
    ensures var choice := JObj(map["delta" := JStr(delta), "finish_reason" := JStr(finish)]);
            var sse := JObj(map["data" := JObj(map["choices" := JArr([choice] + rest)])]);
            ExtractChunk(sse) == Ok(Chunk(JStr(finish), JStr(delta)))
  {
  }
}
