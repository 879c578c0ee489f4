/**
 * src/utils.ts: the envelope codec and the extraction of chat text from one
 * streamed fragment of the local backend's response. All of it is pure.
 */
module Utils {
  import opened Json
  import opened Constants

  // ---------------------------------------------------------------------------
  // Envelopes

  /** safeParseJson: JSON.parse, with a thrown error turned into `undefined`. */
  function SafeParseJson(c: Codec, text: string): (r: JsValue)
    ensures r == Undefined <==> c.parse(text).Threw?
    ensures c.parse(text).Returned? ==> r == Defined(c.parse(text).value)
  {
    match c.parse(text)
    case Returned(v) => Defined(v)
    case Threw(_) => Undefined
  }

  /** The object createMessage hands to JSON.stringify: `{key, data}`, where an
      omitted (`undefined`) data member does not appear in the text. */
  function Envelope(key: ServerMessageKey, data: JsValue): JsonValue
  {
    JObject(map["key" := JString(KeyText(key))]
            + (if data.Defined? then map["data" := data.value] else map[]))
  }

  /** createMessage(key, data). */
  function CreateMessage(c: Codec, key: ServerMessageKey, data: JsValue): (text: string)
    ensures RoundTrips(c) ==> c.parse(text) == Returned(Envelope(key, data))
  {
    c.stringify(Envelope(key, data))
  }

  /** The key a receiver's `switch` can match: `data && data.key` must hold and
      `===` against a key literal only succeeds for a string. */
  function EnvelopeKey(data: JsValue): (r: Option<string>)
    ensures r.Some? <==> Truthy(data) && data.value.JObject? && "key" in data.value.fields
                         && data.value.fields["key"].JString? && data.value.fields["key"].s != ""
    ensures r.Some? ==> r.value == data.value.fields["key"].s
  {
    if !Truthy(data) then None
    else
      var key := Member(data, "key").value;
      if Truthy(key) && key.value.JString? then Some(key.value.s) else None
  }

  /** Reading back what createMessage wrote gives the key and the data it was
      given; an omitted data member reads back as `undefined`. */
  lemma CreateMessageRoundTrip(c: Codec, key: ServerMessageKey, data: JsValue)
    requires RoundTrips(c)
    ensures SafeParseJson(c, CreateMessage(c, key, data)) == Defined(Envelope(key, data))
    ensures EnvelopeKey(Defined(Envelope(key, data))) == Some(KeyText(key))
    ensures Member(Defined(Envelope(key, data)), "key") == Returned(Defined(JString(KeyText(key))))
    ensures Member(Defined(Envelope(key, data)), "data") == Returned(data)
    ensures data == Undefined ==> "data" !in Envelope(key, data).fields
  {
    assert c.parse(c.stringify(Envelope(key, data))) == Returned(Envelope(key, data));
  }

  // ---------------------------------------------------------------------------
  // Server-Sent-Events framing

  const DataPrefix := "data:"

  /** isStreamWithDataPrefix: `startsWith("data:")`. */
  predicate IsStreamWithDataPrefix(s: string): (b: bool)
    ensures b <==> MarkerAt(s, 0)
    ensures b ==> s == DataPrefix + s[5..]
  {
    |s| >= 5 && s[..5] == DataPrefix
  }

  lemma DataPrefixExactly(s: string)
    ensures IsStreamWithDataPrefix(s) <==> exists t :: s == DataPrefix + t
  {
    if IsStreamWithDataPrefix(s) {
      assert s == DataPrefix + s[5..];
    }
  }

  /** A `data:` marker starts at position `i` of `s`. */
  predicate MarkerAt(s: string, i: int) {
    0 <= i && i + 5 <= |s| && s[i..i + 5] == DataPrefix
  }

  /** The first marker at or after `i`, or `|s|` when there is none. */
  function FirstMarkerFrom(s: string, i: nat): (r: nat)
    requires i <= |s|
    ensures i <= r <= |s|
    ensures r < |s| ==> MarkerAt(s, r)
    ensures forall j :: i <= j < r ==> !MarkerAt(s, j)
    decreases |s| - i
  {
    if i + 5 > |s| then |s|
    else if s[i..i + 5] == DataPrefix then i
    else FirstMarkerFrom(s, i + 1)
  }

  /** `s.split("data:")`: the pieces between markers, found left to right. */
  function Split(s: string): (parts: seq<string>)
    ensures |parts| >= 1
    ensures parts[0] == s[..FirstMarkerFrom(s, 0)]
    decreases |s|
  {
    var i := FirstMarkerFrom(s, 0);
    if i == |s| then [s] else [s[..i]] + Split(s[i + 5..])
  }

  /** `parts.join("data:")`. */
  function JoinOnMarker(parts: seq<string>): string
    requires |parts| >= 1
  {
    if |parts| == 1 then parts[0] else parts[0] + DataPrefix + JoinOnMarker(parts[1..])
  }

  /** Splitting loses nothing: joining the pieces back gives the text. */
  lemma {:induction false} SplitJoin(s: string)
    ensures JoinOnMarker(Split(s)) == s
    decreases |s|
  {
    var i := FirstMarkerFrom(s, 0);
    if i < |s| {
      SplitJoin(s[i + 5..]);
      assert s == s[..i] + DataPrefix + s[i + 5..];
    }
  }

  /** The text safeParseStreamResponse hands to JSON.parse: for a `data:`-framed
      fragment, `split("data:")[1]`; otherwise the whole fragment. */
  function StreamPayload(s: string): (r: string)
    ensures !IsStreamWithDataPrefix(s) ==> r == s
    ensures IsStreamWithDataPrefix(s) ==>
      && 5 + |r| <= |s| && r == s[5..5 + |r|]
      && (5 + |r| == |s| || MarkerAt(s, 5 + |r|))
      && forall j :: 5 <= j < 5 + |r| ==> !MarkerAt(s, j)
  {
    if IsStreamWithDataPrefix(s) then
      assert MarkerAt(s, 0);
      assert Split(s) == [""] + Split(s[5..]);
      MarkersAfterPrefix(s);
      Split(s)[1]
    else
      s
  }

  /** Past the leading `data:`, markers of the rest are markers of the whole, shifted. */
  lemma MarkersAfterPrefix(s: string)
    requires IsStreamWithDataPrefix(s)
    ensures forall j :: 0 <= j ==> (MarkerAt(s[5..], j) <==> MarkerAt(s, j + 5))
    ensures forall j :: 5 <= j ==> (MarkerAt(s, j) <==> MarkerAt(s[5..], j - 5))
  {
    forall j | 0 <= j
      ensures MarkerAt(s[5..], j) <==> MarkerAt(s, j + 5)
    {
      if j + 10 <= |s| { assert s[5..][j..j + 5] == s[j + 5..j + 10]; }
    }
  }

  /** The events after the first one in a fragment are dropped: only the text
      between the first `data:` and the next is parsed. */
  lemma LaterEventsDropped(a: string, b: string)
    requires forall j :: !MarkerAt(a, j)
    ensures StreamPayload(DataPrefix + a + DataPrefix + b) == a
  {
    var s := DataPrefix + a + DataPrefix + b;
    var t := a + DataPrefix + b;
    assert s[..5] == DataPrefix;
    assert s[5..] == t;
    assert MarkerAt(t, |a|) by { assert t[|a|..|a| + 5] == DataPrefix; }
    forall j | 0 <= j < |a| ensures !MarkerAt(t, j) {
      if j + 5 <= |a| {
        assert t[j..j + 5] == a[j..j + 5];
        assert !MarkerAt(a, j);
      } else if j + 5 <= |t| {
        // the marker's 'd' would sit strictly inside "data:", which has no other 'd'
        var k := |a| - j;
        assert 1 <= k <= 4;
        assert t[j..j + 5][k] == t[|a|] == 'd';
        assert DataPrefix[k] != 'd';
      }
    }
    assert FirstMarkerFrom(t, 0) == |a|;
  }

  /** safeParseStreamResponse: parse the selected payload, `undefined` on failure. */
  function SafeParseStreamResponse(c: Codec, s: string): (r: JsValue)
    ensures r == Undefined <==> c.parse(StreamPayload(s)).Threw?
  {
    SafeParseJson(c, StreamPayload(s))
  }

  /** A single `data:`-framed JSON event is read back as its value. */
  lemma FramedFragmentRoundTrip(c: Codec, v: JsonValue)
    requires RoundTrips(c)
    requires forall j :: !MarkerAt(c.stringify(v), j)
    ensures SafeParseStreamResponse(c, DataPrefix + c.stringify(v)) == Defined(v)
  {
    var a := c.stringify(v);
    var s := DataPrefix + a;
    assert s[..5] == DataPrefix;
    assert s[5..] == a;
    var r := StreamPayload(s);
    assert r == a;
    assert c.parse(a) == Returned(v);
    assert SafeParseJson(c, r) == Defined(v);
  }

  /** An unframed JSON fragment is read back as its value. */
  lemma PlainFragmentRoundTrip(c: Codec, v: JsonValue)
    requires RoundTrips(c)
    requires !IsStreamWithDataPrefix(c.stringify(v))
    ensures SafeParseStreamResponse(c, c.stringify(v)) == Defined(v)
  {
  }

  // ---------------------------------------------------------------------------
  // Chat text extraction

  /** `data?.choices[0].delta?.content` (`optionalDelta`) or
      `data?.choices[0].delta.content`: the chain short-circuits to
      `undefined` only on a nullish `data` (and, with `?.`, a nullish delta);
      every other missing link throws a TypeError. */
  function DeltaContent(data: JsValue, optionalDelta: bool): Outcome<JsValue>
  {
    if IsNullish(data) then Returned(Undefined)
    else
      var choices := Member(data, "choices").value;
      match At(choices, 0)
      case Threw(e) => Threw(e)
      case Returned(first) =>
        match Member(first, "delta")
        case Threw(e) => Threw(e)
        case Returned(delta) =>
          if optionalDelta && IsNullish(delta) then Returned(Undefined)
          else Member(delta, "content")
  }

  predicate IsBackend(provider: JsValue, id: string) {
    provider == Defined(JString(id))
  }

  const Empty: JsValue := Defined(JString(""))

  /** getChatDataFromProvider: the text a fragment contributes to the
      completion, per backend. The `switch` compares with `===`, so a
      non-string identifier takes the default branch. */
  function GetChatDataFromProvider(provider: JsValue, data: JsValue): (r: Outcome<JsValue>)
    ensures r.Threw? ==> r.error == TypeError && !IsBackend(provider, LlamaCpp)
    ensures IsBackend(provider, LlamaCpp) ==> r.Returned?
    ensures r == Returned(Undefined) ==> IsBackend(provider, LlamaCpp)
    ensures data == Undefined ==>
      r == Returned(if IsBackend(provider, LlamaCpp) then Undefined else Empty)
    ensures r.Returned? && !IsBackend(provider, LlamaCpp) ==> Truthy(r.value) || r.value == Empty
  {
    if IsBackend(provider, Ollama) || IsBackend(provider, OpenWebUI) then
      match DeltaContent(data, true)
      case Threw(e) => Threw(e)
      case Returned(content) => Returned(if Truthy(content) then content else Empty)
    else if IsBackend(provider, LlamaCpp) then
      Returned(if IsNullish(data) then Undefined else Member(data, "content").value)
    else
      // Once the unguarded `.delta.content` has not thrown, the later `delta?.content`
      // re-reads denote the same value, so one evaluation stands for all three.
      match DeltaContent(data, false)
      case Threw(e) => Threw(e)
      case Returned(content) =>
        if content == Defined(JString("undefined")) then Returned(Empty)
        else Returned(if Truthy(content) then content else Empty)
  }

  /** A fragment of the documented shape `{choices: [{delta}]}`. */
  function ChoiceChunk(delta: map<string, JsonValue>): JsonValue
  {
    JObject(map["choices" := JArray([JObject(map["delta" := JObject(delta)])])])
  }

  /** `delta.content`: `undefined` when the delta has no such member. */
  function ContentOf(delta: map<string, JsonValue>): JsValue
  {
    if "content" in delta then Defined(delta["content"]) else Undefined
  }

  /** ollama and openwebui: the delta's content when truthy; the empty string
      when it is falsy or missing. */
  lemma DeltaBackendsReadContent(provider: JsValue, delta: map<string, JsonValue>)
    requires IsBackend(provider, Ollama) || IsBackend(provider, OpenWebUI)
    ensures GetChatDataFromProvider(provider, Defined(ChoiceChunk(delta)))
         == Returned(if Truthy(ContentOf(delta)) then ContentOf(delta) else Empty)
  {
  }

  /** Every other identifier (litellm, lmstudio, oobabooga, anything unknown):
      like ollama, except that the literal text "undefined" also maps to "". */
  lemma DefaultBackendsReadContent(provider: JsValue, delta: map<string, JsonValue>)
    requires !IsBackend(provider, Ollama) && !IsBackend(provider, OpenWebUI) && !IsBackend(provider, LlamaCpp)
    ensures GetChatDataFromProvider(provider, Defined(ChoiceChunk(delta)))
         == Returned(if ContentOf(delta) == Defined(JString("undefined")) || !Truthy(ContentOf(delta)) then Empty
                     else ContentOf(delta))
  {
  }

  /** llamacpp reads the top-level `content` member as it is, `undefined` when absent. */
  lemma LlamaCppReadsTopLevel(provider: JsValue, fields: map<string, JsonValue>)
    requires IsBackend(provider, LlamaCpp)
    ensures GetChatDataFromProvider(provider, Defined(JObject(fields)))
         == Returned(if "content" in fields then Defined(fields["content"]) else Undefined)
  {
  }

  /** A parsed fragment without `choices` is an error for every backend but
      llamacpp: `choices[0]` is read unguarded. */
  lemma MissingChoicesThrows(provider: JsValue, fields: map<string, JsonValue>)
    requires !IsBackend(provider, LlamaCpp)
    requires "choices" !in fields
    ensures GetChatDataFromProvider(provider, Defined(JObject(fields))) == Threw(TypeError)
  {
  }

  /** The default branch reads `delta.content` without `?.`: a choice without a
      delta throws there, while ollama and openwebui yield "". */
  lemma MissingDeltaSplitsBackends(provider: JsValue)
    requires !IsBackend(provider, LlamaCpp)
    ensures GetChatDataFromProvider(provider, Defined(JObject(map["choices" := JArray([JObject(map[])])])))
         == (if IsBackend(provider, Ollama) || IsBackend(provider, OpenWebUI) then Returned(Empty) else Threw(TypeError))
  {
  }
}
