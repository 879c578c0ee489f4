/**
 * src/provider.ts: the provider node. `SymmetryProvider` answers the
 * server's challenge/ping protocol, counts conversations, relays inference
 * requests to the local LLM backend and streams the answer back to the peer.
 *
 * The overlay network, timers, the HTTP client and the filesystem are not
 * modelled: the random challenge is a parameter, `fetch` is a function from
 * the built request to what the backend answers, and a saved transcript is
 * reported as the path and content `fs.writeFile` would receive.
 */
module Provider {
  import opened Json
  import opened Hex
  import opened Constants
  import opened Utils
  import opened Config
  import opened Relay

  /** hypercore-crypto's `verify` and Node's base64 decoding, left uninterpreted. */
  datatype Crypto = Crypto(
    verify: (seq<byte>, seq<byte>, seq<byte>) -> bool,   // (challenge, signature, publicKey)
    base64: string -> seq<byte>)

  // ---------------------------------------------------------------------------
  // Server key and challenge verification

  /** getServerPublicKey: `Buffer.from(hex, "hex")`, which must give 32 bytes. */
  function GetServerPublicKey(serverKeyHex: string): (r: Outcome<seq<byte>>)
    ensures r.Returned? ==> |r.value| == 32 && r.value == HexDecode(serverKeyHex)
    ensures r.Threw? ==> |HexDecode(serverKeyHex)| != 32
    ensures r.Threw? ==>
      r.error == Error("Expected a 32-byte public key, but got " + DecimalText(|HexDecode(serverKeyHex)|) + " bytes")
  {
    var publicKey := HexDecode(serverKeyHex);
    if |publicKey| != 32 then
      Threw(Error("Expected a 32-byte public key, but got " + DecimalText(|publicKey|) + " bytes"))
    else Returned(publicKey)
  }

  /** A server key is accepted exactly when its first 64 characters are hex
      digits and no further digit pair follows them (Node stops decoding at the
      first pair that is not two hex digits). */
  lemma ServerKeyAccepted(serverKeyHex: string)
    ensures GetServerPublicKey(serverKeyHex).Returned? <==>
      && 64 <= |serverKeyHex|
      && (forall i :: 0 <= i < 64 ==> IsHexDigit(serverKeyHex[i]))
      && (|serverKeyHex| < 66 || !IsHexDigit(serverKeyHex[64]) || !IsHexDigit(serverKeyHex[65]))
  {
    DecodedLength(serverKeyHex, 32);
    DecodedLength(serverKeyHex, 33);
  }

  /** The hex spelling of a 32-byte key is read back as that key. */
  lemma ServerKeyRoundTrip(key: seq<byte>)
    requires |key| == 32
    ensures GetServerPublicKey(HexEncode(key)) == Returned(key)
  {
    DecodeEncode(key);
  }

  /** `Buffer.from(serverKeyHex, "hex")` on the configured value: only a string decodes. */
  function ServerKeyBytes(serverKey: JsValue): (r: Outcome<seq<byte>>)
    ensures r.Returned? ==> serverKey.Defined? && serverKey.value.JString?
                            && r == GetServerPublicKey(serverKey.value.s)
  {
    match serverKey
    case Defined(JString(s)) => GetServerPublicKey(s)
    case _ => Threw(TypeError)
  }

  /** `Buffer.from(data.signature.data, "base64")`. */
  function SignatureBytes(crypto: Crypto, data: JsValue): (r: Outcome<seq<byte>>)
    ensures r.Returned? ==>
      exists signature :: Member(data, "signature") == Returned(signature)
        && Member(signature, "data").Returned? && Member(signature, "data").value.Defined?
        && Member(signature, "data").value.value.JString?
        && r.value == crypto.base64(Member(signature, "data").value.value.s)
  {
    match Member(data, "signature")
    case Threw(e) => Threw(e)
    case Returned(signature) =>
      match Member(signature, "data")
      case Threw(e) => Threw(e)
      case Returned(Defined(JString(text))) => Returned(crypto.base64(text))
      case Returned(_) => Threw(TypeError)
  }

  /** What handleServerVerification concludes. The outcome is only logged:
      nothing is stored. */
  datatype Verification = NoChallenge | Verified | VerificationFailed | Caught(error: JsError)

  // ---------------------------------------------------------------------------
  // Frames the provider composes

  /** How JSON.stringify writes a Buffer: `{type: "Buffer", data: [bytes]}`. */
  function BufferJson(bytes: seq<byte>): JsonValue
  {
    JObject(map["type" := JString("Buffer"),
                "data" := JArray(seq(|bytes|, i requires 0 <= i < |bytes| => JNumber(DecimalText(bytes[i]))))])
  }

  /** The bytes a receiver reads back from a Buffer's JSON form. */
  function BufferFromJson(v: JsonValue): Option<seq<byte>>
  {
    if v.JObject? && "type" in v.fields && v.fields["type"] == JString("Buffer") && "data" in v.fields
       && v.fields["data"].JArray?
       && (forall i :: 0 <= i < |v.fields["data"].items| ==> IsByteText(v.fields["data"].items[i]))
    then
      var items := v.fields["data"].items;
      Some(seq(|items|, i requires 0 <= i < |items| => DecimalValue(items[i].text) as byte))
    else None
  }

  predicate IsByteText(v: JsonValue) {
    v.JNumber? && AllDigits(v.text) && DecimalValue(v.text) < 256
  }

  /** The challenge bytes survive their JSON form. */
  lemma BufferJsonRoundTrip(bytes: seq<byte>)
    ensures BufferFromJson(BufferJson(bytes)) == Some(bytes)
  {
    var items := BufferJson(bytes).fields["data"].items;
    forall i | 0 <= i < |items| ensures IsByteText(items[i]) && DecimalValue(items[i].text) == bytes[i] {
      DecimalRoundTrip(bytes[i]);
    }
    var read := seq(|items|, i requires 0 <= i < |items| => DecimalValue(items[i].text) as byte);
    assert read == bytes;
  }

  /** The data of the `challenge` frame. */
  function ChallengeData(challenge: seq<byte>): JsValue
  {
    Defined(JObject(map["challenge" := BufferJson(challenge)]))
  }

  /** The correlation frame written before any chunk: `{symmetryEmitterKey}`,
      an empty object when the request carried no key. */
  function EmitterFrame(key: JsValue): JsonValue
  {
    JObject(if key.Defined? then map["symmetryEmitterKey" := key.value] else map[])
  }

  function SystemEntry(content: JsonValue): JsonValue
  {
    JObject(map["role" := JString("system"), "content" := content])
  }

  function AssistantEntry(completion: string): JsonValue
  {
    JObject(map["role" := JString("assistant"), "content" := JString(completion)])
  }

  /** The messages after getMessagesWithSystem: `messages.length === 2 &&
      systemMessage` decides, and `unshift` prepends the system entry. Reading
      `length` of undefined/null throws, and so does `unshift` on anything but
      an array. */
  function WithSystem(messages: JsValue, systemMessage: JsValue): (r: Outcome<JsValue>)
    ensures IsNullish(messages) ==> r == Threw(TypeError)
    ensures r.Threw? ==> r.error == TypeError
    ensures r.Returned? ==> r.value == messages || (Truthy(systemMessage) && messages.Defined? && messages.value.JArray?
                              && r.value == Defined(JArray([SystemEntry(systemMessage.value)] + messages.value.items)))
  {
    match Length(messages)
    case Threw(e) => Threw(e)
    case Returned(n) =>
      if n == Defined(JNumber("2")) && Truthy(systemMessage) then
        match messages
        case Defined(JArray(items)) => Returned(Defined(JArray([SystemEntry(systemMessage.value)] + items)))
        case _ => Threw(TypeError)
      else Returned(messages)
  }

  /** For a message list, the system entry is prepended exactly when the list
      holds two entries and the configured system message is truthy. */
  lemma SystemPromptIff(items: seq<JsonValue>, systemMessage: JsValue)
    ensures WithSystem(Defined(JArray(items)), systemMessage) == Returned(
      if |items| == 2 && Truthy(systemMessage)
      then Defined(JArray([SystemEntry(systemMessage.value)] + items))
      else Defined(JArray(items)))
  {
    assert DecimalText(2) == "2";
    if DecimalText(|items|) == "2" {
      DecimalTextInjective(|items|, 2);
    }
  }

  /** A non-array value with a `length` of 2 makes `unshift` throw when a
      system message is set. */
  lemma NonArrayPairThrows(s: string, systemMessage: JsValue)
    requires Utf16Length(s) == 2 && Truthy(systemMessage)
    ensures WithSystem(Defined(JString(s)), systemMessage) == Threw(TypeError)
  {
    assert DecimalText(2) == "2";
  }

  /** A single emoji outside the Basic Multilingual Plane has a `length` of 2,
      so with a system message set `unshift` is reached and throws. */
  lemma AstralCharacterThrows(systemMessage: JsValue)
    requires Truthy(systemMessage)
    ensures WithSystem(Defined(JString("\U{1F600}")), systemMessage) == Threw(TypeError)
  {
    assert Utf16Length("\U{1F600}") == 2;
    NonArrayPairThrows("\U{1F600}", systemMessage);
  }

  // ---------------------------------------------------------------------------
  // The request to the local backend

  datatype StreamRequest = StreamRequest(
    url: string, httpMethod: string, headers: map<string, string>, body: JsonValue)

  /** The backend's answer to a request. */
  datatype Upstream =
    | NetworkError(message: string)                 // fetch rejected
    | Response(status: nat, body: Option<Body>)     // body None: no ReadableStream

  /** The streamed body: its chunks with the peer's state at each arrival, and
      whether the stream errors once they are consumed. */
  datatype Body = Body(arrivals: seq<Arrival>, failure: Option<string>)

  type Fetch = StreamRequest -> Upstream

  /** The error the `try` block throws before any byte goes to the peer. */
  function UpstreamError(u: Upstream): (r: Option<string>)
    ensures r.None? <==> u.Response? && 200 <= u.status < 300 && u.body.Some?
    ensures u.NetworkError? ==> r == Some(u.message)
    ensures u.Response? && !(200 <= u.status < 300) ==>
      r == Some("Server responded with status code: " + DecimalText(u.status))
    ensures u.Response? && 200 <= u.status < 300 && u.body.None? ==>
      r == Some("Failed to get a ReadableStream from the response")
  {
    match u
    case NetworkError(m) => Some(m)
    case Response(status, body) =>
      if !(200 <= status < 300) then Some("Server responded with status code: " + DecimalText(status))
      else if body.None? then Some("Failed to get a ReadableStream from the response")
      else None
  }

  /** The members of an object literal, without the `undefined` ones (which
      JSON.stringify drops). */
  function DefinedMember(name: string, v: JsValue): map<string, JsonValue>
  {
    if v.Defined? then map[name := v.value] else map[]
  }

  // ---------------------------------------------------------------------------
  // Relay outcomes and transcripts

  /** What became of the transcript. */
  datatype Save = NotSaved | Saved(path: string, content: JsonValue) | SaveFailed(error: JsError)

  datatype RelayOutcome =
    | Unhandled(error: JsError)        // thrown before the `try`: an unhandled rejection
    | UpstreamFailed(message: string)  // caught and logged
    | StreamFailed(error: JsError)     // the pipeline rejected: caught and logged
    | Hung(uncaught: Option<string>)   // the pipeline never settles: None while waiting for a `drain`
                                       // that never comes; Some(m) when the body errored, since `pipe`
                                       // does not pass the error on and it reaches `uncaughtException`
    | Ended(completion: string, save: Save)

  /** Whether the pipeline resolves, so that `inferenceEnded` is written. */
  predicate Ends(stop: Stop, body: Body) {
    (stop == Exhausted && body.failure.None?) || stop == PeerClosed
  }

  /** `${path}/${peerPublicKeyHex}-${conversationIndex}.json`. */
  function TranscriptPath(dir: JsValue, peerKey: seq<byte>, index: nat): (p: string)
    ensures |p| >= |JsToString(dir)| + 1 + 2 * |peerKey|
    ensures p[..|JsToString(dir)| + 1] == JsToString(dir) + "/"
    ensures p[|JsToString(dir)| + 1..|JsToString(dir)| + 1 + 2 * |peerKey|] == HexEncode(peerKey)
    ensures p[|JsToString(dir)| + 1 + 2 * |peerKey|..] == "-" + DecimalText(index) + ".json"
  {
    var head, hex := JsToString(dir) + "/", HexEncode(peerKey);
    var tail := "-" + DecimalText(index) + ".json";
    assert (head + hex + tail)[..|head|] == head;
    assert (head + hex + tail)[|head|..|head| + |hex|] == hex;
    assert (head + hex + tail)[|head| + |hex|..] == tail;
    head + hex + tail
  }

  /** Different conversations of a peer, and different peers, never share a file. */
  lemma TranscriptPathsDistinct(dir: JsValue, k1: seq<byte>, i1: nat, k2: seq<byte>, i2: nat)
    requires |k1| == |k2|
    requires TranscriptPath(dir, k1, i1) == TranscriptPath(dir, k2, i2)
    ensures k1 == k2 && i1 == i2
  {
    var p1, p2 := TranscriptPath(dir, k1, i1), TranscriptPath(dir, k2, i2);
    var n := |JsToString(dir)| + 1;
    assert HexEncode(k1) == p1[n..n + 2 * |k1|] == p2[n..n + 2 * |k2|] == HexEncode(k2);
    EncodeInjective(k1, k2);
    var t1, t2 := "-" + DecimalText(i1), "-" + DecimalText(i2);
    assert t1 + ".json" == p1[n + 2 * |k1|..] == p2[n + 2 * |k2|..] == t2 + ".json";
    ConcatCancel(t1, ".json", t2, ".json");
    ConcatCancel("-", DecimalText(i1), "-", DecimalText(i2));
    DecimalTextInjective(i1, i2);
  }

  lemma ConcatCancel(a: string, b: string, c: string, d: string)
    requires a + b == c + d
    requires |a| == |c|
    ensures a == c && b == d
  {
    assert a == (a + b)[..|a|];
    assert c == (c + d)[..|c|];
    assert b == (a + b)[|a|..];
    assert d == (c + d)[|c|..];
  }

  /** `[...messages]`: arrays give their entries, strings their characters; any
      other value is not iterable. */
  function Spread(v: JsValue): Outcome<seq<JsonValue>>
  {
    match v
    case Defined(JArray(items)) => Returned(items)
    case Defined(JString(s)) => Returned(seq(|s|, i requires 0 <= i < |s| => JString([s[i]])))
    case _ => Threw(TypeError)
  }

  /** The `data.data` object of an inference request. `unshift` changes its
      message list in place, so the list saved later is the changed one. */
  class InferenceRequest {
    const key: JsValue
    var messages: JsValue

    constructor (key: JsValue, messages: JsValue)
      ensures this.key == key && this.messages == messages
    {
      this.key := key;
      this.messages := messages;
    }
  }

  class SymmetryProvider {
    const config: ConfigManager
    const json: Codec
    const crypto: Crypto
    const discoveryKey: Option<seq<byte>>
    var challenge: Option<seq<byte>>
    var conversationIndex: nat
    var serverPeer: Peer?
    var providerConnections: nat

    constructor (config: ConfigManager, json: Codec, crypto: Crypto, discoveryKey: Option<seq<byte>>)
      ensures this.config == config && this.json == json && this.crypto == crypto
      ensures this.discoveryKey == discoveryKey
      ensures challenge.None? && conversationIndex == 0 && serverPeer == null && providerConnections == 0
    {
      this.config, this.json, this.crypto, this.discoveryKey := config, json, crypto, discoveryKey;
      challenge, conversationIndex, serverPeer, providerConnections := None, 0, null, 0;
    }

    // -------------------------------------------------------------------------
    // The server connection

    /** The data of the `join` frame: every configured member, then the hex
        discovery key (an absent key is `undefined`, which removes the member). */
    function JoinData(): (r: JsValue)
      ensures r.Defined? && r.value.JObject?
      ensures forall k :: k != "discoveryKey" ==>
                (k in r.value.fields <==> k in config.GetAll()) &&
                (k in r.value.fields ==> r.value.fields[k] == config.GetAll()[k])
      ensures discoveryKey.Some? <==> "discoveryKey" in r.value.fields
      ensures discoveryKey.Some? ==> r.value.fields["discoveryKey"] == JString(HexEncode(discoveryKey.value))
    {
      var all := config.GetAll();
      Defined(JObject(if discoveryKey.Some? then all["discoveryKey" := JString(HexEncode(discoveryKey.value))]
                      else all - {"discoveryKey"}))
    }

    /** The `connection` handler of joinServer: keep the peer, store a fresh
        32-byte challenge, then write the `challenge` frame and the `join` frame. */
    method OnServerConnection(peer: Peer, random: seq<byte>)
      requires |random| == 32
      modifies this`serverPeer, this`challenge, peer`log
      ensures serverPeer == peer && challenge == Some(random)
      ensures peer.log == old(peer.log) + [Wrote(Text(CreateMessage(json, Challenge, ChallengeData(random)))),
                                           Wrote(Text(CreateMessage(json, Join, JoinData())))]
    {
      serverPeer := peer;
      challenge := Some(random);
      var _ := peer.Write(Text(CreateMessage(json, Challenge, ChallengeData(random))));
      var _ := peer.Write(Text(CreateMessage(json, Join, JoinData())));
    }

    /** handleServerVerification: check the server's signature over the stored
        challenge with the configured server key. Every error is caught. */
    function HandleServerVerification(data: JsValue): (v: Verification)
      reads this
      ensures v == NoChallenge <==> challenge.None?
      ensures v.Verified? || v.VerificationFailed? ==>
        && challenge.Some?
        && ServerKeyBytes(config.Get("serverKey")).Returned?
        && SignatureBytes(crypto, data).Returned?
        && (v.Verified? <==> crypto.verify(challenge.value, SignatureBytes(crypto, data).value,
                                           ServerKeyBytes(config.Get("serverKey")).value))
      ensures v.Caught? ==>
        (challenge.Some? && (ServerKeyBytes(config.Get("serverKey")).Threw? || SignatureBytes(crypto, data).Threw?))
    {
      if challenge.None? then NoChallenge
      else
        match ServerKeyBytes(config.Get("serverKey"))
        case Threw(e) => Caught(e)
        case Returned(publicKey) =>
          match SignatureBytes(crypto, data)
          case Threw(e) => Caught(e)
          case Returned(signature) =>
            if crypto.verify(challenge.value, signature, publicKey) then Verified else VerificationFailed
    }

    /** A configured key that does not decode to 32 bytes never reaches
        `verify`: the error is caught and reported, whatever the signature. */
    lemma BadServerKeyCaught(data: JsValue, hex: string)
      requires challenge.Some?
      requires config.Get("serverKey") == Defined(JString(hex))
      requires |HexDecode(hex)| != 32
      ensures HandleServerVerification(data)
           == Caught(Error("Expected a 32-byte public key, but got " + DecimalText(|HexDecode(hex)|) + " bytes"))
    {
    }

    /** The key a frame's text carries, if the provider's `switch` can see one. */
    function MessageKey(text: string): (r: Option<string>)
      ensures r.Some? <==> && json.parse(text).Returned? && json.parse(text).value.JObject?
                           && "key" in json.parse(text).value.fields
                           && json.parse(text).value.fields["key"].JString?
                           && json.parse(text).value.fields["key"].s != ""
      ensures r.Some? ==> r.value == json.parse(text).value.fields["key"].s
    {
      EnvelopeKey(SafeParseJson(json, text))
    }

    /** The `data` handler on the server connection: `ping` gets exactly one
        `pong`, `challenge` goes to verification; anything else, malformed text
        included, does nothing. The challenge is kept after use. */
    method OnServerData(text: string) returns (v: Option<Verification>)
      requires serverPeer != null
      modifies serverPeer`log
      ensures serverPeer.log == old(serverPeer.log) +
        (if MessageKey(text) == Some(KeyText(Ping)) then [Wrote(Text(CreateMessage(json, Pong, Undefined)))] else [])
      ensures v.Some? <==> MessageKey(text) == Some(KeyText(Challenge))
      ensures v.Some? ==> v.value == HandleServerVerification(Member(SafeParseJson(json, text), "data").value)
    {
      var data := SafeParseJson(json, text);
      var key := EnvelopeKey(data);
      v := None;
      if key == Some(KeyText(Challenge)) {
        v := Some(HandleServerVerification(Member(data, "data").value));
      } else if key == Some(KeyText(Ping)) {
        var _ := serverPeer.Write(Text(CreateMessage(json, Pong, Undefined)));
      }
    }

    /** The server reads the stored challenge back out of the `challenge` frame. */
    lemma ChallengeFrameCarriesChallenge(random: seq<byte>)
      requires RoundTrips(json)
      ensures MessageKey(CreateMessage(json, Challenge, ChallengeData(random))) == Some(KeyText(Challenge))
      ensures BufferFromJson(Envelope(Challenge, ChallengeData(random)).fields["data"].fields["challenge"]) == Some(random)
    {
      CreateMessageRoundTrip(json, Challenge, ChallengeData(random));
      BufferJsonRoundTrip(random);
    }

    // -------------------------------------------------------------------------
    // Peer connections

    /** buildStreamRequest, with the URL handleInferenceRequest composes from it. */
    function BuildStreamRequest(messages: JsValue): (r: StreamRequest)
      ensures r.httpMethod == "POST"
      ensures r.headers == map["Content-Type" := "application/json",
                               "Authorization" := "Bearer " + JsToString(config.Get("apiKey"))]
      ensures r.body.JObject? && "stream" in r.body.fields && r.body.fields["stream"] == JBool(true)
      ensures "messages" in r.body.fields <==> Truthy(messages)
      ensures Truthy(messages) ==> r.body.fields["messages"] == messages.value
      ensures "model" in r.body.fields <==> "modelName" in config.GetAll()
      ensures "model" in r.body.fields ==> r.body.fields["model"] == config.GetAll()["modelName"]
    {
      var url := JsToString(config.Get("apiProtocol")) + "://" + JsToString(config.Get("apiHostname"))
                 + ":" + NumberText(config.Get("apiPort")) + JsToString(config.Get("apiPath"));
      StreamRequest(url, "POST",
        map["Content-Type" := "application/json",
            "Authorization" := "Bearer " + JsToString(config.Get("apiKey"))],
        JObject(DefinedMember("model", config.Get("modelName"))
                + DefinedMember("messages", if Truthy(messages) then messages else Undefined)
                + map["stream" := JBool(true)]))
    }

    /** The URL is `protocol://hostname:port` followed by the path, the port
        spelled as `Number` reads it. */
    lemma RequestUrl(messages: JsValue, protocol: string, hostname: string, port: nat, path: string)
      requires config.Get("apiProtocol") == Defined(JString(protocol))
      requires config.Get("apiHostname") == Defined(JString(hostname))
      requires config.Get("apiPort") == Defined(JNumber(DecimalText(port)))
      requires config.Get("apiPath") == Defined(JString(path))
      ensures BuildStreamRequest(messages).url == protocol + "://" + hostname + ":" + DecimalText(port) + path
    {
    }

    /** Without an `apiKey` the header reads "Bearer undefined". */
    lemma MissingApiKey(messages: JsValue)
      requires "apiKey" !in config.config
      ensures BuildStreamRequest(messages).headers["Authorization"] == "Bearer undefined"
    {
      assert config.Get("apiKey") == Undefined;
      assert "Bearer " + JsToString(Undefined) == "Bearer undefined";
    }

    /** getMessagesWithSystem: may prepend the system entry to the request's
        own list, in place, and returns that same list. */
    method GetMessagesWithSystem(request: InferenceRequest) returns (r: Outcome<JsValue>)
      modifies request`messages
      ensures r == WithSystem(old(request.messages), config.Get("systemMessage"))
      ensures request.messages == if r.Returned? then r.value else old(request.messages)
    {
      r := WithSystem(request.messages, config.Get("systemMessage"));
      if r.Returned? {
        request.messages := r.value;
      }
    }

    /** What handleInferenceRequest has in hand before the `try`: the request's
        key and its messages after the system entry is considered. */
    function Prepare(data: JsValue): (r: Outcome<(JsValue, JsValue)>)
      ensures r.Threw? ==> r.error == TypeError
    {
      match Member(data, "data")
      case Threw(e) => Threw(e)
      case Returned(payload) =>
        match Member(payload, "key")
        case Threw(e) => Threw(e)
        case Returned(key) =>
          match WithSystem(Member(payload, "messages").value, config.Get("systemMessage"))
          case Threw(e) => Threw(e)
          case Returned(messages) => Returned((key, messages))
    }

    /** The extraction applied to each chunk, for the configured backend. */
    function Extractor(): Extractor
    {
      s => ExtractChunk(config.Get("apiProvider"), json, s)
    }

    /** saveCompletion, when handleInferenceRequest calls it: only with data
        collection enabled and a request whose own key is "inference". */
    function SaveOf(key: JsValue, messages: JsValue, completion: string, peerKey: seq<byte>): (r: Save)
      reads this
      ensures r != NotSaved <==> Truthy(config.Get("dataCollectionEnabled")) && key == Defined(JString(KeyText(Inference)))
      ensures r.Saved? ==> r.path == TranscriptPath(config.Get("path"), peerKey, conversationIndex)
      ensures r.Saved? ==> r.content.JArray? && |r.content.items| >= 1
                           && r.content.items[|r.content.items| - 1] == AssistantEntry(completion)
    {
      if !(Truthy(config.Get("dataCollectionEnabled")) && key == Defined(JString(KeyText(Inference)))) then NotSaved
      else
        match Spread(messages)
        case Threw(e) => SaveFailed(e)
        case Returned(items) =>
          Saved(TranscriptPath(config.Get("path"), peerKey, conversationIndex), JArray(items + [AssistantEntry(completion)]))
    }

    /** A saved transcript holds the request's messages, system entry included,
        followed by the assistant's completion. */
    lemma TranscriptHoldsConversation(key: JsValue, items: seq<JsonValue>, completion: string, peerKey: seq<byte>)
      requires SaveOf(key, Defined(JArray(items)), completion, peerKey) != NotSaved
      ensures SaveOf(key, Defined(JArray(items)), completion, peerKey)
           == Saved(TranscriptPath(config.Get("path"), peerKey, conversationIndex), JArray(items + [AssistantEntry(completion)]))
    {
    }

    /** How the relay ends, once the stream has been consumed. */
    function Conclusion(run: Run, body: Body, key: JsValue, messages: JsValue, peerKey: seq<byte>): (o: RelayOutcome)
      reads this
      ensures o.Ended? <==> Ends(run.stop, body)
      ensures o.Ended? ==> o.completion == run.completion && o.save == SaveOf(key, messages, run.completion, peerKey)
      ensures o == Hung(None) <==> run.stop == Stalled
      ensures o.Hung? && o.uncaught.Some? <==> run.stop == Exhausted && body.failure.Some?
      ensures o.Hung? && o.uncaught.Some? ==> o.uncaught == body.failure
      ensures o.StreamFailed? <==> run.stop.ExtractionThrew?
      ensures o.StreamFailed? ==> o.error == run.stop.error
    {
      match run.stop
      case ExtractionThrew(e) => StreamFailed(e)
      case Stalled => Hung(None)
      case PeerClosed => Ended(run.completion, SaveOf(key, messages, run.completion, peerKey))
      case Exhausted =>
        match body.failure
        case Some(m) => Hung(Some(m))
        case None => Ended(run.completion, SaveOf(key, messages, run.completion, peerKey))
    }

    /** What the peer sees once the body streams: the correlation frame, the
        relayed chunks, and `inferenceEnded` carrying the request's key if the
        pipeline resolves. */
    predicate StreamedAs(before: seq<Event>, after: seq<Event>, key: JsValue, messages: JsValue,
                         body: Body, peerKey: seq<byte>, o: RelayOutcome)
      reads this
    {
      && after == before + [Wrote(Text(json.stringify(EmitterFrame(key))))]
                         + RelayRun(Extractor(), body.arrivals).events
                         + (if Ends(RelayRun(Extractor(), body.arrivals).stop, body)
                            then [Wrote(Text(CreateMessage(json, InferenceEnded, key)))] else [])
      && o == Conclusion(RelayRun(Extractor(), body.arrivals), body, key, messages, peerKey)
    }

    /** The whole of handleInferenceRequest: failures before the stream write
        nothing to the peer. */
    predicate HandledAs(data: JsValue, fetch: Fetch, before: seq<Event>, after: seq<Event>,
                        peerKey: seq<byte>, o: RelayOutcome)
      reads this
    {
      match Prepare(data)
      case Threw(e) => o == Unhandled(e) && after == before
      case Returned(p) =>
        match UpstreamError(fetch(BuildStreamRequest(p.1)))
        case Some(m) => o == UpstreamFailed(m) && after == before
        case None => StreamedAs(before, after, p.0, p.1, fetch(BuildStreamRequest(p.1)).body.value, peerKey, o)
    }

    /** handleInferenceRequest. */
    method HandleInferenceRequest(data: JsValue, peer: Peer, fetch: Fetch) returns (o: RelayOutcome)
      modifies peer
      ensures HandledAs(data, fetch, old(peer.log), peer.log, peer.publicKey, o)
    {
      var payload := Member(data, "data");
      if payload.Threw? {
        return Unhandled(payload.error);
      }
      var key := Member(payload.value, "key");
      if key.Threw? {
        return Unhandled(key.error);
      }
      var request := new InferenceRequest(key.value, Member(payload.value, "messages").value);
      var messages := GetMessagesWithSystem(request);
      if messages.Threw? {
        return Unhandled(messages.error);
      }
      var upstream := fetch(BuildStreamRequest(request.messages));
      var failure := UpstreamError(upstream);
      if failure.Some? {
        return UpstreamFailed(failure.value);
      }
      o := Stream(peer, request.key, request.messages, upstream.body.value);
    }

    /** The part of handleInferenceRequest after the upstream answered with a
        readable body: the correlation frame, the pipeline, `inferenceEnded`. */
    method Stream(peer: Peer, key: JsValue, messages: JsValue, body: Body) returns (o: RelayOutcome)
      modifies peer
      ensures StreamedAs(old(peer.log), peer.log, key, messages, body, peer.publicKey, o)
    {
      var _ := peer.Write(Text(json.stringify(EmitterFrame(key))));
      var completion, stop := Pump(peer, Extractor(), body.arrivals);
      if stop.ExtractionThrew? {
        return StreamFailed(stop.error);
      } else if stop == Stalled {
        return Hung(None);
      } else if stop == Exhausted && body.failure.Some? {
        return Hung(body.failure);
      }
      var _ := peer.Write(Text(CreateMessage(json, InferenceEnded, key)));
      o := Ended(completion, SaveOf(key, messages, completion, peer.publicKey));
    }

    /** The `data` handler of a peer connection: `newConversation` advances the
        conversation index by one, `inference` relays; anything else, malformed
        text included, does nothing. */
    method OnPeerData(peer: Peer, text: string, fetch: Fetch) returns (o: Option<RelayOutcome>)
      modifies this`conversationIndex, peer
      ensures MessageKey(text) == Some(KeyText(NewConversation)) ==>
        conversationIndex == old(conversationIndex) + 1 && peer.log == old(peer.log) && o.None?
      ensures MessageKey(text) == Some(KeyText(Inference)) ==>
        conversationIndex == old(conversationIndex) && o.Some?
        && HandledAs(SafeParseJson(json, text), fetch, old(peer.log), peer.log, peer.publicKey, o.value)
      ensures MessageKey(text) != Some(KeyText(NewConversation)) && MessageKey(text) != Some(KeyText(Inference)) ==>
        conversationIndex == old(conversationIndex) && peer.log == old(peer.log) && o.None?
    ensures MessageKey(text) != Some(KeyText(Inference)) ==> unchanged(peer)
    {
      var data := SafeParseJson(json, text);
      var key := EnvelopeKey(data);
      o := None;
      if key == Some(KeyText(NewConversation)) {
        conversationIndex := conversationIndex + 1;
      } else if key == Some(KeyText(Inference)) {
        var outcome := HandleInferenceRequest(data, peer, fetch);
        o := Some(outcome);
      }
    }

    /** The `uncaughtException` hook: a reset connection lowers the connection
        count, never below zero. */
    method OnUncaughtException(message: string)
      modifies this`providerConnections
      ensures providerConnections ==
        if message == "connection reset by peer" then (if old(providerConnections) == 0 then 0 else old(providerConnections) - 1)
        else old(providerConnections)
    {
      if message == "connection reset by peer" {
        providerConnections := if providerConnections - 1 < 0 then 0 else providerConnections - 1;
      }
    }
  }

  /** The peer's output in order: the correlation frame first, then only
      upstream chunks (each `drain` wait right after one), and, when the
      pipeline resolves, `inferenceEnded` last. */
  lemma {:induction false} PeerOutputOrder(before: seq<Event>, emitter: string, extract: Extractor,
                                           arrivals: seq<Arrival>, ended: bool, endFrame: string)
    ensures var run := RelayRun(extract, arrivals);
      var added := [Wrote(Text(emitter))] + run.events + (if ended then [Wrote(Text(endFrame))] else []);
      && run.forwarded <= |arrivals|
      && added[0] == Wrote(Text(emitter))
      && (ended ==> added[|added| - 1] == Wrote(Text(endFrame)))
      && (forall k :: 0 < k < |added| && (k < |added| - 1 || !ended) && added[k].Wrote? ==> added[k].frame.Raw?)
      && RawChunks(added) == ChunksOf(arrivals[..run.forwarded])
  {
    var run := RelayRun(extract, arrivals);
    var tail := if ended then [Wrote(Text(endFrame))] else [];
    var added := [Wrote(Text(emitter))] + run.events + tail;
    DrainFollowsChunk(extract, arrivals);
    ForwardedChunks(extract, arrivals);
    assert ChunksAndDrains(run.events);
    forall k | 0 < k < |added| && (k < |added| - 1 || !ended) && added[k].Wrote?
      ensures added[k].frame.Raw?
    {
      assert added[k] == run.events[k - 1];
    }
    RawChunksAppend([Wrote(Text(emitter))], run.events);
    RawChunksAppend([Wrote(Text(emitter))] + run.events, tail);
    assert RawChunks([Wrote(Text(emitter))]) == [];
    assert RawChunks(tail) == [];
  }
}
