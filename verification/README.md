# symmetry-cli provider core, modelled in Dafny

symmetry-cli runs a provider node of a peer-to-peer inference network. The
node registers with a coordinating server through a challenge/response
handshake, and relays chat-completion requests from peers to a local
OpenAI-style LLM backend. It streams the backend's answer back to the
requesting peer chunk by chunk, accumulates the chat text, and can save the
conversation to a file.

This project models the three core files:

- `src/utils.ts` (pure): the `{key, data}` envelope codec, the
  Server-Sent-Events framing (`data:`), and the per-backend extraction of
  chat text from one streamed fragment. Module `Utils` (`utils.dfy`).
- `src/config.ts` (mixed): `ConfigManager`, which validates the loaded
  document and answers `get`/`getAll`. Module `Config` (`config.dfy`).
- `src/provider.ts` (imperative): class `SymmetryProvider` with its mutable
  `_challenge`, `_conversationIndex`, `_serverPeer` and
  `_providerConnections`. It covers the server handshake, the peer
  `data` handlers, `getMessagesWithSystem`, `buildStreamRequest`,
  `handleInferenceRequest` and `saveCompletion`. Module `Provider`
  (`provider.dfy`). The streaming `for await` loop is in module `Relay`
  (`relay.dfy`), with a `Peer` class whose `log` records every write and
  every `drain` wait.

Supporting modules:

- `Json` (`json.dfy`): JSON values and the JavaScript behaviour the code relies
  on. This covers `undefined`, throwing member access, truthiness, `String(v)`
  and `Number(v)`. JSON.parse/stringify are a `Codec` value; `RoundTrips`
  states the one law assumed of them.
- `Hex` (`hex.dfy`): Node's `toString("hex")` and `Buffer.from(s, "hex")`.
  Decoding stops at the first pair that is not two hex digits.
- `Constants` (`constants.dfy`): the envelope keys and backend identifiers
  of `src/constants.ts`.

JavaScript exceptions are modelled as values: `Outcome<T>` is either
`Returned(value)` or `Threw(error)`. The request's outcome is a
`RelayOutcome`: unhandled rejection, caught upstream error, rejected
pipeline, a pipeline that never settles (waiting for a `drain` that never
comes, or after a body error that `pipe` does not pass on), or normal end
with the completion and what became of the transcript.

Effects outside the program are parameters:

- the 32 random challenge bytes;
- `fetch`, as a function from the built request to the backend's answer;
- the body, as a sequence of chunk arrivals, each with the peer's state at
  that moment (writable, below the high-water mark, whether `drain` ever
  fires);
- hypercore-crypto's `verify` and base64 decoding, as uninterpreted
  functions.

## Model

| member | source | states |
|---|---|---|
| Constants.KeyText | src/constants.ts:5-22 | every envelope key has a non-empty spelling |
| Constants.KeyTextInjective | src/constants.ts:5-22 | no two envelope keys share a spelling, so a `switch` on the text identifies the key |
| Json.Utf16Length | src/provider.ts:275 | a string's `length` counts UTF-16 code units: between one and two per character |
| Json.NumberOfContainers | src/provider.ts:391 | `Number([])` is 0, `Number([n])` is n, and `Number` of any object, whatever its members, is NaN |
| Json.DecimalRoundTrip | src/provider.ts:372-374 | reading back the decimal spelling of a number gives the number |
| Json.DecimalTextInjective | src/provider.ts:372-374 | different conversation indexes are spelled differently |
| Hex.HexEncode | src/provider.ts:372 | `toString("hex")` gives two hex digits per byte |
| Hex.HexDecode | src/provider.ts:212 | `Buffer.from(s, "hex")` yields at most one byte per two characters |
| Hex.DecodeEncode | src/provider.ts:212 | decoding the hex spelling of bytes gives those bytes back |
| Hex.EncodeInjective | src/provider.ts:372 | different keys have different hex spellings |
| Hex.DecodedLength | src/provider.ts:212-213 | at least n bytes decode exactly when the first 2n characters are hex digits |
| Hex.DecodePrefix | src/provider.ts:212 | the first n decoded bytes depend only on the first 2n characters |
| Utils.SafeParseJson | src/utils.ts:4-10 | the result is `undefined` exactly when JSON.parse throws, else the parsed value |
| Utils.CreateMessage | src/utils.ts:12-14 | under the codec law, the text parses back to exactly the `{key, data}` envelope |
| Utils.EnvelopeKey | src/provider.ts:195-196 | a key is seen exactly when the data is truthy and its `key` member is a non-empty string, and it is that string |
| Utils.CreateMessageRoundTrip | src/utils.ts:12-14 | parsing a created message gives `{key, data}` back; `undefined` data is omitted and reads back as `undefined` |
| Utils.IsStreamWithDataPrefix | src/utils.ts:16-18 | a text is framed exactly when a `data:` marker sits at position 0, and then it is "data:" followed by the rest |
| Utils.DataPrefixExactly | src/utils.ts:16-18 | a text is `data:`-framed exactly when it is "data:" followed by something |
| Utils.FirstMarkerFrom | src/utils.ts:25 | the first `data:` at or after a position, or the end when there is none |
| Utils.Split | src/utils.ts:25 | the first piece of `split("data:")` is the text before the first marker |
| Utils.SplitJoin | src/utils.ts:25 | joining the pieces of `split("data:")` with "data:" gives the text back |
| Utils.StreamPayload | src/utils.ts:24-27 | unframed text is parsed whole; framed text yields exactly the text between the leading `data:` and the next marker (or the end) |
| Utils.LaterEventsDropped | src/utils.ts:25 | of "data:a data:b" only `a` is parsed; later events in the fragment are dropped |
| Utils.SafeParseStreamResponse | src/utils.ts:20-31 | the result is `undefined` exactly when the selected payload does not parse |
| Utils.FramedFragmentRoundTrip | src/utils.ts:24-25 | one `data:`-framed JSON event reads back as its value |
| Utils.PlainFragmentRoundTrip | src/utils.ts:27 | an unframed JSON fragment reads back as its value |
| Utils.GetChatDataFromProvider | src/utils.ts:33-52 | only non-llamacpp backends throw, and only TypeError; llamacpp alone can yield `undefined`; other backends yield truthy content or ""; an unparsed fragment yields "" (llamacpp: `undefined`) |
| Utils.DeltaBackendsReadContent | src/utils.ts:38-42 | ollama/openwebui read `choices[0].delta.content` when truthy; a falsy or missing content gives "" |
| Utils.DefaultBackendsReadContent | src/utils.ts:45-51 | every other identifier reads the same content, but the text "undefined" also becomes ""; a falsy or missing content gives "" |
| Utils.LlamaCppReadsTopLevel | src/utils.ts:43-44 | llamacpp reads the top-level `content`, `undefined` when absent |
| Utils.MissingChoicesThrows | src/utils.ts:38-51 | a fragment without `choices` throws a TypeError for every backend but llamacpp |
| Utils.MissingDeltaSplitsBackends | src/utils.ts:38-51 | a choice without `delta` yields "" for ollama/openwebui and throws in the default branch |
| Config.FirstAbsent | src/config.ts:32-38 | no error exactly when every field is present; NotAnObject exactly for a non-container document; a missing field is the first absent one in order |
| Config.Validate | src/config.ts:19-45 | the loop and the boolean check decide exactly as `ValidateSpec` |
| Config.ValidIff | src/config.ts:19-45 | a document passes exactly when it is an object with all nine required members and a boolean `public` |
| Config.FirstMissingReported | src/config.ts:32-38 | the error names the first absent field in list order |
| Config.MissingBeforeBoolean | src/config.ts:32-44 | a document lacking a required field is never reported for the type of `public` |
| Config.FirstAbsentByPresence | src/config.ts:33 | the presence check looks at membership only, never at values |
| Config.PresenceOnly | src/config.ts:19-45 | validation depends only on which required members are present and on whether `public` is a boolean |
| Config.ConfigManager.constructor | src/config.ts:8-13 | a manager is built only from a valid document and holds it unchanged |
| Config.ConfigManager.Create | src/config.ts:8-13 | loading fails exactly when validation reports an error, with that error; otherwise the manager holds the document |
| Config.ConfigManager.GetAll | src/config.ts:15-17 | `getAll` holds exactly what `get` answers for every key |
| Config.ConfigManager.Get | src/config.ts:47-50 | a stored member's value, `undefined` exactly for absent keys |
| Relay.Peer.Observe | src/provider.ts:330-331 | the peer's state is refreshed at each arrival; the log is unchanged |
| Relay.Peer.Write | src/provider.ts:337 | a write is logged and reports whether the peer is below its high-water mark |
| Relay.Peer.AwaitDrain | src/provider.ts:339-341 | waiting for `drain` resumes only when the event fires, and then is logged |
| Relay.ExtractChunk | src/provider.ts:332-335 | extraction of one chunk throws only TypeError and never for llamacpp; an unparsable chunk gives `undefined` (llamacpp) or "" |
| Relay.StepRun | src/provider.ts:331-344 | one arrival continues the loop exactly when the peer is writable, extraction returns, and the write is accepted or drained; a chunk goes out exactly when the peer is writable and extraction returns |
| Relay.RelayRun | src/provider.ts:330-345 | the loop's reference definition: it forwards at most one chunk per arrival, and all of them when it runs out of arrivals |
| Relay.Step | src/provider.ts:331-344 | one pass of the loop body produces exactly `StepRun`'s piece, stop reason and peer events |
| Relay.Pump | src/provider.ts:329-347 | the loop's completion, stop reason and peer events are exactly those of `RelayRun` |
| Relay.RelayFromRest | src/provider.ts:330 | the loop from position i after what is done is that work followed by the run of the remaining arrivals |
| Relay.RawChunksAppend | src/provider.ts:337 | the forwarded chunks of two event runs concatenate |
| Relay.ForwardedBound | src/provider.ts:331-337 | every forwarded chunk arrived while the peer was writable and was extracted without throwing |
| Relay.ForwardedChunks | src/provider.ts:337 | the chunks written to the peer are exactly the first `forwarded` upstream chunks, in order, each once |
| Relay.ForwardedCompletion | src/provider.ts:332-335 | the completion is the concatenation of the pieces of exactly the forwarded chunks |
| Relay.StopReason | src/provider.ts:329-346 | the loop is exhausted exactly when every arrival went through without a stall; closing, a throw and a stall are each located at the arrival that caused them |
| Relay.DrainFollowsChunk | src/provider.ts:337-341 | the loop writes only upstream chunks, and waits for `drain` only right after a write |
| Relay.DeliversAll | src/provider.ts:329-346 | with a writable, draining peer and non-throwing extraction, every chunk goes through and the completion covers all of them |
| Relay.LlamaCppUnparsedChunk | src/provider.ts:332-335 | with llamacpp an unparsable chunk never throws and adds the text "undefined" to the completion |
| Provider.GetServerPublicKey | src/provider.ts:211-219 | the key is the hex-decoded text when that is 32 bytes; otherwise the error "Expected a 32-byte public key, but got N bytes" with the decoded length N |
| Provider.ServerKeyAccepted | src/provider.ts:211-219 | a key is accepted exactly when its first 64 characters are hex digits and no further digit pair follows |
| Provider.ServerKeyRoundTrip | src/provider.ts:211-219 | the hex spelling of any 32-byte key is accepted as that key |
| Provider.ServerKeyBytes | src/provider.ts:230-232 | only a string configuration value is decoded |
| Provider.SignatureBytes | src/provider.ts:233 | the signature is base64 of `signature.data`, and decoding succeeds only when that is a string |
| Provider.BufferJsonRoundTrip | src/provider.ts:175-178 | the challenge bytes survive their JSON (Buffer) form |
| Provider.WithSystem | src/provider.ts:273-282 | nullish messages throw TypeError; otherwise the list is returned unchanged or with the system entry prepended |
| Provider.SystemPromptIff | src/provider.ts:275-280 | for an array the system entry is prepended exactly when there are two messages and the system message is truthy |
| Provider.NonArrayPairThrows | src/provider.ts:275-276 | a string whose `length` is 2 makes `unshift` throw when a system message is set |
| Provider.AstralCharacterThrows | src/provider.ts:275-276 | a single emoji has a `length` of 2, so it too makes `unshift` throw |
| Provider.UpstreamError | src/provider.ts:298-313 | the stream proceeds exactly for a 2xx response with a body; otherwise the network error's own message, "Server responded with status code: N", or "Failed to get a ReadableStream from the response" |
| Provider.TranscriptPath | src/provider.ts:371-374 | the file lies in the configured directory, named by the peer key in hex, and ends in ".json" after the conversation index |
| Provider.TranscriptPathsDistinct | src/provider.ts:371-374 | for keys of one length, two saves share a file only for the same peer key and conversation index |
| Provider.SymmetryProvider.constructor | src/provider.ts:19-34 | a new provider has no challenge, conversation index 0, no server peer and no connections |
| Provider.SymmetryProvider.JoinData | src/provider.ts:181-186 | the join data holds every configured member; `discoveryKey` holds the hex key, or is absent when there is none |
| Provider.SymmetryProvider.OnServerConnection | src/provider.ts:167-186 | stores the peer and the fresh challenge, then writes exactly the challenge frame and the join frame, in that order |
| Provider.SymmetryProvider.HandleServerVerification | src/provider.ts:221-249 | no challenge: nothing is checked; otherwise `verify` decides on the stored challenge, the decoded signature and the decoded key; a bad key or signature is caught |
| Provider.SymmetryProvider.BadServerKeyCaught | src/provider.ts:230-248 | a key not decoding to 32 bytes is reported with its decoded length, whatever the signature |
| Provider.SymmetryProvider.OnServerData | src/provider.ts:188-207 | `ping` gets exactly one `pong` and nothing else; `challenge` goes to verification; any other text writes nothing |
| Provider.SymmetryProvider.MessageKey | src/provider.ts:191-196 | a key is seen exactly when the text parses to an object whose `key` is a non-empty string, and it is that string |
| Provider.SymmetryProvider.ChallengeFrameCarriesChallenge | src/provider.ts:173-179 | the challenge frame parses back with the key `challenge` and carries the stored bytes |
| Provider.SymmetryProvider.BuildStreamRequest | src/provider.ts:388-408 | POST with JSON content type and bearer authorization; the body streams, carries the messages exactly when truthy and the model exactly when configured |
| Provider.SymmetryProvider.RequestUrl | src/provider.ts:295-296 | the URL is protocol://hostname:port followed by the path |
| Provider.SymmetryProvider.MissingApiKey | src/provider.ts:397 | without an `apiKey` the header is "Bearer undefined" |
| Provider.SymmetryProvider.GetMessagesWithSystem | src/provider.ts:273-282 | the request's own list is changed in place exactly as `WithSystem` says, and returned |
| Provider.SymmetryProvider.Prepare | src/provider.ts:288-289 | anything thrown before the `try` is a TypeError |
| Provider.SymmetryProvider.SaveOf | src/provider.ts:353-358 | a save happens exactly with data collection enabled and the key "inference"; it goes to the transcript path and ends with the assistant's completion |
| Provider.SymmetryProvider.TranscriptHoldsConversation | src/provider.ts:366-386 | a saved transcript is the request's messages, system entry included, followed by the completion |
| Provider.SymmetryProvider.Conclusion | src/provider.ts:316-363 | the request ends normally exactly when the body is exhausted without error or the peer closed; a thrown extraction is a caught rejection; a stall never settles; a body error never settles either and carries its message to the uncaught-exception hook; the completion and the save come from the run |
| Provider.SymmetryProvider.HandleInferenceRequest | src/provider.ts:284-364 | errors before the `try` and upstream errors write nothing to the peer; otherwise the peer sees the correlation frame, the relayed run and, when the pipeline resolves, `inferenceEnded` |
| Provider.SymmetryProvider.Stream | src/provider.ts:316-358 | after a good response the peer sees exactly the correlation frame, the relayed run, and `inferenceEnded` when the pipeline resolves, with the matching outcome |
| Provider.SymmetryProvider.OnPeerData | src/provider.ts:251-271 | `newConversation` advances the index by exactly one and leaves the peer untouched; `inference` is handled as above; anything else changes neither the index nor the peer, and writes nothing |
| Provider.SymmetryProvider.OnUncaughtException | src/provider.ts:75-79 | "connection reset by peer" lowers the connection count by one, never below zero; other errors change nothing |
| Provider.PeerOutputOrder | src/provider.ts:323-351 | the peer sees the correlation frame first and only upstream chunks after it; `inferenceEnded`, when written, is last; the chunks are the first forwarded ones in order |

## Left out

- The overlay network (Hyperswarm): joining, discovery-key derivation, key
  pairs, `init`, `destroySwarms`, `joinServer` and swarm setup
  (src/provider.ts:36-69, 81-84, 159-166). Peers arrive as `Peer` objects; the discovery key is a
  constructor parameter.
- `testProviderCall` and its 30-second timer (src/provider.ts:86-157). It is a
  self-test with no effect on the state modelled here.
- The SIGINT handler, logging and console output. Outcomes that are only
  logged are returned as values, such as `Verification` and
  `RelayOutcome.UpstreamFailed`.
- Reading the configuration file and parsing YAML (src/config.ts:9-10).
  `ConfigManager.Create` receives the loaded document.
- `_isPublic` (src/provider.ts:24, 33). It is only read by the overlay
  setup, which is not modelled.
- JSON.parse/JSON.stringify are not implemented. A `Codec` carries them,
  and round-trip lemmas assume `RoundTrips`. Object member order and the
  exact text JSON.stringify produces are not modelled.
- hypercore-crypto `verify`, `randomBytes` and base64 decoding are
  uninterpreted parameters.
- `Number(apiPort)` of a string that is neither empty nor decimal digits is
  taken to be NaN. Signs, decimals, exponents and whitespace are not parsed.
- String indexing (`At`) is by character, not by UTF-16 code unit. It is
  used only for `choices[0]`, where only whether the result is
  `undefined` matters, so the difference cannot be observed there.
- Byte streams: chunks are strings. UTF-8 decoding, chunk boundaries that
  split an event, and `Readable.fromWeb`/`PassThrough` plumbing are not
  modelled. A JSON event spread over two chunks is not modelled.
- `pipeline` is modelled as resolving after the loop ends normally or breaks,
  and rejecting when extraction throws. A body that errors after its last
  chunk never ends `peerStream`, because `pipe` (src/provider.ts:318) does
  not pass the error on. The outcome is `Hung(Some(message))`, and that
  message is the one the `uncaughtException` hook would receive. The model
  does not call `OnUncaughtException` with it. A body error in the middle
  of the chunks is not modelled.
- Concurrency: interleaving of several relays or handlers is not
  modelled. Each handler runs to completion, and the peer's state at each
  chunk comes from the input.
- `fs.writeFile` is reported as the path and the JSON content it would
  receive. Write failures and the file system are not modelled. Because
  `saveCompletion` is not awaited, a failing spread of `messages`
  becomes `SaveFailed` and not a caught error.
- `_providerConnections` is never incremented anywhere in the source; the
  model keeps only the floored decrement.
- `Buffer.from` on a server key or signature that is not a string is
  modelled as a TypeError. Node would convert arrays and buffers.
- No Verified/Failed state is stored and `_challenge` is never cleared
  (src/provider.ts:225-248). `HandleServerVerification` returns its verdict
  and changes nothing.
- A chunk that arrives after the peer stopped being writable is dropped by
  the `break` (src/provider.ts:342-343). `Relay.DeliversAll` states when
  every chunk goes through.
- The texts of the configuration errors are not modelled. `ConfigError`
  names which check failed and, for a missing member, which member.
- src/start.ts, src/setup.ts, src/symmetry.ts and src/logger.ts (the CLI,
  setup and logging) are not part of this model.
