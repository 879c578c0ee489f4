/**
 * The closed enumerations of src/constants.ts: the envelope keys spoken on
 * every connection, and the backend identifiers of the local LLM API.
 */
module Constants {

  /** The envelope keys (`serverMessageKeys`), spelled as on the wire. */
  datatype ServerMessageKey =
    | Challenge | ConectionSize | Heartbeat | Inference | InferenceEnded | Join
    | JoinAck | Leave | NewConversation | Ping | Pong | ProviderDetails
    | ReportCompletion | RequestProvider | SessionValid | VerifySession

  function KeyText(k: ServerMessageKey): (s: string)
    ensures s != []
  {
    match k
    case Challenge => "challenge"
    case ConectionSize => "conectionSize"
    case Heartbeat => "heartbeat"
    case Inference => "inference"
    case InferenceEnded => "inferenceEnded"
    case Join => "join"
    case JoinAck => "joinAck"
    case Leave => "leave"
    case NewConversation => "newConversation"
    case Ping => "ping"
    case Pong => "pong"
    case ProviderDetails => "providerDetails"
    case ReportCompletion => "reportCompletion"
    case RequestProvider => "requestProvider"
    case SessionValid => "sessionValid"
    case VerifySession => "verifySession"
  }

  /** No two keys share a spelling, so a receiver's `switch` on the text
      recovers the key. */
  lemma KeyTextInjective(a: ServerMessageKey, b: ServerMessageKey)
    requires KeyText(a) == KeyText(b)
    ensures a == b
  {
  }

  // The backend identifiers (`apiProviders`).
  const LiteLLM := "litellm"
  const LlamaCpp := "llamacpp"
  const LMStudio := "lmstudio"
  const Ollama := "ollama"
  const Oobabooga := "oobabooga"
  const OpenWebUI := "openwebui"
}
