/** The types shared by the provider adapters and the relay: chat messages,
    the outcome of one streamed completion, and what a vendor endpoint
    answers to the adapter's request. */
module Base {

  datatype Option<T> = None | Some(value: T)

  /** The role of a chat message. */
  datatype Role = System | User | Assistant

  /** One chat message; a conversation is a sequence of them in turn order. */
  datatype Message = Message(role: Role, content: string)

  /** How a streamed completion ended: normally, or with the message of the
      error the adapter throws. */
  datatype Outcome = Success | Failure(message: string)

  /** Everything one call of an adapter's `streamCompletion` produces: the
      tokens passed to `onToken`, in order, and how the call ended. */
  datatype Completion = Completion(tokens: seq<string>, outcome: Outcome)

  /** The answer of a vendor's chat-completions endpoint. `NetworkError` is a
      `fetch` that rejects. A `Response` carries the status, whether there is
      a body, the body read as text (used on the error path), the decoded
      chunks the body's reader delivers, and, when the read after the last
      chunk rejects instead of reporting the end, that error's message. */
  datatype VendorReply =
    | NetworkError(reason: string)
    | Response(status: nat, hasBody: bool, text: string, chunks: seq<string>, readError: Option<string>)

  /** `res.ok`: the status is in the range 200-299. */
  predicate IsOk(status: nat) {
    200 <= status <= 299
  }

  /** The vendors the relay can forward to. */
  datatype ProviderKind = OpenAIProvider | GroqProvider
}
