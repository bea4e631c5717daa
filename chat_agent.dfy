/** The client hook `useChatAgent`: it keeps the visible conversation and a
    loading flag, appends the user's turn, posts the request, and shows the
    streamed answer as one assistant message that grows with every chunk.
    The server's answer is an input; React's state updates are applied in
    the order the hook issues them. */
module ChatAgent {
  import Base
  import opened Text
  import Route

  /** The two roles a message on the client can have. */
  datatype Speaker = User | Assistant

  datatype ChatMessage = ChatMessage(speaker: Speaker, content: string)

  /** The body the hook posts: the query, the optional content query (only
      when it is a non-empty string) and the history before this turn. */
  datatype ChatRequest = ChatRequest(query: string, contentQuery: Base.Option<string>, history: seq<Base.Message>)

  /** What the hook's `fetch` gets: a rejection, or a response with its
      status, whether it has a body, its text (read on the error path), the
      decoded chunks of the body, and whether the read after the last chunk
      rejects instead of reporting the end. */
  datatype ServerReply =
    | NetworkFailure
    | Reply(status: nat, hasBody: bool, text: string, chunks: seq<string>, readFails: bool)

  /** The hook's state after a call: the messages and the loading flag. */
  datatype View = View(messages: seq<ChatMessage>, loading: bool)

  function RoleOf(s: Speaker): Base.Role {
    match s
    case User => Base.User
    case Assistant => Base.Assistant
  }

  /** `messages.map((m) => ({ role: m.role, content: m.content }))`. */
  function History(ms: seq<ChatMessage>): (h: seq<Base.Message>)
    ensures |h| == |ms|
    ensures forall i :: 0 <= i < |ms| ==> h[i].role == RoleOf(ms[i].speaker) && h[i].content == ms[i].content
    ensures forall i :: 0 <= i < |ms| ==> h[i].role != Base.System
  {
    seq(|ms|, i requires 0 <= i < |ms| => Base.Message(RoleOf(ms[i].speaker), ms[i].content))
  }

  /** The body of one call of `sendMessage`. */
  function RequestFor(ms: seq<ChatMessage>, text: string, contentQuery: Base.Option<string>): (r: ChatRequest)
    ensures r.query == text
    ensures r.contentQuery.Some? <==> contentQuery.Some? && contentQuery.value != ""
    ensures r.contentQuery.Some? ==> r.contentQuery == contentQuery
    ensures r.history == History(ms)
  {
    ChatRequest(text, if contentQuery.Some? && contentQuery.value != "" then contentQuery else Base.None, History(ms))
  }

  /** The state updater of the streaming loop: the last message becomes the
      assistant text when it already is an assistant message, otherwise the
      assistant text is appended. */
  function PutAssistant(ms: seq<ChatMessage>, text: string): (r: seq<ChatMessage>)
    ensures |ms| <= |r| <= |ms| + 1 && |r| >= 1
    ensures r[|r| - 1] == ChatMessage(Assistant, text)
    ensures |ms| > 0 ==> r[..|ms| - 1] == ms[..|ms| - 1]
    ensures |r| == |ms| <==> |ms| > 0 && ms[|ms| - 1].speaker == Assistant
    ensures |r| == |ms| + 1 ==> r[..|ms|] == ms
  {
    if |ms| > 0 && ms[|ms| - 1].speaker == Assistant then ms[..|ms| - 1] + [ChatMessage(Assistant, text)]
    else ms + [ChatMessage(Assistant, text)]
  }

  /** A second update replaces the first: the conversation holds one
      assistant message for the whole stream, not one per chunk. */
  lemma PutAssistantTwice(ms: seq<ChatMessage>, a: string, b: string)
    ensures PutAssistant(PutAssistant(ms, a), b) == PutAssistant(ms, b)
  {
    var once := PutAssistant(ms, a);
    assert once[..|once| - 1] == (if |ms| > 0 && ms[|ms| - 1].speaker == Assistant then ms[..|ms| - 1] else ms);
  }

  /** The messages after the chunks so far have been shown: unchanged
      without chunks, otherwise holding their concatenation as the
      assistant's text. */
  function Streamed(ms: seq<ChatMessage>, chunks: seq<string>): seq<ChatMessage> {
    if chunks == [] then ms else PutAssistant(ms, Concat(chunks))
  }

  /** One more chunk is one more run of the updater with the longer text. */
  lemma StreamedStep(ms: seq<ChatMessage>, chunks: seq<string>, chunk: string)
    ensures Streamed(ms, chunks + [chunk]) == PutAssistant(Streamed(ms, chunks), Concat(chunks + [chunk]))
  {
    if chunks != [] {
      PutAssistantTwice(ms, Concat(chunks), Concat(chunks + [chunk]));
    }
  }

  /** The state one call of `sendMessage` leaves, starting from the messages
      `ms`. A rejected `fetch` or a rejected read is thrown out of the call,
      before `setLoading(false)`. */
  function AfterSend(ms: seq<ChatMessage>, text: string, reply: ServerReply): (v: View)
    ensures |ms| + 1 <= |v.messages| <= |ms| + 2
    ensures v.messages[..|ms| + 1] == ms + [ChatMessage(User, text)]
    ensures !v.loading <==> reply.Reply? && (!Base.IsOk(reply.status) || !reply.hasBody || !reply.readFails)
    ensures reply.NetworkFailure? ==> v.messages == ms + [ChatMessage(User, text)]
    ensures reply.Reply? && (!Base.IsOk(reply.status) || !reply.hasBody) ==>
      v.messages == ms + [ChatMessage(User, text), ChatMessage(Assistant, "Error: " + reply.text)]
    ensures reply.Reply? && Base.IsOk(reply.status) && reply.hasBody && reply.chunks == [] ==>
      v.messages == ms + [ChatMessage(User, text)]
    ensures reply.Reply? && Base.IsOk(reply.status) && reply.hasBody && reply.chunks != [] ==>
      v.messages == ms + [ChatMessage(User, text), ChatMessage(Assistant, Concat(reply.chunks))]
  {
    var m1 := ms + [ChatMessage(User, text)];
    match reply
    case NetworkFailure => View(m1, true)
    case Reply(status, hasBody, body, chunks, readFails) =>
      if !Base.IsOk(status) || !hasBody then View(m1 + [ChatMessage(Assistant, "Error: " + body)], false)
      else
        var m := Streamed(m1, chunks);
        assert m[..|ms| + 1] == m1;
        View(m, readFails)
  }

  /** On a readable reply the messages are those of the stream, and loading
      stays set exactly when the final read rejects. */
  lemma AfterSendStreams(ms: seq<ChatMessage>, text: string, reply: ServerReply)
    requires reply.Reply? && Base.IsOk(reply.status) && reply.hasBody
    ensures AfterSend(ms, text, reply) == View(Streamed(ms + [ChatMessage(User, text)], reply.chunks), reply.readFails)
  {
  }

  /** The hook's state: the visible conversation and the loading flag. */
  class Agent {
    var messages: seq<ChatMessage>
    var loading: bool

    constructor ()
      ensures messages == [] && !loading
    {
      messages := [];
      loading := false;
    }

    /** `sendMessage(text, contentQuery)` against the server's reply; `sent`
        is the body it posts. */
    method SendMessage(text: string, contentQuery: Base.Option<string>, reply: ServerReply) returns (sent: ChatRequest)
      modifies this
      ensures sent == RequestFor(old(messages), text, contentQuery)
      ensures View(messages, loading) == AfterSend(old(messages), text, reply)
    {
      sent := ChatRequest(text, if contentQuery.Some? && contentQuery.value != "" then contentQuery else Base.None, History(messages));
      messages := messages + [ChatMessage(User, text)];
      loading := true;
      match reply {
        case NetworkFailure =>
          return;
        case Reply(status, hasBody, body, chunks, readFails) =>
          if !Base.IsOk(status) || !hasBody {
            loading := false;
            messages := messages + [ChatMessage(Assistant, "Error: " + body)];
            return;
          }
          AfterSendStreams(old(messages), text, reply);
          ShowChunks(chunks);
          if readFails {
            return;
          }
          loading := false;
      }
    }

    /** The streaming loop: `assistant += chunk` and one updater call per
        chunk, while loading stays set. */
    method ShowChunks(chunks: seq<string>)
      requires loading
      modifies this
      ensures messages == Streamed(old(messages), chunks) && loading
    {
      ghost var m1 := messages;
      var assistant := "";
      var i := 0;
      while i < |chunks|
        invariant 0 <= i <= |chunks|
        invariant assistant == Concat(chunks[..i])
        invariant messages == Streamed(m1, chunks[..i])
        invariant loading
      {
        assert chunks[..i + 1] == chunks[..i] + [chunks[i]];
        ConcatAppend(chunks[..i], [chunks[i]]);
        StreamedStep(m1, chunks[..i], chunks[i]);
        assistant := assistant + chunks[i];
        messages := PutAssistant(messages, assistant);
        i := i + 1;
      }
      assert chunks[..i] == chunks;
    }

    /** `reset`: clear the conversation. */
    method Reset()
      modifies this
      ensures messages == [] && loading == old(loading)
    {
      messages := [];
    }
  }

  /** The body the hook posts, as the server parses it: no provider, no
      model, and `contentstack` as an object that carries only `query`. */
  function ServerBody(r: ChatRequest): (b: Route.RelayBody)
    ensures b.query == Base.Some(r.query) && b.history == r.history
    ensures b.contentstack.Some? <==> r.contentQuery.Some?
    ensures b.contentstack.Some? ==> b.contentstack.value.contentType.None?
  {
    Route.RelayBody(Base.None, Base.None, Base.Some(r.query),
      if r.contentQuery.Some? then Base.Some(Route.GroundingField(Base.None, Base.None)) else Base.None,
      r.history)
  }

  /** The hook's content query never reaches the CMS: the server grounds
      only on `contentstack.contentType`, which the hook does not send, so
      whatever the fetch would answer, the decision is the same and the user
      turn is the bare query. */
  lemma ClientRequestIsNeverGrounded(ms: seq<ChatMessage>, text: string, contentQuery: Base.Option<string>,
                                     env: Route.Env, f: (string, string) -> Route.FetchResult,
                                     g: (string, string) -> Route.FetchResult)
    ensures Route.Handle(ServerBody(RequestFor(ms, text, contentQuery)), env, f)
         == Route.Handle(ServerBody(RequestFor(ms, text, contentQuery)), env, g)
    ensures Route.Handle(ServerBody(RequestFor(ms, text, contentQuery)), env, f).Relay? ==>
      Route.Handle(ServerBody(RequestFor(ms, text, contentQuery)), env, f).messages[|ms| + 1] == Base.Message(Base.User, text)
  {
  }

  /** The answer a client shows is the server's stream text: however the
      network cuts the fragments into chunks, the assistant message holds
      the tokens in order followed, when the adapter failed, by its
      `[error] ...` fragment. */
  lemma ClientShowsStreamText(ms: seq<ChatMessage>, text: string, c: Base.Completion,
                              status: nat, chunks: seq<string>, readFails: bool)
    requires Base.IsOk(status) && chunks != []
    requires Concat(chunks) == Concat(Route.Fragments(c))
    ensures AfterSend(ms, text, Reply(status, true, "", chunks, readFails)).messages[|ms| + 1] ==
      ChatMessage(Assistant, Concat(c.tokens) + (if c.outcome.Failure? then Route.ErrorFragment(c.outcome.message) else ""))
  {
    Route.StreamText(c);
  }
}
