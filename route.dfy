/** The chat endpoint (`POST` of `app/api/chat/route.ts`): validate the
    query, pick provider and model, optionally fetch grounding entries from
    the CMS, assemble the prompt, and relay the adapter's tokens into the
    response stream, ending with an in-band `[error] ...` fragment when the
    adapter fails. The CMS fetch and the vendor's reply are inputs. */
module Route {
  import opened Base
  import opened Text
  import OpenAI
  import Groq

  /** A CMS entry; only its title and description are read. A field that is
      absent is `None`. */
  datatype Entry = Entry(title: Option<string>, description: Option<string>)

  /** The optional `contentstack` object of the request. */
  datatype GroundingField = GroundingField(contentType: Option<string>, locale: Option<string>)

  /** The parsed request body. `query` is `None` when it is missing or not a
      string; an absent `history` is the empty sequence. */
  datatype RelayBody = RelayBody(
    provider: Option<string>,
    model: Option<string>,
    query: Option<string>,
    contentstack: Option<GroundingField>,
    history: seq<Message>)

  /** The process environment the handler reads; an unset variable is "". */
  datatype Env = Env(defaultProvider: string, openaiKey: string, groqKey: string)

  /** What `getEntries` does: resolve to the entries, or throw. */
  datatype FetchResult = Fetched(entries: seq<Entry>) | FetchFailed(reason: string)

  /** What the handler decides before any stream exists: a JSON error with a
      status, a relay to one adapter with its key, the model and the prompt,
      or a stream over a looked-up value that is no adapter (an inherited
      `Object.prototype` member). */
  datatype Decision =
    | Reject(status: nat, error: string)
    | Relay(kind: ProviderKind, apiKey: string, model: string, messages: seq<Message>)
    | NotAnAdapter(model: string, messages: seq<Message>)

  /** What the client receives: a JSON error body with its status, or the
      text fragments of the streamed body in order. */
  datatype HttpResponse = JsonError(status: nat, error: string) | TextStream(fragments: seq<string>)

  const MaxQueryLength: nat := 8000

  const SystemPrompt: string :=
    "You are a domain-aware assistant. Prefer the provided Contentstack context when answering. "
    + "If the context is insufficient, answer concisely and suggest a clarifying question."

  /** `x || fallback` on an optional string: the value when it is a
      non-empty string, the fallback otherwise. */
  function TextOr(x: Option<string>, fallback: string): (r: string)
    ensures x.Some? && x.value != "" ==> r == x.value
    ensures (x.None? || x.value == "") ==> r == fallback
  {
    if x.Some? && x.value != "" then x.value else fallback
  }

  function Min(a: nat, b: nat): nat {
    if a <= b then a else b
  }

  // ---------------------------------------------------------------------
  // Validation

  /** The error of the query checks, in their order: presence first, then
      length; `None` when the query is acceptable. */
  function QueryError(query: Option<string>): (r: Option<string>)
    ensures r == Some("query is required") <==> query.None? || query.value == ""
    ensures r == Some("query too long") <==> query.Some? && query.value != "" && |query.value| > MaxQueryLength
    ensures r.None? <==> query.Some? && 0 < |query.value| <= MaxQueryLength
  {
    if query.None? || query.value == "" then Some("query is required")
    else if |query.value| > MaxQueryLength then Some("query too long")
    else None
  }

  // ---------------------------------------------------------------------
  // Provider and model

  /** `body.provider || process.env.DEFAULT_PROVIDER || 'openai'`. */
  function ProviderName(provider: Option<string>, defaultProvider: string): (r: string)
    ensures r != ""
    ensures provider.Some? && provider.value != "" ==> r == provider.value
    ensures (provider.None? || provider.value == "") && defaultProvider != "" ==> r == defaultProvider
    ensures (provider.None? || provider.value == "") && defaultProvider == "" ==> r == "openai"
  {
    TextOr(provider, TextOr(Some(defaultProvider), "openai"))
  }

  /** `body.model || (providerName === 'groq' ? 'llama-3.3-70b-versatile' : 'gpt-4o-mini')`. */
  function ModelFor(model: Option<string>, providerName: string): (r: string)
    ensures r != ""
    ensures model.Some? && model.value != "" ==> r == model.value
    ensures (model.None? || model.value == "") ==>
      r == if providerName == "groq" then "llama-3.3-70b-versatile" else "gpt-4o-mini"
  {
    TextOr(model, if providerName == "groq" then "llama-3.3-70b-versatile" else "gpt-4o-mini")
  }

  /** The members every plain JavaScript object inherits from
      `Object.prototype`; looking one of them up on the `providers` object
      finds a value. */
  const PrototypeMembers: set<string> := {
    "constructor", "hasOwnProperty", "isPrototypeOf", "propertyIsEnumerable",
    "toString", "toLocaleString", "valueOf", "__proto__",
    "__defineGetter__", "__defineSetter__", "__lookupGetter__", "__lookupSetter__"
  }

  /** What `providers[providerName]` finds on the object literal. */
  datatype Slot = AdapterSlot(kind: ProviderKind) | InheritedSlot | NoSlot

  /** `providers[providerName]` as written: an own property, an inherited
      prototype member, or `undefined`. */
  function LookupAsWritten(name: string): (s: Slot)
    ensures s.AdapterSlot? <==> name == "openai" || name == "groq"
    ensures s.InheritedSlot? <==> name in PrototypeMembers
  {
    if name == "openai" then AdapterSlot(OpenAIProvider)
    else if name == "groq" then AdapterSlot(GroqProvider)
    else if name in PrototypeMembers then InheritedSlot
    else NoSlot
  }

  /** The guard `if (!provider)` rejects only an `undefined` lookup. */
  predicate PassesProviderGuard(s: Slot) {
    !s.NoSlot?
  }

  /** The guard lets every prototype member name through although none of
      them is an adapter: such a request gets no 400 but a stream whose
      `provider.streamCompletion(...)` call throws. */
  lemma PrototypeNamePassesGuard(name: string)
    requires name in PrototypeMembers
    ensures PassesProviderGuard(LookupAsWritten(name))
    ensures !LookupAsWritten(name).AdapterSlot?
  {
  }

  /** The provider lookup the relay uses: only the two own keys name an
      adapter, every other name is unknown. */
  function Lookup(name: string): (r: Option<ProviderKind>)
    ensures r == Some(OpenAIProvider) <==> name == "openai"
    ensures r == Some(GroqProvider) <==> name == "groq"
    ensures r.None? <==> name != "openai" && name != "groq"
    ensures r.Some? ==> LookupAsWritten(name) == AdapterSlot(r.value)
  {
    if name == "openai" then Some(OpenAIProvider)
    else if name == "groq" then Some(GroqProvider)
    else None
  }

  /** The key the chosen adapter was constructed with. */
  function KeyFor(kind: ProviderKind, env: Env): string {
    match kind
    case OpenAIProvider => env.openaiKey
    case GroqProvider => env.groqKey
  }

  // ---------------------------------------------------------------------
  // Grounding

  /** The content type and locale to fetch, when the request names a
      non-empty content type; the locale defaults to `en-us`. */
  function GroundingTarget(cs: Option<GroundingField>): (t: Option<(string, string)>)
    ensures t.Some? <==> cs.Some? && cs.value.contentType.Some? && cs.value.contentType.value != ""
    ensures t.Some? ==> t.value.0 == cs.value.contentType.value && t.value.1 == TextOr(cs.value.locale, "en-us")
  {
    if cs.Some? && TextOr(cs.value.contentType, "") != ""
    then Some((cs.value.contentType.value, TextOr(cs.value.locale, "en-us")))
    else None
  }

  /** The header line of the grounding block; it counts every entry fetched. */
  function Header(count: nat): string {
    "Relevant content from Contentstack (" + Decimal(count) + " entries):\n"
  }

  /** `(${i + 1}) ${title || ''}: ${description || ''}` for the entry at
      position `number - 1`. */
  function ItemLine(number: nat, e: Entry): string {
    "(" + Decimal(number) + ") " + TextOr(e.title, "") + ": " + TextOr(e.description, "")
  }

  /** `entries.slice(0, 5).map(...)`: the first five entries at most,
      numbered from 1. */
  function ItemLines(entries: seq<Entry>): (r: seq<string>)
    ensures |r| == Min(|entries|, 5)
    ensures forall i :: 0 <= i < |r| ==> r[i] == ItemLine(i + 1, entries[i])
  {
    seq(Min(|entries|, 5), i requires 0 <= i < Min(|entries|, 5) => ItemLine(i + 1, entries[i]))
  }

  /** The grounding text built from the fetched entries; empty when nothing
      was found. */
  function GroundingBlock(entries: seq<Entry>): (r: string)
    ensures r == "" <==> |entries| == 0
    ensures |entries| > 0 ==> r == Header(|entries|) + Join(ItemLines(entries), "\n")
  {
    if |entries| == 0 then ""
    else
      var r := Header(|entries|) + Join(ItemLines(entries), "\n");
      assert r[0] == 'R';
      r
  }

  /** Only the first five entries are shown: entries after the fifth change
      nothing but the count in the header. */
  lemma GroundingIgnoresLaterEntries(a: seq<Entry>, b: seq<Entry>)
    requires |a| == |b| && a[..Min(|a|, 5)] == b[..Min(|b|, 5)]
    ensures GroundingBlock(a) == GroundingBlock(b)
  {
    var k := Min(|a|, 5);
    forall i | 0 <= i < k
      ensures ItemLines(a)[i] == ItemLines(b)[i]
    {
      assert a[i] == a[..k][i] == b[..k][i] == b[i];
    }
    assert ItemLines(a) == ItemLines(b);
  }

  /** Six entries give a header that says 6 and the items (1) to (5). */
  lemma SixEntriesShowFive(e: seq<Entry>)
    requires |e| == 6
    ensures GroundingBlock(e) ==
      "Relevant content from Contentstack (6 entries):\n"
      + Join([ItemLine(1, e[0]), ItemLine(2, e[1]), ItemLine(3, e[2]), ItemLine(4, e[3]), ItemLine(5, e[4])], "\n")
  {
    HeaderOfSix();
    ItemLinesOfSix(e);
  }

  lemma HeaderOfSix()
    ensures Header(6) == "Relevant content from Contentstack (6 entries):\n"
  {
    assert Decimal(6) == "6";
  }

  lemma ItemLinesOfSix(e: seq<Entry>)
    requires |e| == 6
    ensures ItemLines(e) == [ItemLine(1, e[0]), ItemLine(2, e[1]), ItemLine(3, e[2]), ItemLine(4, e[3]), ItemLine(5, e[4])]
  {
  }

  /** The grounding text of a request: empty unless a content type is named
      and the fetch succeeds with at least one entry. A failed fetch is
      swallowed. */
  function DomainContext(cs: Option<GroundingField>, fetch: (string, string) -> FetchResult): (r: string)
    ensures GroundingTarget(cs).None? ==> r == ""
    ensures GroundingTarget(cs).Some? && fetch(GroundingTarget(cs).value.0, GroundingTarget(cs).value.1).FetchFailed? ==> r == ""
    ensures GroundingTarget(cs).Some? && fetch(GroundingTarget(cs).value.0, GroundingTarget(cs).value.1).Fetched? ==>
      r == GroundingBlock(fetch(GroundingTarget(cs).value.0, GroundingTarget(cs).value.1).entries)
  {
    match GroundingTarget(cs)
    case None => ""
    case Some((contentType, locale)) =>
      match fetch(contentType, locale)
      case FetchFailed(_) => ""
      case Fetched(entries) => GroundingBlock(entries)
  }

  // ---------------------------------------------------------------------
  // Prompt

  /** The content of the final user turn: the bare query without grounding,
      otherwise the grounding, a blank line, `User: ` and the query. */
  function UserTurn(context: string, query: string): (r: string)
    ensures context == "" ==> r == query
    ensures context != "" ==> r == context + "\n\nUser: " + query
  {
    if context == "" then query else context + "\n\nUser: " + query
  }

  /** The prompt: the system message, the caller's history unchanged and in
      order, then the user turn. */
  function AssembleMessages(history: seq<Message>, userContent: string): (m: seq<Message>)
    ensures |m| == |history| + 2
    ensures m[0] == Message(System, SystemPrompt)
    ensures m[1..|m| - 1] == history
    ensures m[|m| - 1] == Message(User, userContent)
  {
    var m := [Message(System, SystemPrompt)] + history + [Message(User, userContent)];
    assert m[1..|m| - 1] == history;
    m
  }

  /** A history of a greeting and its answer followed by the query `bye`
      gives exactly four messages. */
  lemma HistoryExample()
    ensures AssembleMessages([Message(User, "hi"), Message(Assistant, "hello")], UserTurn("", "bye")) ==
      [Message(System, SystemPrompt), Message(User, "hi"), Message(Assistant, "hello"), Message(User, "bye")]
  {
  }

  // ---------------------------------------------------------------------
  // The handler up to the stream

  /** The message of the `TypeError` thrown when `provider.streamCompletion`
      is called on a value that has no such method. */
  const NotAFunctionMessage: string := "provider.streamCompletion is not a function"

  /** Everything `POST` decides before it opens the stream, with the
      provider lookup as written: an inherited prototype member passes the
      guard and is relayed to although it is no adapter. */
  function Handle(body: RelayBody, env: Env, fetch: (string, string) -> FetchResult): (d: Decision)
    ensures QueryError(body.query).Some? ==> d == Reject(400, QueryError(body.query).value)
    ensures QueryError(body.query).None? && LookupAsWritten(ProviderName(body.provider, env.defaultProvider)).NoSlot? ==>
      d == Reject(400, "unknown provider")
    ensures d.Reject? ==> d.status == 400
    ensures d.Relay? <==> QueryError(body.query).None? && LookupAsWritten(ProviderName(body.provider, env.defaultProvider)).AdapterSlot?
    ensures d.NotAnAdapter? <==> QueryError(body.query).None? && ProviderName(body.provider, env.defaultProvider) in PrototypeMembers
    ensures d.Relay? ==>
      && d.kind == LookupAsWritten(ProviderName(body.provider, env.defaultProvider)).kind
      && d.apiKey == KeyFor(d.kind, env)
    ensures !d.Reject? ==>
      && d.model == ModelFor(body.model, ProviderName(body.provider, env.defaultProvider))
      && |d.messages| == |body.history| + 2
      && d.messages[0] == Message(System, SystemPrompt)
      && d.messages[1..|d.messages| - 1] == body.history
      && d.messages[|d.messages| - 1] == Message(User, UserTurn(DomainContext(body.contentstack, fetch), body.query.value))
  {
    match QueryError(body.query)
    case Some(error) => Reject(400, error)
    case None =>
      var name := ProviderName(body.provider, env.defaultProvider);
      var model := ModelFor(body.model, name);
      match LookupAsWritten(name)
      case NoSlot => Reject(400, "unknown provider")
      case InheritedSlot =>
        var context := DomainContext(body.contentstack, fetch);
        NotAnAdapter(model, AssembleMessages(body.history, UserTurn(context, body.query.value)))
      case AdapterSlot(kind) =>
        var context := DomainContext(body.contentstack, fetch);
        Relay(kind, KeyFor(kind, env), model, AssembleMessages(body.history, UserTurn(context, body.query.value)))
  }

  /** The handler as evidently intended: the lookup knows only the two
      adapters, so every other provider name gets 400 `unknown provider`. */
  function HandleCorrected(body: RelayBody, env: Env, fetch: (string, string) -> FetchResult): (d: Decision)
    ensures !d.NotAnAdapter?
    ensures QueryError(body.query).Some? ==> d == Reject(400, QueryError(body.query).value)
    ensures QueryError(body.query).None? && Lookup(ProviderName(body.provider, env.defaultProvider)).None? ==>
      d == Reject(400, "unknown provider")
    ensures d.Relay? <==> QueryError(body.query).None? && Lookup(ProviderName(body.provider, env.defaultProvider)).Some?
    ensures d.Relay? ==> d.kind == Lookup(ProviderName(body.provider, env.defaultProvider)).value
  {
    match QueryError(body.query)
    case Some(error) => Reject(400, error)
    case None =>
      var name := ProviderName(body.provider, env.defaultProvider);
      var model := ModelFor(body.model, name);
      match Lookup(name)
      case None => Reject(400, "unknown provider")
      case Some(kind) =>
        var context := DomainContext(body.contentstack, fetch);
        Relay(kind, KeyFor(kind, env), model, AssembleMessages(body.history, UserTurn(context, body.query.value)))
  }

  /** The two handlers differ only on the prototype member names: for every
      other provider name they decide the same. */
  lemma CorrectionOnlyAffectsPrototypeNames(body: RelayBody, env: Env, fetch: (string, string) -> FetchResult)
    ensures ProviderName(body.provider, env.defaultProvider) !in PrototypeMembers ==>
      HandleCorrected(body, env, fetch) == Handle(body, env, fetch)
    ensures Handle(body, env, fetch).NotAnAdapter? ==>
      HandleCorrected(body, env, fetch) == Reject(400, "unknown provider")
  {
  }

  /** A failed grounding fetch changes nothing: the request is handled as if
      it had named no content type, so the user turn is the bare query. */
  lemma GroundingFailureIsHarmless(body: RelayBody, env: Env, fetch: (string, string) -> FetchResult)
    requires GroundingTarget(body.contentstack).Some?
    requires fetch(GroundingTarget(body.contentstack).value.0, GroundingTarget(body.contentstack).value.1).FetchFailed?
    ensures Handle(body, env, fetch) == Handle(body.(contentstack := None), env, fetch)
    ensures Handle(body, env, fetch).Relay? ==>
      Handle(body, env, fetch).messages[|body.history| + 1] == Message(User, body.query.value)
  {
  }

  // ---------------------------------------------------------------------
  // The stream

  /** The adapter the relay calls, by kind. */
  function Adapter(kind: ProviderKind, apiKey: string, reply: VendorReply, extract: string -> Option<string>): Completion {
    match kind
    case OpenAIProvider => OpenAI.StreamResult(apiKey, reply, extract)
    case GroqProvider => Groq.StreamResult(apiKey, reply, extract)
  }

  /** `[error] ${message || 'unknown'}`. */
  function ErrorFragment(message: string): (r: string)
    ensures StartsWith(r, "[error] ")
    ensures message != "" ==> r == "[error] " + message
    ensures message == "" ==> r == "[error] unknown"
  {
    "[error] " + (if message == "" then "unknown" else message)
  }

  /** The fragments enqueued for one completion: every token in order, then,
      only on failure, exactly one error fragment. */
  function Fragments(c: Completion): (r: seq<string>)
    ensures |r| == |c.tokens| + (if c.outcome.Failure? then 1 else 0)
    ensures r[..|c.tokens|] == c.tokens
    ensures c.outcome.Failure? ==> r[|c.tokens|] == ErrorFragment(c.outcome.message)
  {
    match c.outcome
    case Success => c.tokens
    case Failure(message) => c.tokens + [ErrorFragment(message)]
  }

  /** The text the client reads: the tokens concatenated in arrival order,
      followed on failure by the error fragment and by nothing on success. */
  lemma StreamText(c: Completion)
    ensures Concat(Fragments(c)) ==
      Concat(c.tokens) + (if c.outcome.Failure? then ErrorFragment(c.outcome.message) else "")
  {
    match c.outcome
    case Success =>
    case Failure(message) =>
      ConcatAppend(c.tokens, [ErrorFragment(message)]);
  }

  /** A vendor that answers 429 `rate limited` to the Groq adapter yields a
      stream of one fragment, `[error] ` followed by the adapter's message
      `Groq error: 429 rate limited`. */
  lemma RateLimitedExample(apiKey: string, chunks: seq<string>, readError: Option<string>, extract: string -> Option<string>)
    requires apiKey != ""
    ensures Fragments(Adapter(GroqProvider, apiKey, Response(429, true, "rate limited", chunks, readError), extract)) ==
      ["[error] " + Groq.VendorErrorMessage(429, "rate limited")]
    ensures Groq.VendorErrorMessage(429, "rate limited") == "Groq error: " + "429" + " " + "rate limited"
  {
    DecimalOf429();
    assert Groq.VendorErrorMessage(429, "rate limited")[0] == 'G';
  }

  lemma DecimalOf429()
    ensures Decimal(429) == "429"
  {
    assert DigitChar(4) == '4' && DigitChar(2) == '2' && DigitChar(9) == '9';
    assert Decimal(4) == "4";
    assert Decimal(42) == Decimal(4) + [DigitChar(2)] == "42";
    assert Decimal(429) == Decimal(42) + [DigitChar(9)];
  }

  /** The `ReadableStream` controller of the response: what has been enqueued
      so far and whether it is closed. */
  class Controller {
    var queued: seq<string>
    var closed: bool

    constructor ()
      ensures queued == [] && !closed
    {
      queued := [];
      closed := false;
    }

    method Enqueue(fragment: string)
      requires !closed
      modifies this
      ensures queued == old(queued) + [fragment] && !closed
    {
      queued := queued + [fragment];
    }

    method Close()
      requires !closed
      modifies this
      ensures closed && queued == old(queued)
    {
      closed := true;
    }
  }

  /** The stream's `start`: run the adapter, enqueue every token it hands to
      `onToken` in that order, and close; on failure enqueue one error
      fragment before closing. */
  method Start(c: Controller, kind: ProviderKind, apiKey: string, reply: VendorReply, extract: string -> Option<string>)
    requires c.queued == [] && !c.closed
    modifies c
    ensures c.closed
    ensures c.queued == Fragments(Adapter(kind, apiKey, reply, extract))
  {
    var tokens, outcome;
    match kind {
      case OpenAIProvider => tokens, outcome := OpenAI.StreamCompletion(apiKey, reply, extract);
      case GroqProvider => tokens, outcome := Groq.StreamCompletion(apiKey, reply, extract);
    }
    assert Completion(tokens, outcome) == Adapter(kind, apiKey, reply, extract);
    Deliver(c, tokens, outcome);
  }

  /** What `start` does with a completion: the tokens in order, the error
      fragment on failure, then `close`. */
  method Deliver(c: Controller, tokens: seq<string>, outcome: Outcome)
    requires c.queued == [] && !c.closed
    modifies c
    ensures c.closed
    ensures c.queued == Fragments(Completion(tokens, outcome))
  {
    for k := 0 to |tokens|
      invariant c.queued == tokens[..k] && !c.closed
    {
      c.Enqueue(tokens[k]);
      assert tokens[..k + 1] == tokens[..k] + [tokens[k]];
    }
    assert c.queued == tokens;
    if outcome.Failure? {
      c.Enqueue(ErrorFragment(outcome.message));
    }
    c.Close();
  }

  /** The request as `req.json()` leaves it: a parsed body, or the message
      of the error it throws. */
  datatype Request = Parsed(body: RelayBody) | Unparsable(message: string)

  /** The response `POST` gives, as a function of its inputs. A request that
      does not parse reaches the outer `catch` and gets a 500 with the
      error's message, or `unknown` when it has none. A value that is no
      adapter opens the stream, and `start` turns the `TypeError` of its
      call into the stream's only fragment. */
  function Respond(request: Request, env: Env, fetch: (string, string) -> FetchResult,
                   reply: VendorReply, extract: string -> Option<string>): (r: HttpResponse)
    ensures request.Unparsable? ==>
      r == JsonError(500, if request.message == "" then "unknown" else request.message)
    ensures request.Parsed? ==> (r.JsonError? <==> Handle(request.body, env, fetch).Reject?)
    ensures request.Parsed? && r.JsonError? ==> r.status == 400 && r.error == Handle(request.body, env, fetch).error
    ensures request.Parsed? && Handle(request.body, env, fetch).Relay? ==>
      var d := Handle(request.body, env, fetch);
      r == TextStream(Fragments(Adapter(d.kind, d.apiKey, reply, extract)))
    ensures request.Parsed? && Handle(request.body, env, fetch).NotAnAdapter? ==>
      r == TextStream([ErrorFragment(NotAFunctionMessage)])
  {
    match request
    case Unparsable(message) => JsonError(500, if message == "" then "unknown" else message)
    case Parsed(body) =>
      match Handle(body, env, fetch)
      case Reject(status, error) => JsonError(status, error)
      case Relay(kind, apiKey, _, _) => TextStream(Fragments(Adapter(kind, apiKey, reply, extract)))
      case NotAnAdapter(_, _) => TextStream([ErrorFragment(NotAFunctionMessage)])
  }

  /** `POST`: decide, and either answer with the JSON error or open the
      stream, let `start` fill it, and answer with its fragments. */
  method Post(request: Request, env: Env, fetch: (string, string) -> FetchResult,
              reply: VendorReply, extract: string -> Option<string>) returns (res: HttpResponse)
    ensures res == Respond(request, env, fetch, reply, extract)
  {
    if request.Unparsable? {
      return JsonError(500, if request.message == "" then "unknown" else request.message);
    }
    var d := Handle(request.body, env, fetch);
    match d {
      case Reject(status, error) =>
        res := JsonError(status, error);
      case Relay(kind, apiKey, _, _) =>
        var c := new Controller();
        Start(c, kind, apiKey, reply, extract);
        res := TextStream(c.queued);
      case NotAnAdapter(_, _) =>
        var c := new Controller();
        c.Enqueue(ErrorFragment(NotAFunctionMessage));
        c.Close();
        res := TextStream(c.queued);
    }
  }

  /** A valid query naming a prototype member, such as `toString`, is
      answered with a 200 stream holding only the `TypeError` fragment, where
      the corrected handler rejects it with 400 `unknown provider`. */
  lemma PrototypeNameGetsTypeErrorStream(body: RelayBody, env: Env, fetch: (string, string) -> FetchResult,
                                         reply: VendorReply, extract: string -> Option<string>)
    requires QueryError(body.query).None?
    requires ProviderName(body.provider, env.defaultProvider) in PrototypeMembers
    ensures Respond(Parsed(body), env, fetch, reply, extract) == TextStream(["[error] " + NotAFunctionMessage])
    ensures HandleCorrected(body, env, fetch) == Reject(400, "unknown provider")
  {
    PrototypeNamePassesGuard(ProviderName(body.provider, env.defaultProvider));
    assert NotAFunctionMessage[0] == 'p';
  }

  /** A missing key for the chosen provider is not a validation error: the
      stream opens and carries only the adapter's error fragment. */
  lemma MissingKeyIsInBand(body: RelayBody, env: Env, fetch: (string, string) -> FetchResult,
                           reply: VendorReply, extract: string -> Option<string>)
    requires Handle(body, env, fetch).Relay?
    requires Handle(body, env, fetch).kind == OpenAIProvider && env.openaiKey == ""
    ensures Respond(Parsed(body), env, fetch, reply, extract) == TextStream(["[error] " + OpenAI.MissingKeyMessage])
  {
    var d := Handle(body, env, fetch);
    assert d.apiKey == "";
    assert Adapter(d.kind, d.apiKey, reply, extract) == Completion([], Failure(OpenAI.MissingKeyMessage));
    assert OpenAI.MissingKeyMessage[0] == 'O';
  }
}
