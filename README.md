# Streaming chat relay: a Dafny model

This project models the core of a small chat relay built with Next.js.

- A browser hook, `useChatAgent`, keeps the conversation. It posts the user's query with the earlier turns to `/api/chat`. It shows the streamed answer as one assistant message that grows with every chunk.
- The route handler validates the query and picks a provider (OpenAI or Groq) and a model. It can ground the prompt on entries fetched from a CMS (Contentstack). It assembles the system, history and user messages and opens a plain-text stream.
- The stream relays every token of the chosen adapter. It ends with an in-band `[error] ...` fragment when the adapter fails.
- The two provider adapters read the vendor's server-sent-event body chunk by chunk. Each chunk is split into lines on its own. A line is trimmed and then skipped, ends the stream (`data: [DONE]` or `[DONE]`), or yields the content fragment of its JSON payload.

## Modules

- `Text` (`text.dfy`) gives JavaScript's string built-ins exact meanings:
  - `trim` over the full ECMAScript white-space set;
  - `startsWith`;
  - `split('\n')` and `join`;
  - concatenation;
  - `String(n)` for counts and status codes.
- `Base` (`base.dfy`) holds the shared types. It covers the adapter interface's message type, the outcome of a streamed completion and what a vendor endpoint answers.
- `EventStream` (`event_stream.dfy`) is the record filter both adapters share.
  - `Classify` is the action of one line.
  - `Scan` is the pure meaning of a whole body, given as chunks.
  - The lemmas prove composition, the sentinel and the loss of split records.
- `OpenAI` and `Groq` (`openai.dfy`, `groq.dfy`) are the adapters.
  - `StreamCompletion` is the imperative read loop, a chunk loop around a line loop with `continue` and an early `return`. Its postcondition ties it to the pure `StreamResult`.
  - `Groq.SameStreamAsOpenAI` shows the two adapters differ only in their error texts.
- `Route` (`route.dfy`) is the handler:
  - validation, the provider and model defaults and the provider lookup;
  - grounding text and prompt assembly;
  - the `ReadableStream` controller as a class, `start` as a method, and `POST`.
- `ChatAgent` (`chat_agent.dfy`) is the hook. Its state is a class with `messages` and `loading`. `sendMessage` runs its streaming loop against a pure specification `AfterSend`.

## Inputs

Things the code obtains from outside become inputs of the model:

- the vendor's reply: a network error, or a status, a body flag, the error text, the decoded chunks and an optional read error after the last chunk;
- the CMS fetch: a function from content type and locale to entries or a failure;
- the process environment: the default provider and the two API keys;
- the parse of each SSE payload: a function `extract` standing for `JSON.parse(...)?.choices?.[0]?.delta?.content`, with `None` for a parse error or a missing field;
- the server's reply, as the hook sees it.

## Proved properties

- The handler rejects exactly the inputs the code rejects: a missing or empty query, a query over 8000 characters, and a provider name that finds nothing on the `providers` object. A name inherited from `Object.prototype`, such as `toString`, is not rejected: it gets a 200 stream holding only the `TypeError` fragment (`Route.PrototypeNameGetsTypeErrorStream`). The corrected handler `Route.HandleCorrected` differs from it on those names alone.
- The grounding block counts all entries but lists at most five. A failed fetch leaves the request as if no grounding had been asked for.
- The hook's content query never reaches the CMS. The hook sends `contentstack: { query }`, but the server grounds only on `contentstack.contentType` (`ChatAgent.ClientRequestIsNeverGrounded`).
- The prompt is the system message, the history unchanged and in order, and the user turn.
- A stream is every token in order, followed by exactly one error fragment on failure and nothing more.
- A missing API key is reported inside a 200 stream, not as an HTTP error.
- Each chunk is split on its own, so a record `data: X` whose read is cut after `da` is dropped whatever `X` is (`EventStream.SplitRecordIsDropped`). Lines within a chunk and the chunks themselves compose, and nothing after the sentinel counts.
- The hook shows one assistant message per reply, holding the concatenation of the chunks received. Whatever the chunking, that message is the stream's tokens followed by the error fragment (`ChatAgent.ClientShowsStreamText`).

## Notes on behaviour

- **User turn.** The grounded user turn is `context + "\n\nUser: " + query`, exactly as `app/api/chat/route.ts:76-78` writes it.
- **Sentinel without a space.** `data:[DONE]` is not the sentinel. It is handed to the parser as the payload `[DONE]` (`EventStream.UnspacedDoneIsNotSentinel`).

## Model

| member | source | states |
|---|---|---|
| Text.IsSpace | lib/providers/openai.ts:41-47 | (no contract) the ECMAScript white-space and line-terminator characters that `trim()` and `\s` match |
| Text.LeadingSpaces | lib/providers/openai.ts:47 | the count of leading white-space characters: all of them are space and the next one is not |
| Text.TextEnd | lib/providers/openai.ts:41 | the length without trailing white space: everything after it is space and the character before it is not |
| Text.TrimStart | lib/providers/openai.ts:47 | the result is empty or starts with a non-space character |
| Text.TrimEnd | lib/providers/openai.ts:41 | the result is empty or ends with a non-space character |
| Text.Trim | lib/providers/openai.ts:41 | the result is no longer than the input and neither starts nor ends with white space |
| Text.TrimRemovesOnlySpace | lib/providers/openai.ts:41 | the trimmed text is an infix of the line and everything cut off on each side is white space |
| Text.TrimIdempotent | lib/providers/openai.ts:41 | trimming twice is trimming once |
| Text.TrimOfTrimmed | lib/providers/openai.ts:41 | text that neither starts nor ends with space is its own trim |
| Text.TrimKeepsFirst | lib/providers/openai.ts:41 | text starting with a non-space character keeps that character first after trimming |
| Text.TrimDropsCarriageReturn | lib/providers/openai.ts:39-41 | a line with a trailing carriage return trims to the same text as the line without it, so splitting on `\r?\n` or `\n` gives the same trimmed lines |
| Text.StartsWith | lib/providers/openai.ts:46 | (no contract) `s.startsWith(prefix)`: the prefix is no longer than `s` and equals its first characters |
| Text.SplitLines | lib/providers/openai.ts:39 | there is at least one piece and no piece contains a line break |
| Text.Join | app/api/chat/route.ts:59 | (no contract) `parts.join(sep)`: the parts in order with `sep` between neighbours |
| Text.JoinSplitLines | lib/providers/openai.ts:39 | joining the pieces with line breaks gives back the chunk |
| Text.SplitLinesSingle | lib/providers/openai.ts:39 | text without a line break is exactly one line |
| Text.SplitLinesAround | lib/providers/openai.ts:39 | the lines of `a + "\n" + b` are the lines of `a` followed by the lines of `b` |
| Text.Concat | components/useChatAgent.tsx:51 | (no contract) the chunks appended in order, as `assistant += chunk` accumulates them |
| Text.ConcatAppend | components/useChatAgent.tsx:51 | concatenating two runs of chunks is concatenating their concatenations |
| Text.Decimal | lib/providers/openai.ts:28 | the rendering of a number is a non-empty string of decimal digits with no leading zero unless the number is 0 |
| Text.DigitRoundTrip | lib/providers/openai.ts:28 | a digit's character reads back as the digit |
| Text.DecimalRoundTrip | app/api/chat/route.ts:55 | the decimal rendering of a count reads back as that count |
| Base.IsOk | lib/providers/openai.ts:26 | (no contract) `res.ok`: the status lies in the range 200 to 299 |
| EventStream.IsSentinel | lib/providers/openai.ts:43 | (no contract) a trimmed line is the sentinel exactly when it is `data: [DONE]` or `[DONE]` |
| EventStream.Payload | lib/providers/openai.ts:47 | the payload after `data:` and its white space is empty or starts with a non-space character |
| EventStream.PayloadFollowsPrefix | lib/providers/openai.ts:47 | the payload is a suffix of the line, and only white space separates it from the `data:` prefix |
| EventStream.PayloadUnspaced | lib/providers/openai.ts:47 | `data:` directly followed by unspaced text has that text as payload |
| EventStream.PayloadSpaced | lib/providers/openai.ts:47 | `data: ` followed by unspaced text has that text as payload |
| EventStream.Classify | lib/providers/openai.ts:41-55 | a line stops the stream if and only if it trims to a sentinel. A blank line or a line without `data:` is skipped. A line emits if and only if it has the prefix, is no sentinel and its payload extracts to a non-empty token, and it emits exactly that token |
| EventStream.Then | lib/providers/openai.ts:34-57 | (no contract) a stopped stretch stays as it is; otherwise the next stretch's tokens are appended and its stop flag taken |
| EventStream.ScanLines | lib/providers/openai.ts:40-56 | (no contract) the line loop of one chunk: lines in order, skipping, emitting, and stopping at the first sentinel |
| EventStream.Scan | lib/providers/openai.ts:34-57 | (no contract) the chunk loop: each chunk's lines scanned on their own, in order, until a sentinel |
| EventStream.ThenAssociative | lib/providers/openai.ts:34-57 | running three stretches of a stream in sequence does not depend on grouping |
| EventStream.ScanLinesFrom | lib/providers/openai.ts:40-56 | one step of the line loop from line `j`: stop, skip to `j+1`, or emit and continue at `j+1` |
| EventStream.ScanLinesAppend | lib/providers/openai.ts:40-56 | the lines of `a + b` give what `a` gives followed, unless `a` stopped, by what `b` gives |
| EventStream.ScanAppend | lib/providers/openai.ts:34-57 | the chunks of `a + b` give what `a` gives followed, unless `a` stopped, by what `b` gives |
| EventStream.SentinelIsFinal | lib/providers/openai.ts:43-45 | once a body has stopped, any further chunks change nothing |
| EventStream.SentinelLineIsFinal | lib/providers/openai.ts:43-45 | a sentinel line stops its chunk with the tokens before it, whatever lines follow |
| EventStream.ScanIsScanOfAllLines | lib/providers/openai.ts:37-40 | scanning chunk by chunk equals scanning the concatenated per-chunk lines: a chunk's last line is never joined with the next chunk's first |
| EventStream.ScanLinesTokensNonEmpty | lib/providers/openai.ts:52 | no token emitted from a chunk's lines is empty |
| EventStream.ScanTokensNonEmpty | lib/providers/openai.ts:52 | no token emitted from a body is empty |
| EventStream.UnspacedDoneIsNotSentinel | lib/providers/openai.ts:43-47 | `data:[DONE]` does not stop the stream; it emits what the parser makes of `[DONE]` |
| EventStream.ScanOfSingleLineChunks | lib/providers/openai.ts:37-40 | chunks without line breaks are scanned as one line each |
| EventStream.RecordLineShape | lib/providers/openai.ts:41-46 | the line `data: X`, for `X` with no outer white space other than `[DONE]`, is its own trim, has the prefix and is no sentinel |
| EventStream.RecordLineEmits | lib/providers/openai.ts:41-52 | such a line without line breaks emits the non-empty token `X` extracts to, and is skipped otherwise |
| EventStream.ClassifyTrimmedRecord | lib/providers/openai.ts:41-52 | a trimmed line with the prefix that is no sentinel emits exactly the non-empty token its payload extracts to, and is skipped otherwise |
| EventStream.OneLineChunk | lib/providers/openai.ts:37-56 | a chunk without line breaks stops, emits one token or emits nothing, exactly as its one line is classified |
| EventStream.WholeRecordEmits | lib/providers/openai.ts:34-57 | the record `data: X` delivered in one chunk emits the token `X` extracts to and does not stop |
| EventStream.UnprefixedLineSkips | lib/providers/openai.ts:41-46 | a line starting with a character that is neither white space, `d` nor `[` is skipped |
| EventStream.FirstHalfSkips | lib/providers/openai.ts:46 | the fragment `da` lacks the prefix and is skipped |
| EventStream.SecondHalfSkips | lib/providers/openai.ts:37-46 | a chunk `ta: X` without line breaks lacks the prefix: it emits nothing and does not stop |
| EventStream.SplitRecordIsDropped | lib/providers/openai.ts:34-57 | for every `X` without line breaks, the record `data: X` cut into the chunks `da` and `ta: X` emits nothing and does not stop: it is lost |
| OpenAI.VendorErrorMessage | lib/providers/openai.ts:28 | (no contract) `OpenAI error: ` followed by the status in decimal, a space and the reply text |
| OpenAI.StreamResult | lib/providers/openai.ts:7-57 | a missing key, a network error and a non-ok or bodiless reply fail with their messages and no tokens. Otherwise the tokens are the scan of the body and the call succeeds unless a read fails before the sentinel |
| OpenAI.StreamCompletion | lib/providers/openai.ts:8-57 | the read loop produces exactly the tokens and outcome of `StreamResult` |
| Groq.VendorErrorMessage | lib/providers/groq.ts:23 | (no contract) `Groq error: ` followed by the status in decimal, a space and the reply text |
| Groq.StreamResult | lib/providers/groq.ts:7-47 | as for OpenAI, with the Groq key message and the `Groq error:` prefix |
| Groq.StreamCompletion | lib/providers/groq.ts:8-47 | the read loop produces exactly the tokens and outcome of `StreamResult` |
| Groq.SameStreamAsOpenAI | lib/providers/groq.ts:26-47 | both adapters emit the same tokens and succeed alike. Their outcomes differ exactly on a missing key or a failed reply, where only the message text differs |
| Route.TextOr | app/api/chat/route.ts:27 | the value when it is a non-empty string, else the fallback |
| Route.QueryError | app/api/chat/route.ts:20-25 | "query is required" exactly for a missing or empty query; otherwise "query too long" exactly when it exceeds 8000; no error exactly for 1 to 8000 characters |
| Route.ProviderName | app/api/chat/route.ts:27 | the first non-empty of the body's provider, the default provider and `openai` |
| Route.ModelFor | app/api/chat/route.ts:28-32 | the body's model when given, else `llama-3.3-70b-versatile` for groq and `gpt-4o-mini` otherwise |
| Route.LookupAsWritten | app/api/chat/route.ts:34-39 | an adapter exactly for `openai` and `groq`, and an inherited member exactly for the `Object.prototype` names |
| Route.PrototypeNamePassesGuard | app/api/chat/route.ts:39-42 | every prototype member name passes the `!provider` guard although it names no adapter |
| Route.Lookup | app/api/chat/route.ts:34-42 | only `openai` and `groq` name an adapter, each its own; every other name is unknown |
| Route.KeyFor | app/api/chat/route.ts:35-36 | (no contract) the OpenAI key for the OpenAI adapter and the Groq key for the Groq adapter |
| Route.GroundingTarget | app/api/chat/route.ts:46-51 | grounding is requested exactly when a non-empty content type is given, with the locale defaulting to `en-us` |
| Route.Header | app/api/chat/route.ts:55 | (no contract) the header line naming the count of all entries fetched |
| Route.ItemLine | app/api/chat/route.ts:58 | (no contract) `(n) title: description`, with a missing or empty title or description as the empty text |
| Route.ItemLines | app/api/chat/route.ts:56-58 | at most five item lines, line `i` numbered `i+1` and built from entry `i` |
| Route.GroundingBlock | app/api/chat/route.ts:53-60 | empty exactly when there are no entries, else the header with the full count followed by the item lines joined by line breaks |
| Route.GroundingIgnoresLaterEntries | app/api/chat/route.ts:56-57 | entries after the fifth do not change the grounding text |
| Route.SixEntriesShowFive | app/api/chat/route.ts:53-60 | six entries give a header saying 6 and the items (1) to (5) |
| Route.HeaderOfSix | app/api/chat/route.ts:55 | the header for six entries, written out |
| Route.ItemLinesOfSix | app/api/chat/route.ts:56-58 | six entries give the item lines of the first five |
| Route.DomainContext | app/api/chat/route.ts:45-64 | empty with no target and on a failed fetch, else the grounding block of the fetched entries |
| Route.UserTurn | app/api/chat/route.ts:74-79 | the bare query without grounding, else context, a blank line, `User: ` and the query |
| Route.AssembleMessages | app/api/chat/route.ts:71-80 | the system prompt first, the history unchanged in between and the user turn last, so the length is the history's plus two |
| Route.HistoryExample | app/api/chat/route.ts:71-80 | the history hi/hello with the query bye gives exactly system, hi, hello, bye |
| Route.PassesProviderGuard | app/api/chat/route.ts:39-42 | (no contract) the guard `if (!provider)`: it lets through every lookup except one that finds nothing |
| Route.Handle | app/api/chat/route.ts:20-80 | validation errors give 400 with their messages, and a name that finds nothing on `providers` gives 400 `unknown provider`. An `Object.prototype` member name gives the not-an-adapter decision. Otherwise it relays to the looked-up adapter with its key. Whenever it does not reject, the model is the chosen one and the prompt is the system message, the history and the user turn |
| Route.HandleCorrected | app/api/chat/route.ts:20-80 | never the not-an-adapter decision: every provider name other than `openai` and `groq` gives 400 `unknown provider`, and those two relay to their own adapter |
| Route.CorrectionOnlyAffectsPrototypeNames | app/api/chat/route.ts:34-42 | the handler as written and the corrected one decide the same for every name outside `Object.prototype`'s members; where the one as written finds no adapter, the corrected one rejects with 400 `unknown provider` |
| Route.GroundingFailureIsHarmless | app/api/chat/route.ts:61-63 | a failed fetch gives the same decision as a request without grounding, and the user turn is the bare query |
| Route.Adapter | app/api/chat/route.ts:88 | (no contract) the completion of the OpenAI or the Groq adapter, by kind |
| Route.ErrorFragment | app/api/chat/route.ts:96 | `[error] ` followed by the message, or by `unknown` when the message is empty |
| Route.Fragments | app/api/chat/route.ts:87-99 | the tokens in order, then exactly one error fragment on failure and nothing on success |
| Route.StreamText | app/api/chat/route.ts:87-99 | the streamed text is the tokens concatenated, followed on failure by the error fragment |
| Route.RateLimitedExample | app/api/chat/route.ts:95-98 | a 429 `rate limited` reply to the Groq adapter gives the single fragment `[error] Groq error: 429 rate limited` |
| Route.DecimalOf429 | lib/providers/groq.ts:23 | the status 429 renders as `429` |
| Route.Controller.constructor | app/api/chat/route.ts:85 | a new stream is open and empty |
| Route.Controller.Enqueue | app/api/chat/route.ts:91 | appends one fragment to an open stream |
| Route.Controller.Close | app/api/chat/route.ts:94 | closes the stream, keeping what it holds |
| Route.Start | app/api/chat/route.ts:86-100 | the stream ends closed, holding exactly the fragments of the adapter's completion |
| Route.Deliver | app/api/chat/route.ts:87-99 | the stream ends closed, holding the tokens in order followed, on failure only, by one error fragment |
| Route.Respond | app/api/chat/route.ts:10-114 | an unparsable request gives 500 with its message or `unknown`. A rejected request gives its 400 JSON error. A relayed request gets a stream of the adapter's fragments, and a not-an-adapter decision a stream holding only the `TypeError` fragment |
| Route.Post | app/api/chat/route.ts:10-114 | the handler answers exactly `Respond` |
| Route.PrototypeNameGetsTypeErrorStream | app/api/chat/route.ts:34-42 | a valid query naming a prototype member is answered with a 200 stream whose only fragment is `[error] provider.streamCompletion is not a function`, where the corrected handler rejects it with 400 `unknown provider` |
| Route.MissingKeyIsInBand | app/api/chat/route.ts:35-36 | with no OpenAI key a relayed request gets a stream holding only `[error] OPENAI_API_KEY not set on server` |
| ChatAgent.RoleOf | components/useChatAgent.tsx:22 | (no contract) a user message keeps the user role and an assistant message the assistant role |
| ChatAgent.History | components/useChatAgent.tsx:22 | the history has the same length as the messages, with each role and content copied in order and no system role |
| ChatAgent.RequestFor | components/useChatAgent.tsx:19-23 | the body carries the text as query, the content query only when it is non-empty, and the history of the earlier messages |
| ChatAgent.PutAssistant | components/useChatAgent.tsx:52-62 | the last message becomes the assistant text. The length grows by one exactly when the last message was not an assistant's, and every earlier message is kept |
| ChatAgent.PutAssistantTwice | components/useChatAgent.tsx:52-62 | a second update replaces the first, so a stream yields one assistant message |
| ChatAgent.Streamed | components/useChatAgent.tsx:47-63 | (no contract) the messages unchanged without chunks, otherwise the updater applied with the concatenation of the chunks |
| ChatAgent.StreamedStep | components/useChatAgent.tsx:47-63 | one more chunk is one more updater call with the concatenation so far |
| ChatAgent.AfterSend | components/useChatAgent.tsx:14-66 | the earlier messages and the user turn are kept and at most one message is added. An error reply adds `Error: ` and its text; a stream adds its concatenated chunks, or nothing without chunks. Loading is cleared exactly when the call completes |
| ChatAgent.AfterSendStreams | components/useChatAgent.tsx:42-65 | a readable reply leaves the streamed messages, with loading still set exactly when the final read rejects |
| ChatAgent.Agent.constructor | components/useChatAgent.tsx:9-10 | no messages and not loading |
| ChatAgent.Agent.SendMessage | components/useChatAgent.tsx:14-66 | posts the body of `RequestFor` and leaves exactly the state of `AfterSend` |
| ChatAgent.Agent.ShowChunks | components/useChatAgent.tsx:44-63 | the streaming loop leaves exactly the messages of `Streamed` for the chunks, with loading still set |
| ChatAgent.Agent.Reset | components/useChatAgent.tsx:70 | clears the messages and keeps the loading flag |
| ChatAgent.ServerBody | components/useChatAgent.tsx:19-23 | the parsed body has the query and history, and a `contentstack` object exactly when a content query is sent, never with a content type |
| ChatAgent.ClientRequestIsNeverGrounded | app/api/chat/route.ts:46 | for a body the hook sends, the CMS answer has no effect and the user turn is the bare text |
| ChatAgent.ClientShowsStreamText | components/useChatAgent.tsx:44-62 | however the stream is chunked, the assistant message is the tokens followed by the error fragment on failure |

## Left out

- There are no HTTP, headers, URLs, authorization or outbound request payloads. The vendor's answer and the server's answer are inputs.
- Decoding bytes with `TextDecoder` and encoding with `TextEncoder` is out. Chunks are already-decoded strings.
- `JSON.parse` and the `choices[0].delta.content` access are the parameter `extract`. A truthy non-string `content` is not distinguished.
- Cancellation is out: `AbortController`, and the `signal` the adapters accept and the relay never passes.
- The CMS client `lib/contentstack.ts` is out. Its result is the `fetch` parameter, and an entry whose title or description is not a string is not modelled.
- Rendering in `ChatWindow.tsx` and `page.tsx` is out, and so is the handler's `console.warn` logging.
- React's asynchronous batching is out. The updates of one `sendMessage` are applied in the order issued, and `history` reads the messages before the call.
- The interleaving of `onToken` calls with the adapter's reads is out. `Route.Start` enqueues the adapter's tokens after it returns, which gives the same sequence of fragments.
- Text.SplitLines: splits on `\n` only. The source's `\r?\n` also drops a `\r` before the break, so a piece may keep a trailing `\r`. `Text.TrimDropsCarriageReturn` shows the difference vanishes once each line is trimmed, which the adapters always do.
- Route.QueryError: counts the query in Dafny characters (Unicode scalar values), not in UTF-16 code units as JavaScript's `length` does. A query of astral-plane characters can therefore pass below twice the limit the source allows.
- Route.Respond: models only a failing `req.json()` as reaching the outer `catch`. The body is taken as already typed: a `history` that is not an array, whose spread throws into the same `catch`, is not modelled, and neither is a non-string `model` or `provider`.
- Route.Handle: the text of the `TypeError` for a prototype member name is the one V8 gives, `provider.streamCompletion is not a function`; other engines word it differently.
- An exception thrown in the hook (a rejected `fetch` or read) is modelled as ending the call with `loading` still set. Its propagation to the caller is not modelled.

## Findings

| source | as written | input that shows it | evidently intended | confidence | as-written member | corrected member |
|---|---|---|---|---|---|---|
| app/api/chat/route.ts:34-42 | `providers[providerName]` on an object literal also finds members inherited from `Object.prototype`, and `!provider` rejects only `undefined` | `{"provider": "toString", "query": "hi"}` passes the guard. The handler answers 200 with a stream holding the error that `provider.streamCompletion` is not a function, instead of 400 `unknown provider` | only `openai` and `groq` are providers; every other name gets 400 `unknown provider` | medium, not executed | Route.Handle, Route.LookupAsWritten, Route.PrototypeNameGetsTypeErrorStream | Route.HandleCorrected, Route.Lookup |
