/** The Groq adapter (`GroqProvider(apiKey).streamCompletion`): the same
    steps as the OpenAI adapter with its own error texts. The tokens passed
    to `onToken` are the method's `tokens`. */
module Groq {
  import opened Base
  import opened Text
  import opened EventStream
  import OpenAI

  const MissingKeyMessage: string := "GROQ_API_KEY not set on server"

  /** The message of the error thrown for a non-ok status or a missing body. */
  function VendorErrorMessage(status: nat, text: string): string {
    "Groq error: " + Decimal(status) + " " + text
  }

  /** What one call of `streamCompletion` produces for the vendor's reply. */
  function StreamResult(apiKey: string, reply: VendorReply, extract: string -> Option<string>): (c: Completion)
    ensures apiKey == "" ==> c == Completion([], Failure(MissingKeyMessage))
    ensures apiKey != "" && reply.NetworkError? ==> c == Completion([], Failure(reply.reason))
    ensures apiKey != "" && reply.Response? && (!IsOk(reply.status) || !reply.hasBody) ==>
      c == Completion([], Failure(VendorErrorMessage(reply.status, reply.text)))
    ensures apiKey != "" && reply.Response? && IsOk(reply.status) && reply.hasBody ==>
      && c.tokens == Scan(extract, reply.chunks).tokens
      && c.outcome == if Scan(extract, reply.chunks).stopped || reply.readError.None? then Success
                      else Failure(reply.readError.value)
  {
    if apiKey == "" then Completion([], Failure(MissingKeyMessage))
    else match reply
      case NetworkError(reason) => Completion([], Failure(reason))
      case Response(status, hasBody, text, chunks, readError) =>
        if !IsOk(status) || !hasBody then Completion([], Failure(VendorErrorMessage(status, text)))
        else
          var run := Scan(extract, chunks);
          if run.stopped then Completion(run.tokens, Success)
          else match readError
            case None => Completion(run.tokens, Success)
            case Some(reason) => Completion(run.tokens, Failure(reason))
  }

  /** The read loop: `while (true)` over the reader's chunks, and for each
      chunk `for (const line of chunk.split(...))` with `continue` for lines
      that carry nothing and an early `return` on the sentinel. */
  method StreamCompletion(apiKey: string, reply: VendorReply, extract: string -> Option<string>)
    returns (tokens: seq<string>, outcome: Outcome)
    ensures Completion(tokens, outcome) == StreamResult(apiKey, reply, extract)
  {
    if apiKey == "" {
      return [], Failure(MissingKeyMessage);
    }
    if reply.NetworkError? {
      return [], Failure(reply.reason);
    }
    if !IsOk(reply.status) || !reply.hasBody {
      return [], Failure(VendorErrorMessage(reply.status, reply.text));
    }
    var chunks := reply.chunks;
    tokens := [];
    var i := 0;
    while i < |chunks|
      invariant 0 <= i <= |chunks|
      invariant Scan(extract, chunks) == Then(Run(tokens, false), Scan(extract, chunks[i..]))
    {
      assert chunks[i..][0] == chunks[i] && chunks[i..][1..] == chunks[i + 1..];
      ghost var later := Scan(extract, chunks[i + 1..]);
      var lines := SplitLines(chunks[i]);
      assert lines[0..] == lines;
      var j := 0;
      while j < |lines|
        invariant 0 <= j <= |lines|
        invariant Scan(extract, chunks) == Then(Run(tokens, false), Then(ScanLines(extract, lines[j..]), later))
      {
        ScanLinesFrom(extract, lines, j);
        ghost var next := ScanLines(extract, lines[j + 1..]);
        var trimmed := Trim(lines[j]);
        j := j + 1;
        if trimmed == "" {
          continue;
        }
        if trimmed == "data: [DONE]" || trimmed == "[DONE]" {
          return tokens, Success;
        }
        if !StartsWith(trimmed, "data:") {
          continue;
        }
        var json := Payload(trimmed);
        match extract(json) {
          case Some(token) =>
            if token != "" {
              ThenAssociative(Run([token], false), next, later);
              ThenAssociative(Run(tokens, false), Run([token], false), Then(next, later));
              tokens := tokens + [token];
            }
          case None =>
        }
      }
      assert lines[j..] == [];
      assert Then(ScanLines(extract, lines[j..]), later) == later;
      i := i + 1;
    }
    assert chunks[i..] == [];
    match reply.readError {
      case None => outcome := Success;
      case Some(reason) => outcome := Failure(reason);
    }
  }

  /** The two adapters read a stream identically: for every key, reply and
      extractor they emit the same tokens and end the same way; the only
      difference is the text of the key and vendor errors. */
  lemma SameStreamAsOpenAI(apiKey: string, reply: VendorReply, extract: string -> Option<string>)
    ensures StreamResult(apiKey, reply, extract).tokens == OpenAI.StreamResult(apiKey, reply, extract).tokens
    ensures StreamResult(apiKey, reply, extract).outcome.Success? == OpenAI.StreamResult(apiKey, reply, extract).outcome.Success?
    ensures StreamResult(apiKey, reply, extract).outcome != OpenAI.StreamResult(apiKey, reply, extract).outcome <==>
      apiKey == "" || (reply.Response? && (!IsOk(reply.status) || !reply.hasBody))
  {
    if apiKey == "" {
      assert MissingKeyMessage != OpenAI.MissingKeyMessage;
    } else if reply.Response? && (!IsOk(reply.status) || !reply.hasBody) {
      var g := VendorErrorMessage(reply.status, reply.text);
      var o := OpenAI.VendorErrorMessage(reply.status, reply.text);
      assert g[0] != o[0];
    }
  }
}
