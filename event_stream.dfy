/** The record filter both provider adapters apply to a vendor's streamed
    body: every decoded chunk is split into lines on its own, each line is
    trimmed, and the line is skipped, ends the stream (the `[DONE]` sentinel)
    or yields the text fragment an extractor finds in its JSON payload.
    `extract` stands for `JSON.parse` followed by reading
    `choices[0].delta.content`; `None` means the parse threw or the field is
    absent. */
module EventStream {
  import opened Base
  import opened Text

  /** What one line of a chunk does. */
  datatype LineAction = Skip | Stop | Emit(token: string)

  const DataPrefix: string := "data:"
  const DoneRecord: string := "data: [DONE]"
  const DoneBare: string := "[DONE]"

  predicate IsSentinel(trimmed: string) {
    trimmed == DoneRecord || trimmed == DoneBare
  }

  // `trimmed.replace(/^data:\s*/, '')`: the text after the prefix and
  // the white space that follows it.
  function Payload(trimmed: string): (r: string)
    requires StartsWith(trimmed, DataPrefix)
    ensures r == [] || !IsSpace(r[0])
  {
    TrimStart(trimmed[|DataPrefix|..])
  }

  /** The payload is what follows the prefix and the white space after it. */
  lemma PayloadFollowsPrefix(trimmed: string)
    requires StartsWith(trimmed, DataPrefix)
    ensures exists k :: |DataPrefix| <= k <= |trimmed| && Payload(trimmed) == trimmed[k..] && AllSpace(trimmed[|DataPrefix|..k])
  {
    var r := Payload(trimmed);
    var k := |trimmed| - |r|;
    assert trimmed[k..] == r;
    assert trimmed[|DataPrefix|..k] == trimmed[|DataPrefix|..][..k - |DataPrefix|];
  }

  /** The payload of `data:` followed directly by text that does not start
      with white space is that text. */
  lemma PayloadUnspaced(rest: string)
    requires rest == [] || !IsSpace(rest[0])
    ensures Payload(DataPrefix + rest) == rest
  {
    assert (DataPrefix + rest)[|DataPrefix|..] == rest;
  }

  /** The payload of `data: ` followed by text that does not start with
      white space is that text. */
  lemma PayloadSpaced(rest: string)
    requires rest == [] || !IsSpace(rest[0])
    ensures Payload(DataPrefix + " " + rest) == rest
  {
    assert (DataPrefix + " " + rest)[|DataPrefix|..] == " " + rest;
    assert (" " + rest)[1..] == rest;
  }

  /** The action of one line, in the order the adapters test: blank, then
      sentinel, then missing prefix, then the extracted content. */
  function Classify(extract: string -> Option<string>, line: string): (a: LineAction)
    ensures a == Stop <==> IsSentinel(Trim(line))
    ensures Trim(line) == [] ==> a == Skip
    ensures !StartsWith(Trim(line), DataPrefix) && !IsSentinel(Trim(line)) ==> a == Skip
    ensures a.Emit? <==>
      && StartsWith(Trim(line), DataPrefix) && !IsSentinel(Trim(line))
      && extract(Payload(Trim(line))).Some? && extract(Payload(Trim(line))).value != ""
    ensures a.Emit? ==> a.token != "" && Some(a.token) == extract(Payload(Trim(line)))
  {
    var t := Trim(line);
    if t == [] then Skip
    else if IsSentinel(t) then Stop
    else if !StartsWith(t, DataPrefix) then Skip
    else match extract(Payload(t))
      case Some(token) => if token != "" then Emit(token) else Skip
      case None => Skip
  }

  /** What a run of lines or chunks produced: the tokens emitted, in order,
      and whether a sentinel stopped it. */
  datatype Run = Run(tokens: seq<string>, stopped: bool)

  /** Running `first` and then, unless it stopped, `next`. */
  function Then(first: Run, next: Run): Run {
    if first.stopped then first else Run(first.tokens + next.tokens, next.stopped)
  }

  /** The lines of one chunk, processed in order until a sentinel. */
  function ScanLines(extract: string -> Option<string>, lines: seq<string>): Run {
    if lines == [] then Run([], false)
    else match Classify(extract, lines[0])
      case Stop => Run([], true)
      case Skip => ScanLines(extract, lines[1..])
      case Emit(t) => Then(Run([t], false), ScanLines(extract, lines[1..]))
  }

  /** The chunks of a body, each split into lines on its own, processed in
      order until a sentinel. */
  function Scan(extract: string -> Option<string>, chunks: seq<string>): Run {
    if chunks == [] then Run([], false)
    else Then(ScanLines(extract, SplitLines(chunks[0])), Scan(extract, chunks[1..]))
  }

  lemma ThenAssociative(a: Run, b: Run, c: Run)
    ensures Then(Then(a, b), c) == Then(a, Then(b, c))
  {
    if !a.stopped && !b.stopped {
      assert (a.tokens + b.tokens) + c.tokens == a.tokens + (b.tokens + c.tokens);
    }
  }

  /** One step of the lines of a chunk, from line `j` on. */
  lemma ScanLinesFrom(extract: string -> Option<string>, lines: seq<string>, j: nat)
    requires j < |lines|
    ensures ScanLines(extract, lines[j..]) ==
      match Classify(extract, lines[j])
      case Stop => Run([], true)
      case Skip => ScanLines(extract, lines[j + 1..])
      case Emit(t) => Then(Run([t], false), ScanLines(extract, lines[j + 1..]))
  {
    assert lines[j..][0] == lines[j];
    assert lines[j..][1..] == lines[j + 1..];
  }

  /** Lines are independent: the lines of `a + b` give what `a` gives
      followed, unless `a` stopped, by what `b` gives. */
  lemma {:induction false} ScanLinesAppend(extract: string -> Option<string>, a: seq<string>, b: seq<string>)
    ensures ScanLines(extract, a + b) == Then(ScanLines(extract, a), ScanLines(extract, b))
  {
    if a == [] {
      assert a + b == b;
    } else {
      assert (a + b)[0] == a[0];
      assert (a + b)[1..] == a[1..] + b;
      ScanLinesAppend(extract, a[1..], b);
      match Classify(extract, a[0])
      case Stop =>
      case Skip =>
      case Emit(t) =>
        ThenAssociative(Run([t], false), ScanLines(extract, a[1..]), ScanLines(extract, b));
    }
  }

  /** Chunks are independent and ordered: the chunks of `a + b` give what
      `a` gives followed, unless `a` stopped, by what `b` gives. */
  lemma {:induction false} ScanAppend(extract: string -> Option<string>, a: seq<string>, b: seq<string>)
    ensures Scan(extract, a + b) == Then(Scan(extract, a), Scan(extract, b))
  {
    if a == [] {
      assert a + b == b;
    } else {
      assert (a + b)[0] == a[0];
      assert (a + b)[1..] == a[1..] + b;
      ScanAppend(extract, a[1..], b);
      ThenAssociative(ScanLines(extract, SplitLines(a[0])), Scan(extract, a[1..]), Scan(extract, b));
    }
  }

  /** After a sentinel nothing counts: no later line of the same chunk and no
      later chunk emits a token. */
  lemma SentinelIsFinal(extract: string -> Option<string>, a: seq<string>, b: seq<string>)
    requires Scan(extract, a).stopped
    ensures Scan(extract, a + b) == Scan(extract, a)
  {
    ScanAppend(extract, a, b);
  }

  /** The sentinel line itself stops the lines of its chunk, whatever follows. */
  lemma {:induction false} SentinelLineIsFinal(extract: string -> Option<string>, before: seq<string>, line: string, after: seq<string>)
    requires IsSentinel(Trim(line))
    requires !ScanLines(extract, before).stopped
    ensures ScanLines(extract, before + [line] + after) == Run(ScanLines(extract, before).tokens, true)
  {
    assert before + [line] + after == before + ([line] + after);
    ScanLinesAppend(extract, before, [line] + after);
    assert ([line] + after)[0] == line;
  }

  /** All the lines of all the chunks, chunk after chunk. */
  function AllLines(chunks: seq<string>): seq<string> {
    if chunks == [] then [] else SplitLines(chunks[0]) + AllLines(chunks[1..])
  }

  /** Splitting chunk by chunk and then scanning all the lines in one run is
      the same as scanning chunk by chunk: a chunk's last line is never joined
      with the next chunk's first line. */
  lemma {:induction false} ScanIsScanOfAllLines(extract: string -> Option<string>, chunks: seq<string>)
    ensures Scan(extract, chunks) == ScanLines(extract, AllLines(chunks))
  {
    if chunks != [] {
      ScanIsScanOfAllLines(extract, chunks[1..]);
      ScanLinesAppend(extract, SplitLines(chunks[0]), AllLines(chunks[1..]));
    }
  }

  predicate NoEmptyToken(r: Run) {
    forall i :: 0 <= i < |r.tokens| ==> r.tokens[i] != ""
  }

  /** Every token emitted from the lines of a chunk is non-empty. */
  lemma {:induction false} ScanLinesTokensNonEmpty(extract: string -> Option<string>, lines: seq<string>)
    ensures NoEmptyToken(ScanLines(extract, lines))
  {
    if lines != [] {
      var rest := ScanLines(extract, lines[1..]);
      ScanLinesTokensNonEmpty(extract, lines[1..]);
      match Classify(extract, lines[0])
      case Stop =>
      case Skip =>
      case Emit(t) =>
        assert ScanLines(extract, lines) == Then(Run([t], false), rest);
    }
  }

  /** Every token emitted from the chunks of a body is non-empty. */
  lemma {:induction false} ScanTokensNonEmpty(extract: string -> Option<string>, chunks: seq<string>)
    ensures NoEmptyToken(Scan(extract, chunks))
  {
    if chunks != [] {
      ScanLinesTokensNonEmpty(extract, SplitLines(chunks[0]));
      ScanTokensNonEmpty(extract, chunks[1..]);
    }
  }

  /** Without a space, `data:[DONE]` is not the sentinel: it is handled as a
      payload `[DONE]` and emits exactly what the extractor makes of that
      text (for `JSON.parse`, which throws on it, nothing). */
  lemma UnspacedDoneIsNotSentinel(extract: string -> Option<string>)
    ensures Classify(extract, "data:[DONE]") != Stop
    ensures Classify(extract, "data:[DONE]") ==
      if extract("[DONE]").Some? && extract("[DONE]").value != "" then Emit(extract("[DONE]").value) else Skip
  {
    var t := "data:[DONE]";
    TrimOfTrimmed(t);
    assert StartsWith(t, DataPrefix);
    assert t == DataPrefix + "[DONE]";
    PayloadUnspaced("[DONE]");
    assert !IsSentinel(t);
  }

  /** Chunks that hold one line each are scanned line by line. */
  lemma {:induction false} ScanOfSingleLineChunks(extract: string -> Option<string>, chunks: seq<string>)
    requires forall i :: 0 <= i < |chunks| ==> '\n' !in chunks[i]
    ensures Scan(extract, chunks) == ScanLines(extract, chunks)
  {
    if chunks != [] {
      var c, rest := chunks[0], chunks[1..];
      assert chunks == [c] + rest;
      SplitLinesSingle(c);
      ScanOfSingleLineChunks(extract, rest);
      ScanLinesAppend(extract, [c], rest);
      calc {
        Scan(extract, chunks);
        Then(ScanLines(extract, SplitLines(c)), Scan(extract, rest));
        Then(ScanLines(extract, [c]), ScanLines(extract, rest));
        ScanLines(extract, [c] + rest);
      }
    }
  }

  /** The line `data: x` is already trimmed, has the prefix and is no
      sentinel. */
  lemma RecordLineShape(x: string)
    requires |x| > 0 && !IsSpace(x[0]) && !IsSpace(x[|x| - 1]) && x != DoneBare
    ensures Trim("data: " + x) == "data: " + x
    ensures StartsWith("data: " + x, DataPrefix) && !IsSentinel("data: " + x)
  {
    var line := "data: " + x;
    TrimOfTrimmed(line);
    assert line[..5] == DataPrefix;
    assert line[6..] == x;
    assert DoneRecord[6..] == DoneBare;
    assert line[0] != DoneBare[0];
  }

  /** A line of one record `data: x`, where `x` carries no line break, no
      outer white space and is not `[DONE]`, emits what `x` extracts to. */
  lemma RecordLineEmits(extract: string -> Option<string>, x: string)
    requires '\n' !in x && |x| > 0 && !IsSpace(x[0]) && !IsSpace(x[|x| - 1]) && x != DoneBare
    ensures '\n' !in "data: " + x
    ensures Classify(extract, "data: " + x) ==
      if extract(x).Some? && extract(x).value != "" then Emit(extract(x).value) else Skip
  {
    var line := "data: " + x;
    RecordLineShape(x);
    assert line == DataPrefix + " " + x;
    PayloadSpaced(x);
    ClassifyTrimmedRecord(extract, line);
  }

  /** A trimmed line with the prefix that is no sentinel emits exactly the
      non-empty token its payload extracts to. */
  lemma ClassifyTrimmedRecord(extract: string -> Option<string>, line: string)
    requires Trim(line) == line && StartsWith(line, DataPrefix) && !IsSentinel(line)
    ensures Classify(extract, line) ==
      if extract(Payload(line)).Some? && extract(Payload(line)).value != "" then Emit(extract(Payload(line)).value) else Skip
  {
    assert line != [];
  }

  /** A chunk of one line is scanned as that line. */
  lemma OneLineChunk(extract: string -> Option<string>, c: string)
    requires '\n' !in c
    ensures Scan(extract, [c]) ==
      match Classify(extract, c)
      case Stop => Run([], true)
      case Skip => Run([], false)
      case Emit(t) => Run([t], false)
  {
    SplitLinesSingle(c);
    var one := [c];
    assert one[0] == c && one[1..] == [];
    assert Scan(extract, one) == Then(ScanLines(extract, one), Scan(extract, one[1..]));
    match Classify(extract, c)
    case Stop =>
    case Skip =>
      assert ScanLines(extract, one) == ScanLines(extract, one[1..]);
    case Emit(t) =>
      assert ScanLines(extract, one) == Then(Run([t], false), ScanLines(extract, one[1..]));
  }

  /** The record `data: x` delivered in one chunk emits its token. */
  lemma WholeRecordEmits(extract: string -> Option<string>, x: string)
    requires '\n' !in x && |x| > 0 && !IsSpace(x[0]) && !IsSpace(x[|x| - 1]) && x != DoneBare
    requires extract(x).Some? && extract(x).value != ""
    ensures Scan(extract, ["data: " + x]) == Run([extract(x).value], false)
  {
    RecordLineEmits(extract, x);
    OneLineChunk(extract, "data: " + x);
  }

  /** A line whose first character is neither white space nor the first
      character of `data:` or of a sentinel is skipped. */
  lemma UnprefixedLineSkips(extract: string -> Option<string>, line: string)
    requires |line| > 0 && !IsSpace(line[0]) && line[0] != 'd' && line[0] != '['
    ensures Classify(extract, line) == Skip
  {
    TrimKeepsFirst(line);
    var t := Trim(line);
    assert DataPrefix[0] == 'd' && DoneRecord[0] == 'd' && DoneBare[0] == '[';
    assert !StartsWith(t, DataPrefix) by {
      if |DataPrefix| <= |t| {
        assert t[..|DataPrefix|][0] == t[0];
      }
    }
  }

  lemma FirstHalfSkips(extract: string -> Option<string>)
    ensures '\n' !in "da"
    ensures Classify(extract, "da") == Skip
  {
    TrimOfTrimmed("da");
  }

  /** The second half `ta: x` of a split record is skipped. */
  lemma SecondHalfSkips(extract: string -> Option<string>, x: string)
    requires '\n' !in x
    ensures '\n' !in "ta: " + x
    ensures Scan(extract, ["ta: " + x]) == Run([], false)
  {
    var second := "ta: " + x;
    assert '\n' !in second by {
      assert forall i :: 0 <= i < |second| ==> second[i] == if i < 4 then "ta: "[i] else x[i - 4];
    }
    UnprefixedLineSkips(extract, second);
    OneLineChunk(extract, second);
  }

  /** A record cut in two by a read boundary is lost, whatever its payload:
      the halves `da` and `ta: x` of the record `data: x` emit nothing and do
      not stop the stream. */
  lemma SplitRecordIsDropped(extract: string -> Option<string>, x: string)
    requires '\n' !in x
    ensures "da" + ("ta: " + x) == "data: " + x
    ensures Scan(extract, ["da", "ta: " + x]) == Run([], false)
  {
    var second := "ta: " + x;
    FirstHalfSkips(extract);
    OneLineChunk(extract, "da");
    SecondHalfSkips(extract, x);
    assert ["da", second] == ["da"] + [second];
    ScanAppend(extract, ["da"], [second]);
  }
}
