/** Text helpers with the meaning the JavaScript string built-ins have in the
    relay: whitespace, trimming, prefix tests, splitting on newlines, joining
    and decimal rendering of numbers. Strings are sequences of characters. */
module Text {

  /** The characters JavaScript's `String.prototype.trim` and the regular
      expression class `\s` treat as white space: the WhiteSpace and
      LineTerminator code points of ECMAScript (TAB, VT, FF, SP, NBSP, ZWNBSP,
      the Zs separators, LF, CR, LS, PS). */
  predicate IsSpace(c: char) {
    || c == ' ' || c == '\t' || c == '\n' || c == '\r' || c == '\U{000B}' || c == '\U{000C}'
    || c == '\U{00A0}' || c == '\U{FEFF}' || c == '\U{1680}'
    || ('\U{2000}' <= c <= '\U{200A}')
    || c == '\U{2028}' || c == '\U{2029}' || c == '\U{202F}' || c == '\U{205F}' || c == '\U{3000}'
  }

  predicate AllSpace(s: string) {
    forall i :: 0 <= i < |s| ==> IsSpace(s[i])
  }

  /** The number of white-space characters `s` starts with. */
  function LeadingSpaces(s: string): (k: nat)
    ensures k <= |s|
    ensures forall i :: 0 <= i < k ==> IsSpace(s[i])
    ensures k == |s| || !IsSpace(s[k])
  {
    if |s| > 0 && IsSpace(s[0]) then 1 + LeadingSpaces(s[1..]) else 0
  }

  /** The length of `s` without the white space it ends with. */
  function TextEnd(s: string): (k: nat)
    ensures k <= |s|
    ensures forall i :: k <= i < |s| ==> IsSpace(s[i])
    ensures k == 0 || !IsSpace(s[k - 1])
  {
    if |s| > 0 && IsSpace(s[|s| - 1]) then TextEnd(s[..|s| - 1]) else |s|
  }

  /** `s.trimStart()`: drop the leading white space, keep the rest. */
  function TrimStart(s: string): (r: string)
    ensures r == [] || !IsSpace(r[0])
  {
    s[LeadingSpaces(s)..]
  }

  /** `s.trimEnd()`: drop the trailing white space, keep the rest. */
  function TrimEnd(s: string): (r: string)
    ensures r == [] || !IsSpace(r[|r| - 1])
  {
    s[..TextEnd(s)]
  }

  /** `s.trim()`: `s` without its leading and trailing white space. */
  function Trim(s: string): (r: string)
    ensures |r| <= |s|
    ensures r == [] || (!IsSpace(r[0]) && !IsSpace(r[|r| - 1]))
  {
    TrimStart(TrimEnd(s))
  }

  /** Trimming removes white space only: what is left is an infix of the
      text, and everything before and after it is white space. */
  lemma TrimRemovesOnlySpace(s: string)
    ensures exists k :: 0 <= k <= |s| - |Trim(s)| && s[k..k + |Trim(s)|] == Trim(s) && AllSpace(s[..k]) && AllSpace(s[k + |Trim(s)|..])
  {
    var b := TextEnd(s);
    var a := LeadingSpaces(s[..b]);
    assert Trim(s) == s[a..b];
    assert AllSpace(s[..a]) by {
      assert forall i :: 0 <= i < a ==> s[..a][i] == s[..b][i];
    }
    assert AllSpace(s[b..]);
  }

  /** Trimming is idempotent. */
  lemma TrimIdempotent(s: string)
    ensures Trim(Trim(s)) == Trim(s)
  {
    TrimOfTrimmed(Trim(s));
  }

  /** Text that neither starts nor ends with white space is its own trim. */
  lemma TrimOfTrimmed(s: string)
    requires s == [] || (!IsSpace(s[0]) && !IsSpace(s[|s| - 1]))
    ensures Trim(s) == s
  {
    assert TextEnd(s) == |s|;
    assert TrimEnd(s) == s;
    assert LeadingSpaces(s) == 0;
  }

  /** A carriage return in front of a line break never survives trimming, so
      splitting on `\r?\n` and splitting on `\n` give the same trimmed lines. */
  lemma TrimDropsCarriageReturn(p: string)
    requires |p| > 0 && p[|p| - 1] == '\r'
    ensures Trim(p[..|p| - 1]) == Trim(p)
  {
    var q := p[..|p| - 1];
    assert TextEnd(p) == TextEnd(q);
    assert TrimEnd(p) == TrimEnd(q);
  }

  /** Text that starts with a non-space character keeps it as the first
      character of its trim. */
  lemma TrimKeepsFirst(s: string)
    requires |s| > 0 && !IsSpace(s[0])
    ensures |Trim(s)| > 0 && Trim(s)[0] == s[0]
  {
    var k := TextEnd(s);
    assert k >= 1;
    assert TrimEnd(s)[0] == s[0];
    assert LeadingSpaces(TrimEnd(s)) == 0;
  }

  predicate StartsWith(s: string, prefix: string) {
    |prefix| <= |s| && s[..|prefix|] == prefix
  }

  /** `s.split('\n')`: the pieces between line breaks; there is always at
      least one piece, and an empty string gives one empty piece. */
  function SplitLines(s: string): (r: seq<string>)
    ensures |r| >= 1
    ensures forall i :: 0 <= i < |r| ==> '\n' !in r[i]
  {
    if s == [] then [""]
    else if s[0] == '\n' then [""] + SplitLines(s[1..])
    else
      var rest := SplitLines(s[1..]);
      [[s[0]] + rest[0]] + rest[1..]
  }

  /** `parts.join(sep)`. */
  function Join(parts: seq<string>, sep: string): string {
    if |parts| == 0 then ""
    else if |parts| == 1 then parts[0]
    else parts[0] + sep + Join(parts[1..], sep)
  }

  /** Joining the pieces with line breaks gives back the split text. */
  lemma {:induction false} JoinSplitLines(s: string)
    ensures Join(SplitLines(s), "\n") == s
  {
    if s == [] {
    } else if s[0] == '\n' {
      JoinSplitLines(s[1..]);
    } else {
      JoinSplitLines(s[1..]);
      var rest := SplitLines(s[1..]);
      if |rest| > 1 {
        calc {
          Join(SplitLines(s), "\n");
          ([s[0]] + rest[0]) + "\n" + Join(rest[1..], "\n");
          [s[0]] + (rest[0] + "\n" + Join(rest[1..], "\n"));
          [s[0]] + Join(rest, "\n");
        }
      }
    }
  }

  /** Text without a line break is one line. */
  lemma {:induction false} SplitLinesSingle(s: string)
    requires '\n' !in s
    ensures SplitLines(s) == [s]
  {
    if s != [] {
      assert s[0] in s;
      assert '\n' !in s[1..];
      SplitLinesSingle(s[1..]);
      assert [s[0]] + s[1..] == s;
    }
  }

  /** The lines of `a + "\n" + b` are the lines of `a` followed by those of `b`. */
  lemma {:induction false} SplitLinesAround(a: string, b: string)
    ensures SplitLines(a + "\n" + b) == SplitLines(a) + SplitLines(b)
  {
    if a == [] {
      assert a + "\n" + b == "\n" + b;
      assert ("\n" + b)[1..] == b;
    } else {
      assert (a + "\n" + b)[1..] == a[1..] + "\n" + b;
      SplitLinesAround(a[1..], b);
    }
  }

  /** The concatenation of a sequence of strings, in order. */
  function Concat(parts: seq<string>): string {
    if |parts| == 0 then "" else parts[0] + Concat(parts[1..])
  }

  lemma {:induction false} ConcatAppend(a: seq<string>, b: seq<string>)
    ensures Concat(a + b) == Concat(a) + Concat(b)
  {
    if a == [] {
      assert a + b == b;
    } else {
      assert (a + b)[1..] == a[1..] + b;
      ConcatAppend(a[1..], b);
    }
  }

  function DigitChar(d: nat): char
    requires d < 10
  {
    "0123456789"[d]
  }

  /** `String(n)` for a non-negative integer: its decimal digits, most
      significant first, without leading zeros. */
  function Decimal(n: nat): (r: string)
    ensures |r| >= 1
    ensures forall i :: 0 <= i < |r| ==> '0' <= r[i] <= '9'
    ensures r[0] != '0' || n == 0
  {
    if n < 10 then [DigitChar(n)] else Decimal(n / 10) + [DigitChar(n % 10)]
  }

  function DigitValue(c: char): nat
    requires '0' <= c <= '9'
  {
    (c as int - '0' as int) as nat
  }

  /** Reads a string of decimal digits back as a number. */
  function DecimalValue(s: string): nat
    requires forall i :: 0 <= i < |s| ==> '0' <= s[i] <= '9'
  {
    if |s| == 0 then 0 else DecimalValue(s[..|s| - 1]) * 10 + DigitValue(s[|s| - 1])
  }

  lemma DigitRoundTrip(d: nat)
    requires d < 10
    ensures DigitValue(DigitChar(d)) == d
  {
  }

  /** The decimal rendering of a count reads back as that count. */
  lemma {:induction false} DecimalRoundTrip(n: nat)
    ensures DecimalValue(Decimal(n)) == n
  {
    if n < 10 {
      DigitRoundTrip(n);
      assert Decimal(n)[..0] == [];
    } else {
      var r := Decimal(n);
      var q := Decimal(n / 10);
      var d := n % 10;
      assert r == q + [DigitChar(d)];
      assert r[..|r| - 1] == q;
      DigitRoundTrip(d);
      DecimalRoundTrip(n / 10);
      assert DecimalValue(r) == DecimalValue(q) * 10 + d;
    }
  }
}
