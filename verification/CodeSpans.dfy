/** Report code spans (`inspiration/reporting.py`, `_code`) against section 6.1 of CommonMark 0.31.2. */
module CodeSpans {
  import opened Texts
  import opened Wrappers

  const TICK: char := '`'

  // ---- printing -----------------------------------------------------------------

  /** Backticks at the start of `s`. */
  function RunLength(s: string): (n: nat)
    ensures n <= |s|
    ensures forall i :: 0 <= i < n ==> s[i] == TICK
    ensures n < |s| ==> s[n] != TICK
  {
    if s == "" || s[0] != TICK then 0
    else
      var n := RunLength(s[1..]);
      assert forall i :: 1 <= i <= n ==> s[i] == s[1..][i - 1];
      assert n + 1 < |s| ==> s[n + 1] == s[1..][n];
      n + 1
  }

  /** The longest run of backticks in `s`, zero when there is none. */
  function LongestRun(s: string): (n: nat)
    ensures RunLength(s) <= n
  {
    if s == "" then 0
    else
      var here, later := RunLength(s), LongestRun(s[1..]);
      if here >= later then here else later
  }

  function Repeat(c: char, n: nat): (s: string)
    ensures |s| == n && forall i :: 0 <= i < n ==> s[i] == c
  {
    seq(n, _ => c)
  }

  function Delimiter(text: string): (d: string)
    ensures |d| >= 1 && |d| > LongestRun(text) && forall i :: 0 <= i < |d| ==> d[i] == TICK
  {
    Repeat(TICK, LongestRun(text) + 1)
  }

  predicate NeedsPadding(text: string) {
    text != "" && (text[0] == TICK || text[|text| - 1] == TICK)
  }

  function Padded(text: string): string {
    if NeedsPadding(text) then " " + text + " " else text
  }

  function Span(text: string): string {
    Delimiter(text) + Padded(text) + Delimiter(text)
  }

  /** The text `_code` shows: the normalized value, or `empty` when there is nothing to show. */
  function Shown(value: Option<string>, empty: string): string {
    match value
    case None => empty
    case Some(v) => if Normalized(v) == "" then empty else Normalized(v)
  }

  function Code(value: Option<string>, empty: string): string {
    Span(Shown(value, empty))
  }

  /** `n` backticks in a row somewhere in the text. */
  ghost predicate HasRun(text: string, n: nat) { exists i: nat :: RunAt(text, i, n) }

  ghost predicate RunAt(text: string, i: nat, n: nat) {
    i + n <= |text| && forall j :: i <= j < i + n ==> text[j] == TICK
  }

  lemma {:induction false} LongestRunIs(text: string)
    ensures HasRun(text, LongestRun(text)) && !HasRun(text, LongestRun(text) + 1)
  {
    if text == "" {
      assert RunAt(text, 0, 0);
    } else {
      var here, later := RunLength(text), LongestRun(text[1..]);
      LongestRunIs(text[1..]);
      if here >= later {
        assert RunAt(text, 0, here);
      } else {
        var i: nat :| RunAt(text[1..], i, later);
        assert forall j :: i + 1 <= j < i + 1 + later ==> text[j] == text[1..][j - 1];
        assert RunAt(text, i + 1, later);
      }
    }
    var n := LongestRun(text) + 1;
    forall i: nat ensures !RunAt(text, i, n) {
      if RunAt(text, i, n) { RunFits(text, i, n); }
    }
  }

  lemma {:induction false} RunFits(text: string, i: nat, n: nat)
    requires RunAt(text, i, n)
    ensures n <= LongestRun(text)
    decreases i
  {
    if i == 0 {
      var here := RunLength(text);
      assert here < |text| ==> text[here] != TICK;
    } else {
      assert forall j :: i - 1 <= j < i - 1 + n ==> text[1..][j] == text[j + 1];
      RunFits(text[1..], i - 1, n);
    }
  }

  /** A span is the text between two delimiters one backtick longer than its longest run, with blanks only next to a backtick. */
  lemma SpanShape(text: string)
    ensures var d := Delimiter(text);
            && (forall i :: 0 <= i < |d| ==> d[i] == '`') && HasRun(text, |d| - 1) && !HasRun(text, |d|)
            && Span(text) == d + (if text != "" && (text[0] == '`' || text[|text| - 1] == '`') then " " + text + " " else text) + d
  {
    LongestRunIs(text);
    assert |Delimiter(text)| == LongestRun(text) + 1;
  }

  // ---- parsing: the code-span rule ----------------------------------------------

  /** Position of the first maximal backtick run of length exactly `n`. */
  function FindCloser(s: string, n: nat): (p: Option<nat>)
    ensures p.Some? ==> p.value + n <= |s|
    decreases |s|
  {
    if s == "" then None
    else if s[0] == TICK then
      var m := RunLength(s);
      if m == n then Some(0)
      else
        match FindCloser(s[m..], n)
        case None => None
        case Some(p) => Some(m + p)
    else
      match FindCloser(s[1..], n)
      case None => None
      case Some(p) => Some(p + 1)
  }

  function LineEndingsToSpaces(s: string): (r: string)
    ensures |r| == |s|
  {
    seq(|s|, i requires 0 <= i < |s| => if s[i] == '\n' || s[i] == '\r' then ' ' else s[i])
  }

  predicate AllBlank(s: string) {
    forall i :: 0 <= i < |s| ==> s[i] == ' '
  }

  /** One blank comes off each side when both sides have one and not everything is blank. */
  function StripOne(s: string): string {
    if |s| >= 2 && s[0] == ' ' && s[|s| - 1] == ' ' && !AllBlank(s) then s[1..|s| - 1] else s
  }

  datatype Inline = Text(text: string) | CodeSpan(code: string)

  /** The characters a backslash can escape (section 2.4): ASCII punctuation. */
  predicate IsPunctuation(c: char) { '!' <= c <= '/' || ':' <= c <= '@' || '[' <= c <= '`' || '{' <= c <= '~' }

  predicate StartsEscape(s: string) { |s| >= 2 && s[0] == '\\' && IsPunctuation(s[1]) }

  /**
   * Scans a line left to right, outside code spans with backslash escapes; an opener without a closer
   * of its length is literal text.
   */
  function ParseLine(s: string): seq<Inline>
    decreases |s|
  {
    if s == "" then []
    else if StartsEscape(s) then [Text([s[1]])] + ParseLine(s[2..])
    else if s[0] != TICK then [Text([s[0]])] + ParseLine(s[1..])
    else
      var n := RunLength(s);
      match FindCloser(s[n..], n)
      case None => [Text(s[..n])] + ParseLine(s[n..])
      case Some(p) =>
        [CodeSpan(StripOne(LineEndingsToSpaces(s[n..][..p])))] + ParseLine(s[n..][p + n..])
  }

  /** The code spans of a line, in order. */
  function Codes(line: seq<Inline>): seq<string> {
    if line == [] then []
    else (if line[0].CodeSpan? then [line[0].code] else []) + Codes(line[1..])
  }

  // ---- the round trip -----------------------------------------------------------

  ghost predicate AllTicks(d: string) { forall i :: 0 <= i < |d| ==> d[i] == TICK }

  ghost predicate StartsPlain(s: string) {
    s == "" || s[0] != TICK
  }

  lemma {:induction false} RunThen(d: string, rest: string)
    requires AllTicks(d) && StartsPlain(rest)
    ensures RunLength(d + rest) == |d|
  {
    var s := d + rest;
    assert forall i :: 0 <= i < |d| ==> s[i] == TICK;
    assert rest != "" ==> s[|d|] == rest[0];
  }

  lemma {:induction false} LongestRunSuffix(s: string, k: nat)
    requires k <= |s|
    ensures LongestRun(s[k..]) <= LongestRun(s)
  {
    if k > 0 {
      LongestRunSuffix(s[1..], k - 1);
      assert s[1..][k - 1..] == s[k..];
    }
  }

  /** Padding adds no backticks. */
  lemma {:induction false} LongestRunAppendBlank(s: string)
    ensures LongestRun(s + " ") == LongestRun(s)
  {
    var t := s + " ";
    if s == "" {
      assert t[1..] == "";
    } else {
      LongestRunAppendBlank(s[1..]);
      assert t[1..] == s[1..] + " ";
      var n := RunLength(s);
      assert forall i :: 0 <= i < |s| ==> t[i] == s[i];
      assert t[|s|] == ' ';
    }
  }

  lemma LongestRunPadded(text: string)
    ensures LongestRun(Padded(text)) <= LongestRun(text)
  {
    if NeedsPadding(text) {
      LongestRunAppendBlank(text);
      var t := " " + text + " ";
      assert t[1..] == text + " ";
    }
  }

  /** What is left of a body, and of the whole line, after its first run or first plain character. */
  lemma AfterFirstPiece(body: string, d: string, rest: string) returns (m: nat, tail: string)
    requires body != "" && d != "" && body[|body| - 1] != TICK
    requires AllTicks(d) && StartsPlain(rest) && LongestRun(body) < |d|
    ensures var s := body + (d + rest);
            && 0 < m <= |body| && m == (if s[0] == TICK then RunLength(s) else 1) && (s[0] == TICK ==> m != |d|)
            && s[m..] == tail + (d + rest)
    ensures |tail| == |body| - m && LongestRun(tail) <= LongestRun(body) && (tail != "" ==> tail[|tail| - 1] != TICK)
  {
    hide RunLength, LongestRun;
    if body[0] == TICK {
      m := RunLength(body);
      assert m < |body|;
      RunThen(body[..m], body[m..] + (d + rest));
      assert body + (d + rest) == body[..m] + (body[m..] + (d + rest));
    } else {
      m := 1;
    }
    tail := body[m..];
    LongestRunSuffix(body, m);
  }

  /** With only shorter runs in a body that does not end in a backtick, the delimiter closes the span. */
  lemma {:induction false} CloserIsDelimiter(body: string, d: string, rest: string)
    requires d != "" && AllTicks(d) && StartsPlain(rest)
    requires LongestRun(body) < |d| && (body != "" ==> body[|body| - 1] != TICK)
    ensures FindCloser(body + (d + rest), |d|) == Some(|body|)
    decreases |body|
  {
    if body == "" {
      assert body + (d + rest) == d + rest;
      RunThen(d, rest);
    } else {
      hide FindCloser, RunLength, LongestRun, AllTicks, StartsPlain;
      var m, tail := AfterFirstPiece(body, d, rest);
      CloserIsDelimiter(tail, d, rest);
    }
  }

  lemma StripRestores(text: string)
    requires text != "" && Trimmed(text)
    ensures StripOne(LineEndingsToSpaces(Padded(text))) == text
  {
    var body := Padded(text);
    if NeedsPadding(text) {
      assert body[1..|body| - 1] == text;
      assert forall i :: 0 <= i < |text| ==> body[i + 1] == text[i];
      assert body[1] == text[0];
    }
    forall i | 0 <= i < |body| ensures body[i] != '\n' && body[i] != '\r' {
      if NeedsPadding(text) && 0 < i < |body| - 1 { assert body[i] == text[i - 1]; }
    }
    assert LineEndingsToSpaces(body) == body;
  }

  /** A printed span parses back to its text, whatever follows it short of another backtick. */
  lemma SpanRoundTrip(text: string, rest: string)
    requires text != "" && Trimmed(text) && StartsPlain(rest)
    ensures ParseLine(Span(text) + rest) == [CodeSpan(text)] + ParseLine(rest)
  {
    hide RunLength, LongestRun, FindCloser, Delimiter;
    var d, body := Delimiter(text), Padded(text);
    var s := Span(text) + rest;
    assert s == d + (body + (d + rest));
    assert body[0] != TICK && body[|body| - 1] != TICK;
    RunThen(d, body + (d + rest));
    assert s[|d|..] == body + (d + rest);
    LongestRunPadded(text);
    CloserIsDelimiter(body, d, rest);
    assert s[|d|..][..|body|] == body;
    assert s[|d|..][|body| + |d|..] == rest;
    StripRestores(text);
  }

  /** A report line: plain text between printed values. */
  datatype Piece = Piece(plain: string, text: string)

  function Render(pieces: seq<Piece>, tail: string): string {
    if pieces == [] then tail
    else pieces[0].plain + (Span(pieces[0].text) + Render(pieces[1..], tail))
  }

  ghost predicate NoTicks(s: string) { forall i :: 0 <= i < |s| ==> s[i] != TICK }

  /** A backslash at the end that no earlier one escapes: it would escape the character after it. */
  predicate OpenEscape(s: string) {
    s != "" && (s == "\\" || (if StartsEscape(s) then OpenEscape(s[2..]) else OpenEscape(s[1..])))
  }

  /** How many backslashes end the text. */
  ghost function Trailing(s: string): (n: nat)
    ensures n <= |s| && (n == |s| <==> forall i :: 0 <= i < |s| ==> s[i] == '\\')
  {
    if s == "" || s[|s| - 1] != '\\' then 0
    else
      assert s == s[..|s| - 1] + [s[|s| - 1]];
      Trailing(s[..|s| - 1]) + 1
  }

  lemma {:induction false} TrailingDropsFirst(s: string)
    requires s != ""
    ensures Trailing(s) == Trailing(s[1..]) + if Trailing(s) == |s| then 1 else 0
    decreases |s|
  {
    if |s| > 1 && s[|s| - 1] == '\\' {
      assert s[1..][..|s| - 2] == s[..|s| - 1][1..];
      TrailingDropsFirst(s[..|s| - 1]);
    }
  }

  /** An escape is left open exactly by an odd number of backslashes at the end. */
  lemma {:induction false} OpenEscapeIff(s: string)
    ensures OpenEscape(s) <==> Trailing(s) % 2 == 1
    decreases |s|
  {
    if s != "" && s != "\\" {
      TrailingDropsFirst(s);
      if StartsEscape(s) {
        TrailingDropsFirst(s[1..]);
        assert s[1..][1..] == s[2..];
        OpenEscapeIff(s[2..]);
      } else {
        OpenEscapeIff(s[1..]);
      }
    }
  }

  /** Four cases of the code-span rule: an escaped opener, a blank taken off each side, an all-blank span, a line ending. */
  lemma RuleCases()
    ensures !StartsEscape("a`") && StartsEscape("\\`") && !StartsEscape("\\a")
    ensures StripOne(" a ") == "a" && StripOne("  ") == "  " && StripOne(" a") == " a"
    ensures LineEndingsToSpaces("a\nb") == "a b"
  {
    assert "  "[0] == ' ' && "  "[1] == ' ';
    assert " a "[1] == 'a' && !AllBlank(" a ");
  }

  /** Text between spans: no backtick, and no escape of the backtick after it. */
  ghost predicate Plain(s: string) { NoTicks(s) && !OpenEscape(s) }

  function ShownTexts(pieces: seq<Piece>): seq<string> {
    if pieces == [] then [] else [pieces[0].text] + ShownTexts(pieces[1..])
  }

  lemma {:induction false} PlainPrefix(plain: string, rest: string)
    requires NoTicks(plain) && (rest != "" ==> !OpenEscape(plain))
    ensures Codes(ParseLine(plain + rest)) == Codes(ParseLine(rest))
    decreases |plain|
  {
    var s := plain + rest;
    if plain == "" {
      assert s == rest;
    } else if StartsEscape(s) {
      assert |plain| >= 2 && s[2..] == plain[2..] + rest;
      PlainPrefix(plain[2..], rest);
      assert ParseLine(s)[1..] == ParseLine(s[2..]);
    } else {
      assert s[1..] == plain[1..] + rest;
      PlainPrefix(plain[1..], rest);
      assert ParseLine(s)[1..] == ParseLine(s[1..]);
    }
  }

  /** Every value printed on a line is recovered, in order, from the line. */
  lemma {:induction false} LineRoundTrip(pieces: seq<Piece>, tail: string)
    requires forall p :: p in pieces ==> p.text != "" && Trimmed(p.text) && Plain(p.plain)
    requires forall i :: 1 <= i < |pieces| ==> pieces[i].plain != ""
    requires NoTicks(tail)
    ensures Codes(ParseLine(Render(pieces, tail))) == ShownTexts(pieces)
  {
    if pieces == [] {
      assert tail == tail + "";
      PlainPrefix(tail, "");
    } else {
      var p, rest := pieces[0], Render(pieces[1..], tail);
      assert p in pieces;
      LineRoundTrip(pieces[1..], tail);
      assert StartsPlain(rest) by {
        if |pieces| > 1 { assert pieces[1..][0] == pieces[1] && rest[0] == pieces[1].plain[0]; }
      }
      PlainPrefix(p.plain, Span(p.text) + rest);
      SpanRoundTrip(p.text, rest);
      assert ParseLine(Span(p.text) + rest)[1..] == ParseLine(rest);
    }
  }

  /** `_code` round trip: any value, with any trimmed non-empty stand-in for missing text. */
  lemma CodeRoundTrip(value: Option<string>, empty: string, rest: string)
    requires empty != "" && Trimmed(empty) && StartsPlain(rest)
    ensures var text := if value.None? || Blank(value.value) then empty else Normalized(value.value);
            ParseLine(Code(value, empty) + rest) == [CodeSpan(text)] + ParseLine(rest)
  {
    if value.Some? {
      NormalizedIsTrimmed(value.value);
      NormalizedEmptyIff(value.value);
    }
    SpanRoundTrip(Shown(value, empty), rest);
  }
}
