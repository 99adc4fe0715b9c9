/** Window construction of `inspiration/passages.py`: `_bounded_windows` and `_token_slice`.
    Tokens and sentences are the spans their regular expressions find in the normalized text. */
module PassageWindows {
  import opened Texts

  datatype Span = Span(start: nat, end: nat)

  datatype Window = Window(text: string, start: nat, end: nat)

  /** Matches of a regular expression: non-empty, in order, not overlapping. */
  ghost predicate Matches(spans: seq<Span>, length: nat) {
    && (forall i :: 0 <= i < |spans| ==> spans[i].start < spans[i].end <= length)
    && (forall i, j :: 0 <= i < j < |spans| ==> spans[i].end <= spans[j].start)
  }

  /** Token spans of a text; no token begins or ends with whitespace. */
  ghost predicate Tokens(text: string, tokens: seq<Span>) {
    && Matches(tokens, |text|)
    && forall i :: 0 <= i < |tokens| ==> !IsSpace(text[tokens[i].start]) && !IsSpace(text[tokens[i].end - 1])
  }

  /** `count_approximate_tokens(text[a:b])`. The bounds used are sentence and token boundaries, and a token
      holds neither blanks nor sentence delimiters, so the slice never cuts a token. */
  function Count(tokens: seq<Span>, a: nat, b: nat): nat {
    |set i | 0 <= i < |tokens| && a <= tokens[i].start && tokens[i].end <= b|
  }

  ghost predicate AtLeast(i: nat, lo: nat) {
    lo <= i
  }

  ghost function Interval(lo: nat, hi: nat): (s: set<nat>) {
    set i: nat | i < hi && AtLeast(i, lo)
  }

  lemma {:induction false} IntervalSize(lo: nat, hi: nat)
    requires lo <= hi
    ensures |Interval(lo, hi)| == hi - lo
    decreases hi
  {
    if lo < hi {
      IntervalSize(lo, hi - 1);
      assert Interval(lo, hi) == Interval(lo, hi - 1) + {hi - 1};
    }
  }

  /** The tokens from index `p` up to `q`, counted between their outer ends. */
  lemma CountRun(tokens: seq<Span>, length: nat, p: nat, q: nat)
    requires Matches(tokens, length) && p < q <= |tokens|
    ensures Count(tokens, tokens[p].start, tokens[q - 1].end) == q - p
  {
    var s := set i | 0 <= i < |tokens| && tokens[p].start <= tokens[i].start && tokens[i].end <= tokens[q - 1].end;
    forall i ensures i in s <==> i in Interval(p, q) {
      if 0 <= i < p { assert tokens[i].end <= tokens[p].start; }
      if q <= i < |tokens| { assert tokens[q - 1].end <= tokens[i].start; }
    }
    assert s == Interval(p, q);
    IntervalSize(p, q);
  }

  // ---- str.strip and str.find -----------------------------------------------------

  /** First index at or after `a` that is not whitespace, up to `b`. */
  function StripStart(text: string, a: nat, b: nat): (r: nat)
    requires a <= b <= |text|
    ensures a <= r <= b && (forall i :: a <= i < r ==> IsSpace(text[i])) && (r < b ==> !IsSpace(text[r]))
    decreases b - a
  {
    if a < b && IsSpace(text[a]) then StripStart(text, a + 1, b) else a
  }

  function StripEnd(text: string, a: nat, b: nat): (r: nat)
    requires a <= b <= |text|
    ensures a <= r <= b && (forall i :: r <= i < b ==> IsSpace(text[i])) && (a < r ==> !IsSpace(text[r - 1]))
    decreases b
  {
    if a < b && IsSpace(text[b - 1]) then StripEnd(text, a, b - 1) else b
  }

  /** `text.find(w, a, b)`, -1 when absent. */
  function Find(text: string, w: string, a: nat, b: nat): int
    requires a <= b <= |text|
    decreases b - a
  {
    if a + |w| > b then -1
    else if text[a..a + |w|] == w then a
    else if a == b then -1
    else Find(text, w, a + 1, b)
  }

  /** Looking a stripped slice up again finds it where the stripping left it. */
  lemma {:induction false} FindStripped(text: string, a: nat, b: nat, from: nat, to: nat)
    requires a <= from < to <= b <= |text|
    requires !IsSpace(text[from]) && forall i :: a <= i < from ==> IsSpace(text[i])
    ensures Find(text, text[from..to], a, b) == from
    decreases from - a
  {
    var w := text[from..to];
    if a < from {
      assert text[a..a + |w|][0] == text[a] && w[0] == text[from];
      FindStripped(text, a + 1, b, from, to);
    }
  }

  /** Stripping whitespace loses no token. */
  lemma StripKeepsTokens(text: string, tokens: seq<Span>, a: nat, b: nat)
    requires Tokens(text, tokens) && a <= b <= |text|
    ensures var from := StripStart(text, a, b);
            var to := StripEnd(text, from, b);
            Count(tokens, from, to) == Count(tokens, a, b)
  {
    var from := StripStart(text, a, b);
    var to := StripEnd(text, from, b);
    var s := set i | 0 <= i < |tokens| && a <= tokens[i].start && tokens[i].end <= b;
    var t := set i | 0 <= i < |tokens| && from <= tokens[i].start && tokens[i].end <= to;
    assert s == t;
  }

  lemma NoTokenInBlank(text: string, tokens: seq<Span>, a: nat)
    requires Tokens(text, tokens)
    ensures Count(tokens, a, a) == 0
  {
    var s := set i | 0 <= i < |tokens| && a <= tokens[i].start && tokens[i].end <= a;
    assert s == {};
  }

  // ---- the windows that may come out ------------------------------------------------

  /** The window is the text between its recorded offsets and has between `min` and `max` tokens. */
  ghost predicate Faithful(text: string, tokens: seq<Span>, w: Window, min: nat, max: nat) {
    && w.start < w.end <= |text| && w.text == text[w.start..w.end]
    && min <= Count(tokens, w.start, w.end) <= max
  }

  /** Sentences `l..r` together. */
  function Tally(tokens: seq<Span>, sentences: seq<Span>, l: int, r: int): nat
    requires 0 <= l <= r < |sentences|
  {
    Count(tokens, sentences[l].start, sentences[r].end)
  }

  /** Neither neighbouring sentence fits any more. */
  ghost predicate Maximal(tokens: seq<Span>, sentences: seq<Span>, l: nat, r: nat, max: nat)
    requires l <= r < |sentences|
  {
    && (l > 0 ==> Tally(tokens, sentences, l - 1, r) > max)
    && (r + 1 < |sentences| ==> Tally(tokens, sentences, l, r + 1) > max)
  }

  /** The window of sentences `l..r`, stripped. */
  ghost predicate CoversSentences(text: string, sentences: seq<Span>, w: Window, l: nat, r: nat)
    requires l <= r < |sentences| && Matches(sentences, |text|)
  {
    var a, b := sentences[l].start, sentences[r].end;
    assert a <= b by { if l < r { assert sentences[l].end <= sentences[r].start; } }
    w.start == StripStart(text, a, b) && w.end == StripEnd(text, w.start, b)
  }

  /** Grown around sentence `c` until nothing more fits. */
  ghost predicate GrownAround(text: string, tokens: seq<Span>, sentences: seq<Span>, w: Window, c: nat, max: nat)
    requires Matches(sentences, |text|)
  {
    exists l: nat, r: nat :: l <= c <= r < |sentences|
      && CoversSentences(text, sentences, w, l, r)
      && Tally(tokens, sentences, l, r) <= max && Maximal(tokens, sentences, l, r, max)
  }

  // ---- _token_slice -----------------------------------------------------------------

  /** Number of leading tokens that satisfy a bound; matches are in order, so these come first. */
  function Before(tokens: seq<Span>, a: nat): (n: nat)
    ensures n <= |tokens| && forall i :: 0 <= i < n ==> tokens[i].start < a
    ensures n < |tokens| ==> tokens[n].start >= a
  {
    if tokens == [] || tokens[0].start >= a then 0
    else
      var n := Before(tokens[1..], a);
      assert forall i :: 1 <= i <= n ==> tokens[i] == tokens[1..][i - 1];
      n + 1
  }

  function Until(tokens: seq<Span>, b: nat): (n: nat)
    ensures n <= |tokens| && forall i :: 0 <= i < n ==> tokens[i].end <= b
    ensures n < |tokens| ==> tokens[n].end > b
  {
    if tokens == [] || tokens[0].end > b then 0
    else
      var n := Until(tokens[1..], b);
      assert forall i :: 1 <= i <= n ==> tokens[i] == tokens[1..][i - 1];
      n + 1
  }

  lemma CountInside(tokens: seq<Span>, length: nat, a: nat, b: nat)
    requires Matches(tokens, length)
    ensures var lo, hi := Before(tokens, a), Until(tokens, b);
            Count(tokens, a, b) == if lo <= hi then hi - lo else 0
  {
    var lo, hi := Before(tokens, a), Until(tokens, b);
    var s := set i | 0 <= i < |tokens| && a <= tokens[i].start && tokens[i].end <= b;
    forall i | 0 <= i < |tokens| ensures i in s <==> lo <= i < hi {
      if lo < i { assert tokens[lo].end <= tokens[i].start; }
      if hi < i { assert tokens[hi].end <= tokens[i].start; }
    }
    if lo <= hi {
      assert s == Interval(lo, hi);
      IntervalSize(lo, hi);
    } else {
      assert s == {};
    }
  }

  /** First index from `lo` whose token holds the character, `lo` when none does. */
  method CenterToken(tokens: seq<Span>, lo: nat, hi: nat, character: nat) returns (center: nat)
    requires lo < hi <= |tokens|
    ensures lo <= center < hi
    ensures forall i :: lo <= i < hi && tokens[i].start <= character < tokens[i].end ==>
              tokens[center].start <= character < tokens[center].end
  {
    center := lo;
    while center < hi && !(tokens[center].start <= character < tokens[center].end)
      invariant lo <= center <= hi
      invariant forall i :: lo <= i < center ==> !(tokens[i].start <= character < tokens[i].end)
    {
      center := center + 1;
    }
    if center == hi { center := lo; }
  }

  /** `max(0, min(center - max // 2, len(matches) - max))`, counted from token `lo`. */
  method FirstOfSlice(lo: nat, hi: nat, center: nat, max: nat) returns (first: nat)
    requires lo <= center < hi && 1 <= max < hi - lo
    ensures lo <= first <= center < first + max <= hi
    ensures first == center - max / 2 || (first == lo && center - max / 2 < lo)
            || (first == hi - max && center - max / 2 > hi - max)
  {
    var f := center as int - max / 2;
    if f > hi - max { f := hi - max; }
    if f < lo { f := lo; }
    first := f;
  }

  /** A stretch of exactly `max` tokens between `a` and `b`, holding the token at the preferred character. */
  ghost predicate Sliced(tokens: seq<Span>, w: Window, a: nat, b: nat, max: nat, character: nat) {
    && a <= w.start && w.end <= b && Count(tokens, w.start, w.end) == max
    && forall i :: 0 <= i < |tokens| && a <= tokens[i].start <= character < tokens[i].end <= b ==>
         w.start <= tokens[i].start && tokens[i].end <= w.end
  }

  /** A stretch of exactly `max` tokens around the preferred character, or the stripped slice
      when it holds no more than `max`. */
  method TokenSlice(text: string, tokens: seq<Span>, a: nat, b: nat, max: nat, character: nat) returns (w: Window)
    requires Tokens(text, tokens) && a <= b <= |text| && max >= 1
    ensures a <= w.start <= w.end <= b && w.text == text[w.start..w.end]
    ensures Count(tokens, a, b) <= max ==> Count(tokens, w.start, w.end) == Count(tokens, a, b)
    ensures Count(tokens, a, b) > max ==> Sliced(tokens, w, a, b, max, character)
  {
    hide Count;
    CountInside(tokens, |text|, a, b);
    var lo, hi := Before(tokens, a), Until(tokens, b);
    if Count(tokens, a, b) <= max {
      StripKeepsTokens(text, tokens, a, b);
      var from := StripStart(text, a, b);
      var to := StripEnd(text, from, b);
      return Window(text[from..to], from, to);
    }
    w := AroundCharacter(text, tokens, lo, hi, max, character);
    forall i | 0 <= i < |tokens| && a <= tokens[i].start <= character < tokens[i].end <= b
      ensures w.start <= tokens[i].start && tokens[i].end <= w.end
    {
      assert lo <= i < hi;
    }
  }

  /** `max` of the tokens from `lo` to `hi`, with the one at the preferred character if there is one. */
  method AroundCharacter(text: string, tokens: seq<Span>, lo: nat, hi: nat, max: nat, character: nat) returns (w: Window)
    requires Matches(tokens, |text|) && lo < hi <= |tokens| && 1 <= max < hi - lo
    ensures tokens[lo].start <= w.start <= w.end <= tokens[hi - 1].end && w.end <= |text| && w.text == text[w.start..w.end]
    ensures Count(tokens, w.start, w.end) == max
    ensures forall i :: lo <= i < hi && tokens[i].start <= character < tokens[i].end ==>
              w.start <= tokens[i].start && tokens[i].end <= w.end
  {
    hide Count;
    var center := CenterToken(tokens, lo, hi, character);
    var first := FirstOfSlice(lo, hi, center, max);
    var last := first + max - 1;
    CountRun(tokens, |text|, first, last + 1);
    w := Window(text[tokens[first].start..tokens[last].end], tokens[first].start, tokens[last].end);
    forall i | lo <= i < hi && tokens[i].start <= character < tokens[i].end
      ensures w.start <= tokens[i].start && tokens[i].end <= w.end
    {
    }
  }

  // ---- sentence expansion -------------------------------------------------------------

  /** The alternating expansion: the preferred side first, the other side when it does not fit. */
  ghost function Expand(tokens: seq<Span>, sentences: seq<Span>, l: nat, r: nat, preferLeft: bool, max: nat): (nat, nat)
    requires l <= r < |sentences|
    decreases l + (|sentences| - r)
  {
    var fitsLeft := l > 0 && Tally(tokens, sentences, l - 1, r) <= max;
    var fitsRight := r + 1 < |sentences| && Tally(tokens, sentences, l, r + 1) <= max;
    if fitsLeft && (preferLeft || !fitsRight) then Expand(tokens, sentences, l - 1, r, !preferLeft, max)
    else if fitsRight then Expand(tokens, sentences, l, r + 1, !preferLeft, max)
    else (l, r)
  }

  lemma {:induction false} ExpandIsMaximal(tokens: seq<Span>, sentences: seq<Span>, l: nat, r: nat, preferLeft: bool, max: nat)
    requires l <= r < |sentences| && Tally(tokens, sentences, l, r) <= max
    ensures var (x, y) := Expand(tokens, sentences, l, r, preferLeft, max);
            x <= l <= r <= y < |sentences| && Tally(tokens, sentences, x, y) <= max
            && Maximal(tokens, sentences, x, y, max)
    decreases l + (|sentences| - r)
  {
    var fitsLeft := l > 0 && Tally(tokens, sentences, l - 1, r) <= max;
    var fitsRight := r + 1 < |sentences| && Tally(tokens, sentences, l, r + 1) <= max;
    if fitsLeft && (preferLeft || !fitsRight) {
      ExpandIsMaximal(tokens, sentences, l - 1, r, !preferLeft, max);
    } else if fitsRight {
      ExpandIsMaximal(tokens, sentences, l, r + 1, !preferLeft, max);
    }
  }

  method ExpandSentences(tokens: seq<Span>, sentences: seq<Span>, c: nat, max: nat) returns (l: nat, r: nat)
    requires c < |sentences| && Tally(tokens, sentences, c, c) <= max
    ensures (l, r) == Expand(tokens, sentences, c, c, true, max)
  {
    l, r := c, c;
    var preferLeft := true;
    while true
      invariant l <= c <= r < |sentences|
      invariant Expand(tokens, sentences, l, r, preferLeft, max) == Expand(tokens, sentences, c, c, true, max)
      decreases l + (|sentences| - r)
    {
      var side := 0;
      var first := if preferLeft then -1 else 1;
      for attempt := 0 to 2
        invariant side in {-1, 0, 1}
        invariant attempt == 0 ==> side == 0
        invariant side == -1 ==> l > 0 && Tally(tokens, sentences, l - 1, r) <= max
        invariant side == 1 ==> r + 1 < |sentences| && Tally(tokens, sentences, l, r + 1) <= max
        invariant attempt >= 1 && side != first ==>
                    !(if first == -1 then l > 0 && Tally(tokens, sentences, l - 1, r) <= max
                      else r + 1 < |sentences| && Tally(tokens, sentences, l, r + 1) <= max)
        invariant attempt == 2 && side == 0 ==>
                    !(if first == 1 then l > 0 && Tally(tokens, sentences, l - 1, r) <= max
                      else r + 1 < |sentences| && Tally(tokens, sentences, l, r + 1) <= max)
      {
        if side == 0 {
          var option := if attempt == 0 then first else -first;
          if option == -1 && l > 0 && Tally(tokens, sentences, l - 1, r) <= max { side := -1; }
          if option == 1 && r + 1 < |sentences| && Tally(tokens, sentences, l, r + 1) <= max { side := 1; }
        }
      }
      if side == 0 { break; }
      if side == -1 { l := l - 1; } else { r := r + 1; }
      preferLeft := !preferLeft;
    }
  }

  // ---- _bounded_windows ---------------------------------------------------------------

  /** Grown around sentence `c`, or cut out of it where it is too long. */
  ghost predicate FromSentence(
    text: string, tokens: seq<Span>, sentences: seq<Span>, w: Window, c: nat, preferred: (nat, nat) -> nat, max: nat)
    requires Matches(sentences, |text|) && c < |sentences|
  {
    var s := sentences[c];
    if Tally(tokens, sentences, c, c) > max then Sliced(tokens, w, s.start, s.end, max, preferred(s.start, s.end))
    else GrownAround(text, tokens, sentences, w, c, max)
  }

  /** Where a window comes from. */
  ghost predicate Legitimate(
    text: string, tokens: seq<Span>, sentences: seq<Span>, relevant: set<nat>, w: Window,
    preferred: (nat, nat) -> nat, max: nat)
    requires Matches(sentences, |text|)
  {
    || (w.start == 0 && w.end == |text|)
    || (exists c :: c in relevant && c < |sentences| && FromSentence(text, tokens, sentences, w, c, preferred, max))
    || Sliced(tokens, w, 0, |text|, max, preferred(0, |text|))
  }

  /** What becomes of one relevant sentence. */
  ghost predicate Handled(
    text: string, tokens: seq<Span>, sentences: seq<Span>, c: nat, windows: seq<Window>,
    preferred: (nat, nat) -> nat, min: nat, max: nat)
    requires Matches(sentences, |text|) && c < |sentences|
  {
    if Tally(tokens, sentences, c, c) > max then
      exists w :: w in windows && FromSentence(text, tokens, sentences, w, c, preferred, max)
    else
      var (l, r) := Expand(tokens, sentences, c, c, true, max);
      ExpandIsMaximal(tokens, sentences, c, c, true, max);
      Tally(tokens, sentences, l, r) >= min ==> exists w :: w in windows && CoversSentences(text, sentences, w, l, r)
  }

  /** The window grown around one relevant sentence, if it has tokens enough. */
  method GrownWindow(
    text: string, tokens: seq<Span>, sentences: seq<Span>, c: nat, preferred: (nat, nat) -> nat, min: nat, max: nat)
    returns (windows: seq<Window>)
    requires Tokens(text, tokens) && Matches(sentences, |text|) && c < |sentences|
    requires Tally(tokens, sentences, c, c) <= max && 1 <= min <= max
    ensures forall w :: w in windows ==> Faithful(text, tokens, w, min, max) && GrownAround(text, tokens, sentences, w, c, max)
    ensures Handled(text, tokens, sentences, c, windows, preferred, min, max)
  {
    var l, r := ExpandSentences(tokens, sentences, c, max);
    ExpandIsMaximal(tokens, sentences, c, c, true, max);
    var a, b := sentences[l].start, sentences[r].end;
    assert a < b;
    var from := StripStart(text, a, b);
    var to := StripEnd(text, from, b);
    StripKeepsTokens(text, tokens, a, b);
    var window := text[from..to];
    if from == to {
      NoTokenInBlank(text, tokens, from);
      return [];
    }
    FindStripped(text, a, b, from, to);
    var adjusted := Find(text, window, a, b);
    var w := Window(window, adjusted, adjusted + |window|);
    assert CoversSentences(text, sentences, w, l, r);
    windows := if Count(tokens, from, to) >= min then [w] else [];
    assert windows != [] ==> windows[0] == w;
  }

  /** Offsets say it all: windows with the same offsets are the same. */
  ghost predicate Determined(windows: seq<Window>) {
    forall v, w :: v in windows && w in windows && v.start == w.start && v.end == w.end ==> v == w
  }

  ghost predicate DistinctOffsets(windows: seq<Window>) {
    forall i, j :: 0 <= i < j < |windows| ==> (windows[i].start, windows[i].end) != (windows[j].start, windows[j].end)
  }

  /** First occurrence of each (start, end) pair. */
  method Deduplicate(windows: seq<Window>) returns (unique: seq<Window>)
    requires Determined(windows)
    ensures forall w :: w in unique <==> w in windows
    ensures DistinctOffsets(unique)
  {
    unique := [];
    var seen: set<(nat, nat)> := {};
    for i := 0 to |windows|
      invariant forall w :: w in unique <==> w in windows[..i]
      invariant forall w :: w in unique ==> (w.start, w.end) in seen
      invariant forall k :: k in seen ==> exists u :: u in unique && (u.start, u.end) == k
      invariant DistinctOffsets(unique)
    {
      var w := windows[i];
      assert windows[..i + 1] == windows[..i] + [w];
      if (w.start, w.end) !in seen {
        assert forall j :: 0 <= j < |unique| ==> unique[j] in unique;
        seen := seen + {(w.start, w.end)};
        unique := unique + [w];
        assert w in unique;
      } else {
        var u :| u in unique && (u.start, u.end) == (w.start, w.end);
        assert u in windows && w in windows;
      }
    }
    assert windows[..|windows|] == windows;
  }

  /** Sentences holding a term; the first one stands in when only the heading does. */
  ghost function Relevant(holdsTerm: seq<bool>, heading: bool): set<nat> {
    var s := set c: nat | c < |holdsTerm| && holdsTerm[c];
    if s == {} && heading && holdsTerm != [] then {0} else s
  }

  /** Everything `_bounded_windows` promises about its result. */
  ghost predicate WindowsCorrect(
    text: string, tokens: seq<Span>, sentences: seq<Span>, relevant: set<nat>, windows: seq<Window>,
    preferred: (nat, nat) -> nat, min: nat, max: nat)
    requires Matches(sentences, |text|)
  {
    var total := Count(tokens, 0, |text|);
    && (forall w :: w in windows ==>
          Faithful(text, tokens, w, min, max) && Legitimate(text, tokens, sentences, relevant, w, preferred, max))
    && DistinctOffsets(windows)
    && (total < min ==> windows == [])
    && (min <= total <= max ==> windows == [Window(text, 0, |text|)])
    && (total > max ==>
          && (windows == [] <==> sentences != [] && relevant == {})
          && forall c :: c in relevant && c < |sentences| ==> Handled(text, tokens, sentences, c, windows, preferred, min, max))
  }

  lemma HandledMore(
    text: string, tokens: seq<Span>, sentences: seq<Span>, c: nat, some: seq<Window>, more: seq<Window>,
    preferred: (nat, nat) -> nat, min: nat, max: nat)
    requires Matches(sentences, |text|) && c < |sentences|
    requires Handled(text, tokens, sentences, c, some, preferred, min, max)
    requires forall w :: w in some ==> w in more
    ensures Handled(text, tokens, sentences, c, more, preferred, min, max)
  {
  }

  /** A faithful window that is a full slice or grew around a marked sentence. */
  ghost predicate FromMarked(
    text: string, tokens: seq<Span>, sentences: seq<Span>, marked: seq<bool>, w: Window,
    preferred: (nat, nat) -> nat, min: nat, max: nat)
    requires Matches(sentences, |text|)
  {
    && Faithful(text, tokens, w, min, max)
    && (Sliced(tokens, w, 0, |text|, max, preferred(0, |text|))
        || exists c :: 0 <= c < |marked| && c < |sentences| && marked[c] && FromSentence(text, tokens, sentences, w, c, preferred, max))
  }

  /** The windows of all relevant sentences, in sentence order. */
  method RelevantWindows(
    text: string, tokens: seq<Span>, sentences: seq<Span>, marked: seq<bool>, preferred: (nat, nat) -> nat, min: nat, max: nat)
    returns (windows: seq<Window>)
    requires Tokens(text, tokens) && Matches(sentences, |text|) && 1 <= min <= max && |marked| == |sentences|
    ensures forall w :: w in windows ==> FromMarked(text, tokens, sentences, marked, w, preferred, min, max)
    ensures forall c :: 0 <= c < |marked| && marked[c] ==> Handled(text, tokens, sentences, c, windows, preferred, min, max)
  {
    windows := [];
    for c := 0 to |sentences|
      invariant forall w :: w in windows ==> FromMarked(text, tokens, sentences, marked, w, preferred, min, max)
      invariant forall d :: 0 <= d < c && marked[d] ==> Handled(text, tokens, sentences, d, windows, preferred, min, max)
    {
      var before := windows;
      if marked[c] {
        var s := sentences[c];
        if Count(tokens, s.start, s.end) > max {
          var w := TokenSlice(text, tokens, s.start, s.end, max, preferred(s.start, s.end));
          if w.start == w.end { NoTokenInBlank(text, tokens, w.start); }
          windows := windows + [w];
          assert w in windows;
        } else {
          var grown := GrownWindow(text, tokens, sentences, c, preferred, min, max);
          windows := windows + grown;
          HandledMore(text, tokens, sentences, c, grown, windows, preferred, min, max);
        }
      }
      forall d | 0 <= d < c && marked[d] ensures Handled(text, tokens, sentences, d, windows, preferred, min, max) {
        HandledMore(text, tokens, sentences, d, before, windows, preferred, min, max);
      }
    }
  }

  /** A slice of the whole text, taken when no sentence gives a window. */
  method WholeSlice(text: string, tokens: seq<Span>, min: nat, max: nat, character: nat) returns (w: Window)
    requires Tokens(text, tokens) && 1 <= min <= max && Count(tokens, 0, |text|) > max
    ensures Faithful(text, tokens, w, min, max) && Sliced(tokens, w, 0, |text|, max, character)
  {
    w := TokenSlice(text, tokens, 0, |text|, max, character);
    if w.start == w.end { NoTokenInBlank(text, tokens, w.start); }
  }

  /** All marked sentences, the whole-text slice when they give nothing, duplicates removed. */
  method MarkedWindows(
    text: string, tokens: seq<Span>, sentences: seq<Span>, marked: seq<bool>, preferred: (nat, nat) -> nat, min: nat, max: nat)
    returns (windows: seq<Window>)
    requires Tokens(text, tokens) && Matches(sentences, |text|) && 1 <= min <= max && |marked| == |sentences|
    requires Count(tokens, 0, |text|) > max
    ensures forall w :: w in windows ==> FromMarked(text, tokens, sentences, marked, w, preferred, min, max)
    ensures forall c :: 0 <= c < |marked| && marked[c] ==> Handled(text, tokens, sentences, c, windows, preferred, min, max)
    ensures windows != []
    ensures DistinctOffsets(windows)
  {
    hide Count;
    hide Handled;
    hide FromMarked;
    var found := RelevantWindows(text, tokens, sentences, marked, preferred, min, max);
    var all := found;
    if found == [] {
      var w := WholeSlice(text, tokens, min, max, preferred(0, |text|));
      SliceFromMarked(text, tokens, sentences, marked, w, preferred, min, max);
      all := [w];
    }
    AllDetermined(text, tokens, sentences, marked, all, preferred, min, max);
    windows := Deduplicate(all);
    assert all[0] in all;
    AllHandled(text, tokens, sentences, marked, found, windows, preferred, min, max);
  }

  lemma SliceFromMarked(
    text: string, tokens: seq<Span>, sentences: seq<Span>, marked: seq<bool>, w: Window, preferred: (nat, nat) -> nat, min: nat, max: nat)
    requires Matches(sentences, |text|)
    requires Faithful(text, tokens, w, min, max) && Sliced(tokens, w, 0, |text|, max, preferred(0, |text|))
    ensures FromMarked(text, tokens, sentences, marked, w, preferred, min, max)
  {
  }

  lemma AllDetermined(
    text: string, tokens: seq<Span>, sentences: seq<Span>, marked: seq<bool>, all: seq<Window>, preferred: (nat, nat) -> nat, min: nat, max: nat)
    requires Matches(sentences, |text|)
    requires forall w :: w in all ==> FromMarked(text, tokens, sentences, marked, w, preferred, min, max)
    ensures Determined(all)
  {
  }

  lemma AllHandled(
    text: string, tokens: seq<Span>, sentences: seq<Span>, marked: seq<bool>,
    found: seq<Window>, windows: seq<Window>, preferred: (nat, nat) -> nat, min: nat, max: nat)
    requires Matches(sentences, |text|) && |marked| == |sentences|
    requires forall w :: w in found ==> w in windows
    requires forall c :: 0 <= c < |marked| && marked[c] ==> Handled(text, tokens, sentences, c, found, preferred, min, max)
    ensures forall c :: 0 <= c < |marked| && marked[c] ==> Handled(text, tokens, sentences, c, windows, preferred, min, max)
  {
    hide Handled;
    forall c | 0 <= c < |marked| && marked[c] ensures Handled(text, tokens, sentences, c, windows, preferred, min, max) {
      HandledMore(text, tokens, sentences, c, found, windows, preferred, min, max);
    }
  }

  lemma MarkedIsRelevant(holdsTerm: seq<bool>, heading: bool, marked: seq<bool>)
    requires holdsTerm != []
    requires marked == if (forall c :: 0 <= c < |holdsTerm| ==> !holdsTerm[c]) && heading then holdsTerm[0 := true] else holdsTerm
    ensures forall c: nat :: c in Relevant(holdsTerm, heading) <==> c < |marked| && marked[c]
  {
    var s := set c: nat | c < |holdsTerm| && holdsTerm[c];
    if c: nat :| c < |holdsTerm| && holdsTerm[c] { assert c in s; }
  }

  lemma MarkedGivesCorrect(
    text: string, tokens: seq<Span>, sentences: seq<Span>, marked: seq<bool>, relevant: set<nat>,
    windows: seq<Window>, preferred: (nat, nat) -> nat, min: nat, max: nat)
    requires Matches(sentences, |text|) && |marked| == |sentences| && Count(tokens, 0, |text|) > max >= min
    requires forall c: nat :: c in relevant <==> c < |marked| && marked[c]
    requires forall w :: w in windows ==> FromMarked(text, tokens, sentences, marked, w, preferred, min, max)
    requires forall c :: 0 <= c < |marked| && marked[c] ==> Handled(text, tokens, sentences, c, windows, preferred, min, max)
    requires windows == [] <==> sentences != [] && relevant == {}
    requires DistinctOffsets(windows)
    ensures WindowsCorrect(text, tokens, sentences, relevant, windows, preferred, min, max)
  {
  }

  /** `preferred` is the character a slice is centred on, as the lower-cased text search finds it. */
  method BoundedWindows(
    text: string, tokens: seq<Span>, sentences: seq<Span>, holdsTerm: seq<bool>, heading: bool,
    preferred: (nat, nat) -> nat, min: nat, max: nat)
    returns (windows: seq<Window>)
    requires Tokens(text, tokens) && Matches(sentences, |text|) && 1 <= min <= max && |holdsTerm| == |sentences|
    ensures WindowsCorrect(text, tokens, sentences, Relevant(holdsTerm, heading), windows, preferred, min, max)
  {
    hide Count;
    hide Handled;
    hide FromMarked;
    ghost var relevant := Relevant(holdsTerm, heading);
    var total := Count(tokens, 0, |text|);
    if text == "" { NoTokenInBlank(text, tokens, 0); }
    if total < min { return []; }
    if total <= max {
      assert text[0..|text|] == text;
      return [Window(text, 0, |text|)];
    }
    if sentences == [] {
      var w := WholeSlice(text, tokens, min, max, preferred(0, |text|));
      return [w];
    }
    var none := forall c :: 0 <= c < |holdsTerm| ==> !holdsTerm[c];
    var marked := if none && heading then holdsTerm[0 := true] else holdsTerm;
    MarkedIsRelevant(holdsTerm, heading, marked);
    if none && !heading {
      assert relevant == {};
      windows := [];
    } else {
      assert exists c: nat :: c < |marked| && marked[c];
      windows := MarkedWindows(text, tokens, sentences, marked, preferred, min, max);
    }
    MarkedGivesCorrect(text, tokens, sentences, marked, relevant, windows, preferred, min, max);
  }
}
