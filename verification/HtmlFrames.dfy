/** The frame stack of `_ArticleHTMLParser` (`inspiration/extractors.py`): every element gets a selector. */
module HtmlFrames {
  import opened Texts
  import opened Wrappers

  /** One step of a selector: the n-th child with this tag. */
  datatype Component = Component(tag: string, n: nat)

  type Path = seq<Component>

  datatype Capture = NoCapture | Heading | Paragraph | Title

  datatype Frame = Frame(
    tag: string, path: Path, childCounts: map<string, nat>, skip: bool, capture: Capture,
    textParts: seq<string>, jsonld: bool)

  datatype Block = Block(text: string, selector: string, heading: Option<string>)

  const SKIP_TAGS: set<string> :=
    {"script", "style", "nav", "footer", "aside", "form", "noscript", "svg", "canvas"}
  const HEADING_TAGS: set<string> := {"h1", "h2", "h3", "h4", "h5", "h6"}

  // ---- selectors as text ----------------------------------------------------------

  function Digit(n: nat): char
    requires n < 10
  {
    "0123456789"[n]
  }

  function Decimal(n: nat): (s: string)
    ensures s != "" && forall i :: 0 <= i < |s| ==> '0' <= s[i] <= '9'
  {
    if n < 10 then [Digit(n)] else Decimal(n / 10) + [Digit(n % 10)]
  }

  /** The number a string of digits reads as. */
  ghost function Reads(s: string): int {
    if s == "" then 0 else 10 * Reads(s[..|s| - 1]) + (s[|s| - 1] as int - '0' as int)
  }

  lemma {:induction false} DecimalReads(n: nat)
    ensures Reads(Decimal(n)) == n
  {
    if n >= 10 {
      DecimalReads(n / 10);
      assert Decimal(n)[..|Decimal(n)| - 1] == Decimal(n / 10);
    } else {
      assert Decimal(n)[..0] == "";
    }
  }

  function ComponentText(c: Component): string {
    c.tag + ":nth-of-type(" + Decimal(c.n) + ")"
  }

  /** The selector text of a path: components joined by `" > "`. */
  function Selector(p: Path): string {
    if p == [] then ""
    else if |p| == 1 then ComponentText(p[0])
    else Selector(p[..|p| - 1]) + " > " + ComponentText(p[|p| - 1])
  }

  /** Tag names as the HTML tokenizer delivers them never contain a blank. */
  ghost predicate TagName(tag: string) {
    ' ' !in tag
  }

  ghost predicate TagNames(p: Path) {
    forall i :: 0 <= i < |p| ==> TagName(p[i].tag)
  }

  lemma {:induction false} DecimalInjective(m: nat, n: nat)
    requires Decimal(m) == Decimal(n)
    ensures m == n
  {
    if m >= 10 && n >= 10 {
      var a, b := Decimal(m / 10), Decimal(n / 10);
      assert Decimal(m)[..|a|] == a && Decimal(n)[..|b|] == b;
      assert |a| == |b|;
      DecimalInjective(m / 10, n / 10);
      assert Decimal(m)[|a|] == Digit(m % 10) && Decimal(n)[|b|] == Digit(n % 10);
    }
  }

  /** A string is split in only one way at the last occurrence of a character. */
  lemma SplitLast(a: string, x: string, b: string, y: string, c: char)
    requires c !in x && c !in y && a + ([c] + x) == b + ([c] + y)
    ensures a == b && x == y
  {
    var s := a + ([c] + x);
    var t := b + ([c] + y);
    assert |a| + 1 + |x| == |b| + 1 + |y|;
    assert s[|a|] == c && t[|b|] == c;
    assert forall i :: |a| < i < |s| ==> s[i] == x[i - |a| - 1] && s[i] != c;
    assert forall i :: |b| < i < |t| ==> t[i] == y[i - |b| - 1] && t[i] != c;
    assert |a| == |b|;
    assert s[..|a|] == a && t[..|b|] == b;
    assert s[|a| + 1..] == x && t[|b| + 1..] == y;
  }

  lemma ComponentInjective(c: Component, d: Component)
    requires ComponentText(c) == ComponentText(d)
    ensures c == d
  {
    var x, y := Decimal(c.n) + ")", Decimal(d.n) + ")";
    var head := ":nth-of-type";
    assert ComponentText(c) == (c.tag + head) + (['('] + x);
    assert ComponentText(d) == (d.tag + head) + (['('] + y);
    SplitLast(c.tag + head, x, d.tag + head, y, '(');
    assert x[..|x| - 1] == Decimal(c.n) && y[..|y| - 1] == Decimal(d.n);
    hide ComponentText;
    DecimalInjective(c.n, d.n);
    assert (c.tag + head)[..|c.tag|] == c.tag && (d.tag + head)[..|d.tag|] == d.tag;
  }

  lemma ComponentHasNoBlank(c: Component)
    requires TagName(c.tag)
    ensures ' ' !in ComponentText(c)
  {
    var t := ComponentText(c);
    forall i | 0 <= i < |t| ensures t[i] != ' ' {
      if i < |c.tag| {
        assert t[i] == c.tag[i];
      } else if i < |c.tag| + 13 {
        assert t[i] == ":nth-of-type("[i - |c.tag|];
      } else if i < |t| - 1 {
        assert t[i] == Decimal(c.n)[i - |c.tag| - 13];
      }
    }
  }

  /** A longer selector is the one before it, a blank, and its last component. */
  lemma SelectorSplits(p: Path)
    requires |p| > 1
    ensures Selector(p) == (Selector(p[..|p| - 1]) + " >") + ([' '] + ComponentText(p[|p| - 1]))
    ensures ' ' in Selector(p)
  {
    var before := Selector(p[..|p| - 1]) + " >";
    hide ComponentText;
    assert Selector(p) == before + ([' '] + ComponentText(p[|p| - 1]));
    assert Selector(p)[|before|] == ' ';
  }

  lemma JoinInjective(a: string, x: string, b: string, y: string)
    requires ' ' !in x && ' ' !in y && (a + " >") + ([' '] + x) == (b + " >") + ([' '] + y)
    ensures a == b && x == y
  {
    SplitLast(a + " >", x, b + " >", y, ' ');
    assert (a + " >")[..|a|] == a && (b + " >")[..|b|] == b;
  }

  /** Different paths have different selectors. */
  lemma {:induction false} SelectorInjective(p: Path, q: Path)
    requires p != [] && q != [] && TagNames(p) && TagNames(q) && Selector(p) == Selector(q)
    ensures p == q
    decreases |p|
  {
    var c, d := p[|p| - 1], q[|q| - 1];
    ComponentHasNoBlank(c);
    ComponentHasNoBlank(d);
    if |p| > 1 { SelectorSplits(p); } else { assert Selector(p) == ComponentText(c); }
    if |q| > 1 { SelectorSplits(q); } else { assert Selector(q) == ComponentText(d); }
    hide Selector, ComponentText;
    if |p| > 1 && |q| > 1 {
      JoinInjective(Selector(p[..|p| - 1]), ComponentText(c), Selector(q[..|q| - 1]), ComponentText(d));
      SelectorInjective(p[..|p| - 1], q[..|q| - 1]);
      ComponentInjective(c, d);
      assert p == p[..|p| - 1] + [c] && q == q[..|q| - 1] + [d];
    } else if |p| == 1 && |q| == 1 {
      ComponentInjective(c, d);
    }
  }

  // ---- the invariant of the stack -------------------------------------------------

  function Count(counts: map<string, nat>, tag: string): nat {
    if tag in counts then counts[tag] else 0
  }

  /** The counters of the element a child is about to be opened in. */
  function TopCounts(frames: seq<Frame>, rootCounts: map<string, nat>): map<string, nat> {
    if frames == [] then rootCounts else frames[|frames| - 1].childCounts
  }

  function TopPath(frames: seq<Frame>): Path {
    if frames == [] then [] else frames[|frames| - 1].path
  }

  ghost predicate DistinctPaths(s: seq<Path>) {
    forall i, j :: 0 <= i < j < |s| ==> s[i] != s[j]
  }

  /** The open frames are the prefixes of one path. */
  ghost predicate Stacked(frames: seq<Frame>) {
    forall i :: 0 <= i < |frames| ==>
      |frames[i].path| == i + 1 && frames[i].path[..i] == TopPath(frames[..i])
  }

  /** Children issued under a still open element are within its counters. */
  ghost predicate Counted(frames: seq<Frame>, rootCounts: map<string, nat>, issued: seq<Path>) {
    forall p: Path, i {:trigger p in issued, frames[..i]} :: p in issued && p != [] && 0 <= i <= |frames|
      && p[..|p| - 1] == TopPath(frames[..i])
      ==> p[|p| - 1].n <= Count(TopCounts(frames[..i], rootCounts), p[|p| - 1].tag)
  }

  /** The element a path was issued under has a path of its own. */
  ghost predicate ClosedPath(issued: seq<Path>, p: Path) { p != [] && TagNames(p) && (|p| > 1 ==> p[..|p| - 1] in issued) }

  ghost predicate Issued(frames: seq<Frame>, issued: seq<Path>) {
    && DistinctPaths(issued)
    && (forall p :: p in issued ==> ClosedPath(issued, p))
    && (forall f :: f in frames ==> f.path in issued)
  }

  ghost predicate StackInvariant(frames: seq<Frame>, rootCounts: map<string, nat>, issued: seq<Path>) {
    Stacked(frames) && Counted(frames, rootCounts, issued) && Issued(frames, issued)
  }

  /** The counters after opening one more `tag` under the top element. */
  function Bumped(counts: map<string, nat>, tag: string): map<string, nat> {
    counts[tag := Count(counts, tag) + 1]
  }

  /** The path the next child gets. */
  function NextPath(frames: seq<Frame>, rootCounts: map<string, nat>, tag: string): Path {
    TopPath(frames) + [Component(tag, Count(TopCounts(frames, rootCounts), tag) + 1)]
  }

  /** A new selector was never issued before. */
  lemma NextPathIsNew(frames: seq<Frame>, rootCounts: map<string, nat>, issued: seq<Path>, tag: string)
    requires StackInvariant(frames, rootCounts, issued)
    ensures NextPath(frames, rootCounts, tag) !in issued
  {
    var p := NextPath(frames, rootCounts, tag);
    assert frames[..|frames|] == frames;
    assert p[..|p| - 1] == TopPath(frames);
    assert forall q: Path :: q in issued && q != [] && q[..|q| - 1] == TopPath(frames) ==>
      q[|q| - 1].n <= Count(TopCounts(frames, rootCounts), q[|q| - 1].tag);
  }

  /** The stack after opening `f` under the top element. */
  function Opened(frames: seq<Frame>, f: Frame): seq<Frame> {
    if frames == [] then [f]
    else
      var top := frames[|frames| - 1];
      frames[..|frames| - 1] + [top.(childCounts := Bumped(top.childCounts, f.tag)), f]
  }

  function RootAfter(frames: seq<Frame>, rootCounts: map<string, nat>, tag: string): map<string, nat> {
    if frames == [] then Bumped(rootCounts, tag) else rootCounts
  }

  lemma OpenedPrefix(frames: seq<Frame>, rootCounts: map<string, nat>, f: Frame, i: nat)
    requires i <= |frames|
    ensures TopPath(Opened(frames, f)[..i]) == TopPath(frames[..i])
    ensures var old_ := TopCounts(frames[..i], rootCounts);
            TopCounts(Opened(frames, f)[..i], RootAfter(frames, rootCounts, f.tag))
            == if i == |frames| then Bumped(old_, f.tag) else old_
  {
    var next := Opened(frames, f);
    if i < |frames| {
      assert next[..i] == frames[..i];
    } else if frames != [] {
      var top := frames[|frames| - 1];
      assert next[..i] == frames[..|frames| - 1] + [top.(childCounts := Bumped(top.childCounts, f.tag))];
    }
  }

  lemma OpenKeepsStacked(frames: seq<Frame>, rootCounts: map<string, nat>, f: Frame)
    requires Stacked(frames) && f.path == NextPath(frames, rootCounts, f.tag)
    ensures Stacked(Opened(frames, f))
  {
    var next := Opened(frames, f);
    assert frames[..|frames|] == frames;
    forall i | 0 <= i < |next|
      ensures |next[i].path| == i + 1 && next[i].path[..i] == TopPath(next[..i])
    {
      OpenedPrefix(frames, rootCounts, f, i);
    }
  }

  /** The bound of `Counted` for one issued path and one open element, after opening `f`. */
  lemma CountedAfterOpen(frames: seq<Frame>, rootCounts: map<string, nat>, issued: seq<Path>, f: Frame, p: Path, i: nat)
    requires Stacked(frames) && Counted(frames, rootCounts, issued)
    requires f.path == NextPath(frames, rootCounts, f.tag)
    requires p in issued + [f.path] && p != [] && i <= |frames|
    requires p[..|p| - 1] == TopPath(Opened(frames, f)[..i])
    ensures p[|p| - 1].n
            <= Count(TopCounts(Opened(frames, f)[..i], RootAfter(frames, rootCounts, f.tag)), p[|p| - 1].tag)
  {
    OpenedPrefix(frames, rootCounts, f, i);
    assert frames[..|frames|] == frames;
    if p == f.path {
      assert p[..|p| - 1] == TopPath(frames) == TopPath(frames[..i]);
      assert i == |frames|;
    } else {
      assert p in issued;
      assert p[|p| - 1].n <= Count(TopCounts(frames[..i], rootCounts), p[|p| - 1].tag);
    }
  }

  lemma OpenKeepsCounted(frames: seq<Frame>, rootCounts: map<string, nat>, issued: seq<Path>, f: Frame)
    requires StackInvariant(frames, rootCounts, issued)
    requires f.path == NextPath(frames, rootCounts, f.tag) && f.childCounts == map[]
    ensures Counted(Opened(frames, f), RootAfter(frames, rootCounts, f.tag), issued + [f.path])
  {
    var next, root := Opened(frames, f), RootAfter(frames, rootCounts, f.tag);
    NextPathIsNew(frames, rootCounts, issued, f.tag);
    assert next[..|next|] == next && TopPath(next) == f.path;
    forall p: Path, i | p in issued + [f.path] && p != [] && 0 <= i <= |next|
      && p[..|p| - 1] == TopPath(next[..i])
      ensures p[|p| - 1].n <= Count(TopCounts(next[..i], root), p[|p| - 1].tag)
    {
      if i <= |frames| { CountedAfterOpen(frames, rootCounts, issued, f, p, i); }
    }
  }

  lemma DistinctPush(issued: seq<Path>, p: Path)
    requires DistinctPaths(issued) && p !in issued
    ensures DistinctPaths(issued + [p])
  {
  }

  /** A new path extends the path of the innermost open element by a tag name. */
  lemma NextPathSteps(frames: seq<Frame>, rootCounts: map<string, nat>, issued: seq<Path>, f: Frame)
    requires Issued(frames, issued) && TagName(f.tag) && f.path == NextPath(frames, rootCounts, f.tag)
    ensures ClosedPath(issued, f.path)
  {
    if frames != [] { assert frames[|frames| - 1] in frames; }
    assert f.path[..|f.path| - 1] == TopPath(frames);
  }

  lemma ClosedStays(issued: seq<Path>, p: Path, q: Path)
    requires ClosedPath(issued, q)
    ensures ClosedPath(issued + [p], q)
  {
  }

  lemma OpenKeepsIssued(frames: seq<Frame>, rootCounts: map<string, nat>, issued: seq<Path>, f: Frame)
    requires StackInvariant(frames, rootCounts, issued) && TagName(f.tag)
    requires f.path == NextPath(frames, rootCounts, f.tag)
    ensures Issued(Opened(frames, f), issued + [f.path])
  {
    hide ClosedPath;
    NextPathIsNew(frames, rootCounts, issued, f.tag);
    NextPathSteps(frames, rootCounts, issued, f);
    hide Stacked, Counted, NextPath, TopPath, DistinctPaths;
    var all := issued + [f.path];
    DistinctPush(issued, f.path);
    ClosedStays(issued, f.path, f.path);
    forall p | p in all ensures ClosedPath(all, p) {
      if p != f.path { ClosedStays(issued, f.path, p); }
    }
    forall g | g in Opened(frames, f) ensures g.path in all {
      assert g == f || g.path in issued;
    }
  }

  lemma OpenKeepsInvariant(frames: seq<Frame>, rootCounts: map<string, nat>, issued: seq<Path>, f: Frame)
    requires StackInvariant(frames, rootCounts, issued) && TagName(f.tag)
    requires f.path == NextPath(frames, rootCounts, f.tag) && f.childCounts == map[]
    ensures StackInvariant(Opened(frames, f), RootAfter(frames, rootCounts, f.tag), issued + [f.path])
    ensures f.path !in issued
  {
    NextPathIsNew(frames, rootCounts, issued, f.tag);
    OpenKeepsStacked(frames, rootCounts, f);
    OpenKeepsCounted(frames, rootCounts, issued, f);
    OpenKeepsIssued(frames, rootCounts, issued, f);
  }

  /** The top element's path is issued and belongs to no other open element. */
  lemma TopIsAlone(frames: seq<Frame>, rootCounts: map<string, nat>, issued: seq<Path>)
    requires StackInvariant(frames, rootCounts, issued) && frames != []
    ensures frames[|frames| - 1].path in issued
    ensures forall f :: f in frames[..|frames| - 1] ==> f.path != frames[|frames| - 1].path
  {
    assert frames[|frames| - 1] in frames;
  }

  /** Closing elements keeps the invariant. */
  lemma TruncateKeepsInvariant(frames: seq<Frame>, rootCounts: map<string, nat>, issued: seq<Path>, k: nat)
    requires StackInvariant(frames, rootCounts, issued) && k <= |frames|
    ensures StackInvariant(frames[..k], rootCounts, issued)
  {
    TruncateKeepsCounted(frames, rootCounts, issued, k);
    TruncateKeepsStacked(frames, k);
    hide Counted, Stacked, DistinctPaths, ClosedPath;
    assert forall f :: f in frames[..k] ==> f in frames;
  }

  lemma TruncateKeepsCounted(frames: seq<Frame>, rootCounts: map<string, nat>, issued: seq<Path>, k: nat)
    requires Counted(frames, rootCounts, issued) && k <= |frames|
    ensures Counted(frames[..k], rootCounts, issued)
  {
    forall p: Path, i | p in issued && p != [] && 0 <= i <= k && p[..|p| - 1] == TopPath(frames[..k][..i])
      ensures p[|p| - 1].n <= Count(TopCounts(frames[..k][..i], rootCounts), p[|p| - 1].tag)
    {
      assert frames[..k][..i] == frames[..i];
    }
  }

  lemma TruncateKeepsStacked(frames: seq<Frame>, k: nat)
    requires Stacked(frames) && k <= |frames|
    ensures Stacked(frames[..k])
  {
    forall i | 0 <= i < k ensures |frames[..k][i].path| == i + 1 && frames[..k][i].path[..i] == TopPath(frames[..k][..i]) {
      assert frames[..k][..i] == frames[..i];
    }
  }

  function WithText(frames: seq<Frame>, k: nat, parts: seq<string>): seq<Frame>
    requires k < |frames|
  {
    frames[k := frames[k].(textParts := parts)]
  }

  lemma TextKeepsCounted(frames: seq<Frame>, rootCounts: map<string, nat>, issued: seq<Path>, k: nat, parts: seq<string>)
    requires Counted(frames, rootCounts, issued) && k < |frames|
    ensures Counted(WithText(frames, k, parts), rootCounts, issued)
  {
    var next := WithText(frames, k, parts);
    forall p: Path, i | p in issued && p != [] && 0 <= i <= |next| && p[..|p| - 1] == TopPath(next[..i])
      ensures p[|p| - 1].n <= Count(TopCounts(next[..i], rootCounts), p[|p| - 1].tag)
    {
      assert p[|p| - 1].n <= Count(TopCounts(frames[..i], rootCounts), p[|p| - 1].tag);
    }
  }

  lemma TextKeepsStacked(frames: seq<Frame>, k: nat, parts: seq<string>)
    requires Stacked(frames) && k < |frames|
    ensures Stacked(WithText(frames, k, parts))
  {
    forall i | 0 <= i < |frames|
      ensures TopPath(WithText(frames, k, parts)[..i]) == TopPath(frames[..i])
    {
    }
    assert forall i :: 0 <= i < |frames| ==> WithText(frames, k, parts)[i].path == frames[i].path;
  }

  /** Changing collected text leaves paths and counters alone. */
  lemma TextKeepsInvariant(frames: seq<Frame>, rootCounts: map<string, nat>, issued: seq<Path>, k: nat, parts: seq<string>)
    requires StackInvariant(frames, rootCounts, issued) && k < |frames|
    ensures StackInvariant(WithText(frames, k, parts), rootCounts, issued)
    ensures forall g :: g in WithText(frames, k, parts) ==> exists h :: h in frames && h.path == g.path
  {
    TextKeepsCounted(frames, rootCounts, issued, k, parts);
    TextKeepsStacked(frames, k, parts);
    hide Counted;
    hide Stacked;
    forall g | g in WithText(frames, k, parts) ensures exists h :: h in frames && h.path == g.path {
      assert frames[k] in frames;
      assert g in frames || g.path == frames[k].path;
    }
  }

  // ---- counters are positions ------------------------------------------------------

  /** How many elements with this tag were opened under `parent` so far. */
  ghost function Siblings(issued: seq<Path>, parent: Path, tag: string): nat {
    if issued == [] then 0
    else
      var last := issued[|issued| - 1];
      Siblings(issued[..|issued| - 1], parent, tag)
      + if last != [] && last[..|last| - 1] == parent && last[|last| - 1].tag == tag then 1 else 0
  }

  lemma SiblingsPush(issued: seq<Path>, p: Path, parent: Path, tag: string)
    ensures Siblings(issued + [p], parent, tag)
            == Siblings(issued, parent, tag) + if p != [] && p[..|p| - 1] == parent && p[|p| - 1].tag == tag then 1 else 0
  {
    assert (issued + [p])[..|issued|] == issued;
  }

  lemma {:induction false} NoSiblings(issued: seq<Path>, parent: Path, tag: string)
    requires forall p :: p in issued && p != [] ==> p[..|p| - 1] != parent
    ensures Siblings(issued, parent, tag) == 0
  {
    if issued != [] {
      assert issued[|issued| - 1] in issued;
      NoSiblings(issued[..|issued| - 1], parent, tag);
    }
  }

  /** The counters of every open element say how many children of each tag it has had. */
  ghost predicate Exact(frames: seq<Frame>, rootCounts: map<string, nat>, issued: seq<Path>) {
    forall i, tag {:trigger Count(TopCounts(frames[..i], rootCounts), tag)} ::
      0 <= i <= |frames| ==> Count(TopCounts(frames[..i], rootCounts), tag) == Siblings(issued, TopPath(frames[..i]), tag)
  }

  lemma OpenKeepsExact(frames: seq<Frame>, rootCounts: map<string, nat>, issued: seq<Path>, f: Frame)
    requires StackInvariant(frames, rootCounts, issued) && Exact(frames, rootCounts, issued)
    requires f.path == NextPath(frames, rootCounts, f.tag) && f.childCounts == map[]
    ensures Exact(Opened(frames, f), RootAfter(frames, rootCounts, f.tag), issued + [f.path])
  {
    var next, root := Opened(frames, f), RootAfter(frames, rootCounts, f.tag);
    NextPathIsNew(frames, rootCounts, issued, f.tag);
    forall i, tag | 0 <= i <= |next|
      ensures Count(TopCounts(next[..i], root), tag) == Siblings(issued + [f.path], TopPath(next[..i]), tag)
    {
      if i <= |frames| {
        OpenKeepsExactAt(frames, rootCounts, issued, f, i, tag);
      } else {
        assert next[..i] == next && TopPath(next) == f.path && TopCounts(next, root) == map[];
        NewHasNoChildren(frames, rootCounts, issued, f.path, tag);
      }
    }
  }

  lemma OpenKeepsExactAt(frames: seq<Frame>, rootCounts: map<string, nat>, issued: seq<Path>, f: Frame, i: nat, tag: string)
    requires Stacked(frames) && Exact(frames, rootCounts, issued) && i <= |frames|
    requires f.path == NextPath(frames, rootCounts, f.tag)
    ensures var next, root := Opened(frames, f), RootAfter(frames, rootCounts, f.tag);
            Count(TopCounts(next[..i], root), tag) == Siblings(issued + [f.path], TopPath(next[..i]), tag)
  {
    OpenedPrefix(frames, rootCounts, f, i);
    SiblingsPush(issued, f.path, TopPath(frames[..i]), tag);
    PrefixesDiffer(frames, i);
    assert frames[..|frames|] == frames;
    assert Count(TopCounts(frames[..i], rootCounts), tag) == Siblings(issued, TopPath(frames[..i]), tag);
    hide Siblings, Stacked, Exact, Opened, RootAfter;
  }

  /** Only the innermost open element has the path new children are put under. */
  lemma PrefixesDiffer(frames: seq<Frame>, i: nat)
    requires Stacked(frames) && i <= |frames|
    ensures TopPath(frames[..i]) == TopPath(frames) ==> i == |frames|
  {
    if i > 0 { assert |TopPath(frames[..i])| == i; }
    if frames != [] { assert |TopPath(frames)| == |frames|; }
  }

  lemma NewHasNoChildren(frames: seq<Frame>, rootCounts: map<string, nat>, issued: seq<Path>, p: Path, tag: string)
    requires StackInvariant(frames, rootCounts, issued) && p !in issued && p != []
    ensures Siblings(issued + [p], p, tag) == 0
  {
    forall q | q in issued + [p] && q != [] ensures q[..|q| - 1] != p {
      if q in issued { assert |q| > 1 ==> q[..|q| - 1] in issued; }
    }
    NoSiblings(issued + [p], p, tag);
  }

  lemma TruncateKeepsExact(frames: seq<Frame>, rootCounts: map<string, nat>, issued: seq<Path>, k: nat)
    requires Exact(frames, rootCounts, issued) && k <= |frames|
    ensures Exact(frames[..k], rootCounts, issued)
  {
    assert forall i :: 0 <= i <= k ==> frames[..k][..i] == frames[..i];
  }

  lemma TextKeepsExact(frames: seq<Frame>, rootCounts: map<string, nat>, issued: seq<Path>, k: nat, parts: seq<string>)
    requires Exact(frames, rootCounts, issued) && k < |frames|
    ensures Exact(WithText(frames, k, parts), rootCounts, issued)
  {
    var next := WithText(frames, k, parts);
    forall i, tag | 0 <= i <= |next|
      ensures Count(TopCounts(next[..i], rootCounts), tag) == Siblings(issued, TopPath(next[..i]), tag)
    {
      assert Count(TopCounts(frames[..i], rootCounts), tag) == Siblings(issued, TopPath(frames[..i]), tag);
    }
  }

  /** The number in a new element's selector is its position among the siblings of its tag. */
  lemma NextPathIsPosition(frames: seq<Frame>, rootCounts: map<string, nat>, issued: seq<Path>, tag: string)
    requires Exact(frames, rootCounts, issued)
    ensures NextPath(frames, rootCounts, tag) == TopPath(frames) + [Component(tag, Siblings(issued, TopPath(frames), tag) + 1)]
  {
    assert frames[..|frames|] == frames;
    assert Count(TopCounts(frames[..|frames|], rootCounts), tag) == Siblings(issued, TopPath(frames[..|frames|]), tag);
  }

  // ---- the parser -----------------------------------------------------------------

  /** What the handler reads from an element's attributes. */
  datatype Attributes = Attributes(referenceMarker: bool, ldJsonType: bool, metaName: string, metaContent: string)

  datatype Event =
    | StartTag(tag: string, attributes: Attributes)
    | StartEndTag(tag: string, attributes: Attributes)
    | EndTag(tag: string)
    | Data(text: string)

  function CaptureKind(tag: string, skip: bool): Capture {
    if skip then NoCapture
    else if tag in HEADING_TAGS then Heading
    else if tag == "p" then Paragraph
    else if tag == "title" then Title
    else NoCapture
  }

  /** The frame pushed for a start tag. */
  function FrameFor(frames: seq<Frame>, rootCounts: map<string, nat>, tag: string, a: Attributes): Frame {
    var isJsonld := tag == "script" && a.ldJsonType;
    var parentSkip := frames != [] && frames[|frames| - 1].skip;
    var skip := parentSkip || (tag in SKIP_TAGS && !isJsonld) || a.referenceMarker;
    Frame(tag, NextPath(frames, rootCounts, tag), map[], skip, CaptureKind(tag, skip), [], isJsonld)
  }

  /** What a start tag opens: skipped areas inherit, and only what is not skipped captures text. */
  ghost predicate IsFrameOf(f: Frame, tag: string, a: Attributes, parentSkipped: bool, path: Path) {
    && f.tag == tag && f.path == path && f.childCounts == map[] && f.textParts == []
    && (f.jsonld <==> tag == "script" && a.ldJsonType)
    && (f.skip <==>
          || parentSkipped || a.referenceMarker
          || tag in {"style", "nav", "footer", "aside", "form", "noscript", "svg", "canvas"} || (tag == "script" && !a.ldJsonType))
    && f.capture == (if f.skip then NoCapture
                     else if tag in {"h1", "h2", "h3", "h4", "h5", "h6"} then Heading
                     else if tag == "p" then Paragraph
                     else if tag == "title" then Title else NoCapture)
  }

  lemma FrameIs(frames: seq<Frame>, rootCounts: map<string, nat>, tag: string, a: Attributes)
    ensures var f := FrameFor(frames, rootCounts, tag, a);
            && f.tag == tag && f.path == NextPath(frames, rootCounts, tag) && f.childCounts == map[]
            && IsFrameOf(f, tag, a, frames != [] && frames[|frames| - 1].skip, f.path)
    ensures var next := Opened(frames, FrameFor(frames, rootCounts, tag, a));
            next != [] && next[|next| - 1] == FrameFor(frames, rootCounts, tag, a)
  {
    hide NextPath;
  }

  ghost predicate DistinctStrings(s: seq<string>) {
    forall i, j :: 0 <= i < j < |s| ==> s[i] != s[j]
  }

  function Selectors(paths: seq<Path>): seq<string> {
    seq(|paths|, i requires 0 <= i < |paths| => Selector(paths[i]))
  }

  class ArticleHTMLParser {
    var frames: seq<Frame>
    var rootCounts: map<string, nat>
    var metadata: seq<(string, string, string)>
    var jsonldScripts: seq<(string, string)>
    var bodyBlocks: seq<Block>
    var documentTitle: Option<string>
    var currentHeading: Option<string>
    /** Every path issued so far, and the paths of the emitted paragraphs. */
    ghost var issued: seq<Path>
    ghost var blockPaths: seq<Path>

    /** Paragraphs come from closed elements, each at most once. */
    ghost predicate Blocks()
      reads this
    {
      && |blockPaths| == |bodyBlocks|
      && (forall i :: 0 <= i < |bodyBlocks| ==> bodyBlocks[i].selector == Selector(blockPaths[i]))
      && DistinctPaths(blockPaths)
      && (forall p :: p in blockPaths ==> p in issued)
      && (forall f :: f in frames ==> f.path !in blockPaths)
    }

    ghost predicate Valid()
      reads this
    {
      StackInvariant(frames, rootCounts, issued) && Exact(frames, rootCounts, issued) && Blocks()
    }

    constructor ()
      ensures Valid() && issued == [] && frames == [] && bodyBlocks == []
    {
      frames, rootCounts, metadata, jsonldScripts, bodyBlocks := [], map[], [], [], [];
      documentTitle, currentHeading := None, None;
      issued, blockPaths := [], [];
    }

    /** Pushes a frame whose path was never issued before. */
    method HandleStartTag(tag: string, a: Attributes)
      requires Valid() && TagName(tag)
      modifies this
      ensures Valid()
      ensures issued == old(issued) + [TopPath(old(frames)) + [Component(tag, Siblings(old(issued), TopPath(old(frames)), tag) + 1)]]
      ensures frames == Opened(old(frames), FrameFor(old(frames), old(rootCounts), tag, a))
      ensures IsFrameOf(frames[|frames| - 1], tag, a, old(frames) != [] && old(frames)[|old(frames)| - 1].skip, issued[|issued| - 1])
      ensures metadata == if tag == "meta" && a.metaName != "" && a.metaContent != ""
                          then old(metadata) + [(a.metaName, a.metaContent, Selector(issued[|issued| - 1]))] else old(metadata)
      ensures rootCounts == RootAfter(old(frames), old(rootCounts), tag)
      ensures bodyBlocks == old(bodyBlocks) && blockPaths == old(blockPaths)
      ensures jsonldScripts == old(jsonldScripts)
      ensures documentTitle == old(documentTitle) && currentHeading == old(currentHeading)
    {
      hide StackInvariant, DistinctPaths, NextPath, Selector, FrameFor, IsFrameOf;
      FrameIs(frames, rootCounts, tag, a);
      var f := FrameFor(frames, rootCounts, tag, a);
      OpenKeepsInvariant(frames, rootCounts, issued, f);
      OpenKeepsExact(frames, rootCounts, issued, f);
      NextPathIsPosition(frames, rootCounts, issued, tag);
      hide Exact, Siblings;
      if tag == "meta" && a.metaName != "" && a.metaContent != "" {
        metadata := metadata + [(a.metaName, a.metaContent, Selector(f.path))];
      }
      frames, rootCounts := Opened(frames, f), RootAfter(frames, rootCounts, tag);
      issued := issued + [f.path];
    }

    /** `_finalize`: records the text a closed element collected. */
    method Finalize(f: Frame)
      modifies this
      ensures frames == old(frames) && rootCounts == old(rootCounts) && issued == old(issued)
      ensures metadata == old(metadata)
      ensures var text := Normalized(Join(f.textParts));
              && jsonldScripts == (if f.jsonld && text != "" then old(jsonldScripts) + [(Selector(f.path), text)] else old(jsonldScripts))
              && currentHeading == (if !f.jsonld && f.capture == Heading && text != "" then Some(text) else old(currentHeading))
              && documentTitle == (if !f.jsonld && f.capture == Title && text != "" && old(documentTitle) == None then Some(text)
                                   else old(documentTitle))
      ensures var text := Normalized(Join(f.textParts));
              if !f.jsonld && f.capture == Paragraph && text != "" && !f.skip
              then bodyBlocks == old(bodyBlocks) + [Block(text, Selector(f.path), old(currentHeading))]
                && blockPaths == old(blockPaths) + [f.path]
              else bodyBlocks == old(bodyBlocks) && blockPaths == old(blockPaths)
    {
      var text := Normalized(Join(f.textParts));
      if f.jsonld && text != "" {
        jsonldScripts := jsonldScripts + [(Selector(f.path), text)];
      } else if f.capture == Heading && text != "" {
        currentHeading := Some(text);
      } else if f.capture == Title && text != "" && documentTitle == None {
        documentTitle := Some(text);
      } else if f.capture == Paragraph && text != "" && !f.skip {
        bodyBlocks := bodyBlocks + [Block(text, Selector(f.path), currentHeading)];
        blockPaths := blockPaths + [f.path];
      }
    }

    /** Finalizes the frames from the top down to `k` and drops them. */
    method CloseTo(k: nat)
      requires Valid() && k <= |frames|
      modifies this
      ensures Valid() && issued == old(issued) && rootCounts == old(rootCounts)
      ensures frames == old(frames)[..k]
    {
      hide StackInvariant, Exact;
      ghost var was := frames;
      while |frames| > k
        invariant Valid() && issued == old(issued) && rootCounts == old(rootCounts)
        invariant k <= |frames| <= |was| && frames == was[..|frames|]
        decreases |frames|
      {
        var f := frames[|frames| - 1];
        assert f in frames;
        TopIsAlone(frames, rootCounts, issued);
        Finalize(f);
        TruncateKeepsInvariant(frames, rootCounts, issued, |frames| - 1);
        TruncateKeepsExact(frames, rootCounts, issued, |frames| - 1);
        frames := frames[..|frames| - 1];
      }
    }

    /** `next(index for index in reversed order if frames[index].tag == tag)`, or -1. */
    method FindTag(tag: string) returns (k: int)
      ensures -1 <= k < |frames|
      ensures k >= 0 ==> frames[k].tag == tag
      ensures forall j :: k < j < |frames| ==> frames[j].tag != tag
    {
      k := |frames| - 1;
      while k >= 0 && frames[k].tag != tag
        invariant -1 <= k < |frames|
        invariant forall j :: k < j < |frames| ==> frames[j].tag != tag
      {
        k := k - 1;
      }
    }

    /** Closes the innermost element with this tag and all inside it; an unmatched end tag changes nothing. */
    method HandleEndTag(tag: string)
      requires Valid()
      modifies this
      ensures Valid() && issued == old(issued) && rootCounts == old(rootCounts)
      ensures |frames| <= |old(frames)| && frames == old(frames)[..|frames|]
      ensures |frames| < |old(frames)| ==> old(frames)[|frames|].tag == tag
      ensures |frames| == |old(frames)| ==> bodyBlocks == old(bodyBlocks) && forall f :: f in frames ==> f.tag != tag
      ensures forall j :: |frames| < j < |old(frames)| ==> old(frames)[j].tag != tag
    {
      hide StackInvariant, Exact;
      var k := FindTag(tag);
      if k >= 0 { CloseTo(k); }
    }

    method HandleStartEndTag(tag: string, a: Attributes)
      requires Valid() && TagName(tag)
      modifies this
      ensures Valid()
      ensures issued == old(issued) + [TopPath(old(frames)) + [Component(tag, Siblings(old(issued), TopPath(old(frames)), tag) + 1)]]
    {
      HandleStartTag(tag, a);
      HandleEndTag(tag);
    }

    /** The frame that collects incoming text, or -1. */
    method FindTaker() returns (k: int)
      ensures -1 <= k < |frames|
      ensures k >= 0 ==> TakesText(frames, k)
      ensures k < 0 ==> forall j :: 0 <= j < |frames| ==> !TakesText(frames, j)
    {
      k := |frames| - 1;
      while k >= 0 && !frames[k].jsonld
        invariant -1 <= k < |frames|
        invariant forall j :: k < j < |frames| ==> !frames[j].jsonld
      {
        k := k - 1;
      }
      if k < 0 {
        k := |frames| - 1;
        while k >= 0 && frames[k].capture == NoCapture
          invariant -1 <= k < |frames|
          invariant forall j :: k < j < |frames| ==> frames[j].capture == NoCapture
        {
          k := k - 1;
        }
      }
    }

    /** Text goes to the innermost JSON-LD frame if there is one, else to the innermost capturing frame. */
    method HandleData(data: string)
      requires Valid()
      modifies this
      ensures Valid() && issued == old(issued) && rootCounts == old(rootCounts)
      ensures bodyBlocks == old(bodyBlocks)
      ensures forall k :: 0 <= k < |old(frames)| && TakesText(old(frames), k) ==>
                frames == WithText(old(frames), k, old(frames)[k].textParts + [data])
      ensures (forall k :: 0 <= k < |old(frames)| ==> !TakesText(old(frames), k)) ==> frames == old(frames)
    {
      hide StackInvariant, Exact;
      var k := FindTaker();
      if k >= 0 {
        var parts := frames[k].textParts + [data];
        TextKeepsInvariant(frames, rootCounts, issued, k, parts);
        TextKeepsExact(frames, rootCounts, issued, k, parts);
        frames := WithText(frames, k, parts);
      }
    }

    method Close()
      requires Valid()
      modifies this
      ensures Valid() && issued == old(issued) && frames == []
    {
      CloseTo(0);
    }

    /** Whatever tags and text arrive, no selector is ever used twice: neither for two elements
        nor for two emitted paragraphs. */
    method Feed(events: seq<Event>)
      requires Valid()
      requires forall e :: e in events && (e.StartTag? || e.StartEndTag?) ==> TagName(e.tag)
      modifies this
      ensures Valid() && old(issued) <= issued
      ensures DistinctStrings(Selectors(issued))
      ensures forall i, j :: 0 <= i < j < |bodyBlocks| ==> bodyBlocks[i].selector != bodyBlocks[j].selector
    {
      for i := 0 to |events|
        invariant Valid() && old(issued) <= issued
      {
        assert events[i] in events;
        match events[i]
        case StartTag(tag, a) => HandleStartTag(tag, a);
        case StartEndTag(tag, a) => HandleStartEndTag(tag, a);
        case EndTag(tag) => HandleEndTag(tag);
        case Data(text) => HandleData(text);
      }
      IssuedSelectorsDistinct(frames, issued);
      forall i, j | 0 <= i < j < |bodyBlocks| ensures bodyBlocks[i].selector != bodyBlocks[j].selector {
        assert blockPaths[i] in blockPaths && blockPaths[j] in blockPaths;
        IssuedSelectorsDiffer(frames, issued, blockPaths[i], blockPaths[j]);
      }
    }
  }

  /** Frame `k` is the one that collects incoming text. */
  ghost predicate TakesText(frames: seq<Frame>, k: int)
    requires 0 <= k < |frames|
  {
    if exists j :: 0 <= j < |frames| && frames[j].jsonld then
      frames[k].jsonld && forall j :: k < j < |frames| ==> !frames[j].jsonld
    else
      frames[k].capture != NoCapture && forall j :: k < j < |frames| ==> frames[j].capture == NoCapture
  }

  lemma IssuedSelectorsDiffer(frames: seq<Frame>, issued: seq<Path>, p: Path, q: Path)
    requires Issued(frames, issued) && p in issued && q in issued && p != q
    ensures Selector(p) != Selector(q)
  {
    if Selector(p) == Selector(q) { SelectorInjective(p, q); }
  }

  lemma IssuedSelectorsDistinct(frames: seq<Frame>, issued: seq<Path>)
    requires Issued(frames, issued)
    ensures DistinctStrings(Selectors(issued))
  {
    forall i, j | 0 <= i < j < |issued| ensures Selectors(issued)[i] != Selectors(issued)[j] {
      IssuedSelectorsDiffer(frames, issued, issued[i], issued[j]);
    }
  }
}
