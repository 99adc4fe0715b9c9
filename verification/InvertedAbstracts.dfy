/** Rebuilding an abstract from an inverted index (`_reconstruct_inverted_abstract`, `inspiration/extractors.py`). */
module InvertedAbstracts {
  import opened Texts
  import opened Wrappers

  /** A listed position: an integer, or any other JSON value. */
  datatype Position = At(index: int) | Other

  /** The items of the index in iteration order: a word and its listed positions. */
  type Index = seq<(string, seq<Position>)>

  /** The words at the known positions below `bound`, in position order. */
  function InOrder(words: map<nat, string>, bound: nat): seq<string> {
    if bound == 0 then []
    else InOrder(words, bound - 1) + if bound - 1 in words then [words[bound - 1]] else []
  }

  /** Entry (word, position) is listed in the index. */
  ghost predicate Lists(index: Index, word: string, at: nat) {
    exists k :: 0 <= k < |index| && index[k].0 == word && At(at) in index[k].1
  }

  /** No position is claimed by two words. */
  ghost predicate Consistent(index: Index) {
    forall v, w, at: nat :: Lists(index, v, at) && Lists(index, w, at) ==> v == w
  }

  ghost predicate Positioned(index: Index, words: map<nat, string>) {
    forall w, at: nat :: Lists(index, w, at) <==> at in words && words[at] == w
  }

  /** The positions of one item are entered one by one; a clash with another word ends everything. */
  method EnterPositions(words: map<nat, string>, word: string, positions: seq<Position>, limit: nat)
    returns (out: Option<map<nat, string>>, bound: nat)
    requires forall at :: at in words ==> at < limit
    ensures out.Some? <==> forall at: nat :: At(at) in positions && at in words ==> words[at] == word
    ensures out.Some? ==>
      && (forall at: nat :: at in out.value <==> at in words || At(at) in positions)
      && (forall at: nat :: at in out.value ==> out.value[at] == if At(at) in positions then word else words[at])
      && limit <= bound && forall at :: at in out.value ==> at < bound
  {
    var entered: map<nat, string> := words;
    bound := limit;
    for i := 0 to |positions|
      invariant limit <= bound && forall at :: at in entered ==> at < bound
      invariant forall at: nat :: at in entered <==> at in words || At(at) in positions[..i]
      invariant forall at: nat :: at in entered ==> entered[at] == if At(at) in positions[..i] then word else words[at]
      invariant forall at: nat :: At(at) in positions[..i] && at in words ==> words[at] == word
    {
      var p := positions[i];
      assert positions[..i + 1] == positions[..i] + [p];
      if p.At? && p.index >= 0 {
        var at: nat := p.index;
        if at in entered && entered[at] != word {
          assert At(at) in positions && at in words;
          return None, bound;
        }
        entered := entered[at := word];
        bound := if at >= bound then at + 1 else bound;
      }
    }
    assert positions[..|positions|] == positions;
    out := Some(entered);
  }

  /** One more item entered without a clash. */
  lemma PositionedSnoc(index: Index, n: nat, words: map<nat, string>, next: map<nat, string>)
    requires n < |index| && Positioned(index[..n], words)
    requires forall at: nat :: At(at) in index[n].1 && at in words ==> words[at] == index[n].0
    requires forall at: nat :: at in next <==> at in words || At(at) in index[n].1
    requires forall at: nat :: at in next ==> next[at] == if At(at) in index[n].1 then index[n].0 else words[at]
    ensures Positioned(index[..n + 1], next)
  {
    var before, after := index[..n], index[..n + 1];
    forall w, at: nat ensures Lists(after, w, at) <==> at in next && next[at] == w {
      assert Lists(before, w, at) <==> at in words && words[at] == w;
    }
  }

  lemma ListsPrefix(index: Index, n: nat, word: string, at: nat)
    requires n <= |index| && Lists(index[..n], word, at)
    ensures Lists(index, word, at)
  {
    var k :| 0 <= k < n && index[..n][k].0 == word && At(at) in index[..n][k].1;
    assert index[k] == index[..n][k];
  }

  lemma {:induction false} InOrderMembers(words: map<nat, string>, bound: nat)
    ensures forall w :: w in InOrder(words, bound) <==> exists at: nat :: at < bound && at in words && words[at] == w
  {
    if bound > 0 { InOrderMembers(words, bound - 1); }
  }

  /** Every listed word is blank, or nothing is listed at all. */
  ghost predicate ListsOnlyBlanks(index: Index) {
    forall w, at: nat :: Lists(index, w, at) ==> Blank(w)
  }

  /** The joined words are blank exactly when all of them are. */
  lemma BlankIff(index: Index, words: map<nat, string>, bound: nat)
    requires Positioned(index, words) && forall at :: at in words ==> at < bound
    ensures Normalized(Join(InOrder(words, bound))) == "" <==> ListsOnlyBlanks(index)
  {
    var list := InOrder(words, bound);
    InOrderMembers(words, bound);
    NormalizedEmptyIff(Join(list));
    JoinBlankIff(list);
    if ListsOnlyBlanks(index) {
      forall w | w in list ensures Blank(w) {
        var at: nat :| at < bound && at in words && words[at] == w;
        assert Lists(index, w, at);
      }
    }
    if forall w :: w in list ==> Blank(w) {
      forall w, at: nat | Lists(index, w, at) ensures Blank(w) { assert at in words && words[at] == w; }
    }
  }

  lemma PositionedIsConsistent(index: Index, words: map<nat, string>)
    requires Positioned(index, words)
    ensures Consistent(index)
  {
  }

  /**
   * The rebuilt abstract: the listed words in position order; positions that are no index are skipped.
   * There is none exactly when two words claim one position or nothing but blanks is listed.
   */
  method Reconstruct(index: Index) returns (text: Option<string>)
    ensures forall words, bound: nat ::
      Positioned(index, words) && (forall at :: at in words ==> at < bound) ==>
        text == (var t := Normalized(Join(InOrder(words, bound))); if t == "" then None else Some(t))
    ensures text == None <==> !Consistent(index) || ListsOnlyBlanks(index)
  {
    var words: map<nat, string> := map[];
    var bound: nat := 0;
    for n := 0 to |index|
      invariant Positioned(index[..n], words)
      invariant forall at :: at in words ==> at < bound
    {
      var entered, next := EnterPositions(words, index[n].0, index[n].1, bound);
      if entered.None? {
        Clash(index, n, words);
        return None;
      }
      PositionedSnoc(index, n, words, entered.value);
      words, bound := entered.value, next;
    }
    assert index[..|index|] == index;
    forall other, b: nat | Positioned(index, other) && (forall at :: at in other ==> at < b)
      ensures InOrder(other, b) == InOrder(words, bound)
    {
      SamePositions(index, words, other);
      if b <= bound { InOrderBound(words, b, bound); } else { InOrderBound(words, bound, b); }
    }
    BlankIff(index, words, bound);
    PositionedIsConsistent(index, words);
    var t := Normalized(Join(InOrder(words, bound)));
    text := if t == "" then None else Some(t);
  }

  lemma Clash(index: Index, n: nat, words: map<nat, string>)
    requires n < |index| && Positioned(index[..n], words)
    requires exists at: nat :: At(at) in index[n].1 && at in words && words[at] != index[n].0
    ensures !Consistent(index)
    ensures forall w :: !Positioned(index, w)
  {
    var at: nat :| At(at) in index[n].1 && at in words && words[at] != index[n].0;
    assert Lists(index[..n], words[at], at);
    ListsPrefix(index, n, words[at], at);
    assert Lists(index, index[n].0, at);
  }

  lemma SamePositions(index: Index, a: map<nat, string>, b: map<nat, string>)
    requires Positioned(index, a) && Positioned(index, b)
    ensures a == b
  {
    forall at: nat | at in a ensures at in b && a[at] == b[at] { assert Lists(index, a[at], at); }
    forall at: nat | at in b ensures at in a { assert Lists(index, b[at], at); }
  }

  lemma {:induction false} InOrderBound(words: map<nat, string>, b: nat, c: nat)
    requires b <= c && forall at :: at in words ==> at < b
    ensures InOrder(words, c) == InOrder(words, b)
    decreases c
  {
    if b < c { InOrderBound(words, b, c - 1); }
  }

  /** `index` is an inverted index of the word list: it lists each word at exactly its positions. */
  ghost predicate Inverts(index: Index, list: seq<string>) {
    forall w, at: nat :: Lists(index, w, at) <==> at < |list| && list[at] == w
  }

  ghost function AsMap(list: seq<string>): map<nat, string> {
    map at: nat | at < |list| :: list[at]
  }

  lemma {:induction false} InOrderOfList(list: seq<string>, n: nat)
    requires n <= |list|
    ensures InOrder(AsMap(list), n) == list[..n]
  {
    if n > 0 {
      InOrderOfList(list, n - 1);
      assert list[..n] == list[..n - 1] + [list[n - 1]];
    } else {
      assert list[..0] == [];
    }
  }

  /** Rebuilding from an inverted index of any list of words, listed in any order, returns that list. */
  method Rebuild(index: Index, ghost list: seq<string>) returns (text: Option<string>)
    requires Inverts(index, list) && list != []
    requires forall w :: w in list ==> IsWord(w)
    ensures text == Some(Join(list)) && Words(text.value, "") == list
  {
    text := Reconstruct(index);
    InOrderOfList(list, |list|);
    assert list[..|list|] == list;
    assert Positioned(index, AsMap(list));
    WordsOfJoin(list);
    JoinTrimmed(list);
    assert forall at :: at in AsMap(list) ==> at < |list|;
    assert InOrder(AsMap(list), |list|) == list;
  }
}
