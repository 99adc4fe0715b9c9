/** Whitespace-normalized text: `" ".join(value.split())`. */
module Texts {

  /** The characters on which Python's `str.split()` splits. */
  predicate IsSpace(c: char) {
    var n := c as int;
    || 0x09 <= n <= 0x0D || 0x1C <= n <= 0x20 || n == 0x85 || n == 0xA0 || n == 0x1680
    || 0x2000 <= n <= 0x200A || n == 0x2028 || n == 0x2029 || n == 0x202F || n == 0x205F || n == 0x3000
  }

  function Words(s: string, word: string): seq<string> {
    if s == "" then
      if word == "" then [] else [word]
    else if IsSpace(s[0]) then
      (if word == "" then [] else [word]) + Words(s[1..], "")
    else
      Words(s[1..], word + [s[0]])
  }

  function Join(words: seq<string>): string {
    if words == [] then ""
    else if |words| == 1 then words[0]
    else words[0] + " " + Join(words[1..])
  }

  function Normalized(value: string): string {
    Join(Words(value, ""))
  }

  /** No whitespace at either end, and none inside but single blanks. */
  ghost predicate Trimmed(t: string) {
    t != "" ==>
      && !IsSpace(t[0]) && !IsSpace(t[|t| - 1])
      && (forall i :: 0 <= i < |t| && IsSpace(t[i]) ==> t[i] == ' ')
      && (forall i :: 0 <= i < |t| - 1 ==> !(t[i] == ' ' && t[i + 1] == ' '))
  }

  ghost predicate IsWord(w: string) {
    w != "" && forall i :: 0 <= i < |w| ==> !IsSpace(w[i])
  }

  lemma {:induction false} WordsAreWords(s: string, word: string)
    requires word == "" || IsWord(word)
    ensures forall w :: w in Words(s, word) ==> IsWord(w)
    decreases |s|
  {
    if s != "" {
      if IsSpace(s[0]) { WordsAreWords(s[1..], ""); } else { WordsAreWords(s[1..], word + [s[0]]); }
    }
  }

  lemma {:induction false} JoinTrimmed(words: seq<string>)
    requires forall w :: w in words ==> IsWord(w)
    ensures Trimmed(Join(words)) && (words != [] ==> Join(words) != "")
  {
    if |words| == 1 {
      assert words[0] in words;
    } else if |words| > 1 {
      var head, rest := words[0], Join(words[1..]);
      assert head in words && IsWord(head);
      JoinTrimmed(words[1..]);
      var t := head + " " + rest;
      assert t[|head|] == ' ' && t[|head| + 1..] == rest && t[..|head|] == head;
      forall i | 0 <= i < |t| && IsSpace(t[i]) ensures t[i] == ' ' {
        if i > |head| { assert t[i] == rest[i - |head| - 1]; }
      }
      forall i | 0 <= i < |t| - 1 ensures !(t[i] == ' ' && t[i + 1] == ' ') {
        if i > |head| { assert t[i] == rest[i - |head| - 1] && t[i + 1] == rest[i - |head|]; }
      }
    }
  }

  /** Normalized text is trimmed, whatever the value. */
  lemma NormalizedIsTrimmed(value: string)
    ensures Trimmed(Normalized(value))
  {
    WordsAreWords(value, "");
    JoinTrimmed(Words(value, ""));
  }

  lemma {:induction false} WordsAccumulate(u: string, t: string, word: string)
    requires forall i :: 0 <= i < |u| ==> !IsSpace(u[i])
    ensures Words(u + t, word) == Words(t, word + u)
  {
    if u == "" {
      assert u + t == t && word + u == word;
    } else {
      assert (u + t)[0] == u[0] && (u + t)[1..] == u[1..] + t;
      WordsAccumulate(u[1..], t, word + [u[0]]);
      assert word + [u[0]] + u[1..] == word + u;
    }
  }

  /** Splitting joined words gives the words back. */
  lemma {:induction false} WordsOfJoin(words: seq<string>)
    requires forall w :: w in words ==> IsWord(w)
    ensures Words(Join(words), "") == words
  {
    if words != [] {
      var w := words[0];
      assert w in words;
      if |words| == 1 {
        WordsAccumulate(w, "", "");
        assert w + "" == w && "" + w == w;
      } else {
        var rest := Join(words[1..]);
        WordsOfJoin(words[1..]);
        WordsAccumulate(w, " " + rest, "");
        assert w + (" " + rest) == Join(words) && "" + w == w;
        assert (" " + rest)[1..] == rest;
      }
    }
  }

  /** Nothing but whitespace. */
  predicate Blank(s: string) { forall i :: 0 <= i < |s| ==> IsSpace(s[i]) }

  lemma {:induction false} NoWordsIff(s: string, word: string)
    ensures Words(s, word) == [] <==> word == "" && Blank(s)
    decreases |s|
  {
    if s != "" {
      NoWordsIff(s[1..], if IsSpace(s[0]) then "" else word + [s[0]]);
      assert Blank(s) <==> IsSpace(s[0]) && Blank(s[1..]) by {
        forall i | 1 <= i < |s| ensures s[i] == s[1..][i - 1] {}
      }
    }
  }

  /** Normalization leaves nothing exactly of blank text. */
  lemma NormalizedEmptyIff(value: string)
    ensures Normalized(value) == "" <==> Blank(value)
  {
    NoWordsIff(value, "");
    WordsAreWords(value, "");
    JoinTrimmed(Words(value, ""));
  }

  lemma {:induction false} JoinBlankIff(words: seq<string>)
    ensures Blank(Join(words)) <==> forall w :: w in words ==> Blank(w)
  {
    if |words| > 1 {
      var head, rest := words[0], Join(words[1..]);
      JoinBlankIff(words[1..]);
      var t := head + " " + rest;
      assert t[..|head|] == head && t[|head|] == ' ' && t[|head| + 1..] == rest;
      assert Blank(t) <==> Blank(head) && Blank(rest) by {
        forall i | 0 <= i < |head| ensures t[i] == head[i] {}
        forall i | 0 <= i < |rest| ensures t[|head| + 1 + i] == rest[i] {}
      }
      assert forall w :: w in words <==> w == head || w in words[1..];
    }
  }

  /** Normalizing twice is normalizing once. */
  lemma NormalizedIdempotent(value: string)
    ensures Normalized(Normalized(value)) == Normalized(value)
  {
    WordsAreWords(value, "");
    WordsOfJoin(Words(value, ""));
  }

  /** Splitting takes text apart exactly at whitespace: both sides of any of it split on their own, and a word stays whole. */
  lemma SplitsAtSpace(u: string, c: char, v: string, w: string)
    requires IsSpace(c) && IsWord(w)
    ensures Words(u + [c] + v, "") == Words(u, "") + Words(v, "")
    ensures Words(w, "") == [w] && Words("", "") == []
  {
    WordsApart(u, c, v, "");
    WordsAccumulate(w, "", "");
    assert w + "" == w && "" + w == w;
  }

  lemma {:induction false} WordsApart(u: string, c: char, v: string, word: string)
    requires IsSpace(c)
    ensures Words(u + [c] + v, word) == Words(u, word) + Words(v, "")
    decreases |u|
  {
    var s := u + [c] + v;
    if u == "" {
      assert s[1..] == v;
    } else {
      assert s[1..] == u[1..] + [c] + v;
      WordsApart(u[1..], c, v, if IsSpace(u[0]) then "" else word + [u[0]]);
    }
  }
}
