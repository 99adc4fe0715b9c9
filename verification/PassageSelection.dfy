/** Ranking and greedy local de-duplication of `select_passage_drafts` (`inspiration/passages.py`). */
module PassageSelection {
  import opened Ordering

  /** A scored window: what ranking and de-duplication read, and the locator that goes with it. */
  datatype Scored = Scored(
    lexicalScore: real, tagHits: int, lexicalHits: int, cueHits: int, sectionBonus: int, tier: int,
    selector: string, startOffset: int, digest: string, text: string, fingerprint: set<string>, heading: string)

  /** The ranking tuple; numbers are negated where the source negates them. */
  datatype RankKey = RankKey(
    score: real, tags: int, lexical: int, cues: int, section: int, tier: int, selector: string, start: int, digest: string)

  function KeyOf(s: Scored): RankKey {
    RankKey(-s.lexicalScore, -s.tagHits, -s.lexicalHits, -s.cueHits, -s.sectionBonus, s.tier, s.selector, s.startOffset, s.digest)
  }

  /** Tuple comparison `a <= b`. */
  predicate KeyLeq(a: RankKey, b: RankKey) {
    a.score < b.score || (a.score == b.score &&
      (a.tags < b.tags || (a.tags == b.tags &&
        (a.lexical < b.lexical || (a.lexical == b.lexical &&
          (a.cues < b.cues || (a.cues == b.cues &&
            (a.section < b.section || (a.section == b.section &&
              (a.tier < b.tier || (a.tier == b.tier && TailLeq(a, b))))))))))))
  }

  predicate TailLeq(a: RankKey, b: RankKey) {
    if a.selector != b.selector then Leq(a.selector, b.selector)
    else if a.start != b.start then a.start < b.start
    else Leq(a.digest, b.digest)
  }

  /** Which of two windows ranks first: more score, tags, lexical hits, cues, a section bonus; then a lower tier and an earlier place. */
  ghost predicate Preferred(x: Scored, y: Scored) {
    if x.lexicalScore != y.lexicalScore then x.lexicalScore > y.lexicalScore
    else if x.tagHits != y.tagHits then x.tagHits > y.tagHits
    else if x.lexicalHits != y.lexicalHits then x.lexicalHits > y.lexicalHits
    else if x.cueHits != y.cueHits then x.cueHits > y.cueHits
    else if x.sectionBonus != y.sectionBonus then x.sectionBonus > y.sectionBonus
    else if x.tier != y.tier then x.tier < y.tier
    else if x.selector != y.selector then Leq(x.selector, y.selector)
    else if x.startOffset != y.startOffset then x.startOffset < y.startOffset
    else Leq(x.digest, y.digest)
  }

  lemma RankPrefers(x: Scored, y: Scored)
    ensures KeyLeq(KeyOf(x), KeyOf(y)) <==> Preferred(x, y)
  {
    hide Leq;
  }

  lemma KeyTotal(a: RankKey, b: RankKey)
    ensures KeyLeq(a, b) || KeyLeq(b, a)
  {
    LeqTotal(a.selector, b.selector);
    LeqTotal(a.digest, b.digest);
  }

  lemma KeyAntisymmetric(a: RankKey, b: RankKey)
    requires KeyLeq(a, b) && KeyLeq(b, a)
    ensures a == b
  {
    hide Leq;
    if a.selector != b.selector {
      if Leq(a.selector, b.selector) && Leq(b.selector, a.selector) { LeqAntisymmetric(a.selector, b.selector); }
    } else {
      LeqAntisymmetric(a.digest, b.digest);
    }
  }

  lemma TailTransitive(a: RankKey, b: RankKey, c: RankKey)
    requires TailLeq(a, b) && TailLeq(b, c)
    ensures TailLeq(a, c)
  {
    hide Leq;
    if a.selector != b.selector && b.selector != c.selector {
      LeqTransitive(a.selector, b.selector, c.selector);
      if a.selector == c.selector { LeqAntisymmetric(a.selector, b.selector); }
    }
    if a.selector == b.selector == c.selector && a.start == b.start == c.start {
      LeqTransitive(a.digest, b.digest, c.digest);
    }
  }

  lemma KeyTransitive(a: RankKey, b: RankKey, c: RankKey)
    requires KeyLeq(a, b) && KeyLeq(b, c)
    ensures KeyLeq(a, c)
  {
    hide TailLeq;
    if TailLeq(a, b) && TailLeq(b, c) { TailTransitive(a, b, c); }
  }

  ghost predicate Ranked(s: seq<RankKey>) {
    forall i, j :: 0 <= i < j < |s| ==> KeyLeq(s[i], s[j])
  }

  function Keys(s: seq<Scored>): seq<RankKey> {
    seq(|s|, i requires 0 <= i < |s| => KeyOf(s[i]))
  }

  lemma FirstKeysAgree(a: seq<RankKey>, b: seq<RankKey>)
    requires Ranked(a) && Ranked(b) && multiset(a) == multiset(b) && a != [] && b != []
    ensures a[0] == b[0]
  {
    hide KeyLeq;
    assert a[0] in multiset(b) && b[0] in multiset(a);
    var i :| 0 <= i < |b| && b[i] == a[0];
    var j :| 0 <= j < |a| && a[j] == b[0];
    KeyTotal(a[0], a[0]);
    if i > 0 && j > 0 { KeyAntisymmetric(a[0], b[0]); }
  }

  lemma MultisetOfTail<T>(a: seq<T>)
    requires a != []
    ensures multiset(a[1..]) == multiset(a) - multiset{a[0]}
  {
    assert a == [a[0]] + a[1..];
  }

  /** Sorting by rank leaves no freedom in the sequence of keys. */
  lemma {:induction false} RankedUnique(a: seq<RankKey>, b: seq<RankKey>)
    requires Ranked(a) && Ranked(b) && multiset(a) == multiset(b)
    ensures a == b
  {
    assert |a| == |multiset(a)| == |multiset(b)| == |b|;
    hide KeyLeq;
    if a != [] {
      FirstKeysAgree(a, b);
      MultisetOfTail(a);
      MultisetOfTail(b);
      RankedUnique(a[1..], b[1..]);
      assert a == [a[0]] + a[1..] && b == [b[0]] + b[1..];
    }
  }

  lemma KeysOfConcat(a: seq<Scored>, b: seq<Scored>)
    ensures Keys(a + b) == Keys(a) + Keys(b)
  {
  }

  /** Taking one element out of a sequence. */
  lemma Removed(b: seq<Scored>, j: nat)
    requires j < |b|
    ensures multiset(b[..j] + b[j + 1..]) == multiset(b) - multiset{b[j]}
    ensures multiset(Keys(b)) == multiset(Keys(b[..j] + b[j + 1..])) + multiset{KeyOf(b[j])}
  {
    assert b == b[..j] + ([b[j]] + b[j + 1..]);
    KeysOfConcat(b[..j], [b[j]] + b[j + 1..]);
    KeysOfConcat([b[j]], b[j + 1..]);
    KeysOfConcat(b[..j], b[j + 1..]);
    assert Keys([b[j]]) == [KeyOf(b[j])];
  }

  lemma RemovedFirst(a: seq<Scored>)
    requires a != []
    ensures multiset(a[1..]) == multiset(a) - multiset{a[0]}
    ensures multiset(Keys(a)) == multiset(Keys(a[1..])) + multiset{KeyOf(a[0])}
  {
    Removed(a, 0);
    assert a[..0] + a[0 + 1..] == a[1..];
  }

  lemma {:induction false} KeysOfPermutation(a: seq<Scored>, b: seq<Scored>)
    requires multiset(a) == multiset(b)
    ensures multiset(Keys(a)) == multiset(Keys(b))
  {
    hide KeyOf;
    assert |multiset(a)| == |a| && |multiset(b)| == |b|;
    if a == [] {
      assert b == [];
    } else {
      assert a[0] in multiset(b);
      hide Keys;
      var j :| 0 <= j < |b| && b[j] == a[0];
      RemovedFirst(a);
      Removed(b, j);
      KeysOfPermutation(a[1..], b[..j] + b[j + 1..]);
    }
  }

  // ---- sorting ----------------------------------------------------------------------

  method InsertByRank(sorted: seq<Scored>, x: Scored) returns (r: seq<Scored>)
    requires Ranked(Keys(sorted))
    ensures Ranked(Keys(r)) && multiset(r) == multiset(sorted) + multiset{x}
  {
    hide KeyLeq;
    var k := |sorted|;
    while k > 0 && !KeyLeq(KeyOf(sorted[k - 1]), KeyOf(x))
      invariant 0 <= k <= |sorted|
      invariant forall j :: k <= j < |sorted| ==> KeyLeq(KeyOf(x), KeyOf(sorted[j]))
    {
      k := k - 1;
      KeyTotal(KeyOf(sorted[k]), KeyOf(x));
    }
    r := sorted[..k] + [x] + sorted[k..];
    assert sorted == sorted[..k] + sorted[k..];
    InsertedRanked(sorted, x, k);
  }

  lemma InsertedRanked(sorted: seq<Scored>, x: Scored, k: nat)
    requires k <= |sorted| && Ranked(Keys(sorted))
    requires k > 0 ==> KeyLeq(KeyOf(sorted[k - 1]), KeyOf(x))
    requires forall j :: k <= j < |sorted| ==> KeyLeq(KeyOf(x), KeyOf(sorted[j]))
    ensures Ranked(Keys(sorted[..k] + [x] + sorted[k..]))
  {
    hide KeyLeq;
    var r := sorted[..k] + [x] + sorted[k..];
    var ks := Keys(sorted);
    forall i, j | 0 <= i < j < |r| ensures KeyLeq(Keys(r)[i], Keys(r)[j]) {
      if i < k && j == k {
        assert Keys(r)[i] == ks[i];
        if i < k - 1 { KeyTransitive(ks[i], ks[k - 1], KeyOf(x)); }
      } else if i < k {
        assert Keys(r)[i] == ks[i] && Keys(r)[j] == if j < k then ks[j] else ks[j - 1];
      } else if i > k {
        assert Keys(r)[i] == ks[i - 1] && Keys(r)[j] == ks[j - 1];
      }
    }
  }

  /** `scored.sort(key=_ranking_key)`. */
  method SortByRank(scored: seq<Scored>) returns (r: seq<Scored>)
    ensures Ranked(Keys(r)) && multiset(r) == multiset(scored)
  {
    hide KeyLeq;
    r := [];
    for i := 0 to |scored|
      invariant Ranked(Keys(r)) && multiset(r) == multiset(scored[..i])
    {
      r := InsertByRank(r, scored[i]);
      assert scored[..i + 1] == scored[..i] + [scored[i]];
    }
    assert scored[..|scored|] == scored;
  }

  // ---- greedy selection ---------------------------------------------------------------

  function Jaccard(a: set<string>, b: set<string>): real {
    if a == {} && b == {} then 1.0
    else
      assert |a + b| > 0 by { if a != {} { var x :| x in a; assert x in a + b; } else { var x :| x in b; assert x in a + b; } }
      |a * b| as real / |a + b| as real
  }

  predicate Clashes(x: Scored, y: Scored, threshold: real) {
    x.digest == y.digest || Jaccard(x.fingerprint, y.fingerprint) >= threshold
  }

  predicate Blocked(x: Scored, accepted: seq<Scored>, threshold: real) {
    exists y :: y in accepted && Clashes(x, y, threshold)
  }

  /** Similarity is the shared part of all tokens: between 0 for none and 1 for the same, in either order. */
  lemma JaccardMeans(a: set<string>, b: set<string>)
    ensures Jaccard(a, b) == Jaccard(b, a) && 0.0 <= Jaccard(a, b) <= 1.0
    ensures Jaccard(a, b) == 1.0 <==> a == b
    ensures Jaccard(a, b) == 0.0 <==> a * b == {} && a + b != {}
    ensures a + b != {} ==> Jaccard(a, b) * |a + b| as real == |a * b| as real
  {
    assert a * b == b * a && a + b == b + a;
    assert a * b <= a + b;
    Smaller(a * b, a + b);
    if a == b { assert a * b == a + b; }
    if a * b == a + b { assert forall x :: x in a || x in b ==> x in a * b; assert a == b; }
    if a + b != {} { Share(|a * b|, |a + b|); }
  }

  lemma Share(n: nat, m: nat)
    requires 0 < m && n <= m
    ensures var q := n as real / m as real;
            0.0 <= q <= 1.0 && q * m as real == n as real && (q == 1.0 <==> n == m) && (q == 0.0 <==> n == 0)
  {
    var x, y := n as real, m as real;
    var q := x / y;
    assert q * y == x;
    Times(q, 0.0, y);
    Times(1.0, q, y);
    assert 1.0 * y == y && 0.0 * y == 0.0;
  }

  lemma Smaller(a: set<string>, b: set<string>)
    requires a <= b
    ensures |a| <= |b| && (|a| == |b| ==> a == b)
  {
    assert b == a + (b - a);
  }

  /** Two windows clash when their texts are the same or share enough of their tokens. */
  lemma ClashIff(x: Scored, y: Scored, threshold: real)
    ensures Clashes(x, y, threshold) <==>
              || x.digest == y.digest
              || (if x.fingerprint + y.fingerprint == {} then threshold <= 1.0
                  else threshold * |x.fingerprint + y.fingerprint| as real <= |x.fingerprint * y.fingerprint| as real)
  {
    JaccardMeans(x.fingerprint, y.fingerprint);
    var all := x.fingerprint + y.fingerprint;
    if all != {} { Times(Jaccard(x.fingerprint, y.fingerprint), threshold, |all| as real); }
  }

  lemma Times(a: real, b: real, m: real)
    requires m > 0.0
    ensures a >= b <==> a * m >= b * m
  {
    if a >= b { assert (a - b) * m >= 0.0; } else { assert (b - a) * m > 0.0; }
  }

  /** One pass over the ranked windows, continuing from the ones already accepted. */
  ghost function Greedy(ranked: seq<Scored>, accepted: seq<Scored>, threshold: real, limit: nat): seq<Scored> {
    if ranked == [] || |accepted| >= limit then accepted
    else Greedy(ranked[1..], if Blocked(ranked[0], accepted, threshold) then accepted else accepted + [ranked[0]], threshold, limit)
  }

  method SelectGreedily(ranked: seq<Scored>, threshold: real, limit: nat) returns (output: seq<Scored>)
    requires limit >= 1
    ensures output == Greedy(ranked, [], threshold, limit)
  {
    output := [];
    var fingerprints: seq<set<string>> := [];
    var digests: set<string> := {};
    for i := 0 to |ranked|
      invariant |output| < limit
      invariant |fingerprints| == |output| && forall k :: 0 <= k < |output| ==> fingerprints[k] == output[k].fingerprint
      invariant forall d :: d in digests <==> exists y :: y in output && y.digest == d
      invariant Greedy(ranked[i..], output, threshold, limit) == Greedy(ranked, [], threshold, limit)
    {
      var x := ranked[i];
      assert ranked[i..][0] == x && ranked[i..][1..] == ranked[i + 1..];
      if x.digest in digests { continue; }
      if exists k :: 0 <= k < |fingerprints| && Jaccard(x.fingerprint, fingerprints[k]) >= threshold {
        var k :| 0 <= k < |fingerprints| && Jaccard(x.fingerprint, fingerprints[k]) >= threshold;
        assert output[k] in output && Clashes(x, output[k], threshold);
        continue;
      }
      forall y | y in output ensures !Clashes(x, y, threshold) {
        var k :| 0 <= k < |output| && output[k] == y;
        assert fingerprints[k] == y.fingerprint;
      }
      assert !Blocked(x, output, threshold);
      output := output + [x];
      digests := digests + {x.digest};
      fingerprints := fingerprints + [x.fingerprint];
      assert Greedy(ranked[i + 1..], output, threshold, limit) == Greedy(ranked, [], threshold, limit);
      if |output| >= limit { return; }
    }
  }

  /** What greedy selection guarantees about the accepted windows. */
  ghost predicate PairwiseDifferent(output: seq<Scored>, threshold: real) {
    forall i, j :: 0 <= i < j < |output| ==> !Clashes(output[j], output[i], threshold)
  }

  lemma {:induction false} GreedyExtends(ranked: seq<Scored>, accepted: seq<Scored>, threshold: real, limit: nat)
    ensures accepted <= Greedy(ranked, accepted, threshold, limit)
    ensures forall y :: y in Greedy(ranked, accepted, threshold, limit) ==> y in accepted || y in ranked
    ensures |accepted| <= limit ==> |Greedy(ranked, accepted, threshold, limit)| <= limit
    decreases ranked
  {
    if ranked != [] && |accepted| < limit {
      var next := if Blocked(ranked[0], accepted, threshold) then accepted else accepted + [ranked[0]];
      GreedyExtends(ranked[1..], next, threshold, limit);
    }
  }

  lemma {:induction false} GreedyDifferent(ranked: seq<Scored>, accepted: seq<Scored>, threshold: real, limit: nat)
    requires PairwiseDifferent(accepted, threshold)
    ensures PairwiseDifferent(Greedy(ranked, accepted, threshold, limit), threshold)
    decreases ranked
  {
    if ranked != [] && |accepted| < limit {
      var x := ranked[0];
      var next := if Blocked(x, accepted, threshold) then accepted else accepted + [x];
      if next != accepted { assert forall i :: 0 <= i < |accepted| ==> accepted[i] in accepted; }
      GreedyDifferent(ranked[1..], next, threshold, limit);
    }
  }

  /** A skipped window clashes with one accepted before its turn, or came after the limit was reached. */
  lemma {:induction false} GreedySkips(ranked: seq<Scored>, accepted: seq<Scored>, threshold: real, limit: nat, k: nat)
    requires k < |ranked|
    ensures var output := Greedy(ranked, accepted, threshold, limit);
            || ranked[k] in output
            || (exists y :: y in output && Clashes(ranked[k], y, threshold) && (y in accepted || y in ranked[..k]))
            || (|output| >= limit && forall y :: y in output ==> y in accepted || y in ranked[..k])
    decreases ranked
  {
    var output := Greedy(ranked, accepted, threshold, limit);
    if |accepted| < limit {
      var x := ranked[0];
      var next := if Blocked(x, accepted, threshold) then accepted else accepted + [x];
      GreedyExtends(ranked[1..], next, threshold, limit);
      assert forall y :: y in next ==> y in output;
      if k == 0 {
        if next == accepted {
          var y :| y in accepted && Clashes(x, y, threshold);
          assert y in output;
        } else {
          assert x in next;
        }
      } else {
        assert ranked[k] == ranked[1..][k - 1];
        forall y | y in ranked[1..][..k - 1] ensures y in ranked[..k] {
          var i :| 0 <= i < k - 1 && ranked[1..][i] == y;
          assert ranked[..k][i + 1] == y;
        }
        assert ranked[..k][0] == x;
        GreedySkips(ranked[1..], next, threshold, limit, k - 1);
      }
    }
  }

  // ---- independence of the draft order ------------------------------------------------

  /** Equal digests mean equal texts, and the fingerprint is a function of the text. */
  ghost predicate DigestsIdentify(all: set<Scored>) {
    forall x, y :: x in all && y in all && x.digest == y.digest ==> x.text == y.text && x.fingerprint == y.fingerprint
  }

  /** Two windows that selection cannot tell apart. */
  ghost predicate Same(x: Scored, y: Scored) {
    x.digest == y.digest && x.text == y.text && x.fingerprint == y.fingerprint
  }

  ghost predicate SameAll(a: seq<Scored>, b: seq<Scored>) {
    |a| == |b| && forall i :: 0 <= i < |a| ==> Same(a[i], b[i])
  }

  lemma SameBlocked(x: Scored, y: Scored, a: seq<Scored>, b: seq<Scored>, threshold: real)
    requires Same(x, y) && SameAll(a, b)
    ensures Blocked(x, a, threshold) ==> Blocked(y, b, threshold)
  {
    if Blocked(x, a, threshold) {
      var z :| z in a && Clashes(x, z, threshold);
      var i :| 0 <= i < |a| && a[i] == z;
      assert b[i] in b && Clashes(y, b[i], threshold);
    }
  }

  lemma {:induction false} GreedySame(r: seq<Scored>, s: seq<Scored>, a: seq<Scored>, b: seq<Scored>, threshold: real, limit: nat)
    requires SameAll(r, s) && SameAll(a, b)
    ensures SameAll(Greedy(r, a, threshold, limit), Greedy(s, b, threshold, limit))
    decreases r
  {
    if r != [] && |a| < limit {
      SameBlocked(r[0], s[0], a, b, threshold);
      SameBlocked(s[0], r[0], b, a, threshold);
      var next := if Blocked(r[0], a, threshold) then a else a + [r[0]];
      var more := if Blocked(s[0], b, threshold) then b else b + [s[0]];
      GreedySame(r[1..], s[1..], next, more, threshold, limit);
    }
  }

  function TextsOf(s: seq<Scored>): seq<string> {
    seq(|s|, i requires 0 <= i < |s| => s[i].text)
  }

  /** Two rankings of the same windows select the same texts in the same order. */
  lemma SelectionIgnoresDraftOrder(
    drafts: seq<Scored>, shuffled: seq<Scored>, r: seq<Scored>, s: seq<Scored>, threshold: real, limit: nat)
    requires multiset(drafts) == multiset(shuffled) && DigestsIdentify(set x | x in drafts)
    requires Ranked(Keys(r)) && multiset(r) == multiset(drafts)
    requires Ranked(Keys(s)) && multiset(s) == multiset(shuffled)
    ensures TextsOf(Greedy(r, [], threshold, limit)) == TextsOf(Greedy(s, [], threshold, limit))
  {
    KeysOfPermutation(r, s);
    RankedUnique(Keys(r), Keys(s));
    assert |Keys(r)| == |r| && |Keys(s)| == |s|;
    forall i | 0 <= i < |r| ensures Same(r[i], s[i]) {
      assert Keys(r)[i] == Keys(s)[i];
      assert r[i] in multiset(r) && s[i] in multiset(s);
      assert r[i] in drafts && s[i] in drafts;
    }
    GreedySame(r, s, [], [], threshold, limit);
  }

  /** Selection of the passages of one hit from its scored windows. */
  method SelectPassages(scored: seq<Scored>, threshold: real, limit: nat) returns (output: seq<Scored>)
    requires limit >= 1
    ensures exists r :: Ranked(Keys(r)) && multiset(r) == multiset(scored) && output == Greedy(r, [], threshold, limit)
    ensures PairwiseDifferent(output, threshold) && |output| <= limit
    ensures forall x :: x in output ==> x in scored
    ensures forall x :: x in scored && x !in output ==>
              || (exists y :: y in output && Clashes(x, y, threshold) && Preferred(y, x))
              || (|output| == limit && forall y :: y in output ==> Preferred(y, x))
  {
    var ranked := SortByRank(scored);
    output := SelectGreedily(ranked, threshold, limit);
    GreedyExtends(ranked, [], threshold, limit);
    GreedyDifferent(ranked, [], threshold, limit);
    forall x ensures x in scored <==> x in ranked { assert x in multiset(scored) <==> x in multiset(ranked); }
    forall x | x in scored && x !in output
      ensures || (exists y :: y in output && Clashes(x, y, threshold) && Preferred(y, x))
              || (|output| == limit && forall y :: y in output ==> Preferred(y, x))
    {
      var k :| 0 <= k < |ranked| && ranked[k] == x;
      GreedySkips(ranked, [], threshold, limit, k);
      EarlierRanksFirst(ranked, k);
    }
  }

  lemma EarlierRanksFirst(ranked: seq<Scored>, k: nat)
    requires k < |ranked| && Ranked(Keys(ranked))
    ensures forall y :: y in ranked[..k] ==> Preferred(y, ranked[k])
  {
    forall y | y in ranked[..k] ensures Preferred(y, ranked[k]) {
      RankPrefers(y, ranked[k]);
      var i :| 0 <= i < k && ranked[i] == y;
      assert KeyLeq(Keys(ranked)[i], Keys(ranked)[k]);
    }
  }
}
