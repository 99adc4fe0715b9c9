/**
 * The `_normalize_*` helpers of the feedback compiler (`inspiration/feedback.py`): drop exact
 * repetitions, refuse conflicting ones, and sort by key.
 */
module Normalizing {
  import opened Ordering
  import opened Wrappers

  /** An identifier, or an identifier with a number. */
  type Key = (string, nat)

  predicate KeyLeq(a: Key, b: Key) { if a.0 != b.0 then Leq(a.0, b.0) else a.1 <= b.1 }

  lemma KeyTotal(a: Key, b: Key)
    ensures KeyLeq(a, b) || KeyLeq(b, a)
  {
    LeqTotal(a.0, b.0);
  }

  lemma KeyAntisymmetric(a: Key, b: Key)
    requires KeyLeq(a, b) && KeyLeq(b, a)
    ensures a == b
  {
    hide Leq;
    if a.0 != b.0 { LeqAntisymmetric(a.0, b.0); }
  }

  lemma KeyTransitive(a: Key, b: Key, c: Key)
    requires KeyLeq(a, b) && KeyLeq(b, c)
    ensures KeyLeq(a, c)
  {
    hide Leq;
    if a.0 != b.0 && b.0 != c.0 {
      LeqTransitive(a.0, b.0, c.0);
      if a.0 == c.0 { LeqAntisymmetric(a.0, b.0); }
    }
  }

  ghost predicate Normalized<T(!new)>(values: seq<T>, key: T -> Key) {
    forall i, j :: 0 <= i < j < |values| ==> KeyLeq(key(values[i]), key(values[j])) && key(values[i]) != key(values[j])
  }

  ghost predicate Consistent<T(!new)>(values: seq<T>, key: T -> Key) {
    forall x, y :: x in values && y in values && key(x) == key(y) ==> x == y
  }

  ghost predicate SameMembers<T(!new)>(a: seq<T>, b: seq<T>) { forall x :: x in a <==> x in b }

  /** A normalized list is determined by its members. */
  lemma {:induction false} NormalizedUnique<T(!new)>(a: seq<T>, b: seq<T>, key: T -> Key)
    requires Normalized(a, key) && Normalized(b, key) && SameMembers(a, b)
    ensures a == b
    decreases |a|
  {
    hide KeyLeq;
    assert b != [] ==> b[0] in b;
    if a != [] {
      assert a[0] in b;
      FirstIsFirst(a, b, key);
      assert a[0] == b[0];
      forall x ensures x in a[1..] <==> x in b[1..] {
        TailMembers(a, key, x);
        TailMembers(b, key, x);
      }
      NormalizedUnique(a[1..], b[1..], key);
      assert a == [a[0]] + a[1..] && b == [b[0]] + b[1..];
    }
  }

  lemma FirstIsFirst<T(!new)>(a: seq<T>, b: seq<T>, key: T -> Key)
    requires Normalized(a, key) && Normalized(b, key) && SameMembers(a, b) && a != [] && b != []
    ensures a[0] == b[0]
  {
    hide KeyLeq;
    assert a[0] in b && b[0] in a;
    var i :| 0 <= i < |b| && b[i] == a[0];
    var j :| 0 <= j < |a| && a[j] == b[0];
    if i > 0 && j > 0 {
      KeyAntisymmetric(key(a[0]), key(b[0]));
      assert false;
    }
  }

  lemma TailMembers<T(!new)>(a: seq<T>, key: T -> Key, x: T)
    requires Normalized(a, key) && a != []
    ensures x in a[1..] <==> x in a && x != a[0]
  {
    hide KeyLeq;
    if x in a[1..] {
      var i :| 0 <= i < |a[1..]| && a[1..][i] == x;
      assert a[i + 1] == x && key(a[0]) != key(a[i + 1]);
    }
    if x in a && x != a[0] {
      var i :| 0 <= i < |a| && a[i] == x;
      assert a[1..][i - 1] == x;
    }
  }

  method Insert<T(==, !new)>(sorted: seq<T>, x: T, key: T -> Key) returns (r: seq<T>)
    requires Normalized(sorted, key) && forall y :: y in sorted ==> key(y) != key(x)
    ensures Normalized(r, key) && SameMembers(r, sorted + [x])
  {
    hide KeyLeq;
    var k := 0;
    while k < |sorted| && KeyLeq(key(sorted[k]), key(x))
      invariant k <= |sorted|
      invariant forall i :: 0 <= i < k ==> KeyLeq(key(sorted[i]), key(x))
    {
      k := k + 1;
    }
    forall i | k <= i < |sorted| ensures KeyLeq(key(x), key(sorted[i])) {
      KeyTotal(key(sorted[k]), key(x));
      if i > k { KeyTransitive(key(x), key(sorted[k]), key(sorted[i])); }
    }
    r := sorted[..k] + [x] + sorted[k..];
    assert sorted == sorted[..k] + sorted[k..];
    forall i, j | 0 <= i < j < |r| ensures KeyLeq(key(r[i]), key(r[j])) && key(r[i]) != key(r[j]) {
      var a, b := if i > k then i - 1 else i, if j > k then j - 1 else j;
      assert r[i] == (if i == k then x else sorted[a]);
      assert r[j] == (if j == k then x else sorted[b]);
      assert i != k ==> sorted[a] in sorted;
      assert j != k ==> sorted[b] in sorted;
    }
  }

  /** First the dictionary that drops repetitions and notices conflicts, then the sort. */
  method Normalize<T(==, !new)>(values: seq<T>, key: T -> Key) returns (r: Option<seq<T>>)
    ensures r.Some? <==> Consistent(values, key)
    ensures r.Some? ==> Normalized(r.value, key) && SameMembers(r.value, values)
  {
    hide KeyLeq, Normalized;
    var byKey: map<Key, T> := map[];
    var unique: seq<T> := [];
    for i := 0 to |values|
      invariant forall k :: k in byKey ==> key(byKey[k]) == k && byKey[k] in values[..i]
      invariant forall j :: 0 <= j < i ==> key(values[j]) in byKey && byKey[key(values[j])] == values[j]
      invariant forall x :: x in unique <==> x in values[..i]
      invariant forall j, k :: 0 <= j < k < |unique| ==> key(unique[j]) != key(unique[k])
    {
      var x := values[i];
      assert values[..i + 1] == values[..i] + [x];
      if key(x) in byKey {
        if byKey[key(x)] != x {
          assert byKey[key(x)] in values && x in values;
          return None;
        }
      } else {
        forall j | 0 <= j < |unique| ensures key(unique[j]) != key(x) {
          assert unique[j] in values[..i];
        }
        byKey := byKey[key(x) := x];
        unique := unique + [x];
      }
    }
    assert values[..|values|] == values;
    var sorted: seq<T> := [];
    assert Normalized(sorted, key) by { NothingIsNormalized(key); }
    for i := 0 to |unique|
      invariant Normalized(sorted, key) && SameMembers(sorted, unique[..i])
    {
      assert unique[..i + 1] == unique[..i] + [unique[i]];
      sorted := Insert(sorted, unique[i], key);
    }
    assert unique[..|unique|] == unique;
    return Some(sorted);
  }

  lemma NothingIsNormalized<T(!new)>(key: T -> Key)
    ensures Normalized([], key)
  {
  }

  /** Reordering or repeating the records changes neither whether they are accepted nor the result. */
  method NormalizeTwice<T(==, !new)>(a: seq<T>, b: seq<T>, key: T -> Key) returns (x: Option<seq<T>>, y: Option<seq<T>>)
    requires SameMembers(a, b)
    ensures x == y
  {
    hide Normalized;
    x := Normalize(a, key);
    y := Normalize(b, key);
    if x.Some? { NormalizedUnique(x.value, y.value, key); }
  }
}
