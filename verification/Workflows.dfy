/** Workflow templates (`dft/workflows.py`): template validation and the layered topological sort. */
module Workflows {
  import opened Ordering

  datatype Task = Task(key: string, dependsOn: seq<string>)

  datatype Claim = Claim(claimType: string, supportingTaskKeys: seq<string>)

  /** A dependency graph: every task key with the set of keys it depends on. */
  type Graph = map<string, set<string>>

  datatype SortOutcome = Ordered(keys: seq<string>) | DependencyCycle

  datatype GuardError = DuplicateTaskKeys | UnknownDependency | UnknownClaimTask | CyclicTemplate

  datatype GuardOutcome = Accepted | Rejected(error: GuardError)

  function KeySet(keys: seq<string>): (s: set<string>) {
    set k | k in keys
  }

  ghost predicate UniqueKeys(tasks: seq<Task>) {
    forall i, j :: 0 <= i < j < |tasks| ==> tasks[i].key != tasks[j].key
  }

  /** The graph of a task tuple; the tuple's order does not show in it. */
  ghost function GraphOf(tasks: seq<Task>): (g: Graph)
    requires UniqueKeys(tasks)
  {
    map t | t in tasks :: t.key := KeySet(t.dependsOn)
  }

  /** Every dependency names a task of the graph. */
  ghost predicate Closed(g: Graph) {
    forall k :: k in g ==> g[k] <= g.Keys
  }

  /** `p` follows dependencies: each key after the first is a dependency of the key before it. */
  ghost predicate Chain(g: Graph, p: seq<string>) {
    && (forall i :: 0 <= i < |p| ==> p[i] in g)
    && (forall i :: 0 <= i < |p| - 1 ==> p[i + 1] in g[p[i]])
  }

  ghost predicate HasCycle(g: Graph) {
    exists p :: |p| >= 2 && Chain(g, p) && p[0] == p[|p| - 1]
  }

  ghost predicate ChainFrom(g: Graph, k: string, p: seq<string>) {
    p != [] && p[0] == k && Chain(g, p)
  }

  /** The longest chain of dependencies starting at `k` has `n` keys. */
  ghost predicate LongestChainIs(g: Graph, k: string, n: nat) {
    && (exists p :: ChainFrom(g, k, p) && |p| == n)
    && (forall p :: ChainFrom(g, k, p) ==> |p| <= n)
  }

  /** The keys emitted in the first `r` rounds. */
  ghost function DoneAt(g: Graph, r: nat): (s: set<string>)
    ensures s <= g.Keys
  {
    if r == 0 then {} else set k | k in g && g[k] <= DoneAt(g, r - 1)
  }

  ghost function Round(g: Graph, r: nat): set<string> {
    DoneAt(g, r + 1) - DoneAt(g, r)
  }

  /** The output after `r` rounds: each round in sorted order. */
  ghost function OrderAt(g: Graph, r: nat): seq<string> {
    if r == 0 then [] else OrderAt(g, r - 1) + Sorted(Round(g, r - 1))
  }

  lemma {:induction false} DoneGrows(g: Graph, r: nat)
    ensures DoneAt(g, r) <= DoneAt(g, r + 1)
  {
    if r > 0 { DoneGrows(g, r - 1); }
  }

  lemma {:induction false} DoneGrowsTo(g: Graph, q: nat, r: nat)
    requires q <= r
    ensures DoneAt(g, q) <= DoneAt(g, r)
    decreases r
  {
    if q < r {
      DoneGrowsTo(g, q, r - 1);
      DoneGrows(g, r - 1);
    }
  }

  // ---- rounds are longest chains ------------------------------------------------

  lemma {:induction false} DoneBoundsChains(g: Graph, k: string, r: nat, p: seq<string>)
    requires k in DoneAt(g, r) && ChainFrom(g, k, p)
    ensures |p| <= r
    decreases r
  {
    if |p| > 1 {
      DoneBoundsChains(g, p[1], r - 1, p[1..]);
    }
  }

  lemma {:induction false} UndoneHasChain(g: Graph, k: string, r: nat) returns (p: seq<string>)
    requires Closed(g) && k in g && k !in DoneAt(g, r)
    ensures ChainFrom(g, k, p) && |p| == r + 1
    decreases r
  {
    if r == 0 {
      p := [k];
    } else {
      var d :| d in g[k] && d !in DoneAt(g, r - 1);
      var q := UndoneHasChain(g, d, r - 1);
      p := [k] + q;
      assert forall i :: 1 <= i < |p| ==> p[i] == q[i - 1];
    }
  }

  /** A task is emitted in the round given by its longest dependency chain, and only there. */
  lemma {:induction false} RoundIsLongestChain(g: Graph, k: string, r: nat)
    requires Closed(g) && k in g
    ensures k in Round(g, r) <==> LongestChainIs(g, k, r + 1)
  {
    if k in Round(g, r) {
      var p := UndoneHasChain(g, k, r);
      forall q | ChainFrom(g, k, q) ensures |q| <= r + 1 { DoneBoundsChains(g, k, r + 1, q); }
    }
    if LongestChainIs(g, k, r + 1) {
      if k !in DoneAt(g, r + 1) {
        var p := UndoneHasChain(g, k, r + 1);
        assert false;
      }
      if k in DoneAt(g, r) {
        var p :| ChainFrom(g, k, p) && |p| == r + 1;
        DoneBoundsChains(g, k, r, p);
        assert false;
      }
    }
  }

  // ---- the order is a permutation that respects dependencies ---------------------

  /** Every dependency of an emitted key is emitted before it. */
  ghost predicate RespectsDependencies(g: Graph, s: seq<string>) {
    forall j :: 0 <= j < |s| ==> s[j] in g && forall d :: d in g[s[j]] ==> d in s[..j]
  }

  lemma {:induction false} OrderAtMembers(g: Graph, r: nat)
    ensures forall k :: k in OrderAt(g, r) <==> k in DoneAt(g, r)
  {
    if r > 0 {
      OrderAtMembers(g, r - 1);
      DoneGrows(g, r - 1);
      hide DoneAt;
    }
  }

  /** What a round adds: keys not done before whose dependencies are all done. */
  lemma RoundFacts(g: Graph, r: nat)
    ensures forall x :: x in Round(g, r) ==> x in g && x !in DoneAt(g, r) && forall d :: d in g[x] ==> d in DoneAt(g, r)
  {
  }

  lemma AppendLayer(g: Graph, before: seq<string>, layer: seq<string>)
    requires Distinct(before) && RespectsDependencies(g, before) && Distinct(layer)
    requires forall x :: x in layer ==> x !in before && x in g
    requires forall x, d :: x in layer && d in g[x] ==> d in before
    ensures Distinct(before + layer) && RespectsDependencies(g, before + layer)
  {
    var s := before + layer;
    forall i, j | 0 <= i < j < |s| ensures s[i] != s[j] {
      if i < |before| <= j {
        assert s[i] in before && s[j] in layer;
      }
    }
    forall j | 0 <= j < |s|
      ensures s[j] in g && forall d :: d in g[s[j]] ==> d in s[..j]
    {
      if j < |before| {
        assert s[..j] == before[..j];
      } else {
        assert s[j] in layer;
        assert s[..j] == before + layer[..j - |before|];
      }
    }
  }

  lemma {:induction false} OrderAtCorrect(g: Graph, r: nat)
    ensures Distinct(OrderAt(g, r)) && RespectsDependencies(g, OrderAt(g, r))
  {
    hide Ordering.Sorted, DoneAt, Round, Distinct, RespectsDependencies;
    if r == 0 {
      assert Distinct([]) && RespectsDependencies(g, []) by { NothingIsOrdered(g); }
    } else {
      OrderAtCorrect(g, r - 1);
      OrderAtMembers(g, r - 1);
      RoundFacts(g, r - 1);
      AppendLayer(g, OrderAt(g, r - 1), Sorted(Round(g, r - 1)));
    }
  }

  lemma NothingIsOrdered(g: Graph)
    ensures Distinct([]) && RespectsDependencies(g, [])
  {
  }

  /** Keys come out by length of their longest dependency chain, then in string order. */
  ghost predicate OrderedByDepth(g: Graph, s: seq<string>) {
    forall i, j, m, n ::
      0 <= i < j < |s| && LongestChainIs(g, s[i], m) && LongestChainIs(g, s[j], n)
      ==> m < n || (m == n && Leq(s[i], s[j]))
  }

  lemma DepthOfDone(g: Graph, k: string, r: nat, n: nat)
    requires k in DoneAt(g, r) && LongestChainIs(g, k, n)
    ensures n <= r
  {
    var p :| ChainFrom(g, k, p) && |p| == n;
    DoneBoundsChains(g, k, r, p);
  }

  lemma DepthOfRound(g: Graph, k: string, r: nat, n: nat)
    requires Closed(g) && k in Round(g, r) && LongestChainIs(g, k, n)
    ensures n == r + 1
  {
    RoundIsLongestChain(g, k, r);
    var p :| ChainFrom(g, k, p) && |p| == n;
    var q :| ChainFrom(g, k, q) && |q| == r + 1;
  }

  lemma {:induction false} OrderAtByDepth(g: Graph, r: nat)
    requires Closed(g)
    ensures OrderedByDepth(g, OrderAt(g, r))
  {
    hide Ordering.Sorted;
    hide LongestChainIs;
    if r > 0 {
      OrderAtByDepth(g, r - 1);
      var before, layer, s := OrderAt(g, r - 1), Sorted(Round(g, r - 1)), OrderAt(g, r);
      SortedIsSorted(Round(g, r - 1));
      forall i, j, m, n |
        0 <= i < j < |s| && LongestChainIs(g, s[i], m) && LongestChainIs(g, s[j], n)
        ensures m < n || (m == n && Leq(s[i], s[j]))
      {
        if |before| <= j {
          assert s[j] in layer;
          DepthOfRound(g, s[j], r - 1, n);
          if i < |before| {
            assert s[i] in before;
            OrderAtMembers(g, r - 1);
            DepthOfDone(g, s[i], r - 1, m);
          } else {
            assert s[i] in layer;
            DepthOfRound(g, s[i], r - 1, m);
          }
        }
      }
    }
  }

  // ---- failure is a cycle -------------------------------------------------------

  lemma {:induction false} Pigeonhole(p: seq<string>, s: set<string>) returns (i: nat, j: nat)
    requires (forall x :: x in p ==> x in s) && |p| > |s|
    ensures i < j < |p| && p[i] == p[j]
    decreases |s|
  {
    assert p[0] in p;
    if x :| 0 < x < |p| && p[x] == p[0] {
      i, j := 0, x;
    } else {
      forall x | x in p[1..] ensures x in s - {p[0]} {
        var k :| 0 <= k < |p[1..]| && p[1..][k] == x;
        assert p[k + 1] == x;
      }
      i, j := Pigeonhole(p[1..], s - {p[0]});
      i, j := i + 1, j + 1;
    }
  }

  lemma {:induction false} StuckNeverMoves(g: Graph, r: nat, q: nat)
    requires DoneAt(g, r + 1) == DoneAt(g, r) && r <= q
    ensures DoneAt(g, q) == DoneAt(g, r)
    decreases q
  {
    if r < q { StuckNeverMoves(g, r, q - 1); }
  }

  lemma {:induction false} CycleKeysNeverDone(g: Graph, p: seq<string>, i: nat, r: nat)
    requires |p| >= 2 && Chain(g, p) && p[0] == p[|p| - 1] && i < |p|
    ensures p[i] !in DoneAt(g, r)
    decreases r
  {
    if r > 0 {
      var next := if i == |p| - 1 then 1 else i + 1;
      CycleKeysNeverDone(g, p, next, r - 1);
      assert p[next] in g[p[i]];
    }
  }

  lemma StuckHasCycle(g: Graph, r: nat, k: string)
    requires Closed(g) && DoneAt(g, r + 1) == DoneAt(g, r) && k in g && k !in DoneAt(g, r)
    ensures HasCycle(g)
  {
    var n := r + |g.Keys|;
    StuckNeverMoves(g, r, n);
    var p := UndoneHasChain(g, k, n);
    var i, j := Pigeonhole(p, g.Keys);
    var c := p[i..j + 1];
    assert forall m :: 0 <= m < |c| ==> c[m] == p[i + m];
    assert |c| >= 2 && Chain(g, c) && c[0] == c[|c| - 1];
  }

  /** A round with nothing ready while keys are left happens exactly on cyclic graphs. */
  lemma StuckIffCycle(g: Graph, r: nat)
    requires Closed(g) && DoneAt(g, r + 1) == DoneAt(g, r)
    ensures DoneAt(g, r) != g.Keys <==> HasCycle(g)
  {
    if DoneAt(g, r) != g.Keys {
      var k :| k in g && k !in DoneAt(g, r);
      StuckHasCycle(g, r, k);
    }
    if HasCycle(g) {
      var p :| |p| >= 2 && Chain(g, p) && p[0] == p[|p| - 1];
      CycleKeysNeverDone(g, p, 0, r);
    }
  }

  // ---- the sort -----------------------------------------------------------------

  /** What the sort promises about a graph, with no mention of how it gets there. */
  ghost predicate CorrectSort(g: Graph, out: SortOutcome) {
    match out
    case DependencyCycle => HasCycle(g)
    case Ordered(keys) =>
      && !HasCycle(g)
      && Distinct(keys) && KeySet(keys) == g.Keys
      && RespectsDependencies(g, keys)
      && OrderedByDepth(g, keys)
      && (exists r: nat :: keys == OrderAt(g, r) && DoneAt(g, r) == g.Keys)
  }

  lemma SortedOrderCorrect(g: Graph, r: nat)
    requires Closed(g) && DoneAt(g, r) == g.Keys
    ensures CorrectSort(g, Ordered(OrderAt(g, r)))
  {
    DoneGrows(g, r);
    StuckIffCycle(g, r);
    OrderAtMembers(g, r);
    OrderAtCorrect(g, r);
    OrderAtByDepth(g, r);
  }

  /** `CorrectSort` leaves no choice, so the result cannot depend on the order of the task tuple. */
  lemma {:induction false} CorrectSortIsUnique(g: Graph, a: SortOutcome, b: SortOutcome)
    requires CorrectSort(g, a) && CorrectSort(g, b)
    ensures a == b
  {
    if a.Ordered? && b.Ordered? {
      var q: nat :| a.keys == OrderAt(g, q) && DoneAt(g, q) == g.Keys;
      var r: nat :| b.keys == OrderAt(g, r) && DoneAt(g, r) == g.Keys;
      if q <= r { OrderAtFull(g, q, r); } else { OrderAtFull(g, r, q); }
    }
  }

  lemma {:induction false} OrderAtFull(g: Graph, q: nat, r: nat)
    requires q <= r && DoneAt(g, q) == g.Keys
    ensures OrderAt(g, r) == OrderAt(g, q)
    decreases r
  {
    hide Ordering.Sorted, DoneAt;
    if q < r {
      OrderAtFull(g, q, r - 1);
      DoneGrowsTo(g, q, r - 1);
      assert Round(g, r - 1) == {};
      hide Round;
      assert OrderAt(g, r) == OrderAt(g, r - 1) + [];
    }
  }

  /** Two tuples with the same tasks in another order have the same graph. */
  lemma GraphIgnoresTupleOrder(a: seq<Task>, b: seq<Task>)
    requires UniqueKeys(a) && UniqueKeys(b) && multiset(a) == multiset(b)
    ensures GraphOf(a) == GraphOf(b)
  {
    forall t ensures t in a <==> t in b {
      assert t in multiset(a) <==> t in multiset(b);
    }
    forall k | k in GraphOf(a) ensures k in GraphOf(b) && GraphOf(a)[k] == GraphOf(b)[k] {
      var t :| t in a && t.key == k;
      assert t in b;
    }
    forall k | k in GraphOf(b) ensures k in GraphOf(a) {
      var t :| t in b && t.key == k;
      assert t in a;
    }
  }

  lemma GraphOfSnoc(tasks: seq<Task>, t: Task)
    requires UniqueKeys(tasks + [t])
    ensures UniqueKeys(tasks)
    ensures GraphOf(tasks + [t]) == GraphOf(tasks)[t.key := KeySet(t.dependsOn)]
  {
    var s := tasks + [t];
    assert forall i :: 0 <= i < |tasks| ==> s[i] == tasks[i];
    assert s[|tasks|] == t;
    assert forall x :: x in s <==> x in tasks || x == t;
  }

  /** The sort gives one answer for a set of tasks, whatever the order of the tuple. */
  lemma SortIgnoresTupleOrder(a: seq<Task>, b: seq<Task>, x: SortOutcome, y: SortOutcome)
    requires UniqueKeys(a) && UniqueKeys(b) && multiset(a) == multiset(b)
    requires CorrectSort(GraphOf(a), x) && CorrectSort(GraphOf(b), y)
    ensures x == y
  {
    GraphIgnoresTupleOrder(a, b);
    CorrectSortIsUnique(GraphOf(a), x, y);
  }

  method PendingOf(tasks: seq<Task>) returns (pending: map<string, set<string>>)
    requires UniqueKeys(tasks)
    ensures pending == GraphOf(tasks)
  {
    pending := map[];
    for i := 0 to |tasks|
      invariant pending == GraphOf(tasks[..i])
    {
      assert tasks[..i + 1] == tasks[..i] + [tasks[i]];
      GraphOfSnoc(tasks[..i], tasks[i]);
      pending := pending[tasks[i].key := KeySet(tasks[i].dependsOn)];
    }
    assert tasks[..|tasks|] == tasks;
  }

  /** Appends one round to the output and drops its keys from the pending map. */
  method EmitRound(pending: map<string, set<string>>, ordered: seq<string>, ready: seq<string>)
    returns (left: map<string, set<string>>, emitted: seq<string>)
    ensures emitted == ordered + ready
    ensures left == pending - KeySet(ready)
  {
    left, emitted := pending, ordered;
    for i := 0 to |ready|
      invariant emitted == ordered + ready[..i]
      invariant left == pending - KeySet(ready[..i])
    {
      assert ready[..i + 1] == ready[..i] + [ready[i]];
      emitted := emitted + [ready[i]];
      left := left - {ready[i]};
    }
    assert ready[..|ready|] == ready;
  }

  /** `dependencies.difference_update(ready)` for every pending task. */
  method DropDependencies(pending: map<string, set<string>>, ready: set<string>)
    returns (left: map<string, set<string>>)
    ensures left == map k | k in pending :: pending[k] - ready
  {
    left := pending;
    var waiting := pending.Keys;
    while waiting != {}
      invariant left.Keys == pending.Keys && waiting <= pending.Keys
      invariant forall k :: k in pending ==> left[k] == if k in waiting then pending[k] else pending[k] - ready
    {
      var k :| k in waiting;
      waiting := waiting - {k};
      left := left[k := left[k] - ready];
    }
  }

  /** What is still pending after `r` rounds. */
  ghost predicate PendingAt(g: Graph, r: nat, pending: map<string, set<string>>) {
    && pending.Keys == g.Keys - DoneAt(g, r)
    && forall k :: k in pending ==> pending[k] == g[k] - DoneAt(g, r)
  }

  lemma ReadyIsRound(g: Graph, r: nat, pending: map<string, set<string>>)
    requires PendingAt(g, r, pending)
    ensures (set k | k in pending && pending[k] == {}) == Round(g, r)
  {
    forall k ensures k in pending && pending[k] == {} <==> k in Round(g, r) {
      if k in pending && pending[k] == {} {
        forall d | d in g[k] ensures d in DoneAt(g, r) { assert d !in pending[k]; }
      }
    }
  }

  lemma NextPending(g: Graph, r: nat, pending: map<string, set<string>>, ready: set<string>,
                    mid: map<string, set<string>>, next: map<string, set<string>>)
    requires PendingAt(g, r, pending) && ready == Round(g, r)
    requires mid == pending - ready
    requires next == map k | k in mid :: mid[k] - ready
    ensures PendingAt(g, r + 1, next)
  {
    DoneGrows(g, r);
    assert DoneAt(g, r + 1) == DoneAt(g, r) + ready;
  }

  lemma InitialPending(g: Graph)
    ensures PendingAt(g, 0, g) && OrderAt(g, 0) == []
  {
    assert g.Keys - {} == g.Keys;
  }

  lemma PendingEmpty(g: Graph, r: nat)
    requires PendingAt(g, r, map[])
    ensures DoneAt(g, r) == g.Keys
  {
  }

  lemma SortCycle(g: Graph)
    requires HasCycle(g)
    ensures CorrectSort(g, DependencyCycle)
  {
  }

  method TopologicalTaskKeys(tasks: seq<Task>) returns (out: SortOutcome)
    requires UniqueKeys(tasks) && Closed(GraphOf(tasks))
    ensures CorrectSort(GraphOf(tasks), out)
  {
    hide Ordering.Sorted;
    hide DoneAt;
    hide CorrectSort;
    hide PendingAt;
    hide Round;
    hide HasCycle;
    ghost var g := GraphOf(tasks);
    var pending := PendingOf(tasks);
    InitialPending(g);
    var ordered: seq<string> := [];
    ghost var r: nat := 0;
    while pending != map[]
      invariant ordered == OrderAt(g, r) && PendingAt(g, r, pending)
      decreases pending.Keys
    {
      var readyKeys := set k | k in pending && pending[k] == {};
      var ready := Sorted(readyKeys);
      ReadyIsRound(g, r, pending);
      if ready == [] {
        StuckRound(g, r, pending);
        SortCycle(g);
        return DependencyCycle;
      }
      assert KeySet(ready) == Round(g, r);
      assert ready[0] in readyKeys;
      var left, mid;
      mid, ordered := EmitRound(pending, ordered, ready);
      left := DropDependencies(mid, KeySet(ready));
      NextPending(g, r, pending, KeySet(ready), mid, left);
      pending, r := left, r + 1;
    }
    PendingEmpty(g, r);
    SortedOrderCorrect(g, r);
    out := Ordered(ordered);
  }

  lemma StuckRound(g: Graph, r: nat, pending: map<string, set<string>>)
    requires Closed(g) && PendingAt(g, r, pending) && pending != map[] && Round(g, r) == {}
    ensures HasCycle(g)
  {
    hide DoneAt, HasCycle;
    DoneGrows(g, r);
    assert DoneAt(g, r + 1) == DoneAt(g, r) + Round(g, r);
    var k :| k in pending;
    assert k in pending.Keys;
    StuckHasCycle(g, r, k);
  }

  /** The template guard accepts exactly closed, acyclic templates with unique keys. */
  method GraphGuard(tasks: seq<Task>, claims: seq<Claim>) returns (out: GuardOutcome)
    ensures out.Accepted? <==>
            && UniqueKeys(tasks)
            && Closed(GraphOf(tasks))
            && (forall c :: c in claims ==> KeySet(c.supportingTaskKeys) <= GraphOf(tasks).Keys)
            && !HasCycle(GraphOf(tasks))
    ensures out == Rejected(CyclicTemplate) ==>
            UniqueKeys(tasks) && Closed(GraphOf(tasks)) && HasCycle(GraphOf(tasks))
  {
    var keys: set<string> := {};
    for i := 0 to |tasks|
      invariant UniqueKeys(tasks[..i])
      invariant keys == set t | t in tasks[..i] :: t.key
    {
      assert tasks[..i + 1] == tasks[..i] + [tasks[i]];
      if tasks[i].key in keys {
        var t :| t in tasks[..i] && t.key == tasks[i].key;
        return Rejected(DuplicateTaskKeys);
      }
      keys := keys + {tasks[i].key};
    }
    assert tasks[..|tasks|] == tasks;
    for i := 0 to |tasks|
      invariant forall j :: 0 <= j < i ==> KeySet(tasks[j].dependsOn) <= keys
    {
      if !(KeySet(tasks[i].dependsOn) <= keys) {
        assert tasks[i] in tasks && GraphOf(tasks)[tasks[i].key] == KeySet(tasks[i].dependsOn);
        return Rejected(UnknownDependency);
      }
    }
    assert GraphOf(tasks).Keys == keys;
    for i := 0 to |claims|
      invariant forall j :: 0 <= j < i ==> KeySet(claims[j].supportingTaskKeys) <= keys
    {
      if !(KeySet(claims[i].supportingTaskKeys) <= keys) {
        return Rejected(UnknownClaimTask);
      }
    }
    var sorted := TopologicalTaskKeys(tasks);
    out := if sorted.DependencyCycle? then Rejected(CyclicTemplate) else Accepted;
  }
}
