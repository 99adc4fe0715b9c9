/** The physical search-attempt ledger checks of the completed-run verifier
    (`verify_completed_inspiration_run.py`), and the retry figure the report derives from the ledger. */
module AttemptLedger {
  import opened Wrappers

  datatype Outcome = Success | Failure

  datatype Attempt = Attempt(
    queryId: string, number: int, outcome: Outcome, errorCode: Option<string>, httpStatus: Option<int>,
    retryDelay: real, pacingDelay: real, responseBytes: int)

  const MAX_RETRIES := 1
  const MAX_RETRY_DELAY := 10.0
  const MAX_TOTAL_WAIT := 10.0
  const MAX_RESPONSE_BYTES := 1_000_000
  const TRANSIENT_STATUSES: set<int> := {408, 429, 500, 502, 503, 504}

  type Key = (string, int)

  function KeyOf(a: Attempt): Key { (a.queryId, a.number) }

  /** The attempts recorded for one query, in ledger order. */
  function ForQuery(ledger: seq<Attempt>, q: string): (r: seq<Attempt>)
    ensures |r| <= |ledger|
  {
    if ledger == [] then []
    else (if ledger[0].queryId == q then [ledger[0]] else []) + ForQuery(ledger[1..], q)
  }

  predicate CanonicalTransient(a: Attempt) {
    || (a.errorCode == Some("NETWORK_ERROR") && a.httpStatus == None && a.responseBytes == 0 && a.retryDelay == 1.0)
    || (a.errorCode == Some("TRANSIENT_HTTP_ERROR") && a.httpStatus.Some? && a.httpStatus.value in TRANSIENT_STATUSES
        && a.responseBytes == 0)
  }

  function TotalWait(run: seq<Attempt>): real {
    if run == [] then 0.0 else run[0].pacingDelay + run[0].retryDelay + TotalWait(run[1..])
  }

  // ---- the specification: what a ledger has to be --------------------------------

  /** The attempts of one query: k-1 transient errors, then one success, numbered 1..k. */
  ghost predicate CanonicalRun(q: string, run: seq<Attempt>) {
    && 1 <= |run| <= 2
    && (forall i :: 0 <= i < |run| ==> run[i].queryId == q && run[i].number == i + 1)
    && (forall i :: 0 <= i < |run| - 1 ==>
          && run[i].outcome == Failure && run[i].responseBytes == 0
          && (if run[i].httpStatus.None? then run[i].errorCode == Some("NETWORK_ERROR") && run[i].retryDelay == 1.0
              else run[i].errorCode == Some("TRANSIENT_HTTP_ERROR") && run[i].httpStatus.value in {408, 429, 500, 502, 503, 504}))
    && run[|run| - 1].outcome == Success
    && run[|run| - 1].httpStatus == Some(200) && run[|run| - 1].retryDelay == 0.0
    && (forall i :: 0 <= i < |run| ==>
          run[i].retryDelay <= 10.0 && run[i].responseBytes <= 1_000_000)
    && TotalWait(run) <= 10.0
  }

  ghost function Flatten(runs: seq<seq<Attempt>>): seq<Attempt> {
    if runs == [] then [] else runs[0] + Flatten(runs[1..])
  }

  /** One canonical run per planned query, in plan order, and nothing else. */
  ghost predicate RunsOfPlan(plan: seq<string>, ledger: seq<Attempt>, runs: seq<seq<Attempt>>) {
    && |runs| == |plan|
    && ledger == Flatten(runs)
    && forall i :: 0 <= i < |plan| ==> CanonicalRun(plan[i], runs[i])
  }

  ghost predicate DistinctPlan(plan: seq<string>) {
    forall i, j :: 0 <= i < j < |plan| ==> plan[i] != plan[j]
  }

  ghost predicate CanonicalLedger(plan: seq<string>, ledger: seq<Attempt>, maxPacing: real) {
    && ledger != [] && ledger[0].pacingDelay == 0.0
    && (forall a :: a in ledger ==> a.pacingDelay <= maxPacing)
    && DistinctPlan(plan)
    && exists runs :: RunsOfPlan(plan, ledger, runs)
  }

  // ---- the checks, as the verifier makes them -------------------------------------

  /** `(query, 1..n)` for every planned query, n being the number of its attempts in `total`. */
  ghost function ExpectedKeys(plan: seq<string>, total: seq<Attempt>): seq<Key> {
    if plan == [] then []
    else seq(|ForQuery(total, plan[0])|, i => (plan[0], i + 1)) + ExpectedKeys(plan[1..], total)
  }

  function Keys(ledger: seq<Attempt>): seq<Key> {
    seq(|ledger|, i requires 0 <= i < |ledger| => KeyOf(ledger[i]))
  }

  ghost predicate QuerySetsAgree(plan: seq<string>, ledger: seq<Attempt>) {
    (set q | q in plan) == (set a | a in ledger :: a.queryId)
  }

  /** The conjunction of the individual checks. */
  ghost predicate ChecksPass(plan: seq<string>, ledger: seq<Attempt>, maxPacing: real) {
    && QuerySetsAgree(plan, ledger)
    && ledger != [] && ledger[0].pacingDelay == 0.0
    && (forall a :: a in ledger ==> a.pacingDelay <= maxPacing)
    && (forall q :: q in plan ==> CanonicalRun(q, ForQuery(ledger, q)))
    && Keys(ledger) == ExpectedKeys(plan, ledger)
  }

  /** The per-query checks, in the verifier's order. */
  method CheckQuery(q: string, run: seq<Attempt>) returns (ok: bool)
    requires forall i :: 0 <= i < |run| ==> run[i].queryId == q
    requires run != []
    ensures ok <==> CanonicalRun(q, run)
  {
    if |run| > MAX_RETRIES + 1 { return false; }
    var wait := 0.0;
    for i := 0 to |run|
      invariant forall j :: 0 <= j < i ==> run[j].number == j + 1
    {
      if run[i].number != i + 1 { return false; }
    }
    for i := 0 to |run| - 1
      invariant forall j :: 0 <= j < i ==> run[j].outcome == Failure
    {
      if run[i].outcome != Failure { return false; }
    }
    for i := 0 to |run| - 1
      invariant forall j :: 0 <= j < i ==> CanonicalTransient(run[j])
    {
      if !CanonicalTransient(run[i]) { return false; }
    }
    var last := run[|run| - 1];
    if last.outcome != Success { return false; }
    if last.httpStatus != Some(200) || last.retryDelay != 0.0 { return false; }
    for i := 0 to |run|
      invariant forall j :: 0 <= j < i ==>
                  run[j].retryDelay <= MAX_RETRY_DELAY && run[j].responseBytes <= MAX_RESPONSE_BYTES
    {
      if run[i].retryDelay > MAX_RETRY_DELAY || run[i].responseBytes > MAX_RESPONSE_BYTES { return false; }
    }
    for i := 0 to |run|
      invariant wait + TotalWait(run[i..]) == TotalWait(run)
    {
      wait := wait + (run[i].pacingDelay + run[i].retryDelay);
    }
    ok := wait <= MAX_TOTAL_WAIT;
  }

  method KeysInPlanOrder(plan: seq<string>, total: seq<Attempt>) returns (keys: seq<Key>)
    ensures keys == ExpectedKeys(plan, total)
  {
    keys := [];
    for i := 0 to |plan|
      invariant keys + ExpectedKeys(plan[i..], total) == ExpectedKeys(plan, total)
    {
      var n := |ForQuery(total, plan[i])|;
      var next := seq(n, j => (plan[i], j + 1));
      assert ExpectedKeys(plan[i..], total) == next + ExpectedKeys(plan[i..][1..], total);
      assert plan[i..][1..] == plan[i + 1..];
      keys := keys + next;
    }
  }

  /** The ledger part of the release verification. */
  method VerifyLedger(plan: seq<string>, ledger: seq<Attempt>, maxPacing: real) returns (ok: bool)
    ensures ok <==> CanonicalLedger(plan, ledger, maxPacing)
  {
    CheckedIffCanonical(plan, ledger, maxPacing);
    hide CanonicalLedger, CanonicalRun, ForQuery;
    var queryIds := set q | q in plan;
    if queryIds != (set a | a in ledger :: a.queryId) { return false; }
    if ledger == [] { return false; }
    if ledger[0].pacingDelay != 0.0 { return false; }
    if exists a :: a in ledger && a.pacingDelay > maxPacing { return false; }
    var left := queryIds;
    while left != {}
      invariant left <= queryIds
      invariant forall q :: q in queryIds - left ==> CanonicalRun(q, ForQuery(ledger, q))
      decreases left
    {
      var q :| q in left;
      left := left - {q};
      ForQueryMembers(ledger, q);
      var a :| a in ledger && a.queryId == q;
      assert a in ForQuery(ledger, q);
      var good := CheckQuery(q, ForQuery(ledger, q));
      if !good {
        assert q in plan;
        return false;
      }
    }
    var expected := KeysInPlanOrder(plan, ledger);
    ok := Keys(ledger) == expected;
  }

  // ---- checks imply the specification ---------------------------------------------

  lemma {:induction false} ForQueryMembers(ledger: seq<Attempt>, q: string)
    ensures forall a :: a in ForQuery(ledger, q) <==> a in ledger && a.queryId == q
    ensures forall i :: 0 <= i < |ForQuery(ledger, q)| ==> ForQuery(ledger, q)[i].queryId == q
  {
    if ledger != [] {
      ForQueryMembers(ledger[1..], q);
      assert ledger == [ledger[0]] + ledger[1..];
      forall i | 0 <= i < |ForQuery(ledger, q)| ensures ForQuery(ledger, q)[i].queryId == q {
        assert ForQuery(ledger, q)[i] in ForQuery(ledger, q);
      }
    }
  }

  lemma {:induction false} ForQueryConcat(a: seq<Attempt>, b: seq<Attempt>, q: string)
    ensures ForQuery(a + b, q) == ForQuery(a, q) + ForQuery(b, q)
  {
    if a == [] {
      assert a + b == b;
    } else {
      assert (a + b)[1..] == a[1..] + b && (a + b)[0] == a[0];
      ForQueryConcat(a[1..], b, q);
      var head := if a[0].queryId == q then [a[0]] else [];
      assert head + (ForQuery(a[1..], q) + ForQuery(b, q)) == (head + ForQuery(a[1..], q)) + ForQuery(b, q);
    }
  }

  lemma {:induction false} ForQueryAll(a: seq<Attempt>, q: string)
    requires forall i :: 0 <= i < |a| ==> a[i].queryId == q
    ensures ForQuery(a, q) == a
  {
    if a != [] { ForQueryAll(a[1..], q); }
  }

  lemma {:induction false} ForQueryNone(a: seq<Attempt>, q: string)
    requires forall i :: 0 <= i < |a| ==> a[i].queryId != q
    ensures ForQuery(a, q) == []
  {
    if a != [] { ForQueryNone(a[1..], q); }
  }

  /** The first block of a ledger in expected order. */
  lemma FirstBlock(plan: seq<string>, part: seq<Attempt>, total: seq<Attempt>)
    requires plan != [] && Keys(part) == ExpectedKeys(plan, total)
    ensures var n := |ForQuery(total, plan[0])|;
            && n <= |part|
            && (forall i :: 0 <= i < n ==> part[i].queryId == plan[0])
            && Keys(part[n..]) == ExpectedKeys(plan[1..], total)
  {
    var n := |ForQuery(total, plan[0])|;
    var block := seq(n, i => (plan[0], i + 1));
    assert |Keys(part)| == |part|;
    assert Keys(part) == block + ExpectedKeys(plan[1..], total);
    forall i | 0 <= i < n ensures part[i].queryId == plan[0] {
      assert Keys(part)[i] == block[i];
    }
    assert Keys(part[n..]) == Keys(part)[n..];
  }

  /** `part` holds no more attempts of any query than `total`. */
  ghost predicate NoMore(part: seq<Attempt>, total: seq<Attempt>) {
    forall q :: |ForQuery(part, q)| <= |ForQuery(total, q)|
  }

  lemma {:induction false} BlockCount(plan: seq<string>, part: seq<Attempt>, total: seq<Attempt>, q: string)
    requires Keys(part) == ExpectedKeys(plan, total) && q in plan
    ensures |ForQuery(part, q)| >= |ForQuery(total, q)|
    decreases |plan|
  {
    FirstBlock(plan, part, total);
    var n := |ForQuery(total, plan[0])|;
    assert part == part[..n] + part[n..];
    ForQueryConcat(part[..n], part[n..], q);
    if q == plan[0] {
      ForQueryAll(part[..n], q);
    } else {
      BlockCount(plan[1..], part[n..], total, q);
    }
  }

  /** A ledger in expected order splits into the per-query runs, and no query is planned twice. */
  lemma {:induction false} SplitIntoRuns(plan: seq<string>, part: seq<Attempt>, total: seq<Attempt>)
    returns (runs: seq<seq<Attempt>>)
    requires Keys(part) == ExpectedKeys(plan, total) && NoMore(part, total)
    requires forall q :: q in plan ==> ForQuery(total, q) != []
    ensures DistinctPlan(plan) && |runs| == |plan| && part == Flatten(runs)
    ensures forall i :: 0 <= i < |plan| ==> runs[i] == ForQuery(part, plan[i])
    ensures forall i :: 0 <= i < |plan| ==> |runs[i]| == |ForQuery(total, plan[i])|
    decreases |plan|
  {
    if plan == [] {
      assert |Keys(part)| == 0;
      return [];
    }
    var q := plan[0];
    FirstBlock(plan, part, total);
    var n := |ForQuery(total, q)|;
    var block, rest := part[..n], part[n..];
    assert part == block + rest;
    ForQueryAll(block, q);
    forall x ensures ForQuery(part, x) == ForQuery(block, x) + ForQuery(rest, x) {
      ForQueryConcat(block, rest, x);
    }
    assert NoMore(rest, total) by {
      forall x ensures |ForQuery(rest, x)| <= |ForQuery(total, x)| { assert |ForQuery(part, x)| <= |ForQuery(total, x)|; }
    }
    var tail := SplitIntoRuns(plan[1..], rest, total);
    assert |ForQuery(part, q)| <= n;
    assert ForQuery(rest, q) == [] && ForQuery(total, q) != [];
    if q in plan[1..] {
      BlockCount(plan[1..], rest, total, q);
      assert false;
    }
    runs := [block] + tail;
    forall i, j | 0 <= i < j < |plan| ensures plan[i] != plan[j] {
      assert plan[j] == plan[1..][j - 1];
      if i > 0 { assert plan[i] == plan[1..][i - 1]; }
    }
    forall i | 0 <= i < |plan|
      ensures runs[i] == ForQuery(part, plan[i]) && |runs[i]| == |ForQuery(total, plan[i])|
    {
      if i > 0 {
        assert plan[i] == plan[1..][i - 1];
        assert plan[i] != q;
        ForQueryNone(block, plan[i]);
      }
    }
  }

  // ---- the specification implies the checks ---------------------------------------

  lemma RunFacts(q: string, run: seq<Attempt>)
    requires CanonicalRun(q, run)
    ensures run != [] && forall i :: 0 <= i < |run| ==> run[i].queryId == q && run[i].number == i + 1
  {
  }

  lemma {:induction false} RunsFilter(plan: seq<string>, runs: seq<seq<Attempt>>, q: string)
    requires DistinctPlan(plan) && |runs| == |plan|
    requires forall i :: 0 <= i < |plan| ==> CanonicalRun(plan[i], runs[i])
    ensures q !in plan ==> ForQuery(Flatten(runs), q) == []
    ensures forall i :: 0 <= i < |plan| && plan[i] == q ==> ForQuery(Flatten(runs), q) == runs[i]
  {
    hide CanonicalRun;
    if plan != [] {
      RunFacts(plan[0], runs[0]);
      assert forall i :: 1 <= i < |plan| ==> plan[i] == plan[1..][i - 1] && runs[i] == runs[1..][i - 1];
      RunsFilter(plan[1..], runs[1..], q);
      ForQueryConcat(runs[0], Flatten(runs[1..]), q);
      if plan[0] == q {
        ForQueryAll(runs[0], q);
        assert q !in plan[1..];
      } else {
        ForQueryNone(runs[0], q);
      }
    }
  }

  lemma {:induction false} RunKeys(plan: seq<string>, runs: seq<seq<Attempt>>, total: seq<Attempt>)
    requires |runs| == |plan|
    requires forall i :: 0 <= i < |plan| ==> CanonicalRun(plan[i], runs[i])
    requires forall i :: 0 <= i < |plan| ==> ForQuery(total, plan[i]) == runs[i]
    ensures Keys(Flatten(runs)) == ExpectedKeys(plan, total)
  {
    hide CanonicalRun;
    hide ForQuery;
    if plan != [] {
      RunFacts(plan[0], runs[0]);
      assert forall i :: 1 <= i < |plan| ==> plan[i] == plan[1..][i - 1] && runs[i] == runs[1..][i - 1];
      RunKeys(plan[1..], runs[1..], total);
      var rest := Flatten(runs[1..]);
      assert Keys(runs[0] + rest) == Keys(runs[0]) + Keys(rest);
      assert Keys(runs[0]) == seq(|runs[0]|, i => (plan[0], i + 1));
    } else {
      assert Flatten(runs) == [];
    }
  }

  lemma {:induction false} FlattenMembers(plan: seq<string>, runs: seq<seq<Attempt>>, a: Attempt)
    requires |runs| == |plan|
    requires forall i :: 0 <= i < |plan| ==> CanonicalRun(plan[i], runs[i])
    requires a in Flatten(runs)
    ensures a.queryId in plan
  {
    if plan != [] {
      assert a in runs[0] || a in Flatten(runs[1..]);
      if a !in runs[0] { FlattenMembers(plan[1..], runs[1..], a); }
    }
  }

  lemma CanonicalPassesChecks(plan: seq<string>, ledger: seq<Attempt>, maxPacing: real, runs: seq<seq<Attempt>>)
    requires CanonicalLedger(plan, ledger, maxPacing) && RunsOfPlan(plan, ledger, runs)
    ensures ChecksPass(plan, ledger, maxPacing)
  {
    hide CanonicalRun;
    hide ForQuery;
    hide Flatten;
    hide ExpectedKeys;
    forall q | q in plan ensures CanonicalRun(q, ForQuery(ledger, q)) && exists a :: a in ledger && a.queryId == q {
      RunsFilter(plan, runs, q);
      var run := ForQuery(ledger, q);
      ForQueryMembers(ledger, q);
      RunFacts(q, run);
      assert run[0] in run;
    }
    forall i | 0 <= i < |plan| ensures ForQuery(ledger, plan[i]) == runs[i] {
      RunsFilter(plan, runs, plan[i]);
    }
    RunKeys(plan, runs, ledger);
    forall a | a in ledger ensures a.queryId in plan { FlattenMembers(plan, runs, a); }
    assert QuerySetsAgree(plan, ledger);
  }

  lemma ChecksGiveCanonical(plan: seq<string>, ledger: seq<Attempt>, maxPacing: real)
    requires ChecksPass(plan, ledger, maxPacing)
    ensures CanonicalLedger(plan, ledger, maxPacing)
  {
    var runs := SplitIntoRuns(plan, ledger, ledger);
    assert RunsOfPlan(plan, ledger, runs);
  }

  /** The checks accept exactly the ledgers the specification describes. */
  lemma CheckedIffCanonical(plan: seq<string>, ledger: seq<Attempt>, maxPacing: real)
    ensures ChecksPass(plan, ledger, maxPacing) <==> CanonicalLedger(plan, ledger, maxPacing)
  {
    if ChecksPass(plan, ledger, maxPacing) { ChecksGiveCanonical(plan, ledger, maxPacing); }
    if CanonicalLedger(plan, ledger, maxPacing) {
      var runs :| RunsOfPlan(plan, ledger, runs);
      CanonicalPassesChecks(plan, ledger, maxPacing, runs);
    }
  }

  // ---- the report's retry figure --------------------------------------------------

  /** `max(0, ledger.search_requests - len(queries))`. */
  function ReportedRetries(searchRequests: int, queries: nat): int {
    if searchRequests - queries > 0 then searchRequests - queries else 0
  }

  ghost function Failures(ledger: seq<Attempt>): nat {
    if ledger == [] then 0 else (if ledger[0].outcome == Failure then 1 else 0) + Failures(ledger[1..])
  }

  lemma {:induction false} FailuresConcat(a: seq<Attempt>, b: seq<Attempt>)
    ensures Failures(a + b) == Failures(a) + Failures(b)
  {
    if a == [] {
      assert a + b == b;
    } else {
      assert (a + b)[1..] == a[1..] + b;
      FailuresConcat(a[1..], b);
    }
  }

  lemma {:induction false} FailuresAll(a: seq<Attempt>)
    requires forall i :: 0 <= i < |a| ==> a[i].outcome == Failure
    ensures Failures(a) == |a|
  {
    if a != [] { FailuresAll(a[1..]); }
  }

  lemma {:induction false} FailuresOfRuns(plan: seq<string>, runs: seq<seq<Attempt>>)
    requires |runs| == |plan|
    requires forall i :: 0 <= i < |plan| ==> CanonicalRun(plan[i], runs[i])
    ensures Failures(Flatten(runs)) + |plan| == |Flatten(runs)|
  {
    if plan != [] {
      FailuresOfRuns(plan[1..], runs[1..]);
      FailuresConcat(runs[0], Flatten(runs[1..]));
      var run := runs[0];
      var m := |run| - 1;
      assert run == run[..m] + [run[m]];
      FailuresConcat(run[..m], [run[m]]);
      FailuresAll(run[..m]);
    }
  }

  /** On an accepted ledger the reported retries are exactly the failed attempts. */
  lemma RetriesAreFailures(plan: seq<string>, ledger: seq<Attempt>, maxPacing: real)
    requires CanonicalLedger(plan, ledger, maxPacing)
    ensures ReportedRetries(|ledger|, |plan|) == Failures(ledger)
  {
    var runs :| RunsOfPlan(plan, ledger, runs);
    FailuresOfRuns(plan, runs);
  }
}
