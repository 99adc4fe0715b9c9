/**
 * The artifact store as several processes use it (`retrieval/storage.py`): a write tests whether its
 * destination exists and replaces it only later, without a lock. The ledger protocol of `DftLedger`
 * takes each write as one step; here is exactly when that is safe.
 */
module DftOverlaps {
  import opened DftModels
  import opened DftLedger
  import opened Wrappers

  /** A write whose test found no destination: the step it belongs to, and what it is about to put where. */
  datatype Pending = Pending(step: Event, uri: Uri, doc: Doc)

  datatype Shared = Shared(world: World, pending: map<nat, Pending>)

  datatype SharedEvent =
    | Poll(t: nat, context: Context, key: string, observed: JobStatus)
    | Check(t: nat, step: Event)
    | Replace(t: nat)
    | Die(t: nat)

  const START := Shared(INITIAL, map[])

  /** The step is caller `t`'s next write; an operation may be recorded by any caller. */
  predicate Writes(t: nat, step: Event) {
    match step
    case RecordOperation(_, _, _) => true
    case WriteSnapshot(u) => u == t
    case WriteResult(u, _) => u == t
    case WriteTerminal(u) => u == t
    case _ => false
  }

  /** What the step writes, if its caller is ready for it. */
  function Intent(w: World, step: Event): Option<(Uri, Doc)> {
    match step
    case RecordOperation(key, request, ref) => Some((OperationUri(key), NewOperation(key, request, ref)))
    case WriteSnapshot(t) =>
      if t in w.threads && w.threads[t].Observed? && w.threads[t].op.OperationDoc? then
        var Observed(c, key, n, status, op) := w.threads[t];
        Some((StatusUri(c, key, n), StatusDoc(op.ref, status, n)))
      else None
    case WriteResult(t, e) =>
      if t in w.threads && w.threads[t].Fetching? && w.threads[t].op.OperationDoc? && EnvelopeFits(e, w.threads[t].op) then
        Some((ResultUri(w.threads[t].context), ResultDoc(e)))
      else None
    case WriteTerminal(t) =>
      if t in w.threads && w.threads[t].Finishing? && w.threads[t].op.OperationDoc? then
        Some((TerminalUri(w.threads[t].key), FinalOperation(w.threads[t])))
      else None
    case _ => None
  }

  /** The step with its write forced through: whatever is at the destination is replaced. */
  function Forced(w: World, p: Pending): World { Apply(w.(store := w.store - {p.uri}), p.step) }

  function ApplyShared(y: Shared, e: SharedEvent): Shared {
    match e
    case Poll(t, c, key, observed) =>
      if t in y.pending then y else y.(world := Apply(y.world, Observe(t, c, key, observed)))
    case Check(t, step) =>
      if t in y.pending || !Writes(t, step) then y
      else
        var write := Intent(y.world, step);
        if write.Some? && write.value.0 !in y.world.store then
          y.(pending := y.pending[t := Pending(step, write.value.0, write.value.1)])
        else y.(world := Apply(y.world, step))
    case Replace(t) =>
      if t in y.pending then Shared(Forced(y.world, y.pending[t]), y.pending - {t}) else y
    case Die(t) => Shared(Apply(y.world, Event.Crash(t)), y.pending - {t})
  }

  function RunShared(events: seq<SharedEvent>): Shared {
    if events == [] then START else ApplyShared(RunShared(events[..|events| - 1]), events[|events| - 1])
  }

  /** Two callers are between test and replacement of one artifact, with different contents. */
  ghost predicate Overlap(y: Shared) {
    exists t, u :: t in y.pending && u in y.pending && y.pending[t].uri == y.pending[u].uri && y.pending[t].doc != y.pending[u].doc
  }

  /** No such moment up to the first `n` events. */
  ghost predicate OverlapFree(events: seq<SharedEvent>, n: nat)
    requires n <= |events|
  {
    forall i :: 0 <= i <= n ==> !Overlap(RunShared(events[..i]))
  }

  // ---- without overlaps ----------------------------------------------------------------------------------

  /** The one-step writes an event amounts to. */
  function OneStep(y: Shared, e: SharedEvent): seq<Event> {
    match e
    case Poll(t, c, key, observed) => if t in y.pending then [] else [Observe(t, c, key, observed)]
    case Check(t, step) =>
      if t in y.pending || !Writes(t, step) then []
      else
        var write := Intent(y.world, step);
        if write.Some? && write.value.0 !in y.world.store then [] else [step]
    case Replace(t) => if t in y.pending then [y.pending[t].step] else []
    case Die(t) => [Event.Crash(t)]
  }

  function OneSteps(events: seq<SharedEvent>): seq<Event> {
    if events == [] then []
    else OneSteps(events[..|events| - 1]) + OneStep(RunShared(events[..|events| - 1]), events[|events| - 1])
  }

  /** A pending write is its caller's next one, and its destination is still free or already holds the same content. */
  ghost predicate PendingOk(y: Shared) {
    forall t :: t in y.pending ==>
      var p := y.pending[t];
      && Writes(t, p.step) && Intent(y.world, p.step) == Some((p.uri, p.doc))
      && (p.uri in y.world.store ==> y.world.store[p.uri] == p.doc)
  }

  /** A step with an intent is one write. */
  lemma StepWrites(w: World, step: Event)
    requires Intent(w, step).Some?
    ensures Apply(w, step).store == Stored(w.store, Intent(w, step).value.0, Intent(w, step).value.1)
  {
  }

  lemma ForcedStore(w: World, p: Pending)
    requires Intent(w, p.step) == Some((p.uri, p.doc))
    ensures Forced(w, p).store == w.store[p.uri := p.doc]
    ensures (p.uri in w.store ==> w.store[p.uri] == p.doc) ==> Forced(w, p) == Apply(w, p.step)
  {
    var without := w.(store := w.store - {p.uri});
    StepWrites(without, p.step);
    assert without.store[p.uri := p.doc] == w.store[p.uri := p.doc];
    if p.uri in w.store && w.store[p.uri] == p.doc {
      assert w.store[p.uri := p.doc] == w.store;
    }
  }

  /** A step of caller `t` moves no other caller, and what another caller is about to write stays the same. */
  ghost predicate Others(a: World, b: World, t: nat) {
    forall u, step :: u != t && Writes(u, step) ==> Intent(a, step) == Intent(b, step)
  }

  lemma OthersStay(w: World, t: nat, step: Event)
    requires Writes(t, step) || (step.Crash? && step.t == t) || (step.Observe? && step.t == t)
    ensures Others(w, Apply(w, step), t)
  {
    hide LatestStatus, ValidTransition, Write, Stored;
    assert forall u :: u != t ==> (u in w.threads <==> u in Apply(w, step).threads);
    assert forall u :: u != t && u in w.threads ==> Apply(w, step).threads[u] == w.threads[u];
  }

  /** A test that finds its destination taken, or nothing to write, leaves the store as it is. */
  lemma RefusedStep(w: World, t: nat, step: Event)
    requires Writes(t, step) && (Intent(w, step).Some? ==> Intent(w, step).value.0 in w.store)
    ensures Apply(w, step).store == w.store
  {
    if Intent(w, step).Some? { StepWrites(w, step); }
  }

  lemma PendingStays(y: Shared, e: SharedEvent)
    requires PendingOk(y) && !Overlap(y)
    ensures PendingOk(ApplyShared(y, e))
  {
    hide Apply, Intent;
    var z := ApplyShared(y, e);
    match e
    case Poll(t, c, key, observed) =>
      OthersStay(y.world, t, Observe(t, c, key, observed));
      ObserveKeepsStore(y.world, t, c, key, observed);
    case Check(t, step) =>
      if Writes(t, step) && t !in y.pending {
        OthersStay(y.world, t, step);
        if z.pending == y.pending { RefusedStep(y.world, t, step); }
      }
    case Replace(t) =>
      if t in y.pending {
        var p := y.pending[t];
        ForcedStore(y.world, p);
        var without := y.world.(store := y.world.store - {p.uri});
        OthersStay(without, t, p.step);
        SameIntents(y.world, without);
      }
    case Die(t) =>
      OthersStay(y.world, t, Event.Crash(t));
      CrashKeepsStore(y.world, t);
  }

  lemma SameIntents(a: World, b: World)
    requires a.threads == b.threads
    ensures forall step :: Intent(a, step) == Intent(b, step)
  {
  }

  lemma ObserveKeepsStore(w: World, t: nat, c: Context, key: string, observed: JobStatus)
    ensures Apply(w, Observe(t, c, key, observed)).store == w.store
  {
    hide LatestStatus, ValidTransition;
  }

  lemma CrashKeepsStore(w: World, t: nat)
    ensures Apply(w, Event.Crash(t)).store == w.store
  {
  }

  lemma OneStepIsEnough(y: Shared, e: SharedEvent)
    requires PendingOk(y)
    ensures ApplyShared(y, e).world == if OneStep(y, e) == [] then y.world else Apply(y.world, OneStep(y, e)[0])
  {
    hide Apply, Intent, Forced;
    if e.Replace? && e.t in y.pending { ForcedStore(y.world, y.pending[e.t]); }
  }

  /** Without overlaps the protocol of one-step writes is refined: each write counts when it replaces. */
  lemma {:induction false} OverlapFreeRefines(events: seq<SharedEvent>)
    requires events != [] ==> OverlapFree(events, |events| - 1)
    ensures RunShared(events).world == Run(OneSteps(events)) && PendingOk(RunShared(events))
  {
    hide ApplyShared, Apply, Overlap, PendingOk, OneStep;
    if events == [] {
      assert PendingOk(START) by { NothingPending(); }
    } else {
      var init, e := events[..|events| - 1], events[|events| - 1];
      ShorterIsFree(events);
      OverlapFreeRefines(init);
      assert !Overlap(RunShared(events[..|events| - 1]));
      PendingStays(RunShared(init), e);
      OneStepIsEnough(RunShared(init), e);
      AtMostOneStep(RunShared(init), e);
      var more := OneStep(RunShared(init), e);
      if more == [] {
        assert OneSteps(events) == OneSteps(init);
      } else {
        assert OneSteps(events) == OneSteps(init) + [more[0]];
        assert (OneSteps(init) + [more[0]])[..|OneSteps(init)|] == OneSteps(init);
      }
    }
  }

  lemma NothingPending()
    ensures PendingOk(START)
  {
  }

  lemma AtMostOneStep(y: Shared, e: SharedEvent)
    ensures |OneStep(y, e)| <= 1
  {
  }

  lemma ShorterIsFree(events: seq<SharedEvent>)
    requires events != [] && OverlapFree(events, |events| - 1)
    ensures var init := events[..|events| - 1]; OverlapFree(init, |init|)
  {
    var init := events[..|events| - 1];
    forall i | 0 <= i <= |init| ensures !Overlap(RunShared(init[..i])) {
      assert init[..i] == events[..i];
    }
  }

  lemma {:induction false} OneStepsGrow(before: seq<SharedEvent>, after: seq<SharedEvent>)
    ensures OneSteps(before) <= OneSteps(before + after)
    decreases |after|
  {
    hide OneStep;
    if after == [] {
      assert before + after == before;
    } else {
      var n := |after| - 1;
      OneStepsGrow(before, after[..n]);
      assert before + after == (before + after[..n]) + [after[n]];
      assert (before + after)[..|before + after| - 1] == before + after[..n];
    }
  }

  // ---- main results --------------------------------------------------------------------------------------

  /** Without overlaps every ledger is sound, however many callers share the store. */
  lemma OverlapFreeLedgersAreSound(events: seq<SharedEvent>, c: Context, key: string)
    requires OverlapFree(events, |events|)
    ensures LedgerSound(RunShared(events).world.store, c, key)
  {
    hide RunShared, OneSteps, LedgerSound, Run;
    OverlapFreeRefines(events);
    LedgersAreSound(OneSteps(events), c, key);
  }

  /** Without overlaps no artifact ever changes, and a terminal record is final. */
  lemma OverlapFreeIsWriteOnce(before: seq<SharedEvent>, after: seq<SharedEvent>, key: string, c: Context)
    requires OverlapFree(before + after, |before + after|)
    ensures Extends(RunShared(before).world.store, RunShared(before + after).world.store)
    ensures TerminalUri(key) in RunShared(before).world.store ==>
              FinalRecord(RunShared(before + after).world.store, key, c, RunShared(before).world.store[TerminalUri(key)])
  {
    hide RunShared, OneSteps, FinalRecord, Run, Extends, Overlap;
    forall i | 0 <= i <= |before| ensures !Overlap(RunShared(before[..i])) {
      assert (before + after)[..i] == before[..i];
    }
    OverlapFreeRefines(before);
    OverlapFreeRefines(before + after);
    OneStepsGrow(before, after);
    var a, b := OneSteps(before), OneSteps(before + after);
    assert b == a + b[|a|..];
    RunsExtend(a, b[|a|..]);
    if TerminalUri(key) in RunShared(before).world.store { TerminalRecordIsFinal(a, b[|a|..], key, c); }
  }

  /** The callers between test and replacement go on, in this order. */
  function Replaced(y: Shared, callers: seq<nat>): Shared {
    if callers == [] then y else ApplyShared(Replaced(y, callers[..|callers| - 1]), Replace(callers[|callers| - 1]))
  }

  /** Some order in which they go on changes an artifact that is already there. */
  ghost predicate CanChangeAnArtifact(y: Shared) {
    exists callers, t {:trigger Replaced(y, callers), Replace(t)} ::
      !Extends(Replaced(y, callers).world.store, ApplyShared(Replaced(y, callers), Replace(t)).world.store)
  }

  lemma {:induction false} ReplacedOk(y: Shared, callers: seq<nat>)
    requires PendingOk(y) && !Overlap(y)
    ensures PendingOk(Replaced(y, callers)) && !Overlap(Replaced(y, callers))
  {
    hide PendingOk, Forced;
    if callers != [] {
      var z := Replaced(y, callers[..|callers| - 1]);
      ReplacedOk(y, callers[..|callers| - 1]);
      PendingStays(z, Replace(callers[|callers| - 1]));
    }
  }

  lemma ReplaceExtends(y: Shared, t: nat)
    requires PendingOk(y)
    ensures Extends(y.world.store, ApplyShared(y, Replace(t)).world.store)
  {
    hide Forced, Intent;
    if t in y.pending { ForcedStore(y.world, y.pending[t]); }
  }

  /** The second of two overlapping writes changes what the first has put there. */
  lemma OverlapChanges(y: Shared, t: nat, u: nat)
    requires PendingOk(y) && t in y.pending && u in y.pending
    requires y.pending[t].uri == y.pending[u].uri && y.pending[t].doc != y.pending[u].doc
    ensures CanChangeAnArtifact(y)
  {
    hide Intent, Apply;
    var z := Replaced(y, [t]);
    assert [t][..|[t]| - 1] == [] && Replaced(y, []) == y;
    var p, q := y.pending[t], y.pending[u];
    ForcedStore(y.world, p);
    assert z == ApplyShared(y, Replace(t));
    var without := y.world.(store := y.world.store - {p.uri});
    OthersStay(without, t, p.step);
    SameIntents(y.world, without);
    assert Intent(z.world, q.step) == Some((q.uri, q.doc));
    ForcedStore(z.world, q);
    assert p.uri in z.world.store && z.world.store[p.uri] == p.doc;
    assert !Extends(Replaced(y, [t]).world.store, ApplyShared(Replaced(y, [t]), Replace(u)).world.store);
  }

  /**
   * The first moment at which an artifact is in danger is exactly the first overlap: after a run without
   * one, the callers that are between test and replacement can change an artifact if and only if two of
   * them are about to put different contents in one place.
   */
  lemma ChangesIffOverlap(events: seq<SharedEvent>)
    requires events != [] ==> OverlapFree(events, |events| - 1)
    ensures CanChangeAnArtifact(RunShared(events)) <==> Overlap(RunShared(events))
  {
    hide PendingOk, ApplyShared, Extends;
    OverlapFreeRefines(events);
    var y := RunShared(events);
    if Overlap(y) {
      var t, u :| t in y.pending && u in y.pending && y.pending[t].uri == y.pending[u].uri && y.pending[t].doc != y.pending[u].doc;
      OverlapChanges(y, t, u);
    } else {
      forall callers, t ensures Extends(Replaced(y, callers).world.store, ApplyShared(Replaced(y, callers), Replace(t)).world.store) {
        ReplacedOk(y, callers);
        ReplaceExtends(Replaced(y, callers), t);
      }
    }
  }

  // ---- overlaps that can break a ledger --------------------------------------------------------------------

  /** Recorded one after the other, the second before the first, these statuses make no sound ledger. */
  predicate Clash(low: JobStatus, high: JobStatus)
    requires !low.Unknown? && !high.Unknown?
  {
    Rank(low) < Rank(high) || (Terminal(low) && Terminal(high) && low != high)
  }

  ghost function Ends(): set<JobStatus> { {Succeeded, Failed, Timeout, Cancelled} }

  lemma ClashIff(low: JobStatus, high: JobStatus)
    requires !low.Unknown? && !high.Unknown?
    ensures Clash(low, high) <==> Rank(low) < Rank(high) || (low != high && low in Ends() && high in Ends())
  {
  }

  /** Callers `t` and `u` have both tested the place of snapshot `n` and are about to write different statuses. */
  ghost predicate SnapshotsOverlap(y: Shared, t: nat, u: nat, c: Context, key: string, n: nat, low: JobStatus, high: JobStatus) {
    && t in y.pending && u in y.pending && y.pending[t].uri == y.pending[u].uri == StatusUri(c, key, n)
    && y.pending[t].doc.StatusDoc? && y.pending[t].doc.status == low
    && y.pending[u].doc.StatusDoc? && y.pending[u].doc.status == high
    && low != high
  }

  /** What such callers observed, in a world without an earlier overlap. */
  lemma OverlappingThreads(y: Shared, t: nat, u: nat, c: Context, key: string, n: nat, low: JobStatus, high: JobStatus)
    requires PendingOk(y) && WorldOk(y.world) && SnapshotsOverlap(y, t, u, c, key, n, low, high)
    ensures t != u && n > 0 && StatusUri(c, key, n) !in y.world.store && !low.Unknown? && !high.Unknown?
    ensures y.pending[t].step == WriteSnapshot(t) && y.pending[u].step == WriteSnapshot(u)
    ensures OperationUri(key) in y.world.store && OperationOk(key, y.world.store[OperationUri(key)])
    ensures t in y.world.threads && y.world.threads[t] == Observed(c, key, n, low, y.world.store[OperationUri(key)])
  {
    hide StoreOk, OperationOk;
    assert Intent(y.world, y.pending[t].step) == Some((y.pending[t].uri, y.pending[t].doc));
    assert Intent(y.world, y.pending[u].step) == Some((y.pending[u].uri, y.pending[u].doc));
    assert ThreadOk(y.world.store, y.world.threads[t]) && ThreadOk(y.world.store, y.world.threads[u]);
  }

  /** Where a snapshot was just recorded, it is the latest. */
  lemma JustRecorded(store: Store, after: Store, c: Context, key: string, n: nat, s: JobStatus)
    requires StoreOk(store) && StoreOk(after) && n > 0 && StatusUri(c, key, n) !in store
    requires RecordedAt(after, c, key, n, s) && after.Keys == store.Keys + {StatusUri(c, key, n)}
    ensures StatusUri(c, key, n + 1) !in after && LatestStatus(after, c, key, Created) == Ok((s, n))
  {
    hide StoreOk, ValidTransition, LedgerFrom;
    assert StatusUri(c, key, n + 1) !in store by {
      if StatusUri(c, key, n + 1) in store { NoGap(store, c, key, n + 1, n); }
    }
    assert StatusUri(c, key, n + 1) !in after.Keys;
    assert StatusUri(c, key, n) in after.Keys;
    RecordedIffInLedger(after, c, key, n);
    RecordedIffInLedger(after, c, key, n + 1);
    LatestIsRecorded(after, c, key);
  }

  /** Status `low` under number `n + 1` after status `high` under number `n` is no sound ledger. */
  lemma ClashIsUnsound(store: Store, c: Context, key: string, n: nat, low: JobStatus, high: JobStatus)
    requires n > 0 && !low.Unknown? && !high.Unknown? && Clash(low, high)
    requires RecordedAt(store, c, key, n, high) && RecordedAt(store, c, key, n + 1, low)
    ensures !LedgerSound(store, c, key)
  {
    hide LedgerFrom;
    LedgerReads(store, c, key, 0);
    var ledger := Ledger(store, c, key);
    assert StatusUri(c, key, n) in store && StatusUri(c, key, n + 1) in store;
    if |ledger| > n { assert ledger[n - 1] == high && ledger[n] == low; }
  }

  /** The caller with the lower status writes, another call records that status once more, and the other caller goes on. */
  function Breaking(t: nat, u: nat, v: nat, c: Context, key: string, low: JobStatus): seq<SharedEvent> {
    [Replace(t), Poll(v, c, key, low), Check(v, WriteSnapshot(v)), Replace(v), Replace(u)]
  }

  /**
   * Two overlapping snapshots can break a ledger as soon as their statuses differ in rank or are two
   * different ends: after any run without an earlier overlap there is a continuation of five events after
   * which the ledger is unsound. `v` is any caller that is not in the middle of a call.
   */
  lemma SnapshotOverlapBreaksLedger(
    events: seq<SharedEvent>, t: nat, u: nat, v: nat, c: Context, key: string, n: nat, low: JobStatus, high: JobStatus)
    requires events != [] ==> OverlapFree(events, |events| - 1)
    requires SnapshotsOverlap(RunShared(events), t, u, c, key, n, low, high)
    requires v !in RunShared(events).world.threads && v !in RunShared(events).pending
    ensures !low.Unknown? && !high.Unknown?
    ensures Rank(low) < Rank(high) || (low != high && low in Ends() && high in Ends()) ==> !LedgerSound(RunShared(events + Breaking(t, u, v, c, key, low)).world.store, c, key)
  {
    hide RunShared, WorldOk, PendingOk, LedgerSound, ApplyShared, Clash, Run, SnapshotsOverlap;
    OverlapFreeRefines(events);
    EveryRunIsOk(OneSteps(events));
    var y := RunShared(events);
    OverlappingThreads(y, t, u, c, key, n, low, high);
    ClashIff(low, high);
    hide Rank;
    if Clash(low, high) {
      BreakingSteps(y, t, u, v, c, key, n, low, high);
      Continued(events, Breaking(t, u, v, c, key, low));
    }
  }

  function After(y: Shared, events: seq<SharedEvent>): Shared {
    if events == [] then y else ApplyShared(After(y, events[..|events| - 1]), events[|events| - 1])
  }

  lemma {:induction false} Continued(before: seq<SharedEvent>, after: seq<SharedEvent>)
    ensures RunShared(before + after) == After(RunShared(before), after)
    decreases |after|
  {
    hide ApplyShared;
    if after == [] {
      assert before + after == before;
    } else {
      var m := |after| - 1;
      Continued(before, after[..m]);
      assert before + after == (before + after[..m]) + [after[m]];
      assert (before + after)[..|before + after| - 1] == before + after[..m];
    }
  }

  lemma FiveEvents(y: Shared, a: SharedEvent, b: SharedEvent, d: SharedEvent, e: SharedEvent, f: SharedEvent)
    ensures After(y, [a, b, d, e, f]) == ApplyShared(ApplyShared(ApplyShared(ApplyShared(ApplyShared(y, a), b), d), e), f)
  {
    hide ApplyShared;
    assert [a, b, d, e, f][..4] == [a, b, d, e] && [a, b, d, e][..3] == [a, b, d];
    assert [a, b, d][..2] == [a, b] && [a, b][..1] == [a] && [a][..0] == [];
    assert After(y, [a]) == ApplyShared(y, a);
    assert After(y, [a, b]) == ApplyShared(ApplyShared(y, a), b);
    assert After(y, [a, b, d]) == ApplyShared(ApplyShared(ApplyShared(y, a), b), d);
    assert After(y, [a, b, d, e]) == ApplyShared(ApplyShared(ApplyShared(ApplyShared(y, a), b), d), e);
  }

  /** A replacement puts its document in place and moves no other caller. */
  lemma ReplaceEffect(y: Shared, t: nat)
    requires t in y.pending && Writes(t, y.pending[t].step)
    requires Intent(y.world, y.pending[t].step) == Some((y.pending[t].uri, y.pending[t].doc))
    ensures var z := ApplyShared(y, Replace(t));
            && z.pending == y.pending - {t}
            && z.world.store == y.world.store[y.pending[t].uri := y.pending[t].doc]
            && Others(y.world, z.world, t) && (forall v :: v !in y.world.threads ==> v !in z.world.threads)
            && (y.pending[t].uri !in y.world.store ==> z.world == Apply(y.world, y.pending[t].step))
  {
    hide Intent, Apply;
    var p := y.pending[t];
    ForcedStore(y.world, p);
    var without := y.world.(store := y.world.store - {p.uri});
    OthersStay(without, t, p.step);
    SameIntents(y.world, without);
    NoNewcomers(without, t, p.step);
  }

  lemma NoNewcomers(w: World, t: nat, step: Event)
    requires Writes(t, step)
    ensures forall v :: v !in w.threads ==> v !in Apply(w, step).threads
  {
    hide Write, Stored, LatestStatus;
  }

  /** The first four events: the lower status is recorded under both numbers, and `u` still waits to write. */
  ghost predicate Doubled(y: Shared, u: nat, c: Context, key: string, n: nat, low: JobStatus, write: Pending) {
    && u in y.pending && y.pending[u] == write && Writes(u, write.step) && Intent(y.world, write.step) == Some((write.uri, write.doc))
    && RecordedAt(y.world.store, c, key, n + 1, low)
  }

  lemma FirstWrite(y: Shared, t: nat, u: nat, c: Context, key: string, n: nat, low: JobStatus, high: JobStatus)
    requires PendingOk(y) && WorldOk(y.world) && SnapshotsOverlap(y, t, u, c, key, n, low, high)
    ensures var z := ApplyShared(y, Replace(t));
            && z.pending == y.pending - {t} && t != u && n > 0
            && (forall v :: v !in y.world.threads ==> v !in z.world.threads)
            && OperationUri(key) in z.world.store && OperationOk(key, z.world.store[OperationUri(key)])
            && StatusUri(c, key, n + 1) !in z.world.store && LatestStatus(z.world.store, c, key, Created) == Ok((low, n))
            && Writes(u, y.pending[u].step) && Intent(z.world, y.pending[u].step) == Some((y.pending[u].uri, y.pending[u].doc))
  {
    OverlappingThreads(y, t, u, c, key, n, low, high);
    hide WorldOk, LatestStatus, Apply, Intent, ApplyShared, OperationOk;
    ReplaceEffect(y, t);
    StepKeepsOk(y.world, WriteSnapshot(t));
    assert y.pending[t].doc == StatusDoc(y.pending[t].doc.ref, low, n) by { SnapshotNumber(y, t, c, key, n); }
    Latest(y.world, ApplyShared(y, Replace(t)).world, c, key, n, low);
  }

  lemma SnapshotNumber(y: Shared, t: nat, c: Context, key: string, n: nat)
    requires PendingOk(y) && t in y.pending && y.pending[t].uri == StatusUri(c, key, n)
    ensures y.pending[t].doc.StatusDoc? && y.pending[t].doc.sequence == n
  {
  }

  lemma SecondWrite(y: Shared, u: nat, v: nat, c: Context, key: string, n: nat, low: JobStatus)
    requires u in y.pending && v !in y.pending && v !in y.world.threads && !low.Unknown? && n > 0
    requires OperationUri(key) in y.world.store && OperationOk(key, y.world.store[OperationUri(key)])
    requires StatusUri(c, key, n + 1) !in y.world.store && LatestStatus(y.world.store, c, key, Created) == Ok((low, n))
    requires Writes(u, y.pending[u].step) && Intent(y.world, y.pending[u].step) == Some((y.pending[u].uri, y.pending[u].doc))
    ensures Doubled(ApplyShared(ApplyShared(ApplyShared(y, Poll(v, c, key, low)), Check(v, WriteSnapshot(v))), Replace(v)), u, c, key, n, low, y.pending[u])
  {
    PollAgain(y, v, c, key, n, low, y.world.store[OperationUri(key)]);
    OthersStay(y.world, v, Observe(v, c, key, low));
    hide LatestStatus, Apply, Intent, ApplyShared;
    var y2 := ApplyShared(y, Poll(v, c, key, low));
    var y3 := ApplyShared(y2, Check(v, WriteSnapshot(v)));
    assert u != v && y3.pending[u] == y.pending[u] && y3.world == y2.world;
    ReplaceEffect(y3, v);
  }

  lemma BreakingSteps(y: Shared, t: nat, u: nat, v: nat, c: Context, key: string, n: nat, low: JobStatus, high: JobStatus)
    requires PendingOk(y) && WorldOk(y.world) && SnapshotsOverlap(y, t, u, c, key, n, low, high)
    requires v !in y.world.threads && v !in y.pending && !low.Unknown? && !high.Unknown? && Clash(low, high)
    ensures !LedgerSound(After(y, Breaking(t, u, v, c, key, low)).world.store, c, key)
  {
    hide PendingOk, WorldOk, LedgerSound, Clash, LatestStatus, Apply, Intent, ApplyShared, OperationOk;
    FirstWrite(y, t, u, c, key, n, low, high);
    var y1 := ApplyShared(y, Replace(t));
    SecondWrite(y1, u, v, c, key, n, low);
    var y4 := ApplyShared(ApplyShared(ApplyShared(y1, Poll(v, c, key, low)), Check(v, WriteSnapshot(v))), Replace(v));
    assert y1.pending[u] == y.pending[u];
    ReplaceEffect(y4, u);
    FiveEvents(y, Replace(t), Poll(v, c, key, low), Check(v, WriteSnapshot(v)), Replace(v), Replace(u));
    ClashIsUnsound(ApplyShared(y4, Replace(u)).world.store, c, key, n, low, high);
  }

  lemma Latest(w: World, z: World, c: Context, key: string, n: nat, s: JobStatus)
    requires WorldOk(w) && WorldOk(z) && n > 0 && StatusUri(c, key, n) !in w.store
    requires exists ref :: z.store == w.store[StatusUri(c, key, n) := StatusDoc(ref, s, n)]
    ensures StatusUri(c, key, n + 1) !in z.store && LatestStatus(z.store, c, key, Created) == Ok((s, n))
  {
    hide StoreOk, LatestStatus;
    JustRecorded(w.store, z.store, c, key, n, s);
  }

  /** A new call observes the latest status again and finds the next number free. */
  lemma PollAgain(y: Shared, v: nat, c: Context, key: string, n: nat, s: JobStatus, op: Doc)
    requires v !in y.world.threads && v !in y.pending && !s.Unknown?
    requires OperationUri(key) in y.world.store && y.world.store[OperationUri(key)] == op && OperationOk(key, op)
    requires StatusUri(c, key, n + 1) !in y.world.store && LatestStatus(y.world.store, c, key, Created) == Ok((s, n))
    ensures var y2 := ApplyShared(y, Poll(v, c, key, s));
            var y3 := ApplyShared(y2, Check(v, WriteSnapshot(v)));
            && y2 == y.(world := Apply(y.world, Observe(v, c, key, s))) && y2.world.store == y.world.store
            && y3 == y2.(pending := y2.pending[v := Pending(WriteSnapshot(v), StatusUri(c, key, n + 1), StatusDoc(op.ref, s, n + 1))])
            && Intent(y3.world, WriteSnapshot(v)) == Some((StatusUri(c, key, n + 1), StatusDoc(op.ref, s, n + 1)))
  {
    hide LatestStatus;
  }

  // ---- a run that goes wrong -----------------------------------------------------------------------------

  lemma NextState(events: seq<SharedEvent>, i: nat)
    requires i < |events|
    ensures RunShared(events[..i + 1]) == ApplyShared(RunShared(events[..i]), events[i])
  {
    assert events[..i + 1][..i] == events[..i];
  }

  /** Two reconcilers of one job: the first polls RUNNING and stalls before replacing, the second finishes the job, the first goes on. */
  function StalledWriter(c: Context, key: string, request: Request, ref: JobRef, e: Envelope): seq<SharedEvent> {
    [Check(0, RecordOperation(key, request, ref)), Replace(0),
     Poll(1, c, key, Running), Check(1, WriteSnapshot(1)),
     Poll(2, c, key, Succeeded), Check(2, WriteSnapshot(2)), Replace(2),
     Check(2, WriteResult(2, e)), Replace(2), Check(2, WriteTerminal(2)), Replace(2),
     Replace(1)]
  }

  /** Both have tested the first snapshot's place and found it free. */
  function BothTested(c: Context, key: string, op: Doc): Shared
    requires op.OperationDoc?
  {
    Shared(World(map[OperationUri(key) := op], map[1 := Observed(c, key, 1, Running, op), 2 := Observed(c, key, 1, Succeeded, op)]),
           map[1 := Pending(WriteSnapshot(1), StatusUri(c, key, 1), StatusDoc(op.ref, Running, 1)),
               2 := Pending(WriteSnapshot(2), StatusUri(c, key, 1), StatusDoc(op.ref, Succeeded, 1))])
  }

  lemma FirstPoll(w: World, t: nat, c: Context, key: string, op: Doc, observed: JobStatus)
    requires w.store == map[OperationUri(key) := op] && op.OperationDoc? && op.status == Created && t !in w.threads
    requires ValidTransition(Created, observed)
    ensures Apply(w, Observe(t, c, key, observed)) == w.(threads := w.threads[t := Observed(c, key, 1, observed, op)])
  {
    assert StatusUri(c, key, 1) !in w.store;
    assert LatestStatus(w.store, c, key, Created) == Ok((Created, 0));
  }

  /** A caller that finds its destination free is now between test and replacement. */
  lemma Tested(y: Shared, t: nat, step: Event, u: Uri, d: Doc)
    requires t !in y.pending && Writes(t, step) && Intent(y.world, step) == Some((u, d)) && u !in y.world.store
    ensures ApplyShared(y, Check(t, step)) == y.(pending := y.pending[t := Pending(step, u, d)])
  {
  }

  lemma OperationIsRecorded(c: Context, key: string, request: Request, ref: JobRef, e: Envelope)
    ensures RunShared(StalledWriter(c, key, request, ref, e)[..2]) == Shared(World(map[OperationUri(key) := NewOperation(key, request, ref)], map[]), map[])
  {
    var events, op := StalledWriter(c, key, request, ref, e), NewOperation(key, request, ref);
    assert RunShared(events[..0]) == START;
    hide RunShared, Apply;
    NextState(events, 0);
    Tested(START, 0, RecordOperation(key, request, ref), OperationUri(key), op);
    NextState(events, 1);
    var y1 := RunShared(events[..1]);
    ForcedStore(y1.world, y1.pending[0]);
    Recorded(y1.world, key, request, ref);
  }

  lemma StalledWriterOverlaps(c: Context, key: string, request: Request, ref: JobRef, e: Envelope)
    ensures RunShared(StalledWriter(c, key, request, ref, e)[..6]) == BothTested(c, key, NewOperation(key, request, ref))
  {
    var events, op := StalledWriter(c, key, request, ref, e), NewOperation(key, request, ref);
    hide RunShared, Apply;
    OperationIsRecorded(c, key, request, ref, e);
    var w2 := RunShared(events[..2]).world;
    NextState(events, 2);
    FirstPoll(w2, 1, c, key, op, Running);
    var y3 := RunShared(events[..3]);
    NextState(events, 3);
    Tested(y3, 1, WriteSnapshot(1), StatusUri(c, key, 1), StatusDoc(ref, Running, 1));
    var y4 := RunShared(events[..4]);
    NextState(events, 4);
    FirstPoll(y4.world, 2, c, key, op, Succeeded);
    var y5 := RunShared(events[..5]);
    NextState(events, 5);
    Tested(y5, 2, WriteSnapshot(2), StatusUri(c, key, 1), StatusDoc(ref, Succeeded, 1));
  }

  lemma Recorded(w: World, key: string, request: Request, ref: JobRef)
    ensures Apply(w, RecordOperation(key, request, ref)).threads == w.threads
  {
  }

  /** The second reconciler, alone from here on. */
  lemma SecondFinishes(c: Context, key: string, request: Request, ref: JobRef, e: Envelope)
    requires e.planHash == request.planHash && e.ref == ref
    ensures var op := NewOperation(key, request, ref);
            var y := RunShared(StalledWriter(c, key, request, ref, e)[..11]);
            && y.world.store == map[OperationUri(key) := op, StatusUri(c, key, 1) := StatusDoc(ref, Succeeded, 1), ResultUri(c) := ResultDoc(e),
                                    TerminalUri(key) := FinalOperation(Finishing(c, key, 1, Succeeded, op, e))]
            && y.world.threads == map[1 := Observed(c, key, 1, Running, op)]
            && y.pending == map[1 := Pending(WriteSnapshot(1), StatusUri(c, key, 1), StatusDoc(ref, Running, 1))]
  {
    var events, op := StalledWriter(c, key, request, ref, e), NewOperation(key, request, ref);
    StalledWriterOverlaps(c, key, request, ref, e);
    hide RunShared, LatestStatus;
    var y6 := RunShared(events[..6]);
    NextState(events, 6);
    var y7 := RunShared(events[..7]);
    assert y7 == Shared(World(y6.world.store[StatusUri(c, key, 1) := StatusDoc(ref, Succeeded, 1)],
                              map[1 := Observed(c, key, 1, Running, op), 2 := Fetching(c, key, 1, Succeeded, op)]), y6.pending - {2});
    NextState(events, 7);
    Tested(y7, 2, WriteResult(2, e), ResultUri(c), ResultDoc(e));
    NextState(events, 8);
    var y9 := RunShared(events[..9]);
    assert y9 == Shared(World(y7.world.store[ResultUri(c) := ResultDoc(e)],
                              map[1 := Observed(c, key, 1, Running, op), 2 := Finishing(c, key, 1, Succeeded, op, e)]), y7.pending);
    NextState(events, 9);
    Tested(y9, 2, WriteTerminal(2), TerminalUri(key), FinalOperation(y9.world.threads[2]));
    NextState(events, 10);
  }

  /** Afterwards the first snapshot reads RUNNING, where the terminal record says that SUCCEEDED was recorded. */
  lemma StalledWriterBreaksTheLedger(c: Context, key: string, request: Request, ref: JobRef, e: Envelope)
    requires e.planHash == request.planHash && e.ref == ref
    ensures var events := StalledWriter(c, key, request, ref, e);
            var before, after := RunShared(events[..11]).world.store, RunShared(events).world.store;
            && TerminalUri(key) in before && before[TerminalUri(key)].OperationDoc?
            && before[TerminalUri(key)].status == Succeeded && before[TerminalUri(key)].sequence == 1
            && RecordedAt(before, c, key, 1, Succeeded)
            && TerminalUri(key) in after && after[TerminalUri(key)] == before[TerminalUri(key)]
            && RecordedAt(after, c, key, 1, Running)
  {
    var events := StalledWriter(c, key, request, ref, e);
    SecondFinishes(c, key, request, ref, e);
    var y := RunShared(events[..11]);
    NextState(events, 11);
    assert events[..12] == events;
    hide RunShared, LatestStatus;
    ForcedStore(y.world, y.pending[1]);
  }
}
