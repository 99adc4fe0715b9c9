/**
 * `DFTStageRunner.start` and `reconcile` (`dft/runner.py`) as methods over the artifact store. What
 * the backend answers during a call is a parameter of the call.
 */
module DftRunner {
  import opened DftModels
  import opened DftLedger
  import opened Wrappers

  class LocalArtifactStore {
    var artifacts: Store

    constructor ()
      ensures artifacts == map[]
    {
      artifacts := map[];
    }

    /** `write_json(..., immutable=True)` */
    method WriteJson(uri: Uri, doc: Doc) returns (ok: bool)
      modifies this
      ensures artifacts == Stored(old(artifacts), uri, doc)
      ensures ok == Write(old(artifacts), uri, doc).Some?
    {
      if uri in artifacts { return artifacts[uri] == doc; }
      artifacts := artifacts[uri := doc];
      return true;
    }
  }

  /** The atomic steps of `events`, taken in order. */
  function Steps(w: World, events: seq<Event>): World
    decreases |events|
  {
    if events == [] then w else Steps(Apply(w, events[0]), events[1..])
  }

  lemma {:induction false} StepsContinueRun(before: seq<Event>, events: seq<Event>)
    ensures Steps(Run(before), events) == Run(before + events)
    decreases |events|
  {
    hide Apply;
    if events == [] {
      assert before + events == before;
    } else {
      assert (before + [events[0]])[..|before|] == before;
      StepsContinueRun(before + [events[0]], events[1..]);
      assert before + [events[0]] + events[1..] == before + events;
    }
  }

  function Alone(store: Store): World { World(store, map[]) }

  /** The steps of one undisturbed `reconcile`. */
  function ReconcileSteps(c: Context, key: string, observed: Result<JobStatus, ()>, fetched: Result<Envelope, ()>): seq<Event> {
    if observed.Err? then []
    else if !Terminal(observed.value) || fetched.Err? then [Observe(0, c, key, observed.value), WriteSnapshot(0)]
    else [Observe(0, c, key, observed.value), WriteSnapshot(0), WriteResult(0, fetched.value), WriteTerminal(0)]
  }

  lemma {:induction false} StepsKeepOk(w: World, events: seq<Event>)
    requires WorldOk(w)
    ensures WorldOk(Steps(w, events))
    decreases |events|
  {
    hide WorldOk, Apply;
    if events != [] {
      StepKeepsOk(w, events[0]);
      StepsKeepOk(Apply(w, events[0]), events[1..]);
    }
  }

  /** `external_job_ref` and the key must be those of the recorded operation. */
  predicate RefFits(op: Doc, key: string, jobRef: RefId) {
    op.OperationDoc? && op.ref.refId == jobRef && op.ref.key == key
  }

  function FinalDoc(op: Doc, c: Context, n: nat, status: JobStatus, e: Envelope): Doc
    requires op.OperationDoc?
  {
    op.(status := status, sequence := n, result := Some(Pointer(ResultUri(c), ResultDoc(e))))
  }

  /** The writes of one `reconcile` that observed `status` as number `n`. */
  function WritesOf(store: Store, c: Context, key: string, op: Doc, n: nat, status: JobStatus, fetched: Result<Envelope, ()>): Store
    requires op.OperationDoc?
  {
    var snapshot := Write(store, StatusUri(c, key, n), StatusDoc(op.ref, status, n));
    if snapshot.None? then store
    else if !Terminal(status) || fetched.Err? || !EnvelopeFits(fetched.value, op) then snapshot.value
    else
      var result := Write(snapshot.value, ResultUri(c), ResultDoc(fetched.value));
      if result.None? then snapshot.value
      else Stored(result.value, TerminalUri(key), FinalDoc(op, c, n, status, fetched.value))
  }

  predicate MayObserve(store: Store, c: Context, key: string, observed: JobStatus) {
    && OperationUri(key) in store && store[OperationUri(key)].OperationDoc?
    && var latest := LatestStatus(store, c, key, store[OperationUri(key)].status);
       latest.Ok? && ValidTransition(latest.value.0, observed)
  }

  lemma TwoSteps(w: World, a: Event, b: Event)
    ensures Steps(w, [a, b]) == Apply(Apply(w, a), b)
  {
    hide Apply;
    assert [a, b][1..] == [b] && [b][1..] == [];
    assert Steps(Apply(w, a), [b]) == Apply(Apply(w, a), b);
  }

  lemma FourSteps(w: World, a: Event, b: Event, d: Event, e: Event)
    ensures Steps(w, [a, b, d, e]) == Apply(Apply(Apply(Apply(w, a), b), d), e)
  {
    hide Apply;
    assert [a, b, d, e][1..] == [b, d, e] && [b, d, e][1..] == [d, e];
    TwoSteps(Apply(Apply(w, a), b), d, e);
    assert Steps(Apply(w, a), [b, d, e]) == Steps(Apply(Apply(w, a), b), [d, e]);
  }

  lemma RefusedReconcile(store: Store, c: Context, key: string, observed: Result<JobStatus, ()>, fetched: Result<Envelope, ()>)
    requires observed.Err? || !MayObserve(store, c, key, observed.value)
    ensures Steps(Alone(store), ReconcileSteps(c, key, observed, fetched)).store == store
  {
    hide LatestStatus, ValidTransition;
    if observed.Ok? {
      var a, b := Observe(0, c, key, observed.value), WriteSnapshot(0);
      assert Apply(Apply(Alone(store), a), b) == Alone(store);
      if !Terminal(observed.value) || fetched.Err? {
        TwoSteps(Alone(store), a, b);
      } else {
        FourSteps(Alone(store), a, b, WriteResult(0, fetched.value), WriteTerminal(0));
      }
    }
  }

  lemma AllowedReconcile(store: Store, c: Context, key: string, observed: JobStatus, fetched: Result<Envelope, ()>)
    requires MayObserve(store, c, key, observed)
    ensures var op := store[OperationUri(key)];
            var n := LatestStatus(store, c, key, op.status).value.1 + 1;
            Steps(Alone(store), ReconcileSteps(c, key, Ok(observed), fetched)).store == WritesOf(store, c, key, op, n, observed, fetched)
  {
    hide LatestStatus, ValidTransition, Write, Stored, EnvelopeFits;
    var a, b := Observe(0, c, key, observed), WriteSnapshot(0);
    if !Terminal(observed) || fetched.Err? {
      TwoSteps(Alone(store), a, b);
    } else {
      FourSteps(Alone(store), a, b, WriteResult(0, fetched.value), WriteTerminal(0));
    }
  }

  class DFTStageRunner {
    const store: LocalArtifactStore

    constructor (store: LocalArtifactStore)
      ensures this.store == store
    {
      this.store := store;
    }

    /** `_latest_status`: walk the snapshots up, checking every transition on the way. */
    method ReadLatest(c: Context, key: string, first: JobStatus) returns (r: Result<(JobStatus, nat), ()>)
      ensures r == LatestStatus(store.artifacts, c, key, first)
    {
      hide ValidTransition;
      var sequence, status := 0, first;
      assert Ledger(store.artifacts, c, key)[0..] == Ledger(store.artifacts, c, key);
      while StatusUri(c, key, sequence + 1) in store.artifacts
        invariant sequence + |LedgerFrom(store.artifacts, c, key, sequence)| == |Ledger(store.artifacts, c, key)|
        invariant ValidFrom(first, Ledger(store.artifacts, c, key)) <==> ValidFrom(status, LedgerFrom(store.artifacts, c, key, sequence))
        invariant Last(first, Ledger(store.artifacts, c, key)) == Last(status, LedgerFrom(store.artifacts, c, key, sequence))
        decreases |Later(store.artifacts, c, key, sequence)|
      {
        LaterShrinks(store.artifacts, c, key, sequence);
        sequence := sequence + 1;
        var next := StatusOf(store.artifacts[StatusUri(c, key, sequence)]);
        if !ValidTransition(status, next) { return Err(()); }
        status := next;
      }
      return Ok((status, sequence));
    }

    method OutcomeFromOperation(c: Context, op: Doc) returns (o: Outcome)
      ensures o == Replay(store.artifacts, c, op)
      ensures op.OperationDoc? && op.result.Some? ==>
                var p := op.result.value;
                o == if p.uri in store.artifacts && store.artifacts[p.uri] == p.content && p.content.ResultDoc?
                        && op.status in {Succeeded, Failed, Timeout, Cancelled}
                     then Ended(op.status, op.sequence, p) else Failure
      ensures op.OperationDoc? && op.result.None? ==>
                var latest := LatestStatus(store.artifacts, c, op.key, op.status);
                o == if latest.Ok? && latest.value.0 !in {Submitting, Completing, CancelRequested, Unknown}
                     then Waiting(latest.value.1, latest.value.0) else Failure
      ensures !op.OperationDoc? ==> o == Failure
    {
      if !op.OperationDoc? { return Failure; }
      if op.result.Some? {
        var p := op.result.value;
        if p.uri !in store.artifacts || store.artifacts[p.uri] != p.content { return Failure; }
        if !p.content.ResultDoc? || !Terminal(op.status) { return Failure; }
        return Ended(op.status, op.sequence, p);
      }
      var latest := ReadLatest(c, op.key, op.status);
      return if latest.Ok? then WaitingOutcome(latest.value.1, latest.value.0) else Failure;
    }

    /**
     * `submitted` is what the backend answers if it is asked. A terminal record is replayed before a
     * recorded operation, and neither asks the backend.
     */
    method Start(c: Context, key: string, request: Request, submitted: Result<JobRef, ()>) returns (o: Outcome, asked: bool)
      requires StoreOk(store.artifacts)
      modifies store
      ensures StoreOk(store.artifacts)
      ensures asked <==> TerminalUri(key) !in old(store.artifacts) && OperationUri(key) !in old(store.artifacts)
      ensures asked && submitted.Ok? ==>
                && store.artifacts == Steps(Alone(old(store.artifacts)), [RecordOperation(key, request, submitted.value)]).store
                && store.artifacts == old(store.artifacts)[OperationUri(key) := OperationDoc(key, request, submitted.value, Created, 0, None)]
                && o == Waiting(0, Created)
      ensures asked && submitted.Err? ==> store.artifacts == old(store.artifacts) && o == Failure
      ensures !asked ==> store.artifacts == old(store.artifacts)
      ensures !asked && TerminalUri(key) in store.artifacts ==> EndsAs(o, store.artifacts[TerminalUri(key)])
      ensures !asked && TerminalUri(key) !in store.artifacts ==>
                exists n: nat, status :: Latest(store.artifacts, c, key, n, status) && WaitsAt(o, n, status)
    {
      if TerminalUri(key) in store.artifacts {
        o := OutcomeFromOperation(c, store.artifacts[TerminalUri(key)]);
        TerminalEnds(store.artifacts, c, key);
        return o, false;
      }
      if OperationUri(key) in store.artifacts {
        o := OutcomeFromOperation(c, store.artifacts[OperationUri(key)]);
        OperationWaits(store.artifacts, c, key);
        return o, false;
      }
      if submitted.Err? { return Failure, true; }
      StoredKeepsOk(store.artifacts, OperationUri(key), NewOperation(key, request, submitted.value));
      assert [RecordOperation(key, request, submitted.value)][1..] == [];
      hide StoreOk, EntryOk;
      var ok := store.WriteJson(OperationUri(key), NewOperation(key, request, submitted.value));
      return Waiting(0, Created), true;
    }

    /**
     * `observed` and `fetched` are the backend's answers. Whatever they are, the store goes through the
     * steps of the ledger protocol, and the call is as `Reconciled` says.
     */
    method Reconcile(c: Context, key: string, jobRef: RefId, observed: Result<JobStatus, ()>, fetched: Result<Envelope, ()>)
      returns (o: Outcome)
      requires StoreOk(store.artifacts)
      modifies store
      ensures StoreOk(store.artifacts)
      ensures store.artifacts == if MayPoll(old(store.artifacts), key, jobRef)
                                 then Steps(Alone(old(store.artifacts)), ReconcileSteps(c, key, observed, fetched)).store
                                 else old(store.artifacts)
      ensures Reconciled(old(store.artifacts), store.artifacts, c, key, jobRef, observed, fetched, o)
    {
      hide LatestStatus, ValidTransition, StoreOk, LedgerFrom, ReconcileSteps, Steps, Latest, Follows, Advanced;
      ghost var before := store.artifacts;
      if OperationUri(key) !in store.artifacts { return Failure; }
      var op := store.artifacts[OperationUri(key)];
      if !RefFits(op, key, jobRef) { return Failure; }
      if TerminalUri(key) in store.artifacts {
        o := OutcomeFromOperation(c, store.artifacts[TerminalUri(key)]);
        TerminalEnds(before, c, key);
        return o;
      }
      AloneStaysOk(before, c, key, observed, fetched);
      NumberIsFree(before, c, key);
      LatestIs(before, c, key, |Ledger(before, c, key)|, Last(Created, Ledger(before, c, key)));
      var latest := ReadLatest(c, key, op.status);
      if observed.Ok? { TransitionIff(latest.value.0, observed.value); }
      if latest.Err? || observed.Err? || !ValidTransition(latest.value.0, observed.value) {
        RefusedReconcile(before, c, key, observed, fetched);
        return Failure;
      }
      var n := latest.value.1 + 1;
      AllowedReconcile(before, c, key, observed.value, fetched);
      o := WriteObserved(c, key, op, n, observed.value, fetched);
    }

    /** The snapshot, then for a terminal status the result and the terminal record. */
    method WriteObserved(c: Context, key: string, op: Doc, n: nat, status: JobStatus, fetched: Result<Envelope, ()>) returns (o: Outcome)
      requires op.OperationDoc? && n > 0 && !status.Unknown?
      requires StatusUri(c, key, n) !in store.artifacts && TerminalUri(key) !in store.artifacts
      modifies store
      ensures store.artifacts == WritesOf(old(store.artifacts), c, key, op, n, status, fetched)
      ensures Advanced(old(store.artifacts), store.artifacts, c, key, op, n, status, fetched, o)
    {
      var ok := store.WriteJson(StatusUri(c, key, n), StatusDoc(op.ref, status, n));
      if !ok { return Failure; }
      if !Terminal(status) { return WaitingOutcome(n, status); }
      if fetched.Err? || !EnvelopeFits(fetched.value, op) { return Failure; }
      ok := store.WriteJson(ResultUri(c), ResultDoc(fetched.value));
      if !ok { return Failure; }
      ok := store.WriteJson(TerminalUri(key), FinalDoc(op, c, n, status, fetched.value));
      if !ok { return Failure; }
      return Ended(status, n, Pointer(ResultUri(c), ResultDoc(fetched.value)));
    }
  }

  // ---- what the calls promise, in the fields of the stored documents --------------------------------

  /** The call gets as far as polling the backend. */
  predicate MayPoll(store: Store, key: string, jobRef: RefId) {
    && OperationUri(key) in store && store[OperationUri(key)].OperationDoc?
    && store[OperationUri(key)].ref.refId == jobRef && store[OperationUri(key)].ref.key == key
    && TerminalUri(key) !in store
  }

  /** A call that finds the terminal record reports that record's status, number and result. */
  ghost predicate EndsAs(o: Outcome, d: Doc) {
    d.OperationDoc? && d.result.Some? && o == Ended(d.status, d.sequence, d.result.value)
  }

  /** Of the statuses without a terminal record those that have an external name are reported, the others are failures. */
  ghost predicate WaitsAt(o: Outcome, n: nat, status: JobStatus) {
    o == if status in {Submitting, Completing, CancelRequested} then Failure else Waiting(n, status)
  }

  /** The writes and the outcome of a call that takes `status` as snapshot `n`. */
  ghost predicate Advanced(
    before: Store, after: Store, c: Context, key: string, op: Doc, n: nat, status: JobStatus, fetched: Result<Envelope, ()>, o: Outcome)
    requires op.OperationDoc?
  {
    var noted := before[StatusUri(c, key, n) := StatusDoc(op.ref, status, n)];
    if status !in {Succeeded, Failed, Timeout, Cancelled} then after == noted && WaitsAt(o, n, status)
    else if fetched.Err? || fetched.value.planHash != op.request.planHash || fetched.value.ref != op.ref
            || (ResultUri(c) in before && before[ResultUri(c)] != ResultDoc(fetched.value))
    then after == noted && o == Failure
    else
      var result := Pointer(ResultUri(c), ResultDoc(fetched.value));
      && o == Ended(status, n, result)
      && after == noted[ResultUri(c) := ResultDoc(fetched.value)]
                       [TerminalUri(key) := OperationDoc(op.key, op.request, op.ref, status, n, Some(result))]
  }

  /**
   * The call fails and writes nothing without a recorded operation of exactly this key and reference. A
   * terminal record is replayed. Otherwise the observation is taken as the next snapshot exactly when it
   * may follow the last one.
   */
  ghost predicate Reconciled(
    before: Store, after: Store, c: Context, key: string, jobRef: RefId, observed: Result<JobStatus, ()>,
    fetched: Result<Envelope, ()>, o: Outcome)
  {
    var at := OperationUri(key);
    if at !in before || !before[at].OperationDoc? || before[at].ref.refId != jobRef || before[at].ref.key != key then
      after == before && o == Failure
    else if TerminalUri(key) in before then
      after == before && EndsAs(o, before[TerminalUri(key)])
    else
      exists n: nat, latest :: Latest(before, c, key, n, latest) &&
        if observed.Ok? && Follows(latest, observed.value)
        then Advanced(before, after, c, key, before[at], n + 1, observed.value, fetched, o)
        else after == before && o == Failure
  }

  /** In a sound store the latest status is the end of the ledger, and the next number is not taken. */
  lemma NumberIsFree(store: Store, c: Context, key: string)
    requires StoreOk(store) && OperationUri(key) in store
    ensures store[OperationUri(key)].OperationDoc? && store[OperationUri(key)].status == Created
    ensures var ledger := Ledger(store, c, key);
            LatestStatus(store, c, key, Created) == Ok((Last(Created, ledger), |ledger|))
    ensures StatusUri(c, key, |Ledger(store, c, key)| + 1) !in store
  {
    hide ValidTransition, Ledger;
    assert OperationOk(key, store[OperationUri(key)]);
    LatestIsRecorded(store, c, key);
    RecordedIffInLedger(store, c, key, |Ledger(store, c, key)| + 1);
  }

  lemma AloneStaysOk(store: Store, c: Context, key: string, observed: Result<JobStatus, ()>, fetched: Result<Envelope, ()>)
    requires StoreOk(store)
    ensures StoreOk(Steps(Alone(store), ReconcileSteps(c, key, observed, fetched)).store)
  {
    assert WorldOk(Alone(store));
    StepsKeepOk(Alone(store), ReconcileSteps(c, key, observed, fetched));
  }

  lemma OperationWaits(store: Store, c: Context, key: string)
    requires StoreOk(store) && OperationUri(key) in store
    ensures exists n: nat, status :: Latest(store, c, key, n, status) && WaitsAt(Replay(store, c, store[OperationUri(key)]), n, status)
  {
    hide LatestStatus, Latest, ValidTransition;
    NumberIsFree(store, c, key);
    assert OperationOk(key, store[OperationUri(key)]);
    hide StoreOk;
    var n, status := |Ledger(store, c, key)|, Last(Created, Ledger(store, c, key));
    LatestIs(store, c, key, n, status);
    NotUnknown(store, c, key);
    assert WaitsAt(Replay(store, c, store[OperationUri(key)]), n, status);
  }

  lemma NotUnknown(store: Store, c: Context, key: string)
    requires StoreOk(store)
    ensures !Last(Created, Ledger(store, c, key)).Unknown?
  {
    hide Ledger;
    LatestIsRecorded(store, c, key);
    var n := |Ledger(store, c, key)|;
    RecordedIffInLedger(store, c, key, n);
    if n > 0 { assert Linked(store, StatusUri(c, key, n)); }
  }

  /** A terminal record is replayed as its own status, number and result. */
  lemma TerminalEnds(store: Store, c: Context, key: string)
    requires StoreOk(store) && TerminalUri(key) in store
    ensures var d := store[TerminalUri(key)];
            EndsAs(Replay(store, c, d), d)
  {
    hide RecordedAt;
    assert TerminalOk(store, key, store[TerminalUri(key)]);
  }
}
