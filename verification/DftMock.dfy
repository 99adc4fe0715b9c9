/**
 * The deterministic mock backend (`dft/mock_backend.py`), and its refinement of an uninterrupted
 * backend: processes may die between any two writes of `start` and `reconcile`, because the job is
 * rebuilt from the durable snapshots.
 */
module DftMock {
  import opened DftModels
  import opened DftLedger
  import opened DftRunner
  import opened Wrappers

  datatype Scenario = MockSuccess | MockBackendFailed | MockNeverFinishes | MockCancelQueued | MockCancelRunning | MockTimeout

  datatype Job = Job(request: Request, ref: JobRef, scenario: Scenario, polls: nat, status: JobStatus)

  datatype MockError = UnknownJob | BoundElsewhere | NotTerminal | InvalidInput

  function RefFor(request: Request, key: string): JobRef {
    JobRef(MockJob(key, request.planHash), "mock-dft", MockTask(key, request.planHash), key, request.taskHash, true)
  }

  /** One `status` call. */
  function Poll(j: Job): Job {
    var polls := j.polls + 1;
    if Terminal(j.status) then j.(polls := polls)
    else
      j.(polls := polls, status :=
        match j.scenario
        case MockCancelQueued => if polls == 1 then Queued else Running
        case MockCancelRunning => if polls == 1 then Queued else Running
        case MockNeverFinishes => Running
        case MockTimeout => if polls >= 2 then Timeout else Running
        case MockBackendFailed => if polls >= 2 then Failed else Running
        case MockSuccess => if polls == 1 then Queued else if polls == 2 then Running else Succeeded)
  }

  /** The status an uninterrupted backend reports at its `n`-th poll. */
  function NthStatus(s: Scenario, n: nat): JobStatus {
    if n == 0 then Created
    else Poll(Job(Request("", "", "", "", true, "", ""), RefFor(Request("", "", "", "", true, "", ""), ""), s, n - 1, NthStatus(s, n - 1))).status
  }

  /** The lifecycle of each scenario, poll by poll. */
  lemma {:induction false} Lifecycle(s: Scenario, n: nat)
    requires n >= 1
    ensures NthStatus(s, n) ==
            match s
            case MockSuccess => (if n == 1 then Queued else if n == 2 then Running else Succeeded)
            case MockTimeout => (if n == 1 then Running else Timeout)
            case MockBackendFailed => (if n == 1 then Running else Failed)
            case MockNeverFinishes => Running
            case _ => (if n == 1 then Queued else Running)
  {
    if n > 1 { Lifecycle(s, n - 1); }
  }

  class MockDFTBackend {
    const scenario: Scenario
    var jobs: map<string, Job>

    ghost predicate Valid()
      reads this
    {
      forall k :: k in jobs ==> jobs[k].ref.key == k
    }

    constructor (scenario: Scenario)
      ensures Valid() && this.scenario == scenario && jobs == map[]
    {
      this.scenario, jobs := scenario, map[];
    }

    /** Idempotent in the key; a different plan under the same key is refused. */
    method Submit(request: Request, key: string) returns (r: Result<JobRef, MockError>)
      requires Valid()
      modifies this
      ensures Valid()
      ensures var ok := request.isMock && request.backendId == "mock-dft" && key != ""
                        && (key in old(jobs) ==> old(jobs)[key].request.planHash == request.planHash);
              && r.Ok? == ok
              && (key in old(jobs) || !ok ==> jobs == old(jobs))
              && (key !in old(jobs) && ok ==>
                    var ref := JobRef(MockJob(key, request.planHash), "mock-dft", MockTask(key, request.planHash), key, request.taskHash, true);
                    jobs == old(jobs)[key := Job(request, ref, scenario, 0, Created)])
              && (r.Ok? ==> key in jobs && r.value == jobs[key].ref)
    {
      if !request.isMock || request.backendId != "mock-dft" || key == "" { return Err(InvalidInput); }
      if key in jobs {
        if jobs[key].request.planHash != request.planHash { return Err(BoundElsewhere); }
        return Ok(jobs[key].ref);
      }
      jobs := jobs[key := Job(request, RefFor(request, key), scenario, 0, Created)];
      return Ok(RefFor(request, key));
    }

    method RestoreJob(request: Request, ref: JobRef, polls: nat, status: JobStatus) returns (r: Result<(), MockError>)
      requires Valid()
      modifies this
      ensures Valid()
      ensures var valid := request.isMock && request.backendId == "mock-dft";
              && r.Ok? == (valid && (ref.key in old(jobs) ==>
                             old(jobs)[ref.key].ref == ref && old(jobs)[ref.key].request.planHash == request.planHash))
              && jobs == if valid && ref.key !in old(jobs) then old(jobs)[ref.key := Job(request, ref, scenario, polls, status)] else old(jobs)
    {
      if !request.isMock || request.backendId != "mock-dft" { return Err(InvalidInput); }
      if ref.key !in jobs {
        jobs := jobs[ref.key := Job(request, ref, scenario, polls, status)];
        return Ok(());
      }
      return if Agrees(jobs[ref.key], request, ref) then Ok(()) else Err(BoundElsewhere);
    }

    static predicate Agrees(j: Job, request: Request, ref: JobRef) { j.ref == ref && j.request.planHash == request.planHash }

    method Status(ref: JobRef) returns (r: Result<JobStatus, MockError>)
      requires Valid()
      modifies this
      ensures Valid()
      ensures var known := ref.key in old(jobs) && old(jobs)[ref.key].ref == ref;
              if known then jobs == old(jobs)[ref.key := Poll(old(jobs)[ref.key])] && r == Ok(jobs[ref.key].status)
              else jobs == old(jobs) && r == Err(UnknownJob)
    {
      if ref.key !in jobs || jobs[ref.key].ref != ref { return Err(UnknownJob); }
      jobs := jobs[ref.key := Poll(jobs[ref.key])];
      return Ok(jobs[ref.key].status);
    }

    /** A finished job stays as it ended. */
    method Cancel(ref: JobRef) returns (r: Result<bool, MockError>)
      requires Valid()
      modifies this
      ensures Valid()
      ensures var known := ref.key in old(jobs) && old(jobs)[ref.key].ref == ref;
              if !known then jobs == old(jobs) && r == Err(UnknownJob)
              else if Terminal(old(jobs)[ref.key].status) then jobs == old(jobs) && r == Ok(false)
              else jobs == old(jobs)[ref.key := old(jobs)[ref.key].(status := Cancelled)] && r == Ok(true)
    {
      if ref.key !in jobs || jobs[ref.key].ref != ref { return Err(UnknownJob); }
      if Terminal(jobs[ref.key].status) { return Ok(false); }
      jobs := jobs[ref.key := jobs[ref.key].(status := Cancelled)];
      return Ok(true);
    }

    method FetchResult(ref: JobRef) returns (r: Result<Envelope, MockError>)
      requires Valid()
      ensures r.Ok? <==> ref.key in jobs && jobs[ref.key].ref == ref && Terminal(jobs[ref.key].status)
      ensures r.Ok? ==> r.value == Envelope(jobs[ref.key].request.planHash, ref, jobs[ref.key].status, "")
    {
      if ref.key !in jobs || jobs[ref.key].ref != ref { return Err(UnknownJob); }
      if !Terminal(jobs[ref.key].status) { return Err(NotTerminal); }
      return Ok(EnvelopeOf(jobs[ref.key]));
    }
  }

  /** `DFTStageRunner.cancel` once it has found the operation record: only a job the backend does not know is rebuilt first. */
  method CancelRecorded(backend: MockDFTBackend, op: Doc) returns (r: Result<bool, MockError>)
    requires backend.Valid() && op.OperationDoc?
    modifies backend
    ensures backend.Valid()
    ensures var jobs, key := old(backend.jobs), op.ref.key;
            var lost := Job(op.request, op.ref, backend.scenario, op.sequence, op.status);
            if key in jobs && jobs[key].ref != op.ref then backend.jobs == jobs && r.Err?
            else if key !in jobs && !(op.request.isMock && op.request.backendId == "mock-dft") then backend.jobs == jobs && r.Err?
            else
              var j := if key in jobs then jobs[key] else lost;
              && r == Ok(!Terminal(j.status))
              && backend.jobs == jobs[key := if Terminal(j.status) then j else j.(status := Cancelled)]
  {
    r := backend.Cancel(op.ref);
    if r == Err(UnknownJob) {
      var restored := backend.RestoreJob(op.request, op.ref, op.sequence, op.status);
      if restored.Err? { return Err(restored.error); }
      r := backend.Cancel(op.ref);
    }
  }

  function EnvelopeOf(j: Job): Envelope { Envelope(j.request.planHash, j.ref, j.status, "") }

  // ---- start and reconcile against the mock, with crashes ------------------------------------------------

  /** How far a call gets before its process dies. */
  datatype Cut = BeforeSnapshot | AfterSnapshot | AfterResult | NoCrash

  datatype Event =
    | Start(crashBeforeWrite: bool)
    | Reconcile(cut: Cut)
    | Cancel
    | CrashNow

  /** One job: the durable store, and what the current process remembers of the mock. */
  datatype System = System(store: Store, memory: Option<Job>)

  datatype Setup = Setup(context: Context, key: string, request: Request, scenario: Scenario)

  function Fresh(p: Setup): Job { Job(p.request, RefFor(p.request, p.key), p.scenario, 0, Created) }

  /** The uninterrupted job after `n` polls. */
  function Polled(p: Setup, n: nat): Job { if n == 0 then Fresh(p) else Poll(Polled(p, n - 1)) }

  /** `_restore_backend_if_supported`: an existing job is kept, a lost one is rebuilt from the ledger. */
  function Restored(p: Setup, memory: Option<Job>, polls: nat, status: JobStatus): Job {
    if memory.Some? then memory.value else Job(p.request, RefFor(p.request, p.key), p.scenario, polls, status)
  }

  function StepsUntil(p: Setup, cut: Cut, j: Job): seq<DftLedger.Event> {
    var observe, snapshot := Observe(0, p.context, p.key, j.status), WriteSnapshot(0);
    match cut
    case BeforeSnapshot => []
    case AfterSnapshot => [observe, snapshot]
    case AfterResult => [observe, snapshot, WriteResult(0, EnvelopeOf(j)), DftLedger.Event.Crash(0)]
    case NoCrash => [observe, snapshot, WriteResult(0, EnvelopeOf(j)), WriteTerminal(0)]
  }

  function StepStart(y: System, p: Setup, crash: bool): System {
    if OperationUri(p.key) in y.store || TerminalUri(p.key) in y.store then if crash then y.(memory := None) else y
    else
      var j := if y.memory.Some? then y.memory.value else Fresh(p);
      if crash then System(y.store, None)
      else System(Stored(y.store, OperationUri(p.key), NewOperation(p.key, p.request, j.ref)), Some(j))
  }

  function StepReconcile(y: System, p: Setup, cut: Cut): System {
    if OperationUri(p.key) !in y.store || TerminalUri(p.key) in y.store then if cut.NoCrash? then y else y.(memory := None)
    else
      var latest := LatestStatus(y.store, p.context, p.key, Created);
      if latest.Err? then if cut.NoCrash? then y else y.(memory := None)
      else
        var j := Poll(Restored(p, y.memory, latest.value.1, latest.value.0));
        System(Steps(Alone(y.store), StepsUntil(p, cut, j)).store, if cut.NoCrash? then Some(j) else None)
  }

  /** `cancel`: a lost job is rebuilt from the operation record, whatever the ledger says by now; nothing is written. */
  function StepCancel(y: System, p: Setup): System {
    if OperationUri(p.key) !in y.store then y
    else
      var j := Restored(p, y.memory, 0, Created);
      y.(memory := Some(if Terminal(j.status) then j else j.(status := Cancelled)))
  }

  function Step(y: System, p: Setup, e: Event): System {
    match e
    case Start(crash) => StepStart(y, p, crash)
    case Reconcile(cut) => StepReconcile(y, p, cut)
    case Cancel => StepCancel(y, p)
    case CrashNow => y.(memory := None)
  }

  function Run(p: Setup, events: seq<Event>): System {
    if events == [] then System(map[], None) else Step(Run(p, events[..|events| - 1]), p, events[|events| - 1])
  }

  /** A confirmed cancel leaves a cancelled job: the one remembered, or else one rebuilt as never polled. */
  lemma CancelLeaves(y: System, p: Setup)
    requires OperationUri(p.key) in y.store
    ensures var z := StepCancel(y, p);
            && z.store == y.store && z.memory.Some?
            && (y.memory.None? ==> z.memory.value == Job(p.request, RefFor(p.request, p.key), p.scenario, 0, Cancelled))
            && (y.memory.Some? ==> z.memory.value == y.memory.value.(status := z.memory.value.status))
            && (z.memory.value.status != Cancelled ==> Terminal(y.memory.value.status) && z == y)
  {
  }

  // ---- the refinement ------------------------------------------------------------------------------------

  function Recorded(y: System, p: Setup): seq<JobStatus> { Ledger(y.store, p.context, p.key) }

  /** Each snapshot is the one of the uninterrupted job, or CANCELLED. */
  ghost predicate FollowsMock(ledger: seq<JobStatus>, p: Setup) {
    forall n :: 0 <= n < |ledger| ==> ledger[n] == Polled(p, n + 1).status || ledger[n].Cancelled?
  }

  /** The process remembers the uninterrupted job exactly, or one that was cancelled. */
  ghost predicate Remembers(j: Job, ledger: seq<JobStatus>, p: Setup) {
    && j.request == p.request && j.ref == RefFor(p.request, p.key)
    && (j.status.Cancelled? || (j == Polled(p, |ledger|) && Cancelled !in ledger))
  }

  ghost predicate Refines(y: System, p: Setup) {
    && StoreOk(y.store)
    && (OperationUri(p.key) in y.store ==> y.store[OperationUri(p.key)] == NewOperation(p.key, p.request, RefFor(p.request, p.key)))
    && (OperationUri(p.key) !in y.store ==> Recorded(y, p) == [] && (y.memory.Some? ==> y.memory.value == Fresh(p)))
    && FollowsMock(Recorded(y, p), p)
    && (y.memory.Some? ==> Remembers(y.memory.value, Recorded(y, p), p))
  }

  /** The last recorded status; the operation itself counts as CREATED. */
  function LastRecorded(y: System, p: Setup): JobStatus { Last(Created, Recorded(y, p)) }

  predicate HoldsCancelled(y: System) { y.memory.Some? && y.memory.value.status.Cancelled? }

  /** A cancelled job against a ledger that ended otherwise: every reconcile of this process is refused. */
  predicate Stuck(y: System, p: Setup) { HoldsCancelled(y) && Terminal(LastRecorded(y, p)) && !LastRecorded(y, p).Cancelled? }

  lemma {:induction false} PolledShape(p: Setup, n: nat)
    ensures Polled(p, n) == Job(p.request, RefFor(p.request, p.key), p.scenario, n, NthStatus(p.scenario, n))
  {
    if n > 0 { PolledShape(p, n - 1); }
  }

  lemma {:induction false} PolledMoves(p: Setup, n: nat)
    ensures ValidTransition(Polled(p, n).status, Polled(p, n + 1).status)
    ensures Terminal(Polled(p, n).status) ==> Polled(p, n + 1).status == Polled(p, n).status
    ensures !Polled(p, n).status.Unknown?
    ensures n >= 1 ==> Polled(p, n).status.Queued? || Polled(p, n).status.Running? || Terminal(Polled(p, n).status)
    ensures n >= 1 && Polled(p, n).status.Running? && p.scenario.MockSuccess? ==> n == 2
    ensures n >= 1 && Polled(p, n).status.Queued? ==> n == 1
  {
    PolledShape(p, n);
    if n > 0 { PolledMoves(p, n - 1); PolledShape(p, n - 1); }
  }

  /** The ledger is determined by what is recorded under which number. */
  lemma LedgerDetermined(store: Store, c: Context, key: string, ledger: seq<JobStatus>)
    requires StoreOk(store)
    requires forall n: nat :: StatusUri(c, key, n) in store <==> 1 <= n <= |ledger|
    requires forall i :: 0 <= i < |ledger| ==> RecordedAt(store, c, key, i + 1, ledger[i])
    ensures Ledger(store, c, key) == ledger
  {
    hide StoreOk, Ledger;
    var read := Ledger(store, c, key);
    RecordedIffInLedger(store, c, key, |read| + 1);
    RecordedIffInLedger(store, c, key, |ledger| + 1);
    RecordedIffInLedger(store, c, key, |read|);
    RecordedIffInLedger(store, c, key, |ledger|);
    assert |read| == |ledger|;
    forall i | 0 <= i < |ledger| ensures read[i] == ledger[i] {
      RecordedIffInLedger(store, c, key, i + 1);
    }
  }

  lemma WritesAfterSnapshot(w: World, j: Job, terminal: bool)
    ensures var z := if terminal then ApplyTerminal(ApplyResult(w, 0, EnvelopeOf(j)), 0) else Forget(ApplyResult(w, 0, EnvelopeOf(j)), 0);
            && Extends(w.store, z.store)
            && forall u :: u in z.store && (u.StatusUri? || u.OperationUri?) ==> u in w.store
  {
  }

  /** A reconcile that gets past its first write adds one snapshot, of the status just polled. */
  lemma ReconcileStore(store: Store, p: Setup, cut: Cut, j: Job)
    requires MayObserve(store, p.context, p.key, j.status) && !cut.BeforeSnapshot?
    requires StatusUri(p.context, p.key, LatestStatus(store, p.context, p.key, store[OperationUri(p.key)].status).value.1 + 1) !in store
    ensures var op := store[OperationUri(p.key)];
            var n := LatestStatus(store, p.context, p.key, op.status).value.1 + 1;
            var after := Steps(Alone(store), StepsUntil(p, cut, j)).store;
            && Extends(store[StatusUri(p.context, p.key, n) := StatusDoc(op.ref, j.status, n)], after)
            && forall u :: u in after && (u.StatusUri? || u.OperationUri?) ==> u in store || u == StatusUri(p.context, p.key, n)
  {
    hide LatestStatus, ValidTransition, Extends, EnvelopeFits;
    var observe, snapshot := Observe(0, p.context, p.key, j.status), WriteSnapshot(0);
    var w := Apply(Apply(Alone(store), observe), snapshot);
    match cut
    case AfterSnapshot =>
      TwoSteps(Alone(store), observe, snapshot);
      Reflexive(w.store);
    case AfterResult =>
      FourSteps(Alone(store), observe, snapshot, WriteResult(0, EnvelopeOf(j)), DftLedger.Event.Crash(0));
      hide ApplyResult;
      WritesAfterSnapshot(w, j, false);
    case NoCrash =>
      FourSteps(Alone(store), observe, snapshot, WriteResult(0, EnvelopeOf(j)), WriteTerminal(0));
      hide ApplyResult, ApplyTerminal;
      WritesAfterSnapshot(w, j, true);
  }

  lemma Reflexive(store: Store)
    ensures Extends(store, store)
  {
  }

  /** The job a reconcile polls: the ledger it meets, the job it holds, and what the poll reports. */
  lemma PolledJob(y: System, p: Setup)
    requires Refines(y, p) && OperationUri(p.key) in y.store
    ensures var n := |Recorded(y, p)|;
            var j := Poll(Restored(p, y.memory, n, LastRecorded(y, p)));
            && LatestStatus(y.store, p.context, p.key, Created) == Ok((LastRecorded(y, p), n))
            && j.request == p.request && j.ref == RefFor(p.request, p.key)
            && (if HoldsCancelled(y) || Cancelled in Recorded(y, p) then j.status == Cancelled else j == Polled(p, n + 1))
            && (Cancelled in Recorded(y, p) ==> LastRecorded(y, p) == Cancelled)
            && (ValidTransition(LastRecorded(y, p), j.status) <==> !Stuck(y, p))
  {
    hide StoreOk, Ledger, ValidTransition;
    var ledger := Recorded(y, p);
    var n := |ledger|;
    NumberIsFree(y.store, p.context, p.key);
    CancelledIsLast(y, p);
    PolledShape(p, n);
    PolledMoves(p, n);
    assert !HoldsCancelled(y) && Cancelled !in ledger ==> LastRecorded(y, p) == Polled(p, n).status;
    LastIsKnown(y, p);
    CancelMoves(LastRecorded(y, p));
  }

  lemma CancelMoves(s: JobStatus)
    requires !s.Unknown?
    ensures ValidTransition(s, Cancelled) <==> !Terminal(s) || s.Cancelled?
  {
  }

  lemma LastIsKnown(y: System, p: Setup)
    requires Refines(y, p)
    ensures !LastRecorded(y, p).Unknown?
  {
    hide StoreOk, Ledger;
    PolledMoves(p, |Recorded(y, p)|);
  }

  /** A ledger that has come to CANCELLED stays there. */
  lemma CancelledIsLast(y: System, p: Setup)
    requires Refines(y, p)
    ensures Cancelled in Recorded(y, p) ==> LastRecorded(y, p) == Cancelled
  {
    hide StoreOk, Ledger, ValidFrom;
    var ledger := Recorded(y, p);
    if Cancelled in ledger {
      var i :| 0 <= i < |ledger| && ledger[i] == Cancelled;
      LedgerIsValidWhole(y.store, p.context, p.key);
      ValidChain(Created, ledger, i, |ledger| - 1);
    }
  }

  /** A reconcile that gets past its first write adds the polled status, unless the process is stuck; no other adds anything. */
  lemma ReconcileRefines(y: System, p: Setup, cut: Cut)
    requires Refines(y, p)
    ensures Refines(StepReconcile(y, p, cut), p)
    ensures Recorded(StepReconcile(y, p, cut), p) ==
            if OperationUri(p.key) in y.store && TerminalUri(p.key) !in y.store && !cut.BeforeSnapshot? && !Stuck(y, p)
            then Recorded(y, p) + [if HoldsCancelled(y) || Cancelled in Recorded(y, p) then Cancelled else Polled(p, |Recorded(y, p)| + 1).status]
            else Recorded(y, p)
    ensures OperationUri(p.key) in y.store ==> OperationUri(p.key) in StepReconcile(y, p, cut).store
  {
    hide StoreOk, Ledger, LatestStatus, ValidTransition, Poll, StepsUntil, Steps, Polled;
    if OperationUri(p.key) in y.store && TerminalUri(p.key) !in y.store {
      PolledJob(y, p);
      assert OperationOk(p.key, y.store[OperationUri(p.key)]);
      var j := Poll(Restored(p, y.memory, |Recorded(y, p)|, LastRecorded(y, p)));
      if cut.BeforeSnapshot? {
        NothingDone(y.store, p, j);
      } else if Stuck(y, p) {
        RefusedSteps(y.store, p, cut, j);
      } else {
        SnapshotExtends(y, p, cut, j);
      }
    }
  }

  lemma NothingDone(store: Store, p: Setup, j: Job)
    ensures Steps(Alone(store), StepsUntil(p, BeforeSnapshot, j)).store == store
  {
  }

  /** A poll that the ledger refuses writes nothing. */
  lemma RefusedSteps(store: Store, p: Setup, cut: Cut, j: Job)
    requires !cut.BeforeSnapshot? && !MayObserve(store, p.context, p.key, j.status)
    ensures Steps(Alone(store), StepsUntil(p, cut, j)).store == store
  {
    hide LatestStatus, ValidTransition;
    var observe, snapshot := Observe(0, p.context, p.key, j.status), WriteSnapshot(0);
    assert Apply(Apply(Alone(store), observe), snapshot) == Alone(store);
    match cut
    case AfterSnapshot => TwoSteps(Alone(store), observe, snapshot);
    case AfterResult => FourSteps(Alone(store), observe, snapshot, WriteResult(0, EnvelopeOf(j)), DftLedger.Event.Crash(0));
    case NoCrash => FourSteps(Alone(store), observe, snapshot, WriteResult(0, EnvelopeOf(j)), WriteTerminal(0));
  }

  lemma SnapshotExtends(y: System, p: Setup, cut: Cut, j: Job)
    requires Refines(y, p) && OperationUri(p.key) in y.store && TerminalUri(p.key) !in y.store && !cut.BeforeSnapshot?
    requires ValidTransition(LastRecorded(y, p), j.status)
    requires j.status == Polled(p, |Recorded(y, p)| + 1).status || j.status.Cancelled?
    ensures var after := Steps(Alone(y.store), StepsUntil(p, cut, j)).store;
            && StoreOk(after)
            && Ledger(after, p.context, p.key) == Recorded(y, p) + [j.status]
            && OperationUri(p.key) in after && after[OperationUri(p.key)] == y.store[OperationUri(p.key)]
            && FollowsMock(Recorded(y, p) + [j.status], p)
  {
    hide StoreOk, Ledger, LatestStatus, ValidTransition, Poll, StepsUntil, Steps, Polled;
    var ledger := Recorded(y, p);
    var n := |ledger| + 1;
    var store := y.store;
    var after := Steps(Alone(store), StepsUntil(p, cut, j)).store;
    NumberIsFree(store, p.context, p.key);
    RecordedIffInLedger(store, p.context, p.key, n);
    ReconcileStore(store, p, cut, j);
    assert StoreOk(after) by { AloneRunOk(store, StepsUntil(p, cut, j)); }
    var u := StatusUri(p.context, p.key, n);
    var longer := ledger + [j.status];
    assert u in store[u := StatusDoc(store[OperationUri(p.key)].ref, j.status, n)];
    forall m: nat ensures StatusUri(p.context, p.key, m) in after <==> 1 <= m <= |longer| {
      RecordedIffInLedger(store, p.context, p.key, m);
    }
    forall i | 0 <= i < |longer| ensures RecordedAt(after, p.context, p.key, i + 1, longer[i]) {
      RecordedIffInLedger(store, p.context, p.key, i + 1);
    }
    LedgerDetermined(after, p.context, p.key, longer);
  }

  lemma AloneRunOk(store: Store, events: seq<DftLedger.Event>)
    requires StoreOk(store)
    ensures StoreOk(Steps(Alone(store), events).store)
  {
    assert WorldOk(Alone(store));
    StepsKeepOk(Alone(store), events);
  }

  lemma StartRefines(y: System, p: Setup, crash: bool)
    requires Refines(y, p)
    ensures Refines(StepStart(y, p, crash), p)
  {
    hide LatestStatus, Ledger, Polled;
    if !(OperationUri(p.key) in y.store || TerminalUri(p.key) in y.store) && !crash {
      assert Recorded(y, p) == [];
      NoPolls(p);
      var j := if y.memory.Some? then y.memory.value else Fresh(p);
      assert j == Fresh(p);
      var u, d := OperationUri(p.key), NewOperation(p.key, p.request, j.ref);
      StoredKeepsOk(y.store, u, d);
      hide StoreOk, EntryOk;
      RecordedIffInLedgerAll(y.store, p);
      LedgerDetermined(y.store[u := d], p.context, p.key, []);
    }
  }

  lemma NoPolls(p: Setup)
    ensures Polled(p, 0) == Fresh(p)
  {
  }

  lemma RecordedIffInLedgerAll(store: Store, p: Setup)
    requires StoreOk(store)
    ensures forall n: nat :: StatusUri(p.context, p.key, n) in store <==> 1 <= n <= |Ledger(store, p.context, p.key)|
  {
    forall n: nat ensures StatusUri(p.context, p.key, n) in store <==> 1 <= n <= |Ledger(store, p.context, p.key)| {
      RecordedIffInLedger(store, p.context, p.key, n);
    }
  }

  lemma {:induction false} EveryRunRefines(p: Setup, events: seq<Event>)
    ensures Refines(Run(p, events), p)
  {
    hide StoreOk, Ledger, StepStart, StepReconcile, Polled;
    if events == [] {
      assert Refines(Run(p, events), p) by { EmptyRefines(p); }
    } else {
      var init, e := events[..|events| - 1], events[|events| - 1];
      EveryRunRefines(p, init);
      match e
      case Start(crash) => StartRefines(Run(p, init), p, crash);
      case Reconcile(cut) => ReconcileRefines(Run(p, init), p, cut);
      case Cancel =>
      case CrashNow =>
    }
  }

  lemma EmptyRefines(p: Setup)
    ensures Refines(System(map[], None), p)
  {
  }

  /** The snapshots up to any of them are those of an uninterrupted backend, until CANCELLED is recorded. */
  lemma SnapshotsFollowTheMock(p: Setup, events: seq<Event>, k: nat)
    requires 1 <= k <= |Recorded(Run(p, events), p)|
    ensures var s := Recorded(Run(p, events), p)[k - 1]; s == NthStatus(p.scenario, k) || s == Cancelled
  {
    hide Run, Ledger;
    EveryRunRefines(p, events);
    PolledShape(p, k);
    assert Recorded(Run(p, events), p)[k - 1] == Polled(p, (k - 1) + 1).status || Recorded(Run(p, events), p)[k - 1] == Cancelled;
  }

  /**
   * Crash refinement: for every scenario and every placement of crashes, without a cancel the `k`-th
   * durable snapshot is the `k`-th status of an uninterrupted backend.
   */
  lemma SnapshotsAreUninterrupted(p: Setup, events: seq<Event>, k: nat)
    requires 1 <= k <= |Recorded(Run(p, events), p)| && Cancel !in events
    ensures Recorded(Run(p, events), p)[k - 1] == NthStatus(p.scenario, k)
  {
    SnapshotsFollowTheMock(p, events, k);
    LedgerRecordsCancelIff(p, events);
  }

  /** A reconcile that survives its first write adds exactly one snapshot, whatever was lost before it, unless the process is stuck. */
  lemma ReconcileAdvances(p: Setup, events: seq<Event>, cut: Cut)
    requires var store := Run(p, events).store; OperationUri(p.key) in store && TerminalUri(p.key) !in store
    requires !cut.BeforeSnapshot?
    ensures |Recorded(Run(p, events + [Reconcile(cut)]), p)| == |Recorded(Run(p, events), p)| + if Stuck(Run(p, events), p) then 0 else 1
  {
    hide Ledger, StepReconcile, Refines;
    EveryRunRefines(p, events);
    ReconcileRefines(Run(p, events), p, cut);
    assert (events + [Reconcile(cut)])[..|events|] == events;
  }

  // ---- how a job ends ----------------------------------------------------------------------------------------

  function FinalRecord(p: Setup, status: JobStatus, n: nat): Doc {
    var result := ResultDoc(Envelope(p.request.planHash, RefFor(p.request, p.key), status, ""));
    OperationDoc(p.key, p.request, RefFor(p.request, p.key), status, n, Some(Pointer(ResultUri(p.context), result)))
  }

  /** What is stored once a reconcile has taken `status` as snapshot `n` and got as far as its cut. */
  function StoreAfter(store: Store, p: Setup, cut: Cut, status: JobStatus, n: nat): Store {
    var noted := store[StatusUri(p.context, p.key, n) := StatusDoc(RefFor(p.request, p.key), status, n)];
    if !Terminal(status) || cut.AfterSnapshot? then noted
    else
      var fetched := noted[ResultUri(p.context) := FinalRecord(p, status, n).result.value.content];
      if cut.AfterResult? then fetched else fetched[TerminalUri(p.key) := FinalRecord(p, status, n)]
  }

  /** A result is stored only once the ledger has ended, and it is that end's. */
  ghost predicate ResultFollows(y: System, p: Setup) {
    var u := ResultUri(p.context);
    u in y.store ==> Terminal(LastRecorded(y, p)) && y.store[u] == FinalRecord(p, LastRecorded(y, p), 0).result.value.content
  }

  lemma ReconcileStores(store: Store, p: Setup, cut: Cut, j: Job, n: nat)
    requires !cut.BeforeSnapshot? && j.request == p.request && j.ref == RefFor(p.request, p.key)
    requires MayObserve(store, p.context, p.key, j.status) && n == LatestStatus(store, p.context, p.key, Created).value.1 + 1
    requires store[OperationUri(p.key)] == NewOperation(p.key, p.request, RefFor(p.request, p.key))
    requires StatusUri(p.context, p.key, n) !in store && TerminalUri(p.key) !in store
    requires ResultUri(p.context) in store && Terminal(j.status) ==> store[ResultUri(p.context)] == ResultDoc(EnvelopeOf(j))
    ensures Steps(Alone(store), StepsUntil(p, cut, j)).store == StoreAfter(store, p, cut, j.status, n)
  {
    hide LatestStatus, ValidTransition;
    var observe, snapshot := Observe(0, p.context, p.key, j.status), WriteSnapshot(0);
    match cut
    case AfterSnapshot => TwoSteps(Alone(store), observe, snapshot);
    case AfterResult => FourSteps(Alone(store), observe, snapshot, WriteResult(0, EnvelopeOf(j)), DftLedger.Event.Crash(0));
    case NoCrash => FourSteps(Alone(store), observe, snapshot, WriteResult(0, EnvelopeOf(j)), WriteTerminal(0));
  }

  /** What one reconcile that gets past its first write leaves behind. */
  lemma ReconcileLeaves(y: System, p: Setup, cut: Cut)
    requires Refines(y, p) && ResultFollows(y, p) && !cut.BeforeSnapshot? && !Stuck(y, p)
    requires OperationUri(p.key) in y.store && TerminalUri(p.key) !in y.store
    ensures var status := Last(Created, Recorded(StepReconcile(y, p, cut), p));
            && |Recorded(StepReconcile(y, p, cut), p)| == |Recorded(y, p)| + 1
            && (Terminal(LastRecorded(y, p)) ==> status == LastRecorded(y, p))
            && StepReconcile(y, p, cut).store == StoreAfter(y.store, p, cut, status, |Recorded(y, p)| + 1)
  {
    hide StoreOk, Ledger, LatestStatus, Poll, StepsUntil, Steps, Polled;
    PolledJob(y, p);
    ReconcileRefines(y, p, cut);
    NumberIsFree(y.store, p.context, p.key);
    var j := Poll(Restored(p, y.memory, |Recorded(y, p)|, LastRecorded(y, p)));
    ReconcileStores(y.store, p, cut, j, |Recorded(y, p)| + 1);
  }

  lemma StepKeepsResult(y: System, p: Setup, e: Event)
    requires Refines(y, p) && ResultFollows(y, p)
    ensures ResultFollows(Step(y, p, e), p)
  {
    hide StoreOk, Ledger, StepReconcile, Polled;
    match e
    case Start(crash) => NothingStarted(y, p, crash);
    case Reconcile(cut) =>
      ReconcileRefines(y, p, cut);
      if OperationUri(p.key) in y.store && TerminalUri(p.key) !in y.store && !cut.BeforeSnapshot? && !Stuck(y, p) {
        ReconcileLeaves(y, p, cut);
      } else {
        ReconcileStops(y, p, cut);
      }
    case Cancel =>
    case CrashNow =>
  }

  lemma ReconcileStops(y: System, p: Setup, cut: Cut)
    requires Refines(y, p)
    requires OperationUri(p.key) !in y.store || TerminalUri(p.key) in y.store || cut.BeforeSnapshot? || Stuck(y, p)
    ensures StepReconcile(y, p, cut).store == y.store
  {
    hide StoreOk, Ledger, LatestStatus, ValidTransition, Poll, StepsUntil, Steps, Polled;
    if OperationUri(p.key) in y.store && TerminalUri(p.key) !in y.store {
      PolledJob(y, p);
      assert OperationOk(p.key, y.store[OperationUri(p.key)]);
      var j := Poll(Restored(p, y.memory, |Recorded(y, p)|, LastRecorded(y, p)));
      if cut.BeforeSnapshot? { NothingDone(y.store, p, j); } else { RefusedSteps(y.store, p, cut, j); }
    }
  }

  lemma {:induction false} EveryResultFollows(p: Setup, events: seq<Event>)
    ensures ResultFollows(Run(p, events), p)
  {
    hide ResultFollows, Refines, Step;
    if events == [] {
      assert ResultFollows(System(map[], None), p) by { NoResult(p); }
    } else {
      EveryResultFollows(p, events[..|events| - 1]);
      EveryRunRefines(p, events[..|events| - 1]);
      StepKeepsResult(Run(p, events[..|events| - 1]), p, events[|events| - 1]);
    }
  }

  lemma NoResult(p: Setup)
    ensures ResultFollows(System(map[], None), p)
  {
  }

  /**
   * After any crashes and cancels, a reconcile that is neither stuck nor cut short and finds the job ended
   * leaves the terminal record: the status just recorded, its number, and the fetched result.
   */
  lemma EndIsRecorded(p: Setup, events: seq<Event>)
    requires var y := Run(p, events); OperationUri(p.key) in y.store && TerminalUri(p.key) !in y.store && !Stuck(y, p)
    ensures var z := Run(p, events + [Reconcile(NoCrash)]);
            if Terminal(LastRecorded(z, p))
            then TerminalUri(p.key) in z.store && z.store[TerminalUri(p.key)] == FinalRecord(p, LastRecorded(z, p), |Recorded(z, p)|)
            else TerminalUri(p.key) !in z.store
  {
    hide Run, Refines, Step, Ledger;
    RunContinues(p, events, Reconcile(NoCrash));
    EveryRunRefines(p, events);
    EveryResultFollows(p, events);
    ReconcileLeaves(Run(p, events), p, NoCrash);
    assert Step(Run(p, events), p, Reconcile(NoCrash)) == StepReconcile(Run(p, events), p, NoCrash) by { StepIs(Run(p, events), p); }
    hide StepReconcile;
  }

  lemma StepIs(y: System, p: Setup)
    ensures Step(y, p, Reconcile(NoCrash)) == StepReconcile(y, p, NoCrash)
  {
    hide StepReconcile;
  }

  // ---- cancelling ------------------------------------------------------------------------------------------

  /** The backend would confirm a cancel now. */
  predicate Confirms(y: System, p: Setup) { OperationUri(p.key) in y.store && (y.memory.Some? ==> !Terminal(y.memory.value.status)) }

  /** The process is still there after the event. */
  predicate Survives(e: Event) {
    match e
    case Start(crash) => !crash
    case Reconcile(cut) => cut.NoCrash?
    case Cancel => true
    case CrashNow => false
  }

  /** Event `i` is a confirmed cancel of the process that is still running after all the events. */
  ghost predicate CancelledAt(p: Setup, events: seq<Event>, i: nat) {
    && i < |events| && events[i].Cancel? && Confirms(Run(p, events[..i]), p)
    && forall k :: i < k < |events| ==> Survives(events[k])
  }

  /** Event `j` is a reconcile of the process that cancelled, writes its snapshot, and meets a ledger that has not ended. */
  ghost predicate RecordsCancelAt(p: Setup, events: seq<Event>, j: nat) {
    && j < |events| && events[j].Reconcile? && !events[j].cut.BeforeSnapshot?
    && TerminalUri(p.key) !in Run(p, events[..j]).store && !Terminal(LastRecorded(Run(p, events[..j]), p))
    && exists i :: CancelledAt(p, events[..j], i)
  }

  lemma {:induction false} CancelledIsHeld(p: Setup, events: seq<Event>, i: nat)
    requires CancelledAt(p, events, i)
    ensures HoldsCancelled(Run(p, events)) && OperationUri(p.key) in Run(p, events).store
    decreases |events|
  {
    hide LatestStatus, Steps, StepsUntil, Ledger, Refines;
    var n := |events| - 1;
    var y := Run(p, events[..n]);
    if i < n {
      assert events[..n][..i] == events[..i];
      CancelledIsHeld(p, events[..n], i);
      EveryRunRefines(p, events[..n]);
      if events[n].Reconcile? { ReconcileRefines(y, p, events[n].cut); }
    }
  }

  /** Before CANCELLED is recorded, a process that holds a cancelled job has had a cancel confirmed. */
  lemma {:induction false} HeldIsCancelled(p: Setup, events: seq<Event>)
    requires HoldsCancelled(Run(p, events)) && Cancelled !in Recorded(Run(p, events), p)
    ensures exists i :: CancelledAt(p, events, i)
    decreases |events|
  {
    hide LatestStatus, Steps, StepsUntil, Ledger, Refines, Poll, Polled;
    if events != [] {
      var n := |events| - 1;
      var init, e := events[..n], events[n];
      var y := Run(p, init);
      EveryRunRefines(p, init);
      StepKeepsLedger(y, p, e);
      NotYetCancelled(y, p, e);
      if e.Cancel? && Confirms(y, p) {
        assert CancelledAt(p, events, n);
      } else {
        HeldIsCancelled(p, init);
        var i: nat :| CancelledAt(p, init, i);
        assert init[..i] == events[..i];
        assert CancelledAt(p, events, i);
      }
    }
  }

  /** No step takes a snapshot back. */
  lemma StepKeepsLedger(y: System, p: Setup, e: Event)
    requires Refines(y, p)
    ensures forall s :: s in Recorded(y, p) ==> s in Recorded(Step(y, p, e), p)
  {
    hide StoreOk, Ledger, StepReconcile, Polled;
    match e
    case Start(crash) => if OperationUri(p.key) in y.store { assert Recorded(Step(y, p, e), p) == Recorded(y, p); }
    case Reconcile(cut) => ReconcileRefines(y, p, cut);
    case Cancel =>
    case CrashNow =>
  }

  /** How a process comes to hold a cancelled job without CANCELLED being recorded. */
  lemma NotYetCancelled(y: System, p: Setup, e: Event)
    requires Refines(y, p) && HoldsCancelled(Step(y, p, e)) && Cancelled !in Recorded(Step(y, p, e), p)
    ensures (e.Cancel? && Confirms(y, p)) || (HoldsCancelled(y) && Survives(e))
  {
    hide StoreOk, Ledger, LatestStatus, ValidTransition, StepsUntil, Steps, Polled, Poll;
    StepKeepsLedger(y, p, e);
    if e.Reconcile? && OperationUri(p.key) in y.store && TerminalUri(p.key) !in y.store {
      PolledJob(y, p);
      PolledMoves(p, |Recorded(y, p)|);
      NeverCancelled(p, |Recorded(y, p)| + 1);
      assert OperationOk(p.key, y.store[OperationUri(p.key)]);
    }
  }

  lemma NeverCancelled(p: Setup, n: nat)
    ensures !Polled(p, n).status.Cancelled?
  {
    PolledShape(p, n);
    if n > 0 { Lifecycle(p.scenario, n); }
  }

  /**
   * The ledger records CANCELLED if and only if a reconcile of the very process that had the cancel
   * confirmed writes its snapshot before that process dies, and meets a ledger that has not ended.
   */
  lemma {:induction false} LedgerRecordsCancelIff(p: Setup, events: seq<Event>)
    ensures Cancelled in Recorded(Run(p, events), p) <==> exists j :: RecordsCancelAt(p, events, j)
    decreases |events|
  {
    hide Ledger, Step, Refines, HoldsCancelled, CancelledAt, Polled;
    if events == [] {
      EmptyLedger(p);
    } else {
      var n := |events| - 1;
      var init, e := events[..n], events[n];
      var y := Run(p, init);
      EveryRunRefines(p, init);
      LedgerRecordsCancelIff(p, init);
      forall j | 0 <= j < n ensures RecordsCancelAt(p, events, j) <==> RecordsCancelAt(p, init, j) {
        assert init[..j] == events[..j];
      }
      StepKeepsLedger(y, p, e);
      LastEventRecords(p, events);
    }
  }

  lemma EmptyLedger(p: Setup)
    ensures Recorded(Run(p, []), p) == []
  {
  }

  lemma LastEventRecords(p: Setup, events: seq<Event>)
    requires events != []
    ensures var n := |events| - 1;
            var y := Run(p, events[..n]);
            Cancelled in Recorded(Run(p, events), p) ==> Cancelled in Recorded(y, p) || RecordsCancelAt(p, events, n)
    ensures RecordsCancelAt(p, events, |events| - 1) ==> Cancelled in Recorded(Run(p, events), p)
  {
    hide Ledger, Refines, CancelledAt, StepReconcile, Polled;
    var n := |events| - 1;
    var init, e := events[..n], events[n];
    var y := Run(p, init);
    EveryRunRefines(p, init);
    if RecordsCancelAt(p, events, n) {
      var i: nat :| CancelledAt(p, init, i);
      CancelledIsHeld(p, init, i);
      ReconcileRefines(y, p, e.cut);
    } else if Cancelled in Recorded(Run(p, events), p) && Cancelled !in Recorded(y, p) {
      match e
      case Start(crash) => NothingStarted(y, p, crash);
      case Reconcile(cut) =>
        ReconcileRefines(y, p, cut);
        NeverCancelled(p, |Recorded(y, p)| + 1);
        assert HoldsCancelled(y);
        NotEnded(y, p);
        HeldIsCancelled(p, init);
      case Cancel =>
      case CrashNow =>
    }
  }

  lemma NothingStarted(y: System, p: Setup, crash: bool)
    requires Refines(y, p)
    ensures Recorded(StepStart(y, p, crash), p) == Recorded(y, p)
  {
    hide StoreOk, Ledger;
    StartRefines(y, p, crash);
  }

  lemma NotEnded(y: System, p: Setup)
    requires Refines(y, p) && HoldsCancelled(y) && !Stuck(y, p) && Cancelled !in Recorded(y, p)
    ensures !Terminal(LastRecorded(y, p))
  {
    hide StoreOk, Ledger;
  }

  lemma {:induction false} RunContinues(p: Setup, before: seq<Event>, e: Event)
    ensures Run(p, before + [e]) == Step(Run(p, before), p, e)
  {
    assert (before + [e])[..|before|] == before;
  }

  /** A confirmed cancel whose process dies is forgotten: whatever follows, short of another cancel, never records it. */
  lemma CancelDoesNotSurviveACrash(p: Setup, before: seq<Event>, after: seq<Event>)
    requires Cancelled !in Recorded(Run(p, before), p) && Cancel !in after
    ensures Cancelled !in Recorded(Run(p, before + [Cancel, CrashNow] + after), p)
  {
    hide Recorded, Run, CancelledAt;
    var events := before + [Cancel, CrashNow] + after;
    LedgerRecordsCancelIff(p, before);
    LedgerRecordsCancelIff(p, events);
    forall j: nat | j < |events| ensures !RecordsCancelAt(p, events, j) {
      if j < |before| {
        assert events[..j] == before[..j] && events[j] == before[j];
        assert !RecordsCancelAt(p, before, j);
      } else {
        NoneHoldsOn(p, before, after, j);
      }
    }
  }

  lemma NoneHoldsOn(p: Setup, before: seq<Event>, after: seq<Event>, j: nat)
    requires Cancel !in after && |before| <= j < |before| + 2 + |after|
    ensures !RecordsCancelAt(p, before + [Cancel, CrashNow] + after, j)
  {
    var events := before + [Cancel, CrashNow] + after;
    assert events[|before|] == Cancel && events[|before| + 1] == CrashNow;
    forall i: nat | |before| + 1 < j ensures !CancelledAt(p, events[..j], i) {
      assert events[..j][|before| + 1] == CrashNow;
      if |before| + 1 < i < j { assert events[..j][i] == after[i - |before| - 2]; }
    }
  }

  /** Such a run: the cancel is confirmed, and the next process records the first status of the scenario. */
  lemma ForgottenCancel(p: Setup)
    ensures var before := [Start(false)];
            var events := before + [Cancel, CrashNow] + [Reconcile(AfterSnapshot)];
            && Confirms(Run(p, before), p)
            && Recorded(Run(p, events), p) == [NthStatus(p.scenario, 1)] && !NthStatus(p.scenario, 1).Cancelled?
  {
    hide StepReconcile, Ledger, StoreOk;
    var before := [Start(false)];
    Started(p);
    var y := Run(p, before);
    RunContinues(p, before, Cancel);
    RunContinues(p, before + [Cancel], CrashNow);
    var lost := Run(p, before + [Cancel] + [CrashNow]);
    assert before + [Cancel] + [CrashNow] == before + [Cancel, CrashNow] + [];
    EveryRunRefines(p, before + [Cancel] + [CrashNow]);
    ReconcileRefines(lost, p, AfterSnapshot);
    RunContinues(p, before + [Cancel] + [CrashNow], Reconcile(AfterSnapshot));
    assert before + [Cancel] + [CrashNow] + [Reconcile(AfterSnapshot)] == before + [Cancel, CrashNow] + [Reconcile(AfterSnapshot)];
    PolledShape(p, 1);
    NeverCancelled(p, 1);
  }

  lemma Started(p: Setup)
    ensures var y := Run(p, [Start(false)]);
            && OperationUri(p.key) in y.store && TerminalUri(p.key) !in y.store && y.memory == Some(Fresh(p)) && Recorded(y, p) == []
  {
    assert [Start(false)][..0] == [];
    assert Run(p, []) == System(map[], None);
  }

  /**
   * A cancel confirmed although the ledger has already ended: the third reconcile dies after recording
   * TIMEOUT, the cancel rebuilds the job as CREATED, and this process can record nothing any more.
   */
  lemma CancelAfterTheEnd(p: Setup, more: seq<Event>)
    requires p.scenario.MockTimeout?
    requires forall e :: e in more ==> Survives(e)
    ensures var before := [Start(false), Reconcile(AfterSnapshot), Reconcile(AfterSnapshot)];
            && Confirms(Run(p, before), p) && LastRecorded(Run(p, before), p) == Timeout
            && Recorded(Run(p, before + [Cancel] + more), p) == [Running, Timeout]
  {
    hide StepReconcile, Ledger, StoreOk, Polled;
    var one, two := [Start(false)] + [Reconcile(AfterSnapshot)], [Start(false)] + [Reconcile(AfterSnapshot)] + [Reconcile(AfterSnapshot)];
    assert two == [Start(false), Reconcile(AfterSnapshot), Reconcile(AfterSnapshot)];
    Started(p);
    RunContinues(p, [Start(false)], Reconcile(AfterSnapshot));
    RunContinues(p, one, Reconcile(AfterSnapshot));
    EveryRunRefines(p, [Start(false)]);
    EveryRunRefines(p, one);
    EveryRunRefines(p, two);
    PolledShape(p, 1);
    PolledShape(p, 2);
    Lifecycle(p.scenario, 1);
    Lifecycle(p.scenario, 2);
    ReconcileRefines(Run(p, [Start(false)]), p, AfterSnapshot);
    NoTerminalRecord(Run(p, [Start(false)]), p);
    ReconcileRefines(Run(p, one), p, AfterSnapshot);
    assert Recorded(Run(p, two), p) == [Running, Timeout];
    NoTerminalRecord(Run(p, one), p);
    RunContinues(p, two, Cancel);
    StaysStuck(p, two + [Cancel], more);
  }

  lemma NoTerminalRecord(y: System, p: Setup)
    requires OperationUri(p.key) in y.store && TerminalUri(p.key) !in y.store && y.store[OperationUri(p.key)].OperationDoc?
    ensures var z := StepReconcile(y, p, AfterSnapshot); TerminalUri(p.key) !in z.store && z.memory.None?
  {
    hide LatestStatus, ValidTransition, Poll;
    forall j: Job { TwoSteps(Alone(y.store), Observe(0, p.context, p.key, j.status), WriteSnapshot(0)); }
  }

  lemma StuckStep(y: System, p: Setup, e: Event)
    requires Refines(y, p) && Stuck(y, p) && OperationUri(p.key) in y.store && Survives(e)
    ensures var z := Step(y, p, e);
            OperationUri(p.key) in z.store && HoldsCancelled(z) && Recorded(z, p) == Recorded(y, p)
  {
    hide StoreOk, Ledger, LatestStatus, StepsUntil, Steps;
    if e.Reconcile? { ReconcileRefines(y, p, e.cut); }
  }

  lemma {:induction false} StaysStuck(p: Setup, events: seq<Event>, more: seq<Event>)
    requires Stuck(Run(p, events), p) && OperationUri(p.key) in Run(p, events).store
    requires forall e :: e in more ==> Survives(e)
    ensures Stuck(Run(p, events + more), p) && Recorded(Run(p, events + more), p) == Recorded(Run(p, events), p)
    ensures OperationUri(p.key) in Run(p, events + more).store
    decreases |more|
  {
    hide Recorded, Run, Step, Refines;
    if more == [] {
      assert events + more == events;
    } else {
      var n := |more| - 1;
      StaysStuck(p, events, more[..n]);
      assert events + more == (events + more[..n]) + [more[n]];
      RunContinues(p, events + more[..n], more[n]);
      EveryRunRefines(p, events + more[..n]);
      StuckStep(Run(p, events + more[..n]), p, more[n]);
    }
  }
}
