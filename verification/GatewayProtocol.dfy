/**
 * The Gateway run protocol as interleaved atomic steps (`gateway/service.py` over the repository and
 * the independent grant database). Any number of callers take part; any of them may die between two
 * of its steps; an operator issues and recovers grants at any time.
 */
module GatewayProtocol {
  import opened GatewayModels
  import opened GatewayRepository
  import opened Authorization
  import opened Wrappers

  /** Where one caller stands between two atomic steps. */
  datatype Thread =
    | Starting(record: Record)
    | StartReturned(record: Record, transition: Transition)
    | Authorizing(record: Record, action: Action)
    | Acting(record: Record, action: Action)
    | ActReturned(record: Record, transition: Transition)

  /** What happened, in order. */
  datatype Effect =
    | StartCalled(runId: RunId)
    | ActCalled(binding: Binding)
    | Authorized(binding: Binding)
    | Recovered(binding: Binding, reference: string)
    | Committed(runId: RunId, revision: nat)

  datatype World = World(repo: Repo, grants: Grants, threads: map<nat, Thread>, log: seq<Effect>)

  datatype Event =
    | Submit(t: nat, request: Request)
    | CallStart(t: nat, reply: Reply)
    | ReadForAct(t: nat, runId: RunId, action: Action)
    | Consume(t: nat)
    | CallAct(t: nat, reply: Reply)
    | Commit(t: nat)
    | GrantIssued(binding: Binding, reference: string)
    | GrantRecovered(binding: Binding, reference: string)
    | Crash(t: nat)

  const INITIAL := World(EMPTY, map[], map[], [])

  function InitialRecord(r: Request): Record {
    Record(OfSubmission(r.submissionId), r, RequestSha(r), Running(0, "inspiration submission accepted"), 0)
  }

  function BindingOf(record: Record, action: Action): Binding
    requires record.state.InteractionRequired?
  {
    Binding(record.runId, record.state.interaction, record.requestSha, action)
  }

  /** The checks of `materials_run_act` before it asks for authority. */
  predicate MayAct(record: Record, action: Action) {
    && record.state.InteractionRequired?
    && action.id == record.state.interaction.id
    && record.state.interaction.Allows(action)
  }

  function Replacement(record: Record, t: Transition): Record {
    record.(state := t.state, revision := record.revision + 1)
  }

  function Forget(w: World, t: nat): World { w.(threads := w.threads - {t}) }

  function ApplySubmit(w: World, t: nat, request: Request): World {
    if t in w.threads then w
    else
      var (repo, stored, created) := CreateOrGet(w.repo, InitialRecord(request));
      if created then w.(repo := repo, threads := w.threads[t := Starting(stored)]) else w
  }

  function ApplyCallStart(w: World, t: nat, reply: Reply): World {
    if t in w.threads && w.threads[t].Starting? then
      var r := w.threads[t].record;
      w.(threads := w.threads[t := StartReturned(r, Settle(reply, r.runId, r.request, None))],
         log := w.log + [StartCalled(r.runId)])
    else w
  }

  function ApplyRead(w: World, t: nat, id: RunId, action: Action): World {
    if t !in w.threads && id in w.repo.runs && MayAct(w.repo.runs[id], action) then
      w.(threads := w.threads[t := Authorizing(w.repo.runs[id], action)])
    else w
  }

  function ApplyConsume(w: World, t: nat): World {
    if t in w.threads && w.threads[t].Authorizing? && MayAct(w.threads[t].record, w.threads[t].action) then
      var Authorizing(r, a) := w.threads[t];
      var b := BindingOf(r, a);
      if Authorize(w.grants, b).Ok? then
        World(w.repo, Authorize(w.grants, b).value, w.threads[t := Acting(r, a)], w.log + [Authorized(b)])
      else Forget(w, t)
    else w
  }

  function ApplyCallAct(w: World, t: nat, reply: Reply): World {
    if t in w.threads && w.threads[t].Acting? && MayAct(w.threads[t].record, w.threads[t].action) then
      var Acting(r, a) := w.threads[t];
      w.(threads := w.threads[t := ActReturned(r, Settle(reply, r.runId, r.request, Some(r.state.interaction.id)))],
         log := w.log + [ActCalled(BindingOf(r, a))])
    else w
  }

  function ApplyCommit(w: World, t: nat): World {
    if t in w.threads && (w.threads[t].StartReturned? || w.threads[t].ActReturned?) then
      var r, tr := w.threads[t].record, w.threads[t].transition;
      if MayReplace(w.repo, Replacement(r, tr), r.revision, tr.result) then
        World(Replaced(w.repo, Replacement(r, tr), tr.result), w.grants, w.threads - {t},
              w.log + [Committed(r.runId, r.revision + 1)])
      else Forget(w, t)
    else w
  }

  function ApplyIssue(w: World, b: Binding, reference: string): World {
    w.(grants := After(w.grants, Issue(w.grants, b, reference)))
  }

  function ApplyRecover(w: World, b: Binding, reference: string): World {
    if Recover(w.grants, b, reference).Ok? then
      w.(grants := Recover(w.grants, b, reference).value, log := w.log + [Recovered(b, reference)])
    else w
  }

  function Apply(w: World, e: Event): World {
    match e
    case Submit(t, request) => ApplySubmit(w, t, request)
    case CallStart(t, reply) => ApplyCallStart(w, t, reply)
    case ReadForAct(t, id, action) => ApplyRead(w, t, id, action)
    case Consume(t) => ApplyConsume(w, t)
    case CallAct(t, reply) => ApplyCallAct(w, t, reply)
    case Commit(t) => ApplyCommit(w, t)
    case GrantIssued(b, reference) => ApplyIssue(w, b, reference)
    case GrantRecovered(b, reference) => ApplyRecover(w, b, reference)
    case Crash(t) => Forget(w, t)
  }

  function Run(w: World, events: seq<Event>): World {
    if events == [] then w else Apply(Run(w, events[..|events| - 1]), events[|events| - 1])
  }

  // ---- runs and callers ------------------------------------------------------------------

  /** A caller's snapshot is the current record of its run, or the run has moved on since. */
  ghost predicate SnapshotOk(repo: Repo, r: Record) {
    && r.runId in repo.runs
    && r.request == repo.runs[r.runId].request && r.requestSha == repo.runs[r.runId].requestSha
    && r.revision <= repo.runs[r.runId].revision
    && (r.revision == repo.runs[r.runId].revision ==> r == repo.runs[r.runId])
  }

  ghost predicate TransitionOk(r: Record, t: Transition) {
    && Bound(r.runId, t.state, t.result)
    && (t.result.Some? ==> t.result.value.reportUri == ReportOf(r.runId) && WithinBudget(t.result.value, r.request.constraints))
  }

  ghost predicate ThreadOk(repo: Repo, th: Thread) {
    && SnapshotOk(repo, th.record)
    && match th
       case Starting(r) => r.revision == 0 && r.state.Running?
       case StartReturned(r, t) => r.revision == 0 && r.state.Running? && TransitionOk(r, t)
       case Authorizing(r, a) => MayAct(r, a)
       case Acting(r, a) => MayAct(r, a)
       case ActReturned(r, t) => r.state.InteractionRequired? && TransitionOk(r, t)
  }

  /** A result is stored exactly for the runs that succeeded or partly succeeded, and matches them. */
  ghost predicate ResultsMatch(repo: Repo) {
    && RepoValid(repo)
    && (forall id :: id in repo.runs ==> (id in repo.results <==> repo.runs[id].state.Succeeded? || repo.runs[id].state.Partial?))
    && forall id :: id in repo.results ==>
         repo.results[id].reportUri == ReportOf(id) && WithinBudget(repo.results[id], repo.runs[id].request.constraints)
  }

  ghost predicate RunsOk(w: World) {
    && ResultsMatch(w.repo)
    && forall t :: t in w.threads ==> ThreadOk(w.repo, w.threads[t])
  }

  lemma CommitKeepsRuns(w: World, t: nat)
    requires RunsOk(w) && t in w.threads && (w.threads[t].StartReturned? || w.threads[t].ActReturned?)
    ensures RunsOk(ApplyCommit(w, t))
  {
    var r, tr := w.threads[t].record, w.threads[t].transition;
    var z := ApplyCommit(w, t);
    assert ThreadOk(w.repo, w.threads[t]) && SnapshotOk(w.repo, r) && TransitionOk(r, tr);
    hide TransitionOk, SnapshotOk, ResultsMatch, Bound;
    if MayReplace(w.repo, Replacement(r, tr), r.revision, tr.result) {
      ReplacedMatches(w.repo, r, tr);
      forall u | u in z.threads ensures ThreadOk(z.repo, z.threads[u]) {
        assert ThreadOk(w.repo, w.threads[u]);
      }
    }
    hide ThreadOk;
  }

  lemma ReplacedMatches(repo: Repo, r: Record, tr: Transition)
    requires ResultsMatch(repo) && SnapshotOk(repo, r) && TransitionOk(r, tr)
    requires MayReplace(repo, Replacement(r, tr), r.revision, tr.result)
    ensures ResultsMatch(Replaced(repo, Replacement(r, tr), tr.result))
  {
    hide WithinBudget;
    ReplaceKeepsValid(repo, Replacement(r, tr), r.revision, tr.result);
    hide RepoValid;
  }

  lemma ThreadPut(w: World, t: nat, th: Thread, z: World)
    requires RunsOk(w) && ThreadOk(w.repo, th)
    requires z.repo == w.repo && z.threads == w.threads[t := th]
    ensures RunsOk(z)
  {
    hide ThreadOk, ResultsMatch;
  }

  lemma ThreadDrop(w: World, t: nat, z: World)
    requires RunsOk(w) && z.repo == w.repo && z.threads == w.threads - {t}
    ensures RunsOk(z)
  {
    hide ThreadOk, ResultsMatch;
  }

  lemma ThreadKnown(w: World, t: nat)
    requires RunsOk(w) && t in w.threads
    ensures ThreadOk(w.repo, w.threads[t])
  {
  }

  lemma CallStartKeepsRuns(w: World, t: nat, reply: Reply)
    requires RunsOk(w)
    ensures RunsOk(ApplyCallStart(w, t, reply))
  {
    hide RunsOk, Settle, WithinBudget, Bound;
    if t in w.threads && w.threads[t].Starting? {
      ThreadKnown(w, t);
      var r := w.threads[t].record;
      SettledIsSafe(reply, r.runId, r.request, None);
      SettledOk(r, Settle(reply, r.runId, r.request, None));
      hide TransitionOk, SnapshotOk;
      ThreadPut(w, t, StartReturned(r, Settle(reply, r.runId, r.request, None)), ApplyCallStart(w, t, reply));
    }
  }

  lemma CallActKeepsRuns(w: World, t: nat, reply: Reply)
    requires RunsOk(w)
    ensures RunsOk(ApplyCallAct(w, t, reply))
  {
    hide RunsOk, Settle, WithinBudget, Bound;
    if t in w.threads && w.threads[t].Acting? {
      ThreadKnown(w, t);
      var r := w.threads[t].record;
      var previous := Some(r.state.interaction.id);
      SettledIsSafe(reply, r.runId, r.request, previous);
      SettledOk(r, Settle(reply, r.runId, r.request, previous));
      hide TransitionOk, SnapshotOk;
      ThreadPut(w, t, ActReturned(r, Settle(reply, r.runId, r.request, previous)), ApplyCallAct(w, t, reply));
    }
  }

  lemma ReadKeepsRuns(w: World, t: nat, id: RunId, action: Action)
    requires RunsOk(w)
    ensures RunsOk(ApplyRead(w, t, id, action))
  {
    if t !in w.threads && id in w.repo.runs && MayAct(w.repo.runs[id], action) {
      assert w.repo.runs[id].runId == id;
      hide RunsOk, MayAct;
      ThreadPut(w, t, Authorizing(w.repo.runs[id], action), ApplyRead(w, t, id, action));
    }
  }

  lemma ConsumeKeepsRuns(w: World, t: nat)
    requires RunsOk(w)
    ensures RunsOk(ApplyConsume(w, t))
  {
    hide RunsOk, Authorize, SnapshotOk;
    if t in w.threads && w.threads[t].Authorizing? && MayAct(w.threads[t].record, w.threads[t].action) {
      ThreadKnown(w, t);
      var Authorizing(r, a) := w.threads[t];
      if Authorize(w.grants, BindingOf(r, a)).Ok? {
        ThreadPut(w, t, Acting(r, a), ApplyConsume(w, t));
      } else {
        ThreadDrop(w, t, ApplyConsume(w, t));
      }
    }
  }

  lemma GrantsDoNotMatter(w: World, z: World)
    requires RunsOk(w) && z.repo == w.repo && z.threads == w.threads
    ensures RunsOk(z)
  {
    hide ThreadOk, ResultsMatch;
  }

  lemma StepKeepsRuns(w: World, e: Event)
    requires RunsOk(w)
    ensures RunsOk(Apply(w, e))
  {
    hide RunsOk, ApplySubmit, ApplyCallStart, ApplyRead, ApplyConsume, ApplyCallAct, Issue, Recover;
    match e
    case Submit(t, request) => SubmitKeepsRuns(w, t, request);
    case CallStart(t, reply) => CallStartKeepsRuns(w, t, reply);
    case ReadForAct(t, id, action) => ReadKeepsRuns(w, t, id, action);
    case Consume(t) => ConsumeKeepsRuns(w, t);
    case CallAct(t, reply) => CallActKeepsRuns(w, t, reply);
    case Commit(t) =>
      hide MayReplace;
      if t in w.threads && (w.threads[t].StartReturned? || w.threads[t].ActReturned?) { CommitKeepsRuns(w, t); }
    case GrantIssued(b, reference) => GrantsDoNotMatter(w, ApplyIssue(w, b, reference));
    case GrantRecovered(b, reference) => GrantsDoNotMatter(w, ApplyRecover(w, b, reference));
    case Crash(t) => ThreadDrop(w, t, Forget(w, t));
  }

  lemma SettledOk(r: Record, t: Transition)
    requires Bound(r.runId, t.state, t.result)
    requires t.result.Some? ==> t.state.reportUri == ReportOf(r.runId) && WithinBudget(t.result.value, r.request.constraints)
    ensures TransitionOk(r, t)
  {
  }

  lemma CreatedMatches(repo: Repo, request: Request)
    requires ResultsMatch(repo)
    ensures ResultsMatch(CreateOrGet(repo, InitialRecord(request)).0)
  {
    hide WithinBudget;
    CreateKeepsValid(repo, InitialRecord(request));
  }

  lemma SubmitKeepsRuns(w: World, t: nat, request: Request)
    requires RunsOk(w)
    ensures RunsOk(ApplySubmit(w, t, request))
  {
    var z := ApplySubmit(w, t, request);
    CreatedMatches(w.repo, request);
    hide ResultsMatch, TransitionOk, MayAct;
    forall u | u in w.threads ensures ThreadOk(z.repo, w.threads[u]) {
      assert ThreadOk(w.repo, w.threads[u]);
      ThreadStays(w, t, request, w.threads[u]);
    }
    assert t in z.threads && t !in w.threads ==> ThreadOk(z.repo, z.threads[t]);
    hide ThreadOk;
  }

  lemma ThreadStays(w: World, t: nat, request: Request, th: Thread)
    requires ThreadOk(w.repo, th)
    ensures ThreadOk(ApplySubmit(w, t, request).repo, th)
  {
    hide TransitionOk, MayAct;
  }

  // ---- what no step can change -------------------------------------------------------------

  /** Nobody can move this run any more: it waits for no interaction and no caller holds its current record. */
  ghost predicate Settled(w: World, id: RunId) {
    && id in w.repo.runs && !w.repo.runs[id].state.InteractionRequired?
    && forall t :: t in w.threads ==> w.threads[t].record != w.repo.runs[id]
  }

  ghost predicate SameRun(v: World, w: World, id: RunId) {
    && id in v.repo.runs && id in w.repo.runs && v.repo.runs[id] == w.repo.runs[id]
    && GetResult(v.repo, id) == GetResult(w.repo, id)
  }

  lemma StepKeepsSettled(w: World, e: Event, id: RunId)
    requires RunsOk(w) && Settled(w, id)
    ensures Settled(Apply(w, e), id) && SameRun(w, Apply(w, e), id)
  {
    hide Settled, SameRun;
    match e
    case Submit(t, request) => SubmitKeepsSettled(w, t, request, id);
    case Commit(t) => CommitKeepsSettled(w, t, id);
    case _ => OthersKeepSettled(w, e, id);
  }

  lemma SubmitKeepsSettled(w: World, t: nat, request: Request, id: RunId)
    requires RunsOk(w) && Settled(w, id)
    ensures Settled(ApplySubmit(w, t, request), id) && SameRun(w, ApplySubmit(w, t, request), id)
  {
    assert w.repo.runs[id].runId == id;
    hide RunsOk;
  }

  lemma OthersKeepSettled(w: World, e: Event, id: RunId)
    requires Settled(w, id) && !e.Submit? && !e.Commit?
    ensures Settled(Apply(w, e), id) && SameRun(w, Apply(w, e), id)
  {
    hide Settle, Authorize, Issue, Recover;
  }

  lemma CommitKeepsSettled(w: World, t: nat, id: RunId)
    requires RunsOk(w) && Settled(w, id)
    ensures Settled(ApplyCommit(w, t), id) && SameRun(w, ApplyCommit(w, t), id)
  {
    if t in w.threads { ThreadKnown(w, t); }
    hide RunsOk, TransitionOk, Bound, MayAct;
  }

  /** One step advances the revision of a run by at most one and never touches its request. */
  ghost predicate Advances(v: World, w: World, id: RunId)
    requires id in v.repo.runs
  {
    && id in w.repo.runs
    && w.repo.runs[id].request == v.repo.runs[id].request && w.repo.runs[id].requestSha == v.repo.runs[id].requestSha
    && (w.repo.runs[id] == v.repo.runs[id] || w.repo.runs[id].revision == v.repo.runs[id].revision + 1)
  }

  lemma StepAdvances(w: World, e: Event, id: RunId)
    requires id in w.repo.runs
    ensures Advances(w, Apply(w, e), id)
  {
  }

  // ---- counting what happened --------------------------------------------------------------

  function Count(log: seq<Effect>, e: Effect): nat {
    if log == [] then 0 else Count(log[..|log| - 1], e) + (if log[|log| - 1] == e then 1 else 0)
  }

  lemma CountPush(log: seq<Effect>, x: Effect, e: Effect)
    ensures Count(log + [x], e) == Count(log, e) + (if x == e then 1 else 0)
  {
    assert (log + [x])[..|log|] == log;
  }

  function RecoveredRefs(log: seq<Effect>, b: Binding): seq<string> {
    if log == [] then []
    else
      var e := log[|log| - 1];
      RecoveredRefs(log[..|log| - 1], b) + (if e.Recovered? && e.binding == b then [e.reference] else [])
  }

  lemma RecoveredRefsPush(log: seq<Effect>, x: Effect, b: Binding)
    ensures RecoveredRefs(log + [x], b) ==
            RecoveredRefs(log, b) + (if x.Recovered? && x.binding == b then [x.reference] else [])
  {
    assert (log + [x])[..|log|] == log;
  }

  function Commits(log: seq<Effect>, id: RunId): seq<nat> {
    if log == [] then []
    else
      var e := log[|log| - 1];
      Commits(log[..|log| - 1], id) + (if e.Committed? && e.runId == id then [e.revision] else [])
  }

  lemma CommitsPush(log: seq<Effect>, x: Effect, id: RunId)
    ensures Commits(log + [x], id) == Commits(log, id) + (if x.Committed? && x.runId == id then [x.revision] else [])
  {
    assert (log + [x])[..|log|] == log;
  }

  function UpTo(n: nat): seq<nat> { if n == 0 then [] else UpTo(n - 1) + [n] }

  /** Every revision of every run was committed once, in order, with no gap. */
  ghost predicate CommitsOk(w: World) {
    forall id :: Commits(w.log, id) == (if id in w.repo.runs then UpTo(w.repo.runs[id].revision) else [])
  }

  lemma StepKeepsCommits(w: World, e: Event)
    requires CommitsOk(w)
    ensures CommitsOk(Apply(w, e))
  {
    hide Settle, Authorize, Issue, Recover, MayAct, Bound;
    var z := Apply(w, e);
    forall id ensures Commits(z.log, id) == (if id in z.repo.runs then UpTo(z.repo.runs[id].revision) else []) {
      assert Commits(w.log, id) == (if id in w.repo.runs then UpTo(w.repo.runs[id].revision) else []);
      if e.Commit? {
        CommitAppends(w, e.t, id);
      } else {
        OtherStepsCommitNothing(w, e, id);
      }
    }
  }

  lemma CommitAppends(w: World, t: nat, id: RunId)
    requires Commits(w.log, id) == (if id in w.repo.runs then UpTo(w.repo.runs[id].revision) else [])
    ensures var z := ApplyCommit(w, t);
            Commits(z.log, id) == (if id in z.repo.runs then UpTo(z.repo.runs[id].revision) else [])
  {
    var z := ApplyCommit(w, t);
    CommitLogs(w, t);
    hide ApplyCommit, Commits;
    if z.log != w.log {
      var r := w.threads[t].record;
      CommitsPush(w.log, Committed(r.runId, r.revision + 1), id);
      assert id == r.runId ==> UpTo(r.revision + 1) == UpTo(r.revision) + [r.revision + 1];
      hide UpTo;
    }
  }

  /** A commit either changes no run and is not logged, or moves its run one revision on. */
  lemma CommitLogs(w: World, t: nat)
    ensures var z := ApplyCommit(w, t);
            || (z.log == w.log && z.repo.runs == w.repo.runs)
            || (&& t in w.threads && (w.threads[t].StartReturned? || w.threads[t].ActReturned?)
                && var r := w.threads[t].record;
                   && r.runId in w.repo.runs && w.repo.runs[r.runId].revision == r.revision
                   && z.log == w.log + [Committed(r.runId, r.revision + 1)]
                   && z.repo.runs == w.repo.runs[r.runId := Replacement(r, w.threads[t].transition)])
  {
    hide Bound;
  }

  lemma OtherStepsCommitNothing(w: World, e: Event, id: RunId)
    requires !e.Commit?
    ensures Commits(Apply(w, e).log, id) == Commits(w.log, id)
    ensures id in w.repo.runs ==> id in Apply(w, e).repo.runs && Apply(w, e).repo.runs[id] == w.repo.runs[id]
    ensures id !in w.repo.runs && id in Apply(w, e).repo.runs ==> Apply(w, e).repo.runs[id].revision == 0
  {
    hide Settle, Authorize, Issue, Recover, MayAct, Commits;
    var z := Apply(w, e);
    if |z.log| > |w.log| {
      CommitsPush(w.log, z.log[|w.log|], id);
    }
  }

  /** Callers that created the run and have not called the companion yet. */
  function StartPending(w: World, id: RunId): set<nat> {
    set t | t in w.threads && w.threads[t].Starting? && w.threads[t].record.runId == id
  }

  /** `companion.start` has been called at most once, and there is at most one caller that may still do it. */
  ghost predicate StartsOk(w: World) {
    forall id :: Count(w.log, StartCalled(id)) + |StartPending(w, id)| <= (if id in w.repo.runs then 1 else 0)
  }

  lemma StepKeepsStarts(w: World, e: Event)
    requires StartsOk(w)
    ensures StartsOk(Apply(w, e))
  {
    hide Apply, Count, StartPending;
    var z := Apply(w, e);
    forall id ensures Count(z.log, StartCalled(id)) + |StartPending(z, id)| <= (if id in z.repo.runs then 1 else 0) {
      assert Count(w.log, StartCalled(id)) + |StartPending(w, id)| <= (if id in w.repo.runs then 1 else 0);
      StartStep(w, e, id);
    }
  }

  /** Only an accepted submission adds a caller that may start, and a start uses one up. */
  lemma StartStep(w: World, e: Event, id: RunId)
    ensures var z := Apply(w, e);
            && (id in w.repo.runs ==> id in z.repo.runs)
            && Count(z.log, StartCalled(id)) + |StartPending(z, id)| <=
                 Count(w.log, StartCalled(id)) + |StartPending(w, id)| + (if id in z.repo.runs && id !in w.repo.runs then 1 else 0)
  {
    hide Count, StartPending;
    match e
    case Submit(t, request) => SubmitPending(w, t, request, id);
    case CallStart(t, reply) => CallStartPending(w, t, reply, id);
    case _ => OtherPending(w, e, id);
  }

  lemma SubmitPending(w: World, t: nat, request: Request, id: RunId)
    ensures var z := ApplySubmit(w, t, request);
            z.log == w.log && |StartPending(z, id)| <= |StartPending(w, id)| + (if id in z.repo.runs && id !in w.repo.runs then 1 else 0)
  {
    var a, b := StartPending(w, id), StartPending(ApplySubmit(w, t, request), id);
    if id == OfSubmission(request.submissionId) { assert b <= a + {t}; Smaller(b, a + {t}); }
    if b <= a { Smaller(b, a); }
  }

  lemma CallStartPending(w: World, t: nat, reply: Reply, id: RunId)
    ensures var z := ApplyCallStart(w, t, reply);
            Count(z.log, StartCalled(id)) + |StartPending(z, id)| <= Count(w.log, StartCalled(id)) + |StartPending(w, id)|
  {
    hide Settle, Count;
    var a, b := StartPending(w, id), StartPending(ApplyCallStart(w, t, reply), id);
    if t in w.threads && w.threads[t].Starting? {
      CountPush(w.log, StartCalled(w.threads[t].record.runId), StartCalled(id));
      if t in a { assert b <= a - {t}; Smaller(b, a - {t}); } else { assert b <= a; Smaller(b, a); }
    }
  }

  lemma OtherPending(w: World, e: Event, id: RunId)
    requires !e.Submit? && !e.CallStart?
    ensures Count(Apply(w, e).log, StartCalled(id)) == Count(w.log, StartCalled(id))
    ensures |StartPending(Apply(w, e), id)| <= |StartPending(w, id)|
    ensures id in w.repo.runs ==> id in Apply(w, e).repo.runs
  {
    hide Settle, Authorize, Issue, Recover, MayAct, MayReplace, Count;
    var z := Apply(w, e);
    if |z.log| > |w.log| { CountPush(w.log, z.log[|w.log|], StartCalled(id)); }
    assert StartPending(z, id) <= StartPending(w, id);
    Smaller(StartPending(z, id), StartPending(w, id));
  }

  lemma Smaller<T>(a: set<T>, b: set<T>)
    requires a <= b
    ensures |a| <= |b|
  {
    var rest := b - a;
    assert b == a + rest;
  }

  // ---- the grant ledger ----------------------------------------------------------------------

  /** Callers whose grant is consumed and whose companion call is still to come. */
  function ActPending(w: World, b: Binding): set<nat> {
    set t | t in w.threads && w.threads[t].Acting? && MayAct(w.threads[t].record, w.threads[t].action)
            && BindingOf(w.threads[t].record, w.threads[t].action) == b
  }

  /**
   * Grant conservation: the authorizations of a binding are its recoveries and its consumed bit, the
   * recoveries are those of the grant in order, and every companion action used up one authorization.
   */
  ghost predicate GrantsOk(w: World) {
    && GrantsValid(w.grants)
    && (forall b :: Count(w.log, Authorized(b)) == Used(w.grants, b))
    && (forall b :: RecoveredRefs(w.log, b) == if b in w.grants then w.grants[b].recovered else [])
    && forall b :: Count(w.log, ActCalled(b)) + |ActPending(w, b)| <= Used(w.grants, b)
  }

  lemma StepKeepsGrants(w: World, e: Event)
    requires GrantsOk(w)
    ensures GrantsOk(Apply(w, e))
  {
    hide Apply, Used, GrantsValid, ActPending;
    var z := Apply(w, e);
    StepKeepsGrantsValid(w, e);
    forall b
      ensures Count(z.log, Authorized(b)) == Used(z.grants, b)
      ensures RecoveredRefs(z.log, b) == (if b in z.grants then z.grants[b].recovered else [])
      ensures Count(z.log, ActCalled(b)) + |ActPending(z, b)| <= Used(z.grants, b)
    {
      assert Count(w.log, Authorized(b)) == Used(w.grants, b);
      UsedStep(w, e, b);
      RefsStep(w, e, b);
      ActStep(w, e, b);
    }
  }

  lemma StepKeepsGrantsValid(w: World, e: Event)
    requires GrantsValid(w.grants)
    ensures GrantsValid(Apply(w, e).grants)
  {
    hide GrantsValid, Settle, MayReplace;
    match e
    case GrantIssued(b, reference) => IssueAccounts(w.grants, b, reference);
    case GrantRecovered(b, reference) => RecoverAccounts(w.grants, b, reference);
    case Consume(t) =>
      if t in w.threads && w.threads[t].Authorizing? && MayAct(w.threads[t].record, w.threads[t].action) {
        AuthorizeAccounts(w.grants, BindingOf(w.threads[t].record, w.threads[t].action));
      }
    case _ =>
  }

  lemma UsedStep(w: World, e: Event, b: Binding)
    requires GrantsValid(w.grants)
    ensures Used(Apply(w, e).grants, b) - Used(w.grants, b) ==
            Count(Apply(w, e).log, Authorized(b)) - Count(w.log, Authorized(b))
  {
    hide GrantsValid, Settle, MayReplace, Used, Count;
    var z := Apply(w, e);
    if |z.log| > |w.log| { CountPush(w.log, z.log[|w.log|], Authorized(b)); }
    match e
    case GrantIssued(c, reference) => IssueAccounts(w.grants, c, reference);
    case GrantRecovered(c, reference) => RecoverAccounts(w.grants, c, reference);
    case Consume(t) =>
      if t in w.threads && w.threads[t].Authorizing? && MayAct(w.threads[t].record, w.threads[t].action) {
        AuthorizeAccounts(w.grants, BindingOf(w.threads[t].record, w.threads[t].action));
      }
    case _ =>
  }

  lemma RefsStep(w: World, e: Event, b: Binding)
    requires RecoveredRefs(w.log, b) == (if b in w.grants then w.grants[b].recovered else [])
    ensures var z := Apply(w, e);
            RecoveredRefs(z.log, b) == (if b in z.grants then z.grants[b].recovered else [])
  {
    hide Settle, MayReplace, RecoveredRefs, ValidReference, ActionMatches;
    var z := Apply(w, e);
    if |z.log| > |w.log| { RecoveredRefsPush(w.log, z.log[|w.log|], b); }
    match e
    case GrantIssued(c, reference) =>
    case GrantRecovered(c, reference) =>
    case _ => hide Issue, Recover;
  }

  /** A companion action needs a caller that holds an authorization, and uses it up. */
  lemma ActStep(w: World, e: Event, b: Binding)
    ensures var z := Apply(w, e);
            Count(z.log, ActCalled(b)) - Count(w.log, ActCalled(b)) + |ActPending(z, b)| <=
            |ActPending(w, b)| + Count(z.log, Authorized(b)) - Count(w.log, Authorized(b))
  {
    hide Count, ActPending;
    match e
    case Consume(t) => ConsumePending(w, t, b);
    case CallAct(t, reply) => CallActPending(w, t, reply, b);
    case _ => OtherActPending(w, e, b);
  }

  lemma ConsumePending(w: World, t: nat, b: Binding)
    ensures var z := ApplyConsume(w, t);
            && Count(z.log, ActCalled(b)) == Count(w.log, ActCalled(b))
            && |ActPending(z, b)| <= |ActPending(w, b)| + Count(z.log, Authorized(b)) - Count(w.log, Authorized(b))
  {
    hide MayAct, Count, Authorize;
    var z := ApplyConsume(w, t);
    var p, q := ActPending(w, b), ActPending(z, b);
    if |z.log| > |w.log| {
      CountPush(w.log, z.log[|w.log|], ActCalled(b));
      CountPush(w.log, z.log[|w.log|], Authorized(b));
      if z.log[|w.log|] == Authorized(b) { assert q <= p + {t}; Smaller(q, p + {t}); } else { assert q <= p; Smaller(q, p); }
    } else {
      assert q <= p;
      Smaller(q, p);
    }
  }

  lemma CallActPending(w: World, t: nat, reply: Reply, b: Binding)
    ensures var z := ApplyCallAct(w, t, reply);
            && Count(z.log, Authorized(b)) == Count(w.log, Authorized(b))
            && Count(z.log, ActCalled(b)) + |ActPending(z, b)| <= Count(w.log, ActCalled(b)) + |ActPending(w, b)|
  {
    hide Settle, MayAct, Count;
    var z := ApplyCallAct(w, t, reply);
    var p, q := ActPending(w, b), ActPending(z, b);
    if |z.log| > |w.log| {
      CountPush(w.log, z.log[|w.log|], ActCalled(b));
      CountPush(w.log, z.log[|w.log|], Authorized(b));
      if t in p { assert q <= p - {t}; Smaller(q, p - {t}); } else { assert q <= p; Smaller(q, p); }
    }
  }

  lemma OtherActPending(w: World, e: Event, b: Binding)
    requires !e.Consume? && !e.CallAct?
    ensures var z := Apply(w, e);
            && Count(z.log, Authorized(b)) == Count(w.log, Authorized(b)) && Count(z.log, ActCalled(b)) == Count(w.log, ActCalled(b))
            && |ActPending(z, b)| <= |ActPending(w, b)|
  {
    hide Settle, MayReplace, MayAct, Count, Issue, Recover;
    var z := Apply(w, e);
    if |z.log| > |w.log| {
      CountPush(w.log, z.log[|w.log|], ActCalled(b));
      CountPush(w.log, z.log[|w.log|], Authorized(b));
    }
    assert ActPending(z, b) <= ActPending(w, b);
    Smaller(ActPending(z, b), ActPending(w, b));
  }

  // ---- whole runs ------------------------------------------------------------------------------

  ghost predicate Safe(w: World) { RunsOk(w) && CommitsOk(w) && StartsOk(w) && GrantsOk(w) }

  lemma StepIsSafe(w: World, e: Event)
    requires Safe(w)
    ensures Safe(Apply(w, e))
  {
    hide RunsOk, CommitsOk, StartsOk, GrantsOk, Apply;
    StepKeepsRuns(w, e);
    StepKeepsCommits(w, e);
    StepKeepsStarts(w, e);
    StepKeepsGrants(w, e);
  }

  lemma InitialIsSafe()
    ensures Safe(INITIAL)
  {
  }

  lemma {:induction false} EveryRunIsSafe(events: seq<Event>)
    ensures Safe(Run(INITIAL, events))
  {
    hide Safe, Apply;
    if events == [] {
      InitialIsSafe();
    } else {
      EveryRunIsSafe(events[..|events| - 1]);
      StepIsSafe(Run(INITIAL, events[..|events| - 1]), events[|events| - 1]);
    }
  }

  /**
   * Grant conservation over every interleaving: a binding was authorized once per recovery and once
   * more if its grant is consumed now, its companion actions never exceed one plus its recoveries,
   * and no recovery reference was used twice.
   */
  lemma GrantConservation(events: seq<Event>, b: Binding)
    ensures var w := Run(INITIAL, events);
            var recoveries := RecoveredRefs(w.log, b);
            && Count(w.log, Authorized(b)) == |recoveries| + (if b in w.grants && w.grants[b].consumed then 1 else 0)
            && Count(w.log, ActCalled(b)) <= Count(w.log, Authorized(b)) <= |recoveries| + 1
            && (b !in w.grants ==> recoveries == [])
            && DistinctStrings(recoveries)
  {
    hide Apply, RunsOk, CommitsOk, StartsOk, Count, RecoveredRefs, Run;
    EveryRunIsSafe(events);
    var w := Run(INITIAL, events);
    assert Count(w.log, Authorized(b)) == Used(w.grants, b);
    if b in w.grants { assert EntryValid(w.grants[b]); }
  }

  /** Every revision up to the current one was committed exactly once; nothing is committed for an unknown run. */
  lemma OneCommitPerRevision(events: seq<Event>, id: RunId)
    ensures var w := Run(INITIAL, events);
            Commits(w.log, id) == (if id in w.repo.runs then UpTo(w.repo.runs[id].revision) else [])
  {
    hide Apply, RunsOk, GrantsOk, StartsOk, Run;
    EveryRunIsSafe(events);
  }

  lemma {:induction false} UpToCountsOnce(n: nat, k: nat)
    ensures multiset(UpTo(n))[k] == (if 1 <= k <= n then 1 else 0)
  {
    if n > 0 { UpToCountsOnce(n - 1, k); }
  }

  lemma {:induction false} CommitsCount(log: seq<Effect>, id: RunId, k: nat)
    ensures Count(log, Committed(id, k)) == multiset(Commits(log, id))[k]
  {
    if log != [] { CommitsCount(log[..|log| - 1], id, k); }
  }

  /** At most one commit succeeds per revision. */
  lemma AtMostOneCommit(events: seq<Event>, id: RunId, k: nat)
    ensures Count(Run(INITIAL, events).log, Committed(id, k)) <= 1
  {
    var w := Run(INITIAL, events);
    OneCommitPerRevision(events, id);
    CommitsCount(w.log, id, k);
    if id in w.repo.runs { UpToCountsOnce(w.repo.runs[id].revision, k); }
  }

  /** `companion.start` is called at most once per submission, and only for one that was accepted. */
  lemma StartedAtMostOnce(events: seq<Event>, id: RunId)
    ensures var w := Run(INITIAL, events);
            Count(w.log, StartCalled(id)) <= (if id in w.repo.runs then 1 else 0)
  {
    hide Apply, RunsOk, GrantsOk, CommitsOk, Run, Count;
    EveryRunIsSafe(events);
    var w := Run(INITIAL, events);
    assert Count(w.log, StartCalled(id)) + |StartPending(w, id)| <= (if id in w.repo.runs then 1 else 0);
  }

  /** A stored result exists exactly for succeeded and partial runs, and matches URI and both digests. */
  lemma ResultsAreBound(events: seq<Event>, id: RunId)
    ensures var repo := Run(INITIAL, events).repo;
            id in repo.runs ==>
              && (id in repo.results <==> repo.runs[id].state.Succeeded? || repo.runs[id].state.Partial?)
              && (id in repo.results ==>
                    repo.results[id].runId == id && repo.results[id].reportUri == ReportOf(id) &&
                    TerminalReference(repo.runs[id].state) == Some(ReferenceOf(repo.results[id])))
  {
    hide Apply, GrantsOk, CommitsOk, StartsOk, Run;
    EveryRunIsSafe(events);
  }

  lemma {:induction false} SettledForever(before: seq<Event>, after: seq<Event>, id: RunId)
    requires Settled(Run(INITIAL, before), id)
    ensures Settled(Run(INITIAL, before + after), id)
    ensures SameRun(Run(INITIAL, before), Run(INITIAL, before + after), id)
  {
    hide Settled, Apply, GrantsOk, CommitsOk, StartsOk, RunsOk;
    if after == [] {
      assert before + after == before;
      assert SameRun(Run(INITIAL, before), Run(INITIAL, before), id) by { SettledIsKnown(Run(INITIAL, before), id); }
    } else {
      var n := |after| - 1;
      SettledForever(before, after[..n], id);
      EveryRunIsSafe(before + after[..n]);
      assert before + after == (before + after[..n]) + [after[n]];
      StepKeepsSettled(Run(INITIAL, before + after[..n]), after[n], id);
    }
  }

  lemma SettledIsKnown(w: World, id: RunId)
    requires Settled(w, id)
    ensures id in w.repo.runs
  {
  }

  /** A terminal run and its result never change, whatever happens afterwards. */
  lemma TerminalForever(before: seq<Event>, after: seq<Event>, id: RunId)
    requires id in Run(INITIAL, before).repo.runs && Run(INITIAL, before).repo.runs[id].state.Terminal()
    ensures SameRun(Run(INITIAL, before), Run(INITIAL, before + after), id)
  {
    hide Apply, GrantsOk, CommitsOk, StartsOk, Run;
    EveryRunIsSafe(before);
    SettledForever(before, after, id);
  }

  lemma {:induction false} RequestsAreImmutable(before: seq<Event>, after: seq<Event>, id: RunId)
    requires id in Run(INITIAL, before).repo.runs
    ensures var v, w := Run(INITIAL, before), Run(INITIAL, before + after);
            && id in w.repo.runs && w.repo.runs[id].request == v.repo.runs[id].request
            && w.repo.runs[id].requestSha == v.repo.runs[id].requestSha
            && v.repo.runs[id].revision <= w.repo.runs[id].revision <= v.repo.runs[id].revision + |after|
  {
    hide Apply;
    if after == [] {
      assert before + after == before;
    } else {
      var n := |after| - 1;
      RequestsAreImmutable(before, after[..n], id);
      assert before + after == (before + after[..n]) + [after[n]];
      StepAdvances(Run(INITIAL, before + after[..n]), after[n], id);
    }
  }

  /** A caller's commit is refused if and only if the run moved on since the caller read it. */
  lemma CommitFailsOnlyOnRace(events: seq<Event>, t: nat)
    requires t in Run(INITIAL, events).threads
    requires var th := Run(INITIAL, events).threads[t]; th.StartReturned? || th.ActReturned?
    ensures var w := Run(INITIAL, events);
            var r, tr := w.threads[t].record, w.threads[t].transition;
            && r.runId in w.repo.runs
            && (MayReplace(w.repo, Replacement(r, tr), r.revision, tr.result) <==> w.repo.runs[r.runId].revision == r.revision)
  {
    hide Apply, GrantsOk, CommitsOk, StartsOk, Run;
    EveryRunIsSafe(events);
    var w := Run(INITIAL, events);
    assert ThreadOk(w.repo, w.threads[t]);
  }

  /** A caller that dies before its first commit leaves the run RUNNING at revision 0 for good. */
  lemma CrashBeforeFirstCommitStrands(t: nat, request: Request, after: seq<Event>)
    ensures var w := Run(INITIAL, [Submit(t, request), Crash(t)] + after);
            var id := OfSubmission(request.submissionId);
            id in w.repo.runs && w.repo.runs[id] == InitialRecord(request)
  {
    var id := OfSubmission(request.submissionId);
    var before := [Submit(t, request), Crash(t)];
    assert before[..1] == [Submit(t, request)] && before[..1][..0] == [];
    assert Run(INITIAL, before[..1]) == Apply(INITIAL, Submit(t, request));
    var w := Run(INITIAL, before);
    assert w == Apply(Apply(INITIAL, Submit(t, request)), Crash(t));
    assert Settled(w, id);
    SettledForever(before, after, id);
  }

  /** Some caller holds the current record of the run. */
  ghost predicate Held(w: World, id: RunId)
    requires id in w.repo.runs
  {
    exists t :: t in w.threads && w.threads[t].record == w.repo.runs[id]
  }

  /** Some continuation changes the record of the run. */
  ghost predicate CanStillChange(events: seq<Event>, id: RunId)
    requires id in Run(INITIAL, events).repo.runs
  {
    exists after :: var z := Run(INITIAL, events + after); id in z.repo.runs && z.repo.runs[id] != Run(INITIAL, events).repo.runs[id]
  }

  lemma RunContinues(events: seq<Event>, e: Event)
    ensures Run(INITIAL, events + [e]) == Apply(Run(INITIAL, events), e)
  {
    assert (events + [e])[..|events|] == events;
  }

  /** A caller whose call has returned for the current record moves the run by its commit. */
  lemma HolderCommits(events: seq<Event>, t: nat, id: RunId)
    requires id in Run(INITIAL, events).repo.runs
    requires t in Run(INITIAL, events).threads && Run(INITIAL, events).threads[t].record == Run(INITIAL, events).repo.runs[id]
    requires Run(INITIAL, events).threads[t].StartReturned? || Run(INITIAL, events).threads[t].ActReturned?
    ensures var z := Run(INITIAL, events + [Commit(t)]);
            id in z.repo.runs && z.repo.runs[id].revision == Run(INITIAL, events).repo.runs[id].revision + 1
  {
    hide Run, GrantsOk, CommitsOk, StartsOk, MayReplace;
    EveryRunIsSafe(events);
    assert Run(INITIAL, events).repo.runs[id].runId == id;
    CommitFailsOnlyOnRace(events, t);
    RunContinues(events, Commit(t));
  }

  /**
   * A run that is RUNNING can still change, in some continuation, if and only if some caller holds its
   * current record. So a caller that dies before its first commit strands its run exactly when no other
   * caller was given it.
   */
  lemma RunningChangesIffHeld(events: seq<Event>, id: RunId)
    requires id in Run(INITIAL, events).repo.runs && Run(INITIAL, events).repo.runs[id].state.Running?
    ensures CanStillChange(events, id) <==> Held(Run(INITIAL, events), id)
  {
    hide Run, GrantsOk, CommitsOk, StartsOk, Settle;
    var w := Run(INITIAL, events);
    if Held(w, id) {
      var t :| t in w.threads && w.threads[t].record == w.repo.runs[id];
      EveryRunIsSafe(events);
      assert ThreadOk(w.repo, w.threads[t]);
      if w.threads[t].Starting? {
        RunContinues(events, CallStart(t, Raised));
        HolderCommits(events + [CallStart(t, Raised)], t, id);
        assert events + [CallStart(t, Raised)] + [Commit(t)] == events + [CallStart(t, Raised), Commit(t)];
      } else {
        HolderCommits(events, t, id);
      }
    } else {
      forall after ensures SameRun(w, Run(INITIAL, events + after), id) { SettledForever(events, after, id); }
    }
  }
}
