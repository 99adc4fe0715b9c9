/**
 * The offline companion (`gateway/companion.py`) and the Gateway protocol composed with it: the
 * preparer, the runner and the projector may answer anything at any call.
 */
module GatewayOffline {
  import opened GatewayModels
  import opened GatewayRepository
  import opened Authorization
  import opened GatewayProtocol
  import opened Wrappers

  // ---- the companion -----------------------------------------------------------------------

  datatype PrepareReply = PrepareRaised | PrepareInvalid | PrepareReturned(prepared: Prepared)

  datatype StageResult = StageResult(
    runId: RunId, projectId: string, requestId: string, outcome: string, stageResultUriBound: bool,
    reportUri: Uri, reportSha: Digest,
    bundleRunId: RunId, bundleRequestId: string, bundleOutcome: string, bundleCandidates: seq<string>)

  datatype RunnerReply = RunnerRaised | RunnerInvalid | RunnerReturned(stage: StageResult)

  /** `warnings` is non-empty exactly for a PARTIAL projection. */
  datatype ProjectorReply = ProjectorRaised | ProjectorInvalid | ProjectorReturned(result: ResultRecord, warnings: seq<string>)

  /** What the injected collaborators answer during one companion call. */
  datatype Answers = Answers(prepare: PrepareReply, components: seq<string>, runner: RunnerReply, projector: ProjectorReply)

  /** One `runner.run` call, with the action that led to it. */
  datatype RunnerCall = RunnerCall(binding: Binding, request: Request, prepared: Prepared, components: seq<string>)

  function ManifestSha(request: Request, prepared: Prepared, components: seq<string>): Digest {
    OfManifest(Manifest(RequestSha(request), prepared, components))
  }

  /** `_prepare` */
  function Prepare(runId: RunId, a: Answers): Result<Prepared, Reply> {
    match a.prepare
    case PrepareRaised => Err(Reply.Raised)
    case PrepareInvalid => Err(ContractError)
    case PrepareReturned(p) => if p.inputRunId != runId then Err(ContractError) else Ok(p)
  }

  /** `OfflineInspirationCompanionAdapter.start`: freeze and hash the inputs, never run. */
  function CompanionStart(runId: RunId, request: Request, a: Answers): Reply {
    if runId != OfSubmission(request.submissionId) then ContractError
    else
      var p := Prepare(runId, a);
      if p.Err? then p.error
      else if a.components == [] then ContractError
      else
        var sha := ManifestSha(request, p.value, a.components);
        Returned(Transition(InteractionRequired(Approval(OfExecution(runId, sha), RequirementFreeze, "", sha)), None))
  }

  /** The checks of `_execute` on the runner result and its projection. */
  predicate StageAccepted(runId: RunId, prepared: Prepared, s: StageResult) {
    && s.runId == runId && s.bundleRunId == runId
    && s.projectId == prepared.projectId
    && s.requestId == prepared.requestId && s.bundleRequestId == prepared.requestId
    && s.outcome == s.bundleOutcome
    && s.stageResultUriBound
  }

  predicate ProjectionAccepted(runId: RunId, s: StageResult, r: ResultRecord) {
    && r.runId == runId
    && r.outcome == s.bundleOutcome
    && r.candidates == s.bundleCandidates
    && r.reportUri == ReportOf(runId)
    && s.reportUri == r.reportUri && s.reportSha == r.authoritative
  }

  /** `_execute`: the reply, and whether the runner was called and with what. */
  function Execute(runId: RunId, request: Request, a: Answers, expected: Option<Digest>): (Reply, Option<Prepared>) {
    var p := Prepare(runId, a);
    if p.Err? then (p.error, None)
    else if expected.Some? && (a.components == [] || ManifestSha(request, p.value, a.components) != expected.value) then
      (ContractError, None)
    else
      var reply :=
        match a.runner
        case RunnerRaised => Reply.Raised
        case RunnerInvalid => ContractError
        case RunnerReturned(s) =>
          if !StageAccepted(runId, p.value, s) then ContractError
          else
            match a.projector
            case ProjectorRaised => Reply.Raised
            case ProjectorInvalid => ContractError
            case ProjectorReturned(r, warnings) =>
              if !ProjectionAccepted(runId, s, r) then ContractError
              else if warnings == [] then Returned(Transition(Succeeded(r.reportUri, r.authoritative, OfResult(r)), Some(r)))
              else Returned(Transition(Partial(r.reportUri, r.authoritative, OfResult(r), warnings), Some(r)));
      (reply, Some(p.value))
  }

  /** A result that comes out of an execution is the runner's own: same run, project, request, outcome, candidates and report. */
  lemma ExecutionBindsStage(runId: RunId, request: Request, a: Answers, expected: Option<Digest>)
    ensures var (reply, ran) := Execute(runId, request, a, expected);
            reply.Returned? ==>
              && ran.Some? && a.runner.RunnerReturned? && a.projector.ProjectorReturned?
              && var s, r := a.runner.stage, a.projector.result;
                 && reply.transition.result == Some(r) && Bound(runId, reply.transition.state, Some(r))
                 && s.runId == runId && s.projectId == ran.value.projectId && s.requestId == ran.value.requestId
                 && r.candidates == s.bundleCandidates && r.outcome == s.outcome
                 && r.reportUri == s.reportUri == ReportOf(runId) && r.authoritative == s.reportSha
                 && (reply.transition.state.Partial? <==> a.projector.warnings != [])
  {
  }

  /** `OfflineInspirationCompanionAdapter.act` */
  function CompanionAct(record: Record, action: Action, a: Answers): (Reply, Option<Prepared>) {
    if record.runId != OfSubmission(record.request.submissionId) then (ContractError, None)
    else if !record.state.InteractionRequired? then (ContractError, None)
    else
      var i := record.state.interaction;
      if action.id != i.id then (ContractError, None)
      else if action.Cancel? then (Returned(Transition(Cancelled("inspiration run cancelled by user"), None)), None)
      else
        match i
        case Approval(_, _, _, inputSha) =>
          if action.Approve? then Execute(record.runId, record.request, a, Some(inputSha))
          else if action.Reject? then
            (Returned(Transition(Cancelled("inspiration requirement freeze rejected by user"), None)), None)
          else (ContractError, None)
        case Resume(_, _) => if action.ResumeRun? then Execute(record.runId, record.request, a, None) else (ContractError, None)
        case Retry(_, _) => if action.RetryRun? then Execute(record.runId, record.request, a, None) else (ContractError, None)
        case Clarification(_, _) => (ContractError, None)
  }

  // ---- what an approval, a rejection and a start lead to ----------------------------------------

  /** The freshly prepared inputs are those the interaction was hashed over. */
  ghost predicate Approved(record: Record, a: Answers, p: Prepared)
    requires record.state.InteractionRequired? && record.state.interaction.Approval?
  {
    && a.prepare == PrepareReturned(p) && p.inputRunId == record.runId && a.components != []
    && record.state.interaction.inputSha
       == OfManifest(Manifest(OfRequest(record.request.goal, record.request.constraints), p, a.components))
  }

  ghost predicate StageFits(runId: RunId, p: Prepared, s: StageResult) {
    && s.runId == s.bundleRunId == runId && s.projectId == p.projectId
    && s.requestId == s.bundleRequestId == p.requestId && s.outcome == s.bundleOutcome && s.stageResultUriBound
  }

  ghost predicate ProjectionFits(runId: RunId, s: StageResult, r: ResultRecord) {
    && r.runId == runId && r.reportUri == s.reportUri == ReportOf(runId) && r.authoritative == s.reportSha
    && r.outcome == s.bundleOutcome && r.candidates == s.bundleCandidates
  }

  /**
   * An approved run executes exactly when the inputs prepared now are the approved ones, and the reply is
   * the projected result exactly when stage and projection fit: a success without warnings, partial with.
   */
  lemma ApprovalExecutes(record: Record, a: Answers)
    requires record.Valid() && record.state.InteractionRequired? && record.state.interaction.Approval?
    ensures var id := record.runId;
            var (reply, ran) := CompanionAct(record, Approve(record.state.interaction.id), a);
            && (forall p :: ran == Some(p) <==> Approved(record, a, p))
            && (reply.Returned? <==>
                  && ran.Some? && a.runner.RunnerReturned? && StageFits(id, ran.value, a.runner.stage)
                  && a.projector.ProjectorReturned? && ProjectionFits(id, a.runner.stage, a.projector.result))
            && (reply.Returned? ==>
                  var r, warnings := a.projector.result, a.projector.warnings;
                  reply.transition == Transition(
                    if warnings == [] then Succeeded(ReportOf(id), r.authoritative, OfResult(r))
                    else Partial(ReportOf(id), r.authoritative, OfResult(r), warnings), Some(r)))
            && (reply.Raised? <==>
                  || a.prepare.PrepareRaised?
                  || (ran.Some? && a.runner.RunnerRaised?)
                  || (ran.Some? && a.runner.RunnerReturned? && StageFits(id, ran.value, a.runner.stage) && a.projector.ProjectorRaised?))
            && (reply.Returned? || reply.Raised? || reply == ContractError)
  {
  }

  /** Resuming or retrying executes on whatever is prepared now; nothing but cancelling and the matching action is accepted. */
  lemma OtherActions(record: Record, action: Action, a: Answers)
    requires record.Valid() && record.state.InteractionRequired?
    ensures var i, done := record.state.interaction, CompanionAct(record, action, a);
            if action.id != i.id || (i.Clarification? && !action.Cancel?) then done == (ContractError, None)
            else if (i.Resume? && action.ResumeRun?) || (i.Retry? && action.RetryRun?) then
              && done == Execute(record.runId, record.request, a, None)
              && forall p :: done.1 == Some(p) <==> a.prepare == PrepareReturned(p) && p.inputRunId == record.runId
            else action.Cancel? || (i.Approval? && (action.Approve? || action.Reject?)) || done == (ContractError, None)
  {
  }

  /** Under another run ID than the submission's, and without a pending interaction, everything is refused. */
  lemma ForeignRunsRefused(runId: RunId, record: Record, action: Action, a: Answers)
    ensures runId != OfSubmission(record.request.submissionId) ==> CompanionStart(runId, record.request, a) == ContractError
    ensures record.runId != OfSubmission(record.request.submissionId) || !record.state.InteractionRequired? ==>
              CompanionAct(record, action, a) == (ContractError, None)
  {
  }

  /** Cancelling any interaction and rejecting an approval end the run as cancelled; the runner is not called. */
  lemma RefusalCancels(record: Record, action: Action, a: Answers)
    requires record.Valid() && record.state.InteractionRequired? && action.id == record.state.interaction.id
    ensures action.Cancel? ==>
              CompanionAct(record, action, a) == (Returned(Transition(Cancelled("inspiration run cancelled by user"), None)), None)
    ensures action.Reject? && record.state.interaction.Approval? ==>
              CompanionAct(record, action, a)
              == (Returned(Transition(Cancelled("inspiration requirement freeze rejected by user"), None)), None)
  {
  }

  /** A start never runs: it asks for the approval of exactly the inputs it prepared, whenever it could prepare them. */
  lemma StartAsksForApproval(request: Request, a: Answers)
    ensures var id := OfSubmission(request.submissionId);
            var reply := CompanionStart(id, request, a);
            if a.prepare.PrepareReturned? && a.prepare.prepared.inputRunId == id && a.components != [] then
              var sha := OfManifest(Manifest(OfRequest(request.goal, request.constraints), a.prepare.prepared, a.components));
              reply == Returned(Transition(InteractionRequired(Approval(OfExecution(id, sha), RequirementFreeze, "", sha)), None))
            else reply == if a.prepare.PrepareRaised? then Reply.Raised else ContractError
  {
  }

  // ---- the composed system -------------------------------------------------------------------

  /** `approvals` remembers the interaction each run asked for first. */
  datatype Offline = Offline(world: World, calls: seq<RunnerCall>, approvals: map<RunId, Interaction>)

  datatype OfflineEvent =
    | Other(event: Event)
    | StartCall(t: nat, answers: Answers)
    | ActCall(t: nat, answers: Answers)

  const START := Offline(INITIAL, [], map[])

  predicate IsActing(w: World, t: nat) {
    t in w.threads && w.threads[t].Acting? && MayAct(w.threads[t].record, w.threads[t].action)
  }

  /** The protocol step a composed step stands for: companion replies come from the companion. */
  function ToEvent(w: World, e: OfflineEvent): Option<Event> {
    match e
    case Other(event) => if event.CallStart? || event.CallAct? then None else Some(event)
    case StartCall(t, a) =>
      if t in w.threads && w.threads[t].Starting? then
        Some(CallStart(t, CompanionStart(w.threads[t].record.runId, w.threads[t].record.request, a)))
      else None
    case ActCall(t, a) =>
      if IsActing(w, t) then Some(CallAct(t, CompanionAct(w.threads[t].record, w.threads[t].action, a).0)) else None
  }

  function CallsOf(w: World, e: OfflineEvent): seq<RunnerCall> {
    if e.ActCall? && IsActing(w, e.t) then
      var Acting(r, action) := w.threads[e.t];
      var ran := CompanionAct(r, action, e.answers).1;
      if ran.Some? then [RunnerCall(BindingOf(r, action), r.request, ran.value, e.answers.components)] else []
    else []
  }

  function Approvals(repo: Repo): map<RunId, Interaction> {
    map id | id in repo.runs && repo.runs[id].state.InteractionRequired? :: repo.runs[id].state.interaction
  }

  function OfflineApply(o: Offline, e: OfflineEvent): Offline {
    var event := ToEvent(o.world, e);
    if event.None? then o
    else
      var w := Apply(o.world, event.value);
      Offline(w, o.calls + CallsOf(o.world, e), o.approvals + Approvals(w.repo))
  }

  function OfflineRun(events: seq<OfflineEvent>): Offline {
    if events == [] then START else OfflineApply(OfflineRun(events[..|events| - 1]), events[|events| - 1])
  }

  // ---- what holds throughout -----------------------------------------------------------------

  predicate IsFreeze(i: Interaction) { i.Approval? && i.approvalKind.RequirementFreeze? && i.inputSha.OfManifest? }

  /** RUNNING at revision 0, then a requirement-freeze approval or FAILED at 1, then terminal at 2. */
  ghost predicate ShapeOk(r: Record, approvals: map<RunId, Interaction>) {
    && r.revision <= 2
    && (r.revision == 0 ==> r.state.Running? && r.runId !in approvals)
    && (r.revision == 1 ==> r.state.Failed? || (r.state.InteractionRequired? && AskedFor(r, approvals)))
    && (r.revision == 2 ==> r.state.Terminal())
  }

  ghost predicate AskedFor(r: Record, approvals: map<RunId, Interaction>)
    requires r.state.InteractionRequired?
  {
    r.runId in approvals && approvals[r.runId] == r.state.interaction && IsFreeze(r.state.interaction)
  }

  ghost predicate CallerOk(th: Thread, approvals: map<RunId, Interaction>) {
    match th
    case Starting(r) => true
    case StartReturned(r, t) => t.state.Failed? || (t.state.InteractionRequired? && IsFreeze(t.state.interaction))
    case Authorizing(r, _) => r.revision == 1 && r.state.InteractionRequired? && AskedFor(r, approvals)
    case Acting(r, _) => r.revision == 1 && r.state.InteractionRequired? && AskedFor(r, approvals)
    case ActReturned(r, t) => r.revision == 1 && t.state.Terminal()
  }

  /** The runner ran on exactly what the approved interaction hashed. */
  ghost predicate CallOk(c: RunnerCall, approvals: map<RunId, Interaction>) {
    && c.binding.runId in approvals && c.binding.interaction == approvals[c.binding.runId]
    && IsFreeze(c.binding.interaction)
    && c.binding.action == Approve(c.binding.interaction.id)
    && c.binding.requestSha == RequestSha(c.request)
    && c.binding.interaction.inputSha == ManifestSha(c.request, c.prepared, c.components)
    && c.prepared.inputRunId == c.binding.runId
  }

  ghost predicate ShapesOk(o: Offline) {
    && (forall id :: id in o.world.repo.runs ==> ShapeOk(o.world.repo.runs[id], o.approvals))
    && (forall t :: t in o.world.threads ==> CallerOk(o.world.threads[t], o.approvals))
    && (forall id :: id in o.approvals ==> id in o.world.repo.runs)
    && forall c :: c in o.calls ==> CallOk(c, o.approvals)
  }

  lemma SettledStart(r: Record, a: Answers)
    ensures CallerOk(StartReturned(r, Settle(CompanionStart(r.runId, r.request, a), r.runId, r.request, None)), map[])
  {
  }

  lemma SettledAct(r: Record, action: Action, a: Answers, previous: Option<InteractionId>)
    ensures Settle(CompanionAct(r, action, a).0, r.runId, r.request, previous).state.Terminal()
  {
    hide WithinBudget, StageAccepted, ProjectionAccepted;
  }

  /** A runner call made for an approved interaction ran on the inputs the interaction hashed. */
  lemma CallMatchesApproval(o: Offline, e: OfflineEvent)
    requires RunsOk(o.world) && ShapesOk(o)
    ensures forall c :: c in CallsOf(o.world, e) ==> CallOk(c, o.approvals)
  {
    hide StageAccepted, ProjectionAccepted, WithinBudget, ResultsMatch;
    if e.ActCall? && IsActing(o.world, e.t) {
      var th := o.world.threads[e.t];
      assert CallerOk(th, o.approvals) && ThreadOk(o.world.repo, th);
      assert o.world.repo.runs[th.record.runId].Valid() by { ValidRun(o.world, th.record.runId); }
    }
  }

  lemma ValidRun(w: World, id: RunId)
    requires RunsOk(w) && id in w.repo.runs
    ensures w.repo.runs[id].Valid() && w.repo.runs[id].runId == id
  {
  }

  ghost predicate CommittedBy(w: World, e: Event, id: RunId, after: Record) {
    && e.Commit? && e.t in w.threads && (w.threads[e.t].StartReturned? || w.threads[e.t].ActReturned?)
    && id in w.repo.runs && w.threads[e.t].record == w.repo.runs[id]
    && after == Replacement(w.repo.runs[id], w.threads[e.t].transition)
  }

  /** A run is created as submitted, left alone, or moved by a caller that holds its current record. */
  lemma HowRunsChange(w: World, e: Event, id: RunId)
    requires RunsOk(w) && id in Apply(w, e).repo.runs
    ensures var after := Apply(w, e).repo.runs[id];
            || (id in w.repo.runs && after == w.repo.runs[id])
            || (id !in w.repo.runs && after.runId == id && after.revision == 0 && after.state.Running?)
            || CommittedBy(w, e, id, after)
  {
    hide RunsOk, Settle, Bound, Commits;
    match e
    case Commit(t) => if t in w.threads { ThreadKnown(w, t); }
    case Submit(t, request) =>
    case _ => OtherStepsCommitNothing(w, e, id); hide Authorize, Issue, Recover, MayAct;
  }

  lemma RunShape(o: Offline, event: Event, id: RunId)
    requires RunsOk(o.world) && ShapesOk(o) && id in Apply(o.world, event).repo.runs
    ensures var after := Apply(o.world, event).repo.runs[id];
            && after.runId == id
            && (after.state.InteractionRequired? && id in o.approvals ==> after.state.interaction == o.approvals[id])
            && ShapeOk(after, o.approvals + (if after.state.InteractionRequired? then map[id := after.state.interaction] else map[]))
  {
    hide Apply, CallOk, WithinBudget, ResultsMatch;
    HowRunsChange(o.world, event, id);
    if id in o.world.repo.runs {
      ValidRun(o.world, id);
      assert ShapeOk(o.world.repo.runs[id], o.approvals);
    }
    if event.Commit? && event.t in o.world.threads {
      assert ThreadOk(o.world.repo, o.world.threads[event.t]) && CallerOk(o.world.threads[event.t], o.approvals);
    }
  }

  ghost predicate Extends(a: map<RunId, Interaction>, b: map<RunId, Interaction>) {
    forall id :: id in a ==> id in b && b[id] == a[id]
  }

  /** Interactions once asked for are not replaced. */
  lemma ApprovalsGrow(o: Offline, e: OfflineEvent)
    requires RunsOk(o.world) && ShapesOk(o)
    ensures Extends(o.approvals, OfflineApply(o, e).approvals)
  {
    hide CallsOf, Apply, ShapesOk, RunsOk, ShapeOk;
    var event := ToEvent(o.world, e);
    if event.Some? {
      var w := Apply(o.world, event.value);
      forall id | id in o.approvals && id in Approvals(w.repo) ensures Approvals(w.repo)[id] == o.approvals[id] {
        RunShape(o, event.value, id);
      }
    }
  }

  lemma ShapeGrows(r: Record, a: map<RunId, Interaction>, b: map<RunId, Interaction>)
    requires ShapeOk(r, a) && Extends(a, b) && (r.runId in b ==> r.runId in a)
    ensures ShapeOk(r, b)
  {
  }

  lemma RunShapeStep(o: Offline, e: OfflineEvent, id: RunId)
    requires RunsOk(o.world) && ShapesOk(o) && id in OfflineApply(o, e).world.repo.runs
    requires Extends(o.approvals, OfflineApply(o, e).approvals)
    ensures ShapeOk(OfflineApply(o, e).world.repo.runs[id], OfflineApply(o, e).approvals)
  {
    hide CallsOf, Apply, RunsOk, ShapeOk, CallOk, CallerOk;
    var event := ToEvent(o.world, e);
    if event.Some? {
      RunShape(o, event.value, id);
      var after := Apply(o.world, event.value).repo.runs[id];
      var asked := if after.state.InteractionRequired? then map[id := after.state.interaction] else map[];
      ShapeGrows(after, o.approvals + asked, OfflineApply(o, e).approvals);
    }
  }

  lemma CallerGrows(th: Thread, a: map<RunId, Interaction>, b: map<RunId, Interaction>)
    requires CallerOk(th, a) && Extends(a, b)
    ensures CallerOk(th, b)
  {
  }

  lemma CallerStep(o: Offline, e: OfflineEvent, t: nat)
    requires RunsOk(o.world) && ShapesOk(o) && t in OfflineApply(o, e).world.threads
    ensures CallerOk(OfflineApply(o, e).world.threads[t], o.approvals)
  {
    hide CallsOf, TransitionOk, Settle, WithinBudget, CallOk, CompanionStart, CompanionAct, CallerOk, Approvals, Apply;
    match e
    case Other(event) => if !event.CallStart? && !event.CallAct? { CallerStepOther(o, event, t); }
    case _ =>
      hide ShapeOk, RunsOk;
      assert CallerOk(o.world.threads[t], o.approvals) by { CallerWasThere(o, e, t); }
      CallerStepCompanion(o, e, t);
  }

  lemma CallerWasThere(o: Offline, e: OfflineEvent, t: nat)
    requires ShapesOk(o) && !e.Other? && t in OfflineApply(o, e).world.threads
    ensures t in o.world.threads && CallerOk(o.world.threads[t], o.approvals)
  {
    hide CallerOk, Settle, CompanionStart, CompanionAct, CallsOf, Approvals;
  }

  lemma CallerStepCompanion(o: Offline, e: OfflineEvent, t: nat)
    requires !e.Other? && t in o.world.threads && CallerOk(o.world.threads[t], o.approvals)
    ensures t in OfflineApply(o, e).world.threads && CallerOk(OfflineApply(o, e).world.threads[t], o.approvals)
  {
    hide CallsOf, Approvals, Settle, CompanionStart, CompanionAct, AskedFor, IsFreeze;
    var th := o.world.threads[t];
    if e.StartCall? && e.t == t && th.Starting? { SettledStart(th.record, e.answers); }
    if e.ActCall? && e.t == t && IsActing(o.world, t) {
      SettledAct(th.record, th.action, e.answers, Some(th.record.state.interaction.id));
    }
  }

  lemma CallerStepOther(o: Offline, event: Event, t: nat)
    requires RunsOk(o.world) && ShapesOk(o) && !event.CallStart? && !event.CallAct? && t in Apply(o.world, event).threads
    ensures CallerOk(Apply(o.world, event).threads[t], o.approvals)
  {
    hide CallOk, Authorize, Issue, Recover, MayReplace, AskedFor, RunsOk, CreateOrGet, BindingOf, Replaced;
    if t in o.world.threads {
      assert CallerOk(o.world.threads[t], o.approvals);
      hide ShapesOk;
    } else if event.ReadForAct? && event.t == t && event.runId in o.world.repo.runs {
      ValidRun(o.world, event.runId);
      assert ShapeOk(o.world.repo.runs[event.runId], o.approvals);
    }
  }

  lemma OfflineStepKeepsShapes(o: Offline, e: OfflineEvent)
    requires RunsOk(o.world) && ShapesOk(o)
    ensures ShapesOk(OfflineApply(o, e))
  {
    hide Apply, CallOk, CallerOk, ShapeOk, RunsOk, Extends, ToEvent, CallsOf;
    ApprovalsGrow(o, e);
    CallMatchesApproval(o, e);
    var z := OfflineApply(o, e);
    forall id | id in z.world.repo.runs ensures ShapeOk(z.world.repo.runs[id], z.approvals) {
      RunShapeStep(o, e, id);
    }
    forall t | t in z.world.threads ensures CallerOk(z.world.threads[t], z.approvals) {
      CallerStep(o, e, t);
      CallerGrows(z.world.threads[t], o.approvals, z.approvals);
    }
    forall c | c in z.calls ensures CallOk(c, z.approvals) {
      CallOkGrows(c, o.approvals, z.approvals);
    }
    forall id | id in z.approvals ensures id in z.world.repo.runs {
      if id in o.world.repo.runs { RunsStay(o.world, e, id); }
    }
  }

  lemma RunsStay(w: World, e: OfflineEvent, id: RunId)
    requires id in w.repo.runs
    ensures ToEvent(w, e).Some? ==> id in Apply(w, ToEvent(w, e).value).repo.runs
  {
    hide ToEvent;
    if ToEvent(w, e).Some? { StepAdvances(w, ToEvent(w, e).value, id); }
  }

  lemma CallOkGrows(c: RunnerCall, a: map<RunId, Interaction>, b: map<RunId, Interaction>)
    requires CallOk(c, a) && Extends(a, b)
    ensures CallOk(c, b)
  {
  }

  // ---- how often the runner runs -------------------------------------------------------------

  function CallCount(calls: seq<RunnerCall>, b: Binding): nat {
    if calls == [] then 0
    else CallCount(calls[..|calls| - 1], b) + (if calls[|calls| - 1].binding == b then 1 else 0)
  }

  /** Every runner call happened inside one authorized companion action on the same binding. */
  ghost predicate CallsCounted(o: Offline) {
    forall b :: CallCount(o.calls, b) <= Count(o.world.log, ActCalled(b))
  }

  lemma OfflineStepKeepsCounts(o: Offline, e: OfflineEvent)
    requires CallsCounted(o)
    ensures CallsCounted(OfflineApply(o, e))
  {
    hide OfflineApply, CallCount, Count;
    forall b ensures CallCount(OfflineApply(o, e).calls, b) <= Count(OfflineApply(o, e).world.log, ActCalled(b)) {
      assert CallCount(o.calls, b) <= Count(o.world.log, ActCalled(b));
      StepCounts(o, e, b);
    }
  }

  /** A step makes a runner call only as part of a companion action on the same binding. */
  lemma StepCounts(o: Offline, e: OfflineEvent, b: Binding)
    ensures CallCount(OfflineApply(o, e).calls, b) - CallCount(o.calls, b) <=
            Count(OfflineApply(o, e).world.log, ActCalled(b)) - Count(o.world.log, ActCalled(b))
  {
    hide CallCount, Count, Settle, CompanionStart, CompanionAct, MayReplace, Authorize, Issue, Recover, Approvals, MayAct;
    var z := OfflineApply(o, e);
    if |z.world.log| > |o.world.log| { CountPush(o.world.log, z.world.log[|o.world.log|], ActCalled(b)); }
    if |z.calls| > |o.calls| {
      CallCountPush(o.calls, z.calls[|o.calls|], b);
    } else {
      assert z.calls == o.calls;
    }
  }

  lemma CallCountPush(calls: seq<RunnerCall>, c: RunnerCall, b: Binding)
    ensures CallCount(calls + [c], b) == CallCount(calls, b) + (if c.binding == b then 1 else 0)
  {
    assert (calls + [c])[..|calls|] == calls;
  }

  // ---- whole runs of the composed system -------------------------------------------------------

  lemma {:induction false} EveryOfflineRun(events: seq<OfflineEvent>)
    ensures var o := OfflineRun(events); Safe(o.world) && ShapesOk(o) && CallsCounted(o)
  {
    hide ShapesOk, CallsCounted, Safe, Apply;
    if events == [] {
      InitialIsSafe();
      assert ShapesOk(START) && CallsCounted(START) by { StartIsFine(); }
    } else {
      var init, e := events[..|events| - 1], events[|events| - 1];
      EveryOfflineRun(init);
      var o := OfflineRun(init);
      assert RunsOk(o.world) by { SafeRuns(o.world); }
      OfflineStepKeepsShapes(o, e);
      OfflineStepKeepsCounts(o, e);
      if ToEvent(o.world, e).Some? { StepIsSafe(o.world, ToEvent(o.world, e).value); }
    }
  }

  lemma SafeRuns(w: World)
    requires Safe(w)
    ensures RunsOk(w)
  {
  }

  lemma StartIsFine()
    ensures ShapesOk(START) && CallsCounted(START)
  {
  }

  /**
   * Every reachable run is RUNNING at revision 0, then waits for its requirement-freeze approval or
   * has FAILED at 1, then is terminal at 2. Resume, retry and clarification never appear.
   */
  lemma OfflineRunsHaveThreeStages(events: seq<OfflineEvent>, id: RunId)
    requires id in OfflineRun(events).world.repo.runs
    ensures var r := OfflineRun(events).world.repo.runs[id];
            match r.revision
            case 0 => r.state.Running?
            case 1 => r.state.Failed? || (r.state.InteractionRequired? && IsFreeze(r.state.interaction))
            case 2 => r.state.Terminal()
            case _ => false
  {
    hide Safe, CallsCounted, OfflineRun;
    EveryOfflineRun(events);
    assert ShapeOk(OfflineRun(events).world.repo.runs[id], OfflineRun(events).approvals);
  }

  /** Every `runner.run` call is on inputs whose manifest hash is the one in the approved interaction. */
  lemma RunnerRunsWhatWasApproved(events: seq<OfflineEvent>, c: RunnerCall)
    requires c in OfflineRun(events).calls
    ensures c.binding.action == Approve(c.binding.interaction.id)
    ensures c.binding.interaction.Approval? && c.binding.interaction.approvalKind.RequirementFreeze?
    ensures c.binding.interaction.inputSha == ManifestSha(c.request, c.prepared, c.components)
    ensures c.prepared.inputRunId == c.binding.runId
    ensures Count(OfflineRun(events).world.log, Authorized(c.binding)) >= 1
  {
    hide Safe, OfflineRun, ShapeOk, CallerOk, Count;
    EveryOfflineRun(events);
    var o := OfflineRun(events);
    assert CallOk(c, o.approvals);
    CalledIsCounted(o.calls, c);
    assert CallCount(o.calls, c.binding) <= Count(o.world.log, ActCalled(c.binding));
    SafeGrants(o.world, c.binding);
  }

  lemma SafeGrants(w: World, b: Binding)
    requires Safe(w)
    ensures Count(w.log, ActCalled(b)) <= Count(w.log, Authorized(b)) <= |RecoveredRefs(w.log, b)| + 1
  {
    hide RunsOk, CommitsOk, StartsOk, Count, RecoveredRefs;
    assert Count(w.log, Authorized(b)) == Used(w.grants, b);
  }

  lemma {:induction false} CalledIsCounted(calls: seq<RunnerCall>, c: RunnerCall)
    requires c in calls
    ensures CallCount(calls, c.binding) >= 1
  {
    if calls[|calls| - 1] != c { CalledIsCounted(calls[..|calls| - 1], c); }
  }

  function CallsForRun(calls: seq<RunnerCall>, id: RunId): nat {
    if calls == [] then 0
    else CallsForRun(calls[..|calls| - 1], id) + (if calls[|calls| - 1].binding.runId == id then 1 else 0)
  }

  lemma {:induction false} OneBindingPerRun(calls: seq<RunnerCall>, b: Binding)
    requires forall c :: c in calls && c.binding.runId == b.runId ==> c.binding == b
    ensures CallsForRun(calls, b.runId) == CallCount(calls, b)
  {
    if calls != [] { OneBindingPerRun(calls[..|calls| - 1], b); }
  }

  /** The runner runs for a submission at most once, plus once for every recovery of the one grant it needs. */
  lemma RunnerRunsAreBounded(events: seq<OfflineEvent>, c: RunnerCall)
    requires c in OfflineRun(events).calls
    ensures var o := OfflineRun(events);
            CallsForRun(o.calls, c.binding.runId) <= 1 + |RecoveredRefs(o.world.log, c.binding)|
  {
    hide Safe, OfflineRun, ShapeOk, CallerOk, Count, RecoveredRefs;
    EveryOfflineRun(events);
    var o := OfflineRun(events);
    forall d | d in o.calls && d.binding.runId == c.binding.runId ensures d.binding == c.binding {
      assert CallOk(c, o.approvals) && CallOk(d, o.approvals);
    }
    OneBindingPerRun(o.calls, c.binding);
    assert CallCount(o.calls, c.binding) <= Count(o.world.log, ActCalled(c.binding));
    SafeGrants(o.world, c.binding);
  }

  // ---- a run that is approved and succeeds -------------------------------------------------------

  /** Submitted, prepared, approved by one grant and executed, by one caller that nobody disturbs. */
  function ApprovedEvents(request: Request, asked: Answers, reference: string, binding: Binding, answers: Answers): seq<OfflineEvent> {
    [Other(Submit(0, request)), StartCall(0, asked), Other(Commit(0)), Other(GrantIssued(binding, reference)),
     Other(ReadForAct(0, binding.runId, binding.action)), Other(Consume(0)), ActCall(0, answers), Other(Commit(0))]
  }

  lemma RunPush(events: seq<OfflineEvent>, e: OfflineEvent)
    ensures OfflineRun(events + [e]) == OfflineApply(OfflineRun(events), e)
  {
    assert (events + [e])[..|events|] == events;
  }

  lemma OtherStep(o: Offline, e: Event)
    requires !e.CallStart? && !e.CallAct?
    ensures OfflineApply(o, Other(e)).world == Apply(o.world, e) && OfflineApply(o, Other(e)).calls == o.calls
  {
    hide Apply, Approvals;
  }

  lemma SubmitStep(w: World, request: Request)
    requires 0 !in w.threads && OfSubmission(request.submissionId) !in w.repo.runs
    ensures var initial := InitialRecord(request);
            var z := Apply(w, Submit(0, request));
            && z.repo == Repo(w.repo.runs[initial.runId := initial], w.repo.results) && z.grants == w.grants
            && z.threads == w.threads[0 := Starting(initial)]
  {
  }

  lemma StartCallStep(o: Offline, a: Answers, record: Record)
    requires 0 in o.world.threads && o.world.threads[0] == Starting(record)
    ensures var z := OfflineApply(o, StartCall(0, a));
            && z.world.repo == o.world.repo && z.world.grants == o.world.grants && z.calls == o.calls
            && z.world.threads
               == o.world.threads[0 := StartReturned(record, Settle(CompanionStart(record.runId, record.request, a), record.runId, record.request, None))]
  {
    hide CompanionStart, Settle, Approvals;
  }

  /** A commit of the record just read goes through: nobody moved the run. */
  lemma CommitStep(w: World, record: Record, t: Transition)
    requires 0 in w.threads && (w.threads[0] == StartReturned(record, t) || w.threads[0] == ActReturned(record, t))
    requires record.runId in w.repo.runs && w.repo.runs[record.runId] == record && record.runId !in w.repo.results
    requires Bound(record.runId, t.state, t.result)
    ensures var z := Apply(w, Commit(0));
            && z.repo == Repo(w.repo.runs[record.runId := Replacement(record, t)],
                              if t.result.Some? then w.repo.results[record.runId := t.result.value] else w.repo.results)
            && z.grants == w.grants && z.threads == w.threads - {0}
  {
    hide Bound;
  }

  lemma GrantStep(w: World, b: Binding, reference: string)
    requires b !in w.grants && ValidReference(reference)
    ensures var z := Apply(w, GrantIssued(b, reference));
            z.repo == w.repo && z.grants == w.grants[b := Entry(reference, reference, false, [])] && z.threads == w.threads
  {
    hide ValidReference;
  }

  /** Reading and consuming: the granted action is authorized. */
  lemma AuthorizeSteps(w: World, record: Record, action: Action)
    requires 0 !in w.threads && record.runId in w.repo.runs && w.repo.runs[record.runId] == record
    requires MayAct(record, action) && BindingOf(record, action) in w.grants && !w.grants[BindingOf(record, action)].consumed
    ensures var read := Apply(w, ReadForAct(0, record.runId, action));
            var z := Apply(read, Consume(0));
            z.repo == w.repo && z.threads == w.threads[0 := Acting(record, action)]
  {
    MayActMatches(record, action);
    hide MayAct, ActionMatches;
    var read := Apply(w, ReadForAct(0, record.runId, action));
    assert read == w.(threads := w.threads[0 := Authorizing(record, action)]);
    assert read.threads[0 := Acting(record, action)] == w.threads[0 := Acting(record, action)];
  }

  lemma MayActMatches(record: Record, action: Action)
    requires MayAct(record, action)
    ensures record.state.InteractionRequired? && ActionMatches(BindingOf(record, action))
  {
  }

  lemma ActCallStep(o: Offline, a: Answers, record: Record, action: Action)
    requires 0 in o.world.threads && o.world.threads[0] == Acting(record, action) && MayAct(record, action)
    ensures var z := OfflineApply(o, ActCall(0, a));
            var (reply, ran) := CompanionAct(record, action, a);
            && z.world.repo == o.world.repo && z.world.grants == o.world.grants
            && z.world.threads
               == o.world.threads[0 := ActReturned(record, Settle(reply, record.runId, record.request, Some(record.state.interaction.id)))]
            && z.calls == o.calls + if ran.Some? then [RunnerCall(BindingOf(record, action), record.request, ran.value, a.components)] else []
  {
    hide CompanionAct, Settle, Approvals, MayAct;
  }

  /** Three steps in, the run waits for the approval of what was prepared. */
  lemma AskedAfterThree(request: Request, a: Answers)
    requires a.prepare.PrepareReturned? && a.prepare.prepared.inputRunId == OfSubmission(request.submissionId) && a.components != []
    ensures var id := OfSubmission(request.submissionId);
            var sha := OfManifest(Manifest(OfRequest(request.goal, request.constraints), a.prepare.prepared, a.components));
            var i := Approval(OfExecution(id, sha), RequirementFreeze, "", sha);
            var z := OfflineApply(OfflineApply(OfflineApply(START, Other(Submit(0, request))), StartCall(0, a)), Other(Commit(0)));
            && z.world.repo == Repo(map[id := Record(id, request, OfRequest(request.goal, request.constraints), InteractionRequired(i), 1)], map[])
            && z.world.grants == map[] && z.world.threads == map[] && z.calls == []
  {
    hide OfflineApply, Apply;
    OtherStep(START, Submit(0, request));
    SubmitStep(INITIAL, request);
    AskedAfterStart(OfflineApply(START, Other(Submit(0, request))), request, a);
  }

  /** The new run's companion is started and its request for approval committed. */
  lemma AskedAfterStart(o: Offline, request: Request, a: Answers)
    requires a.prepare.PrepareReturned? && a.prepare.prepared.inputRunId == OfSubmission(request.submissionId) && a.components != []
    requires var initial := InitialRecord(request);
             o.world.repo == Repo(map[initial.runId := initial], map[]) && o.world.grants == map[]
             && o.world.threads == map[0 := Starting(initial)] && o.calls == []
    ensures var id := OfSubmission(request.submissionId);
            var sha := OfManifest(Manifest(OfRequest(request.goal, request.constraints), a.prepare.prepared, a.components));
            var i := Approval(OfExecution(id, sha), RequirementFreeze, "", sha);
            var z := OfflineApply(OfflineApply(o, StartCall(0, a)), Other(Commit(0)));
            && z.world.repo == Repo(map[id := Record(id, request, OfRequest(request.goal, request.constraints), InteractionRequired(i), 1)], map[])
            && z.world.grants == map[] && z.world.threads == map[] && z.calls == []
  {
    var record := InitialRecord(request);
    StartAsksForApproval(request, a);
    var reply := CompanionStart(record.runId, request, a);
    AcceptableIsCommitted(reply, record.runId, request, None);
    hide CompanionStart, Settle, OfflineApply, Apply;
    StartCallStep(o, a, record);
    var started := OfflineApply(o, StartCall(0, a));
    OtherStep(started, Commit(0));
    CommitStep(started.world, record, reply.transition);
  }

  lemma StartsThere()
    ensures OfflineRun([]) == START
  {
  }

  /** What a fitting execution of an approved record needs. */
  ghost predicate Executes(record: Record, p: Prepared, a: Answers) {
    && record.Valid() && record.state.InteractionRequired? && record.state.interaction.Approval?
    && Approved(record, a, p) && a.runner.RunnerReturned? && StageFits(record.runId, p, a.runner.stage)
    && a.projector.ProjectorReturned? && a.projector.warnings == [] && ProjectionFits(record.runId, a.runner.stage, a.projector.result)
    && var r := a.projector.result;
       ResultFits(Some(r), r.reportUri, r.authoritative, OfResult(r), record.runId, record.request.constraints)
  }

  /** The companion returns the projected success, and the service accepts it. */
  lemma ExecutionSettles(record: Record, p: Prepared, a: Answers)
    requires Executes(record, p, a)
    ensures var action, t := Approve(record.state.interaction.id), Succeeds(record.runId, a.projector.result);
            && MayAct(record, action) && CompanionAct(record, action, a) == (Returned(t), Some(p))
            && Settle(Returned(t), record.runId, record.request, Some(action.id)) == t && Bound(record.runId, t.state, t.result)
  {
    ApprovalExecutes(record, a);
    FittingUri(record.runId, a.runner.stage, a.projector.result);
    var action, t := Approve(record.state.interaction.id), Succeeds(record.runId, a.projector.result);
    hide CompanionAct, Settle, StageFits, ProjectionFits, Approved;
    AcceptableIsCommitted(Returned(t), record.runId, record.request, Some(action.id));
  }

  /** The operator grants the action and the caller authorizes it. */
  lemma GrantedAndAuthorized(o: Offline, record: Record, action: Action, reference: string)
    requires MayAct(record, action) && ValidReference(reference)
    requires o.world.repo == Repo(map[record.runId := record], map[]) && o.world.grants == map[] && o.world.threads == map[] && o.calls == []
    ensures var z := OfflineApply(OfflineApply(OfflineApply(o,
                       Other(GrantIssued(BindingOf(record, action), reference))), Other(ReadForAct(0, record.runId, action))), Other(Consume(0)));
            z.world.repo == o.world.repo && z.world.threads == map[0 := Acting(record, action)] && z.calls == []
  {
    MayActMatches(record, action);
    hide OfflineApply, Apply, MayAct, ValidReference, ActionMatches;
    var b := BindingOf(record, action);
    OtherStep(o, GrantIssued(b, reference));
    GrantStep(o.world, b, reference);
    var o1 := OfflineApply(o, Other(GrantIssued(b, reference)));
    OtherStep(o1, ReadForAct(0, record.runId, action));
    OtherStep(OfflineApply(o1, Other(ReadForAct(0, record.runId, action))), Consume(0));
    AuthorizeSteps(o1.world, record, action);
  }

  /** The companion executes and the caller commits. */
  lemma ExecutedAndCommitted(o: Offline, record: Record, p: Prepared, a: Answers)
    requires Executes(record, p, a)
    requires o.world.repo == Repo(map[record.runId := record], map[]) && o.calls == []
    requires o.world.threads == map[0 := Acting(record, Approve(record.state.interaction.id))]
    ensures var z := OfflineApply(OfflineApply(o, ActCall(0, a)), Other(Commit(0)));
            var r := a.projector.result;
            && z.world.repo == Repo(map[record.runId := Replacement(record, Succeeds(record.runId, r))], map[record.runId := r])
            && z.calls == [RunnerCall(BindingOf(record, Approve(record.state.interaction.id)), record.request, p, a.components)]
  {
    ExecutionSettles(record, p, a);
    var action, t := Approve(record.state.interaction.id), Succeeds(record.runId, a.projector.result);
    hide OfflineApply, Apply, CompanionAct, Settle, MayAct, Executes, Bound;
    ActCallStep(o, a, record, action);
    var acted := OfflineApply(o, ActCall(0, a));
    OtherStep(acted, Commit(0));
    CommitStep(acted.world, record, t);
  }

  function Succeeds(id: RunId, r: ResultRecord): Transition {
    Transition(Succeeded(ReportOf(id), r.authoritative, OfResult(r)), Some(r))
  }

  lemma RunOfFour(events: seq<OfflineEvent>)
    requires |events| >= 4
    ensures OfflineRun(events)
            == OfflineApply(OfflineApply(OfflineApply(OfflineApply(OfflineRun(events[..|events| - 4]),
                 events[|events| - 4]), events[|events| - 3]), events[|events| - 2]), events[|events| - 1])
  {
    hide OfflineApply, OfflineRun;
    RunLast(events);
    RunLast(events[..|events| - 1]);
    RunLast(events[..|events| - 2]);
    RunLast(events[..|events| - 3]);
  }

  lemma RunLast(events: seq<OfflineEvent>)
    requires events != []
    ensures OfflineRun(events) == OfflineApply(OfflineRun(events[..|events| - 1]), events[|events| - 1])
    ensures forall k: nat :: k < |events| ==> events[..|events| - 1][..k] == events[..k]
  {
  }

  lemma RunOfEight(a: OfflineEvent, b: OfflineEvent, c: OfflineEvent, d: OfflineEvent, e: OfflineEvent, f: OfflineEvent, g: OfflineEvent, h: OfflineEvent)
    ensures OfflineRun([a, b, c, d, e, f, g, h])
            == OfflineApply(OfflineApply(OfflineApply(OfflineApply(OfflineApply(OfflineApply(OfflineApply(OfflineApply(START, a), b), c), d), e), f), g), h)
  {
    hide OfflineApply;
    var events := [a, b, c, d, e, f, g, h];
    RunOfFour(events);
    assert events[..4] == [a, b, c, d] && [a, b, c, d][..0] == [];
    RunOfFour([a, b, c, d]);
    StartsThere();
  }

  /**
   * Whatever the request, the inputs and the fitting result within its limits: a run whose prepared inputs
   * are approved succeeds at revision 2 with that result, after exactly one runner call, on those inputs.
   */
  lemma ApprovedRunSucceeds(request: Request, p: Prepared, components: seq<string>, stage: StageResult, r: ResultRecord, reference: string)
    requires p.inputRunId == OfSubmission(request.submissionId) && components != [] && ValidReference(reference)
    requires StageFits(p.inputRunId, p, stage) && ProjectionFits(p.inputRunId, stage, r)
    requires ResultFits(Some(r), r.reportUri, r.authoritative, OfResult(r), p.inputRunId, request.constraints)
    ensures var id := OfSubmission(request.submissionId);
            var sha := OfManifest(Manifest(OfRequest(request.goal, request.constraints), p, components));
            var i := Approval(OfExecution(id, sha), RequirementFreeze, "", sha);
            var b := Binding(id, i, OfRequest(request.goal, request.constraints), Approve(i.id));
            var answers := Answers(PrepareReturned(p), components, RunnerReturned(stage), ProjectorReturned(r, []));
            var o := OfflineRun(ApprovedEvents(request, answers, reference, b, answers));
            && o.world.repo.runs
               == map[id := Record(id, request, OfRequest(request.goal, request.constraints), Succeeded(ReportOf(id), r.authoritative, OfResult(r)), 2)]
            && o.world.repo.results == map[id := r]
            && o.calls == [RunnerCall(b, request, p, components)]
  {
    var id := OfSubmission(request.submissionId);
    var sha := OfManifest(Manifest(OfRequest(request.goal, request.constraints), p, components));
    var i := Approval(OfExecution(id, sha), RequirementFreeze, "", sha);
    var record := Record(id, request, OfRequest(request.goal, request.constraints), InteractionRequired(i), 1);
    var answers := Answers(PrepareReturned(p), components, RunnerReturned(stage), ProjectorReturned(r, []));
    hide OfflineRun, ApprovedEvents, StageFits, ProjectionFits, ResultFits, ValidReference;
    ApprovedSteps(request, record, p, answers, reference);
  }

  /** The eight steps, for the record they ask to approve. */
  lemma ApprovedSteps(request: Request, record: Record, p: Prepared, a: Answers, reference: string)
    requires Executes(record, p, a) && ValidReference(reference)
    requires var id := OfSubmission(request.submissionId);
             var sha := OfManifest(Manifest(OfRequest(request.goal, request.constraints), p, a.components));
             record == Record(id, request, OfRequest(request.goal, request.constraints),
                              InteractionRequired(Approval(OfExecution(id, sha), RequirementFreeze, "", sha)), 1)
    ensures var b, r := BindingOf(record, Approve(record.state.interaction.id)), a.projector.result;
            var o := OfflineRun(ApprovedEvents(request, a, reference, b, a));
            && o.world.repo == Repo(map[record.runId := Replacement(record, Succeeds(record.runId, r))], map[record.runId := r])
            && o.calls == [RunnerCall(b, request, p, a.components)]
  {
    var action := Approve(record.state.interaction.id);
    var b := BindingOf(record, action);
    assert a.prepare == PrepareReturned(p) && p.inputRunId == record.runId && a.components != [] && MayAct(record, action);
    hide OfflineApply, Executes, ValidReference, MayAct;
    RunOfEight(Other(Submit(0, request)), StartCall(0, a), Other(Commit(0)), Other(GrantIssued(b, reference)),
               Other(ReadForAct(0, record.runId, action)), Other(Consume(0)), ActCall(0, a), Other(Commit(0)));
    hide OfflineRun;
    AskedAfterThree(request, a);
    var asked := OfflineApply(OfflineApply(OfflineApply(START, Other(Submit(0, request))), StartCall(0, a)), Other(Commit(0)));
    GrantedAndAuthorized(asked, record, action, reference);
    var acting := OfflineApply(OfflineApply(OfflineApply(asked, Other(GrantIssued(b, reference))), Other(ReadForAct(0, record.runId, action))), Other(Consume(0)));
    ExecutedAndCommitted(acting, record, p, a);
  }

  lemma FittingUri(id: RunId, stage: StageResult, r: ResultRecord)
    requires ProjectionFits(id, stage, r)
    ensures r.reportUri == ReportOf(id) && r.runId == id
  {
  }
}
