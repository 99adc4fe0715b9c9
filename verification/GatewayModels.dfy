/**
 * Values of the Materials Gateway (`gateway/models.py`) and the check the service makes of every
 * companion reply (`gateway/service.py`, `_validate_transition`).
 *
 * SHA-256 over canonical JSON is modelled as free constructors: distinct payloads, distinct digests.
 */
module GatewayModels {
  import opened Wrappers

  datatype Budget = Budget(
    maxSearchRequests: nat, maxUniqueDocuments: nat, maxPassages: nat, maxModelCalls: nat, maxWalltimeSeconds: nat)

  /** `rest` stands for the constraints the gateway passes through without reading. */
  datatype Constraints = Constraints(topK: nat, budget: Budget, rest: string)

  datatype Request = Request(submissionId: string, goal: string, constraints: Constraints)

  /** `inspiration_run_id` derives the run ID from the submission ID. */
  datatype RunId = OfSubmission(submissionId: string) | ForeignRun(text: string)

  datatype Uri = ReportOf(runId: RunId) | OtherUri(text: string)

  /** The frozen runner inputs; `rest` stands for policy, tag graph and target tags. */
  datatype Prepared = Prepared(inputRunId: RunId, requestId: string, projectId: string, rest: string)

  /** What an approval authorizes. */
  datatype Manifest = Manifest(requestSha: Digest, prepared: Prepared, components: seq<string>)

  datatype Digest =
    | OfRequest(goal: string, constraints: Constraints)
    | OfResult(result: ResultRecord)
    | OfManifest(manifest: Manifest)
    | OfBytes(bytes: string)

  datatype InteractionId = OfExecution(runId: RunId, manifestSha: Digest) | Named(text: string)

  datatype ApprovalKind = RequirementFreeze | ExpensiveComputation

  datatype Interaction =
    | Clarification(id: InteractionId, question: string)
    | Approval(id: InteractionId, approvalKind: ApprovalKind, prompt: string, inputSha: Digest)
    | Retry(id: InteractionId, prompt: string)
    | Resume(id: InteractionId, prompt: string)
  {
    /** `action.kind in interaction.allowed_actions`: the action lists are frozen per kind. */
    predicate Allows(action: Action) {
      match this
      case Clarification(_, _) => action.Answer? || action.Cancel?
      case Approval(_, _, _, _) => action.Approve? || action.Reject? || action.Cancel?
      case Retry(_, _) => action.RetryRun? || action.Cancel?
      case Resume(_, _) => action.ResumeRun? || action.Cancel?
    }
  }

  datatype Action =
    | Answer(id: InteractionId, answer: string)
    | Approve(id: InteractionId)
    | Reject(id: InteractionId, reason: Option<string>)
    | ResumeRun(id: InteractionId)
    | RetryRun(id: InteractionId)
    | Cancel(id: InteractionId)

  datatype State =
    | Running(progress: nat, message: string)
    | InteractionRequired(interaction: Interaction)
    | Succeeded(reportUri: Uri, authoritative: Digest, resultSha: Digest)
    | Partial(reportUri: Uri, authoritative: Digest, resultSha: Digest, warnings: seq<string>)
    | Failed(code: string, retryable: bool)
    | Cancelled(reason: string)
  {
    predicate Terminal() { Succeeded? || Partial? || Failed? || Cancelled? }
  }

  datatype Ledger = Ledger(
    searchRequests: nat, fetchedDocuments: nat, extractedPassages: nat, vectorizedPassages: nat,
    modelCalls: nat, walltimeMs: nat)

  datatype ResultRecord = ResultRecord(
    runId: RunId, reportUri: Uri, authoritative: Digest, outcome: string, candidates: seq<string>, ledger: Ledger)

  datatype Reference = Reference(reportUri: Uri, authoritative: Digest, resultSha: Digest)

  datatype Transition = Transition(state: State, result: Option<ResultRecord>)

  datatype Record = Record(runId: RunId, request: Request, requestSha: Digest, state: State, revision: nat)
  {
    /** `GatewayRunRecordV1.validate_identity`. */
    predicate Valid() {
      runId == OfSubmission(request.submissionId) && requestSha == RequestSha(request)
    }
  }

  function RequestSha(r: Request): Digest { OfRequest(r.goal, r.constraints) }

  function TerminalReference(s: State): Option<Reference> {
    match s
    case Succeeded(u, a, r) => Some(Reference(u, a, r))
    case Partial(u, a, r, _) => Some(Reference(u, a, r))
    case _ => None
  }

  function ReferenceOf(r: ResultRecord): Reference { Reference(r.reportUri, r.authoritative, OfResult(r)) }

  /** `CompanionTransitionV1.validate_result_reference`. */
  predicate WellFormed(t: Transition) {
    t.result.Some? ==> TerminalReference(t.state) == Some(ReferenceOf(t.result.value))
  }

  predicate WithinBudget(r: ResultRecord, c: Constraints) {
    && |r.candidates| <= c.topK
    && r.ledger.searchRequests <= c.budget.maxSearchRequests
    && r.ledger.fetchedDocuments <= c.budget.maxUniqueDocuments
    && r.ledger.extractedPassages <= c.budget.maxPassages
    && r.ledger.vectorizedPassages <= c.budget.maxPassages
    && r.ledger.modelCalls <= c.budget.maxModelCalls
    && r.ledger.walltimeMs <= c.budget.maxWalltimeSeconds * 1000
  }

  /** What one call of the companion gives back: an exception, or an object that may or may not parse. */
  datatype Reply = Raised | ContractError | Unreadable | Returned(transition: Transition)

  /** The branches of `_validate_transition`, in order; `None` means the transition is accepted. */
  function Objection(t: Transition, runId: RunId, request: Request, previous: Option<InteractionId>): Option<string> {
    if !WellFormed(t) then Some("invalid transition")
    else if t.state.Succeeded? || t.state.Partial? then
      if t.result.None? then Some("missing result")
      else if OfResult(t.result.value) != t.state.resultSha then Some("state does not bind its result")
      else if t.result.value.runId != runId then Some("result belongs to a different run")
      else if t.state.reportUri != ReportOf(runId) then Some("report URI is not bound to its run")
      else if !WithinBudget(t.result.value, request.constraints) then Some("over budget")
      else None
    else if t.result.Some? then Some("non-terminal transition cannot carry a result")
    else if previous.Some? && t.state.InteractionRequired? && t.state.interaction.id == previous.value then
      Some("interaction ID is not fresh")
    else None
  }

  function FailureTransition(code: string): Transition { Transition(Failed(code, false), None) }

  /** The transition the service commits after a companion call. */
  function Settle(reply: Reply, runId: RunId, request: Request, previous: Option<InteractionId>): Transition {
    match reply
    case Raised => FailureTransition("ADAPTER_EXECUTION_ERROR")
    case ContractError => FailureTransition("ADAPTER_CONTRACT_ERROR")
    case Unreadable => FailureTransition("ADAPTER_CONTRACT_ERROR")
    case Returned(t) =>
      if Objection(t, runId, request, previous).None? then t else FailureTransition("ADAPTER_CONTRACT_ERROR")
  }

  /** The result a terminal state of this run must bring along: its own, under both digests, within every limit. */
  ghost predicate ResultFits(
    result: Option<ResultRecord>, reportUri: Uri, authoritative: Digest, resultSha: Digest, runId: RunId, c: Constraints)
  {
    && result.Some?
    && var r := result.value;
       && r.runId == runId && r.reportUri == reportUri == ReportOf(runId)
       && r.authoritative == authoritative && resultSha == OfResult(r)
       && |r.candidates| <= c.topK
       && r.ledger.searchRequests <= c.budget.maxSearchRequests
       && r.ledger.fetchedDocuments <= c.budget.maxUniqueDocuments
       && r.ledger.extractedPassages <= c.budget.maxPassages && r.ledger.vectorizedPassages <= c.budget.maxPassages
       && r.ledger.modelCalls <= c.budget.maxModelCalls
       && r.ledger.walltimeMs <= c.budget.maxWalltimeSeconds * 1000
  }

  /** What the service promises to accept from a companion, state by state. */
  ghost predicate Acceptable(t: Transition, runId: RunId, request: Request, previous: Option<InteractionId>) {
    match t.state
    case Succeeded(uri, authoritative, sha) => ResultFits(t.result, uri, authoritative, sha, runId, request.constraints)
    case Partial(uri, authoritative, sha, _) => ResultFits(t.result, uri, authoritative, sha, runId, request.constraints)
    case InteractionRequired(i) => t.result.None? && previous != Some(i.id)
    case Running(_, _) => t.result.None?
    case Failed(_, _) => t.result.None?
    case Cancelled(_) => t.result.None?
  }

  /** What a reply turns a run into: an acceptable one into exactly what it says, every other into a failure. */
  ghost predicate Settles(reply: Reply, runId: RunId, request: Request, previous: Option<InteractionId>, state: State, result: Option<ResultRecord>) {
    match reply
    case Raised => state == Failed("ADAPTER_EXECUTION_ERROR", false) && result.None?
    case ContractError => state == Failed("ADAPTER_CONTRACT_ERROR", false) && result.None?
    case Unreadable => state == Failed("ADAPTER_CONTRACT_ERROR", false) && result.None?
    case Returned(t) =>
      if Acceptable(t, runId, request, previous) then state == t.state && result == t.result
      else state == Failed("ADAPTER_CONTRACT_ERROR", false) && result.None?
  }

  /** The checks, in whatever order they are made, let through exactly the acceptable replies, unchanged. */
  lemma AcceptableIsCommitted(reply: Reply, runId: RunId, request: Request, previous: Option<InteractionId>)
    ensures var t := Settle(reply, runId, request, previous);
            Settles(reply, runId, request, previous, t.state, t.result)
  {
    if reply.Returned? {
      var t := reply.transition;
      if t.result.Some? && (t.state.Succeeded? || t.state.Partial?) {
        assert WellFormed(t) <==> t.state.reportUri == t.result.value.reportUri && t.state.authoritative == t.result.value.authoritative
                                  && t.state.resultSha == OfResult(t.result.value);
      }
    }
  }

  /** A state and a result that belong together for a run: what the repository insists on. */
  predicate Bound(runId: RunId, state: State, result: Option<ResultRecord>) {
    match result
    case None => TerminalReference(state) == None
    case Some(r) => r.runId == runId && TerminalReference(state) == Some(ReferenceOf(r))
  }

  /**
   * Whatever the companion does, the transition to commit binds its result to the run, stays within
   * the requested budget and never repeats the interaction that was just answered.
   */
  lemma SettledIsSafe(reply: Reply, runId: RunId, request: Request, previous: Option<InteractionId>)
    ensures var t := Settle(reply, runId, request, previous);
            && Bound(runId, t.state, t.result)
            && (t.result.Some? ==> t.state.reportUri == ReportOf(runId) && WithinBudget(t.result.value, request.constraints))
            && (previous.Some? && t.state.InteractionRequired? ==> t.state.interaction.id != previous.value)
  {
  }
}
