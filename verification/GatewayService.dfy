/**
 * The four tools of the Gateway service (`gateway/service.py`) over the SQLite repository and the
 * grant store. Each tool call, undisturbed, is the protocol's own sequence of atomic steps.
 */
module GatewayService {
  import opened GatewayModels
  import opened GatewayRepository
  import opened Authorization
  import opened GatewayProtocol
  import opened Wrappers

  datatype View = View(runId: RunId, submissionId: string, requestSha: Digest, state: State)

  datatype ServiceError =
    | SubmissionConflict | RunNotFound | StaleInteraction | IllegalAction | NotAuthorized | ConcurrentUpdate
    | ResultUnavailable | ResultIntegrity | ArtifactUnavailable | ArtifactTooLarge | ArtifactMismatch

  function ViewOf(r: Record): View { View(r.runId, r.request.submissionId, r.requestSha, r.state) }

  /** The world as one caller sees it when nobody else is active. */
  function Alone(repo: Repo, grants: Grants): World { World(repo, grants, map[], []) }

  function StartSteps(request: Request, reply: Reply): seq<Event> {
    [Submit(0, request), CallStart(0, reply), Commit(0)]
  }

  function ActSteps(id: RunId, action: Action, reply: Reply): seq<Event> {
    [ReadForAct(0, id, action), Consume(0), CallAct(0, reply), Commit(0)]
  }

  lemma Run3(w: World, a: Event, b: Event, c: Event)
    ensures Run(w, [a, b, c]) == Apply(Apply(Apply(w, a), b), c)
  {
    hide Apply;
    assert [a, b, c][..2] == [a, b] && [a, b][..1] == [a] && [a][..0] == [];
    assert Run(w, [a]) == Apply(w, a);
    assert Run(w, [a, b]) == Apply(Run(w, [a]), b);
  }

  lemma Run4(w: World, a: Event, b: Event, c: Event, d: Event)
    ensures Run(w, [a, b, c, d]) == Apply(Apply(Apply(Apply(w, a), b), c), d)
  {
    hide Apply;
    assert [a, b, c, d][..3] == [a, b, c];
    Run3(w, a, b, c);
  }

  /** A transition settled against the record just read can always be stored, and binds its result. */
  lemma SettledCommits(repo: Repo, record: Record, reply: Reply, previous: Option<InteractionId>)
    requires ResultsMatch(repo) && record.runId in repo.runs && repo.runs[record.runId] == record && !record.state.Terminal()
    ensures var t := Settle(reply, record.runId, record.request, previous);
            && MayReplace(repo, Replacement(record, t), record.revision, t.result)
            && ResultsMatch(Replaced(repo, Replacement(record, t), t.result))
  {
    SettledIsSafe(reply, record.runId, record.request, previous);
    var t := Settle(reply, record.runId, record.request, previous);
    SettledOk(record, t);
    hide Settle;
    ReplacedMatches(repo, record, t);
  }

  lemma KeptUnderItsId(repo: Repo, id: RunId)
    requires ResultsMatch(repo) && id in repo.runs
    ensures repo.runs[id].runId == id && repo.runs[id].Valid()
    ensures !repo.runs[id].state.Terminal() ==> id !in repo.results
  {
    hide WithinBudget;
  }

  lemma NoResultYet(repo: Repo, id: RunId)
    requires ResultsMatch(repo) && id !in repo.runs
    ensures id !in repo.results
  {
    hide WithinBudget;
  }

  // ---- what the tools promise, in the fields of the stored records -------------------------------

  /**
   * The run of this request is now at this revision, in the state and with the result the reply gives
   * it; every other run and result is as before.
   */
  ghost predicate Moved(before: Repo, after: Repo, request: Request, revision: nat, reply: Reply, previous: Option<InteractionId>) {
    var id := OfSubmission(request.submissionId);
    && id in after.runs
    && after.runs == before.runs[id := Record(id, request, OfRequest(request.goal, request.constraints), after.runs[id].state, revision)]
    && after.results - {id} == before.results - {id}
    && Settles(reply, id, request, previous, after.runs[id].state, if id in after.results then Some(after.results[id]) else None)
  }

  /** The interactions each kind of action answers. */
  ghost predicate Answers(action: Action, i: Interaction) {
    match action
    case Cancel(_) => true
    case Answer(_, _) => i.Clarification?
    case Approve(_) => i.Approval?
    case Reject(_, _) => i.Approval?
    case ResumeRun(_) => i.Resume?
    case RetryRun(_) => i.Retry?
  }

  ghost predicate Granted(grants: Grants, record: Record, action: Action)
    requires record.state.InteractionRequired?
  {
    var b := Binding(record.runId, record.state.interaction, record.requestSha, action);
    b in grants && !grants[b].consumed
  }

  /** The outcome of an action on what is stored. */
  ghost predicate ActOutcome(r: Result<View, ServiceError>, runs: map<RunId, Record>, grants: Grants, id: RunId, action: Action) {
    if id !in runs then r == Err(RunNotFound)
    else if !runs[id].state.InteractionRequired? || action.id != runs[id].state.interaction.id then r == Err(StaleInteraction)
    else if !Answers(action, runs[id].state.interaction) then r == Err(IllegalAction)
    else if !Granted(grants, runs[id], action) then r == Err(NotAuthorized)
    else r.Ok?
  }

  /** The run that waited for this action moved one revision on, by the companion's reply, and its view is returned. */
  ghost predicate Acted(before: Repo, after: Repo, id: RunId, action: Action, reply: Reply, view: View) {
    && id in before.runs && before.runs[id].state.InteractionRequired? && id in after.runs
    && var record := before.runs[id];
       && Moved(before, after, record.request, record.revision + 1, reply, Some(record.state.interaction.id))
       && view == View(id, record.request.submissionId, record.requestSha, after.runs[id].state)
  }

  /** The one grant of this action on this run is consumed. */
  ghost predicate UsedUp(before: Grants, after: Grants, repo: Repo, id: RunId, action: Action) {
    && id in repo.runs && repo.runs[id].state.InteractionRequired?
    && var b := Binding(id, repo.runs[id].state.interaction, repo.runs[id].requestSha, action);
       b in before && after == before[b := before[b].(consumed := true)]
  }

  /** What the record-replacing step stores of a settled reply. */
  lemma ReplacedIsMoved(before: Repo, record: Record, reply: Reply, previous: Option<InteractionId>)
    requires record.Valid() && record.runId !in before.results
    ensures var t := Settle(reply, record.runId, record.request, previous);
            Moved(before, Replaced(before, Replacement(record, t), t.result), record.request, record.revision + 1, reply, previous)
  {
    AcceptableIsCommitted(reply, record.runId, record.request, previous);
    hide Settle, Settles;
  }

  /** A run stored and at once replaced is stored as replaced. */
  lemma CreatedIsMoved(before: Repo, record: Record, reply: Reply)
    requires record.Valid() && record.runId !in before.runs && record.runId !in before.results
    ensures var t := Settle(reply, record.runId, record.request, None);
            Moved(before, Replaced(CreateOrGet(before, record).0, Replacement(record, t), t.result), record.request, record.revision + 1, reply, None)
  {
    ReplacedIsMoved(before, record, reply, None);
    var t := Settle(reply, record.runId, record.request, None);
    hide Settle, Moved;
    var z := Replacement(record, t);
    assert before.runs[record.runId := record][record.runId := z] == before.runs[record.runId := z];
    assert Replaced(CreateOrGet(before, record).0, z, t.result) == Replaced(before, z, t.result);
  }

  /** What the result tool reports; the artifact reader is a parameter. */
  function ResultFor(repo: Repo, id: RunId, artifact: Option<string>, maxBytes: nat): Result<ResultRecord, ServiceError> {
    if id !in repo.runs then Err(RunNotFound)
    else if TerminalReference(repo.runs[id].state).None? then Err(ResultUnavailable)
    else if artifact.None? then Err(ArtifactUnavailable)
    else if |artifact.value| > maxBytes then Err(ArtifactTooLarge)
    else if id in repo.results && OfBytes(artifact.value) == repo.results[id].authoritative then Ok(repo.results[id])
    else Err(ArtifactMismatch)
  }

  class MaterialsGatewayService {
    const repository: SqliteGatewayRepository
    const grants: SqliteOneTimeActionGrantStore
    const maxReportBytes: nat

    ghost predicate Valid()
      reads this, repository, grants
    {
      repository.Valid() && grants.Valid() && ResultsMatch(repository.Contents())
    }

    constructor (repository: SqliteGatewayRepository, grants: SqliteOneTimeActionGrantStore, maxReportBytes: nat)
      requires repository.Valid() && grants.Valid() && ResultsMatch(repository.Contents()) && maxReportBytes >= 1
      ensures Valid() && this.repository == repository && this.grants == grants && this.maxReportBytes == maxReportBytes
    {
      this.repository, this.grants, this.maxReportBytes := repository, grants, maxReportBytes;
    }

    method CommitTransition(record: Record, t: Transition) returns (ok: bool)
      requires repository.Valid()
      modifies repository
      ensures repository.Valid()
      ensures ok == MayReplace(old(repository.Contents()), Replacement(record, t), record.revision, t.result)
      ensures repository.Contents() == ReplaceRun(old(repository.Contents()), Replacement(record, t), record.revision, t.result)
    {
      ok := repository.Replace(Replacement(record, t), record.revision, t.result);
    }

    /** `companionStart` is what the companion would answer; it is asked only for a new submission. */
    method MaterialsInspirationRun(request: Request, companionStart: Reply) returns (r: Result<View, ServiceError>)
      requires Valid()
      modifies repository
      ensures Valid()
      ensures repository.Contents() == Run(Alone(old(repository.Contents()), grants.Contents()), StartSteps(request, companionStart)).repo
      ensures var id := OfSubmission(request.submissionId);
              && id in repository.Contents().runs
              && var stored := repository.Contents().runs[id];
                 r == if stored.request == request
                      then Ok(View(id, request.submissionId, OfRequest(request.goal, request.constraints), stored.state))
                      else Err(SubmissionConflict)
      ensures if OfSubmission(request.submissionId) in old(repository.Contents()).runs
              then repository.Contents() == old(repository.Contents())
              else Moved(old(repository.Contents()), repository.Contents(), request, 1, companionStart, None)
    {
      hide Run, Settle, MayReplace, ResultsMatch, RepoValid, Bound, Decodes, WithinBudget, TransitionOk, Moved;
      var initial := InitialRecord(request);
      ghost var repo := repository.Contents();
      StartStepsDo(repo, grants.Contents(), request, companionStart);
      CreatedMatches(repo, request);
      var got := repository.CreateOrGetRun(initial);
      if got.Err? { assert false; }
      var (persisted, created) := got.value;
      if !created {
        KeptUnderItsId(repo, initial.runId);
        return if persisted.requestSha != initial.requestSha then Err(SubmissionConflict) else Ok(ViewOf(persisted));
      }
      NoResultYet(repo, initial.runId);
      CreatedIsMoved(repo, initial, companionStart);
      var t := Settle(companionStart, persisted.runId, request, None);
      SettledCommits(repository.Contents(), persisted, companionStart, None);
      var ok := CommitTransition(persisted, t);
      return Ok(ViewOf(Replacement(persisted, t)));
    }

    method MaterialsRunGet(id: RunId) returns (r: Result<View, ServiceError>)
      requires Valid()
      ensures var repo := repository.Contents();
              r == if id in repo.runs
                   then Ok(View(id, repo.runs[id].request.submissionId, repo.runs[id].requestSha, repo.runs[id].state))
                   else Err(RunNotFound)
    {
      var found := repository.Get(id);
      return if found.Ok? && found.value.Some? then Ok(ViewOf(found.value.value)) else Err(RunNotFound);
    }

    /** The grant is consumed before the companion is asked, and stays consumed whatever the companion does. */
    method MaterialsRunAct(id: RunId, action: Action, companionAct: Reply) returns (r: Result<View, ServiceError>)
      requires Valid()
      modifies repository, grants
      ensures Valid()
      ensures var w := Run(Alone(old(repository.Contents()), old(grants.Contents())), ActSteps(id, action, companionAct));
              repository.Contents() == w.repo && grants.Contents() == w.grants
      ensures ActOutcome(r, old(repository.Contents()).runs, old(grants.Contents()), id, action)
      ensures r.Err? ==> repository.Contents() == old(repository.Contents()) && grants.Contents() == old(grants.Contents())
      ensures r.Ok? ==>
                && Acted(old(repository.Contents()), repository.Contents(), id, action, companionAct, r.value)
                && UsedUp(old(grants.Contents()), grants.Contents(), old(repository.Contents()), id, action)
    {
      hide Run, Settle, MayReplace, ResultsMatch, RepoValid, Bound, Decodes, WithinBudget, TransitionOk, Abstract, TablesValid, Moved;
      ghost var repo, granted := repository.Contents(), grants.Contents();
      ActStepsDo(repo, granted, id, action, companionAct);
      var found := repository.Get(id);
      if found.Err? || found.value.None? { return Err(RunNotFound); }
      var record := found.value.value;
      KeptUnderItsId(repo, id);
      if !record.state.InteractionRequired? { return Err(StaleInteraction); }
      if action.id != record.state.interaction.id { return Err(StaleInteraction); }
      if !record.state.interaction.Allows(action) { return Err(IllegalAction); }
      var allowed := grants.AuthorizeAndConsume(BindingOf(record, action));
      if allowed.Err? { return Err(NotAuthorized); }
      var previous := Some(record.state.interaction.id);
      ReplacedIsMoved(repo, record, companionAct, previous);
      var t := Settle(companionAct, record.runId, record.request, previous);
      SettledCommits(repo, record, companionAct, previous);
      var ok := CommitTransition(record, t);
      return Ok(ViewOf(Replacement(record, t)));
    }

    /** The checks that bind run, result and digests never fail; only the artifact itself can be wrong. */
    method MaterialsResultGet(id: RunId, artifact: Option<string>) returns (r: Result<ResultRecord, ServiceError>)
      requires Valid()
      ensures r == ResultFor(repository.Contents(), id, artifact, maxReportBytes)
      ensures var results := repository.Contents().results;
              r.Ok? <==> id in results && artifact.Some? && |artifact.value| <= maxReportBytes &&
                         results[id].authoritative == OfBytes(artifact.value)
      ensures r.Ok? ==> r.value == repository.Contents().results[id] &&
                        TerminalReference(repository.Contents().runs[id].state) == Some(ReferenceOf(r.value))
      ensures r == Err(RunNotFound) <==> id !in repository.Contents().runs
      ensures r == Err(ResultUnavailable) <==>
                id in repository.Contents().runs &&
                !repository.Contents().runs[id].state.Succeeded? && !repository.Contents().runs[id].state.Partial?
      ensures r != Err(ResultIntegrity)
    {
      ghost var repo := repository.Contents();
      var found := repository.Get(id);
      if found.Err? || found.value.None? { return Err(RunNotFound); }
      var record := found.value.value;
      var reference := TerminalReference(record.state);
      if reference.None? { return Err(ResultUnavailable); }
      assert id in repo.results && Bound(id, record.state, Some(repo.results[id])) && repo.results[id].reportUri == ReportOf(id);
      var stored := repository.FetchResult(id);
      if stored.Err? || stored.value.None? { return Err(ResultUnavailable); }
      var result := stored.value.value;
      if result.runId != id { return Err(ResultIntegrity); }
      if result.reportUri != ReportOf(id) { return Err(ResultIntegrity); }
      if (result.reportUri, result.authoritative) != (reference.value.reportUri, reference.value.authoritative) {
        return Err(ResultIntegrity);
      }
      if OfResult(result) != reference.value.resultSha { return Err(ResultIntegrity); }
      if artifact.None? { return Err(ArtifactUnavailable); }
      if |artifact.value| > maxReportBytes { return Err(ArtifactTooLarge); }
      if OfBytes(artifact.value) != result.authoritative { return Err(ArtifactMismatch); }
      return Ok(result);
    }
  }

  /** The three steps of a submission, when nobody interferes. */
  lemma StartStepsDo(repo: Repo, grants: Grants, request: Request, reply: Reply)
    requires ResultsMatch(repo)
    ensures var z := Run(Alone(repo, grants), StartSteps(request, reply)).repo;
            var initial := InitialRecord(request);
            if initial.runId in repo.runs then z == repo
            else
              var t := Settle(reply, initial.runId, request, None);
              z == ReplaceRun(CreateOrGet(repo, initial).0, Replacement(initial, t), 0, t.result)
  {
    hide Settle, MayReplace, ResultsMatch;
    Run3(Alone(repo, grants), Submit(0, request), CallStart(0, reply), Commit(0));
  }

  lemma ActStepsDo(repo: Repo, grants: Grants, id: RunId, action: Action, reply: Reply)
    requires ResultsMatch(repo)
    ensures var z := Run(Alone(repo, grants), ActSteps(id, action, reply));
            if id !in repo.runs || !MayAct(repo.runs[id], action) || Authorize(grants, BindingOf(repo.runs[id], action)).Err?
            then z.repo == repo && z.grants == grants
            else
              var record := repo.runs[id];
              var t := Settle(reply, record.runId, record.request, Some(record.state.interaction.id));
              && z.repo == ReplaceRun(repo, Replacement(record, t), record.revision, t.result)
              && z.grants == Authorize(grants, BindingOf(record, action)).value
  {
    hide Settle, MayReplace, ResultsMatch, MayAct, Authorize;
    Run4(Alone(repo, grants), ReadForAct(0, id, action), Consume(0), CallAct(0, reply), Commit(0));
  }

  // ---- a stranded grant -------------------------------------------------------------------------------

  /** The action as its grant records it. */
  ghost predicate Stranded(w: World, record: Record, action: Action, reference: string) {
    && MayAct(record, action)
    && var b := BindingOf(record, action);
       && b in w.grants && w.grants[b].consumed && ValidReference(reference)
       && reference != w.grants[b].reference && reference !in w.grants[b].recovered
  }

  lemma RecoverStep(w: World, record: Record, action: Action, reference: string)
    requires Stranded(w, record, action, reference)
    ensures var b := BindingOf(record, action);
            var z := Apply(w, GrantRecovered(b, reference));
            && z.repo == w.repo && z.threads == w.threads && z.log == w.log + [Recovered(b, reference)]
            && b in z.grants && !z.grants[b].consumed && z.grants[b].reference == reference
  {
    hide ValidReference;
  }

  lemma AuthorizeStep(w: World, t: nat, record: Record, action: Action)
    requires t !in w.threads && record.runId in w.repo.runs && w.repo.runs[record.runId] == record && MayAct(record, action)
    requires var b := BindingOf(record, action); b in w.grants && !w.grants[b].consumed
    ensures var z := Apply(Apply(w, ReadForAct(t, record.runId, action)), Consume(t));
            && z.repo == w.repo && z.threads == w.threads[t := Acting(record, action)]
            && z.log == w.log + [Authorized(BindingOf(record, action))]
  {
    assert ActionMatches(BindingOf(record, action));
    hide MayAct, ActionMatches;
    var read := Apply(w, ReadForAct(t, record.runId, action));
    assert read == w.(threads := w.threads[t := Authorizing(record, action)]);
    assert read.threads[t := Acting(record, action)] == w.threads[t := Acting(record, action)];
  }

  lemma ActAndCommitSteps(w: World, t: nat, record: Record, action: Action, reply: Reply)
    requires ResultsMatch(w.repo) && record.runId in w.repo.runs && w.repo.runs[record.runId] == record && MayAct(record, action)
    requires t in w.threads && w.threads[t] == Acting(record, action)
    ensures var z := Apply(Apply(w, CallAct(t, reply)), Commit(t));
            && Moved(w.repo, z.repo, record.request, record.revision + 1, reply, Some(record.state.interaction.id))
            && z.log == w.log + [ActCalled(BindingOf(record, action)), Committed(record.runId, record.revision + 1)]
  {
    var previous := Some(record.state.interaction.id);
    var tr := Settle(reply, record.runId, record.request, previous);
    KeptUnderItsId(w.repo, record.runId);
    SettledCommits(w.repo, record, reply, previous);
    ReplacedIsMoved(w.repo, record, reply, previous);
    CallActStep(w, t, record, action, reply);
    hide Settle, Moved, MayReplace, ResultsMatch, MayAct, Replaced, BindingOf, Replacement, ApplyCallAct;
    CommitStep(Apply(w, CallAct(t, reply)), t, record, tr);
    assert w.log + [ActCalled(BindingOf(record, action))] + [Committed(record.runId, record.revision + 1)]
           == w.log + [ActCalled(BindingOf(record, action)), Committed(record.runId, record.revision + 1)];
  }

  lemma CallActStep(w: World, t: nat, record: Record, action: Action, reply: Reply)
    requires t in w.threads && w.threads[t] == Acting(record, action) && MayAct(record, action)
    ensures var tr := Settle(reply, record.runId, record.request, Some(record.state.interaction.id));
            var z := Apply(w, CallAct(t, reply));
            && z.repo == w.repo && t in z.threads && z.threads[t] == ActReturned(record, tr)
            && z.log == w.log + [ActCalled(BindingOf(record, action))]
  {
    hide Settle, MayAct;
  }

  lemma CommitStep(w: World, t: nat, record: Record, tr: Transition)
    requires t in w.threads && w.threads[t] == ActReturned(record, tr)
    requires MayReplace(w.repo, Replacement(record, tr), record.revision, tr.result)
    ensures var z := Apply(w, Commit(t));
            && z.repo == Replaced(w.repo, Replacement(record, tr), tr.result)
            && z.log == w.log + [Committed(record.runId, record.revision + 1)]
  {
    hide MayReplace, Replaced, Replacement;
  }

  /**
   * A grant whose caller died after consuming it is not lost: in any sound world, once the operator
   * recovers it, any caller can act on it, and the run moves on by the companion's reply.
   */
  lemma RecoveredGrantActs(w: World, t: nat, record: Record, action: Action, reference: string, reply: Reply)
    requires RunsOk(w) && t !in w.threads && record.runId in w.repo.runs && w.repo.runs[record.runId] == record
    requires Stranded(w, record, action, reference)
    ensures var b := BindingOf(record, action);
            var z := Run(w, [GrantRecovered(b, reference), ReadForAct(t, record.runId, action), Consume(t), CallAct(t, reply), Commit(t)]);
            && Moved(w.repo, z.repo, record.request, record.revision + 1, reply, Some(record.state.interaction.id))
            && z.log == w.log + [Recovered(b, reference), Authorized(b), ActCalled(b), Committed(record.runId, record.revision + 1)]
  {
    var b := BindingOf(record, action);
    RecoverStep(w, record, action, reference);
    var one := Apply(w, GrantRecovered(b, reference));
    assert MayAct(record, action) && ResultsMatch(w.repo);
    hide Apply, Stranded, RunsOk, ResultsMatch, Moved, MayAct;
    AuthorizeStep(one, t, record, action);
    var three := Apply(Apply(one, ReadForAct(t, record.runId, action)), Consume(t));
    ActAndCommitSteps(three, t, record, action, reply);
    Run4(w, GrantRecovered(b, reference), ReadForAct(t, record.runId, action), Consume(t), CallAct(t, reply));
    var five := [GrantRecovered(b, reference), ReadForAct(t, record.runId, action), Consume(t), CallAct(t, reply), Commit(t)];
    assert five[..4] == [GrantRecovered(b, reference), ReadForAct(t, record.runId, action), Consume(t), CallAct(t, reply)];
    assert Run(w, five) == Apply(Run(w, five[..4]), five[4]);
    hide Run;
  }
}
