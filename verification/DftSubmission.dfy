/**
 * Idempotent remote submission: the bridge (`dft/fake_bridge.py`), the adapter that survives lost
 * responses (`dft/vaspilot_backend.py`) and `DFTStageRunner.start`, under any pattern of losses and
 * crashes.
 */
module DftSubmission {
  import opened DftModels
  import opened Wrappers

  datatype Submit = Submit(key: string, request: Request)

  datatype Workflow = Workflow(submit: Submit, workflowId: TaskId, polls: nat, status: JobStatus)

  /** `BridgeWorkflowRecord`, as far as the adapter checks it. */
  datatype WorkflowRecord = WorkflowRecord(
    backendId: string, workflowId: TaskId, key: string, requestId: string, requestSha: Request,
    planHash: string, snapshotHash: string, taskHash: string, status: JobStatus, isMock: bool)

  datatype BridgeError = Transport | Conflict | NotFound | Protocol | InvalidInput

  function RecordOf(w: Workflow): WorkflowRecord {
    var r := w.submit.request;
    WorkflowRecord(r.backendId, w.workflowId, w.submit.key, r.requestId, r, r.planHash, r.snapshotHash, r.taskHash, w.status, r.isMock)
  }

  // ---- the bridge ----------------------------------------------------------------------------

  type Bridge = map<string, Workflow>

  /** What the bridge does with an accepted POST, before anything can be lost. */
  function Accept(b: Bridge, backendId: string, s: Submit): (Bridge, Result<WorkflowRecord, BridgeError>) {
    if !s.request.isMock || s.request.backendId != backendId then (b, Err(Protocol))
    else if s.key in b then
      if b[s.key].submit.request != s.request then (b, Err(Conflict)) else (b, Ok(RecordOf(b[s.key])))
    else
      var w := Workflow(s, BridgeWorkflow(s.key, s.request), 0, Created);
      (b[s.key := w], Ok(RecordOf(w)))
  }

  function ByKey(b: Bridge, key: string): Result<WorkflowRecord, BridgeError> {
    if key in b then Ok(RecordOf(b[key])) else Err(NotFound)
  }

  function Advanced(w: Workflow): Workflow {
    if Terminal(w.status) then w
    else w.(polls := w.polls + 1, status := if w.polls == 0 then Queued else if w.polls == 1 then Running else Succeeded)
  }

  function AfterPolls(w: Workflow, n: nat): Workflow { if n == 0 then w else Advanced(AfterPolls(w, n - 1)) }

  /** A workflow is queued, then running, then has succeeded at its third poll; an ended one stays as it is. */
  lemma {:induction false} BridgeLifecycle(s: Submit, id: TaskId, n: nat, ended: Workflow)
    requires ended.status in {Succeeded, Failed, Timeout, Cancelled}
    ensures AfterPolls(Workflow(s, id, 0, Created), n)
            == Workflow(s, id, if n <= 3 then n else 3, if n == 0 then Created else if n == 1 then Queued else if n == 2 then Running else Succeeded)
    ensures AfterPolls(ended, n) == ended
  {
    if n > 0 { BridgeLifecycle(s, id, n - 1, ended); }
  }

  ghost predicate BridgeValid(b: Bridge, backendId: string) {
    forall k :: k in b ==>
      && b[k].submit.key == k && b[k].workflowId == BridgeWorkflow(k, b[k].submit.request)
      && b[k].submit.request.isMock && b[k].submit.request.backendId == backendId
  }

  class FakeWorkflow {
    const submit: Submit
    const workflowId: TaskId
    var polls: nat
    var status: JobStatus

    constructor (submit: Submit)
      ensures Value() == Workflow(submit, BridgeWorkflow(submit.key, submit.request), 0, Created)
    {
      this.submit, workflowId, polls, status := submit, BridgeWorkflow(submit.key, submit.request), 0, Created;
    }

    function Value(): Workflow
      reads this
    {
      Workflow(submit, workflowId, polls, status)
    }
  }

  /** Both indexes hold the same workflow objects, each under its own name. */
  ghost predicate Indexes(byKey: map<string, FakeWorkflow>, byId: map<TaskId, FakeWorkflow>) {
    && (forall k :: k in byKey ==> byKey[k].submit.key == k && byKey[k].workflowId == BridgeWorkflow(k, byKey[k].submit.request))
    && (forall k :: k in byKey ==> byKey[k].workflowId in byId && byId[byKey[k].workflowId] == byKey[k])
    && (forall id :: id in byId ==> byId[id].workflowId == id && byId[id].submit.key in byKey && byKey[byId[id].submit.key] == byId[id])
  }

  ghost function Values(m: map<string, FakeWorkflow>): Bridge
    reads m.Values
  {
    map k | k in m :: m[k].Value()
  }

  lemma ValuesInsert(m: map<string, FakeWorkflow>, w: FakeWorkflow)
    ensures Values(m[w.submit.key := w]) == Values(m)[w.submit.key := w.Value()]
  {
  }

  lemma IndexesInsert(byKey: map<string, FakeWorkflow>, byId: map<TaskId, FakeWorkflow>, w: FakeWorkflow)
    requires Indexes(byKey, byId) && w.submit.key !in byKey
    requires w.workflowId == BridgeWorkflow(w.submit.key, w.submit.request)
    ensures Indexes(byKey[w.submit.key := w], byId[w.workflowId := w])
  {
    assert forall id :: id in byId ==> byId[id].submit.key != w.submit.key;
  }

  class FakeVASPilotBridgeTransport {
    const backendId: string
    const loseFirstSubmitResponse: bool
    var responseLost: bool
    var byKey: map<string, FakeWorkflow>
    var byId: map<TaskId, FakeWorkflow>

    ghost predicate Indexed()
      reads this
    {
      Indexes(byKey, byId)
    }

    ghost function Contents(): Bridge
      reads this, byKey.Values
    {
      Values(byKey)
    }

    ghost predicate Valid()
      reads this, byKey.Values
    {
      Indexed() && BridgeValid(Contents(), backendId)
    }

    constructor (backendId: string, loseFirstSubmitResponse: bool)
      ensures Valid() && Contents() == map[] && this.backendId == backendId
    {
      this.backendId, this.loseFirstSubmitResponse := backendId, loseFirstSubmitResponse;
      responseLost, byKey, byId := false, map[], map[];
    }

    /** `workflow_count` counts keys: the two indexes are in one-to-one agreement. */
    lemma IndexesAgree()
      requires Indexed()
      ensures |byKey.Keys| == |byId.Keys|
      ensures forall k, l :: k in byKey && l in byKey && k != l ==> byKey[k] != byKey[l]
    {
      assert forall k, l :: k in byKey && l in byKey && k != l ==> byKey[k].submit.key != byKey[l].submit.key;
      var ids := map k | k in byKey :: byKey[k].workflowId;
      var image := set k | k in byKey.Keys :: byKey[k].workflowId;
      assert image == byId.Keys by {
        forall id | id in byId ensures id in image { assert byId[id].submit.key in byKey; }
      }
      SameSize(byKey.Keys, byId.Keys, ids);
    }

    method Insert(s: Submit) returns (workflow: FakeWorkflow)
      requires Valid() && s.key !in byKey && s.request.isMock && s.request.backendId == backendId
      modifies this
      ensures Valid() && responseLost == old(responseLost)
      ensures workflow.Value() == Workflow(s, BridgeWorkflow(s.key, s.request), 0, Created)
      ensures Contents() == old(Contents())[s.key := workflow.Value()]
    {
      workflow := new FakeWorkflow(s);
      IndexesInsert(byKey, byId, workflow);
      ValuesInsert(byKey, workflow);
      hide Indexes, Values;
      assert BridgeValid(Contents()[s.key := workflow.Value()], backendId);
      hide BridgeValid;
      byKey := byKey[s.key := workflow];
      byId := byId[workflow.workflowId := workflow];
    }

    /** The first response may be lost after the bridge has accepted the request. */
    method SubmitWorkflow(s: Submit) returns (r: Result<WorkflowRecord, BridgeError>)
      requires Valid()
      modifies this
      ensures Valid()
      ensures Contents() == Accept(old(Contents()), backendId, s).0
      ensures r == Accept(old(Contents()), backendId, s).1 || (r == Err(Transport) && loseFirstSubmitResponse && !old(responseLost))
      ensures r == Err(Transport) || old(responseLost) ==> responseLost
    {
      if !s.request.isMock || s.request.backendId != backendId { return Err(Protocol); }
      var workflow: FakeWorkflow;
      if s.key in byKey {
        workflow := byKey[s.key];
        assert Contents()[s.key] == workflow.Value();
        if workflow.submit.request != s.request { return Err(Conflict); }
      } else {
        hide Indexed, BridgeValid;
        workflow := Insert(s);
      }
      if loseFirstSubmitResponse && !responseLost {
        responseLost := true;
        return Err(Transport);
      }
      return Ok(RecordOf(workflow.Value()));
    }

    method GetByKey(key: string) returns (r: Result<WorkflowRecord, BridgeError>)
      requires Valid()
      ensures r == ByKey(Contents(), key)
      ensures key in Contents() ==> r.Ok? && r.value.key == key && r.value.status == Contents()[key].status
      ensures key !in Contents() ==> r == Err(NotFound)
    {
      return if key in byKey then Ok(RecordOf(byKey[key].Value())) else Err(NotFound);
    }

    /** Polling by ID is seen through the key index as well: there is one object. */
    method GetById(id: TaskId) returns (r: Result<WorkflowRecord, BridgeError>)
      requires Valid()
      modifies byKey.Values
      ensures Valid()
      ensures r.Ok? <==> id in byId
      ensures r.Ok? ==> var key := byId[id].submit.key;
                        && key in old(Contents()) && Contents() == old(Contents())[key := Advanced(old(Contents())[key])]
                        && r.value == RecordOf(Contents()[key])
      ensures r.Err? ==> Contents() == old(Contents())
    {
      if id !in byId { return Err(NotFound); }
      var w := byId[id];
      var key := w.submit.key;
      assert byKey[key] == w;
      if !Terminal(w.status) {
        w.polls := w.polls + 1;
        w.status := if w.polls == 1 then Queued else if w.polls == 2 then Running else Succeeded;
      }
      forall k | k in byKey && k != key ensures byKey[k] != w {}
      return Ok(RecordOf(w.Value()));
    }
  }

  lemma {:induction false} SameSize(keys: set<string>, ids: set<TaskId>, f: map<string, TaskId>)
    requires keys <= f.Keys && ids == set k | k in keys :: f[k]
    requires forall k, l :: k in keys && l in keys && k != l ==> f[k] != f[l]
    ensures |keys| == |ids|
  {
    if keys == {} {
      assert ids == {};
    } else {
      var k :| k in keys;
      assert ids - {f[k]} == set l | l in keys - {k} :: f[l];
      SameSize(keys - {k}, ids - {f[k]}, f);
    }
  }

  // ---- the adapter -----------------------------------------------------------------------------

  function JobRefOf(r: WorkflowRecord): JobRef {
    JobRef(BridgeJob(r.backendId, r.workflowId, r.key, r.taskHash), r.backendId, r.workflowId, r.key, r.taskHash, r.isMock)
  }

  /** `_validate_submission` */
  predicate MatchesSubmission(r: WorkflowRecord, s: Submit) {
    && r.key == s.key && r.requestId == s.request.requestId && r.requestSha == s.request
    && r.planHash == s.request.planHash && r.snapshotHash == s.request.snapshotHash
    && r.taskHash == s.request.taskHash && r.isMock == s.request.isMock
  }

  /** What the network does to one submission: the POST may be lost on either way, and the GET too. */
  datatype Delivery = Delivered | LostRequest | LostResponse
  datatype Loss = Loss(post: Delivery, getLost: bool)

  predicate InputValid(backendId: string, s: Submit) { s.request.backendId == backendId && s.request.isMock && s.key != "" }

  /** `VASPilotBackend.submit`: on a transport error, ask for the workflow of the same key. */
  function AdapterSubmit(b: Bridge, backendId: string, s: Submit, loss: Loss): (Bridge, Result<JobRef, BridgeError>) {
    if !InputValid(backendId, s) then (b, Err(InvalidInput))
    else
      var (after, reply) := if loss.post.LostRequest? then (b, Err(Transport)) else Accept(b, backendId, s);
      var payload :=
        if loss.post.Delivered? then reply
        else if loss.getLost then Err(Transport)
        else if ByKey(after, s.key).Err? then Err(Transport)
        else ByKey(after, s.key);
      (after,
       if payload.Err? then Err(payload.error)
       else if MatchesSubmission(payload.value, s) then Ok(JobRefOf(payload.value))
       else Err(Protocol))
  }

  /** The reference of the one workflow of this key and this request. */
  ghost function TheRef(s: Submit): JobRef {
    var id, r := BridgeWorkflow(s.key, s.request), s.request;
    JobRef(BridgeJob(r.backendId, id, s.key, r.taskHash), r.backendId, id, s.key, r.taskHash, true)
  }

  /**
   * Exactly when a submission succeeds: the key is free or already this request's, and an answer gets
   * through. Another request under the key is a conflict, or a record that does not match if only the
   * second request was answered.
   */
  lemma SubmitSucceedsIff(b: Bridge, backendId: string, s: Submit, loss: Loss)
    requires BridgeValid(b, backendId)
    ensures AdapterSubmit(b, backendId, s, loss).1
            == if s.request.backendId != backendId || !s.request.isMock || s.key == "" then Err(InvalidInput)
               else if !loss.post.Delivered? && (loss.getLost || (loss.post.LostRequest? && s.key !in b)) then Err(Transport)
               else if s.key in b && b[s.key].submit.request != s.request then Err(if loss.post.Delivered? then Conflict else Protocol)
               else Ok(TheRef(s))
  {
  }

  /** Whatever record a bridge answers with, only one that a workflow of this very submission could have is accepted. */
  lemma OwnRecordsMatch(r: WorkflowRecord, s: Submit)
    ensures MatchesSubmission(r, s) <==> r == RecordOf(Workflow(s, r.workflowId, 0, r.status)).(backendId := r.backendId)
  {
  }

  /** An accepted reference names the one workflow of this key and this request; nothing else changes. */
  lemma SubmitKeepsBridge(b: Bridge, backendId: string, s: Submit, loss: Loss)
    requires BridgeValid(b, backendId)
    ensures var (after, r) := AdapterSubmit(b, backendId, s, loss);
            && BridgeValid(after, backendId)
            && after.Keys <= b.Keys + {s.key}
            && (forall k :: k in b ==> k in after && after[k] == b[k])
            && (r.Ok? ==> s.key in after && after[s.key].submit == s && r.value == TheRef(s) == JobRefOf(RecordOf(after[s.key])))
            && (s.key in after && s.key !in b ==> after[s.key] == Workflow(s, BridgeWorkflow(s.key, s.request), 0, Created))
  {
  }

  class VASPilotBackend {
    const transport: FakeVASPilotBridgeTransport

    constructor (transport: FakeVASPilotBridgeTransport)
      ensures this.transport == transport
    {
      this.transport := transport;
    }

    method SubmitJob(request: Request, key: string) returns (r: Result<JobRef, BridgeError>, ghost lost: bool)
      requires transport.Valid()
      modifies transport
      ensures transport.Valid()
      ensures var loss := Loss(if lost then LostResponse else Delivered, false);
              (transport.Contents(), r) == AdapterSubmit(old(transport.Contents()), transport.backendId, Submit(key, request), loss)
    {
      hide Indexes, Values, BridgeValid;
      lost := false;
      if request.backendId != transport.backendId || !request.isMock || key == "" { return Err(InvalidInput), false; }
      var s := Submit(key, request);
      var payload := transport.SubmitWorkflow(s);
      if payload == Err(Transport) {
        lost := true;
        payload := transport.GetByKey(key);
        if payload.Err? { return Err(Transport), lost; }
      }
      if payload.Err? { return Err(payload.error), lost; }
      if !MatchesSubmission(payload.value, s) { return Err(Protocol), lost; }
      return Ok(JobRefOf(payload.value)), lost;
    }
  }

  // ---- interleaved starts, lost responses and crashes ------------------------------------------------

  datatype Operation = Operation(submit: Submit, ref: JobRef)

  /** Where one `start` stands between two steps that others can see. */
  datatype Starter =
    | Looked(submit: Submit)
    | Unanswered(submit: Submit)
    | Submitted(submit: Submit, ref: JobRef)
    | Writing(submit: Submit, ref: JobRef)

  /** `created` lists the keys of the workflows in the order the bridge made them; `refs` what `submit` returned. */
  datatype System = System(
    bridge: Bridge, operations: map<string, Operation>, starters: map<nat, Starter>, created: seq<string>, refs: seq<(Submit, JobRef)>)

  datatype Event =
    | Look(t: nat, submit: Submit)
    | Post(t: nat, delivery: Delivery)
    | Get(t: nat, lost: bool)
    | Check(t: nat)
    | Replace(t: nat)
    | Crash(t: nat)
    | Polled(key: string)
    | CancelledRemotely(key: string)

  const EMPTY := System(map[], map[], map[], [], [])

  function Forget(y: System, t: nat): System { y.(starters := y.starters - {t}) }

  /** A recorded operation is replayed, and the call ends; otherwise it goes on to submit. */
  function ApplyLook(y: System, t: nat, s: Submit): System {
    if t in y.starters || s.key in y.operations then y else y.(starters := y.starters[t := Looked(s)])
  }

  /** The adapter has an answer of the bridge, to either request. */
  function Receive(y: System, t: nat, s: Submit, payload: Result<WorkflowRecord, BridgeError>): System {
    if payload.Ok? && MatchesSubmission(payload.value, s) then
      var ref := JobRefOf(payload.value);
      y.(starters := y.starters[t := Submitted(s, ref)], refs := y.refs + [(s, ref)])
    else Forget(y, t)
  }

  function ApplyPost(y: System, backendId: string, t: nat, delivery: Delivery): System {
    if t !in y.starters || !y.starters[t].Looked? then y
    else
      var s := y.starters[t].submit;
      if !InputValid(backendId, s) then Forget(y, t)
      else if delivery.LostRequest? then y.(starters := y.starters[t := Unanswered(s)])
      else
        var (after, reply) := Accept(y.bridge, backendId, s);
        var z := y.(bridge := after, created := if s.key in after && s.key !in y.bridge then y.created + [s.key] else y.created);
        if delivery.LostResponse? then z.(starters := z.starters[t := Unanswered(s)]) else Receive(z, t, s, reply)
  }

  /** After a transport error the adapter asks for the workflow of its key. */
  function ApplyGet(y: System, t: nat, lost: bool): System {
    if t !in y.starters || !y.starters[t].Unanswered? then y
    else if lost then Forget(y, t)
    else Receive(y, t, y.starters[t].submit, ByKey(y.bridge, y.starters[t].submit.key))
  }

  /** Writing the record: its place is tested first, and replaced later. */
  function ApplyCheck(y: System, t: nat): System {
    if t !in y.starters || !y.starters[t].Submitted? then y
    else
      var Submitted(s, ref) := y.starters[t];
      if s.key in y.operations then Forget(y, t) else y.(starters := y.starters[t := Writing(s, ref)])
  }

  function ApplyReplace(y: System, t: nat): System {
    if t !in y.starters || !y.starters[t].Writing? then y
    else
      var Writing(s, ref) := y.starters[t];
      Forget(y, t).(operations := y.operations[s.key := Operation(s, ref)])
  }

  function Step(y: System, backendId: string, e: Event): System {
    match e
    case Look(t, s) => ApplyLook(y, t, s)
    case Post(t, delivery) => ApplyPost(y, backendId, t, delivery)
    case Get(t, lost) => ApplyGet(y, t, lost)
    case Check(t) => ApplyCheck(y, t)
    case Replace(t) => ApplyReplace(y, t)
    case Crash(t) => Forget(y, t)
    case Polled(k) => if k in y.bridge then y.(bridge := y.bridge[k := Advanced(y.bridge[k])]) else y
    case CancelledRemotely(k) =>
      if k in y.bridge && !Terminal(y.bridge[k].status) then y.(bridge := y.bridge[k := y.bridge[k].(status := Cancelled)]) else y
  }

  function Run(backendId: string, events: seq<Event>): System {
    if events == [] then EMPTY
    else Step(Run(backendId, events[..|events| - 1]), backendId, events[|events| - 1])
  }

  // ---- one undisturbed start ----------------------------------------------------------------------------

  /** `DFTStageRunner.start` with nobody else around: submit through the adapter, then record. */
  function StartOnce(y: System, backendId: string, s: Submit, loss: Loss): System {
    if s.key in y.operations then y
    else
      var (after, r) := AdapterSubmit(y.bridge, backendId, s, loss);
      System(after,
        if r.Ok? then y.operations[s.key := Operation(s, r.value)] else y.operations,
        y.starters,
        if s.key in after && s.key !in y.bridge then y.created + [s.key] else y.created,
        if r.Ok? then y.refs + [(s, r.value)] else y.refs)
  }

  lemma Updates(m: map<nat, Starter>, t: nat, x: Starter, z: Starter)
    requires t !in m
    ensures m - {t} == m && m[t := x] - {t} == m && m[t := x][t := z] == m[t := z]
  {
  }

  /** What an answer makes of a caller that is alone. */
  lemma ReceiveAlone(y: System, m: map<nat, Starter>, t: nat, x: Starter, s: Submit, payload: Result<WorkflowRecord, BridgeError>)
    requires t !in m && y.starters == m[t := x]
    ensures Receive(y, t, s, payload) ==
            if payload.Ok? && MatchesSubmission(payload.value, s) then
              y.(starters := m[t := Submitted(s, JobRefOf(payload.value))], refs := y.refs + [(s, JobRefOf(payload.value))])
            else y.(starters := m)
  {
    hide MatchesSubmission, JobRefOf;
    Updates(m, t, x, x);
    if payload.Ok? { Updates(m, t, x, Submitted(s, JobRefOf(payload.value))); }
  }

  /** The state after the adapter has answered its only caller. */
  function AfterSubmit(y: System, backendId: string, t: nat, s: Submit, loss: Loss): System {
    var (after, r) := AdapterSubmit(y.bridge, backendId, s, loss);
    System(after, y.operations, if r.Ok? then y.starters[t := Submitted(s, r.value)] else y.starters,
           if s.key in after && s.key !in y.bridge then y.created + [s.key] else y.created,
           if r.Ok? then y.refs + [(s, r.value)] else y.refs)
  }

  /** The two requests of one caller add up to the adapter's submission. */
  lemma UndisturbedSubmit(y: System, backendId: string, t: nat, s: Submit, loss: Loss)
    requires t !in y.starters
    ensures ApplyGet(ApplyPost(y.(starters := y.starters[t := Looked(s)]), backendId, t, loss.post), t, loss.getLost)
            == AfterSubmit(y, backendId, t, s, loss)
  {
    hide Accept, ByKey, MatchesSubmission, JobRefOf, InputValid, Receive;
    var m, one := y.starters, y.(starters := y.starters[t := Looked(s)]);
    Updates(m, t, Looked(s), Unanswered(s));
    if InputValid(backendId, s) {
      var (after, reply) := if loss.post.LostRequest? then (y.bridge, Err(Transport)) else Accept(y.bridge, backendId, s);
      var z := one.(bridge := after, created := if s.key in after && s.key !in y.bridge then y.created + [s.key] else y.created);
      if loss.post.Delivered? {
        ReceiveAlone(z, m, t, Looked(s), s, reply);
      } else {
        var waiting := z.(starters := m[t := Unanswered(s)]);
        assert ApplyPost(one, backendId, t, loss.post) == waiting;
        Updates(m, t, Unanswered(s), Unanswered(s));
        ReceiveAlone(waiting, m, t, Unanswered(s), s, ByKey(after, s.key));
      }
    }
  }

  /** The steps of one caller add up to the adapter's submission and one record. */
  lemma UndisturbedStart(y: System, backendId: string, t: nat, s: Submit, loss: Loss)
    requires t !in y.starters
    ensures ApplyReplace(ApplyCheck(ApplyGet(ApplyPost(ApplyLook(y, t, s), backendId, t, loss.post), t, loss.getLost), t), t)
            == StartOnce(y, backendId, s, loss)
  {
    hide AdapterSubmit, ApplyPost, ApplyGet;
    if s.key in y.operations {
      Unmoved(y, backendId, t, loss);
    } else {
      UndisturbedSubmit(y, backendId, t, s, loss);
      var r := AdapterSubmit(y.bridge, backendId, s, loss).1;
      if r.Ok? { Updates(y.starters, t, Submitted(s, r.value), Writing(s, r.value)); Updates(y.starters, t, Writing(s, r.value), Looked(s)); }
    }
  }

  /** A start records its workflow whenever the key is free, or already this request's, and an answer gets through. */
  lemma StartRecords(y: System, backendId: string, s: Submit, loss: Loss)
    requires BridgeValid(y.bridge, backendId) && s.key !in y.operations
    requires s.request.backendId == backendId && s.request.isMock && s.key != ""
    requires if s.key in y.bridge then y.bridge[s.key].submit.request == s.request else !loss.post.LostRequest?
    requires loss.post.Delivered? || !loss.getLost
    ensures var z := StartOnce(y, backendId, s, loss);
            && z.operations == y.operations[s.key := Operation(s, TheRef(s))]
            && z.refs == y.refs + [(s, TheRef(s))]
            && z.created == if s.key in y.bridge then y.created else y.created + [s.key]
  {
    hide AdapterSubmit, TheRef;
    SubmitSucceedsIff(y.bridge, backendId, s, loss);
    SubmitKeepsBridge(y.bridge, backendId, s, loss);
  }

  lemma Unmoved(y: System, backendId: string, t: nat, loss: Loss)
    requires t !in y.starters
    ensures ApplyGet(ApplyPost(y, backendId, t, loss.post), t, loss.getLost) == y
  {
  }

  // ---- what every step keeps ------------------------------------------------------------------------------

  ghost predicate RefOk(b: Bridge, s: Submit, ref: JobRef) {
    s.key in b && b[s.key].submit == s && ref == JobRefOf(RecordOf(b[s.key]))
  }

  ghost predicate CreatedOk(b: Bridge, created: seq<string>) {
    forall k :: multiset(created)[k] == (if k in b then 1 else 0)
  }

  ghost predicate RefsOk(b: Bridge, refs: seq<(Submit, JobRef)>) {
    forall x :: x in refs ==> RefOk(b, x.0, x.1)
  }

  ghost predicate OperationsOk(b: Bridge, operations: map<string, Operation>) {
    forall k :: k in operations ==> operations[k].submit.key == k && RefOk(b, operations[k].submit, operations[k].ref)
  }

  ghost predicate StartersOk(b: Bridge, starters: map<nat, Starter>) {
    forall t :: t in starters && (starters[t].Submitted? || starters[t].Writing?) ==> RefOk(b, starters[t].submit, starters[t].ref)
  }

  ghost predicate SystemOk(y: System, backendId: string) {
    && BridgeValid(y.bridge, backendId) && CreatedOk(y.bridge, y.created)
    && RefsOk(y.bridge, y.refs) && OperationsOk(y.bridge, y.operations) && StartersOk(y.bridge, y.starters)
  }

  /** Workflows keep their request and their ID. */
  ghost predicate SameIdentities(b: Bridge, after: Bridge) {
    forall k :: k in b ==> k in after && after[k].submit == b[k].submit && after[k].workflowId == b[k].workflowId
  }

  lemma RefsStay(y: System, after: Bridge)
    requires SameIdentities(y.bridge, after) && RefsOk(y.bridge, y.refs) && OperationsOk(y.bridge, y.operations) && StartersOk(y.bridge, y.starters)
    ensures RefsOk(after, y.refs) && OperationsOk(after, y.operations) && StartersOk(after, y.starters)
  {
  }

  lemma CreatedStays(b: Bridge, after: Bridge, created: seq<string>)
    requires CreatedOk(b, created) && after.Keys == b.Keys
    ensures CreatedOk(after, created)
  {
  }

  lemma CreatedGrows(b: Bridge, after: Bridge, created: seq<string>, key: string)
    requires CreatedOk(b, created) && key !in b && after.Keys == b.Keys + {key}
    ensures CreatedOk(after, created + [key])
  {
    assert multiset(created + [key]) == multiset(created) + multiset{key};
    forall k ensures k in after <==> k in b || k == key { assert k in after <==> k in after.Keys; }
  }

  lemma AcceptEffect(b: Bridge, backendId: string, s: Submit)
    requires BridgeValid(b, backendId)
    ensures var (after, r) := Accept(b, backendId, s);
            && BridgeValid(after, backendId) && SameIdentities(b, after)
            && after.Keys == (if s.key in after then b.Keys + {s.key} else b.Keys)
            && (r.Ok? && MatchesSubmission(r.value, s) ==> RefOk(after, s, JobRefOf(r.value)))
  {
  }

  lemma ReceiveKeepsSystem(y: System, backendId: string, t: nat, s: Submit, payload: Result<WorkflowRecord, BridgeError>)
    requires SystemOk(y, backendId)
    requires payload.Ok? && MatchesSubmission(payload.value, s) ==> RefOk(y.bridge, s, JobRefOf(payload.value))
    ensures SystemOk(Receive(y, t, s, payload), backendId)
  {
    hide BridgeValid, CreatedOk, RefOk, MatchesSubmission, JobRefOf;
  }

  /** The state once the bridge has taken a POST, before its answer arrives. */
  function Accepted(y: System, backendId: string, s: Submit): System {
    var after := Accept(y.bridge, backendId, s).0;
    y.(bridge := after, created := if s.key in after && s.key !in y.bridge then y.created + [s.key] else y.created)
  }

  lemma AcceptKeepsSystem(y: System, backendId: string, s: Submit)
    requires SystemOk(y, backendId)
    ensures SystemOk(Accepted(y, backendId, s), backendId)
  {
    hide BridgeValid, RefOk, SameIdentities, CreatedOk, Accept, MatchesSubmission, JobRefOf, RefsOk, OperationsOk, StartersOk;
    AcceptEffect(y.bridge, backendId, s);
    var after := Accept(y.bridge, backendId, s).0;
    RefsStay(y, after);
    if s.key in after && s.key !in y.bridge {
      CreatedGrows(y.bridge, after, y.created, s.key);
    } else {
      CreatedStays(y.bridge, after, y.created);
    }
  }

  lemma PostKeepsSystem(y: System, backendId: string, t: nat, delivery: Delivery)
    requires SystemOk(y, backendId)
    ensures SystemOk(ApplyPost(y, backendId, t, delivery), backendId)
  {
    hide BridgeValid, RefOk, SameIdentities, CreatedOk, Accept, Receive, MatchesSubmission, JobRefOf, RefsOk, OperationsOk, InputValid;
    if t in y.starters && y.starters[t].Looked? {
      var s := y.starters[t].submit;
      AcceptEffect(y.bridge, backendId, s);
      AcceptKeepsSystem(y, backendId, s);
      var z := Accepted(y, backendId, s);
      ReceiveKeepsSystem(z, backendId, t, s, Accept(y.bridge, backendId, s).1);
    }
  }

  lemma GetKeepsSystem(y: System, backendId: string, t: nat, lost: bool)
    requires SystemOk(y, backendId)
    ensures SystemOk(ApplyGet(y, t, lost), backendId)
  {
    if t in y.starters && y.starters[t].Unanswered? {
      var s := y.starters[t].submit;
      assert ByKey(y.bridge, s.key).Ok? && MatchesSubmission(ByKey(y.bridge, s.key).value, s) ==>
               RefOk(y.bridge, s, JobRefOf(ByKey(y.bridge, s.key).value));
      hide BridgeValid, CreatedOk, RefOk, MatchesSubmission, JobRefOf, ByKey, Receive;
      ReceiveKeepsSystem(y, backendId, t, s, ByKey(y.bridge, s.key));
    }
  }

  lemma RemoteKeepsSystem(y: System, backendId: string, key: string, w: Workflow)
    requires SystemOk(y, backendId) && key in y.bridge
    requires w.submit == y.bridge[key].submit && w.workflowId == y.bridge[key].workflowId
    ensures SystemOk(y.(bridge := y.bridge[key := w]), backendId)
  {
    var after := y.bridge[key := w];
    assert SameIdentities(y.bridge, after) && BridgeValid(after, backendId);
    hide BridgeValid, SameIdentities, RefsOk, OperationsOk, CreatedOk, StartersOk;
    RefsStay(y, after);
    CreatedStays(y.bridge, after, y.created);
  }

  lemma RecordKeepsSystem(y: System, backendId: string, t: nat)
    requires SystemOk(y, backendId)
    ensures SystemOk(ApplyCheck(y, t), backendId) && SystemOk(ApplyReplace(y, t), backendId)
  {
    hide BridgeValid, CreatedOk, RefOk;
  }

  lemma StepKeepsSystem(y: System, backendId: string, e: Event)
    requires SystemOk(y, backendId)
    ensures SystemOk(Step(y, backendId, e), backendId)
  {
    hide BridgeValid, CreatedOk, RefOk, ApplyPost, ApplyGet, ApplyCheck, ApplyReplace;
    match e
    case Look(t, s) =>
    case Post(t, delivery) => PostKeepsSystem(y, backendId, t, delivery);
    case Get(t, lost) => GetKeepsSystem(y, backendId, t, lost);
    case Check(t) => RecordKeepsSystem(y, backendId, t);
    case Replace(t) => RecordKeepsSystem(y, backendId, t);
    case Crash(t) =>
    case Polled(k) => if k in y.bridge { RemoteKeepsSystem(y, backendId, k, Advanced(y.bridge[k])); }
    case CancelledRemotely(k) =>
      if k in y.bridge && !Terminal(y.bridge[k].status) { RemoteKeepsSystem(y, backendId, k, y.bridge[k].(status := Cancelled)); }
  }

  lemma {:induction false} EveryRunIsOk(backendId: string, events: seq<Event>)
    ensures SystemOk(Run(backendId, events), backendId)
  {
    hide SystemOk, Step;
    if events == [] {
      assert SystemOk(Run(backendId, events), backendId) by { EmptyIsOk(backendId); }
    } else {
      EveryRunIsOk(backendId, events[..|events| - 1]);
      StepKeepsSystem(Run(backendId, events[..|events| - 1]), backendId, events[|events| - 1]);
    }
  }

  lemma EmptyIsOk(backendId: string)
    ensures SystemOk(EMPTY, backendId)
  {
  }

  // ---- runs that do something -----------------------------------------------------------------------------

  lemma RunPush(backendId: string, events: seq<Event>, e: Event)
    ensures Run(backendId, events + [e]) == Step(Run(backendId, events), backendId, e)
  {
    assert (events + [e])[..|events|] == events;
  }

  /** After any run, five steps of a caller that nobody disturbs are one start. */
  lemma RunStarts(backendId: string, events: seq<Event>, t: nat, s: Submit, loss: Loss)
    requires t !in Run(backendId, events).starters
    ensures Run(backendId, events + [Look(t, s), Post(t, loss.post), Get(t, loss.getLost), Check(t), Replace(t)])
            == StartOnce(Run(backendId, events), backendId, s, loss)
  {
    hide StartOnce, ApplyLook, ApplyPost, ApplyGet, ApplyCheck, ApplyReplace;
    var one := events + [Look(t, s)];
    var two := one + [Post(t, loss.post)];
    var three := two + [Get(t, loss.getLost)];
    var four := three + [Check(t)];
    assert events + [Look(t, s), Post(t, loss.post), Get(t, loss.getLost), Check(t), Replace(t)] == four + [Replace(t)];
    RunPush(backendId, events, Look(t, s));
    RunPush(backendId, one, Post(t, loss.post));
    RunPush(backendId, two, Get(t, loss.getLost));
    RunPush(backendId, three, Check(t));
    RunPush(backendId, four, Replace(t));
    hide Run;
    UndisturbedStart(Run(backendId, events), backendId, t, s, loss);
  }

  lemma RunFour(backendId: string, events: seq<Event>, a: Event, b: Event, c: Event, d: Event)
    ensures Run(backendId, events + [a, b, c, d])
            == Step(Step(Step(Step(Run(backendId, events), backendId, a), backendId, b), backendId, c), backendId, d)
  {
    hide Step;
    RunPush(backendId, events, a);
    RunPush(backendId, events + [a], b);
    RunPush(backendId, events + [a] + [b], c);
    RunPush(backendId, events + [a] + [b] + [c], d);
    assert events + [a] + [b] + [c] + [d] == events + [a, b, c, d];
  }

  /** Both callers have the reference of the one workflow. */
  ghost predicate RaceSoFar(y: System, s: Submit) {
    && y.operations == map[] && y.created == [s.key] && y.refs == [(s, TheRef(s)), (s, TheRef(s))]
    && y.starters == map[0 := Submitted(s, TheRef(s)), 1 := Submitted(s, TheRef(s))]
  }

  /** Two starts of one key that both look before either posts: one workflow, one record, one reference for both. */
  lemma RacingStarts(backendId: string, s: Submit)
    requires s.request.backendId == backendId && s.request.isMock && s.key != ""
    ensures var y := Run(backendId, [Look(0, s), Look(1, s), Post(0, LostResponse), Post(1, Delivered), Get(0, false),
                                     Check(0), Check(1), Replace(1), Replace(0)]);
            && y.operations == map[s.key := Operation(s, TheRef(s))]
            && y.created == [s.key] && y.refs == [(s, TheRef(s)), (s, TheRef(s))] && y.starters == map[]
  {
    var posted: seq<Event> := [Look(0, s), Look(1, s), Post(0, LostResponse), Post(1, Delivered)];
    var raced := posted + [Get(0, false)];
    RunFour(backendId, [], Look(0, s), Look(1, s), Post(0, LostResponse), Post(1, Delivered));
    assert [] + posted == posted;
    RunPush(backendId, posted, Get(0, false));
    RaceStarts(backendId, s);
    RunFour(backendId, raced, Check(0), Check(1), Replace(1), Replace(0));
    assert raced + [Check(0), Check(1), Replace(1), Replace(0)]
           == [Look(0, s), Look(1, s), Post(0, LostResponse), Post(1, Delivered), Get(0, false), Check(0), Check(1), Replace(1), Replace(0)];
    var y := Run(backendId, raced);
    assert y == Step(Step(Step(Step(Step(EMPTY, backendId, Look(0, s)), backendId, Look(1, s)), backendId, Post(0, LostResponse)),
                               backendId, Post(1, Delivered)), backendId, Get(0, false));
    hide Run, Step, TheRef;
    RaceEnds(backendId, y, s);
  }

  lemma RaceStarts(backendId: string, s: Submit)
    requires s.request.backendId == backendId && s.request.isMock && s.key != ""
    ensures RaceSoFar(Step(Step(Step(Step(Step(EMPTY, backendId, Look(0, s)), backendId, Look(1, s)), backendId, Post(0, LostResponse)),
                                     backendId, Post(1, Delivered)), backendId, Get(0, false)), s)
  {
    var two := Step(Step(EMPTY, backendId, Look(0, s)), backendId, Look(1, s));
    assert two.starters == map[0 := Looked(s), 1 := Looked(s)];
    var three := Step(two, backendId, Post(0, LostResponse));
    assert three.starters == map[0 := Unanswered(s), 1 := Looked(s)] && three.created == [s.key];
    var four := Step(three, backendId, Post(1, Delivered));
    assert four.starters == map[0 := Unanswered(s), 1 := Submitted(s, TheRef(s))] && four.refs == [(s, TheRef(s))];
  }

  lemma RaceEnds(backendId: string, y: System, s: Submit)
    requires RaceSoFar(y, s)
    ensures var z := Step(Step(Step(Step(y, backendId, Check(0)), backendId, Check(1)), backendId, Replace(1)), backendId, Replace(0));
            && z.operations == map[s.key := Operation(s, TheRef(s))]
            && z.created == [s.key] && z.refs == [(s, TheRef(s)), (s, TheRef(s))] && z.starters == map[]
  {
    hide TheRef;
    var checked := Step(Step(y, backendId, Check(0)), backendId, Check(1));
    assert checked == y.(starters := map[0 := Writing(s, TheRef(s)), 1 := Writing(s, TheRef(s))]);
  }

  lemma PollsOne(backendId: string, events: seq<Event>, key: string)
    requires key in Run(backendId, events).bridge
    ensures var z := Run(backendId, events + [Polled(key)]).bridge;
            key in z && z[key] == Advanced(Run(backendId, events).bridge[key])
  {
    RunPush(backendId, events, Polled(key));
  }

  lemma CancelsOne(backendId: string, events: seq<Event>, key: string)
    requires key in Run(backendId, events).bridge && !Terminal(Run(backendId, events).bridge[key].status)
    ensures var z := Run(backendId, events + [CancelledRemotely(key)]).bridge; key in z && z[key].status == Cancelled
  {
    RunPush(backendId, events, CancelledRemotely(key));
  }

  /** Polls and a remote cancel go on behind everybody's back: three polls end a new workflow, a cancel ends one that has not ended. */
  lemma RemoteEnds(backendId: string, events: seq<Event>, key: string)
    requires key in Run(backendId, events).bridge
    requires Run(backendId, events).bridge[key].status == Created && Run(backendId, events).bridge[key].polls == 0
    ensures var z := Run(backendId, events + [Polled(key)] + [Polled(key)] + [Polled(key)]).bridge; key in z && z[key].status == Succeeded
    ensures var z := Run(backendId, events + [CancelledRemotely(key)] + [Polled(key)]).bridge; key in z && z[key].status == Cancelled
  {
    PollsOne(backendId, events, key);
    PollsOne(backendId, events + [Polled(key)], key);
    PollsOne(backendId, events + [Polled(key)] + [Polled(key)], key);
    CancelsOne(backendId, events, key);
    PollsOne(backendId, events + [CancelledRemotely(key)], key);
    hide Run;
  }

  // ---- main results -----------------------------------------------------------------------------------------

  /** At most one workflow was ever created for a key, whatever was lost, whoever crashed, and however the starts interleave. */
  lemma ExactlyOnce(backendId: string, events: seq<Event>, key: string)
    ensures multiset(Run(backendId, events).created)[key] <= 1
    ensures key in Run(backendId, events).operations ==> multiset(Run(backendId, events).created)[key] == 1
  {
    hide Run, RefOk;
    EveryRunIsOk(backendId, events);
    var y := Run(backendId, events);
    assert key in y.operations ==> y.operations[key].submit.key in y.bridge by { OperationKnown(y, backendId, key); }
  }

  lemma OperationKnown(y: System, backendId: string, key: string)
    requires SystemOk(y, backendId)
    ensures key in y.operations ==> key in y.bridge && y.operations[key].submit.key == key
  {
  }

  /** Every reference ever returned for a key is the same, and belongs to the same request. */
  lemma OneReferencePerKey(backendId: string, events: seq<Event>, i: nat, j: nat)
    requires i < |Run(backendId, events).refs| && j < |Run(backendId, events).refs|
    requires Run(backendId, events).refs[i].0.key == Run(backendId, events).refs[j].0.key
    ensures Run(backendId, events).refs[i] == Run(backendId, events).refs[j]
  {
    hide Run;
    EveryRunIsOk(backendId, events);
    var y := Run(backendId, events);
    assert y.refs[i] in y.refs && y.refs[j] in y.refs;
  }

  /** Once recorded, an operation's reference is the one every submission of its key gets or got. */
  lemma RecordedReferenceIsTheReturnedOne(backendId: string, events: seq<Event>, i: nat)
    requires i < |Run(backendId, events).refs| && Run(backendId, events).refs[i].0.key in Run(backendId, events).operations
    ensures var y := Run(backendId, events);
            var op := y.operations[y.refs[i].0.key];
            y.refs[i] == (op.submit, op.ref)
  {
    hide Run;
    EveryRunIsOk(backendId, events);
    var y := Run(backendId, events);
    assert y.refs[i] in y.refs;
  }

  /** A replacement finds in its place what it is about to write. */
  lemma ReplaceKeepsRecord(y: System, backendId: string, t: nat, key: string)
    requires SystemOk(y, backendId) && key in y.operations
    ensures var z := ApplyReplace(y, t); key in z.operations && z.operations[key] == y.operations[key]
  {
    hide BridgeValid, CreatedOk, RefsOk, JobRefOf, RecordOf;
    if t in y.starters && y.starters[t].Writing? && y.starters[t].submit.key == key {
      assert RefOk(y.bridge, y.starters[t].submit, y.starters[t].ref);
      assert RefOk(y.bridge, y.operations[key].submit, y.operations[key].ref);
    }
  }

  /** No other step touches a record. */
  lemma OthersKeepRecords(y: System, backendId: string, e: Event)
    requires !e.Replace?
    ensures Step(y, backendId, e).operations == y.operations
  {
    hide Accept, ByKey, InputValid, Receive, Advanced;
    match e
    case Post(t, delivery) =>
      if t in y.starters {
        var s := y.starters[t].submit;
        var (after, reply) := Accept(y.bridge, backendId, s);
        var z := y.(bridge := after, created := if s.key in after && s.key !in y.bridge then y.created + [s.key] else y.created);
        AnswersKeepRecords(z, t, s, reply);
      }
    case Get(t, lost) =>
      if t in y.starters { AnswersKeepRecords(y, t, y.starters[t].submit, ByKey(y.bridge, y.starters[t].submit.key)); }
    case _ =>
  }

  lemma AnswersKeepRecords(y: System, t: nat, s: Submit, payload: Result<WorkflowRecord, BridgeError>)
    ensures Receive(y, t, s, payload).operations == y.operations
  {
    hide MatchesSubmission, JobRefOf;
  }

  lemma StepKeepsRecords(y: System, backendId: string, e: Event, key: string)
    requires SystemOk(y, backendId) && key in y.operations
    ensures key in Step(y, backendId, e).operations && Step(y, backendId, e).operations[key] == y.operations[key]
  {
    hide SystemOk, ApplyReplace;
    if e.Replace? { ReplaceKeepsRecord(y, backendId, e.t, key); } else { OthersKeepRecords(y, backendId, e); }
  }

  /**
   * A recorded operation never changes, although its place is tested and replaced without a lock: all
   * callers that get as far as writing one key are about to write the same record.
   */
  lemma {:induction false} OperationsAreWriteOnce(backendId: string, before: seq<Event>, after: seq<Event>, key: string)
    requires key in Run(backendId, before).operations
    ensures var z := Run(backendId, before + after);
            key in z.operations && z.operations[key] == Run(backendId, before).operations[key]
    decreases |after|
  {
    hide SystemOk, Step;
    if after == [] {
      assert before + after == before;
    } else {
      var n := |after| - 1;
      OperationsAreWriteOnce(backendId, before, after[..n], key);
      EveryRunIsOk(backendId, before + after[..n]);
      assert before + after == (before + after[..n]) + [after[n]];
      assert (before + after)[..|before + after| - 1] == before + after[..n];
      StepKeepsRecords(Run(backendId, before + after[..n]), backendId, after[n], key);
    }
  }

  /** In no run are two callers about to write different records in one place. */
  lemma WritersAgree(backendId: string, events: seq<Event>, t: nat, u: nat)
    requires var y := Run(backendId, events);
             t in y.starters && u in y.starters && y.starters[t].Writing? && y.starters[u].Writing?
             && y.starters[t].submit.key == y.starters[u].submit.key
    ensures Run(backendId, events).starters[t] == Run(backendId, events).starters[u]
  {
    hide Run;
    EveryRunIsOk(backendId, events);
  }
}
