/**
 * The Gateway repository: the lock-protected dictionaries (`gateway/memory.py`) and the SQLite tables
 * (`gateway/persistence.py`), both proved against one specification on maps.
 */
module GatewayRepository {
  import opened GatewayModels
  import opened Wrappers

  // ---- the specification ---------------------------------------------------------------

  datatype Repo = Repo(runs: map<RunId, Record>, results: map<RunId, ResultRecord>)

  datatype Error = ConcurrentUpdate | Integrity

  /** Runs are stored under their own ID, and a stored result is bound by the state of its run. */
  ghost predicate RepoValid(repo: Repo) {
    && (forall id :: id in repo.runs ==> repo.runs[id].runId == id && repo.runs[id].Valid())
    && forall id :: id in repo.results ==> id in repo.runs && Bound(id, repo.runs[id].state, Some(repo.results[id]))
  }

  const EMPTY := Repo(map[], map[])

  function CreateOrGet(repo: Repo, record: Record): (Repo, Record, bool) {
    if record.runId in repo.runs then (repo, repo.runs[record.runId], false)
    else (repo.(runs := repo.runs[record.runId := record]), record, true)
  }

  /** When a replacement is stored: one revision further, the same request, and a result that belongs. */
  predicate MayReplace(repo: Repo, record: Record, expected: nat, result: Option<ResultRecord>) {
    && record.runId in repo.runs
    && repo.runs[record.runId].revision == expected
    && record.revision == expected + 1
    && repo.runs[record.runId].request == record.request
    && repo.runs[record.runId].requestSha == record.requestSha
    && Bound(record.runId, record.state, result)
    && (record.runId in repo.results ==> result == Some(repo.results[record.runId]))
  }

  /** Exactly when a replacement is stored, state by state. */
  lemma ReplacesIff(repo: Repo, record: Record, expected: nat, result: Option<ResultRecord>)
    ensures MayReplace(repo, record, expected, result) <==>
              && record.runId in repo.runs
              && var current := repo.runs[record.runId];
                 && current.request == record.request && current.requestSha == record.requestSha
                 && current.revision == expected == record.revision - 1
                 && (match record.state
                     case Succeeded(uri, authoritative, sha) => Fits(result, record.runId, uri, authoritative, sha)
                     case Partial(uri, authoritative, sha, _) => Fits(result, record.runId, uri, authoritative, sha)
                     case _ => result.None?)
                 && (record.runId in repo.results ==> result == Some(repo.results[record.runId]))
  {
  }

  /** The result belongs to the run and is the one its state names. */
  ghost predicate Fits(result: Option<ResultRecord>, id: RunId, uri: Uri, authoritative: Digest, sha: Digest) {
    && result.Some? && result.value.runId == id && result.value.reportUri == uri
    && result.value.authoritative == authoritative && OfResult(result.value) == sha
  }

  function Replaced(repo: Repo, record: Record, result: Option<ResultRecord>): Repo {
    Repo(repo.runs[record.runId := record],
         if result.Some? then repo.results[record.runId := result.value] else repo.results)
  }

  function ReplaceRun(repo: Repo, record: Record, expected: nat, result: Option<ResultRecord>): Repo {
    if MayReplace(repo, record, expected, result) then Replaced(repo, record, result) else repo
  }

  function GetRun(repo: Repo, id: RunId): Option<Record> {
    if id in repo.runs then Some(repo.runs[id]) else None
  }

  function GetResult(repo: Repo, id: RunId): Option<ResultRecord> {
    if id in repo.results then Some(repo.results[id]) else None
  }

  lemma CreateKeepsValid(repo: Repo, record: Record)
    requires RepoValid(repo) && record.Valid()
    ensures RepoValid(CreateOrGet(repo, record).0)
  {
  }

  lemma ReplaceKeepsValid(repo: Repo, record: Record, expected: nat, result: Option<ResultRecord>)
    requires RepoValid(repo)
    ensures RepoValid(ReplaceRun(repo, record, expected, result))
  {
    if MayReplace(repo, record, expected, result) {
      var current := repo.runs[record.runId];
      assert current.runId == record.runId && record.Valid();
    }
  }

  /** A result, once stored, is never changed or detached. */
  lemma ResultsAreImmutable(repo: Repo, record: Record, expected: nat, result: Option<ResultRecord>)
    ensures forall id :: id in repo.results ==>
              GetResult(ReplaceRun(repo, record, expected, result), id) == Some(repo.results[id])
  {
  }

  // ---- in-memory repository ------------------------------------------------------------

  /** The submission index names exactly the submissions of the stored runs. */
  ghost predicate Indexed(runs: map<RunId, Record>, index: map<string, RunId>) {
    && (forall s :: s in index ==> index[s] in runs && runs[index[s]].request.submissionId == s)
    && forall id :: id in runs ==> runs[id].request.submissionId in index
  }

  lemma ReplaceKeepsIndex(runs: map<RunId, Record>, index: map<string, RunId>, record: Record)
    requires Indexed(runs, index) && record.runId in runs && runs[record.runId].request == record.request
    ensures Indexed(runs[record.runId := record], index)
  {
  }

  class InMemoryGatewayRepository {
    var runs: map<RunId, Record>
    var submissionIndex: map<string, RunId>
    var results: map<RunId, ResultRecord>

    ghost function Contents(): Repo
      reads this
    {
      Repo(runs, results)
    }

    ghost predicate Valid()
      reads this
    {
      RepoValid(Contents()) && Indexed(runs, submissionIndex)
    }

    constructor ()
      ensures Valid() && Contents() == EMPTY
    {
      runs, submissionIndex, results := map[], map[], map[];
    }

    method CreateOrGetRun(record: Record) returns (stored: Record, created: bool)
      requires Valid() && record.Valid()
      modifies this
      ensures Valid()
      ensures (Contents(), stored, created) == CreateOrGet(old(Contents()), record)
    {
      var submissionId := record.request.submissionId;
      if submissionId in submissionIndex {
        var existing := submissionIndex[submissionId];
        assert runs[existing].runId == existing && runs[existing].Valid();
        return runs[existing], false;
      }
      if record.runId in runs {
        return runs[record.runId], false;
      }
      CreateKeepsValid(Contents(), record);
      runs := runs[record.runId := record];
      submissionIndex := submissionIndex[submissionId := record.runId];
      return record, true;
    }

    method Replace(record: Record, expected: nat, result: Option<ResultRecord>) returns (ok: bool)
      requires Valid()
      modifies this
      ensures Valid()
      ensures ok == MayReplace(old(Contents()), record, expected, result)
      ensures Contents() == ReplaceRun(old(Contents()), record, expected, result)
    {
      ReplaceKeepsValid(Contents(), record, expected, result);
      if record.runId in runs && runs[record.runId].request == record.request { ReplaceKeepsIndex(runs, submissionIndex, record); }
      hide RepoValid, Indexed, ReferenceOf;
      if record.runId !in runs { return false; }
      var current := runs[record.runId];
      if current.revision != expected { return false; }
      if record.revision != expected + 1 { return false; }
      if current.request != record.request || current.requestSha != record.requestSha { return false; }
      if result.Some? && result.value.runId != record.runId { return false; }
      var reference := TerminalReference(record.state);
      if result.None? != reference.None? { return false; }
      if result.Some? && reference != Some(ReferenceOf(result.value)) { return false; }
      if record.runId in results && result != Some(results[record.runId]) { return false; }
      assert MayReplace(Contents(), record, expected, result);
      hide MayReplace, Bound;
      runs := runs[record.runId := record];
      if result.Some? { results := results[record.runId := result.value]; }
      return true;
    }

    /** The integrity error is unreachable. */
    method FetchResult(id: RunId) returns (r: Result<Option<ResultRecord>, Error>)
      requires Valid()
      ensures r == Ok(GetResult(Contents(), id))
    {
      if id !in results { return Ok(None); }
      var result := results[id];
      var reference := if id in runs then TerminalReference(runs[id].state) else None;
      if reference != Some(ReferenceOf(result)) { return Err(Integrity); }
      return Ok(Some(result));
    }
  }

  // ---- SQLite repository ---------------------------------------------------------------

  /** A row of `gateway_runs`: the searchable columns, and the record as canonical JSON. */
  datatype RunRow = RunRow(submissionId: string, requestSha: Digest, revision: nat, record: Record)

  /** `_decode_record`: the columns must agree with the decoded record. */
  predicate Decodes(id: RunId, row: RunRow) {
    && row.record.Valid() && row.record.runId == id
    && row.record.request.submissionId == row.submissionId
    && row.record.requestSha == row.requestSha
    && row.record.revision == row.revision
  }

  class SqliteGatewayRepository {
    /** Tables by primary key. */
    var runRows: map<RunId, RunRow>
    var resultRows: map<RunId, ResultRecord>

    ghost function Contents(): Repo
      reads this
    {
      Repo(map id | id in runRows :: runRows[id].record, resultRows)
    }

    ghost predicate Valid()
      reads this
    {
      RepoValid(Contents()) && forall id :: id in runRows ==> Decodes(id, runRows[id])
    }

    constructor ()
      ensures Valid() && Contents() == EMPTY
    {
      runRows, resultRows := map[], map[];
    }

    /** `SELECT ... WHERE run_id = ? OR submission_id = ?` */
    function Matching(id: RunId, submissionId: string): set<RunId>
      reads this
    {
      set k | k in runRows && (k == id || runRows[k].submissionId == submissionId)
    }

    method CreateOrGetRun(record: Record) returns (r: Result<(Record, bool), Error>)
      requires Valid() && record.Valid()
      modifies this
      ensures Valid()
      ensures var (after, stored, created) := CreateOrGet(old(Contents()), record);
              Contents() == after && r == Ok((stored, created))
    {
      var rows := Matching(record.runId, record.request.submissionId);
      assert rows == (if record.runId in runRows then {record.runId} else {}) by {
        forall k | k in rows ensures k == record.runId { assert Decodes(k, runRows[k]); }
      }
      if rows != {} {
        if |rows| != 1 { return Err(ConcurrentUpdate); }
        var k :| k in rows;
        return Ok((runRows[k].record, false));
      }
      CreateKeepsValid(Contents(), record);
      ghost var before := Contents();
      runRows := runRows[record.runId := RunRow(record.request.submissionId, record.requestSha, record.revision, record)];
      assert Contents().runs == before.runs[record.runId := record];
      return Ok((record, true));
    }

    /**
     * The transaction updates the run row before it looks at the result row, so it may have to roll
     * the update back; afterwards nothing of it is left.
     */
    method Replace(record: Record, expected: nat, result: Option<ResultRecord>) returns (ok: bool)
      requires Valid()
      modifies this
      ensures Valid()
      ensures ok == MayReplace(old(Contents()), record, expected, result)
      ensures Contents() == ReplaceRun(old(Contents()), record, expected, result)
    {
      var beganRuns, beganResults := runRows, resultRows;
      ok := ReplaceInTransaction(record, expected, result);
      if !ok {
        runRows, resultRows := beganRuns, beganResults;
      } else {
        ReplaceKeepsValid(old(Contents()), record, expected, result);
      }
    }

    method ReplaceInTransaction(record: Record, expected: nat, result: Option<ResultRecord>) returns (ok: bool)
      requires Valid()
      modifies this
      ensures ok == MayReplace(old(Contents()), record, expected, result)
      ensures ok ==> Contents() == Replaced(old(Contents()), record, result)
      ensures ok ==> forall id :: id in runRows ==> Decodes(id, runRows[id])
    {
      if record.runId !in runRows { return false; }
      var row := runRows[record.runId];
      var current := row.record;
      assert Contents().runs[record.runId] == current;
      if current.revision != expected { return false; }
      if record.revision != expected + 1 { return false; }
      if current.request != record.request || current.requestSha != record.requestSha { return false; }
      if result.Some? && result.value.runId != record.runId { return false; }
      var reference := TerminalReference(record.state);
      if result.None? != reference.None? { return false; }
      if result.Some? && reference != Some(ReferenceOf(result.value)) { return false; }
      if row.revision != expected { return false; }
      ghost var before := Contents();
      runRows := runRows[record.runId := row.(revision := record.revision, record := record)];
      assert Contents().runs == before.runs[record.runId := record];
      if result.Some? {
        if record.runId in resultRows && resultRows[record.runId] != result.value { return false; }
        if record.runId !in resultRows { resultRows := resultRows[record.runId := result.value]; }
      } else if record.runId in resultRows {
        return false;
      }
      return true;
    }

    method Get(id: RunId) returns (r: Result<Option<Record>, Error>)
      requires Valid()
      ensures r == Ok(GetRun(Contents(), id))
    {
      if id !in runRows { return Ok(None); }
      if !Decodes(id, runRows[id]) { return Err(Integrity); }
      return Ok(Some(runRows[id].record));
    }

    /** The join with `gateway_runs` always finds the run, and the digests always agree. */
    method FetchResult(id: RunId) returns (r: Result<Option<ResultRecord>, Error>)
      requires Valid()
      ensures r == Ok(GetResult(Contents(), id))
    {
      assert id in resultRows ==> id in Contents().runs && Bound(id, Contents().runs[id].state, Some(resultRows[id]));
      if id !in resultRows || id !in runRows { return Ok(None); }
      var result := resultRows[id];
      if result.runId != id { return Err(Integrity); }
      if !Decodes(id, runRows[id]) { return Err(Integrity); }
      if TerminalReference(runRows[id].record.state) != Some(ReferenceOf(result)) { return Err(Integrity); }
      return Ok(Some(result));
    }
  }

  // ---- the two repositories agree on every sequence of operations --------------------------

  datatype Op =
    | OpCreate(record: Record)
    | OpGet(id: RunId)
    | OpReplace(record: Record, expected: nat, result: Option<ResultRecord>)
    | OpGetResult(id: RunId)

  datatype Outcome =
    | Created(created: Result<(Record, bool), Error>)
    | Found(run: Result<Option<Record>, Error>)
    | Stored(ok: bool)
    | FoundResult(result: Result<Option<ResultRecord>, Error>)

  method OnMemory(m: InMemoryGatewayRepository, op: Op) returns (o: Outcome)
    requires m.Valid() && (op.OpCreate? ==> op.record.Valid())
    modifies m
    ensures m.Valid() && (m.Contents(), o) == Step(old(m.Contents()), op)
  {
    match op
    case OpCreate(record) =>
      var stored, created := m.CreateOrGetRun(record);
      o := Created(Ok((stored, created)));
    case OpGet(id) => o := Found(Ok(if id in m.runs then Some(m.runs[id]) else None));
    case OpReplace(record, expected, result) =>
      var ok := m.Replace(record, expected, result);
      o := Stored(ok);
    case OpGetResult(id) =>
      var r := m.FetchResult(id);
      o := FoundResult(r);
  }

  method OnSqlite(m: SqliteGatewayRepository, op: Op) returns (o: Outcome)
    requires m.Valid() && (op.OpCreate? ==> op.record.Valid())
    modifies m
    ensures m.Valid() && (m.Contents(), o) == Step(old(m.Contents()), op)
  {
    match op
    case OpCreate(record) =>
      var r := m.CreateOrGetRun(record);
      o := Created(r);
    case OpGet(id) =>
      var r := m.Get(id);
      o := Found(r);
    case OpReplace(record, expected, result) =>
      var ok := m.Replace(record, expected, result);
      o := Stored(ok);
    case OpGetResult(id) =>
      var r := m.FetchResult(id);
      o := FoundResult(r);
  }

  function Step(repo: Repo, op: Op): (Repo, Outcome) {
    match op
    case OpCreate(record) =>
      var (after, stored, created) := CreateOrGet(repo, record);
      (after, Created(Ok((stored, created))))
    case OpGet(id) => (repo, Found(Ok(GetRun(repo, id))))
    case OpReplace(record, expected, result) =>
      (ReplaceRun(repo, record, expected, result), Stored(MayReplace(repo, record, expected, result)))
    case OpGetResult(id) => (repo, FoundResult(Ok(GetResult(repo, id))))
  }

  function Steps(repo: Repo, ops: seq<Op>): (Repo, seq<Outcome>) {
    if ops == [] then (repo, [])
    else
      var (before, outcomes) := Steps(repo, ops[..|ops| - 1]);
      var (after, outcome) := Step(before, ops[|ops| - 1]);
      (after, outcomes + [outcome])
  }

  /** No sequence of calls ever meets an integrity error. */
  lemma {:induction false} StepsAreSound(repo: Repo, ops: seq<Op>)
    requires RepoValid(repo) && forall i :: 0 <= i < |ops| && ops[i].OpCreate? ==> ops[i].record.Valid()
    ensures RepoValid(Steps(repo, ops).0) && |Steps(repo, ops).1| == |ops|
    ensures forall i :: 0 <= i < |ops| ==>
              match Steps(repo, ops).1[i]
              case Created(r) => r.Ok?
              case Found(r) => r.Ok?
              case Stored(_) => true
              case FoundResult(r) => r.Ok?
  {
    if ops != [] {
      var init, op := ops[..|ops| - 1], ops[|ops| - 1];
      StepsAreSound(repo, init);
      var before := Steps(repo, init).0;
      match op
      case OpCreate(record) => CreateKeepsValid(before, record);
      case OpReplace(record, expected, result) => ReplaceKeepsValid(before, record, expected, result);
      case _ =>
    }
  }

  /** From the empty store, every sequence of calls gives the same outcomes and contents on both repositories. */
  method RunOnBoth(ops: seq<Op>) returns (onMemory: seq<Outcome>, onSqlite: seq<Outcome>, ghost memory: Repo, ghost sqlite: Repo)
    requires forall i :: 0 <= i < |ops| && ops[i].OpCreate? ==> ops[i].record.Valid()
    ensures onMemory == onSqlite && memory == sqlite
    ensures (memory, onMemory) == Steps(EMPTY, ops)
  {
    hide Step;
    var m := new InMemoryGatewayRepository();
    var s := new SqliteGatewayRepository();
    onMemory, onSqlite := [], [];
    for i := 0 to |ops|
      invariant m.Valid() && s.Valid() && fresh(m) && fresh(s)
      invariant (m.Contents(), onMemory) == Steps(EMPTY, ops[..i]) == (s.Contents(), onSqlite)
    {
      assert ops[..i + 1][..i] == ops[..i];
      var a := OnMemory(m, ops[i]);
      var b := OnSqlite(s, ops[i]);
      onMemory, onSqlite := onMemory + [a], onSqlite + [b];
    }
    assert ops[..|ops|] == ops;
    memory, sqlite := m.Contents(), s.Contents();
  }
}
