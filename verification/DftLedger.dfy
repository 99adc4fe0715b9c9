/**
 * The durable job ledger of the DFT stage (`dft/runner.py`) in a write-once artifact store
 * (`retrieval/storage.py`). The backend may observe anything; any number of reconcilers interleave
 * and may die between two writes.
 */
module DftLedger {
  import opened DftModels
  import opened Wrappers

  datatype Context = Context(runId: string, attempt: nat)

  datatype Envelope = Envelope(planHash: string, ref: JobRef, terminalStatus: JobStatus, body: string)

  datatype Uri =
    | OperationUri(key: string)
    | TerminalUri(key: string)
    | StatusUri(context: Context, key: string, sequence: nat)
    | ResultUri(context: Context)

  /** A pointer names a document by URI and content hash. */
  datatype Pointer = Pointer(uri: Uri, content: Doc)

  datatype Doc =
    | OperationDoc(key: string, request: Request, ref: JobRef, status: JobStatus, sequence: nat, result: Option<Pointer>)
    | StatusDoc(ref: JobRef, status: JobStatus, sequence: nat)
    | ResultDoc(envelope: Envelope)

  type Store = map<Uri, Doc>

  /** `write_json(..., immutable=True)`: the same content again is accepted, other content is refused. */
  function Write(store: Store, uri: Uri, doc: Doc): Option<Store> {
    if uri in store then if store[uri] == doc then Some(store) else None
    else Some(store[uri := doc])
  }

  /** `_validate_status_transition` */
  predicate ValidTransition(previous: JobStatus, observed: JobStatus) {
    && !observed.Unknown? && !previous.Unknown?
    && (Terminal(previous) ==> observed == previous)
    && Rank(previous) <= Rank(observed)
  }

  /** The stages of a job in order; a job that has reached the last one stays where it is. */
  ghost function Stage(i: nat): set<JobStatus> {
    match i
    case 0 => {Created}
    case 1 => {Submitting}
    case 2 => {Queued}
    case 3 => {Running}
    case 4 => {Completing, CancelRequested}
    case 5 => {Succeeded, Failed, Timeout, Cancelled}
    case _ => {}
  }

  ghost predicate Follows(previous: JobStatus, observed: JobStatus) {
    && (exists i: nat, j: nat :: i <= j && previous in Stage(i) && observed in Stage(j))
    && (previous in Stage(5) ==> observed == previous)
  }

  /** The checks accept exactly the observations that neither go back a stage nor leave the last one. */
  lemma TransitionIff(previous: JobStatus, observed: JobStatus)
    ensures ValidTransition(previous, observed) <==> Follows(previous, observed)
    ensures Follows(previous, observed) ==> !previous.Unknown? && !observed.Unknown?
  {
    forall s: JobStatus, i: nat ensures s in Stage(i) <==> !s.Unknown? && Rank(s) == i { StageIsRank(s, i); }
    hide Stage, Rank;
    StageIsRank(previous, 5);
    if ValidTransition(previous, observed) {
      assert previous in Stage(Rank(previous)) && observed in Stage(Rank(observed));
    }
  }

  lemma StageIsRank(s: JobStatus, i: nat)
    ensures s in Stage(i) <==> !s.Unknown? && Rank(s) == i
    ensures s in Stage(5) <==> Terminal(s)
  {
  }

  // ---- reading the ledger ------------------------------------------------------------------------

  function Later(store: Store, c: Context, key: string, n: nat): set<Uri> {
    set u | u in store && u.StatusUri? && u.context == c && u.key == key && u.sequence > n
  }

  function StatusOf(d: Doc): JobStatus {
    match d
    case OperationDoc(_, _, _, s, _, _) => s
    case StatusDoc(_, s, _) => s
    case ResultDoc(e) => e.terminalStatus
  }

  /** The statuses recorded consecutively after the first `n`. */
  function LedgerFrom(store: Store, c: Context, key: string, n: nat): (ledger: seq<JobStatus>)
    decreases |Later(store, c, key, n)|
  {
    var u := StatusUri(c, key, n + 1);
    if u in store then
      assert Later(store, c, key, n + 1) < Later(store, c, key, n) by {
        assert u in Later(store, c, key, n) && u !in Later(store, c, key, n + 1);
      }
      LaterShrinks(store, c, key, n);
      [StatusOf(store[u])] + LedgerFrom(store, c, key, n + 1)
    else []
  }

  lemma LaterShrinks(store: Store, c: Context, key: string, n: nat)
    requires StatusUri(c, key, n + 1) in store
    ensures |Later(store, c, key, n + 1)| < |Later(store, c, key, n)|
  {
    var u := StatusUri(c, key, n + 1);
    var a, b := Later(store, c, key, n), Later(store, c, key, n + 1);
    assert b <= a - {u} && u in a;
    var rest := (a - {u}) - b;
    assert a - {u} == b + rest;
  }

  function Ledger(store: Store, c: Context, key: string): seq<JobStatus> { LedgerFrom(store, c, key, 0) }

  predicate ValidFrom(previous: JobStatus, ledger: seq<JobStatus>)
    decreases |ledger|
  {
    ledger == [] || (ValidTransition(previous, ledger[0]) && ValidFrom(ledger[0], ledger[1..]))
  }

  function Last(first: JobStatus, ledger: seq<JobStatus>): JobStatus {
    if ledger == [] then first else ledger[|ledger| - 1]
  }

  /** `_latest_status`: the last recorded status and its number, or an error if the ledger is not monotonic. */
  function LatestStatus(store: Store, c: Context, key: string, first: JobStatus): Result<(JobStatus, nat), ()> {
    var ledger := Ledger(store, c, key);
    if ValidFrom(first, ledger) then Ok((Last(first, ledger), |ledger|)) else Err(())
  }

  // ---- the interleaved writers ---------------------------------------------------------------------

  /** One reconcile call between its reads and its three writes. */
  datatype Thread =
    | Observed(context: Context, key: string, sequence: nat, status: JobStatus, op: Doc)
    | Fetching(context: Context, key: string, sequence: nat, status: JobStatus, op: Doc)
    | Finishing(context: Context, key: string, sequence: nat, status: JobStatus, op: Doc, envelope: Envelope)

  datatype World = World(store: Store, threads: map<nat, Thread>)

  datatype Event =
    | RecordOperation(key: string, request: Request, ref: JobRef)
    | Observe(t: nat, context: Context, key: string, observed: JobStatus)
    | WriteSnapshot(t: nat)
    | WriteResult(t: nat, envelope: Envelope)
    | WriteTerminal(t: nat)
    | Crash(t: nat)

  const INITIAL := World(map[], map[])

  function NewOperation(key: string, request: Request, ref: JobRef): Doc {
    OperationDoc(key, request, ref, Created, 0, None)
  }

  function Stored(store: Store, uri: Uri, doc: Doc): Store {
    var w := Write(store, uri, doc);
    if w.Some? then w.value else store
  }

  function Forget(w: World, t: nat): World { w.(threads := w.threads - {t}) }

  /**
   * The ledger is read and the backend polled. That no terminal record exists was tested earlier, so
   * one may have appeared by now.
   */
  function ApplyObserve(w: World, t: nat, c: Context, key: string, observed: JobStatus): World {
    if t !in w.threads && OperationUri(key) in w.store && w.store[OperationUri(key)].OperationDoc? then
      var op := w.store[OperationUri(key)];
      var latest := LatestStatus(w.store, c, key, op.status);
      if latest.Ok? && ValidTransition(latest.value.0, observed) then
        w.(threads := w.threads[t := Observed(c, key, latest.value.1 + 1, observed, op)])
      else w
    else w
  }

  function ApplySnapshot(w: World, t: nat): World {
    if t in w.threads && w.threads[t].Observed? && w.threads[t].op.OperationDoc? then
      var Observed(c, key, n, status, op) := w.threads[t];
      var written := Write(w.store, StatusUri(c, key, n), StatusDoc(op.ref, status, n));
      if written.None? then Forget(w, t)
      else if Terminal(status) then World(written.value, w.threads[t := Fetching(c, key, n, status, op)])
      else World(written.value, w.threads - {t})
    else w
  }

  /** The envelope must belong to the frozen request and to the job. */
  predicate EnvelopeFits(e: Envelope, op: Doc)
    requires op.OperationDoc?
  {
    e.planHash == op.request.planHash && e.ref == op.ref
  }

  function ApplyResult(w: World, t: nat, e: Envelope): World {
    if t in w.threads && w.threads[t].Fetching? && w.threads[t].op.OperationDoc? then
      var Fetching(c, key, n, status, op) := w.threads[t];
      var written := Write(w.store, ResultUri(c), ResultDoc(e));
      if !EnvelopeFits(e, op) || written.None? then Forget(w, t)
      else World(written.value, w.threads[t := Finishing(c, key, n, status, op, e)])
    else w
  }

  function FinalOperation(th: Thread): Doc
    requires th.Finishing? && th.op.OperationDoc?
  {
    th.op.(status := th.status, sequence := th.sequence, result := Some(Pointer(ResultUri(th.context), ResultDoc(th.envelope))))
  }

  function ApplyTerminal(w: World, t: nat): World {
    if t in w.threads && w.threads[t].Finishing? && w.threads[t].op.OperationDoc? then
      World(Stored(w.store, TerminalUri(w.threads[t].key), FinalOperation(w.threads[t])), w.threads - {t})
    else w
  }

  function Apply(w: World, e: Event): World {
    match e
    case RecordOperation(key, request, ref) =>
      w.(store := Stored(w.store, OperationUri(key), NewOperation(key, request, ref)))
    case Observe(t, c, key, observed) => ApplyObserve(w, t, c, key, observed)
    case WriteSnapshot(t) => ApplySnapshot(w, t)
    case WriteResult(t, envelope) => ApplyResult(w, t, envelope)
    case WriteTerminal(t) => ApplyTerminal(w, t)
    case Crash(t) => Forget(w, t)
  }

  function Run(events: seq<Event>): World {
    if events == [] then INITIAL else Apply(Run(events[..|events| - 1]), events[|events| - 1])
  }

  // ---- invariants ------------------------------------------------------------------------------------

  /** Artifacts are never changed. */
  ghost predicate Extends(a: Store, b: Store) { forall u :: u in a ==> u in b && b[u] == a[u] }

  lemma StepExtends(w: World, e: Event)
    ensures Extends(w.store, Apply(w, e).store)
  {
    hide LatestStatus;
  }

  /** The status recorded under number `n`; number 0 is the operation itself. */
  ghost predicate RecordedAt(store: Store, c: Context, key: string, n: nat, s: JobStatus) {
    if n == 0 then s == Created
    else StatusUri(c, key, n) in store && store[StatusUri(c, key, n)].StatusDoc? && store[StatusUri(c, key, n)].status == s
  }

  /** Every snapshot follows one recorded just before it, by a legal transition. */
  ghost predicate Linked(store: Store, u: Uri)
    requires u.StatusUri? && u in store
  {
    && u.sequence > 0 && store[u].StatusDoc? && store[u].sequence == u.sequence
    && exists s :: RecordedAt(store, u.context, u.key, u.sequence - 1, s) && ValidTransition(s, store[u].status)
  }

  ghost predicate OperationOk(key: string, d: Doc) { d.OperationDoc? && d.key == key && d.status.Created? && d.result.None? }

  /** A terminal record repeats the operation with a recorded terminal status and a stored, fitting result. */
  ghost predicate TerminalOk(store: Store, key: string, d: Doc) {
    && d.OperationDoc? && Terminal(d.status) && d.sequence > 0 && d.result.Some?
    && d.result.value.uri.ResultUri? && d.result.value.content.ResultDoc?
    && d.result.value.uri in store && store[d.result.value.uri] == d.result.value.content
    && RecordedAt(store, d.result.value.uri.context, key, d.sequence, d.status)
    && OperationUri(key) in store && store[OperationUri(key)] == d.(status := Created, sequence := 0, result := None)
    && EnvelopeFits(d.result.value.content.envelope, d)
  }

  ghost predicate StoreOk(store: Store) {
    && (forall u :: u in store && u.StatusUri? ==> Linked(store, u))
    && (forall u :: u in store && u.OperationUri? ==> OperationOk(u.key, store[u]) && store[u].sequence == 0)
    && (forall u :: u in store && u.TerminalUri? ==> TerminalOk(store, u.key, store[u]))
    && (forall u :: u in store && u.ResultUri? ==> store[u].ResultDoc?)
  }

  ghost predicate ThreadOk(store: Store, th: Thread) {
    && th.sequence > 0
    && OperationUri(th.key) in store && store[OperationUri(th.key)] == th.op && OperationOk(th.key, th.op) && th.op.sequence == 0
    && match th
       case Observed(c, key, n, status, _) => exists s :: RecordedAt(store, c, key, n - 1, s) && ValidTransition(s, status)
       case Fetching(c, key, n, status, _) => Terminal(status) && RecordedAt(store, c, key, n, status)
       case Finishing(c, key, n, status, op, e) =>
         && Terminal(status) && RecordedAt(store, c, key, n, status)
         && ResultUri(c) in store && store[ResultUri(c)] == ResultDoc(e) && EnvelopeFits(e, op)
  }

  ghost predicate WorldOk(w: World) {
    StoreOk(w.store) && forall t :: t in w.threads ==> ThreadOk(w.store, w.threads[t])
  }

  lemma ThreadGrows(a: Store, b: Store, th: Thread)
    requires Extends(a, b) && ThreadOk(a, th)
    ensures ThreadOk(b, th)
  {
    hide ValidTransition;
    if th.Observed? {
      var s :| RecordedAt(a, th.context, th.key, th.sequence - 1, s) && ValidTransition(s, th.status);
      assert RecordedAt(b, th.context, th.key, th.sequence - 1, s);
    }
  }

  lemma EntryGrows(a: Store, b: Store, u: Uri)
    requires Extends(a, b) && u in a
    ensures u.StatusUri? && Linked(a, u) ==> Linked(b, u)
    ensures u.TerminalUri? && TerminalOk(a, u.key, a[u]) ==> TerminalOk(b, u.key, b[u])
  {
    hide ValidTransition;
    if u.StatusUri? && Linked(a, u) {
      var s :| RecordedAt(a, u.context, u.key, u.sequence - 1, s) && ValidTransition(s, a[u].status);
      assert RecordedAt(b, u.context, u.key, u.sequence - 1, s);
    }
  }

  /** What one more artifact has to satisfy. */
  ghost predicate EntryOk(store: Store, u: Uri)
    requires u in store
  {
    match u
    case StatusUri(_, _, _) => Linked(store, u)
    case OperationUri(key) => OperationOk(key, store[u]) && store[u].sequence == 0
    case TerminalUri(key) => TerminalOk(store, key, store[u])
    case ResultUri(_) => store[u].ResultDoc?
  }

  lemma StoredKeepsOk(store: Store, u: Uri, d: Doc)
    requires StoreOk(store)
    requires u !in store ==> EntryOk(store[u := d], u)
    ensures StoreOk(Stored(store, u, d))
  {
    if u !in store {
      var after := store[u := d];
      forall v | v in after ensures EntryOk(after, v) {
        if v != u { EntryGrows(store, after, v); }
      }
    }
  }

  // ---- what the ledger function reads ------------------------------------------------------------------

  lemma {:induction false} LedgerReads(store: Store, c: Context, key: string, n: nat)
    ensures var ledger := LedgerFrom(store, c, key, n);
            && (forall m: nat :: n < m <= n + |ledger| ==>
                  StatusUri(c, key, m) in store && StatusOf(store[StatusUri(c, key, m)]) == ledger[m - n - 1])
            && StatusUri(c, key, n + 1 + |ledger|) !in store
    decreases |Later(store, c, key, n)|
  {
    if StatusUri(c, key, n + 1) in store {
      LaterShrinks(store, c, key, n);
      LedgerReads(store, c, key, n + 1);
    }
  }

  /** In a sound store the recorded statuses form one legal chain, whichever of them one starts from. */
  lemma {:induction false} LedgerIsValid(store: Store, c: Context, key: string, n: nat, s: JobStatus)
    requires StoreOk(store) && RecordedAt(store, c, key, n, s)
    ensures ValidFrom(s, LedgerFrom(store, c, key, n))
    ensures RecordedAt(store, c, key, n + |LedgerFrom(store, c, key, n)|, Last(s, LedgerFrom(store, c, key, n)))
    decreases |Later(store, c, key, n)|
  {
    hide ValidTransition, StoreOk, ValidFrom, Later;
    var u := StatusUri(c, key, n + 1);
    if u in store {
      LaterShrinks(store, c, key, n);
      NextIsLinked(store, c, key, n, s);
      var next := store[u].status;
      LedgerIsValid(store, c, key, n + 1, next);
      var rest := LedgerFrom(store, c, key, n + 1);
      assert LedgerFrom(store, c, key, n) == [next] + rest;
      ChainGrows(s, next, rest);
    } else {
      assert ValidFrom(s, []) by { NoChain(s); }
    }
  }

  lemma NoChain(s: JobStatus)
    ensures ValidFrom(s, [])
  {
  }

  lemma ChainGrows(s: JobStatus, next: JobStatus, rest: seq<JobStatus>)
    requires ValidTransition(s, next) && ValidFrom(next, rest)
    ensures ValidFrom(s, [next] + rest)
    ensures Last(s, [next] + rest) == Last(next, rest)
  {
    assert ([next] + rest)[1..] == rest;
  }

  lemma NextIsLinked(store: Store, c: Context, key: string, n: nat, s: JobStatus)
    requires StoreOk(store) && RecordedAt(store, c, key, n, s) && StatusUri(c, key, n + 1) in store
    ensures var d := store[StatusUri(c, key, n + 1)];
            d.StatusDoc? && ValidTransition(s, d.status) && RecordedAt(store, c, key, n + 1, d.status)
  {
    hide ValidTransition, StoreOk;
    LinkedAt(store, StatusUri(c, key, n + 1));
  }

  lemma LinkedAt(store: Store, u: Uri)
    requires StoreOk(store) && u.StatusUri? && u in store
    ensures Linked(store, u)
  {
    hide Linked, TerminalOk;
  }

  lemma LatestIsRecorded(store: Store, c: Context, key: string)
    requires StoreOk(store)
    ensures var r := LatestStatus(store, c, key, Created);
            r.Ok? && RecordedAt(store, c, key, r.value.1, r.value.0)
  {
    LedgerIsValid(store, c, key, 0, Created);
  }

  /** Numbers have no gap: what is recorded is recorded up to the end of the ledger and no further. */
  lemma {:induction false} NoGap(store: Store, c: Context, key: string, n: nat, m: nat)
    requires StoreOk(store) && StatusUri(c, key, n) in store && 1 <= m <= n
    ensures StatusUri(c, key, m) in store
    decreases n - m
  {
    hide StoreOk, ValidTransition;
    if m < n {
      NoGap(store, c, key, n, m + 1);
      LinkedAt(store, StatusUri(c, key, m + 1));
    }
  }

  lemma RecordedIffInLedger(store: Store, c: Context, key: string, n: nat)
    requires StoreOk(store)
    ensures StatusUri(c, key, n) in store <==> 1 <= n <= |Ledger(store, c, key)|
    ensures 1 <= n <= |Ledger(store, c, key)| ==> RecordedAt(store, c, key, n, Ledger(store, c, key)[n - 1])
  {
    hide StoreOk, ValidTransition, LedgerFrom;
    LedgerReads(store, c, key, 0);
    var last := |Ledger(store, c, key)|;
    if StatusUri(c, key, n) in store {
      LinkedAt(store, StatusUri(c, key, n));
      if n > last {
        NoGap(store, c, key, n, last + 1);
      }
    }
  }

  // ---- every step keeps the invariant -------------------------------------------------------------------

  lemma OthersGrow(w: World, after: Store)
    requires WorldOk(w) && Extends(w.store, after)
    ensures forall t :: t in w.threads ==> ThreadOk(after, w.threads[t])
  {
    hide ThreadOk, StoreOk, Extends;
    forall t | t in w.threads ensures ThreadOk(after, w.threads[t]) {
      ThreadGrows(w.store, after, w.threads[t]);
    }
  }

  lemma ObserveKeepsOk(w: World, t: nat, c: Context, key: string, observed: JobStatus)
    requires WorldOk(w)
    ensures WorldOk(ApplyObserve(w, t, c, key, observed))
  {
    hide ValidTransition, LatestStatus;
    var z := ApplyObserve(w, t, c, key, observed);
    if z != w {
      LatestIsRecorded(w.store, c, key);
      assert OperationOk(key, w.store[OperationUri(key)]);
      assert ThreadOk(w.store, z.threads[t]);
      hide ThreadOk, StoreOk;
      forall u | u in z.threads ensures ThreadOk(z.store, z.threads[u]) {
        if u != t { assert u in w.threads && z.threads[u] == w.threads[u]; }
      }
    }
  }

  lemma SnapshotKeepsOk(w: World, t: nat)
    requires WorldOk(w)
    ensures WorldOk(ApplySnapshot(w, t))
  {
    if t in w.threads && w.threads[t].Observed? {
      var th := w.threads[t];
      assert ThreadOk(w.store, th);
      var u, d := StatusUri(th.context, th.key, th.sequence), StatusDoc(th.op.ref, th.status, th.sequence);
      if u !in w.store { SnapshotIsLinked(w.store, th); }
      hide ValidTransition, RecordedAt, Linked;
      StoredKeepsOk(w.store, u, d);
      OthersGrow(w, Stored(w.store, u, d));
      hide StoreOk, EntryOk, ThreadOk;
      if Write(w.store, u, d).Some? && Terminal(th.status) { SnapshotThread(w.store, th); }
    }
  }

  lemma SnapshotIsLinked(store: Store, th: Thread)
    requires th.Observed? && ThreadOk(store, th) && StatusUri(th.context, th.key, th.sequence) !in store
    ensures var u := StatusUri(th.context, th.key, th.sequence);
            Linked(store[u := StatusDoc(th.op.ref, th.status, th.sequence)], u)
  {
    hide ValidTransition;
    var u, d := StatusUri(th.context, th.key, th.sequence), StatusDoc(th.op.ref, th.status, th.sequence);
    var s :| RecordedAt(store, th.context, th.key, th.sequence - 1, s) && ValidTransition(s, th.status);
    assert RecordedAt(store[u := d], th.context, th.key, th.sequence - 1, s);
  }

  lemma SnapshotThread(store: Store, th: Thread)
    requires th.Observed? && ThreadOk(store, th) && Terminal(th.status)
    requires Write(store, StatusUri(th.context, th.key, th.sequence), StatusDoc(th.op.ref, th.status, th.sequence)).Some?
    ensures ThreadOk(Write(store, StatusUri(th.context, th.key, th.sequence), StatusDoc(th.op.ref, th.status, th.sequence)).value,
                     Fetching(th.context, th.key, th.sequence, th.status, th.op))
  {
    hide ValidTransition;
  }

  lemma ResultKeepsOk(w: World, t: nat, e: Envelope)
    requires WorldOk(w)
    ensures WorldOk(ApplyResult(w, t, e))
  {
    hide ValidTransition;
    if t in w.threads && w.threads[t].Fetching? {
      var th := w.threads[t];
      assert ThreadOk(w.store, th);
      StoredKeepsOk(w.store, ResultUri(th.context), ResultDoc(e));
      OthersGrow(w, Stored(w.store, ResultUri(th.context), ResultDoc(e)));
      hide StoreOk, EntryOk;
    }
  }

  lemma TerminalKeepsOk(w: World, t: nat)
    requires WorldOk(w)
    ensures WorldOk(ApplyTerminal(w, t))
  {
    hide ValidTransition;
    if t in w.threads && w.threads[t].Finishing? {
      var th := w.threads[t];
      assert ThreadOk(w.store, th);
      var u, d := TerminalUri(th.key), FinalOperation(th);
      if u !in w.store { assert TerminalOk(w.store[u := d], th.key, d); }
      StoredKeepsOk(w.store, u, d);
      OthersGrow(w, Stored(w.store, u, d));
      hide StoreOk, EntryOk;
    }
  }

  lemma StepKeepsOk(w: World, e: Event)
    requires WorldOk(w)
    ensures WorldOk(Apply(w, e))
  {
    hide ApplyObserve, ApplySnapshot, ApplyResult, ApplyTerminal;
    match e
    case RecordOperation(key, request, ref) =>
      StoredKeepsOk(w.store, OperationUri(key), NewOperation(key, request, ref));
      OthersGrow(w, Stored(w.store, OperationUri(key), NewOperation(key, request, ref)));
      hide StoreOk, ThreadOk;
    case Observe(t, c, key, observed) => ObserveKeepsOk(w, t, c, key, observed);
    case WriteSnapshot(t) => SnapshotKeepsOk(w, t);
    case WriteResult(t, envelope) => ResultKeepsOk(w, t, envelope);
    case WriteTerminal(t) => TerminalKeepsOk(w, t);
    case Crash(t) => hide StoreOk, ThreadOk;
  }

  lemma {:induction false} EveryRunIsOk(events: seq<Event>)
    ensures WorldOk(Run(events))
  {
    hide WorldOk, Apply;
    if events == [] {
      assert WorldOk(INITIAL) by { EmptyIsOk(); }
    } else {
      EveryRunIsOk(events[..|events| - 1]);
      StepKeepsOk(Run(events[..|events| - 1]), events[|events| - 1]);
    }
  }

  lemma EmptyIsOk()
    ensures WorldOk(INITIAL)
  {
  }

  lemma {:induction false} RunsExtend(before: seq<Event>, after: seq<Event>)
    ensures Extends(Run(before).store, Run(before + after).store)
  {
    hide Apply;
    if after == [] {
      assert before + after == before;
    } else {
      var n := |after| - 1;
      RunsExtend(before, after[..n]);
      assert before + after == (before + after[..n]) + [after[n]];
      assert (before + after)[..|before + after| - 1] == before + after[..n];
      StepExtends(Run(before + after[..n]), after[n]);
    }
  }

  // ---- main results -----------------------------------------------------------------------------------

  lemma {:induction false} ValidChain(previous: JobStatus, ledger: seq<JobStatus>, i: nat, j: nat)
    requires ValidFrom(previous, ledger) && i <= j < |ledger|
    ensures !ledger[i].Unknown? && !ledger[j].Unknown? && Rank(ledger[i]) <= Rank(ledger[j])
    ensures Terminal(ledger[i]) ==> ledger[j] == ledger[i]
    decreases j
  {
    if i > 0 {
      ValidChain(ledger[0], ledger[1..], i - 1, j - 1);
    } else if j > 0 {
      ValidChain(ledger[0], ledger[1..], 0, j - 1);
    }
  }

  /** Numbered without gaps, never back in rank, and at its first terminal status for good. */
  ghost predicate LedgerSound(store: Store, c: Context, key: string) {
    var ledger := Ledger(store, c, key);
    && (forall n: nat :: StatusUri(c, key, n) in store <==> 1 <= n <= |ledger|)
    && (forall i, j :: 0 <= i <= j < |ledger| ==>
          !ledger[i].Unknown? && !ledger[j].Unknown? && Rank(ledger[i]) <= Rank(ledger[j]))
    && (forall i, j :: 0 <= i < |ledger| && 0 <= j < |ledger| && Terminal(ledger[i]) && Terminal(ledger[j]) ==>
          ledger[i] == ledger[j])
  }

  /** Every ledger any interleaving of one-step writes can produce is sound, so it holds at most one terminal status. */
  lemma LedgersAreSound(events: seq<Event>, c: Context, key: string)
    ensures LedgerSound(Run(events).store, c, key)
  {
    hide Run, Ledger, StoreOk;
    EveryRunIsOk(events);
    var store := Run(events).store;
    var ledger := Ledger(store, c, key);
    assert ValidFrom(Created, ledger) by { LedgerIsValidWhole(store, c, key); }
    forall n: nat ensures StatusUri(c, key, n) in store <==> 1 <= n <= |ledger| { RecordedIffInLedger(store, c, key, n); }
    forall i, j | 0 <= i <= j < |ledger|
      ensures !ledger[i].Unknown? && !ledger[j].Unknown? && Rank(ledger[i]) <= Rank(ledger[j])
      ensures Terminal(ledger[i]) ==> ledger[i] == ledger[j]
    {
      ValidChain(Created, ledger, i, j);
    }
  }

  /** Number `n` is the last one recorded, with this status; number 0 is the operation itself. */
  ghost predicate Latest(store: Store, c: Context, key: string, n: nat, status: JobStatus) {
    RecordedAt(store, c, key, n, status) && StatusUri(c, key, n + 1) !in store
  }

  /** There is one last snapshot in a sound store, the end of the ledger. */
  lemma LatestIs(store: Store, c: Context, key: string, n: nat, status: JobStatus)
    requires StoreOk(store)
    ensures Latest(store, c, key, n, status) <==>
              var ledger := Ledger(store, c, key); n == |ledger| && status == Last(Created, ledger)
  {
    hide StoreOk, LedgerFrom;
    var ledger := Ledger(store, c, key);
    RecordedIffInLedger(store, c, key, n);
    RecordedIffInLedger(store, c, key, n + 1);
    RecordedIffInLedger(store, c, key, |ledger|);
  }

  lemma LedgerIsValidWhole(store: Store, c: Context, key: string)
    requires StoreOk(store)
    ensures ValidFrom(Created, Ledger(store, c, key))
  {
    LedgerIsValid(store, c, key, 0, Created);
  }

  /** What a later `start` or `reconcile` reports from a terminal record: status, number and result. */
  datatype Outcome = Waiting(sequence: nat, status: JobStatus) | Ended(status: JobStatus, sequence: nat, result: Pointer) | Failure

  /** `_waiting` has no external status for three of the statuses, which makes the call fail. */
  function WaitingOutcome(sequence: nat, status: JobStatus): Outcome {
    if status.Submitting? || status.Completing? || status.CancelRequested? || status.Unknown? then Failure
    else Waiting(sequence, status)
  }

  /** `_outcome_from_operation` */
  function Replay(store: Store, c: Context, op: Doc): Outcome {
    if !op.OperationDoc? then Failure
    else if op.result.Some? then
      var p := op.result.value;
      if p.uri in store && store[p.uri] == p.content && p.content.ResultDoc? && Terminal(op.status)
      then Ended(op.status, op.sequence, p)
      else Failure
    else
      var latest := LatestStatus(store, c, op.key, op.status);
      if latest.Ok? then WaitingOutcome(latest.value.1, latest.value.0) else Failure
  }

  /**
   * A terminal record `d` as every later call, in any context, meets it: the call reports its status and
   * its result; the status is the terminal status recorded in the ledger under its number, and the
   * result belongs to the recorded request and job.
   */
  ghost predicate FinalRecord(store: Store, key: string, c: Context, d: Doc) {
    && d.OperationDoc? && d.result.Some? && Terminal(d.status)
    && TerminalUri(key) in store && store[TerminalUri(key)] == d
    && Replay(store, c, d) == Ended(d.status, d.sequence, d.result.value)
    && d.result.value.uri.ResultUri?
    && RecordedAt(store, d.result.value.uri.context, key, d.sequence, d.status)
    && OperationUri(key) in store && store[OperationUri(key)].OperationDoc?
    && d.result.value.content.ResultDoc?
    && EnvelopeFits(d.result.value.content.envelope, store[OperationUri(key)])
  }

  /** Once the terminal record exists, it is final. */
  lemma TerminalRecordIsFinal(before: seq<Event>, after: seq<Event>, key: string, c: Context)
    requires TerminalUri(key) in Run(before).store
    ensures FinalRecord(Run(before + after).store, key, c, Run(before).store[TerminalUri(key)])
  {
    hide Run, LatestStatus, RecordedAt;
    EveryRunIsOk(before);
    EveryRunIsOk(before + after);
    RunsExtend(before, after);
    assert TerminalOk(Run(before + after).store, key, Run(before + after).store[TerminalUri(key)]);
  }
}
