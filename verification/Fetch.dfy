/**
 * The bounded document fetch loop (`inspiration/fetch.py`): retries, redirects, request count, byte
 * count and waiting time are all limited. The network is a parameter: the reply to every physical
 * open and to every read is arbitrary.
 */
module Fetch {
  import opened Wrappers

  datatype Category = Transient | Permanent | Security | BudgetExceeded | Contract

  datatype FetchError = FetchError(code: string, category: Category, status: Option<nat>, bytes: nat)

  type Payload = seq<int>

  /** One `response.read(size)`; `ReadCrash` is an exception the loop does not expect. */
  datatype ReadReply =
    | Chunk(bytes: Payload) | NotBytes | ReadError(error: FetchError) | ReadNetworkError | ReadCrash

  /** An error the header checks raise themselves: no status, no bytes. */
  datatype Refusal = Refusal(code: string, category: Category)

  /** `Unjoinable` makes `urljoin` itself raise. */
  datatype Location = LocationRefused(refusal: Refusal) | Unjoinable | Target(url: string)

  /** What a check of a URL raises: the typed error, or an exception of the resolver that nothing expects. */
  datatype Complaint = Typed(error: FetchError) | Unexpected

  /** `Unreadable` passes `isdigit` but is no number `float(int(...))` can take. */
  datatype RetryAfter = Absent | NoDigits | Seconds(n: nat) | Unreadable | Conflicting(refusal: Refusal)

  datatype Response = Response(
    status: Option<nat>, location: Location, retryAfter: RetryAfter,
    headerProblem: Option<Refusal>, declaredLength: Option<nat>, mediaType: string, stream: nat -> ReadReply)

  /** One physical `transport.open`. */
  datatype OpenReply = OpenError(error: FetchError) | OpenNetworkError | OpenCrash | Opened(response: Response)

  datatype AttemptOutcome = Success | Redirect(target: string) | Error(code: string)

  datatype Attempt = Attempt(number: nat, outcome: AttemptOutcome, status: Option<nat>, bytes: nat, url: string, delay: real)

  datatype Outcome =
    | Fetched(url: string, mediaType: string, payload: Payload, attempts: seq<Attempt>)
    | Failed(error: FetchError, attempts: seq<Attempt>)
    | RefusedBeforeOpen(error: FetchError)
    | Untyped

  datatype Config = Config(
    maxRedirects: nat, backoff: real, maxDelay: real, maxWait: real,
    remainingRequests: nat, remainingBytes: nat, maxBytesPerResponse: nat, maxRetries: nat,
    url: string, open: nat -> OpenReply, preflight: (string, nat) -> Option<Complaint>, recordable: string -> bool)
  {
    /** Checked by the constructors of the fetcher and of the allowance. */
    predicate Valid() {
      && 0.0 <= backoff && 0.0 <= maxDelay && 0.0 <= maxWait
      && maxRedirects <= 10 && maxRetries <= 5 && remainingBytes <= MAX_TOTAL_BYTES
    }
  }

  const MAX_TOTAL_BYTES := 100_000_000
  const READ_CHUNK_BYTES := 65536
  const REDIRECT_STATUSES: set<nat> := {301, 302, 303, 307, 308}
  const TRANSIENT_STATUSES: set<nat> := {408, 429, 500, 502, 503, 504}

  function Min(a: nat, b: nat): nat { if a <= b then a else b }
  function MinReal(a: real, b: real): real { if a <= b then a else b }
  function Minus(a: nat, b: nat): nat { if b <= a then a - b else 0 }

  function Total(attempts: seq<Attempt>): nat {
    if attempts == [] then 0 else Total(attempts[..|attempts| - 1]) + attempts[|attempts| - 1].bytes
  }

  function Waited(attempts: seq<Attempt>): real {
    if attempts == [] then 0.0 else Waited(attempts[..|attempts| - 1]) + attempts[|attempts| - 1].delay
  }

  function Urls(attempts: seq<Attempt>): set<string> { set a | a in attempts :: a.url }

  lemma Push(attempts: seq<Attempt>, a: Attempt)
    ensures Total(attempts + [a]) == Total(attempts) + a.bytes
    ensures Waited(attempts + [a]) == Waited(attempts) + a.delay
    ensures Urls(attempts + [a]) == Urls(attempts) + {a.url}
  {
    assert (attempts + [a])[..|attempts|] == attempts;
  }

  // ---- reading a body ----------------------------------------------------------------------------

  datatype ReadResult = Body(payload: Payload) | BodyError(error: FetchError) | BodyCrash

  function ReadFrom(stream: nat -> ReadReply, i: nat, collected: Payload, cap: nat): (r: ReadResult)
    requires |collected| <= cap + 1
    decreases cap + 1 - |collected|
  {
    if |collected| == cap + 1 then BodyError(FetchError("FETCH_RESPONSE_BUDGET_EXCEEDED", BudgetExceeded, None, |collected|))
    else
      var size := Min(READ_CHUNK_BYTES, cap + 1 - |collected|);
      match stream(i)
      case ReadCrash => BodyCrash
      case ReadError(e) => BodyError(e.(bytes := Min(MAX_TOTAL_BYTES + 1, |collected| + e.bytes)))
      case ReadNetworkError => BodyError(FetchError("NETWORK_ERROR", Transient, None, |collected|))
      case NotBytes => BodyError(FetchError("INVALID_NETWORK_PAYLOAD", Contract, None, |collected|))
      case Chunk(b) =>
        if |b| > size then BodyError(FetchError("TRANSPORT_READ_CONTRACT_VIOLATION", Contract, None, |collected| + size))
        else if b == [] then Body(collected)
        else ReadFrom(stream, i + 1, collected + b, cap)
  }

  /** The chunks of the first `n` reads, in order. */
  function Chunks(stream: nat -> ReadReply, n: nat): Payload {
    if n == 0 then [] else Chunks(stream, n - 1) + (if stream(n - 1).Chunk? then stream(n - 1).bytes else [])
  }

  /** The bytes a read error reports beyond what was collected. */
  function Extra(reply: ReadReply): nat { if reply.ReadError? then reply.error.bytes else 0 }

  ghost predicate BodyIs(stream: nat -> ReadReply, r: ReadResult, cap: nat, n: nat) {
    match r
    case Body(p) => p == Chunks(stream, n) && stream(n) == Chunk([]) && |p| <= cap
    case BodyError(e) => e.bytes <= cap + 1 + Extra(stream(n))
    case BodyCrash => stream(n).ReadCrash?
  }

  /** A body is all the chunks up to the empty one and fits the cap; an error charges at most one byte more. */
  lemma {:induction false} ReadFromIs(stream: nat -> ReadReply, i: nat, collected: Payload, cap: nat)
    requires collected == Chunks(stream, i) && |collected| <= cap + 1
    ensures exists n :: BodyIs(stream, ReadFrom(stream, i, collected, cap), cap, n)
    decreases cap + 1 - |collected|
  {
    if |collected| == cap + 1 {
      assert BodyIs(stream, ReadFrom(stream, i, collected, cap), cap, i);
    } else {
      var size := Min(READ_CHUNK_BYTES, cap + 1 - |collected|);
      if stream(i).Chunk? && 0 < |stream(i).bytes| <= size {
        ReadFromIs(stream, i + 1, collected + stream(i).bytes, cap);
        var n :| BodyIs(stream, ReadFrom(stream, i + 1, collected + stream(i).bytes, cap), cap, n);
        assert BodyIs(stream, ReadFrom(stream, i, collected, cap), cap, n);
      } else {
        assert BodyIs(stream, ReadFrom(stream, i, collected, cap), cap, i);
      }
    }
  }

  /** An unexpected exception at read `n`, after chunks that all fit. */
  predicate CrashesAt(stream: nat -> ReadReply, n: nat, cap: nat) {
    && (forall i: nat :: i < n ==> stream(i).Chunk? && 0 < |stream(i).bytes| <= READ_CHUNK_BYTES)
    && |Chunks(stream, n)| <= cap && stream(n).ReadCrash?
  }

  ghost predicate BodyCrashes(stream: nat -> ReadReply, cap: nat) { exists n: nat :: CrashesAt(stream, n, cap) }

  lemma {:induction false} ChunksGrow(stream: nat -> ReadReply, m: nat, n: nat)
    requires m <= n
    ensures |Chunks(stream, m)| <= |Chunks(stream, n)|
  {
    if m < n { ChunksGrow(stream, m, n - 1); }
  }

  lemma {:induction false} ReadCrashesIff(stream: nat -> ReadReply, i: nat, collected: Payload, cap: nat)
    requires collected == Chunks(stream, i) && |collected| <= cap + 1
    requires forall k: nat :: k < i ==> stream(k).Chunk? && 0 < |stream(k).bytes| <= READ_CHUNK_BYTES
    ensures ReadFrom(stream, i, collected, cap).BodyCrash? <==> BodyCrashes(stream, cap)
    decreases cap + 1 - |collected|
  {
    forall n: nat | CrashesAt(stream, n, cap)
      ensures i <= n && |collected| <= cap && (i < n ==> |Chunks(stream, i + 1)| <= cap)
    {
      assert i <= n;
      ChunksGrow(stream, i, n);
      if i < n { ChunksGrow(stream, i + 1, n); }
    }
    if |collected| <= cap {
      if stream(i).Chunk? && 0 < |stream(i).bytes| <= Min(READ_CHUNK_BYTES, cap + 1 - |collected|) {
        ReadCrashesIff(stream, i + 1, collected + stream(i).bytes, cap);
      } else if stream(i).ReadCrash? {
        assert CrashesAt(stream, i, cap);
      }
    }
  }

  /** Read `i` gives a piece of the body: not empty, no longer than asked for, and within one byte of the cap. */
  ghost predicate Piece(stream: nat -> ReadReply, i: nat, cap: nat) {
    && |Chunks(stream, i)| <= cap && stream(i).Chunk?
    && 0 < |stream(i).bytes| <= 65536 && |stream(i).bytes| <= cap + 1 - |Chunks(stream, i)|
  }

  /** What the first read that gives no piece makes of the body. */
  ghost predicate StopsWith(stream: nat -> ReadReply, n: nat, cap: nat, r: ReadResult) {
    var got := Chunks(stream, n);
    if |got| > cap then r == BodyError(FetchError("FETCH_RESPONSE_BUDGET_EXCEEDED", BudgetExceeded, None, |got|))
    else
      match stream(n)
      case ReadCrash => r == BodyCrash
      case ReadError(e) =>
        r == BodyError(FetchError(e.code, e.category, e.status,
                                  if |got| + e.bytes <= 100_000_000 then |got| + e.bytes else 100_000_001))
      case ReadNetworkError => r == BodyError(FetchError("NETWORK_ERROR", Transient, None, |got|))
      case NotBytes => r == BodyError(FetchError("INVALID_NETWORK_PAYLOAD", Contract, None, |got|))
      case Chunk(b) =>
        if b == [] then r == Body(got)
        else r.BodyError? && r.error.code == "TRANSPORT_READ_CONTRACT_VIOLATION" && r.error.category == Contract && |got| < r.error.bytes <= cap + 1
  }

  /** Reading goes on as long as reads give pieces, and the first other read decides. */
  lemma {:induction false} ReadStops(stream: nat -> ReadReply, i: nat, n: nat, cap: nat)
    requires i <= n && |Chunks(stream, i)| <= cap + 1
    requires (forall k: nat :: i <= k < n ==> Piece(stream, k, cap)) && !Piece(stream, n, cap)
    ensures StopsWith(stream, n, cap, ReadFrom(stream, i, Chunks(stream, i), cap))
    decreases n - i
  {
    if i < n {
      assert Piece(stream, i, cap);
      ReadStops(stream, i + 1, n, cap);
    }
  }

  method ReadBounded(stream: nat -> ReadReply, cap: nat) returns (r: ReadResult)
    ensures r == ReadFrom(stream, 0, [], cap)
    ensures r.Body? ==> |r.payload| <= cap
  {
    ReadFromIs(stream, 0, [], cap);
    var collected: Payload := [];
    var limit := cap + 1;
    var i := 0;
    while |collected| < limit
      invariant |collected| <= limit
      invariant ReadFrom(stream, 0, [], cap) == ReadFrom(stream, i, collected, cap)
      decreases limit - |collected|
    {
      var size := Min(READ_CHUNK_BYTES, limit - |collected|);
      match stream(i) {
        case ReadCrash => return BodyCrash;
        case ReadError(e) => return BodyError(e.(bytes := Min(MAX_TOTAL_BYTES + 1, |collected| + e.bytes)));
        case ReadNetworkError => return BodyError(FetchError("NETWORK_ERROR", Transient, None, |collected|));
        case NotBytes => return BodyError(FetchError("INVALID_NETWORK_PAYLOAD", Contract, None, |collected|));
        case Chunk(b) =>
          if |b| > size {
            collected := collected + b[..size];
            return BodyError(FetchError("TRANSPORT_READ_CONTRACT_VIOLATION", Contract, None, |collected|));
          }
          if b == [] { break; }
          collected := collected + b;
      }
      i := i + 1;
    }
    if |collected| > cap {
      return BodyError(FetchError("FETCH_RESPONSE_BUDGET_EXCEEDED", BudgetExceeded, None, |collected|));
    }
    return Body(collected);
  }

  predicate IsSpace(b: int) { b == 32 || 9 <= b <= 13 }

  function Stripped(p: Payload): Payload { if p != [] && IsSpace(p[0]) then Stripped(p[1..]) else p }

  function Lower(b: int): int { if 65 <= b <= 90 then b + 32 else b }

  /** `payload.lstrip()[:5].lower() == b"%pdf-"` */
  predicate LooksLikePdf(p: Payload) {
    var s := Stripped(p);
    |s| >= 5 && s[0] == 37 && Lower(s[1]) == 112 && Lower(s[2]) == 100 && Lower(s[3]) == 102 && s[4] == 45
  }

  /** `n` bytes of white space, then `%PDF-` with its letters in either case. */
  ghost predicate PdfAt(p: Payload, n: nat) {
    && n + 5 <= |p| && (forall i :: 0 <= i < n ==> p[i] in {9, 10, 11, 12, 13, 32})
    && p[n] == 37 && p[n + 1] in {80, 112} && p[n + 2] in {68, 100} && p[n + 3] in {70, 102} && p[n + 4] == 45
  }

  lemma {:induction false} PdfIff(p: Payload)
    ensures LooksLikePdf(p) <==> exists n: nat :: PdfAt(p, n)
  {
    if p != [] && IsSpace(p[0]) {
      PdfIff(p[1..]);
      assert Stripped(p) == Stripped(p[1..]);
      if n: nat :| PdfAt(p[1..], n) { assert PdfAt(p, n + 1); }
      if n: nat :| PdfAt(p, n) { assert PdfAt(p[1..], n - 1); }
    } else if LooksLikePdf(p) {
      assert PdfAt(p, 0);
    }
  }

  // ---- retrying ------------------------------------------------------------------------------------

  function Pow2(n: nat): real { if n == 0 then 1.0 else 2.0 * Pow2(n - 1) }

  lemma {:induction false} Pow2Positive(n: nat)
    ensures Pow2(n) > 0.0
  {
    if n > 0 { Pow2Positive(n - 1); }
  }

  datatype Decision = GiveUp | RetryAfterDelay(delay: real) | DecisionCrash

  /** `_retry_decision` */
  function RetryDecision(c: Config, e: FetchError, retries: nat, used: nat, waited: real, header: RetryAfter): Decision {
    if !e.category.Transient? || retries >= c.maxRetries || used >= c.remainingRequests then GiveUp
    else if header.Unreadable? then DecisionCrash
    else
      var delay := if header.Seconds? then MinReal(header.n as real, c.maxDelay) else MinReal(c.backoff * Pow2(retries), c.maxDelay);
      if waited + delay > c.maxWait then GiveUp else RetryAfterDelay(delay)
  }

  /** The delay a server asks for, or else twice the one before, starting from the configured back-off; never more than the limit. */
  ghost predicate DelayFits(c: Config, retries: nat, header: RetryAfter, delay: real) {
    var wanted := if header.Seconds? then header.n as real else c.backoff * Pow2(retries);
    delay == if wanted <= c.maxDelay then wanted else c.maxDelay
  }

  /** A retry happens exactly for a transient error within every limit, after the fitting delay. */
  lemma RetriedIff(c: Config, e: FetchError, retries: nat, used: nat, waited: real, header: RetryAfter, delay: real)
    ensures RetryDecision(c, e, retries, used, waited, header) == RetryAfterDelay(delay) <==>
              && e.category == Transient && retries < c.maxRetries && used < c.remainingRequests
              && !header.Unreadable? && DelayFits(c, retries, header, delay) && waited + delay <= c.maxWait
  {
    hide Pow2;
  }

  /** The back-off doubles with every retry. */
  lemma {:induction false} BackoffDoubles(n: nat)
    ensures Pow2(0) == 1.0 && Pow2(n + 1) == 2.0 * Pow2(n)
  {
  }

  // ---- the loop ------------------------------------------------------------------------------------

  /** A physical open: the URL it requested and the number of the preflight made just before it. */
  datatype Open = Open(url: string, check: nat)

  /** `trace` lists the physical opens and `checks` counts the preflights; they are not part of the program's state. */
  datatype Loop = Loop(
    url: string, attempts: seq<Attempt>, redirects: nat, retries: nat, waited: real, remaining: nat, trace: seq<Open>, checks: nat)

  datatype Next = Continue(state: Loop) | Done(outcome: Outcome, state: Loop)

  /** A typed error that ends the call, with its record in the ledger. */
  function End(s: Loop, e: FetchError, status: Option<nat>): Next {
    var a := Attempt(|s.attempts| + 1, Error(e.code), if status.Some? then status else e.status, e.bytes, s.url, 0.0);
    Done(Failed(e, s.attempts + [a]), s.(attempts := s.attempts + [a]))
  }

  /** An error that may be retried: record it, charge its bytes, wait, go round again. */
  function RetryOrEnd(c: Config, s: Loop, e: FetchError, status: Option<nat>, header: RetryAfter): Next {
    var decision := RetryDecision(c, e, s.retries, |s.attempts| + 1, s.waited, header);
    var delay := if decision.RetryAfterDelay? then decision.delay else 0.0;
    var a := Attempt(|s.attempts| + 1, Error(e.code), if status.Some? then status else e.status, e.bytes, s.url, delay);
    var after := s.(attempts := s.attempts + [a], remaining := Minus(s.remaining, e.bytes));
    match decision
    case DecisionCrash => Done(Untyped, s)
    case GiveUp => Done(Failed(e, after.attempts), after)
    case RetryAfterDelay(d) => Continue(after.(retries := s.retries + 1, waited := s.waited + d))
  }

  /** A complaint outside the block that attaches the ledger. */
  function Escaped(complaint: Complaint): Outcome {
    match complaint
    case Typed(e) => RefusedBeforeOpen(e)
    case Unexpected => Untyped
  }

  function Refused(r: Refusal): FetchError { FetchError(r.code, r.category, None, 0) }

  function SecurityError(code: string, status: nat): FetchError { FetchError(code, Security, Some(status), 0) }

  function FollowRedirect(c: Config, s: Loop, status: nat, location: Location): Next {
    match location
    case LocationRefused(e) => End(s, Refused(e), None)
    case Unjoinable => Done(Untyped, s)
    case Target(url) =>
      if !c.recordable(url) then Done(Untyped, s)
      else
        var a := Attempt(|s.attempts| + 1, Redirect(url), Some(status), 0, s.url, 0.0);
        var after := s.(attempts := s.attempts + [a]);
        if s.redirects >= c.maxRedirects then Done(Failed(SecurityError("TOO_MANY_REDIRECTS", status), after.attempts), after)
        else if url in Urls(after.attempts) then Done(Failed(SecurityError("REDIRECT_LOOP", status), after.attempts), after)
        else
          var checked := c.preflight(url, s.checks);
          if checked == Some(Unexpected) then Done(Untyped, after.(checks := s.checks + 1))
          else if checked.Some? then Done(Failed(checked.value.error, after.attempts), after.(checks := s.checks + 1))
          else Continue(after.(url := url, redirects := s.redirects + 1, checks := s.checks + 1))
  }

  function HttpError(status: nat): FetchError {
    if status in TRANSIENT_STATUSES then FetchError("TRANSIENT_HTTP_ERROR", Transient, Some(status), 0)
    else FetchError("HTTP_ERROR", Permanent, Some(status), 0)
  }

  function TakeBody(c: Config, s: Loop, status: nat, r: Response): Next {
    var cap := Min(c.maxBytesPerResponse, s.remaining);
    if r.headerProblem.Some? then End(s, Refused(r.headerProblem.value), None)
    else if r.declaredLength.Some? && r.declaredLength.value > cap then
      End(s, FetchError("FETCH_RESPONSE_BUDGET_EXCEEDED", BudgetExceeded, None, 0), None)
    else
      match ReadFrom(r.stream, 0, [], cap)
      case BodyCrash => Done(Untyped, s)
      case BodyError(e) => RetryOrEnd(c, s, e, Some(status), Absent)
      case Body(p) =>
        if LooksLikePdf(p) then End(s, FetchError("PDF_CONTENT_FORBIDDEN", Security, Some(status), |p|), Some(status))
        else
          var a := Attempt(|s.attempts| + 1, Success, Some(status), |p|, s.url, 0.0);
          var after := s.(attempts := s.attempts + [a], remaining := Minus(s.remaining, |p|));
          Done(Fetched(s.url, r.mediaType, p, after.attempts), after)
  }

  function Handle(c: Config, s: Loop, r: Response): Next {
    if r.status.None? then End(s, FetchError("INVALID_HTTP_STATUS", Contract, None, 0), None)
    else
      var status := r.status.value;
      if status in REDIRECT_STATUSES then FollowRedirect(c, s, status, r.location)
      else if !(200 <= status <= 299) then
        if r.retryAfter.Conflicting? then End(s, Refused(r.retryAfter.refusal), None)
        else RetryOrEnd(c, s, HttpError(status), None, r.retryAfter)
      else TakeBody(c, s, status, r)
  }

  const NETWORK := FetchError("NETWORK_ERROR", Transient, None, 0)

  /** The state once the check before an open has passed and the open is made. */
  function Opening(s: Loop): Loop { s.(checks := s.checks + 1, trace := s.trace + [Open(s.url, s.checks)]) }

  /** One turn of the `while True` loop. */
  function Turn(c: Config, s: Loop): Next {
    if |s.attempts| >= c.remainingRequests then
      Done(Failed(FetchError("FETCH_REQUEST_BUDGET_EXHAUSTED", BudgetExceeded, None, 0), s.attempts), s)
    else if s.remaining == 0 then
      Done(Failed(FetchError("FETCH_BYTE_BUDGET_EXHAUSTED", BudgetExceeded, None, 0), s.attempts), s)
    else
      var checked := c.preflight(s.url, s.checks);
      if checked.Some? then Done(Escaped(checked.value), s.(checks := s.checks + 1))
      else
        var now := Opening(s);
        match c.open(|s.trace|)
        case OpenCrash => Done(Untyped, now)
        case OpenError(e) => RetryOrEnd(c, now, e, None, Absent)
        case OpenNetworkError => RetryOrEnd(c, now, NETWORK, None, Absent)
        case Opened(r) => Handle(c, now, r)
  }

  function Initial(c: Config): Loop { Loop(c.url, [], 0, 0, 0.0, c.remainingBytes, [], 1) }

  function Left(c: Config, s: Loop): nat { Minus(c.maxRedirects, s.redirects) + Minus(c.maxRetries, s.retries) }

  /** Every turn that goes round again has used up a redirect or a retry. */
  lemma TurnDecreases(c: Config, s: Loop)
    ensures Turn(c, s).Continue? ==> Left(c, Turn(c, s).state) < Left(c, s)
  {
    hide ReadFrom, LooksLikePdf;
  }

  function LoopFrom(c: Config, s: Loop): (Outcome, Loop)
    decreases Left(c, s)
  {
    TurnDecreases(c, s);
    match Turn(c, s)
    case Done(o, t) => (o, t)
    case Continue(t) => LoopFrom(c, t)
  }

  /** The whole call. */
  function FetchResult(c: Config): (Outcome, Loop) {
    if c.remainingRequests == 0 then (Failed(FetchError("FETCH_REQUEST_BUDGET_EXHAUSTED", BudgetExceeded, None, 0), []), Initial(c))
    else if c.remainingBytes == 0 || c.maxBytesPerResponse == 0 then
      (Failed(FetchError("FETCH_BYTE_BUDGET_EXHAUSTED", BudgetExceeded, None, 0), []), Initial(c))
    else if c.preflight(c.url, 0).Some? then (Escaped(c.preflight(c.url, 0).value), Initial(c))
    else LoopFrom(c, Initial(c))
  }

  // ---- what every turn keeps --------------------------------------------------------------------------

  function NextUrl(a: Attempt): string { if a.outcome.Redirect? then a.outcome.target else a.url }

  /** The URL the next open would request. */
  function UrlAfter(c: Config, attempts: seq<Attempt>): string {
    if attempts == [] then c.url else NextUrl(attempts[|attempts| - 1])
  }

  /** Numbered from one, each request for the URL the attempt before it led to. */
  ghost predicate LedgerOk(c: Config, attempts: seq<Attempt>) {
    forall i :: 0 <= i < |attempts| ==> RecordOk(c, attempts, i)
  }

  ghost predicate RecordOk(c: Config, attempts: seq<Attempt>, i: nat)
    requires i < |attempts|
  {
    && attempts[i].number == i + 1
    && attempts[i].url == UrlAfter(c, attempts[..i])
    && (attempts[i].delay > 0.0 ==> attempts[i].outcome.Error?)
  }

  /** A redirect that was followed led to a URL not requested before. */
  ghost predicate MovesOk(attempts: seq<Attempt>, n: nat)
    requires n <= |attempts|
  {
    forall i :: 0 <= i < n && attempts[i].outcome.Redirect? ==> attempts[i].outcome.target !in Urls(attempts[..i + 1])
  }

  /** Just before every open its URL passed a check of its own. */
  ghost predicate OpensChecked(c: Config, trace: seq<Open>, checks: nat) {
    && (forall k :: 0 <= k < |trace| ==> c.preflight(trace[k].url, trace[k].check).None? && trace[k].check < checks)
    && (forall j, k :: 0 <= j < k < |trace| ==> trace[j].check < trace[k].check)
  }

  /** The k-th record is of the k-th open. */
  ghost predicate RecordsOpens(attempts: seq<Attempt>, trace: seq<Open>) {
    && |attempts| <= |trace|
    && forall k :: 0 <= k < |attempts| ==> attempts[k].url == trace[k].url
  }

  /** What holds whenever control is inside the loop. */
  ghost predicate LogOk(c: Config, s: Loop) {
    && |s.attempts| == s.redirects + s.retries
    && s.redirects <= c.maxRedirects && s.retries <= c.maxRetries && |s.trace| <= c.remainingRequests
    && s.url == UrlAfter(c, s.attempts)
    && s.remaining == Minus(c.remainingBytes, Total(s.attempts))
    && s.waited == Waited(s.attempts) && 0.0 <= s.waited <= c.maxWait
    && LedgerOk(c, s.attempts)
    && MovesOk(s.attempts, |s.attempts|)
    && OpensChecked(c, s.trace, s.checks)
    && RecordsOpens(s.attempts, s.trace)
  }

  /** At the head of the loop. */
  ghost predicate LoopOk(c: Config, s: Loop) { LogOk(c, s) && |s.trace| == |s.attempts| }

  /** Between a physical open and its record. */
  ghost predicate NowOk(c: Config, s: Loop) {
    && LogOk(c, s) && |s.trace| == |s.attempts| + 1 && s.trace[|s.attempts|].url == s.url && s.remaining > 0
  }

  /** What a finished call may rely on, however it ended. */
  ghost predicate EndOk(c: Config, o: Outcome, s: Loop) {
    && |s.trace| <= c.remainingRequests && |s.trace| <= 1 + c.maxRedirects + c.maxRetries
    && 0.0 <= Waited(s.attempts) <= c.maxWait
    && LedgerOk(c, s.attempts)
    && RecordsOpens(s.attempts, s.trace) && |s.trace| <= |s.attempts| + 1
    && MovesOk(s.attempts, Minus(|s.trace|, 1))
    && OpensChecked(c, s.trace, s.checks)
    && (|s.trace| > |s.attempts| ==> s.trace[|s.attempts|].url == UrlAfter(c, s.attempts))
    && (o.Fetched? || o.Failed? ==> o.attempts == s.attempts && |s.attempts| == |s.trace|)
  }

  /** Recording one more attempt for the current URL. */
  lemma LedgerPush(c: Config, s: Loop, a: Attempt)
    requires LedgerOk(c, s.attempts)
    requires a.number == |s.attempts| + 1 && a.url == UrlAfter(c, s.attempts) && (a.delay > 0.0 ==> a.outcome.Error?)
    ensures LedgerOk(c, s.attempts + [a])
  {
    var more := s.attempts + [a];
    forall i | 0 <= i < |more| ensures RecordOk(c, more, i) {
      if i < |s.attempts| {
        assert RecordOk(c, s.attempts, i);
        assert more[..i] == s.attempts[..i];
      } else {
        assert more[..i] == s.attempts;
      }
    }
  }

  lemma MovesPush(s: Loop, a: Attempt)
    requires MovesOk(s.attempts, |s.attempts|)
    ensures MovesOk(s.attempts + [a], |s.attempts|)
    ensures (a.outcome.Redirect? ==> a.outcome.target !in Urls(s.attempts + [a])) ==> MovesOk(s.attempts + [a], |s.attempts| + 1)
  {
    var more := s.attempts + [a];
    forall i | 0 <= i < |s.attempts| && more[i].outcome.Redirect? ensures more[i].outcome.target !in Urls(more[..i + 1]) {
      assert more[..i + 1] == s.attempts[..i + 1];
    }
    assert more[..|s.attempts| + 1] == more;
  }

  ghost predicate NextOk(c: Config, n: Next) {
    match n
    case Continue(s) => LoopOk(c, s)
    case Done(o, s) => EndOk(c, o, s)
  }

  lemma RecordedEnds(c: Config, s: Loop, a: Attempt, o: Outcome, t: Loop)
    requires NowOk(c, s) && a.number == |s.attempts| + 1 && a.url == s.url && a.delay == 0.0
    requires t.attempts == s.attempts + [a] && t.trace == s.trace && s.checks <= t.checks
    requires (o.Fetched? || o.Failed?) && o.attempts == t.attempts
    ensures EndOk(c, o, t)
  {
    hide LedgerOk, MovesOk, UrlAfter, OpensChecked, Urls, Total, Waited;
    LedgerPush(c, s, a);
    MovesPush(s, a);
    Push(s.attempts, a);
    ChecksGrow(c, s.trace, s.checks, t.checks);
  }

  lemma ChecksGrow(c: Config, trace: seq<Open>, a: nat, b: nat)
    requires OpensChecked(c, trace, a) && a <= b
    ensures OpensChecked(c, trace, b)
  {
  }

  lemma EndKeeps(c: Config, s: Loop, e: FetchError, status: Option<nat>)
    requires NowOk(c, s)
    ensures NextOk(c, End(s, e, status))
  {
    hide LedgerOk, MovesOk, OpensChecked, RecordsOpens, UrlAfter, EndOk;
    var n := End(s, e, status);
    RecordedEnds(c, s, n.state.attempts[|s.attempts|], n.outcome, n.state);
  }

  lemma RetryDelayIsSafe(c: Config, e: FetchError, retries: nat, used: nat, waited: real, header: RetryAfter)
    requires c.Valid() && 0.0 <= waited
    ensures var d := RetryDecision(c, e, retries, used, waited, header);
            d.RetryAfterDelay? ==>
              && e.category.Transient? && retries < c.maxRetries && used < c.remainingRequests
              && 0.0 <= d.delay <= c.maxDelay && waited + d.delay <= c.maxWait
              && (header.Seconds? ==> d.delay == MinReal(header.n as real, c.maxDelay))
  {
    Pow2Positive(retries);
    var p := Pow2(retries);
    assert c.backoff * p >= 0.0;
  }

  lemma RetryKeeps(c: Config, s: Loop, e: FetchError, status: Option<nat>, header: RetryAfter)
    requires c.Valid() && NowOk(c, s)
    ensures NextOk(c, RetryOrEnd(c, s, e, status, header))
  {
    hide LedgerOk, MovesOk, OpensChecked, UrlAfter, RetryDecision, Total, Waited;
    var n := RetryOrEnd(c, s, e, status, header);
    RetryDelayIsSafe(c, e, s.retries, |s.attempts| + 1, s.waited, header);
    if n.Continue? {
      var a := n.state.attempts[|s.attempts|];
      LedgerPush(c, s, a);
      MovesPush(s, a);
      Push(s.attempts, a);
      UrlOfError(c, s.attempts, a);
    } else if n.outcome.Failed? {
      RecordedEnds(c, s, n.state.attempts[|s.attempts|], n.outcome, n.state);
    } else {
      CrashEnds(c, s);
    }
  }

  lemma UrlOfError(c: Config, attempts: seq<Attempt>, a: Attempt)
    ensures UrlAfter(c, attempts + [a]) == NextUrl(a)
  {
  }

  lemma RedirectKeeps(c: Config, s: Loop, status: nat, location: Location)
    requires NowOk(c, s)
    ensures NextOk(c, FollowRedirect(c, s, status, location))
  {
    hide LedgerOk, MovesOk, UrlAfter, Total, Waited, Urls;
    if location.LocationRefused? {
      EndKeeps(c, s, Refused(location.refusal), None);
    } else if location.Target? && c.recordable(location.url) {
      var n := FollowRedirect(c, s, status, location);
      var a := n.state.attempts[|s.attempts|];
      if n.Continue? {
        LedgerPush(c, s, a);
        MovesPush(s, a);
        Push(s.attempts, a);
        UrlOfError(c, s.attempts, a);
      } else {
        RecordedEnds(c, s, a, if n.outcome.Untyped? then Failed(NETWORK, n.state.attempts) else n.outcome, n.state);
      }
    } else {
      CrashEnds(c, s);
    }
  }

  lemma BodyKeeps(c: Config, s: Loop, status: nat, r: Response)
    requires c.Valid() && NowOk(c, s)
    ensures NextOk(c, TakeBody(c, s, status, r))
  {
    hide NowOk, EndOk, LoopOk, ReadFrom, LooksLikePdf, RetryOrEnd, End;
    var cap := Min(c.maxBytesPerResponse, s.remaining);
    if r.headerProblem.Some? {
      EndKeeps(c, s, Refused(r.headerProblem.value), None);
    } else if r.declaredLength.Some? && r.declaredLength.value > cap {
      EndKeeps(c, s, FetchError("FETCH_RESPONSE_BUDGET_EXCEEDED", BudgetExceeded, None, 0), None);
    } else {
      var read := ReadFrom(r.stream, 0, [], cap);
      match read
      case BodyCrash => CrashEnds(c, s);
      case BodyError(e) => RetryKeeps(c, s, e, Some(status), Absent);
      case Body(p) =>
        if LooksLikePdf(p) {
          EndKeeps(c, s, FetchError("PDF_CONTENT_FORBIDDEN", Security, Some(status), |p|), Some(status));
        } else {
          var n := TakeBody(c, s, status, r);
          RecordedEnds(c, s, n.state.attempts[|s.attempts|], n.outcome, n.state);
        }
    }
  }

  lemma CrashEnds(c: Config, s: Loop)
    requires NowOk(c, s)
    ensures EndOk(c, Untyped, s)
  {
    hide LedgerOk, UrlAfter, Total, Waited, Urls;
  }

  lemma HandleKeeps(c: Config, s: Loop, r: Response)
    requires c.Valid() && NowOk(c, s)
    ensures NextOk(c, Handle(c, s, r))
  {
    hide NowOk, EndOk, LoopOk, TakeBody, FollowRedirect, RetryOrEnd, End;
    if r.status.None? {
      EndKeeps(c, s, FetchError("INVALID_HTTP_STATUS", Contract, None, 0), None);
    } else {
      var status := r.status.value;
      if status in REDIRECT_STATUSES { RedirectKeeps(c, s, status, r.location); }
      else if !(200 <= status <= 299) {
        if r.retryAfter.Conflicting? { EndKeeps(c, s, Refused(r.retryAfter.refusal), None); }
        else { RetryKeeps(c, s, HttpError(status), None, r.retryAfter); }
      } else { BodyKeeps(c, s, status, r); }
    }
  }

  lemma OpenedIsNow(c: Config, s: Loop)
    requires LoopOk(c, s) && |s.attempts| < c.remainingRequests && s.remaining > 0 && c.preflight(s.url, s.checks).None?
    ensures NowOk(c, Opening(s))
  {
    hide UrlAfter, Total, Waited, Urls, LedgerOk, MovesOk;
  }

  lemma StoppedEnds(c: Config, s: Loop, o: Outcome, checks: nat)
    requires LoopOk(c, s) && checks >= s.checks
    requires (o.Failed? && o.attempts == s.attempts) || o.RefusedBeforeOpen? || o.Untyped?
    ensures EndOk(c, o, s.(checks := checks))
  {
    hide UrlAfter, Total, Waited, Urls;
  }

  lemma TurnKeeps(c: Config, s: Loop)
    requires c.Valid() && LoopOk(c, s)
    ensures NextOk(c, Turn(c, s))
  {
    hide LoopOk, NowOk, EndOk, Handle, RetryOrEnd;
    if |s.attempts| >= c.remainingRequests || s.remaining == 0 {
      StoppedEnds(c, s, Turn(c, s).outcome, s.checks);
    } else if c.preflight(s.url, s.checks).Some? {
      StoppedEnds(c, s, Turn(c, s).outcome, s.checks + 1);
    } else {
      OpenedIsNow(c, s);
      var now := Opening(s);
      match c.open(|s.trace|)
      case OpenCrash => CrashEnds(c, now);
      case OpenError(e) => RetryKeeps(c, now, e, None, Absent);
      case OpenNetworkError => RetryKeeps(c, now, NETWORK, None, Absent);
      case Opened(r) => HandleKeeps(c, now, r);
    }
  }

  lemma {:induction false} LoopEnds(c: Config, s: Loop)
    requires c.Valid() && LoopOk(c, s)
    ensures var (o, t) := LoopFrom(c, s); EndOk(c, o, t)
    decreases Left(c, s)
  {
    hide LoopOk, EndOk, Turn;
    TurnKeeps(c, s);
    TurnDecreases(c, s);
    if Turn(c, s).Continue? { LoopEnds(c, Turn(c, s).state); }
  }

  // ---- bytes -----------------------------------------------------------------------------------------

  /** Transport and stream errors report no bytes of their own. */
  ghost predicate NoExtraBytes(c: Config) {
    forall n: nat ::
      match c.open(n)
      case OpenError(e) => e.bytes == 0
      case Opened(r) => forall k: nat :: Extra(r.stream(k)) == 0
      case _ => true
  }

  ghost predicate BytesOk(c: Config, n: Next) {
    match n
    case Continue(s) => NoExtraBytes(c) ==> Total(s.attempts) <= c.remainingBytes + 1
    case Done(o, s) =>
      && (o.Fetched? ==> Total(s.attempts) <= c.remainingBytes && |o.payload| <= c.maxBytesPerResponse)
      && (NoExtraBytes(c) ==> Total(s.attempts) <= c.remainingBytes + 1)
  }

  lemma TurnBytes(c: Config, s: Loop)
    requires LoopOk(c, s) && (NoExtraBytes(c) ==> Total(s.attempts) <= c.remainingBytes + 1)
    ensures BytesOk(c, Turn(c, s))
  {
    hide LoopOk, Handle, RetryOrEnd, NoExtraBytes, Total;
    if |s.attempts| < c.remainingRequests && s.remaining > 0 && c.preflight(s.url, s.checks).None? {
      var now := Opening(s);
      RoomLeft(c, s);
      match c.open(|s.trace|)
      case OpenCrash =>
      case OpenError(e) => RetryBytes(c, now, e, None, Absent); NoExtraOpen(c, |s.trace|);
      case OpenNetworkError => RetryBytes(c, now, NETWORK, None, Absent);
      case Opened(r) => HandleBytes(c, now, |s.trace|, r);
    }
  }

  lemma NoExtraOpen(c: Config, n: nat)
    requires c.open(n).OpenError?
    ensures NoExtraBytes(c) ==> c.open(n).error.bytes == 0
  {
  }

  lemma RoomLeft(c: Config, s: Loop)
    requires LoopOk(c, s) && s.remaining > 0
    ensures Total(s.attempts) + s.remaining == c.remainingBytes
  {
  }

  lemma RetryBytes(c: Config, s: Loop, e: FetchError, status: Option<nat>, header: RetryAfter)
    requires Total(s.attempts) + s.remaining == c.remainingBytes
    ensures NoExtraBytes(c) && e.bytes <= s.remaining + 1 ==> BytesOk(c, RetryOrEnd(c, s, e, status, header))
    ensures !NoExtraBytes(c) ==> BytesOk(c, RetryOrEnd(c, s, e, status, header))
  {
    hide RetryDecision, NoExtraBytes, Total;
    var n := RetryOrEnd(c, s, e, status, header);
    if n.state.attempts != s.attempts { Push(s.attempts, n.state.attempts[|s.attempts|]); }
  }

  lemma EndBytes(c: Config, s: Loop, e: FetchError, status: Option<nat>)
    requires Total(s.attempts) + s.remaining == c.remainingBytes && e.bytes <= s.remaining + 1
    ensures BytesOk(c, End(s, e, status))
  {
    hide NoExtraBytes, Total;
    Push(s.attempts, End(s, e, status).state.attempts[|s.attempts|]);
  }

  lemma RedirectBytes(c: Config, s: Loop, status: nat, location: Location)
    requires Total(s.attempts) + s.remaining == c.remainingBytes
    ensures BytesOk(c, FollowRedirect(c, s, status, location))
  {
    hide NoExtraBytes, Total, Urls;
    var n := FollowRedirect(c, s, status, location);
    if n.state.attempts != s.attempts { Push(s.attempts, n.state.attempts[|s.attempts|]); }
  }

  lemma HandleBytes(c: Config, s: Loop, n: nat, r: Response)
    requires c.open(n) == Opened(r) && Total(s.attempts) + s.remaining == c.remainingBytes
    ensures BytesOk(c, Handle(c, s, r))
  {
    hide BytesOk, NoExtraBytes, TakeBody, RetryOrEnd, End, FollowRedirect, Total;
    if r.status.None? {
      EndBytes(c, s, FetchError("INVALID_HTTP_STATUS", Contract, None, 0), None);
    } else {
      var status := r.status.value;
      if status in REDIRECT_STATUSES { RedirectBytes(c, s, status, r.location); }
      else if !(200 <= status <= 299) {
        if r.retryAfter.Conflicting? { EndBytes(c, s, Refused(r.retryAfter.refusal), None); }
        else { RetryBytes(c, s, HttpError(status), None, r.retryAfter); }
      } else { BodyBytes(c, s, n, status, r); }
    }
  }

  lemma BodyBytes(c: Config, s: Loop, n: nat, status: nat, r: Response)
    requires c.open(n) == Opened(r) && Total(s.attempts) + s.remaining == c.remainingBytes
    ensures BytesOk(c, TakeBody(c, s, status, r))
  {
    hide NoExtraBytes, RetryOrEnd, End, ReadFrom, LooksLikePdf, Total;
    var cap := Min(c.maxBytesPerResponse, s.remaining);
    if r.headerProblem.Some? {
      EndBytes(c, s, Refused(r.headerProblem.value), None);
    } else if r.declaredLength.Some? && r.declaredLength.value > cap {
      EndBytes(c, s, FetchError("FETCH_RESPONSE_BUDGET_EXCEEDED", BudgetExceeded, None, 0), None);
    } else {
      ReadFromIs(r.stream, 0, [], cap);
      var read := ReadFrom(r.stream, 0, [], cap);
      var k :| BodyIs(r.stream, read, cap, k);
      match read
      case BodyCrash => CrashBytes(c, s);
      case BodyError(e) => RetryBytes(c, s, e, Some(status), Absent); NoExtraStream(c, n, r, k);
      case Body(p) =>
        if LooksLikePdf(p) {
          EndBytes(c, s, FetchError("PDF_CONTENT_FORBIDDEN", Security, Some(status), |p|), Some(status));
        } else {
          Push(s.attempts, TakeBody(c, s, status, r).state.attempts[|s.attempts|]);
        }
    }
  }

  lemma CrashBytes(c: Config, s: Loop)
    requires Total(s.attempts) + s.remaining == c.remainingBytes
    ensures BytesOk(c, Done(Untyped, s))
  {
  }

  lemma NoExtraStream(c: Config, n: nat, r: Response, k: nat)
    requires c.open(n) == Opened(r)
    ensures NoExtraBytes(c) ==> Extra(r.stream(k)) == 0
  {
  }

  lemma {:induction false} LoopBytes(c: Config, s: Loop)
    requires c.Valid() && LoopOk(c, s) && (NoExtraBytes(c) ==> Total(s.attempts) <= c.remainingBytes + 1)
    ensures var (o, t) := LoopFrom(c, s); BytesOk(c, Done(o, t))
    decreases Left(c, s)
  {
    hide LoopOk, Turn, NoExtraBytes, Total;
    TurnKeeps(c, s);
    TurnBytes(c, s);
    TurnDecreases(c, s);
    if Turn(c, s).Continue? { LoopBytes(c, Turn(c, s).state); }
  }

  // ---- when a call ends without a typed, complete ledger ------------------------------------------------

  /** The resolver gives the same answer about a URL every time. */
  ghost predicate Deterministic(c: Config) {
    forall url, j: nat, k: nat :: c.preflight(url, j) == c.preflight(url, k)
  }

  predicate BudgetLeft(c: Config, s: Loop) { |s.attempts| < c.remainingRequests && s.remaining > 0 }

  /** The check at the head of the loop refuses the URL, outside the block that attaches the ledger. */
  predicate RefusesHead(c: Config, s: Loop) {
    BudgetLeft(c, s) && c.preflight(s.url, s.checks).Some? && c.preflight(s.url, s.checks).value.Typed?
  }

  /** A redirect that ends the call: it cannot be resolved or recorded, or its check raises something unexpected. */
  predicate RedirectCrashes(c: Config, s: Loop, location: Location) {
    || location.Unjoinable?
    || (location.Target? && !c.recordable(location.url))
    || (location.Target? && s.redirects < c.maxRedirects && location.url !in Urls(s.attempts) && location.url != s.url
        && c.preflight(location.url, s.checks) == Some(Unexpected))
  }

  /** The replies to the open just made that end the call by an exception other than the typed one. */
  ghost predicate Crashes(c: Config, s: Loop, reply: OpenReply) {
    match reply
    case OpenCrash => true
    case Opened(r) =>
      r.status.Some? &&
      var status, cap := r.status.value, Min(c.maxBytesPerResponse, s.remaining);
      || (status in REDIRECT_STATUSES && RedirectCrashes(c, s, r.location))
      || (status in TRANSIENT_STATUSES && s.retries < c.maxRetries && |s.attempts| + 1 < c.remainingRequests && r.retryAfter.Unreadable?)
      || (200 <= status <= 299 && r.headerProblem.None? && (r.declaredLength.Some? ==> r.declaredLength.value <= cap)
          && BodyCrashes(r.stream, cap))
    case _ => false
  }

  /** The turn from here ends by an untyped exception, from the check or after the open. */
  ghost predicate LosesLedger(c: Config, s: Loop) {
    && BudgetLeft(c, s)
    && (c.preflight(s.url, s.checks) == Some(Unexpected)
        || (c.preflight(s.url, s.checks).None? && Crashes(c, Opening(s), c.open(|s.trace|))))
  }

  /** A fetched document is the whole body of a 2xx reply, up to its end, and no PDF. */
  ghost predicate Delivered(o: Outcome, reply: OpenReply)
    requires o.Fetched?
  {
    && reply.Opened? && reply.response.status.Some? && 200 <= reply.response.status.value <= 299
    && reply.response.headerProblem.None? && o.mediaType == reply.response.mediaType && !LooksLikePdf(o.payload)
    && exists n :: o.payload == Chunks(reply.response.stream, n) && reply.response.stream(n) == Chunk([])
  }

  ghost predicate DeliveredEnd(c: Config, n: Next) {
    n.Done? && n.outcome.Fetched? ==>
      && |n.state.trace| > 0 && Delivered(n.outcome, c.open(|n.state.trace| - 1))
      && n.outcome.url == n.state.trace[|n.state.trace| - 1].url
  }

  lemma TurnDelivers(c: Config, s: Loop)
    ensures DeliveredEnd(c, Turn(c, s))
  {
    hide ReadFrom, LooksLikePdf, RetryDecision, Urls;
    if c.open(|s.trace|).Opened? {
      var r := c.open(|s.trace|).response;
      var cap := Min(c.maxBytesPerResponse, s.remaining);
      ReadFromIs(r.stream, 0, [], cap);
      var k :| BodyIs(r.stream, ReadFrom(r.stream, 0, [], cap), cap, k);
    }
  }

  predicate EndsUntyped(n: Next) { n.Done? && n.outcome.Untyped? }

  predicate EndsRefused(n: Next) { n.Done? && n.outcome.RefusedBeforeOpen? }

  lemma RetryCrashesIff(c: Config, s: Loop, e: FetchError, status: Option<nat>, header: RetryAfter)
    ensures EndsUntyped(RetryOrEnd(c, s, e, status, header)) <==>
              e.category.Transient? && s.retries < c.maxRetries && |s.attempts| + 1 < c.remainingRequests && header.Unreadable?
    ensures !EndsRefused(RetryOrEnd(c, s, e, status, header))
  {
    hide Pow2;
  }

  lemma RedirectCrashesIff(c: Config, s: Loop, status: nat, location: Location)
    ensures EndsUntyped(FollowRedirect(c, s, status, location)) <==> RedirectCrashes(c, s, location)
    ensures !EndsRefused(FollowRedirect(c, s, status, location))
  {
    if location.Target? {
      Push(s.attempts, Attempt(|s.attempts| + 1, Redirect(location.url), Some(status), 0, s.url, 0.0));
    }
  }

  lemma HandleCrashesIff(c: Config, s: Loop, r: Response)
    ensures EndsUntyped(Handle(c, s, r)) <==> Crashes(c, s, Opened(r))
    ensures !EndsRefused(Handle(c, s, r))
  {
    hide ReadFrom, LooksLikePdf, RetryOrEnd, BodyCrashes;
    if r.status.Some? {
      if r.status.value in REDIRECT_STATUSES { RedirectCrashesIff(c, s, r.status.value, r.location); }
      RetryCrashesIff(c, s, HttpError(r.status.value), None, r.retryAfter);
      var cap := Min(c.maxBytesPerResponse, s.remaining);
      ReadCrashesIff(r.stream, 0, [], cap);
      var body := ReadFrom(r.stream, 0, [], cap);
      if body.BodyError? { RetryCrashesIff(c, s, body.error, r.status, Absent); }
    }
  }

  /** Exactly when a turn ends the call by an untyped exception, or before its open. */
  lemma TurnLosesLedgerIff(c: Config, s: Loop)
    ensures EndsUntyped(Turn(c, s)) <==> LosesLedger(c, s)
    ensures EndsRefused(Turn(c, s)) <==> RefusesHead(c, s)
  {
    hide Handle, RetryOrEnd, BodyCrashes;
    if BudgetLeft(c, s) && c.preflight(s.url, s.checks).None? {
      var now := Opening(s);
      match c.open(|s.trace|)
      case OpenCrash =>
      case OpenError(e) => RetryCrashesIff(c, now, e, None, Absent);
      case OpenNetworkError => RetryCrashesIff(c, now, NETWORK, None, Absent);
      case Opened(r) => HandleCrashesIff(c, now, r);
    }
  }

  /** The states in which the loop comes to its head. */
  function Heads(c: Config, s: Loop): seq<Loop>
    decreases Left(c, s)
  {
    TurnDecreases(c, s);
    [s] + if Turn(c, s).Continue? then Heads(c, Turn(c, s).state) else []
  }

  /** The loop heads of the whole call. */
  function ReachedHeads(c: Config): seq<Loop> {
    if c.remainingRequests == 0 || c.remainingBytes == 0 || c.maxBytesPerResponse == 0 || c.preflight(c.url, 0).Some? then []
    else Heads(c, Initial(c))
  }

  /** The check before the loop raises something unexpected. */
  predicate FirstCheckCrashes(c: Config) {
    c.remainingRequests > 0 && c.remainingBytes > 0 && c.maxBytesPerResponse > 0 && c.preflight(c.url, 0) == Some(Unexpected)
  }

  ghost predicate SomeHeadLoses(c: Config, heads: seq<Loop>) { exists h :: h in heads && LosesLedger(c, h) }

  ghost predicate SomeHeadRefuses(c: Config, heads: seq<Loop>, least: nat) {
    exists h :: h in heads && |h.trace| >= least && RefusesHead(c, h)
  }

  lemma {:induction false} LoopLosesLedgerIff(c: Config, s: Loop, least: nat)
    ensures var (o, t) := LoopFrom(c, s);
            && (o.Untyped? <==> SomeHeadLoses(c, Heads(c, s)))
            && (o.RefusedBeforeOpen? && |t.trace| >= least <==> SomeHeadRefuses(c, Heads(c, s), least))
    decreases Left(c, s)
  {
    hide Turn, LosesLedger, RefusesHead;
    TurnLosesLedgerIff(c, s);
    TurnDecreases(c, s);
    RefusalOpensNothing(c, s);
    assert s in Heads(c, s);
    if Turn(c, s).Continue? {
      var next := Turn(c, s).state;
      LoopLosesLedgerIff(c, next, least);
      assert forall h :: h in Heads(c, s) <==> h == s || h in Heads(c, next);
    }
  }

  lemma RefusalOpensNothing(c: Config, s: Loop)
    ensures EndsRefused(Turn(c, s)) ==> Turn(c, s).state.trace == s.trace
  {
    TurnLosesLedgerIff(c, s);
    hide Handle, RetryOrEnd;
  }

  lemma {:induction false} LoopDelivers(c: Config, s: Loop)
    requires c.Valid() && LoopOk(c, s) && s.checks > 0 && (Deterministic(c) ==> c.preflight(s.url, 0).None?)
    ensures var (o, t) := LoopFrom(c, s);
            && (o.Fetched? ==> |t.trace| > 0 && Delivered(o, c.open(|t.trace| - 1)) && o.url == t.trace[|t.trace| - 1].url)
            && (o.RefusedBeforeOpen? ==> !Deterministic(c))
    decreases Left(c, s)
  {
    hide LoopOk, Turn, Delivered;
    TurnKeeps(c, s);
    TurnDelivers(c, s);
    TurnLosesLedgerIff(c, s);
    TurnDecreases(c, s);
    if Turn(c, s).Continue? {
      NextWasChecked(c, s);
      LoopDelivers(c, Turn(c, s).state);
    }
  }

  lemma NextWasChecked(c: Config, s: Loop)
    requires c.Valid() && LoopOk(c, s) && Turn(c, s).Continue? && (Deterministic(c) ==> c.preflight(s.url, 0).None?)
    ensures Turn(c, s).state.checks > 0 && (Deterministic(c) ==> c.preflight(Turn(c, s).state.url, 0).None?)
  {
    hide LoopOk, ReadFrom, LooksLikePdf, RetryDecision, Urls;
  }

  // ---- what each reply leads to -------------------------------------------------------------------------

  /** A reply that counts as an error of its own, the status for its record, and the header that may set the delay. */
  datatype Fault = Fault(error: FetchError, status: Option<nat>, header: RetryAfter)

  ghost predicate HeadersFit(c: Config, s: Loop, r: Response) {
    && r.headerProblem.None?
    && (r.declaredLength.Some? ==> r.declaredLength.value <= c.maxBytesPerResponse && r.declaredLength.value <= s.remaining)
  }

  /** The body of a reply, read up to the smaller of the two byte limits. */
  ghost function BodyOf(c: Config, s: Loop, r: Response): ReadResult {
    ReadFrom(r.stream, 0, [], if c.maxBytesPerResponse <= s.remaining then c.maxBytesPerResponse else s.remaining)
  }

  ghost function FaultOf(c: Config, s: Loop, reply: OpenReply): Option<Fault> {
    match reply
    case OpenCrash => None
    case OpenError(e) => Some(Fault(e, e.status, Absent))
    case OpenNetworkError => Some(Fault(FetchError("NETWORK_ERROR", Transient, None, 0), None, Absent))
    case Opened(r) =>
      if r.status.None? || r.status.value in {301, 302, 303, 307, 308} then None
      else if 200 <= r.status.value < 300 then
        if HeadersFit(c, s, r) && BodyOf(c, s, r).BodyError? then Some(Fault(BodyOf(c, s, r).error, r.status, Absent)) else None
      else if r.retryAfter.Conflicting? then None
      else if r.status.value in {408, 429, 500, 502, 503, 504} then
        Some(Fault(FetchError("TRANSIENT_HTTP_ERROR", Transient, r.status, 0), r.status, r.retryAfter))
      else Some(Fault(FetchError("HTTP_ERROR", Permanent, r.status, 0), r.status, r.retryAfter))
  }

  /** A redirect to a URL no record names, within the limit, that passes its check. */
  ghost predicate Redirects(c: Config, s: Loop, reply: OpenReply) {
    && reply.Opened? && reply.response.status.Some? && reply.response.status.value in {301, 302, 303, 307, 308}
    && reply.response.location.Target?
    && var url := reply.response.location.url;
       && c.recordable(url) && s.redirects < c.maxRedirects
       && url != s.url && (forall a :: a in s.attempts ==> a.url != url)
       && c.preflight(url, s.checks + 1).None?
  }

  /** A document: a 2xx reply with acceptable headers whose whole body fits and is no PDF. */
  ghost predicate Delivers(c: Config, s: Loop, reply: OpenReply) {
    && reply.Opened? && reply.response.status.Some? && 200 <= reply.response.status.value < 300
    && HeadersFit(c, s, reply.response)
    && BodyOf(c, s, reply.response).Body? && !LooksLikePdf(BodyOf(c, s, reply.response).payload)
  }

  ghost predicate MayRetry(c: Config, s: Loop, f: Fault) {
    f.error.category == Transient && s.retries < c.maxRetries && |s.attempts| + 1 < c.remainingRequests
  }

  ghost predicate RetriesFault(c: Config, s: Loop, f: Fault) {
    MayRetry(c, s, f) && !f.header.Unreadable? && exists delay :: DelayFits(c, s.retries, f.header, delay) && s.waited + delay <= c.maxWait
  }

  ghost predicate Retries(c: Config, s: Loop, reply: OpenReply) {
    FaultOf(c, s, reply).Some? && RetriesFault(c, s, FaultOf(c, s, reply).value)
  }

  /** The record of a fault, and the turn that wrote it: it went round again after the delay, or ended the call. */
  ghost predicate Charged(c: Config, s: Loop, f: Fault, n: Next, delay: real) {
    var a := Attempt(|s.attempts| + 1, Error(f.error.code), f.status, f.error.bytes, s.url, delay);
    var left := if f.error.bytes <= s.remaining then s.remaining - f.error.bytes else 0;
    var after := s.(attempts := s.attempts + [a], remaining := left, checks := s.checks + 1, trace := s.trace + [Open(s.url, s.checks)]);
    || n == Continue(after.(retries := s.retries + 1, waited := s.waited + delay))
    || (n == Done(Failed(f.error, after.attempts), after) && delay == 0.0)
  }

  ghost predicate Moved(s: Loop, status: nat, url: string, n: Next) {
    n == Continue(s.(url := url, redirects := s.redirects + 1, checks := s.checks + 2, trace := s.trace + [Open(s.url, s.checks)],
                     attempts := s.attempts + [Attempt(|s.attempts| + 1, Redirect(url), Some(status), 0, s.url, 0.0)]))
  }

  ghost predicate Finished(s: Loop, status: nat, mediaType: string, payload: Payload, n: Next) {
    && n.Done?
    && n.outcome == Fetched(s.url, mediaType, payload,
                            s.attempts + [Attempt(|s.attempts| + 1, Success, Some(status), |payload|, s.url, 0.0)])
  }

  /** What a turn does with a fault. */
  ghost predicate Handled(c: Config, s: Loop, f: Fault, n: Next) {
    && (n.Continue? <==> RetriesFault(c, s, f))
    && (n.Continue? ==> exists delay :: DelayFits(c, s.retries, f.header, delay) && Charged(c, s, f, n, delay))
    && (n.Done? && !n.outcome.Untyped? ==> Charged(c, s, f, n, 0.0))
    && (n.Done? ==> !n.outcome.Fetched?)
  }

  lemma FaultMeans(c: Config, s: Loop, e: FetchError, status: Option<nat>, header: RetryAfter)
    ensures Handled(c, s, Fault(e, if status.Some? then status else e.status, header), RetryOrEnd(c, Opening(s), e, status, header))
  {
    var f := Fault(e, if status.Some? then status else e.status, header);
    var decision := RetryDecision(c, e, s.retries, |s.attempts| + 1, s.waited, header);
    forall delay ensures decision == RetryAfterDelay(delay) <==>
                           MayRetry(c, s, f) && !header.Unreadable? && DelayFits(c, s.retries, header, delay) && s.waited + delay <= c.maxWait
    {
      RetriedIff(c, e, s.retries, |s.attempts| + 1, s.waited, header, delay);
    }
    hide RetryDecision, DelayFits, MayRetry;
    var n := RetryOrEnd(c, Opening(s), e, status, header);
    if decision.RetryAfterDelay? { assert Charged(c, s, f, n, decision.delay); }
  }

  lemma RedirectMeans(c: Config, s: Loop, r: Response)
    requires r.status.Some? && r.status.value in {301, 302, 303, 307, 308}
    ensures var n := FollowRedirect(c, Opening(s), r.status.value, r.location);
            && (n.Continue? <==> Redirects(c, s, Opened(r)))
            && (n.Continue? ==> Moved(s, r.status.value, r.location.url, n))
            && (n.Done? ==> !n.outcome.Fetched?)
  {
    hide Redirects, Urls;
    if r.location.Target? {
      Push(s.attempts, Attempt(|s.attempts| + 1, Redirect(r.location.url), Some(r.status.value), 0, s.url, 0.0));
      RedirectsIf(c, s, r, r.location.url);
    } else {
      NoTarget(c, s, r);
    }
  }

  lemma RedirectsIf(c: Config, s: Loop, r: Response, url: string)
    requires r.status.Some? && r.status.value in {301, 302, 303, 307, 308} && r.location == Target(url)
    ensures Redirects(c, s, Opened(r)) <==>
              c.recordable(url) && s.redirects < c.maxRedirects && url !in Urls(s.attempts) + {s.url} && c.preflight(url, s.checks + 1).None?
  {
  }

  lemma NoTarget(c: Config, s: Loop, r: Response)
    requires !r.location.Target?
    ensures !Redirects(c, s, Opened(r))
  {
  }

  lemma BodyMeans(c: Config, s: Loop, r: Response)
    requires r.status.Some? && 200 <= r.status.value < 300
    ensures var n := TakeBody(c, Opening(s), r.status.value, r);
            && (FaultOf(c, s, Opened(r)).Some? ==> Handled(c, s, FaultOf(c, s, Opened(r)).value, n))
            && (FaultOf(c, s, Opened(r)).None? ==> n.Done?)
            && (n.Done? && n.outcome.Fetched? <==> Delivers(c, s, Opened(r)))
            && (Delivers(c, s, Opened(r)) ==> Finished(s, r.status.value, r.mediaType, BodyOf(c, s, r).payload, n))
  {
    hide RetryOrEnd, ReadFrom, LooksLikePdf, Handled, Charged;
    assert BodyOf(c, s, r) == ReadFrom(r.stream, 0, [], Min(c.maxBytesPerResponse, s.remaining));
    if BodyOf(c, s, r).BodyError? {
      FaultMeans(c, s, BodyOf(c, s, r).error, r.status, Absent);
      assert FaultOf(c, s, Opened(r)).Some? ==> Handled(c, s, FaultOf(c, s, Opened(r)).value, TakeBody(c, Opening(s), r.status.value, r));
    }
    FaultIsNoDocument(c, s, r);
  }

  lemma FaultIsNoDocument(c: Config, s: Loop, r: Response)
    ensures FaultOf(c, s, Opened(r)).Some? ==> !Delivers(c, s, Opened(r)) && !Redirects(c, s, Opened(r))
    ensures forall f, n :: Handled(c, s, f, n) && n.Done? ==> !n.outcome.Fetched?
  {
    hide ReadFrom, LooksLikePdf;
  }

  /**
   * Once a URL was opened, the call goes round again exactly for a redirect to follow or a fault to retry,
   * and ends with a document exactly when the reply delivers one; each leaves the record of the reply.
   */
  lemma TurnMeans(c: Config, s: Loop)
    requires |s.attempts| < c.remainingRequests && s.remaining > 0 && c.preflight(s.url, s.checks).None?
    ensures var reply, n := c.open(|s.trace|), Turn(c, s);
            && (n.Continue? <==> Redirects(c, s, reply) || Retries(c, s, reply))
            && (Redirects(c, s, reply) ==> Moved(s, reply.response.status.value, reply.response.location.url, n))
            && (FaultOf(c, s, reply).Some? ==> Handled(c, s, FaultOf(c, s, reply).value, n))
            && (n.Done? && n.outcome.Fetched? <==> Delivers(c, s, reply))
            && (Delivers(c, s, reply) ==>
                  Finished(s, reply.response.status.value, reply.response.mediaType, BodyOf(c, s, reply.response).payload, n))
  {
    var reply, now := c.open(|s.trace|), Opening(s);
    hide RetryOrEnd, FollowRedirect, TakeBody, RetriesFault, Charged, HeadersFit, BodyOf, LooksLikePdf;
    match reply
    case OpenCrash =>
    case OpenError(e) => FaultMeans(c, s, e, None, Absent);
    case OpenNetworkError => FaultMeans(c, s, NETWORK, None, Absent);
    case Opened(r) =>
      FaultIsNoDocument(c, s, r);
      if r.status.Some? {
        if r.status.value in REDIRECT_STATUSES { RedirectMeans(c, s, r); }
        else if 200 <= r.status.value < 300 { BodyMeans(c, s, r); }
        else if !r.retryAfter.Conflicting? { FaultMeans(c, s, HttpError(r.status.value), None, r.retryAfter); }
      }
  }

  /** Why a reply that is neither a fault, nor a redirect to follow, nor a document ends the call. */
  ghost predicate Objects(c: Config, s: Loop, r: Response, e: FetchError) {
    if r.status.None? then e == FetchError("INVALID_HTTP_STATUS", Contract, None, 0)
    else if r.status.value in {301, 302, 303, 307, 308} then
      match r.location
      case LocationRefused(why) => e == FetchError(why.code, why.category, None, 0)
      case Unjoinable => false
      case Target(url) =>
        if s.redirects >= c.maxRedirects then e == FetchError("TOO_MANY_REDIRECTS", Security, r.status, 0)
        else if url in Urls(s.attempts) + {s.url} then e == FetchError("REDIRECT_LOOP", Security, r.status, 0)
        else c.preflight(url, s.checks + 1) == Some(Typed(e))
    else if !(200 <= r.status.value < 300) then
      r.retryAfter.Conflicting? && e == FetchError(r.retryAfter.refusal.code, r.retryAfter.refusal.category, None, 0)
    else if r.headerProblem.Some? then e == FetchError(r.headerProblem.value.code, r.headerProblem.value.category, None, 0)
    else if !HeadersFit(c, s, r) then e == FetchError("FETCH_RESPONSE_BUDGET_EXCEEDED", BudgetExceeded, None, 0)
    else
      var body := BodyOf(c, s, r);
      body.Body? && LooksLikePdf(body.payload) && e == FetchError("PDF_CONTENT_FORBIDDEN", Security, r.status, |body.payload|)
  }

  /** The record of the refused reply: the redirect as it was answered, or the error. */
  ghost predicate Recorded(s: Loop, r: Response, e: FetchError, a: Attempt) {
    && a.number == |s.attempts| + 1 && a.url == s.url && a.delay == 0.0
    && if r.status.Some? && r.status.value in {301, 302, 303, 307, 308} && r.location.Target?
       then a.outcome == Redirect(r.location.url) && a.status == r.status && a.bytes == 0
       else a.outcome == Error(e.code) && a.status == e.status && a.bytes == e.bytes
  }

  /** Every other reply that is recorded at all ends the call with the error its objection names. */
  lemma OtherRepliesFail(c: Config, s: Loop)
    requires |s.attempts| < c.remainingRequests && s.remaining > 0 && c.preflight(s.url, s.checks).None?
    requires c.open(|s.trace|).Opened? && FaultOf(c, s, c.open(|s.trace|)).None?
    requires Turn(c, s).Done? && !Turn(c, s).outcome.Fetched? && !Turn(c, s).outcome.Untyped?
    ensures var r, o := c.open(|s.trace|).response, Turn(c, s).outcome;
            && o.Failed? && Objects(c, s, r, o.error)
            && |o.attempts| == |s.attempts| + 1 && o.attempts[..|s.attempts|] == s.attempts && Recorded(s, r, o.error, o.attempts[|s.attempts|])
  {
    var r := c.open(|s.trace|).response;
    hide ReadFrom, LooksLikePdf, RetryOrEnd, FollowRedirect, TakeBody, Urls, HeadersFit, BodyOf;
    if r.status.Some? && r.status.value in REDIRECT_STATUSES {
      RedirectFails(c, s, r);
    } else if r.status.Some? && 200 <= r.status.value < 300 {
      BodyFails(c, s, r);
    }
  }

  lemma RedirectFails(c: Config, s: Loop, r: Response)
    requires r.status.Some? && r.status.value in {301, 302, 303, 307, 308}
    ensures var n := FollowRedirect(c, Opening(s), r.status.value, r.location);
            n.Done? && !n.outcome.Untyped? ==>
              && n.outcome.Failed? && Objects(c, s, r, n.outcome.error)
              && |n.outcome.attempts| == |s.attempts| + 1 && n.outcome.attempts[..|s.attempts|] == s.attempts
              && Recorded(s, r, n.outcome.error, n.outcome.attempts[|s.attempts|])
  {
    hide ReadFrom, LooksLikePdf, HeadersFit, BodyOf, Urls;
    if r.location.Target? {
      var url := r.location.url;
      Push(s.attempts, Attempt(|s.attempts| + 1, Redirect(url), Some(r.status.value), 0, s.url, 0.0));
      var checked := c.preflight(url, s.checks + 1);
      assert checked.Some? && checked != Some(Unexpected) ==> checked == Some(Typed(checked.value.error));
    }
  }

  lemma BodyFails(c: Config, s: Loop, r: Response)
    requires r.status.Some? && 200 <= r.status.value < 300 && FaultOf(c, s, Opened(r)).None?
    ensures var n := TakeBody(c, Opening(s), r.status.value, r);
            n.Done? && !n.outcome.Untyped? && !n.outcome.Fetched? ==>
              && n.outcome.Failed? && Objects(c, s, r, n.outcome.error)
              && |n.outcome.attempts| == |s.attempts| + 1 && n.outcome.attempts[..|s.attempts|] == s.attempts
              && Recorded(s, r, n.outcome.error, n.outcome.attempts[|s.attempts|])
  {
    hide ReadFrom, LooksLikePdf, RetryOrEnd, Urls;
  }

  /** With a budget used up the call ends at the head of the loop; nothing more is opened. */
  lemma BudgetsEnd(c: Config, s: Loop)
    ensures |s.attempts| >= c.remainingRequests ==>
              Turn(c, s) == Done(Failed(FetchError("FETCH_REQUEST_BUDGET_EXHAUSTED", BudgetExceeded, None, 0), s.attempts), s)
    ensures |s.attempts| < c.remainingRequests && s.remaining == 0 ==>
              Turn(c, s) == Done(Failed(FetchError("FETCH_BYTE_BUDGET_EXHAUSTED", BudgetExceeded, None, 0), s.attempts), s)
  {
  }

  // ---- main results -----------------------------------------------------------------------------------

  lemma InitialIsOk(c: Config)
    requires c.Valid() && c.remainingRequests > 0 && c.remainingBytes > 0
    ensures LoopOk(c, Initial(c))
  {
  }

  /** The redirect in record `i` was followed: its target was requested by the next open. */
  ghost predicate MovedAt(s: Loop, i: nat) {
    i < |s.attempts| && s.attempts[i].outcome.Redirect? && i + 1 < |s.trace|
  }

  /** A followed redirect leads to the URL of the next open, which no open before it requested. */
  ghost predicate NewMove(s: Loop, i: nat)
    requires MovedAt(s, i)
  {
    var target := s.attempts[i].outcome.target;
    s.trace[i + 1].url == target && forall k :: 0 <= k <= i ==> s.trace[k].url != target
  }

  lemma MoveIsNew(c: Config, o: Outcome, s: Loop, i: nat)
    requires EndOk(c, o, s) && MovedAt(s, i)
    ensures NewMove(s, i)
  {
    hide OpensChecked, Waited;
    var target := s.attempts[i].outcome.target;
    if i + 1 < |s.attempts| {
      assert RecordOk(c, s.attempts, i + 1);
      assert s.attempts[..i + 1][|s.attempts[..i + 1]| - 1] == s.attempts[i];
    }
    forall k | 0 <= k <= i ensures s.trace[k].url != target {
      assert s.attempts[..i + 1][k] == s.attempts[k];
      assert s.attempts[k] in s.attempts[..i + 1];
    }
  }

  /** Two followed redirects never led to the same URL. */
  lemma MovesAreDistinct(c: Config, s: Loop, i: nat, j: nat)
    requires i < j && MovedAt(s, i) && MovedAt(s, j) && NewMove(s, i) && NewMove(s, j)
    ensures s.attempts[i].outcome.target != s.attempts[j].outcome.target
  {
    assert s.trace[i + 1].url != s.attempts[j].outcome.target;
  }

  lemma FetchEnds(c: Config)
    requires c.Valid()
    ensures var (o, s) := FetchResult(c); EndOk(c, o, s) && BytesOk(c, Done(o, s))
  {
    hide LoopOk, LoopFrom;
    if c.remainingRequests > 0 && c.remainingBytes > 0 {
      InitialIsOk(c);
      LoopEnds(c, Initial(c));
      LoopBytes(c, Initial(c));
    }
  }

  /**
   * For any network and however the call ends: physical opens never exceed the request allowance nor
   * 1 + redirects + retries, all waiting stays within the limit, every open comes just after a passed
   * check of its own URL, and every URL moved to by a redirect is new.
   */
  lemma FetchIsBounded(c: Config)
    requires c.Valid()
    ensures var (o, s) := FetchResult(c);
            && |s.trace| <= c.remainingRequests && |s.trace| <= 1 + c.maxRedirects + c.maxRetries
            && |s.attempts| <= |s.trace| <= |s.attempts| + 1
            && 0.0 <= Waited(s.attempts) <= c.maxWait
            && OpensChecked(c, s.trace, s.checks)
            && forall i: nat :: MovedAt(s, i) ==> NewMove(s, i)
  {
    hide FetchResult, BytesOk, OpensChecked, MovesOk, LedgerOk, UrlAfter, Waited;
    FetchEnds(c);
    var (o, s) := FetchResult(c);
    forall i: nat | MovedAt(s, i) ensures NewMove(s, i) { MoveIsNew(c, o, s, i); }
  }

  /**
   * Every typed end carries one record per physical open, numbered from one, each for the URL the one
   * before led to. The call ends without its ledger exactly when some loop head loses it: by one of
   * the crashing replies, or, after an open, by a check that a deterministic resolver would not fail.
   */
  lemma LedgerIsComplete(c: Config)
    requires c.Valid()
    ensures var (o, s) := FetchResult(c);
            && (o.Fetched? || o.Failed? ==>
                  && o.attempts == s.attempts && |o.attempts| == |s.trace|
                  && forall i :: 0 <= i < |o.attempts| ==>
                       && o.attempts[i].number == i + 1 && o.attempts[i].url == s.trace[i].url
                       && o.attempts[i].url == UrlAfter(c, o.attempts[..i]))
            && (o.Fetched? ==> |s.trace| > 0 && Delivered(o, c.open(|s.trace| - 1)) && o.url == s.trace[|s.trace| - 1].url)
            && (o.Untyped? <==> FirstCheckCrashes(c) || SomeHeadLoses(c, ReachedHeads(c)))
            && (o.RefusedBeforeOpen? && |s.trace| > 0 <==> SomeHeadRefuses(c, ReachedHeads(c), 1))
            && (o.RefusedBeforeOpen? && |s.trace| > 0 ==> !Deterministic(c))
  {
    hide LoopOk, LoopFrom, Heads, BytesOk, UrlAfter, Delivered, LosesLedger, RefusesHead, OpensChecked, MovesOk;
    FetchEnds(c);
    var (o, s) := FetchResult(c);
    if o.Fetched? || o.Failed? {
      forall i | 0 <= i < |o.attempts|
        ensures o.attempts[i].number == i + 1 && o.attempts[i].url == UrlAfter(c, o.attempts[..i])
      {
        assert RecordOk(c, o.attempts, i);
      }
    }
    if c.remainingRequests > 0 && c.remainingBytes > 0 && c.maxBytesPerResponse > 0 && c.preflight(c.url, 0).None? {
      InitialIsOk(c);
      LoopDelivers(c, Initial(c));
      LoopLosesLedgerIff(c, Initial(c), 1);
    }
  }

  /** A success stays within the byte allowance; a failure exceeds it by at most one byte. */
  lemma BytesAreBounded(c: Config)
    requires c.Valid()
    ensures var (o, s) := FetchResult(c);
            && (o.Fetched? ==> Total(o.attempts) <= c.remainingBytes && |o.payload| <= c.maxBytesPerResponse)
            && (o.Failed? && NoExtraBytes(c) ==> Total(o.attempts) <= c.remainingBytes + 1)
  {
    hide FetchResult, Total, NoExtraBytes, LedgerOk, MovesOk, Waited;
    FetchEnds(c);
  }

  // ---- one call for each way to lose the ledger ---------------------------------------------------------

  /** A site that may be opened five times, with one redirect and one retry. */
  function Site(open: nat -> OpenReply, preflight: (string, nat) -> Option<Complaint>, recordable: string -> bool): Config {
    Config(1, 1.0, 1.0, 1.0, 5, 10, 10, 1, "a", open, preflight, recordable)
  }

  const ACCEPTS: (string, nat) -> Option<Complaint> := (url, k) => None

  function Reply(status: nat, location: Location, retryAfter: RetryAfter, stream: nat -> ReadReply): OpenReply {
    Opened(Response(Some(status), location, retryAfter, None, None, "", stream))
  }

  lemma UntypedTurn(c: Config, s: Loop)
    requires EndsUntyped(Turn(c, s)) && forall url, k: nat :: c.preflight(url, k).None?
    ensures |Turn(c, s).state.trace| == |s.trace| + 1 && Turn(c, s).state.attempts == s.attempts
  {
    hide ReadFrom, LooksLikePdf, RetryDecision, Urls;
  }

  /** Each of these replies ends a call after one open that no ledger records. */
  lemma CrashesLoseTheLedger(open: nat -> OpenReply, recordable: string -> bool)
    requires
      || open(0) == OpenCrash
      || open(0) == Reply(301, Unjoinable, Absent, n => ReadCrash)
      || (open(0) == Reply(301, Target("b"), Absent, n => ReadCrash) && !recordable("b"))
      || open(0) == Reply(503, Target("b"), Unreadable, n => ReadCrash)
      || open(0) == Reply(200, Target("b"), Absent, n => ReadCrash)
    ensures var (o, s) := FetchResult(Site(open, ACCEPTS, recordable));
            o == Untyped && |s.trace| == 1 && s.attempts == []
  {
    var c := Site(open, ACCEPTS, recordable);
    assert CrashesAt(n => ReadCrash, 0, 10);
    assert LosesLedger(c, Initial(c));
    hide Turn, LosesLedger;
    TurnLosesLedgerIff(c, Initial(c));
    UntypedTurn(c, Initial(c));
  }

  /** A resolver that complains at the third check ends a call after one open, without its record: typed or not as it complains. */
  lemma ChangingResolverLosesTheLedger(complaint: Complaint, recordable: string -> bool)
    ensures var changing := (url: string, k: nat) => if k < 2 then None else Some(complaint);
            var (o, s) := FetchResult(Site(n => OpenNetworkError, changing, recordable));
            o == Escaped(complaint) && |s.trace| == 1 && |s.attempts| == 1
  {
    var changing := (url: string, k: nat) => if k < 2 then None else Some(complaint);
    var c := Site(n => OpenNetworkError, changing, recordable);
    var s := Initial(c);
    assert Pow2(0) == 1.0;
    assert Turn(c, s).Continue?;
    LoopUnfolds(c, s);
    LoopUnfolds(c, Turn(c, s).state);
  }

  /** So does one that raises something unexpected about the target of a redirect, with the redirect's record lost as well. */
  lemma RedirectCheckLosesTheLedger(recordable: string -> bool)
    requires recordable("b")
    ensures var raising := (url: string, k: nat) => if url == "b" then Some(Unexpected) else None;
            var (o, s) := FetchResult(Site(n => Reply(301, Target("b"), Absent, m => ReadCrash), raising, recordable));
            o == Untyped && |s.trace| == 1 && |s.attempts| == 1
  {
    var raising := (url: string, k: nat) => if url == "b" then Some(Unexpected) else None;
    var c := Site(n => Reply(301, Target("b"), Absent, m => ReadCrash), raising, recordable);
    LoopUnfolds(c, Initial(c));
  }

  /** A redirect followed to a document: the document is reported under the URL it came from, not the one asked for. */
  lemma RedirectedDocument(open: nat -> OpenReply, recordable: string -> bool)
    requires recordable("b") && open(0) == Reply(301, Target("b"), Absent, n => ReadCrash)
    requires open(1) == Opened(Response(Some(200), Target(""), Absent, None, None, "text/html", n => if n == 0 then Chunk([60]) else Chunk([])))
    ensures Site(open, ACCEPTS, recordable).Valid()
    ensures FetchResult(Site(open, ACCEPTS, recordable)).0
            == Fetched("b", "text/html", [60], [Attempt(1, Redirect("b"), Some(301), 0, "a", 0.0), Attempt(2, Success, Some(200), 1, "b", 0.0)])
  {
    var c := Site(open, ACCEPTS, recordable);
    var s := Initial(c);
    var next := s.(url := "b", redirects := 1, checks := 3, trace := [Open("a", 1)], attempts := [Attempt(1, Redirect("b"), Some(301), 0, "a", 0.0)]);
    assert s.trace == [] && s.attempts == [];
    assert Redirects(c, s, open(0));
    BodyOfTwo(c, next, open(1).response);
    assert Delivers(c, next, open(1));
    hide Turn, LoopFrom, FaultOf, Redirects, Delivers, Retries, ReadFrom, LooksLikePdf, BodyOf, Handled;
    TurnMeans(c, s);
    assert Turn(c, s) == Continue(next);
    LoopUnfolds(c, s);
    TurnMeans(c, next);
    LoopUnfolds(c, next);
  }

  lemma BodyOfTwo(c: Config, s: Loop, r: Response)
    requires c.maxBytesPerResponse == s.remaining == 10 && r.stream(0) == Chunk([60]) && r.stream(1) == Chunk([])
    ensures BodyOf(c, s, r) == Body([60]) && !LooksLikePdf([60])
  {
    assert Chunks(r.stream, 0) == [] && Chunks(r.stream, 1) == [60];
    ReadStops(r.stream, 0, 1, 10);
  }

  lemma LoopUnfolds(c: Config, s: Loop)
    ensures LoopFrom(c, s) == if Turn(c, s).Done? then (Turn(c, s).outcome, Turn(c, s).state) else LoopFrom(c, Turn(c, s).state)
  {
    hide Turn;
  }

  lemma WaitingGrows(c: Config, s: Loop)
    requires c.Valid() && LoopOk(c, s)
    ensures Turn(c, s).Continue? ==> s.waited <= Turn(c, s).state.waited
  {
    hide LoopOk, ReadFrom, LooksLikePdf, RetryDecision, Urls;
    assert 0.0 <= s.waited by { WaitedIsPositive(c, s); }
    forall e: FetchError, header: RetryAfter {:trigger RetryDecision(c, e, s.retries, |s.attempts| + 1, s.waited, header)}
      ensures RetryDecision(c, e, s.retries, |s.attempts| + 1, s.waited, header).RetryAfterDelay? ==>
                0.0 <= RetryDecision(c, e, s.retries, |s.attempts| + 1, s.waited, header).delay
    {
      RetryDelayIsSafe(c, e, s.retries, |s.attempts| + 1, s.waited, header);
    }
  }

  lemma WaitedIsPositive(c: Config, s: Loop)
    requires LoopOk(c, s)
    ensures 0.0 <= s.waited
  {
  }

  /** The last record of a finished call carries no delay. */
  ghost predicate NoWaitAtEnd(s: Loop, n: Next) {
    n.Done? && (n.outcome.Fetched? || n.outcome.Failed?) ==>
      n.outcome.attempts == n.state.attempts && Waited(n.outcome.attempts) == Waited(s.attempts)
  }

  lemma EndAddsNoWait(s: Loop, e: FetchError, status: Option<nat>)
    ensures NoWaitAtEnd(s, End(s, e, status))
  {
    hide Waited;
    Push(s.attempts, End(s, e, status).state.attempts[|s.attempts|]);
  }

  lemma RetryAddsNoWait(c: Config, s: Loop, e: FetchError, status: Option<nat>, header: RetryAfter)
    ensures NoWaitAtEnd(s, RetryOrEnd(c, s, e, status, header))
  {
    hide Waited, RetryDecision;
    var n := RetryOrEnd(c, s, e, status, header);
    if n.state.attempts != s.attempts { Push(s.attempts, n.state.attempts[|s.attempts|]); }
  }

  lemma RedirectAddsNoWait(c: Config, s: Loop, status: nat, location: Location)
    ensures NoWaitAtEnd(s, FollowRedirect(c, s, status, location))
  {
    hide Waited, Urls;
    var n := FollowRedirect(c, s, status, location);
    if n.state.attempts != s.attempts { Push(s.attempts, n.state.attempts[|s.attempts|]); }
  }

  lemma BodyAddsNoWait(c: Config, s: Loop, status: nat, r: Response)
    ensures NoWaitAtEnd(s, TakeBody(c, s, status, r))
  {
    hide Waited, ReadFrom, LooksLikePdf, RetryOrEnd, End;
    var cap := Min(c.maxBytesPerResponse, s.remaining);
    if r.headerProblem.Some? {
      EndAddsNoWait(s, Refused(r.headerProblem.value), None);
    } else if r.declaredLength.Some? && r.declaredLength.value > cap {
      EndAddsNoWait(s, FetchError("FETCH_RESPONSE_BUDGET_EXCEEDED", BudgetExceeded, None, 0), None);
    } else {
      match ReadFrom(r.stream, 0, [], cap)
      case BodyCrash =>
      case BodyError(e) => RetryAddsNoWait(c, s, e, Some(status), Absent);
      case Body(p) =>
        if LooksLikePdf(p) {
          EndAddsNoWait(s, FetchError("PDF_CONTENT_FORBIDDEN", Security, Some(status), |p|), Some(status));
        } else {
          Push(s.attempts, TakeBody(c, s, status, r).state.attempts[|s.attempts|]);
        }
    }
  }

  lemma EndingAddsNoWait(c: Config, s: Loop)
    ensures NoWaitAtEnd(s, Turn(c, s))
  {
    hide NoWaitAtEnd, TakeBody, FollowRedirect, RetryOrEnd, End;
    if |s.attempts| >= c.remainingRequests || s.remaining == 0 || c.preflight(s.url, s.checks).Some? {
      StoppedAddsNoWait(c, s);
    } else {
      var now := Opening(s);
      assert forall n :: NoWaitAtEnd(now, n) ==> NoWaitAtEnd(s, n) by { SameAttempts(now, s); }
      match c.open(|s.trace|)
      case OpenCrash => CrashAddsNoWait(s, now);
      case OpenError(e) => RetryAddsNoWait(c, now, e, None, Absent);
      case OpenNetworkError => RetryAddsNoWait(c, now, NETWORK, None, Absent);
      case Opened(r) =>
        if r.status.None? {
          EndAddsNoWait(now, FetchError("INVALID_HTTP_STATUS", Contract, None, 0), None);
        } else if r.status.value in REDIRECT_STATUSES {
          RedirectAddsNoWait(c, now, r.status.value, r.location);
        } else if 200 <= r.status.value <= 299 {
          BodyAddsNoWait(c, now, r.status.value, r);
        } else if r.retryAfter.Conflicting? {
          EndAddsNoWait(now, Refused(r.retryAfter.refusal), None);
        } else {
          RetryAddsNoWait(c, now, HttpError(r.status.value), None, r.retryAfter);
        }
    }
  }

  lemma StoppedAddsNoWait(c: Config, s: Loop)
    requires |s.attempts| >= c.remainingRequests || s.remaining == 0 || c.preflight(s.url, s.checks).Some?
    ensures NoWaitAtEnd(s, Turn(c, s))
  {
    hide Waited;
  }

  lemma CrashAddsNoWait(s: Loop, t: Loop)
    ensures NoWaitAtEnd(s, Done(Untyped, t))
  {
  }

  lemma SameAttempts(s: Loop, t: Loop)
    requires s.attempts == t.attempts
    ensures forall n :: NoWaitAtEnd(s, n) ==> NoWaitAtEnd(t, n)
  {
    hide Waited;
  }

  /** One turn, with the body read chunk by chunk. */
  method TakeTurn(c: Config, s: Loop) returns (n: Next)
    ensures n == Turn(c, s)
  {
    hide RetryDecision, Urls, LooksLikePdf, ReadFrom;
    if |s.attempts| >= c.remainingRequests || s.remaining == 0 || c.preflight(s.url, s.checks).Some? { return Turn(c, s); }
    var now := Opening(s);
    match c.open(|s.trace|) {
      case OpenCrash => return Done(Untyped, now);
      case OpenError(e) => return RetryOrEnd(c, now, e, None, Absent);
      case OpenNetworkError => return RetryOrEnd(c, now, NETWORK, None, Absent);
      case Opened(r) =>
        if r.status.None? || !(200 <= r.status.value <= 299) { return Handle(c, now, r); }
        n := TakeBodyStep(c, now, r.status.value, r);
    }
  }

  method TakeBodyStep(c: Config, s: Loop, status: nat, r: Response) returns (n: Next)
    ensures n == TakeBody(c, s, status, r)
  {
    hide RetryDecision, Urls, LooksLikePdf, ReadFrom;
    var cap := Min(c.maxBytesPerResponse, s.remaining);
    if r.headerProblem.Some? { return End(s, Refused(r.headerProblem.value), None); }
    if r.declaredLength.Some? && r.declaredLength.value > cap {
      return End(s, FetchError("FETCH_RESPONSE_BUDGET_EXCEEDED", BudgetExceeded, None, 0), None);
    }
    var body := ReadBounded(r.stream, cap);
    match body {
      case BodyCrash => return Done(Untyped, s);
      case BodyError(e) => return RetryOrEnd(c, s, e, Some(status), Absent);
      case Body(p) =>
        if LooksLikePdf(p) {
          return End(s, FetchError("PDF_CONTENT_FORBIDDEN", Security, Some(status), |p|), Some(status));
        }
        var a := Attempt(|s.attempts| + 1, Success, Some(status), |p|, s.url, 0.0);
        var after := s.(attempts := s.attempts + [a], remaining := Minus(s.remaining, |p|));
        return Done(Fetched(s.url, r.mediaType, p, after.attempts), after);
    }
  }

  /**
   * The loop itself. It stops because every turn uses up a redirect or a retry, and at every loop
   * head the remaining budget is the allowance less the recorded bytes.
   */
  method FetchDocument(c: Config) returns (o: Outcome, opens: nat, slept: real)
    requires c.Valid()
    ensures o == FetchResult(c).0 && opens == |FetchResult(c).1.trace|
    ensures o.Fetched? || o.Failed? ==> slept == Waited(o.attempts) <= c.maxWait
    ensures o.Fetched? ==>
              && opens == |o.attempts| > 0 && Delivered(o, c.open(opens - 1))
              && o.url == o.attempts[opens - 1].url == UrlAfter(c, o.attempts[..opens - 1])
  {
    hide LoopFrom, Turn, RetryDecision, ReadFrom, Delivered, UrlAfter, LosesLedger, RefusesHead;
    FetchEnds(c);
    LedgerIsComplete(c);
    opens, slept := 0, 0.0;
    if c.remainingRequests == 0 {
      return Failed(FetchError("FETCH_REQUEST_BUDGET_EXHAUSTED", BudgetExceeded, None, 0), []), opens, slept;
    }
    if c.remainingBytes == 0 || c.maxBytesPerResponse == 0 {
      return Failed(FetchError("FETCH_BYTE_BUDGET_EXHAUSTED", BudgetExceeded, None, 0), []), opens, slept;
    }
    if c.preflight(c.url, 0).Some? { return Escaped(c.preflight(c.url, 0).value), opens, slept; }
    var s := Initial(c);
    InitialIsOk(c);
    while true
      invariant LoopOk(c, s) && opens == |s.trace| && slept == s.waited
      invariant s.remaining == Minus(c.remainingBytes, Total(s.attempts))
      invariant LoopFrom(c, Initial(c)) == LoopFrom(c, s)
      decreases Left(c, s)
    {
      TurnKeeps(c, s);
      TurnDecreases(c, s);
      LoopUnfolds(c, s);
      WaitingGrows(c, s);
      var next := TakeTurn(c, s);
      opens := |next.state.trace|;
      if next.Done? {
        EndingAddsNoWait(c, s);
        return next.outcome, opens, slept;
      }
      var delay := next.state.waited - s.waited;
      if delay > 0.0 { slept := slept + delay; }
      s := next.state;
    }
  }
}
