/** Run-internal candidate consolidation (`inspiration/identity.py`, `merge_run_internal_candidates`). */
module Identity {
  import opened Ordering
  import opened Wrappers

  datatype StructureIdentity = StructureIdentity(canonicalId: string, groupId: string, composition: seq<(string, real)>)

  datatype Route = Route(
    planId: string, routeSha: string, parentCandidateId: string,
    mechanismTagIds: seq<string>, bridgePacketIds: seq<string>, evidenceCardIds: seq<string>)

  datatype Proposal = Proposal(
    runId: string, structure: StructureIdentity, artifact: string, route: Route,
    familyId: string, quality: real, coverage: real, nextStep: string)

  datatype Weights = Weights(quality: real, coverage: real, redundancy: real)

  datatype Scores = Scores(quality: real, coverage: real, redundancyPenalty: real, selectionScore: real)

  /** The hypothesis signature is a hash; distinct payloads have distinct signatures. */
  datatype Signature = Signature(canonicalId: string, mechanisms: seq<string>, routeShas: seq<string>)

  datatype Candidate = Candidate(
    canonicalId: string, artifact: string, representativePlanId: string, mergedRoutes: seq<Route>,
    parentCandidateIds: seq<string>, mechanismTagIds: seq<string>, evidenceCardIds: seq<string>,
    signature: Signature, scores: Scores, nextStep: string)

  datatype Merged = Merged(runId: string, structure: StructureIdentity, familyIds: seq<string>, candidate: Candidate)

  datatype Error =
    | RunScopeMismatch | RouteIdentityConflict | PlanIdentityConflict
    | StructureIdentityConflict | StructureArtifactConflict | TooManyMergedRoutes | CandidateLimits

  const MAX_ROUTES := 128
  const MAX_PARENTS := 32
  const MAX_MECHANISMS := 32
  const MAX_EVIDENCE := 64

  // ---- what a set of proposals is merged into ----------------------------------------

  function Parents(g: set<Proposal>): set<string> { set p | p in g :: p.route.parentCandidateId }
  function Mechanisms(g: set<Proposal>): set<string> { set p, t | p in g && t in p.route.mechanismTagIds :: t }
  function Evidence(g: set<Proposal>): set<string> { set p, e | p in g && e in p.route.evidenceCardIds :: e }
  function Families(g: set<Proposal>): set<string> { set p | p in g :: p.familyId }
  function Shas(g: set<Proposal>): set<string> { set p | p in g :: p.route.routeSha }
  function Structures(s: set<Proposal>): set<string> { set p | p in s :: p.structure.canonicalId }
  function Group(s: set<Proposal>, c: string): set<Proposal> { set p | p in s && p.structure.canonicalId == c }

  /** The stated order: higher quality, then higher coverage, then smaller route hash, then smaller plan ID. */
  predicate Better(p: Proposal, q: Proposal) {
    p.quality > q.quality || (p.quality == q.quality &&
      (p.coverage > q.coverage || (p.coverage == q.coverage &&
        if p.route.routeSha != q.route.routeSha then Leq(p.route.routeSha, q.route.routeSha)
        else Leq(p.route.planId, q.route.planId))))
  }

  ghost predicate IsRepresentative(g: set<Proposal>, p: Proposal) {
    p in g && forall q :: q in g ==> Better(p, q)
  }

  ghost predicate DistinctRoutes(s: set<Proposal>) {
    forall p, q :: p in s && q in s && p.route.routeSha == q.route.routeSha ==> p == q
  }

  ghost predicate DistinctPlans(s: set<Proposal>) {
    forall p, q :: p in s && q in s && p.route.planId == q.route.planId ==> p == q
  }

  ghost predicate OneStructure(g: set<Proposal>) {
    forall p, q :: p in g && q in g ==> p.structure == q.structure && p.artifact == q.artifact
  }

  ghost predicate WithinLimits(g: set<Proposal>) {
    |g| <= MAX_ROUTES && |Parents(g)| <= MAX_PARENTS && |Mechanisms(g)| <= MAX_MECHANISMS && |Evidence(g)| <= MAX_EVIDENCE
  }

  /** When a set of proposals can be merged. */
  ghost predicate Mergeable(s: set<Proposal>, runId: string) {
    && (forall p :: p in s ==> p.runId == runId)
    && DistinctRoutes(s) && DistinctPlans(s)
    && forall c :: c in Structures(s) ==> OneStructure(Group(s, c)) && WithinLimits(Group(s, c))
  }

  /** The routes of a group, each once, by route hash. */
  ghost predicate RoutesOf(g: set<Proposal>, routes: seq<Route>) {
    && |routes| == |Sorted(Shas(g))|
    && forall i :: 0 <= i < |routes| ==>
         routes[i].routeSha == Sorted(Shas(g))[i] && exists p :: p in g && p.route == routes[i]
  }

  function ScoresFor(p: Proposal, w: Weights): Scores {
    Scores(p.quality, p.coverage, 0.0, p.quality * w.quality + p.coverage * w.coverage - 0.0 * w.redundancy)
  }

  /** One merged candidate stands for all the proposals of its structure. */
  ghost predicate MergedFrom(g: set<Proposal>, m: Merged, runId: string, w: Weights) {
    exists rep, routes :: IsRepresentative(g, rep) && RoutesOf(g, routes) && m == MergedRecord(g, rep, routes, runId, w)
  }

  function MergedRecord(g: set<Proposal>, rep: Proposal, routes: seq<Route>, runId: string, w: Weights): Merged {
    var mechanisms := Sorted(Mechanisms(g));
    Merged(runId, rep.structure, Sorted(Families(g)),
      Candidate(rep.structure.canonicalId, rep.artifact, rep.route.planId, routes,
        Sorted(Parents(g)), mechanisms, Sorted(Evidence(g)),
        Signature(rep.structure.canonicalId, mechanisms, RouteShas(routes)), ScoresFor(rep, w), rep.nextStep))
  }

  function RouteShas(routes: seq<Route>): seq<string> {
    seq(|routes|, i requires 0 <= i < |routes| => routes[i].routeSha)
  }

  lemma BetterAntisymmetric(p: Proposal, q: Proposal)
    requires Better(p, q) && Better(q, p)
    ensures p.route.routeSha == q.route.routeSha
  {
    hide Leq;
    if p.route.routeSha != q.route.routeSha { LeqAntisymmetric(p.route.routeSha, q.route.routeSha); }
  }

  lemma BetterTotal(p: Proposal, q: Proposal)
    ensures Better(p, q) || Better(q, p)
  {
    LeqTotal(p.route.routeSha, q.route.routeSha);
    LeqTotal(p.route.planId, q.route.planId);
  }

  lemma BetterTransitive(p: Proposal, q: Proposal, r: Proposal)
    requires Better(p, q) && Better(q, r)
    ensures Better(p, r)
  {
    hide Leq;
    var a, b, c := p.route.routeSha, q.route.routeSha, r.route.routeSha;
    if Leq(a, b) && Leq(b, c) {
      LeqTransitive(a, b, c);
      if a == c { LeqAntisymmetric(a, b); }
    }
    if Leq(p.route.planId, q.route.planId) && Leq(q.route.planId, r.route.planId) {
      LeqTransitive(p.route.planId, q.route.planId, r.route.planId);
    }
  }

  /** A group has one representative and one route list, so it is merged in one way only. */
  lemma MergedFromUnique(g: set<Proposal>, m: Merged, n: Merged, runId: string, w: Weights)
    requires DistinctRoutes(g) && MergedFrom(g, m, runId, w) && MergedFrom(g, n, runId, w)
    ensures m == n
  {
    hide Better;
    var p, r :| IsRepresentative(g, p) && RoutesOf(g, r) && m == MergedRecord(g, p, r, runId, w);
    var q, s :| IsRepresentative(g, q) && RoutesOf(g, s) && n == MergedRecord(g, q, s, runId, w);
    BetterAntisymmetric(p, q);
    forall i | 0 <= i < |r| ensures r[i] == s[i] {
      var x :| x in g && x.route == r[i];
      var y :| y in g && y.route == s[i];
    }
    assert r == s;
  }

  /** The whole result: one candidate per structure, ordered by candidate ID. */
  ghost predicate MergeOf(s: set<Proposal>, out: seq<Merged>, runId: string, w: Weights, idOf: string -> string) {
    && (forall m :: m in out ==>
          m.candidate.canonicalId in Structures(s) && MergedFrom(Group(s, m.candidate.canonicalId), m, runId, w))
    && (forall c :: c in Structures(s) ==> exists m :: m in out && m.candidate.canonicalId == c)
    && StrictlySorted(Ids(out, idOf))
  }

  function Ids(out: seq<Merged>, idOf: string -> string): seq<string> {
    seq(|out|, i requires 0 <= i < |out| => idOf(out[i].candidate.canonicalId))
  }

  ghost predicate Injective(f: string -> string) {
    forall x, y :: f(x) == f(y) ==> x == y
  }

  lemma IdsMembers(s: set<Proposal>, out: seq<Merged>, runId: string, w: Weights, idOf: string -> string)
    requires MergeOf(s, out, runId, w, idOf)
    ensures forall x :: x in Ids(out, idOf) <==> exists c :: c in Structures(s) && idOf(c) == x
  {
    forall x | x in Ids(out, idOf) ensures exists c :: c in Structures(s) && idOf(c) == x {
      var i :| 0 <= i < |Ids(out, idOf)| && Ids(out, idOf)[i] == x;
      assert out[i] in out;
    }
    forall c | c in Structures(s) ensures idOf(c) in Ids(out, idOf) {
      var m :| m in out && m.candidate.canonicalId == c;
      var i :| 0 <= i < |out| && out[i] == m;
      assert Ids(out, idOf)[i] == idOf(c);
    }
  }

  /** The result is a function of the set of proposals: their order and repetitions do not matter. */
  lemma MergeIsUnique(s: set<Proposal>, a: seq<Merged>, b: seq<Merged>, runId: string, w: Weights, idOf: string -> string)
    requires Injective(idOf) && DistinctRoutes(s)
    requires MergeOf(s, a, runId, w, idOf) && MergeOf(s, b, runId, w, idOf)
    ensures a == b
  {
    hide MergedFrom;
    IdsMembers(s, a, runId, w, idOf);
    IdsMembers(s, b, runId, w, idOf);
    SortedUnique(Ids(a, idOf), Ids(b, idOf));
    assert |a| == |Ids(a, idOf)| == |Ids(b, idOf)| == |b|;
    forall i | 0 <= i < |a| ensures a[i] == b[i] {
      assert Ids(a, idOf)[i] == Ids(b, idOf)[i];
      var c := a[i].candidate.canonicalId;
      assert a[i] in a && b[i] in b && b[i].candidate.canonicalId == c;
      MergedFromUnique(Group(s, c), a[i], b[i], runId, w);
    }
  }

  // ---- the merged records keep the lineage the frozen candidate contract asks for ------

  function PlanIds(routes: seq<Route>): seq<string> {
    seq(|routes|, i requires 0 <= i < |routes| => routes[i].planId)
  }

  /** `InspirationCandidateV1.validate_lineage`: everything is recomputed from the merged routes. */
  ghost predicate LineageValid(c: Candidate) {
    && c.representativePlanId in PlanIds(c.mergedRoutes)
    && Distinct(PlanIds(c.mergedRoutes))
    && StrictlySorted(RouteShas(c.mergedRoutes))
    && c.parentCandidateIds == Sorted(set r | r in c.mergedRoutes :: r.parentCandidateId)
    && c.mechanismTagIds == Sorted(set r, t | r in c.mergedRoutes && t in r.mechanismTagIds :: t)
    && c.evidenceCardIds == Sorted(set r, e | r in c.mergedRoutes && e in r.evidenceCardIds :: e)
    && c.signature == Signature(c.canonicalId, c.mechanismTagIds, RouteShas(c.mergedRoutes))
  }

  /** A route list of a group holds exactly the routes of the group. */
  lemma RoutesAreTheRoutes(g: set<Proposal>, routes: seq<Route>)
    requires DistinctRoutes(g) && RoutesOf(g, routes)
    ensures forall r :: r in routes <==> exists p :: p in g && p.route == r
  {
    forall p | p in g ensures p.route in routes {
      assert p.route.routeSha in Sorted(Shas(g));
      var i :| 0 <= i < |routes| && Sorted(Shas(g))[i] == p.route.routeSha;
      var q :| q in g && q.route == routes[i];
      assert q == p;
    }
  }

  lemma ListsAgree(g: set<Proposal>, routes: seq<Route>)
    requires DistinctRoutes(g) && RoutesOf(g, routes)
    ensures Parents(g) == set r | r in routes :: r.parentCandidateId
    ensures Mechanisms(g) == set r, t | r in routes && t in r.mechanismTagIds :: t
    ensures Evidence(g) == set r, e | r in routes && e in r.evidenceCardIds :: e
  {
    hide RoutesOf, DistinctRoutes;
    RoutesAreTheRoutes(g, routes);
    forall p | p in g ensures p.route in routes {}
    forall r | r in routes ensures exists p :: p in g && p.route == r {}
  }

  lemma PlansDistinct(g: set<Proposal>, routes: seq<Route>)
    requires DistinctPlans(g) && RoutesOf(g, routes)
    ensures Distinct(PlanIds(routes))
  {
    var shas := Sorted(Shas(g));
    forall i, j | 0 <= i < j < |routes| ensures PlanIds(routes)[i] != PlanIds(routes)[j] {
      var p :| p in g && p.route == routes[i];
      var q :| q in g && q.route == routes[j];
      assert shas[i] != shas[j];
    }
  }

  lemma ShasSorted(g: set<Proposal>, routes: seq<Route>)
    requires RoutesOf(g, routes)
    ensures StrictlySorted(RouteShas(routes))
  {
    SortedIsSorted(Shas(g));
    assert RouteShas(routes) == Sorted(Shas(g));
  }

  /** Every candidate the merge builds passes the contract's own recomputation of its lineage. */
  lemma MergedLineageIsValid(g: set<Proposal>, m: Merged, runId: string, w: Weights)
    requires DistinctRoutes(g) && DistinctPlans(g) && MergedFrom(g, m, runId, w)
    ensures LineageValid(m.candidate)
  {
    hide Better, Sorted, RoutesOf, DistinctRoutes, DistinctPlans, StrictlySorted, Distinct;
    var rep, routes :| IsRepresentative(g, rep) && RoutesOf(g, routes) && m == MergedRecord(g, rep, routes, runId, w);
    RoutesAreTheRoutes(g, routes);
    ListsAgree(g, routes);
    PlansDistinct(g, routes);
    ShasSorted(g, routes);
    assert rep.route in routes;
    var i :| 0 <= i < |routes| && routes[i] == rep.route;
    assert PlanIds(routes)[i] == rep.route.planId;
  }

  predicate Holds(m: Merged, p: Proposal) { p.route in m.candidate.mergedRoutes }

  lemma SameIdSamePlace(out: seq<Merged>, idOf: string -> string, i: nat, j: nat)
    requires StrictlySorted(Ids(out, idOf)) && i < |out| && j < |out|
    requires out[i].candidate.canonicalId == out[j].candidate.canonicalId
    ensures i == j
  {
    assert Ids(out, idOf)[i] == Ids(out, idOf)[j];
  }

  /** Every input route lands in exactly one candidate, the one of its structure. */
  lemma EveryRouteLandsOnce(s: set<Proposal>, out: seq<Merged>, runId: string, w: Weights, idOf: string -> string, p: Proposal)
    requires DistinctRoutes(s) && MergeOf(s, out, runId, w, idOf) && p in s
    ensures exists m :: m in out && Holds(m, p)
    ensures forall m :: m in out && Holds(m, p) ==> m.structure.canonicalId == p.structure.canonicalId
    ensures forall i, j :: 0 <= i < |out| && 0 <= j < |out| && Holds(out[i], p) && Holds(out[j], p) ==> i == j
  {
    hide MergedFrom, DistinctRoutes, StrictlySorted;
    var c := p.structure.canonicalId;
    assert c in Structures(s);
    var m :| m in out && m.candidate.canonicalId == c;
    LandsIff(s, m, runId, w, p);
    forall n | n in out && Holds(n, p)
      ensures n.candidate.canonicalId == n.structure.canonicalId == c
    {
      LandsIff(s, n, runId, w, p);
    }
    forall i, j | 0 <= i < |out| && 0 <= j < |out| && Holds(out[i], p) && Holds(out[j], p) ensures i == j {
      assert out[i] in out && out[j] in out;
      SameIdSamePlace(out, idOf, i, j);
    }
  }

  lemma LandsIff(s: set<Proposal>, m: Merged, runId: string, w: Weights, p: Proposal)
    requires DistinctRoutes(s) && p in s
    requires MergedFrom(Group(s, m.candidate.canonicalId), m, runId, w)
    ensures m.structure.canonicalId == m.candidate.canonicalId
    ensures p.route in m.candidate.mergedRoutes <==> m.candidate.canonicalId == p.structure.canonicalId
  {
    hide Better;
    var g := Group(s, m.candidate.canonicalId);
    var rep, routes :| IsRepresentative(g, rep) && RoutesOf(g, routes) && m == MergedRecord(g, rep, routes, runId, w);
    RoutesAreTheRoutes(g, routes);
    if p.route in routes {
      var q :| q in g && q.route == p.route;
      assert q == p;
    }
  }

  /** The score components are those of one proposal of the group, not independent maxima. */
  lemma ScoresComeFromOneProposal(g: set<Proposal>, m: Merged, runId: string, w: Weights)
    requires MergedFrom(g, m, runId, w)
    ensures exists p :: p in g && p.route.planId == m.candidate.representativePlanId
              && m.candidate.scores.quality == p.quality && m.candidate.scores.coverage == p.coverage
    ensures forall q :: q in g ==> q.quality <= m.candidate.scores.quality
    ensures forall q :: q in g && q.quality == m.candidate.scores.quality ==> q.coverage <= m.candidate.scores.coverage
  {
    hide Leq;
    var rep, routes :| IsRepresentative(g, rep) && RoutesOf(g, routes) && m == MergedRecord(g, rep, routes, runId, w);
  }

  /** `p` comes before `q` when it is better, its coverage is more at the same quality, or its hash, then plan ID, is smaller. */
  ghost predicate Precedes(p: Proposal, q: Proposal) {
    if p.quality != q.quality then p.quality > q.quality
    else if p.coverage != q.coverage then p.coverage > q.coverage
    else if p.route.routeSha != q.route.routeSha then Leq(p.route.routeSha, q.route.routeSha)
    else Leq(p.route.planId, q.route.planId)
  }

  /** The candidate takes its plan, its scores and its next step from `p`. */
  ghost predicate Represents(c: Candidate, p: Proposal, w: Weights) {
    && c.representativePlanId == p.route.planId && c.nextStep == p.nextStep
    && c.scores == Scores(p.quality, p.coverage, 0.0, p.quality * w.quality + p.coverage * w.coverage)
  }

  /** What a merged record says of the proposals of its structure. */
  lemma MergedMeans(g: set<Proposal>, m: Merged, runId: string, w: Weights)
    requires DistinctRoutes(g) && OneStructure(g) && MergedFrom(g, m, runId, w)
    ensures m.runId == runId
    ensures forall p :: p in g ==>
              m.structure == p.structure && m.candidate.canonicalId == p.structure.canonicalId && m.candidate.artifact == p.artifact
    ensures exists p :: p in g && Represents(m.candidate, p, w) && forall q :: q in g ==> Precedes(p, q)
    ensures StrictlySorted(RouteShas(m.candidate.mergedRoutes))
    ensures forall r :: r in m.candidate.mergedRoutes <==> exists p :: p in g && p.route == r
    ensures var c := m.candidate;
            && StrictlySorted(m.familyIds) && (forall x :: x in m.familyIds <==> exists p :: p in g && p.familyId == x)
            && StrictlySorted(c.parentCandidateIds) && (forall x :: x in c.parentCandidateIds <==> exists p :: p in g && p.route.parentCandidateId == x)
            && StrictlySorted(c.mechanismTagIds) && (forall x :: x in c.mechanismTagIds <==> exists p :: p in g && x in p.route.mechanismTagIds)
            && StrictlySorted(c.evidenceCardIds) && (forall x :: x in c.evidenceCardIds <==> exists p :: p in g && x in p.route.evidenceCardIds)
            && c.signature == Signature(c.canonicalId, c.mechanismTagIds, RouteShas(c.mergedRoutes))
  {
    hide Sorted, RoutesOf, DistinctRoutes, StrictlySorted, Leq;
    var rep, routes :| IsRepresentative(g, rep) && RoutesOf(g, routes) && m == MergedRecord(g, rep, routes, runId, w);
    RoutesAreTheRoutes(g, routes);
    ShasSorted(g, routes);
    SortedIsSorted(Families(g));
    SortedIsSorted(Parents(g));
    SortedIsSorted(Mechanisms(g));
    SortedIsSorted(Evidence(g));
    assert Represents(m.candidate, rep, w);
  }

  /**
   * When a merge succeeds: every proposal is of this run, no route hash and no plan ID is used twice, and
   * the proposals of one structure agree on it and its artifact and are few enough.
   */
  lemma MergeableMeans(s: set<Proposal>, runId: string)
    ensures Mergeable(s, runId) <==>
              && (forall p :: p in s ==> p.runId == runId)
              && (forall p, q :: p in s && q in s && p != q ==> p.route.routeSha != q.route.routeSha && p.route.planId != q.route.planId)
              && (forall p, q :: p in s && q in s && p.structure.canonicalId == q.structure.canonicalId ==>
                    p.structure == q.structure && p.artifact == q.artifact)
              && forall p :: p in s ==>
                   var same := set q | q in s && q.structure.canonicalId == p.structure.canonicalId;
                   && |same| <= 128 && |set q | q in same :: q.route.parentCandidateId| <= 32
                   && |set q, t | q in same && t in q.route.mechanismTagIds :: t| <= 32
                   && |set q, e | q in same && e in q.route.evidenceCardIds :: e| <= 64
  {
    forall p | p in s ensures p in Group(s, p.structure.canonicalId) && p.structure.canonicalId in Structures(s) {}
    if Mergeable(s, runId) {
      forall p | p in s ensures OneStructure(Group(s, p.structure.canonicalId)) && WithinLimits(Group(s, p.structure.canonicalId)) {}
    }
  }

  // ---- the loops -----------------------------------------------------------------------

  function SetOf(ps: seq<Proposal>): set<Proposal> { set p | p in ps }

  function RouteKey(p: Proposal): string { p.route.routeSha }
  function PlanKey(p: Proposal): string { p.route.planId }

  /** A dictionary that holds, for every key of the first `i` proposals, the one proposal that has it. */
  ghost predicate Owns(owners: map<string, Proposal>, key: Proposal -> string, ps: seq<Proposal>, i: nat)
    requires i <= |ps|
  {
    && (forall j :: 0 <= j < i ==> key(ps[j]) in owners && owners[key(ps[j])] == ps[j])
    && forall k :: k in owners ==> exists j :: 0 <= j < i && ps[j] == owners[k] && key(ps[j]) == k
  }

  lemma OwnsAll(owners: map<string, Proposal>, key: Proposal -> string, ps: seq<Proposal>)
    requires Owns(owners, key, ps, |ps|)
    ensures forall p, q :: p in SetOf(ps) && q in SetOf(ps) && key(p) == key(q) ==> p == q
  {
  }

  lemma OwnsConflict(owners: map<string, Proposal>, key: Proposal -> string, ps: seq<Proposal>, i: nat)
    requires i < |ps| && Owns(owners, key, ps, i)
    requires key(ps[i]) in owners && owners[key(ps[i])] != ps[i]
    ensures exists p, q :: p in SetOf(ps) && q in SetOf(ps) && key(p) == key(q) && p != q
  {
    var j :| 0 <= j < i && ps[j] == owners[key(ps[i])] && key(ps[j]) == key(ps[i]);
    assert ps[j] in SetOf(ps) && ps[i] in SetOf(ps);
  }

  lemma OwnsStep(owners: map<string, Proposal>, key: Proposal -> string, ps: seq<Proposal>, i: nat)
    requires i < |ps| && Owns(owners, key, ps, i)
    requires key(ps[i]) in owners ==> owners[key(ps[i])] == ps[i]
    ensures Owns(owners[key(ps[i]) := ps[i]], key, ps, i + 1)
  {
    var after := owners[key(ps[i]) := ps[i]];
    forall k | k in after ensures exists j :: 0 <= j < i + 1 && ps[j] == after[k] && key(ps[j]) == k {
      if k != key(ps[i]) { assert k in owners; }
    }
  }

  /** The `route_owners` and `plan_owners` dictionaries: no key may belong to two different proposals. */
  method CheckOwners(ps: seq<Proposal>) returns (error: Result<(), Error>)
    ensures error.Ok? <==> DistinctRoutes(SetOf(ps)) && DistinctPlans(SetOf(ps))
    ensures error.Err? ==> error.error in {RouteIdentityConflict, PlanIdentityConflict}
  {
    hide Owns, SetOf;
    var routeOwners: map<string, Proposal> := map[];
    var planOwners: map<string, Proposal> := map[];
    assert Owns(map[], RouteKey, ps, 0) && Owns(map[], PlanKey, ps, 0) by { OwnsNothing(ps); }
    for i := 0 to |ps|
      invariant Owns(routeOwners, RouteKey, ps, i) && Owns(planOwners, PlanKey, ps, i)
    {
      var p := ps[i];
      if p.route.routeSha in routeOwners && routeOwners[p.route.routeSha] != p {
        OwnsConflict(routeOwners, RouteKey, ps, i);
        return Err(RouteIdentityConflict);
      }
      OwnsStep(routeOwners, RouteKey, ps, i);
      routeOwners := routeOwners[p.route.routeSha := p];
      if p.route.planId in planOwners && planOwners[p.route.planId] != p {
        OwnsConflict(planOwners, PlanKey, ps, i);
        return Err(PlanIdentityConflict);
      }
      OwnsStep(planOwners, PlanKey, ps, i);
      planOwners := planOwners[p.route.planId := p];
    }
    OwnsAll(routeOwners, RouteKey, ps);
    OwnsAll(planOwners, PlanKey, ps);
    return Ok(());
  }

  lemma OwnsNothing(ps: seq<Proposal>)
    ensures Owns(map[], RouteKey, ps, 0) && Owns(map[], PlanKey, ps, 0)
  {
  }

  ghost predicate Grouped(groups: map<string, seq<Proposal>>, s: set<Proposal>) {
    && groups.Keys == Structures(s)
    && forall c :: c in groups ==> groups[c] != [] && SetOf(groups[c]) == Group(s, c)
  }

  /** `groups.setdefault(canonical_structure_id, []).append(proposal)`. */
  method GroupByStructure(ps: seq<Proposal>) returns (groups: map<string, seq<Proposal>>)
    ensures Grouped(groups, SetOf(ps))
  {
    groups := map[];
    for i := 0 to |ps|
      invariant Grouped(groups, SetOf(ps[..i]))
    {
      var p := ps[i];
      var c := p.structure.canonicalId;
      ghost var before := groups;
      groups := groups[c := (if c in groups then groups[c] else []) + [p]];
      GroupedStep(before, groups, ps, i);
    }
    assert ps[..|ps|] == ps;
  }

  lemma GroupedStep(before: map<string, seq<Proposal>>, after: map<string, seq<Proposal>>, ps: seq<Proposal>, i: nat)
    requires i < |ps| && Grouped(before, SetOf(ps[..i]))
    requires var c := ps[i].structure.canonicalId;
             after == before[c := (if c in before then before[c] else []) + [ps[i]]]
    ensures Grouped(after, SetOf(ps[..i + 1]))
  {
    var s, p, c := SetOf(ps[..i]), ps[i], ps[i].structure.canonicalId;
    assert ps[..i + 1] == ps[..i] + [p];
    assert SetOf(ps[..i + 1]) == s + {p};
    assert after.Keys == Structures(s + {p}) by {
      forall x ensures x in after.Keys <==> x in Structures(s + {p}) {
        assert x == c ==> p in s + {p};
        if x in before { var q :| q in s && q.structure.canonicalId == x; assert q in s + {p}; }
      }
    }
    forall d | d in after ensures after[d] != [] && SetOf(after[d]) == Group(s + {p}, d) {
      assert d != c ==> Group(s + {p}, d) == Group(s, d);
      assert c !in before ==> Group(s, c) == {} by {
        if c !in before { forall q | q in s ensures q.structure.canonicalId != c { assert q.structure.canonicalId in Structures(s); } }
      }
      assert SetOf(after[c]) == Group(s, c) + {p};
      assert Group(s + {p}, c) == Group(s, c) + {p};
    }
  }

  ghost predicate DistinctRecords(ps: seq<Proposal>) {
    forall i, j :: 0 <= i < j < |ps| ==> ps[i] != ps[j]
  }

  lemma {:induction false} DistinctCount(ps: seq<Proposal>)
    requires DistinctRecords(ps)
    ensures |SetOf(ps)| == |ps|
  {
    if ps != [] {
      var n := |ps| - 1;
      DistinctCount(ps[..n]);
      assert ps == ps[..n] + [ps[n]];
      assert SetOf(ps) == SetOf(ps[..n]) + {ps[n]};
      assert ps[n] !in SetOf(ps[..n]);
    }
  }

  /** `{p.route_sha256: p for p in group}.values()`: equal route hashes belong to equal records here. */
  method UniqueByRoute(group: seq<Proposal>) returns (unique: seq<Proposal>)
    requires DistinctRoutes(SetOf(group))
    ensures SetOf(unique) == SetOf(group) && |unique| == |SetOf(group)|
  {
    var seen: set<string> := {};
    unique := [];
    for i := 0 to |group|
      invariant SetOf(unique) == SetOf(group[..i])
      invariant forall x :: x in seen <==> exists k :: 0 <= k < |unique| && unique[k].route.routeSha == x
      invariant DistinctRecords(unique)
    {
      var p := group[i];
      assert group[..i + 1] == group[..i] + [p];
      assert SetOf(group[..i + 1]) == SetOf(group[..i]) + {p};
      if p.route.routeSha !in seen {
        assert SetOf(unique + [p]) == SetOf(unique) + {p};
        ghost var before := unique;
        assert forall k :: 0 <= k < |unique| ==> unique[k] != p;
        unique := unique + [p];
        seen := seen + {p.route.routeSha};
        assert unique[|before|] == p && forall k :: 0 <= k < |before| ==> unique[k] == before[k];
      } else {
        var k :| 0 <= k < |unique| && unique[k].route.routeSha == p.route.routeSha;
        assert unique[k] in SetOf(unique) && unique[k] in SetOf(group);
      }
    }
    assert group[..|group|] == group;
    DistinctCount(unique);
  }

  /** `min(unique_proposals, key=(-quality, -coverage, route hash, plan ID))`. */
  method Representative(ps: seq<Proposal>) returns (rep: Proposal)
    requires ps != []
    ensures IsRepresentative(SetOf(ps), rep)
  {
    hide Better;
    rep := ps[0];
    BetterTotal(rep, rep);
    for i := 1 to |ps|
      invariant rep in ps
      invariant forall k :: 0 <= k < i ==> Better(rep, ps[k])
    {
      BetterTotal(rep, ps[i]);
      if !Better(rep, ps[i]) {
        forall k | 0 <= k < i ensures Better(ps[i], ps[k]) { BetterTransitive(ps[i], rep, ps[k]); }
        BetterTotal(ps[i], ps[i]);
        rep := ps[i];
      }
    }
  }

  /** The routes sorted by hash: look up the owner of each hash in turn. */
  method SortedRoutes(ps: seq<Proposal>) returns (routes: seq<Route>)
    ensures RoutesOf(SetOf(ps), routes)
  {
    hide Sorted;
    var shas := Sorted(Shas(SetOf(ps)));
    routes := [];
    for i := 0 to |shas|
      invariant |routes| == i
      invariant forall k :: 0 <= k < i ==> routes[k].routeSha == shas[k] && exists p :: p in SetOf(ps) && p.route == routes[k]
    {
      assert shas[i] in Shas(SetOf(ps));
      var p :| p in ps && p.route.routeSha == shas[i];
      assert p in SetOf(ps);
      routes := routes + [p.route];
    }
  }

  method SameStructure(group: seq<Proposal>) returns (r: Result<(), Error>)
    requires group != []
    ensures r.Ok? <==> OneStructure(SetOf(group))
    ensures r.Err? ==> r.error in {StructureIdentityConflict, StructureArtifactConflict}
  {
    var reference := group[0];
    for i := 1 to |group|
      invariant forall k :: 0 <= k < i ==> group[k].structure == reference.structure && group[k].artifact == reference.artifact
    {
      assert group[i] in SetOf(group) && reference in SetOf(group);
      if group[i].structure != reference.structure { return Err(StructureIdentityConflict); }
      if group[i].artifact != reference.artifact { return Err(StructureArtifactConflict); }
    }
    return Ok(());
  }

  method MergeGroup(group: seq<Proposal>, runId: string, w: Weights) returns (r: Result<Merged, Error>)
    requires group != [] && DistinctRoutes(SetOf(group))
    ensures r.Ok? <==> OneStructure(SetOf(group)) && WithinLimits(SetOf(group))
    ensures r.Ok? ==> MergedFrom(SetOf(group), r.value, runId, w)
    ensures r.Ok? ==> r.value.candidate.canonicalId == group[0].structure.canonicalId
  {
    hide Sorted, Better, RoutesOf, DistinctRoutes;
    ghost var g := SetOf(group);
    assert group[0] in g;
    var same := SameStructure(group);
    if same.Err? { return Err(same.error); }
    var unique := UniqueByRoute(group);
    if |unique| > MAX_ROUTES { return Err(TooManyMergedRoutes); }
    var routes := SortedRoutes(unique);
    assert |unique| > 0;
    var rep := Representative(unique);
    var rs := SetOf(unique);
    if |Parents(rs)| > MAX_PARENTS || |Mechanisms(rs)| > MAX_MECHANISMS || |Evidence(rs)| > MAX_EVIDENCE {
      return Err(CandidateLimits);
    }
    return Ok(MergedRecord(rs, rep, routes, runId, w));
  }

  /** `sorted(merged, key=candidate_id)`, one insertion. */
  method InsertById(out: seq<Merged>, m: Merged, idOf: string -> string) returns (r: seq<Merged>)
    requires StrictlySorted(Ids(out, idOf)) && idOf(m.candidate.canonicalId) !in Ids(out, idOf)
    ensures StrictlySorted(Ids(r, idOf))
    ensures forall x :: x in r <==> x in out || x == m
  {
    hide Leq;
    var id := idOf(m.candidate.canonicalId);
    var k := 0;
    while k < |out| && Leq(idOf(out[k].candidate.canonicalId), id)
      invariant k <= |out|
      invariant forall i :: 0 <= i < k ==> Leq(Ids(out, idOf)[i], id)
    {
      k := k + 1;
    }
    r := out[..k] + [m] + out[k..];
    forall i | k <= i < |out| ensures Leq(id, Ids(out, idOf)[i]) {
      LeqTotal(Ids(out, idOf)[k], id);
      if i > k { LeqTransitive(id, Ids(out, idOf)[k], Ids(out, idOf)[i]); }
    }
    assert Ids(r, idOf) == Ids(out, idOf)[..k] + [id] + Ids(out, idOf)[k..];
    assert forall i :: 0 <= i < |out| ==> Ids(out, idOf)[i] in Ids(out, idOf);
  }

  ghost predicate GroupsFit(s: set<Proposal>, keys: set<string>) {
    forall c :: c in keys ==> OneStructure(Group(s, c)) && WithinLimits(Group(s, c))
  }

  /** The candidates built from the structures `keys`. */
  ghost predicate MergedOver(s: set<Proposal>, keys: set<string>, out: seq<Merged>, runId: string, w: Weights) {
    && (forall m :: m in out ==>
          m.candidate.canonicalId in keys && MergedFrom(Group(s, m.candidate.canonicalId), m, runId, w))
    && forall c :: c in keys ==> exists m :: m in out && m.candidate.canonicalId == c
  }

  lemma MergedOverStep(s: set<Proposal>, keys: set<string>, out: seq<Merged>, m: Merged, after: seq<Merged>, runId: string, w: Weights)
    requires MergedOver(s, keys, out, runId, w)
    requires MergedFrom(Group(s, m.candidate.canonicalId), m, runId, w)
    requires forall x :: x in after <==> x in out || x == m
    ensures MergedOver(s, keys + {m.candidate.canonicalId}, after, runId, w)
  {
    hide MergedFrom;
    assert m in after;
    forall c | c in keys + {m.candidate.canonicalId} ensures exists x :: x in after && x.candidate.canonicalId == c {
      if c in keys {
        var x :| x in out && x.candidate.canonicalId == c;
        assert x in after;
      }
    }
  }

  /** The loop over the groups in structure order, with the candidates kept in ID order. */
  method MergeGroups(groups: map<string, seq<Proposal>>, ghost s: set<Proposal>, runId: string, w: Weights, idOf: string -> string)
    returns (r: Result<seq<Merged>, Error>)
    requires Injective(idOf) && DistinctRoutes(s) && Grouped(groups, s)
    ensures r.Ok? <==> GroupsFit(s, groups.Keys)
    ensures r.Ok? ==> MergedOver(s, groups.Keys, r.value, runId, w) && StrictlySorted(Ids(r.value, idOf))
  {
    hide MergedFrom, OneStructure, WithinLimits, DistinctRoutes, MergedOver, Sorted;
    var keys := Sorted(groups.Keys);
    var out: seq<Merged> := [];
    ghost var done: set<string> := {};
    assert MergedOver(s, {}, [], runId, w) by { MergedOverNothing(s, runId, w); }
    for i := 0 to |keys|
      invariant done == set k | 0 <= k < i :: keys[k]
      invariant MergedOver(s, done, out, runId, w) && GroupsFit(s, done)
      invariant StrictlySorted(Ids(out, idOf))
    {
      var c := keys[i];
      assert c in groups.Keys;
      assert groups[c] != [] && SetOf(groups[c]) == Group(s, c);
      SubsetDistinct(s, Group(s, c));
      var merged := MergeGroup(groups[c], runId, w);
      if merged.Err? { return Err(merged.error); }
      assert groups[c][0] in SetOf(groups[c]);
      assert c !in done;
      FreshId(s, done, out, c, runId, w, idOf);
      ghost var before := out;
      out := InsertById(out, merged.value, idOf);
      MergedOverStep(s, done, before, merged.value, out, runId, w);
      done := done + {c};
    }
    assert done == groups.Keys by {
      forall c | c in groups.Keys ensures c in done { assert c in keys; }
      forall c | c in done ensures c in groups.Keys { assert c in keys; }
    }
    return Ok(out);
  }

  lemma MergedOverNothing(s: set<Proposal>, runId: string, w: Weights)
    ensures MergedOver(s, {}, [], runId, w)
  {
  }

  /**
   * `merge_run_internal_candidates`. Both the success of the merge and its result are given by the
   * set of the proposals alone, so neither their order nor repeated records matter.
   */
  method Merge(ps: seq<Proposal>, runId: string, w: Weights, idOf: string -> string) returns (r: Result<seq<Merged>, Error>)
    requires Injective(idOf)
    ensures r.Ok? <==> Mergeable(SetOf(ps), runId)
    ensures r.Ok? ==> MergeOf(SetOf(ps), r.value, runId, w, idOf)
  {
    hide MergedFrom, OneStructure, WithinLimits, DistinctRoutes, DistinctPlans, Leq, Group;
    for i := 0 to |ps|
      invariant forall k :: 0 <= k < i ==> ps[k].runId == runId
    {
      if ps[i].runId != runId {
        assert ps[i] in SetOf(ps);
        return Err(RunScopeMismatch);
      }
    }
    var owners := CheckOwners(ps);
    if owners.Err? { return Err(owners.error); }
    var groups := GroupByStructure(ps);
    r := MergeGroups(groups, SetOf(ps), runId, w, idOf);
  }

  /** Two lists of the same records, in any order and with any repetitions, merge to the same candidates. */
  method MergeTwice(ps: seq<Proposal>, qs: seq<Proposal>, runId: string, w: Weights, idOf: string -> string)
    returns (a: Result<seq<Merged>, Error>, b: Result<seq<Merged>, Error>)
    requires Injective(idOf) && SetOf(ps) == SetOf(qs)
    ensures a.Ok? == b.Ok? && (a.Ok? ==> a == b)
  {
    hide MergeOf;
    a := Merge(ps, runId, w, idOf);
    b := Merge(qs, runId, w, idOf);
    if a.Ok? { MergeIsUnique(SetOf(ps), a.value, b.value, runId, w, idOf); }
  }

  lemma SubsetDistinct(s: set<Proposal>, g: set<Proposal>)
    requires DistinctRoutes(s) && g <= s
    ensures DistinctRoutes(g)
  {
  }

  lemma FreshId(s: set<Proposal>, done: set<string>, out: seq<Merged>, c: string, runId: string, w: Weights, idOf: string -> string)
    requires Injective(idOf) && c !in done && MergedOver(s, done, out, runId, w)
    ensures idOf(c) !in Ids(out, idOf)
  {
    hide MergedFrom;
    forall k | 0 <= k < |out| ensures Ids(out, idOf)[k] != idOf(c) {
      assert out[k] in out;
    }
  }
}
