/** The rows of the tag-feedback review, their validators, and the compiler (`inspiration/feedback.py`). */
module FeedbackReview {
  import opened BridgePackets
  import opened EvidenceCards
  import opened EvidenceModels
  import opened FeedbackLineage
  import Normalizing
  import opened Ordering
  import opened Wrappers

  // ---- metrics ------------------------------------------------------------------------------------

  datatype Metrics = Metrics(
    successes: nat, failures: nat, hits: nat, documents: nat, passages: nat, vectorized: nat, tokens: nat,
    evidence: nat, packets: nat, requests: nat, searchBytes: nat, fetchRequests: nat, fetchBytes: nat)

  function AttemptItems(n: Inputs): seq<Item> {
    seq(|n.attempts|, i requires 0 <= i < |n.attempts| => Item({n.attempts[i].queryId}, 1))
  }

  function OutcomeItems(n: Inputs, success: bool): seq<Item> {
    seq(|n.attempts|, i requires 0 <= i < |n.attempts| =>
      Item({n.attempts[i].queryId}, if n.attempts[i].success == success then 1 else 0))
  }

  function SearchByteItems(n: Inputs): seq<Item> {
    seq(|n.attempts|, i requires 0 <= i < |n.attempts| => Item({n.attempts[i].queryId}, n.attempts[i].bytes))
  }

  function HitItems(n: Inputs): seq<Item> {
    seq(|n.hits|, i requires 0 <= i < |n.hits| => Item(Set(n.hits[i].queryIds), 1))
  }

  /** The queries of the hit a passage came from. */
  function PassageQueries(n: Inputs, p: Passage): set<string> {
    if HitOf(RunOf(n), p).Some? then Set(HitOf(RunOf(n), p).value.queryIds) else {}
  }

  function PassageItems(n: Inputs): seq<Item> {
    seq(|n.passages|, i requires 0 <= i < |n.passages| => Item(PassageQueries(n, n.passages[i]), 1))
  }

  function VectorItem(n: Inputs, v: Vector, weight: nat): Item {
    Item(if PassageOf(RunOf(n), v.passageId).Some? then PassageQueries(n, PassageOf(RunOf(n), v.passageId).value) else {}, weight)
  }

  function VectorItems(n: Inputs): seq<Item> {
    seq(|n.vectors|, i requires 0 <= i < |n.vectors| => VectorItem(n, n.vectors[i], 1))
  }

  function TokenItems(n: Inputs): seq<Item> {
    seq(|n.vectors|, i requires 0 <= i < |n.vectors| => VectorItem(n, n.vectors[i], n.vectors[i].tokens))
  }

  function FetchItems(n: Inputs): seq<Item> {
    seq(|n.fetches|, i requires 0 <= i < |n.fetches| => Item(Set(n.fetches[i].queryIds), n.fetches[i].requests))
  }

  function FetchByteItems(n: Inputs): seq<Item> {
    seq(|n.fetches|, i requires 0 <= i < |n.fetches| => Item(Set(n.fetches[i].queryIds), n.fetches[i].bytes))
  }

  /** Documents are counted once, however many relevant hits name them. */
  function Documents(n: Inputs, q: set<string>): set<string> {
    set h | h in n.hits && Set(h.queryIds) * q != {} :: h.documentId
  }

  function MetricsOf(n: Inputs, q: set<string>): Metrics
    requires CardsClosed(n)
  {
    var requests, successes := Touched(AttemptItems(n), q), Touched(OutcomeItems(n, true), q);
    Metrics(successes, Difference(requests, successes),
      Touched(HitItems(n), q), |Documents(n, q)|, Touched(PassageItems(n), q),
      Touched(VectorItems(n), q), Touched(TokenItems(n), q),
      Touched(CardItems(n), q), Touched(PacketItems(n), q),
      requests, Touched(SearchByteItems(n), q), Touched(FetchItems(n), q), Touched(FetchByteItems(n), q))
  }

  function Difference(a: nat, b: nat): nat { if b <= a then a - b else 0 }

  predicate AtMost(a: Metrics, b: Metrics) {
    && a.successes <= b.successes && a.failures <= b.failures && a.hits <= b.hits && a.documents <= b.documents
    && a.passages <= b.passages && a.vectorized <= b.vectorized && a.tokens <= b.tokens && a.evidence <= b.evidence
    && a.packets <= b.packets && a.requests <= b.requests && a.searchBytes <= b.searchBytes
    && a.fetchRequests <= b.fetchRequests && a.fetchBytes <= b.fetchBytes
  }

  function Plus(a: Metrics, b: Metrics): Metrics {
    Metrics(a.successes + b.successes, a.failures + b.failures, a.hits + b.hits, a.documents + b.documents,
      a.passages + b.passages, a.vectorized + b.vectorized, a.tokens + b.tokens, a.evidence + b.evidence,
      a.packets + b.packets, a.requests + b.requests, a.searchBytes + b.searchBytes,
      a.fetchRequests + b.fetchRequests, a.fetchBytes + b.fetchBytes)
  }

  const NOTHING := Metrics(0, 0, 0, 0, 0, 0, 0, 0, 0, 0, 0, 0, 0)

  function SumOf(n: Inputs, qs: seq<string>): Metrics
    requires CardsClosed(n)
  {
    if qs == [] then NOTHING else Plus(SumOf(n, qs[..|qs| - 1]), MetricsOf(n, {qs[|qs| - 1]}))
  }

  /** Attempts either succeed or fail. */
  lemma {:induction false} TouchedOutcomes(n: Inputs, q: set<string>, k: nat)
    requires k <= |n.attempts|
    ensures Touched(AttemptItems(n)[..k], q) == Touched(OutcomeItems(n, true)[..k], q) + Touched(OutcomeItems(n, false)[..k], q)
  {
    if k > 0 {
      TouchedOutcomes(n, q, k - 1);
      TouchedStep(AttemptItems(n), q, k);
      TouchedStep(OutcomeItems(n, true), q, k);
      TouchedStep(OutcomeItems(n, false), q, k);
    }
  }

  lemma FailuresAre(n: Inputs, q: set<string>)
    requires CardsClosed(n)
    ensures MetricsOf(n, q).failures == Touched(OutcomeItems(n, false), q)
    ensures MetricsOf(n, q).requests == MetricsOf(n, q).successes + MetricsOf(n, q).failures
  {
    hide CardsClosed, Touched;
    TouchedOutcomes(n, q, |n.attempts|);
    assert AttemptItems(n)[..|n.attempts|] == AttemptItems(n);
    assert OutcomeItems(n, true)[..|n.attempts|] == OutcomeItems(n, true);
    assert OutcomeItems(n, false)[..|n.attempts|] == OutcomeItems(n, false);
  }

  lemma DocumentsMonotone(n: Inputs, a: set<string>, b: set<string>)
    requires a <= b
    ensures |Documents(n, a)| <= |Documents(n, b)|
  {
    forall h | h in n.hits && Set(h.queryIds) * a != {} ensures Set(h.queryIds) * b != {} {
      var x :| x in Set(h.queryIds) * a;
      assert x in Set(h.queryIds) * b;
    }
    SubsetSize(Documents(n, a), Documents(n, b));
  }

  lemma DocumentsUnion(n: Inputs, a: set<string>, b: set<string>)
    ensures |Documents(n, a + b)| <= |Documents(n, a)| + |Documents(n, b)|
  {
    assert forall h :: h in n.hits ==> Set(h.queryIds) * (a + b) == Set(h.queryIds) * a + Set(h.queryIds) * b;
    SubsetSize(Documents(n, a + b), Documents(n, a) + Documents(n, b));
  }

  lemma SubsetSize(a: set<string>, b: set<string>)
    requires a <= b
    ensures |a| <= |b|
  {
    var rest := b - a;
    assert b == a + rest;
  }

  lemma MetricsMonotone(n: Inputs, a: set<string>, b: set<string>)
    requires CardsClosed(n) && a <= b
    ensures AtMost(MetricsOf(n, a), MetricsOf(n, b))
  {
    FailuresAre(n, a);
    FailuresAre(n, b);
    DocumentsMonotone(n, a, b);
    hide Touched, CardsClosed, Documents;
    forall items: seq<Item> ensures Touched(items, a) <= Touched(items, b) { TouchedMonotone(items, a, b); }
  }

  lemma MetricsUnion(n: Inputs, a: set<string>, b: set<string>)
    requires CardsClosed(n)
    ensures AtMost(MetricsOf(n, a + b), Plus(MetricsOf(n, a), MetricsOf(n, b)))
  {
    FailuresAre(n, a);
    FailuresAre(n, b);
    FailuresAre(n, a + b);
    DocumentsUnion(n, a, b);
    hide Touched, CardsClosed, Documents;
    forall items: seq<Item> {:trigger Touched(items, a + b)} ensures Touched(items, a + b) <= Touched(items, a) + Touched(items, b) {
      TouchedUnion(items, a, b);
    }
  }

  lemma MetricsOfNothing(n: Inputs)
    requires CardsClosed(n)
    ensures MetricsOf(n, {}) == NOTHING
  {
    hide Touched, CardsClosed;
    forall items: seq<Item> ensures Touched(items, {}) == 0 { TouchedNothing(items); }
    assert Documents(n, {}) == {};
  }

  /**
   * Every inclusive metric of a row is at least that of each of its queries and at most their sum:
   * shared documents, passages, cards and fetches make it less than the sum.
   */
  lemma {:induction false} InclusiveBounds(n: Inputs, qs: seq<string>)
    requires CardsClosed(n)
    ensures forall q :: q in qs ==> AtMost(MetricsOf(n, {q}), MetricsOf(n, Set(qs)))
    ensures AtMost(MetricsOf(n, Set(qs)), SumOf(n, qs))
  {
    hide MetricsOf, CardsClosed;
    forall q | q in qs ensures AtMost(MetricsOf(n, {q}), MetricsOf(n, Set(qs))) { MetricsMonotone(n, {q}, Set(qs)); }
    if qs == [] {
      assert Set(qs) == {};
      MetricsOfNothing(n);
    } else {
      var init, last := qs[..|qs| - 1], qs[|qs| - 1];
      InclusiveBounds(n, init);
      assert qs == init + [last];
      assert Set(qs) == Set(init) + {last};
      MetricsUnion(n, Set(init), {last});
    }
  }

  // ---- search requests add up ---------------------------------------------------------------------

  function PlannedIds(queries: seq<Query>): seq<string> { seq(|queries|, i requires 0 <= i < |queries| => queries[i].id) }

  /** Search requests are not shared: the query rows' counts sum to the number of distinct attempts. */
  lemma QueryRequestsAddUp(n: Inputs)
    requires CardsClosed(n) && Unique(n.planned, QueryId)
    requires forall a :: a in n.attempts ==> a.queryId in Ids(n.planned)
    ensures SumOf(n, PlannedIds(n.planned)).requests == |n.attempts|
  {
    var items, qs := AttemptItems(n), PlannedIds(n.planned);
    forall i, j | 0 <= i < j < |qs| ensures qs[i] != qs[j] { assert QueryId(n.planned[i]) != QueryId(n.planned[j]); }
    SumRequests(n, qs);
    SinglesPartition(items, qs);
    forall x | x in items ensures x.members <= Set(qs) && x.members != {} && x.weight == 1 {
      var i :| 0 <= i < |items| && items[i] == x;
      assert n.attempts[i] in n.attempts;
      var q :| q in n.planned && q.id == n.attempts[i].queryId;
      var j :| 0 <= j < |n.planned| && n.planned[j] == q;
      assert qs[j] == q.id;
    }
    TouchedAll(items, Set(qs));
  }

  lemma {:induction false} SumRequests(n: Inputs, qs: seq<string>)
    requires CardsClosed(n)
    ensures SumOf(n, qs).requests == SumSingles(AttemptItems(n), qs)
  {
    hide CardsClosed, Touched, AttemptItems;
    if qs != [] { SumRequests(n, qs[..|qs| - 1]); }
  }

  function SumOverRules(n: Inputs, rules: seq<Rule>): nat
    requires CardsClosed(n)
  {
    if rules == [] then 0 else SumOverRules(n, rules[..|rules| - 1]) + MetricsOf(n, RuleQueries(n, rules[|rules| - 1].id)).requests
  }

  /** The planned queries issued for one of the given rules. */
  function QueriesFor(n: Inputs, rules: seq<Rule>): set<string> {
    set q, r | q in n.planned && r in rules && q.rule == Some(r.id) :: q.id
  }

  /** The bridge and counter queries: those issued for a rule. */
  function BridgeQueries(n: Inputs): set<string> { set q | q in n.planned && q.rule.Some? :: q.id }

  lemma {:induction false} RuleRequestsUpTo(n: Inputs, rules: seq<Rule>)
    requires CardsClosed(n) && Unique(n.planned, QueryId) && Unique(rules, RuleId)
    ensures SumOverRules(n, rules) == Touched(AttemptItems(n), QueriesFor(n, rules))
  {
    hide CardsClosed, Touched, Lookup;
    if rules == [] {
      assert QueriesFor(n, rules) == {};
      TouchedNothing(AttemptItems(n));
    } else {
      var init, last := rules[..|rules| - 1], rules[|rules| - 1];
      assert forall i :: 0 <= i < |init| ==> init[i] == rules[i];
      assert rules == init + [last];
      RulesApart(n, init, last);
      QueriesPush(n, init, last);
      AttemptsAreSingle(n);
      assert SumOverRules(n, rules) == SumOverRules(n, init) + Touched(AttemptItems(n), RuleQueries(n, last.id));
      hide RuleQueries, QueriesFor, AttemptItems, SumOverRules, Singletons;
      RuleRequestsUpTo(n, init);
      TouchedDisjoint(AttemptItems(n), QueriesFor(n, init), RuleQueries(n, last.id));
    }
  }

  lemma AttemptsAreSingle(n: Inputs)
    ensures Singletons(AttemptItems(n))
  {
  }

  lemma QueriesPush(n: Inputs, init: seq<Rule>, last: Rule)
    ensures QueriesFor(n, init + [last]) == QueriesFor(n, init) + RuleQueries(n, last.id)
  {
  }

  lemma RulesApart(n: Inputs, init: seq<Rule>, last: Rule)
    requires Unique(n.planned, QueryId) && Unique(init + [last], RuleId)
    ensures QueriesFor(n, init) * RuleQueries(n, last.id) == {}
  {
    var all := init + [last];
    forall x | x in QueriesFor(n, init) ensures x !in RuleQueries(n, last.id) {
      var q, r :| q in n.planned && r in init && q.rule == Some(r.id) && q.id == x;
      var i :| 0 <= i < |init| && init[i] == r;
      assert RuleId(all[i]) != RuleId(all[|init|]);
      LookupOwn(n.planned, QueryId, q);
      forall p | p in n.planned && p.id == x ensures p == q { LookupOwn(n.planned, QueryId, p); }
    }
  }

  /** The bridge rows' search requests sum to the attempts of bridge and counter queries. */
  lemma BridgeRequestsAddUp(n: Inputs)
    requires LinksAccepted(n) && n.graph.Valid() && Unique(n.planned, QueryId)
    ensures SumOverRules(n, n.graph.rules) == Touched(AttemptItems(n), BridgeQueries(n))
  {
    hide CardsClosed, Touched, DocumentsAccepted, PacketsAccepted;
    RuleRequestsUpTo(n, n.graph.rules);
    assert QueriesFor(n, n.graph.rules) == BridgeQueries(n) by {
      forall q | q in n.planned && q.rule.Some? ensures exists r :: r in n.graph.rules && q.rule == Some(r.id) {
        var r := Lookup(n.graph.rules, RuleId, q.rule.value).value;
      }
    }
  }

  // ---- rows and their validators ----------------------------------------------------------------------

  datatype Status = SearchSupported | NotPlanned | NotExecuted | EvidenceInsufficient

  datatype QueryRow = QueryRow(queryId: string, tagIds: seq<string>, executed: bool, metrics: Metrics)

  datatype TagRow = TagRow(tagId: string, planned: nat, executed: nat, metrics: Metrics)

  datatype BridgeRow = BridgeRow(
    ruleId: string, status: Status, required: seq<string>, observed: seq<string>, missing: seq<string>,
    cardIds: seq<string>, packetIds: seq<string>, planned: nat, executed: nat, metrics: Metrics)

  function ObservedTags(n: Inputs, rule: string): set<string>
    requires CardsClosed(n)
  {
    set c, t | c in n.cards && c.relation.Support? && rule in CardRules(RunOf(n), c) && t in c.mechanismTagIds :: t
  }

  function PacketOf(n: Inputs, rule: string): Option<Packet> { Lookup(n.packets, (p: Packet) => p.ruleId, rule) }

  function BridgeRowOf(n: Inputs, rule: Rule): BridgeRow
    requires CardsClosed(n)
  {
    var queries := RuleQueries(n, rule.id);
    var executed := queries * Ids(n.executed);
    var packet := PacketOf(n, rule.id);
    var required := set t | t in rule.requiredTagIds;
    var observed := ObservedTags(n, rule.id);
    BridgeRow(rule.id,
      if packet.Some? then SearchSupported
      else if queries == {} then NotPlanned
      else if executed == {} then NotExecuted
      else EvidenceInsufficient,
      Sorted(required), Sorted(observed), Sorted(required - observed),
      Sorted(RuleCards(n, rule.id)), if packet.Some? then [packet.value.id] else [],
      |queries|, |executed|, MetricsOf(n, queries))
  }

  function QueryRowOf(n: Inputs, q: Query): QueryRow
    requires CardsClosed(n)
  {
    QueryRow(q.id, Sorted(set t | t in q.tagIds), q.id in Ids(n.executed), MetricsOf(n, {q.id}))
  }

  function TagQueries(n: Inputs, tag: string): set<string> { set q | q in n.planned && tag in q.tagIds :: q.id }

  function TagRowOf(n: Inputs, t: Tag): TagRow
    requires CardsClosed(n)
  {
    TagRow(t.id, |TagQueries(n, t.id)|, |TagQueries(n, t.id) * Ids(n.executed)|, MetricsOf(n, TagQueries(n, t.id)))
  }

  const MAX_OBSERVED_TAGS := 32
  const MAX_ROW_CARDS := 256
  const MAX_QUERY_ROWS := 512

  predicate SortedUnique(s: seq<string>) { s == Sorted(set x | x in s) }

  /** `validate_bridge_row`, and the two length limits of the row that its inputs do not already meet. */
  predicate BridgeRowValid(r: BridgeRow) {
    && |r.observed| <= MAX_OBSERVED_TAGS && |r.cardIds| <= MAX_ROW_CARDS
    && SortedUnique(r.required) && SortedUnique(r.missing) && SortedUnique(r.observed) && SortedUnique(r.cardIds) && SortedUnique(r.packetIds)
    && r.missing == Sorted((set t | t in r.required) - (set t | t in r.observed))
    && r.executed <= r.planned
    && r.metrics.requests == r.metrics.successes + r.metrics.failures
    && r.metrics.evidence == |r.cardIds|
    && r.metrics.packets == |r.packetIds|
    && (r.status.SearchSupported? <==> r.packetIds != [])
  }

  predicate QueryRowValid(r: QueryRow) {
    SortedUnique(r.tagIds) && r.metrics.requests == r.metrics.successes + r.metrics.failures
  }

  predicate TagRowValid(r: TagRow) {
    r.executed <= r.planned && r.metrics.requests == r.metrics.successes + r.metrics.failures
  }

  lemma SortedIsSortedUnique(s: set<string>)
    ensures SortedUnique(Sorted(s)) && (set x | x in Sorted(s)) == s
  {
    assert (set x | x in Sorted(s)) == s;
  }

  lemma QueryAndTagRowsValid(n: Inputs, q: Query, t: Tag)
    requires CardsClosed(n)
    ensures QueryRowValid(QueryRowOf(n, q)) && TagRowValid(TagRowOf(n, t))
  {
    hide MetricsOf, CardsClosed, Sorted;
    FailuresAre(n, {q.id});
    FailuresAre(n, TagQueries(n, t.id));
    SortedIsSortedUnique(set x | x in q.tagIds);
    SubsetSize(TagQueries(n, t.id) * Ids(n.executed), TagQueries(n, t.id));
  }

  lemma OnePacketPerRule(n: Inputs, rule: string)
    requires CardsClosed(n) && PacketsAccepted(n)
    ensures |RulePackets(n, rule)| == (if PacketOf(n, rule).Some? then 1 else 0)
  {
    hide PacketOk, CardsClosed;
    var found := PacketOf(n, rule);
    if found.Some? {
      assert RulePackets(n, rule) == {found.value} by {
        forall p | p in n.packets && p.ruleId == rule ensures p == found.value {
          var i :| 0 <= i < |n.packets| && n.packets[i] == p;
          var j :| 0 <= j < |n.packets| && n.packets[j] == found.value;
        }
      }
    } else {
      assert RulePackets(n, rule) == {};
    }
  }

  /** What a bridge row needs to be accepted: its cards traced to its queries, and no more of them than it can hold. */
  ghost predicate RowFits(n: Inputs, rule: string)
    requires CardsClosed(n)
  {
    AllTraced(n, rule) && |ObservedTags(n, rule)| <= 32 && |RuleCards(n, rule)| <= 256
  }

  /** A bridge row passes its validator exactly when every card of its rule is traced to a query of the rule and both lists fit. */
  lemma BridgeRowValidIff(n: Inputs, rule: Rule)
    requires CardsClosed(n) && PacketsAccepted(n) && Unique(n.cards, CardId) && Unique(n.planned, QueryId)
    ensures BridgeRowValid(BridgeRowOf(n, rule)) <==> RowFits(n, rule.id)
  {
    hide Lookup, Sorted, Touched, Unique;
    CountsAgreeIff(n, rule.id);
    OnePacketPerRule(n, rule.id);
    hide CardsClosed, PacketsAccepted, AllTraced, Sorted, Touched, CardItems, PacketItems, Unique, RuleQueries, ObservedTags, RuleCards, RulePackets, PacketOf, Lookup;
    var queries := RuleQueries(n, rule.id);
    FailuresAre(n, queries);
    var required, observed := (set t | t in rule.requiredTagIds), ObservedTags(n, rule.id);
    SortedIsSortedUnique(required);
    SortedIsSortedUnique(observed);
    SortedIsSortedUnique(required - observed);
    SortedIsSortedUnique(RuleCards(n, rule.id));
    if PacketOf(n, rule.id).Some? { OneIsSorted(PacketOf(n, rule.id).value.id); }
    assert SortedUnique([]) by { NoneIsSorted(); }
    SubsetSize(queries * Ids(n.executed), queries);
  }

  lemma OneIsSorted(x: string)
    ensures SortedUnique([x])
  {
    LeqTotal(x, x);
    SortedIs([x], set y | y in [x]);
  }

  lemma NoneIsSorted()
    ensures SortedUnique([])
  {
    var nothing: seq<string> := [];
    assert (set x | x in nothing) == {};
  }

  // ---- pipeline packets ----------------------------------------------------------------------------------

  /** The packets are those the bridge stage built for the run, in any order. */
  ghost predicate PacketsFromBridges(n: Inputs, run: Run, cards: seq<Card>, packetId: PacketKey -> string)
    requires forall c :: c in cards ==> CardClosed(run, c)
  {
    && (forall p :: p in n.packets ==>
          exists rule :: rule in run.graph.rules && Supported(run, cards, rule) && p == PacketFor(run, cards, rule, packetId))
    && forall i, j :: 0 <= i < j < |n.packets| ==> n.packets[i] != n.packets[j]
  }

  /** Rules of a pipeline card, seen from the plan. */
  lemma SameCardRules(n: Inputs, run: Run, cards: seq<Card>, sorted: seq<Passage>, idOf: CardKey -> string, c: Card)
    requires FromEvidence(run, cards, sorted, idOf) && FromPipeline(n, run, cards) && c in cards
    ensures CardClosed(run, c) && CardClosed(RunOf(n), c) && CardRules(RunOf(n), c) == CardRules(run, c)
  {
    UniqueInputs(run, cards, sorted, idOf);
    CardHasPassage(run, cards, sorted, idOf, c);
    var p :| CardFrom(run, c, p, idOf);
    hide FromEvidence, FromPipeline, CardFrom, CardClosed, CardRules;
    PipelineCardIsTraced(n, run, cards, c, p, idOf);
  }

  lemma PipelinePacketOk(n: Inputs, run: Run, cards: seq<Card>, sorted: seq<Passage>, idOf: CardKey -> string, packetId: PacketKey -> string, rule: Rule)
    requires FromEvidence(run, cards, sorted, idOf) && FromPipeline(n, run, cards) && CardsClosed(n)
    requires (forall c :: c in cards ==> CardClosed(run, c)) && rule in run.graph.rules && Supported(run, cards, rule)
    ensures PacketOk(n, PacketFor(run, cards, rule, packetId))
  {
    hide FromEvidence, FromPipeline, CardClosed, CardRules, Lookup, ReachedByBridge, Supported, PacketFor, PacketOk;
    SameRecords(n, run, cards);
    assert forall c :: c in n.cards ==> CardClosed(RunOf(n), c);
    hide CardsClosed;
    GraphOk(run, cards, sorted, idOf);
    RuleIsOwn(run, rule);
    forall c | c in cards ensures CardRules(RunOf(n), c) == CardRules(run, c) { SameCardRules(n, run, cards, sorted, idOf, c); }
    SupportedIsQueried(run, cards, sorted, idOf, rule);
    CardIdsNonEmpty(run, cards, rule);
    PacketOkFrom(n, run, cards, packetId, rule);
  }

  lemma SameRecords(n: Inputs, run: Run, cards: seq<Card>)
    requires FromPipeline(n, run, cards)
    ensures n.graph == run.graph && Unique(n.cards, CardId) && forall c :: c in n.cards <==> c in cards
  {
  }

  lemma PacketOkFrom(n: Inputs, run: Run, cards: seq<Card>, packetId: PacketKey -> string, rule: Rule)
    requires n.graph == run.graph && Unique(n.cards, CardId) && (forall c :: c in n.cards <==> c in cards) && CardsClosed(n)
    requires (forall c :: c in cards ==> CardClosed(run, c)) && Supported(run, cards, rule)
    requires Lookup(run.graph.rules, RuleId, rule.id) == Some(rule)
    requires forall c :: c in cards ==> CardRules(RunOf(n), c) == CardRules(run, c)
    requires |CardIdsFor(run, cards, rule.id)| > 0
    ensures PacketOk(n, PacketFor(run, cards, rule, packetId))
  {
    hide CardClosed, CardRules, Lookup, Leq;
    var p := PacketFor(run, cards, rule, packetId);
    forall c | c in cards ensures CardById(n, c.id) == Some(c) { LookupOwn(n.cards, CardId, c); }
    hide Unique, Least;
    assert |p.cardIds| > 0;
    forall t | t in rule.requiredTagIds
      ensures exists id :: id in p.cardIds && CardById(n, id).value.relation.Support? && t in CardById(n, id).value.mechanismTagIds
    {
      assert t in SupportTags(run, cards, rule.id);
      var c :| c in cards && c.relation.Support? && rule.id in CardRules(run, c) && t in c.mechanismTagIds;
      assert c.id in p.cardIds && CardById(n, c.id) == Some(c);
    }
  }

  /** Seen from the review, the cards of a rule and their tags are those the bridge stage counted. */
  lemma PipelineLists(n: Inputs, run: Run, cards: seq<Card>, sorted: seq<Passage>, idOf: CardKey -> string, rule: string)
    requires FromEvidence(run, cards, sorted, idOf) && FromPipeline(n, run, cards) && CardsClosed(n)
    requires forall c :: c in cards ==> CardClosed(run, c)
    ensures ObservedTags(n, rule) == SupportTags(run, cards, rule) && RuleCards(n, rule) == CardIdsFor(run, cards, rule)
  {
    SameRecords(n, run, cards);
    forall c | c in cards ensures CardClosed(RunOf(n), c) && CardRules(RunOf(n), c) == CardRules(run, c) {
      SameCardRules(n, run, cards, sorted, idOf, c);
    }
    hide FromEvidence, FromPipeline, CardClosed, CardRules;
  }

  /**
   * Pipeline closure: cards of the evidence stage and packets of the bridge stage pass every card and
   * packet check of the review, and a bridge row they lead to passes its validator exactly when the
   * rule's cards and the tags its SUPPORT cards carry are no more than the row can hold.
   */
  lemma PipelineRowsValidIff(n: Inputs, run: Run, cards: seq<Card>, sorted: seq<Passage>, idOf: CardKey -> string, packetId: PacketKey -> string)
    requires FromEvidence(run, cards, sorted, idOf) && FromPipeline(n, run, cards)
    requires forall c :: c in cards ==> CardClosed(run, c)
    requires PacketsFromBridges(n, run, cards, packetId)
    ensures CardsClosed(n) && PacketsAccepted(n)
    ensures forall rule :: BridgeRowValid(BridgeRowOf(n, rule)) <==>
              |SupportTags(run, cards, rule.id)| <= 32 && |CardIdsFor(run, cards, rule.id)| <= 256
  {
    PipelineIsTraced(n, run, cards, sorted, idOf);
    assert Unique(n.cards, CardId) && Unique(n.planned, QueryId);
    hide FromEvidence, FromPipeline, CardClosed, CardsClosed, AllTraced, BridgeRowValid, BridgeRowOf, PacketsAccepted, PacketsFromBridges;
    hide ObservedTags, RuleCards, SupportTags, CardIdsFor, Unique;
    PipelinePacketsAccepted(n, run, cards, sorted, idOf, packetId);
    forall rule
      ensures BridgeRowValid(BridgeRowOf(n, rule)) <==>
                |SupportTags(run, cards, rule.id)| <= 32 && |CardIdsFor(run, cards, rule.id)| <= 256
    {
      BridgeRowValidIff(n, rule);
      PipelineLists(n, run, cards, sorted, idOf, rule.id);
    }
  }

  lemma PipelinePacketsAccepted(n: Inputs, run: Run, cards: seq<Card>, sorted: seq<Passage>, idOf: CardKey -> string, packetId: PacketKey -> string)
    requires FromEvidence(run, cards, sorted, idOf) && FromPipeline(n, run, cards) && CardsClosed(n)
    requires forall c :: c in cards ==> CardClosed(run, c)
    requires PacketsFromBridges(n, run, cards, packetId)
    ensures PacketsAccepted(n)
  {
    assert Unique(run.graph.rules, RuleId) by { GraphOk(run, cards, sorted, idOf); }
    hide FromEvidence, FromPipeline, CardClosed, CardsClosed, Supported, PacketFor, Lookup, PacketOk;
    forall p | p in n.packets ensures PacketOk(n, p) {
      var rule :| rule in run.graph.rules && Supported(run, cards, rule) && p == PacketFor(run, cards, rule, packetId);
      PipelinePacketOk(n, run, cards, sorted, idOf, packetId, rule);
    }
    forall i, j | 0 <= i < j < |n.packets| ensures n.packets[i].ruleId != n.packets[j].ruleId {
      assert n.packets[i] in n.packets && n.packets[j] in n.packets;
      var r :| r in run.graph.rules && Supported(run, cards, r) && n.packets[i] == PacketFor(run, cards, r, packetId);
      var s :| s in run.graph.rules && Supported(run, cards, s) && n.packets[j] == PacketFor(run, cards, s, packetId);
      PacketNamesRule(run, cards, r, packetId);
      PacketNamesRule(run, cards, s, packetId);
      if r.id == s.id {
        LookupOwn(run.graph.rules, RuleId, r);
        LookupOwn(run.graph.rules, RuleId, s);
      }
    }
  }

  // ---- the compiler ------------------------------------------------------------------------------------------

  function QueryKey(q: Query): Normalizing.Key { (q.id, 0) }
  function AttemptKey(a: Attempt): Normalizing.Key { (a.queryId, a.number) }
  function HitKey(h: Hit): Normalizing.Key { (h.id, 0) }
  function CardRecordKey(c: Card): Normalizing.Key { (c.id, 0) }
  function PacketRecordKey(p: Packet): Normalizing.Key { (p.id, 0) }
  function FetchKey(f: Fetch): Normalizing.Key { (f.documentId, 0) }
  function VectorKey(v: Vector): Normalizing.Key { (v.passageId, 0) }
  function TagKey(t: Tag): Normalizing.Key { (t.id, 0) }

  ghost predicate NormalForm<T(!new)>(normal: seq<T>, raw: seq<T>, key: T -> Normalizing.Key) {
    Normalizing.Normalized(normal, key) && Normalizing.SameMembers(normal, raw)
  }

  /** `n` holds the normalized lists of `raw`. */
  ghost predicate NormalOf(n: Inputs, raw: Inputs) {
    && n.graph == raw.graph
    && NormalForm(n.planned, raw.planned, QueryKey) && NormalForm(n.executed, raw.executed, QueryKey)
    && NormalForm(n.attempts, raw.attempts, AttemptKey) && NormalForm(n.hits, raw.hits, HitKey)
    && NormalForm(n.passages, raw.passages, PassageKey) && NormalForm(n.cards, raw.cards, CardRecordKey)
    && NormalForm(n.packets, raw.packets, PacketRecordKey) && NormalForm(n.fetches, raw.fetches, FetchKey)
    && NormalForm(n.vectors, raw.vectors, VectorKey)
  }

  /** No two different records share an identifier. */
  ghost predicate RawConsistent(raw: Inputs) {
    && Normalizing.Consistent(raw.planned, QueryKey) && Normalizing.Consistent(raw.executed, QueryKey)
    && Normalizing.Consistent(raw.attempts, AttemptKey) && Normalizing.Consistent(raw.hits, HitKey)
    && Normalizing.Consistent(raw.passages, PassageKey) && Normalizing.Consistent(raw.cards, CardRecordKey)
    && Normalizing.Consistent(raw.packets, PacketRecordKey) && Normalizing.Consistent(raw.fetches, FetchKey)
    && Normalizing.Consistent(raw.vectors, VectorKey)
  }

  /** The same records, in any order and with any repetitions. */
  ghost predicate SameInputs(a: Inputs, b: Inputs) {
    && a.graph == b.graph
    && Normalizing.SameMembers(a.planned, b.planned) && Normalizing.SameMembers(a.executed, b.executed)
    && Normalizing.SameMembers(a.attempts, b.attempts) && Normalizing.SameMembers(a.hits, b.hits)
    && Normalizing.SameMembers(a.passages, b.passages) && Normalizing.SameMembers(a.cards, b.cards)
    && Normalizing.SameMembers(a.packets, b.packets) && Normalizing.SameMembers(a.fetches, b.fetches)
    && Normalizing.SameMembers(a.vectors, b.vectors)
  }

  lemma NormalFormUnique<T(!new)>(a: seq<T>, b: seq<T>, x: seq<T>, y: seq<T>, key: T -> Normalizing.Key)
    requires NormalForm(a, x, key) && NormalForm(b, y, key) && Normalizing.SameMembers(x, y)
    ensures a == b
  {
    hide Normalizing.Normalized;
    Normalizing.NormalizedUnique(a, b, key);
  }

  lemma NormalUnique(n: Inputs, m: Inputs, a: Inputs, b: Inputs)
    requires NormalOf(n, a) && NormalOf(m, b) && SameInputs(a, b)
    ensures n == m
  {
    hide NormalForm, Normalizing.SameMembers;
    NormalFormUnique(n.planned, m.planned, a.planned, b.planned, QueryKey);
    NormalFormUnique(n.executed, m.executed, a.executed, b.executed, QueryKey);
    NormalFormUnique(n.attempts, m.attempts, a.attempts, b.attempts, AttemptKey);
    NormalFormUnique(n.hits, m.hits, a.hits, b.hits, HitKey);
    NormalFormUnique(n.passages, m.passages, a.passages, b.passages, PassageKey);
    NormalFormUnique(n.cards, m.cards, a.cards, b.cards, CardRecordKey);
    NormalFormUnique(n.packets, m.packets, a.packets, b.packets, PacketRecordKey);
    NormalFormUnique(n.fetches, m.fetches, a.fetches, b.fetches, FetchKey);
    NormalFormUnique(n.vectors, m.vectors, a.vectors, b.vectors, VectorKey);
  }

  lemma NormalIsUnique<T(!new)>(normal: seq<T>, key: T -> Normalizing.Key, id: T -> string)
    requires Normalizing.Normalized(normal, key) && forall x :: key(x) == (id(x), 0)
    ensures Unique(normal, id)
  {
    forall i, j | 0 <= i < j < |normal| ensures id(normal[i]) != id(normal[j]) {
      assert key(normal[i]) != key(normal[j]);
    }
  }

  /** Records of the same set agree on whether they are consistent. */
  lemma SameConsistent(a: Inputs, b: Inputs)
    requires SameInputs(a, b)
    ensures RawConsistent(a) <==> RawConsistent(b)
  {
  }

  method NormalizeInputs(raw: Inputs) returns (r: Option<Inputs>)
    ensures r.Some? <==> RawConsistent(raw)
    ensures r.Some? ==> NormalOf(r.value, raw)
  {
    hide Normalizing.Consistent, Normalizing.Normalized, Normalizing.SameMembers;
    var planned := Normalizing.Normalize(raw.planned, QueryKey);
    if planned.None? { return None; }
    var executed := Normalizing.Normalize(raw.executed, QueryKey);
    if executed.None? { return None; }
    var hits := Normalizing.Normalize(raw.hits, HitKey);
    if hits.None? { return None; }
    var passages := Normalizing.Normalize(raw.passages, PassageKey);
    if passages.None? { return None; }
    var cards := Normalizing.Normalize(raw.cards, CardRecordKey);
    if cards.None? { return None; }
    var packets := Normalizing.Normalize(raw.packets, PacketRecordKey);
    if packets.None? { return None; }
    var attempts := Normalizing.Normalize(raw.attempts, AttemptKey);
    if attempts.None? { return None; }
    var fetches := Normalizing.Normalize(raw.fetches, FetchKey);
    if fetches.None? { return None; }
    var vectors := Normalizing.Normalize(raw.vectors, VectorKey);
    if vectors.None? { return None; }
    return Some(Inputs(raw.graph, planned.value, executed.value, attempts.value, hits.value, passages.value,
                       cards.value, packets.value, fetches.value, vectors.value));
  }

  /** `evidence_query_ids` and `evidence_rule_ids`, one card at a time. */
  method TraceCards(n: Inputs) returns (ok: bool, queries: map<string, set<string>>, rules: map<string, Option<string>>)
    requires Unique(n.cards, CardId)
    ensures ok <==> CardsClosed(n)
    ensures ok ==> forall c :: c in n.cards ==>
              c.id in queries && queries[c.id] == CardQueries(RunOf(n), c) && c.id in rules && rules[c.id] == TheRule(CardRules(RunOf(n), c))
  {
    hide CardClosed, CardRules, CardQueries, TheRule;
    queries, rules := map[], map[];
    for i := 0 to |n.cards|
      invariant forall j :: 0 <= j < i ==>
                  && CardClosed(RunOf(n), n.cards[j]) && |CardRules(RunOf(n), n.cards[j])| <= 1 && n.cards[j].passageIds != []
                  && n.cards[j].id in queries && queries[n.cards[j].id] == CardQueries(RunOf(n), n.cards[j])
                  && n.cards[j].id in rules && rules[n.cards[j].id] == TheRule(CardRules(RunOf(n), n.cards[j]))
    {
      var c := n.cards[i];
      assert c in n.cards;
      if c.passageIds == [] || !CardClosed(RunOf(n), c) || |CardRules(RunOf(n), c)| > 1 { return false, queries, rules; }
      forall j | 0 <= j < i ensures n.cards[j].id != c.id { assert CardId(n.cards[j]) != CardId(n.cards[i]); }
      queries := queries[c.id := CardQueries(RunOf(n), c)];
      rules := rules[c.id := TheRule(CardRules(RunOf(n), c))];
    }
    return true, queries, rules;
  }

  /** `packets_by_rule`: every packet is checked, and no rule has two. */
  method CollectPackets(n: Inputs) returns (ok: bool, byRule: map<string, Packet>)
    requires CardsClosed(n)
    ensures ok <==> PacketsAccepted(n)
    ensures ok ==> forall rule :: if rule in byRule then PacketOf(n, rule) == Some(byRule[rule]) else PacketOf(n, rule) == None
  {
    hide PacketOk, CardsClosed, PacketOf;
    byRule := map[];
    for i := 0 to |n.packets|
      invariant forall j :: 0 <= j < i ==> PacketOk(n, n.packets[j]) && n.packets[j].ruleId in byRule && byRule[n.packets[j].ruleId] == n.packets[j]
      invariant forall rule :: rule in byRule ==> exists j :: 0 <= j < i && n.packets[j] == byRule[rule] && n.packets[j].ruleId == rule
      invariant forall j, k :: 0 <= j < k < i ==> n.packets[j].ruleId != n.packets[k].ruleId
    {
      var p := n.packets[i];
      assert p in n.packets;
      if !PacketOk(n, p) { return false, byRule; }
      if p.ruleId in byRule {
        var j :| 0 <= j < i && n.packets[j].ruleId == p.ruleId;
        assert n.packets[j].ruleId == n.packets[i].ruleId;
        return false, byRule;
      }
      byRule := byRule[p.ruleId := p];
    }
    ByRuleIs(n, byRule);
    return true, byRule;
  }

  lemma ByRuleIs(n: Inputs, byRule: map<string, Packet>)
    requires forall j :: 0 <= j < |n.packets| ==> n.packets[j].ruleId in byRule && byRule[n.packets[j].ruleId] == n.packets[j]
    requires forall rule :: rule in byRule ==> exists j :: 0 <= j < |n.packets| && n.packets[j] == byRule[rule] && n.packets[j].ruleId == rule
    ensures forall rule :: if rule in byRule then PacketOf(n, rule) == Some(byRule[rule]) else PacketOf(n, rule) == None
  {
    assert forall rule :: rule in byRule ==> byRule[rule] in n.packets && byRule[rule].ruleId == rule;
    forall rule ensures if rule in byRule then PacketOf(n, rule) == Some(byRule[rule]) else PacketOf(n, rule) == None {
      if PacketOf(n, rule).Some? {
        var j :| 0 <= j < |n.packets| && n.packets[j] == PacketOf(n, rule).value;
        assert n.packets[j].ruleId == rule;
      }
    }
  }

  datatype Review = Review(queryRows: seq<QueryRow>, tagRows: seq<TagRow>, bridgeRows: seq<BridgeRow>)

  function ReviewOf(n: Inputs, tags: seq<Tag>, rules: seq<Rule>): Review
    requires CardsClosed(n)
  {
    Review(seq(|n.planned|, i requires 0 <= i < |n.planned| => QueryRowOf(n, n.planned[i])),
           seq(|tags|, i requires 0 <= i < |tags| => TagRowOf(n, tags[i])),
           seq(|rules|, i requires 0 <= i < |rules| => BridgeRowOf(n, rules[i])))
  }

  /** When a set of normalized inputs is compiled into a review. */
  ghost predicate CompileAccepts(n: Inputs) {
    LinksAccepted(n) && |n.planned| <= 512 && forall rule :: rule in n.graph.rules ==> RowFits(n, rule.id)
  }

  ghost predicate RowsOrdered(graph: Graph, tags: seq<Tag>, rules: seq<Rule>) {
    NormalForm(tags, graph.tags, TagKey) && NormalForm(rules, graph.rules, RuleKey)
  }

  /** One row per planned query, per tag and per rule, in order. */
  ghost predicate RowsAre(review: Review, n: Inputs, tags: seq<Tag>, rules: seq<Rule>)
    requires CardsClosed(n)
  {
    && |review.queryRows| == |n.planned| && (forall i :: 0 <= i < |n.planned| ==> review.queryRows[i] == QueryRowOf(n, n.planned[i]))
    && |review.tagRows| == |tags| && (forall i :: 0 <= i < |tags| ==> review.tagRows[i] == TagRowOf(n, tags[i]))
    && |review.bridgeRows| == |rules| && (forall i :: 0 <= i < |rules| ==> review.bridgeRows[i] == BridgeRowOf(n, rules[i]))
  }

  lemma RowsInOrder(n: Inputs, tags: seq<Tag>, rules: seq<Rule>)
    requires CardsClosed(n)
    ensures RowsAre(ReviewOf(n, tags, rules), n, tags, rules)
  {
    hide CardsClosed, QueryRowOf, TagRowOf, BridgeRowOf;
  }

  lemma AcceptedIsClosed(n: Inputs)
    requires CompileAccepts(n)
    ensures CardsClosed(n)
  {
  }

  lemma RowsDetermine(review: Review, n: Inputs, tags: seq<Tag>, rules: seq<Rule>)
    requires CardsClosed(n) && RowsAre(review, n, tags, rules)
    ensures review == ReviewOf(n, tags, rules)
  {
    hide CardsClosed, QueryRowOf, TagRowOf, BridgeRowOf;
  }

  method CompileReview(raw: Inputs) returns (r: Result<Review, string>, ghost n: Inputs, ghost tags: seq<Tag>, ghost rules: seq<Rule>)
    requires raw.graph.Valid()
    ensures r.Ok? ==> NormalOf(n, raw) && RowsOrdered(raw.graph, tags, rules) && CompileAccepts(n) && RowsAre(r.value, n, tags, rules)
    ensures r.Err? ==> !RawConsistent(raw) || (NormalOf(n, raw) && !CompileAccepts(n))
    ensures r.Ok? ==> RawConsistent(raw)
  {
    hide RawConsistent, CardsClosed, PacketsAccepted, QueriesAccepted, DocumentsAccepted, RowFits, NormalOf, RowsOrdered, ReviewOf, PacketOf, RowsAre;
    n, tags, rules := raw, [], [];
    var inputs := NormalizeInputs(raw);
    if inputs.None? { return Err("conflicting duplicate input"), n, tags, rules; }
    var m := inputs.value;
    n := m;
    UniqueNormals(m, raw);
    if !QueriesAccepted(m) || !DocumentsAccepted(m) { return Err("inputs do not close over one run"), n, tags, rules; }
    var traced, queries, ruleIds := TraceCards(m);
    if !traced { return Err("evidence does not close or spans bridge rules"), n, tags, rules; }
    var collected, byRule := CollectPackets(m);
    if !collected { return Err("packet does not match its evidence"), n, tags, rules; }
    var orderedTags, orderedRules := OrderRows(raw.graph);
    tags, rules := orderedTags, orderedRules;
    MembersOfOrder(raw.graph, orderedTags, orderedRules);
    var valid := ValidateRows(m, orderedRules);
    if !valid { return Err("bridge row refused"), n, tags, rules; }
    if |m.planned| > MAX_QUERY_ROWS { return Err("too many query rows"), n, tags, rules; }
    RowsInOrder(m, orderedTags, orderedRules);
    return Ok(ReviewOf(m, orderedTags, orderedRules)), n, tags, rules;
  }

  /** The validator runs on every bridge row as it is built. */
  method ValidateRows(n: Inputs, rules: seq<Rule>) returns (ok: bool)
    requires CardsClosed(n) && PacketsAccepted(n) && Unique(n.cards, CardId) && Unique(n.planned, QueryId)
    ensures ok <==> forall rule :: rule in rules ==> RowFits(n, rule.id)
  {
    hide CardsClosed, PacketsAccepted, RowFits, BridgeRowValid, BridgeRowOf, Unique;
    for i := 0 to |rules|
      invariant forall j :: 0 <= j < i ==> RowFits(n, rules[j].id)
    {
      BridgeRowValidIff(n, rules[i]);
      if !BridgeRowValid(BridgeRowOf(n, rules[i])) {
        assert rules[i] in rules;
        return false;
      }
    }
    return true;
  }

  lemma UniqueNormals(n: Inputs, raw: Inputs)
    requires NormalOf(n, raw)
    ensures Unique(n.planned, QueryId) && Unique(n.cards, CardId) && n.graph == raw.graph
  {
    NormalIsUnique(n.planned, QueryKey, QueryId);
    NormalIsUnique(n.cards, CardRecordKey, CardId);
  }

  lemma MembersOfOrder(graph: Graph, tags: seq<Tag>, rules: seq<Rule>)
    requires RowsOrdered(graph, tags, rules)
    ensures forall rule :: rule in rules <==> rule in graph.rules
  {
  }

  method OrderRows(graph: Graph) returns (tags: seq<Tag>, rules: seq<Rule>)
    requires graph.Valid()
    ensures RowsOrdered(graph, tags, rules)
  {
    assert Normalizing.Consistent(graph.tags, TagKey) by {
      forall x, y | x in graph.tags && y in graph.tags && TagKey(x) == TagKey(y) ensures x == y {
        LookupOwn(graph.tags, TagId, x);
        LookupOwn(graph.tags, TagId, y);
      }
    }
    var sorted := Normalizing.Normalize(graph.tags, TagKey);
    rules := SortRules(graph.rules);
    return sorted.value, rules;
  }

  /** The review does not depend on the order of its inputs, nor on repeated records. */
  method CompileTwice(a: Inputs, b: Inputs) returns (x: Result<Review, string>, y: Result<Review, string>)
    requires a.graph.Valid() && SameInputs(a, b)
    ensures x.Ok? == y.Ok? && (x.Ok? ==> x == y)
  {
    hide CompileAccepts, NormalOf, RawConsistent, SameInputs, RowsOrdered, ReviewOf, RowsAre, CardsClosed;
    SameGraph(a, b);
    SameConsistent(a, b);
    ghost var n, tags, rules;
    ghost var m, otherTags, otherRules;
    x, n, tags, rules := CompileReview(a);
    y, m, otherTags, otherRules := CompileReview(b);
    if RawConsistent(a) { NormalUnique(n, m, a, b); }
    if x.Ok? && y.Ok? {
      OrderUnique(a.graph, tags, rules, otherTags, otherRules);
      AcceptedIsClosed(n);
      RowsDetermine(x.value, n, tags, rules);
      RowsDetermine(y.value, n, tags, rules);
    }
  }

  lemma SameGraph(a: Inputs, b: Inputs)
    requires SameInputs(a, b)
    ensures a.graph == b.graph
  {
  }

  lemma OrderUnique(graph: Graph, tags: seq<Tag>, rules: seq<Rule>, otherTags: seq<Tag>, otherRules: seq<Rule>)
    requires RowsOrdered(graph, tags, rules) && RowsOrdered(graph, otherTags, otherRules)
    ensures tags == otherTags && rules == otherRules
  {
    hide NormalForm;
    NormalFormUnique(tags, otherTags, graph.tags, graph.tags, TagKey);
    NormalFormUnique(rules, otherRules, graph.rules, graph.rules, RuleKey);
  }
}
