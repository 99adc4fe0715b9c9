/**
 * What the rows of the feedback review say, in terms of the review's own input records
 * (`inspiration/feedback.py`): which records a metric counts, and what a row lists.
 */
module FeedbackCounts {
  import opened BridgePackets
  import opened EvidenceCards
  import opened EvidenceModels
  import opened FeedbackLineage
  import opened FeedbackReview
  import Normalizing
  import opened Ordering
  import opened RecordLinks
  import opened Wrappers

  // ---- which records belong to a set of queries ------------------------------------------------------

  ghost predicate Meets(ids: seq<string>, q: set<string>) { exists id :: id in ids && id in q }

  ghost predicate PassageBelongs(n: Inputs, p: Passage, q: set<string>) {
    exists h :: h in n.hits && h.id == p.hitId && Meets(h.queryIds, q)
  }

  ghost predicate VectorBelongs(n: Inputs, v: Vector, q: set<string>) {
    exists p :: p in n.passages && p.id == v.passageId && PassageBelongs(n, p, q)
  }

  /** A card belongs to the queries that found its first passage. */
  ghost predicate CardBelongs(n: Inputs, c: Card, q: set<string>) {
    exists p :: p in n.passages && p.id in c.passageIds && (forall id :: id in c.passageIds ==> Leq(p.id, id)) && PassageBelongs(n, p, q)
  }

  ghost predicate PacketBelongs(n: Inputs, p: Packet, q: set<string>) {
    exists c :: c in n.cards && c.id in p.cardIds && CardBelongs(n, c, q)
  }

  // ---- sums over the records that belong -----------------------------------------------------------

  ghost function Total<T>(xs: seq<T>, belongs: T -> bool, weight: T -> nat): nat {
    if xs == [] then 0
    else Total(xs[..|xs| - 1], belongs, weight) + if belongs(xs[|xs| - 1]) then weight(xs[|xs| - 1]) else 0
  }

  lemma {:induction false} ItemsTotal<T>(xs: seq<T>, items: seq<Item>, q: set<string>, belongs: T -> bool, weight: T -> nat)
    requires |xs| == |items|
    requires forall i :: 0 <= i < |xs| ==>
               (if items[i].members * q != {} then items[i].weight else 0) == (if belongs(xs[i]) then weight(xs[i]) else 0)
    ensures Touched(items, q) == Total(xs, belongs, weight)
  {
    if xs != [] { ItemsTotal(xs[..|xs| - 1], items[..|xs| - 1], q, belongs, weight); }
  }

  ghost function One<T>(): T -> nat { x => 1 }
  ghost function Tried(q: set<string>): Attempt -> bool { (a: Attempt) => a.queryId in q }
  ghost function TriedWith(q: set<string>, success: bool): Attempt -> bool { (a: Attempt) => a.queryId in q && a.success == success }
  ghost function HitIn(q: set<string>): Hit -> bool { (h: Hit) => Meets(h.queryIds, q) }
  ghost function PassageIn(n: Inputs, q: set<string>): Passage -> bool { (p: Passage) => PassageBelongs(n, p, q) }
  ghost function VectorIn(n: Inputs, q: set<string>): Vector -> bool { (v: Vector) => VectorBelongs(n, v, q) }
  ghost function CardIn(n: Inputs, q: set<string>): Card -> bool { (c: Card) => CardBelongs(n, c, q) }
  ghost function PacketIn(n: Inputs, q: set<string>): Packet -> bool { (p: Packet) => PacketBelongs(n, p, q) }
  ghost function FetchIn(q: set<string>): Fetch -> bool { (f: Fetch) => Meets(f.queryIds, q) }
  ghost function AttemptBytes(): Attempt -> nat { (a: Attempt) => a.bytes }
  ghost function Tokens(): Vector -> nat { (v: Vector) => v.tokens }
  ghost function FetchRequests(): Fetch -> nat { (f: Fetch) => f.requests }
  ghost function FetchBytes(): Fetch -> nat { (f: Fetch) => f.bytes }

  lemma MeetsIs(ids: seq<string>, q: set<string>)
    ensures Set(ids) * q != {} <==> Meets(ids, q)
  {
    if Meets(ids, q) {
      var id :| id in ids && id in q;
      assert id in Set(ids) * q;
    }
  }

  lemma AttemptMetrics(n: Inputs, q: set<string>)
    requires CardsClosed(n)
    ensures var m := MetricsOf(n, q);
            && m.successes == Total(n.attempts, TriedWith(q, true), One())
            && m.failures == Total(n.attempts, TriedWith(q, false), One())
            && m.requests == Total(n.attempts, Tried(q), One())
            && m.searchBytes == Total(n.attempts, Tried(q), AttemptBytes())
  {
    hide CardsClosed, Touched;
    FailuresAre(n, q);
    forall id: string ensures {id} * q != {} <==> id in q { assert id in q ==> id in {id} * q; }
    ItemsTotal(n.attempts, OutcomeItems(n, true), q, TriedWith(q, true), One());
    ItemsTotal(n.attempts, OutcomeItems(n, false), q, TriedWith(q, false), One());
    ItemsTotal(n.attempts, AttemptItems(n), q, Tried(q), One());
    ItemsTotal(n.attempts, SearchByteItems(n), q, Tried(q), AttemptBytes());
  }

  lemma PassageIs(n: Inputs, p: Passage, q: set<string>)
    requires Unique(n.hits, HitId)
    ensures PassageQueries(n, p) * q != {} <==> PassageBelongs(n, p, q)
  {
    forall h | h in n.hits ensures Lookup(n.hits, HitId, h.id) == Some(h) && (Set(h.queryIds) * q != {} <==> Meets(h.queryIds, q)) {
      LookupOwn(n.hits, HitId, h);
      MeetsIs(h.queryIds, q);
    }
    hide Lookup, Unique, Meets, Set;
  }

  lemma VectorIs(n: Inputs, v: Vector, weight: nat, q: set<string>)
    requires Unique(n.hits, HitId) && Unique(n.passages, PassageId)
    ensures VectorItem(n, v, weight).members * q != {} <==> VectorBelongs(n, v, q)
  {
    forall p | p in n.passages
      ensures Lookup(n.passages, PassageId, p.id) == Some(p) && (PassageQueries(n, p) * q != {} <==> PassageBelongs(n, p, q))
    {
      LookupOwn(n.passages, PassageId, p);
      PassageIs(n, p, q);
    }
    hide Lookup, Unique, PassageQueries, PassageBelongs;
  }

  lemma CardIs(n: Inputs, c: Card, q: set<string>)
    requires Unique(n.hits, HitId) && Unique(n.passages, PassageId) && CardClosed(RunOf(n), c)
    ensures CardQueries(RunOf(n), c) * q != {} <==> CardBelongs(n, c, q)
  {
    var ids := set id | id in c.passageIds;
    forall p | p in n.passages
      ensures Lookup(n.passages, PassageId, p.id) == Some(p) && (PassageQueries(n, p) * q != {} <==> PassageBelongs(n, p, q))
    {
      LookupOwn(n.passages, PassageId, p);
      PassageIs(n, p, q);
    }
    assert forall id :: id in c.passageIds ==> id in ids;
    if ids != {} {
      var first := Least(ids);
      assert first in c.passageIds && PassageClosed(RunOf(n), first);
      var p := PassageOf(RunOf(n), first).value;
      assert HitQueries(RunOf(n), first) == PassageQueries(n, p);
      FirstPassage(n, c, p, q);
    }
  }

  /** Only one passage of a card comes first. */
  lemma FirstPassage(n: Inputs, c: Card, p: Passage, q: set<string>)
    requires Unique(n.passages, PassageId) && p in n.passages && IsLeast(p.id, set id | id in c.passageIds)
    ensures CardBelongs(n, c, q) <==> PassageBelongs(n, p, q)
  {
    var ids := set id | id in c.passageIds;
    assert forall id :: id in c.passageIds ==> id in ids;
    forall o | o in n.passages && o.id in c.passageIds && (forall id :: id in c.passageIds ==> Leq(o.id, id)) ensures o == p {
      LeqAntisymmetric(o.id, p.id);
      LookupOwn(n.passages, PassageId, o);
      LookupOwn(n.passages, PassageId, p);
    }
    hide PassageBelongs;
  }

  lemma PacketIs(n: Inputs, p: Packet, q: set<string>)
    requires Unique(n.hits, HitId) && Unique(n.passages, PassageId) && Unique(n.cards, CardId) && CardsClosed(n)
    ensures PacketQueries(n, p) * q != {} <==> PacketBelongs(n, p, q)
  {
    forall c | c in n.cards ensures CardById(n, c.id) == Some(c) && (CardQueries(RunOf(n), c) * q != {} <==> CardBelongs(n, c, q)) {
      LookupOwn(n.cards, CardId, c);
      CardIs(n, c, q);
    }
    hide Lookup, Unique, CardQueries, CardBelongs, CardClosed;
    if x :| x in PacketQueries(n, p) * q {
      var id :| id in p.cardIds && CardById(n, id).Some? && x in CardQueries(RunOf(n), CardById(n, id).value);
      var c := CardById(n, id).value;
      assert x in CardQueries(RunOf(n), c) * q;
    }
    if c :| c in n.cards && c.id in p.cardIds && CardBelongs(n, c, q) {
      var x :| x in CardQueries(RunOf(n), c) * q;
      assert x in PacketQueries(n, p) * q;
    }
  }

  /** The records of the inputs are identified by their identifiers. */
  ghost predicate Identified(n: Inputs) {
    Unique(n.hits, HitId) && Unique(n.passages, PassageId) && Unique(n.cards, CardId) && CardsClosed(n)
  }

  /**
   * Every metric of a row counts, or adds up, exactly the records that belong to the row's queries;
   * documents are counted once however many of its hits name them.
   */
  lemma MetricsCount(n: Inputs, q: set<string>)
    requires Identified(n)
    ensures var m := MetricsOf(n, q);
            && m.successes == Total(n.attempts, TriedWith(q, true), One())
            && m.failures == Total(n.attempts, TriedWith(q, false), One())
            && m.requests == Total(n.attempts, Tried(q), One())
            && m.searchBytes == Total(n.attempts, Tried(q), AttemptBytes())
            && m.hits == Total(n.hits, HitIn(q), One())
            && m.documents == |set h | h in n.hits && Meets(h.queryIds, q) :: h.documentId|
            && m.passages == Total(n.passages, PassageIn(n, q), One())
            && m.vectorized == Total(n.vectors, VectorIn(n, q), One())
            && m.tokens == Total(n.vectors, VectorIn(n, q), Tokens())
            && m.evidence == Total(n.cards, CardIn(n, q), One())
            && m.packets == Total(n.packets, PacketIn(n, q), One())
            && m.fetchRequests == Total(n.fetches, FetchIn(q), FetchRequests())
            && m.fetchBytes == Total(n.fetches, FetchIn(q), FetchBytes())
  {
    AttemptMetrics(n, q);
    DocumentMetrics(n, q);
    LineageMetrics(n, q);
    hide CardsClosed, Touched, Total;
  }

  lemma DocumentMetrics(n: Inputs, q: set<string>)
    requires Identified(n)
    ensures Touched(HitItems(n), q) == Total(n.hits, HitIn(q), One())
    ensures Documents(n, q) == set h | h in n.hits && Meets(h.queryIds, q) :: h.documentId
    ensures Touched(PassageItems(n), q) == Total(n.passages, PassageIn(n, q), One())
    ensures Touched(VectorItems(n), q) == Total(n.vectors, VectorIn(n, q), One())
    ensures Touched(TokenItems(n), q) == Total(n.vectors, VectorIn(n, q), Tokens())
  {
    hide CardsClosed, Touched, Total, PassageBelongs, VectorBelongs, PassageQueries, Meets, Set, VectorItem, Unique;
    forall h | h in n.hits ensures Set(h.queryIds) * q != {} <==> Meets(h.queryIds, q) { MeetsIs(h.queryIds, q); }
    forall p | p in n.passages ensures PassageQueries(n, p) * q != {} <==> PassageBelongs(n, p, q) { PassageIs(n, p, q); }
    forall v, w: nat | v in n.vectors
      ensures VectorItem(n, v, w).weight == w && (VectorItem(n, v, w).members * q != {} <==> VectorBelongs(n, v, q))
    {
      VectorIs(n, v, w, q);
      assert VectorItem(n, v, w).weight == w by { ItemWeight(n, v, w); }
    }
    ItemsTotal(n.hits, HitItems(n), q, HitIn(q), One());
    ItemsTotal(n.passages, PassageItems(n), q, PassageIn(n, q), One());
    ItemsTotal(n.vectors, VectorItems(n), q, VectorIn(n, q), One());
    ItemsTotal(n.vectors, TokenItems(n), q, VectorIn(n, q), Tokens());
  }

  lemma ItemWeight(n: Inputs, v: Vector, w: nat)
    ensures VectorItem(n, v, w).weight == w
  {
  }

  lemma LineageMetrics(n: Inputs, q: set<string>)
    requires Identified(n)
    ensures Touched(CardItems(n), q) == Total(n.cards, CardIn(n, q), One())
    ensures Touched(PacketItems(n), q) == Total(n.packets, PacketIn(n, q), One())
    ensures Touched(FetchItems(n), q) == Total(n.fetches, FetchIn(q), FetchRequests())
    ensures Touched(FetchByteItems(n), q) == Total(n.fetches, FetchIn(q), FetchBytes())
  {
    hide Touched, Total, CardBelongs, PacketBelongs, Meets, Set, CardQueries, PacketQueries, CardClosed, Unique;
    forall c | c in n.cards ensures CardQueries(RunOf(n), c) * q != {} <==> CardBelongs(n, c, q) { CardIs(n, c, q); }
    forall p | p in n.packets ensures PacketQueries(n, p) * q != {} <==> PacketBelongs(n, p, q) { PacketIs(n, p, q); }
    forall f | f in n.fetches ensures Set(f.queryIds) * q != {} <==> Meets(f.queryIds, q) { MeetsIs(f.queryIds, q); }
    ItemsTotal(n.cards, CardItems(n), q, CardIn(n, q), One());
    ItemsTotal(n.packets, PacketItems(n), q, PacketIn(n, q), One());
    ItemsTotal(n.fetches, FetchItems(n), q, FetchIn(q), FetchRequests());
    ItemsTotal(n.fetches, FetchByteItems(n), q, FetchIn(q), FetchBytes());
  }

  // ---- what the rows say -----------------------------------------------------------------------------

  /** The planned queries of a rule, and those of them that were executed. */
  ghost function ForRule(n: Inputs, rule: string): set<string> { set q | q in n.planned && q.rule == Some(rule) :: q.id }

  ghost function Done(n: Inputs, ids: set<string>): set<string> { set e | e in n.executed && e.id in ids :: e.id }

  lemma DoneIs(n: Inputs, ids: set<string>)
    ensures ids * Ids(n.executed) == Done(n, ids)
  {
    assert forall e :: e in n.executed ==> e.id in Ids(n.executed);
  }

  ghost predicate Observed(n: Inputs, rule: string, t: string) {
    exists c :: c in n.cards && c.relation == Support && Leads(RunOf(n), c, rule) && t in c.mechanismTagIds
  }

  /** Packets support, plans without any query say so, and so do plans of which no query was executed. */
  ghost predicate StatusIs(n: Inputs, rule: string, status: Status) {
    if exists p :: p in n.packets && p.ruleId == rule then status == SearchSupported
    else if forall q :: q in n.planned ==> q.rule != Some(rule) then status == NotPlanned
    else if forall q :: q in n.executed ==> q.id !in ForRule(n, rule) then status == NotExecuted
    else status == EvidenceInsufficient
  }

  /** A bridge row: status, tags required, observed and missing, cards and packet of the rule, and its queries' counts. */
  lemma BridgeRowMeans(n: Inputs, rule: Rule)
    requires Keyed(n) && CardsClosed(n)
    ensures var r := BridgeRowOf(n, rule);
            && r.ruleId == rule.id && StatusIs(n, rule.id, r.status)
            && Lists(r.required, set t | t in rule.requiredTagIds)
            && StrictlySorted(r.observed) && (forall t :: t in r.observed <==> Observed(n, rule.id, t))
            && StrictlySorted(r.missing) && (forall t :: t in r.missing <==> t in rule.requiredTagIds && !Observed(n, rule.id, t))
            && Lists(r.cardIds, set c | c in n.cards && Leads(RunOf(n), c, rule.id) :: c.id)
            && r.planned == |ForRule(n, rule.id)| && r.executed == |Done(n, ForRule(n, rule.id))|
            && r.metrics == MetricsOf(n, ForRule(n, rule.id))
            && (if exists p :: p in n.packets && p.ruleId == rule.id
                then |r.packetIds| == 1 && exists p :: p in n.packets && p.ruleId == rule.id && r.packetIds == [p.id]
                else r.packetIds == [])
  {
    forall c | c in n.cards ensures rule.id in CardRules(RunOf(n), c) <==> Leads(RunOf(n), c, rule.id) { CardLinks(RunOf(n), c); }
    hide CardRules, Leads, CardsClosed, Unique, MetricsOf, Keyed;
    var queries := ForRule(n, rule.id);
    assert queries == RuleQueries(n, rule.id);
    DoneIs(n, queries);
    var required, observed := (set t | t in rule.requiredTagIds), ObservedTags(n, rule.id);
    assert forall t :: t in observed <==> Observed(n, rule.id, t);
    assert RuleCards(n, rule.id) == set c | c in n.cards && Leads(RunOf(n), c, rule.id) :: c.id;
    SortedIsSorted(required);
    SortedIsSorted(observed);
    SortedIsSorted(required - observed);
    SortedIsSorted(RuleCards(n, rule.id));
    StatusOf(n, rule);
    hide Sorted, StrictlySorted, Observed, RuleCards, ObservedTags;
  }

  lemma StatusOf(n: Inputs, rule: Rule)
    requires CardsClosed(n)
    ensures StatusIs(n, rule.id, BridgeRowOf(n, rule).status)
    ensures PacketOf(n, rule.id).Some? <==> exists p :: p in n.packets && p.ruleId == rule.id
  {
    NoneAre(n, rule);
    hide CardsClosed, MetricsOf, ObservedTags, RuleCards, Sorted, RuleQueries, ForRule, Done, PacketOf, Ids;
  }

  lemma NoneAre(n: Inputs, rule: Rule)
    ensures PacketOf(n, rule.id).Some? <==> exists p :: p in n.packets && p.ruleId == rule.id
    ensures RuleQueries(n, rule.id) == {} <==> forall q :: q in n.planned ==> q.rule != Some(rule.id)
    ensures RuleQueries(n, rule.id) * Ids(n.executed) == {} <==> forall q :: q in n.executed ==> q.id !in ForRule(n, rule.id)
  {
    var queries := RuleQueries(n, rule.id);
    assert queries == ForRule(n, rule.id);
    forall q | q in n.planned && q.rule == Some(rule.id) ensures q.id in queries {}
    DoneIs(n, queries);
    forall q | q in n.executed && q.id in queries ensures q.id in Done(n, queries) {}
  }

  /** A query row and a tag row: what was planned, what was executed, and the counts of their queries. */
  lemma QueryAndTagRowsMean(n: Inputs, q: Query, t: Tag)
    requires CardsClosed(n)
    ensures var r := QueryRowOf(n, q);
            && r.queryId == q.id && Lists(r.tagIds, set x | x in q.tagIds)
            && (r.executed <==> exists e :: e in n.executed && e.id == q.id) && r.metrics == MetricsOf(n, {q.id})
    ensures var r, ids := TagRowOf(n, t), set p | p in n.planned && t.id in p.tagIds :: p.id;
            && r.tagId == t.id && r.planned == |ids| && r.executed == |Done(n, ids)| && r.metrics == MetricsOf(n, ids)
  {
    hide CardsClosed, MetricsOf;
    SortedIsSorted(set x | x in q.tagIds);
    DoneIs(n, TagQueries(n, t.id));
  }

  /** What the row validators accept, of any rows whatever. */
  lemma QueryAndTagRowsValidIff(q: QueryRow, t: TagRow)
    ensures QueryRowValid(q) <==> StrictlySorted(q.tagIds) && q.metrics.requests == q.metrics.successes + q.metrics.failures
    ensures TagRowValid(t) <==> t.executed <= t.planned && t.metrics.requests == t.metrics.successes + t.metrics.failures
  {
    SortedUniqueIff(q.tagIds);
    hide StrictlySorted, Sorted, FeedbackReview.SortedUnique;
  }

  lemma AnyBridgeRowValidIff(r: BridgeRow)
    ensures BridgeRowValid(r) <==>
              && |r.observed| <= 32 && |r.cardIds| <= 256
              && StrictlySorted(r.required) && StrictlySorted(r.observed) && StrictlySorted(r.missing)
              && StrictlySorted(r.cardIds) && StrictlySorted(r.packetIds)
              && (forall x :: x in r.missing <==> x in r.required && x !in r.observed)
              && r.executed <= r.planned && r.metrics.requests == r.metrics.successes + r.metrics.failures
              && r.metrics.evidence == |r.cardIds| && r.metrics.packets == |r.packetIds|
              && (r.packetIds != [] <==> r.status == SearchSupported)
  {
    hide StrictlySorted, Sorted, FeedbackReview.SortedUnique;
    SortedUniqueIff(r.required);
    SortedUniqueIff(r.observed);
    SortedUniqueIff(r.missing);
    SortedUniqueIff(r.cardIds);
    SortedUniqueIff(r.packetIds);
    if StrictlySorted(r.missing) { MissingIff(r.required, r.observed, r.missing); }
  }

  lemma MissingIff(required: seq<string>, observed: seq<string>, missing: seq<string>)
    requires StrictlySorted(missing)
    ensures missing == Sorted((set t | t in required) - (set t | t in observed)) <==>
              forall x :: x in missing <==> x in required && x !in observed
  {
    var left := (set t | t in required) - (set t | t in observed);
    SortedIsSorted(left);
    assert forall x :: x in left <==> x in required && x !in observed;
    hide StrictlySorted;
    if forall x :: x in missing <==> x in left { Ordering.SortedUnique(missing, Sorted(left)); }
  }

  lemma SortedUniqueIff(s: seq<string>)
    ensures FeedbackReview.SortedUnique(s) <==> StrictlySorted(s)
  {
    var all := set x | x in s;
    SortedIsSorted(all);
    if StrictlySorted(s) { Ordering.SortedUnique(s, Sorted(all)); }
  }

  // ---- which inputs are compiled ---------------------------------------------------------------------

  /** Inputs conflict when two different records of a kind share an identifier; attempts are identified by query and number. */
  lemma ConsistentMeans(raw: Inputs)
    ensures RawConsistent(raw) <==>
              && (forall x, y :: x in raw.planned && y in raw.planned && x.id == y.id ==> x == y)
              && (forall x, y :: x in raw.executed && y in raw.executed && x.id == y.id ==> x == y)
              && (forall x, y :: x in raw.attempts && y in raw.attempts && x.queryId == y.queryId && x.number == y.number ==> x == y)
              && (forall x, y :: x in raw.hits && y in raw.hits && x.id == y.id ==> x == y)
              && (forall x, y :: x in raw.passages && y in raw.passages && x.id == y.id ==> x == y)
              && (forall x, y :: x in raw.cards && y in raw.cards && x.id == y.id ==> x == y)
              && (forall x, y :: x in raw.packets && y in raw.packets && x.id == y.id ==> x == y)
              && (forall x, y :: x in raw.fetches && y in raw.fetches && x.documentId == y.documentId ==> x == y)
              && (forall x, y :: x in raw.vectors && y in raw.vectors && x.passageId == y.passageId ==> x == y)
  {
  }

  /** Normalized inputs are identified by their identifiers. */
  lemma NormalIsKeyed(n: Inputs, raw: Inputs)
    requires NormalOf(n, raw) && raw.graph.Valid()
    ensures Keyed(n)
  {
    hide Normalizing.Normalized, Normalizing.SameMembers;
    NormalIsUnique(n.planned, QueryKey, QueryId);
    NormalIsUnique(n.hits, HitKey, HitId);
    NormalIsUnique(n.passages, PassageKey, PassageId);
    NormalIsUnique(n.cards, CardRecordKey, CardId);
  }

  /** Every card a rule led to belongs to a query of the rule. */
  ghost predicate TracedBack(n: Inputs, rule: string) {
    forall c :: c in n.cards && Leads(RunOf(n), c, rule) ==> CardBelongs(n, c, ForRule(n, rule))
  }

  /** The cards of the rule, and the tags its SUPPORT cards carry, are few enough for a row. */
  ghost predicate RowHolds(n: Inputs, rule: string) {
    && |set c | c in n.cards && Leads(RunOf(n), c, rule) :: c.id| <= 256
    && |set c, t | c in n.cards && c.relation == Support && Leads(RunOf(n), c, rule) && t in c.mechanismTagIds :: t| <= 32
  }

  lemma RowFitsIff(n: Inputs, rule: string)
    requires Keyed(n) && CardsClosed(n)
    ensures RowFits(n, rule) <==> TracedBack(n, rule) && RowHolds(n, rule)
  {
    forall c | c in n.cards
      ensures rule in CardRules(RunOf(n), c) <==> Leads(RunOf(n), c, rule)
      ensures CardQueries(RunOf(n), c) * RuleQueries(n, rule) != {} <==> CardBelongs(n, c, ForRule(n, rule))
    {
      CardLinks(RunOf(n), c);
      assert RuleQueries(n, rule) == ForRule(n, rule);
      CardIs(n, c, ForRule(n, rule));
    }
    hide CardRules, Leads, CardsClosed, Unique, CardQueries, CardBelongs, RuleQueries, ForRule, CardClosed;
    assert RuleCards(n, rule) == set c | c in n.cards && Leads(RunOf(n), c, rule) :: c.id;
    assert ObservedTags(n, rule) == set c, t | c in n.cards && c.relation == Support && Leads(RunOf(n), c, rule) && t in c.mechanismTagIds :: t;
  }

  /** Normalized inputs are compiled exactly when their records link up and the rows can hold what the rules led to. */
  lemma CompiledIff(n: Inputs, raw: Inputs)
    requires NormalOf(n, raw) && raw.graph.Valid()
    ensures CompileAccepts(n) <==>
              && QueriesLink(n) && DocumentsLink(n) && CardsLink(n)
              && (forall p :: p in n.packets ==> PacketLinks(n, p))
              && (forall i, j :: 0 <= i < j < |n.packets| ==> n.packets[i].ruleId != n.packets[j].ruleId)
              && |n.planned| <= 512
              && forall rule :: rule in n.graph.rules ==> TracedBack(n, rule.id) && RowHolds(n, rule.id)
  {
    NormalIsKeyed(n, raw);
    LinksIff(n);
    CardsLinkIff(n);
    if CardsClosed(n) {
      forall rule | rule in n.graph.rules ensures RowFits(n, rule.id) <==> TracedBack(n, rule.id) && RowHolds(n, rule.id) {
        RowFitsIff(n, rule.id);
      }
    }
    hide QueriesLink, DocumentsLink, CardsLink, PacketLinks, QueriesAccepted, DocumentsAccepted, PacketOk, Keyed, NormalOf, TracedBack, RowHolds, RowFits, CardsClosed;
  }
}
