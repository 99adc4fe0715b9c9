/**
 * Lineage of the tag-feedback review (`inspiration/feedback.py`): cards and packets are traced back to
 * queries, and what belongs to a set of queries is counted inclusively. A bridge row compares these
 * counts with its identifier lists; here is exactly when they agree.
 */
module FeedbackLineage {
  import opened BridgePackets
  import opened EvidenceCards
  import opened EvidenceModels
  import Normalizing
  import opened Ordering
  import opened Wrappers

  datatype Attempt = Attempt(queryId: string, number: nat, success: bool, bytes: nat)
  datatype Fetch = Fetch(documentId: string, queryIds: seq<string>, requests: nat, bytes: nat)
  datatype Vector = Vector(passageId: string, tokens: nat)

  datatype Inputs = Inputs(
    graph: Graph, planned: seq<Query>, executed: seq<Query>, attempts: seq<Attempt>, hits: seq<Hit>, passages: seq<Passage>,
    cards: seq<Card>, packets: seq<Packet>, fetches: seq<Fetch>, vectors: seq<Vector>)

  /** The run the lineage is traced through; queries are looked up in the plan. */
  function RunOf(n: Inputs): Run { Run(n.graph, n.planned, n.hits, n.passages) }

  function Ids(queries: seq<Query>): set<string> { set q | q in queries :: q.id }

  // ---- additive metrics -----------------------------------------------------------------------------

  /** Something that counts for a row if it belongs to one of the row's queries. */
  datatype Item = Item(members: set<string>, weight: nat)

  function Touched(items: seq<Item>, q: set<string>): nat {
    if items == [] then 0
    else Touched(items[..|items| - 1], q) + (if items[|items| - 1].members * q != {} then items[|items| - 1].weight else 0)
  }

  function Set(qs: seq<string>): set<string> { set q | q in qs }

  function SumSingles(items: seq<Item>, qs: seq<string>): nat {
    if qs == [] then 0 else SumSingles(items, qs[..|qs| - 1]) + Touched(items, {qs[|qs| - 1]})
  }

  lemma {:induction false} TouchedMonotone(items: seq<Item>, a: set<string>, b: set<string>)
    requires a <= b
    ensures Touched(items, a) <= Touched(items, b)
  {
    if items != [] {
      TouchedMonotone(items[..|items| - 1], a, b);
      var m := items[|items| - 1].members;
      assert m * a != {} ==> m * b != {} by {
        if m * a != {} { var x :| x in m * a; assert x in m * b; }
      }
    }
  }

  lemma {:induction false} TouchedUnion(items: seq<Item>, a: set<string>, b: set<string>)
    ensures Touched(items, a + b) <= Touched(items, a) + Touched(items, b)
  {
    if items != [] {
      TouchedUnion(items[..|items| - 1], a, b);
      var m := items[|items| - 1].members;
      assert m * (a + b) == m * a + m * b;
    } 
  }

  lemma {:induction false} TouchedNothing(items: seq<Item>)
    ensures Touched(items, {}) == 0
  {
    if items != [] { TouchedNothing(items[..|items| - 1]); }
  }

  /** An inclusive metric is at least that of any of its queries and at most the sum of them all. */
  lemma {:induction false} TouchedBounds(items: seq<Item>, qs: seq<string>)
    ensures forall q :: q in qs ==> Touched(items, {q}) <= Touched(items, Set(qs))
    ensures Touched(items, Set(qs)) <= SumSingles(items, qs)
  {
    forall q | q in qs ensures Touched(items, {q}) <= Touched(items, Set(qs)) { TouchedMonotone(items, {q}, Set(qs)); }
    if qs == [] {
      assert Set(qs) == {};
      TouchedNothing(items);
    } else {
      var init, last := qs[..|qs| - 1], qs[|qs| - 1];
      TouchedBounds(items, init);
      assert qs == init + [last];
      assert Set(qs) == Set(init) + {last};
      TouchedUnion(items, Set(init), {last});
    }
  }

  ghost predicate Singletons(items: seq<Item>) { forall x :: x in items ==> |x.members| == 1 }

  /** Items of one query each are split without overlap. */
  lemma {:induction false} TouchedDisjoint(items: seq<Item>, a: set<string>, b: set<string>)
    requires Singletons(items) && a * b == {}
    ensures Touched(items, a + b) == Touched(items, a) + Touched(items, b)
  {
    if items != [] {
      var init, last := items[..|items| - 1], items[|items| - 1];
      assert items == init + [last];
      TouchedDisjoint(init, a, b);
      assert last in items;
      var x := OneMember(last.members);
      assert last.members * a == (if x in a then {x} else {});
      assert last.members * b == (if x in b then {x} else {});
      assert last.members * (a + b) == (if x in a + b then {x} else {});
      assert a !! b;
    }
  }

  lemma OneMember(m: set<string>) returns (x: string)
    requires |m| == 1
    ensures m == {x}
  {
    x :| x in m;
    assert |m - {x}| == 0;
    assert m - {x} == {};
  }

  lemma {:induction false} SinglesPartition(items: seq<Item>, qs: seq<string>)
    requires Singletons(items) && Distinct(qs)
    ensures SumSingles(items, qs) == Touched(items, Set(qs))
  {
    if qs == [] {
      assert Set(qs) == {};
      TouchedNothing(items);
    } else {
      var init, last := qs[..|qs| - 1], qs[|qs| - 1];
      SinglesPartition(items, init);
      assert qs == init + [last];
      assert Set(qs) == Set(init) + {last};
      TouchedDisjoint(items, Set(init), {last});
    }
  }

  lemma {:induction false} TouchedAll(items: seq<Item>, q: set<string>)
    requires forall x :: x in items ==> x.members <= q && x.members != {} && x.weight == 1
    ensures Touched(items, q) == |items|
  {
    if items != [] {
      var init, last := items[..|items| - 1], items[|items| - 1];
      assert items == init + [last];
      TouchedAll(init, q);
      assert last in items && last.members * q == last.members;
    }
  }

  // ---- lineage ------------------------------------------------------------------------------------------

  function HitQueries(run: Run, passageId: string): set<string>
    requires PassageClosed(run, passageId)
  {
    set q | q in HitOf(run, PassageOf(run, passageId).value).value.queryIds
  }

  /** A card is traced through the hit of its least passage. */
  function CardQueries(run: Run, c: Card): set<string>
    requires CardClosed(run, c)
  {
    var ids := set id | id in c.passageIds;
    if ids == {} then {} else HitQueries(run, Least(ids))
  }

  function CardById(n: Inputs, id: string): Option<Card> { Lookup(n.cards, CardId, id) }

  predicate CardsClosed(n: Inputs) { forall c :: c in n.cards ==> CardClosed(RunOf(n), c) && |CardRules(RunOf(n), c)| <= 1 && c.passageIds != [] }

  function PacketQueries(n: Inputs, p: Packet): set<string>
    requires CardsClosed(n)
  {
    set id, q | id in p.cardIds && CardById(n, id).Some? && q in CardQueries(RunOf(n), CardById(n, id).value) :: q
  }

  predicate PassageInput(n: Inputs, p: Passage) { HitOf(RunOf(n), p).Some? && HitOf(RunOf(n), p).value.documentId == p.documentId }

  /** The checks up to the cards, each on the lists as given. */
  predicate QueriesAccepted(n: Inputs) {
    && n.planned != []
    && (forall q :: q in n.executed ==> Lookup(n.planned, QueryId, q.id) == Some(q))
    && (forall q :: q in n.planned ==> TagsKnown(n.graph, q.tagIds))
    && (forall q :: q in n.planned && q.rule.Some? ==> Lookup(n.graph.rules, RuleId, q.rule.value).Some?)
    && (forall a :: a in n.attempts ==> a.queryId in Ids(n.planned))
    && (forall q :: q in n.executed ==> exists a :: a in n.attempts && a.queryId == q.id && a.success)
  }

  predicate DocumentsAccepted(n: Inputs) {
    && (forall h :: h in n.hits ==> forall q :: q in h.queryIds ==> q in Ids(n.executed))
    && (forall p :: p in n.passages ==> PassageInput(n, p))
    && (forall v :: v in n.vectors ==> PassageOf(RunOf(n), v.passageId).Some?)
    && (forall f :: f in n.fetches ==> forall q :: q in f.queryIds ==> q in Ids(n.executed))
  }

  predicate PacketOk(n: Inputs, p: Packet)
    requires CardsClosed(n)
  {
    && Lookup(n.graph.rules, RuleId, p.ruleId).Some?
    && p.cardIds != []
    && (forall id :: id in p.cardIds ==> CardById(n, id).Some? && p.ruleId in CardRules(RunOf(n), CardById(n, id).value))
    && forall t :: t in Lookup(n.graph.rules, RuleId, p.ruleId).value.requiredTagIds ==>
         exists id :: id in p.cardIds && CardById(n, id).value.relation.Support? && t in CardById(n, id).value.mechanismTagIds
  }

  predicate PacketsAccepted(n: Inputs)
    requires CardsClosed(n)
  {
    && (forall p :: p in n.packets ==> PacketOk(n, p))
    && forall i, j :: 0 <= i < j < |n.packets| ==> n.packets[i].ruleId != n.packets[j].ruleId
  }

  predicate LinksAccepted(n: Inputs) {
    QueriesAccepted(n) && DocumentsAccepted(n) && CardsClosed(n) && PacketsAccepted(n)
  }

  // ---- rows -----------------------------------------------------------------------------------------------

  function RuleQueries(n: Inputs, rule: string): set<string> { set q | q in n.planned && q.rule == Some(rule) :: q.id }

  function CardItems(n: Inputs): seq<Item>
    requires CardsClosed(n)
  {
    seq(|n.cards|, i requires 0 <= i < |n.cards| => Item(CardQueries(RunOf(n), n.cards[i]), 1))
  }

  function PacketItems(n: Inputs): seq<Item>
    requires CardsClosed(n)
  {
    seq(|n.packets|, i requires 0 <= i < |n.packets| => Item(PacketQueries(n, n.packets[i]), 1))
  }

  function RuleCards(n: Inputs, rule: string): set<string>
    requires CardsClosed(n)
  {
    set c | c in n.cards && rule in CardRules(RunOf(n), c) :: c.id
  }

  function RulePackets(n: Inputs, rule: string): set<Packet> { set p | p in n.packets && p.ruleId == rule }

  /** The card is traced, through its least passage, to a query of its own rule. */
  predicate TracedToRule(n: Inputs, c: Card, rule: string)
    requires CardsClosed(n) && c in n.cards
  {
    CardQueries(RunOf(n), c) * RuleQueries(n, rule) != {}
  }

  predicate AllTraced(n: Inputs, rule: string)
    requires CardsClosed(n)
  {
    forall c :: c in n.cards && rule in CardRules(RunOf(n), c) ==> TracedToRule(n, c, rule)
  }

  /** The counts a bridge row's validator compares: lineage metrics against the identifier lists. */
  ghost predicate CountsAgree(n: Inputs, rule: string)
    requires CardsClosed(n)
  {
    && Touched(CardItems(n), RuleQueries(n, rule)) == |RuleCards(n, rule)|
    && Touched(PacketItems(n), RuleQueries(n, rule)) == |RulePackets(n, rule)|
  }

  // ---- when the two counts agree --------------------------------------------------------------------------

  function Members<T>(xs: seq<T>, belongs: seq<bool>, k: nat): set<T>
    requires |belongs| == |xs| && k <= |xs|
  {
    if k == 0 then {} else Members(xs, belongs, k - 1) + (if belongs[k - 1] then {xs[k - 1]} else {})
  }

  lemma {:induction false} MembersAre<T(!new)>(xs: seq<T>, belongs: seq<bool>, k: nat)
    requires |belongs| == |xs| && k <= |xs|
    ensures forall x :: x in Members(xs, belongs, k) <==> exists i :: 0 <= i < k && belongs[i] && xs[i] == x
  {
    if k > 0 { MembersAre(xs, belongs, k - 1); }
  }

  /** Touched items are among the members, so their number is the same exactly when every member is touched. */
  lemma {:induction false} CountAgainst<T(!new)>(xs: seq<T>, belongs: seq<bool>, items: seq<Item>, q: set<string>, k: nat)
    requires |belongs| == |xs| == |items| && k <= |xs|
    requires forall i, j :: 0 <= i < j < |xs| ==> xs[i] != xs[j]
    requires forall i :: 0 <= i < |items| ==> items[i].weight == 1 && (items[i].members * q != {} ==> belongs[i])
    ensures Touched(items[..k], q) <= |Members(xs, belongs, k)|
    ensures Touched(items[..k], q) == |Members(xs, belongs, k)| <==>
              forall i :: 0 <= i < k && belongs[i] ==> items[i].members * q != {}
  {
    hide Members, Touched;
    if k == 0 {
      assert Members(xs, belongs, 0) == {} && Touched([], q) == 0 by { NothingCounts(xs, belongs, q); }
    } else {
      MembersStep(xs, belongs, k);
      TouchedStep(items, q, k);
      CountAgainst(xs, belongs, items, q, k - 1);
    }
  }

  lemma NothingCounts<T(!new)>(xs: seq<T>, belongs: seq<bool>, q: set<string>)
    requires |belongs| == |xs|
    ensures Members(xs, belongs, 0) == {} && Touched([], q) == 0
  {
  }

  lemma MembersStep<T(!new)>(xs: seq<T>, belongs: seq<bool>, k: nat)
    requires |belongs| == |xs| && 0 < k <= |xs|
    requires forall i, j :: 0 <= i < j < |xs| ==> xs[i] != xs[j]
    ensures |Members(xs, belongs, k)| == |Members(xs, belongs, k - 1)| + (if belongs[k - 1] then 1 else 0)
  {
    MembersAre(xs, belongs, k - 1);
    assert xs[k - 1] !in Members(xs, belongs, k - 1);
  }

  lemma TouchedStep(items: seq<Item>, q: set<string>, k: nat)
    requires 0 < k <= |items|
    ensures Touched(items[..k], q) == Touched(items[..k - 1], q) + (if items[k - 1].members * q != {} then items[k - 1].weight else 0)
  {
    assert items[..k][..k - 1] == items[..k - 1];
  }

  /** A query behind a card that belongs to the rule makes the rule one of the card's rules. */
  lemma TracedMeansRule(n: Inputs, c: Card, rule: string)
    requires CardsClosed(n) && c in n.cards && Unique(n.planned, QueryId)
    requires TracedToRule(n, c, rule)
    ensures rule in CardRules(RunOf(n), c)
  {
    var run := RunOf(n);
    var q :| q in CardQueries(run, c) * RuleQueries(n, rule);
    var query :| query in n.planned && query.rule == Some(rule) && query.id == q;
    LookupOwn(n.planned, QueryId, query);
    var id := Least(set id | id in c.passageIds);
    assert PassageClosed(run, id);
    assert rule in RuleIds(run, HitOf(run, PassageOf(run, id).value).value);
  }

  function CardFlags(n: Inputs, rule: string): seq<bool>
    requires CardsClosed(n)
  {
    seq(|n.cards|, i requires 0 <= i < |n.cards| => rule in CardRules(RunOf(n), n.cards[i]))
  }

  function PacketFlags(n: Inputs, rule: string): seq<bool> {
    seq(|n.packets|, i requires 0 <= i < |n.packets| => n.packets[i].ruleId == rule)
  }

  /** `rule_card_ids` counts the cards of the rule. */
  lemma RuleCardsCount(n: Inputs, rule: string)
    requires CardsClosed(n) && Unique(n.cards, CardId)
    ensures |RuleCards(n, rule)| == |Members(n.cards, CardFlags(n, rule), |n.cards|)|
  {
    hide CardClosed, CardRules;
    var flags := CardFlags(n, rule);
    MembersAre(n.cards, flags, |n.cards|);
    var members := Members(n.cards, flags, |n.cards|);
    forall c ensures c in members <==> c in n.cards && rule in CardRules(RunOf(n), c) {}
    IdsCount(members, RuleCards(n, rule)) by {
      forall c, d | c in members && d in members && c != d ensures c.id != d.id {
        LookupOwn(n.cards, CardId, c);
        LookupOwn(n.cards, CardId, d);
      }
    }
  }

  lemma {:induction false} IdsCount(cards: set<Card>, ids: set<string>)
    requires ids == set c | c in cards :: c.id
    requires forall c, d :: c in cards && d in cards && c != d ==> c.id != d.id
    ensures |cards| == |ids|
  {
    if cards == {} {
      assert ids == {};
    } else {
      var c :| c in cards;
      assert ids - {c.id} == set d | d in cards - {c} :: d.id;
      IdsCount(cards - {c}, ids - {c.id});
    }
  }

  /** Evidence: the two counts of a bridge row agree exactly when every card of the rule is traced to one of its queries. */
  lemma EvidenceCountsAgree(n: Inputs, rule: string)
    requires CardsClosed(n) && Unique(n.cards, CardId) && Unique(n.planned, QueryId)
    ensures Touched(CardItems(n), RuleQueries(n, rule)) <= |RuleCards(n, rule)|
    ensures Touched(CardItems(n), RuleQueries(n, rule)) == |RuleCards(n, rule)| <==> AllTraced(n, rule)
  {
    hide CardClosed, CardRules, CardQueries, RuleQueries, AllTraced, Touched, Members;
    var q, items, flags := RuleQueries(n, rule), CardItems(n), CardFlags(n, rule);
    forall i | 0 <= i < |items| ensures items[i].weight == 1 && (items[i].members * q != {} ==> flags[i]) {
      if items[i].members * q != {} {
        assert n.cards[i] in n.cards;
        TracedMeansRule(n, n.cards[i], rule);
      }
    }
    assert forall i, j :: 0 <= i < j < |n.cards| ==> CardId(n.cards[i]) != CardId(n.cards[j]);
    CountAgainst(n.cards, flags, items, q, |items|);
    assert items[..|items|] == items;
    RuleCardsCount(n, rule);
    assert AllTraced(n, rule) <==> forall i :: 0 <= i < |items| && flags[i] ==> items[i].members * q != {} by {
      TracedByIndex(n, rule);
    }
  }

  lemma TracedByIndex(n: Inputs, rule: string)
    requires CardsClosed(n)
    ensures AllTraced(n, rule) <==>
              forall i :: 0 <= i < |n.cards| && CardFlags(n, rule)[i] ==> CardItems(n)[i].members * RuleQueries(n, rule) != {}
  {
    hide CardClosed, CardRules, CardQueries, RuleQueries;
    if AllTraced(n, rule) {
      forall i | 0 <= i < |n.cards| && CardFlags(n, rule)[i] ensures CardItems(n)[i].members * RuleQueries(n, rule) != {} {
        assert n.cards[i] in n.cards && TracedToRule(n, n.cards[i], rule);
      }
    }
    if forall i :: 0 <= i < |n.cards| && CardFlags(n, rule)[i] ==> CardItems(n)[i].members * RuleQueries(n, rule) != {} {
      forall c | c in n.cards && rule in CardRules(RunOf(n), c) ensures TracedToRule(n, c, rule) {
        var i :| 0 <= i < |n.cards| && n.cards[i] == c;
        assert CardFlags(n, rule)[i];
      }
    }
  }

  /** A packet is never counted for another rule, and is counted for its own if one of its cards is traced. */
  lemma PacketCountsAgree(n: Inputs, rule: string)
    requires CardsClosed(n) && PacketsAccepted(n) && Unique(n.cards, CardId) && Unique(n.planned, QueryId) && AllTraced(n, rule)
    ensures Touched(PacketItems(n), RuleQueries(n, rule)) == |RulePackets(n, rule)|
  {
    hide CardClosed, CardRules, CardQueries, RuleQueries, CardsClosed, PacketOk, AllTraced, PacketQueries, Members, Touched;
    var q, items, flags := RuleQueries(n, rule), PacketItems(n), PacketFlags(n, rule);
    forall i | 0 <= i < |items|
      ensures items[i].weight == 1 && (items[i].members * q != {} <==> flags[i])
    {
      assert n.packets[i] in n.packets;
      PacketCountedIff(n, n.packets[i], rule);
    }
    assert forall i, j :: 0 <= i < j < |n.packets| ==> n.packets[i].ruleId != n.packets[j].ruleId;
    CountAgainst(n.packets, flags, items, q, |items|);
    assert items[..|items|] == items;
    MembersAre(n.packets, flags, |n.packets|);
    assert RulePackets(n, rule) == Members(n.packets, flags, |n.packets|);
  }

  lemma PacketCountedIff(n: Inputs, p: Packet, rule: string)
    requires CardsClosed(n) && p in n.packets && PacketOk(n, p) && Unique(n.planned, QueryId) && AllTraced(n, rule)
    ensures PacketQueries(n, p) * RuleQueries(n, rule) != {} <==> p.ruleId == rule
  {
    hide CardClosed, CardRules, CardQueries, RuleQueries;
    var q := RuleQueries(n, rule);
    if PacketQueries(n, p) * q != {} {
      var x :| x in PacketQueries(n, p) * q;
      var id :| id in p.cardIds && CardById(n, id).Some? && x in CardQueries(RunOf(n), CardById(n, id).value);
      var c := CardById(n, id).value;
      assert x in CardQueries(RunOf(n), c) * q;
      TracedMeansRule(n, c, rule);
      OnlyRule(CardRules(RunOf(n), c), rule);
    }
    if p.ruleId == rule {
      var c := CardById(n, p.cardIds[0]).value;
      assert p.cardIds[0] in p.cardIds;
      assert TracedToRule(n, c, rule);
      var x :| x in CardQueries(RunOf(n), c) * q;
      assert x in PacketQueries(n, p) * q;
    }
  }

  /**
   * A bridge row's counts agree with its identifier lists exactly when every card of the rule is
   * traced, through its least passage, to a query of that rule.
   */
  lemma CountsAgreeIff(n: Inputs, rule: string)
    requires CardsClosed(n) && PacketsAccepted(n) && Unique(n.cards, CardId) && Unique(n.planned, QueryId)
    ensures CountsAgree(n, rule) <==> AllTraced(n, rule)
  {
    hide AllTraced, CardsClosed, PacketsAccepted, CardItems, PacketItems, RuleQueries, RuleCards, RulePackets;
    EvidenceCountsAgree(n, rule);
    if AllTraced(n, rule) { PacketCountsAgree(n, rule); }
  }

  /** The feedback inputs of a pipeline run: the plan extends the executed queries; the rest are the run's own records in any order. */
  ghost predicate FromPipeline(n: Inputs, run: Run, cards: seq<Card>) {
    && n.graph == run.graph
    && (forall q :: q in n.executed <==> q in run.queries) && (forall q :: q in n.executed ==> q in n.planned)
    && (forall h :: h in n.hits <==> h in run.hits) && (forall p :: p in n.passages <==> p in run.passages)
    && (forall c :: c in n.cards <==> c in cards)
    && Unique(n.planned, QueryId) && Unique(n.hits, HitId) && Unique(n.passages, PassageId) && Unique(n.cards, CardId)
  }

  lemma SameLookups(n: Inputs, run: Run, cards: seq<Card>)
    requires FromPipeline(n, run, cards) && Unique(run.queries, QueryId) && Unique(run.hits, HitId) && Unique(run.passages, PassageId)
    ensures forall id :: Lookup(n.passages, PassageId, id) == Lookup(run.passages, PassageId, id)
    ensures forall id :: Lookup(n.hits, HitId, id) == Lookup(run.hits, HitId, id)
    ensures forall id :: Lookup(run.queries, QueryId, id).Some? ==> Lookup(n.planned, QueryId, id) == Lookup(run.queries, QueryId, id)
  {
    forall id ensures Lookup(n.passages, PassageId, id) == Lookup(run.passages, PassageId, id) {
    }
    forall id ensures Lookup(n.hits, HitId, id) == Lookup(run.hits, HitId, id) {
    }
    forall id | Lookup(run.queries, QueryId, id).Some? ensures Lookup(n.planned, QueryId, id) == Lookup(run.queries, QueryId, id) {
      var q := Lookup(run.queries, QueryId, id).value;
      assert q in n.executed;
      LookupOwn(n.planned, QueryId, q);
    }
  }

  /** A pipeline card is closed in the plan as well, reaches the same rules, and is traced to all of them. */
  lemma PipelineCardIsTraced(n: Inputs, run: Run, cards: seq<Card>, c: Card, p: Passage, idOf: CardKey -> string)
    requires FromPipeline(n, run, cards) && Unique(run.queries, QueryId) && Unique(run.hits, HitId) && Unique(run.passages, PassageId)
    requires CardFrom(run, c, p, idOf)
    ensures CardClosed(RunOf(n), c) && c.passageIds == [p.id]
    ensures CardClosed(run, c) && CardRules(RunOf(n), c) == CardRules(run, c) && |CardRules(run, c)| <= 1
    ensures CardQueries(RunOf(n), c) == set q | q in HitOf(run, p).value.queryIds
  {
    hide FromPipeline, CardFrom, CardClosed, CardRules, CardQueries, Unique, Lookup;
    CardRulesAre(run, c, p, idOf);
    OnePassage(run, c, p, idOf);
    PassageIsPlanned(n, run, cards, c, p, idOf);
    PlannedRules(n, run, cards, c, p, idOf);
    OnePassageCard(RunOf(n), c, p, HitOf(run, p).value);
  }

  lemma PassageIsPlanned(n: Inputs, run: Run, cards: seq<Card>, c: Card, p: Passage, idOf: CardKey -> string)
    requires FromPipeline(n, run, cards) && Unique(run.queries, QueryId) && Unique(run.hits, HitId) && Unique(run.passages, PassageId)
    requires CardFrom(run, c, p, idOf)
    ensures PassageOf(RunOf(n), p.id) == Some(p) && HitOf(run, p).Some?
    ensures HitOf(RunOf(n), p) == HitOf(run, p) && HitClosed(RunOf(n), HitOf(run, p).value)
  {
    SameLookups(n, run, cards);
    assert HitClosed(run, HitOf(run, p).value);
    hide Lookup, MechanismSet, CardOf, Unique, FromPipeline;
  }

  /** What a card with one passage is traced to. */
  lemma OnePassageCard(run: Run, c: Card, p: Passage, h: Hit)
    requires PassageOf(run, p.id) == Some(p) && HitOf(run, p) == Some(h) && HitClosed(run, h) && c.passageIds == [p.id]
    ensures CardClosed(run, c) && CardRules(run, c) == RuleIds(run, h)
    ensures CardQueries(run, c) == set q | q in h.queryIds
  {
    hide RuleIds, HitClosed, HitOf;
    assert PassageClosed(run, p.id);
    assert (set id | id in c.passageIds) == {p.id};
  }

  lemma TracedToItsRules(n: Inputs, c: Card, h: Hit, rule: string)
    requires CardsClosed(n) && c in n.cards && CardQueries(RunOf(n), c) == set q | q in h.queryIds
    requires rule in RuleIds(RunOf(n), h)
    ensures TracedToRule(n, c, rule)
  {
    hide CardQueries, CardClosed, CardRules;
    var q :| q in h.queryIds && Lookup(n.planned, QueryId, q).Some? && Lookup(n.planned, QueryId, q).value.rule == Some(rule);
    assert q in CardQueries(RunOf(n), c) * RuleQueries(n, rule);
  }

  /** For pipeline cards every bridge row's counts agree with its identifier lists, whatever the packets. */
  lemma PipelineIsTraced(n: Inputs, run: Run, cards: seq<Card>, sorted: seq<Passage>, idOf: CardKey -> string)
    requires FromEvidence(run, cards, sorted, idOf) && FromPipeline(n, run, cards)
    ensures CardsClosed(n)
    ensures forall rule :: AllTraced(n, rule)
  {
    UniqueInputs(run, cards, sorted, idOf);
    hide FromEvidence, CardFrom, CardClosed, CardRules, CardQueries, Unique, Lookup, TracedToRule;
    forall c | c in n.cards
      ensures CardClosed(RunOf(n), c) && |CardRules(RunOf(n), c)| <= 1 && c.passageIds != []
    {
      CardHasPassage(run, cards, sorted, idOf, c);
      var p :| CardFrom(run, c, p, idOf);
      PipelineCardIsTraced(n, run, cards, c, p, idOf);
    }
    forall rule, c | c in n.cards && rule in CardRules(RunOf(n), c) ensures TracedToRule(n, c, rule) {
      CardHasPassage(run, cards, sorted, idOf, c);
      var p :| CardFrom(run, c, p, idOf);
      PipelineCardIsTraced(n, run, cards, c, p, idOf);
      CardRulesAre(run, c, p, idOf);
      PlannedRules(n, run, cards, c, p, idOf);
      TracedToItsRules(n, c, HitOf(run, p).value, rule);
    }
  }

  lemma UniqueInputs(run: Run, cards: seq<Card>, sorted: seq<Passage>, idOf: CardKey -> string)
    requires FromEvidence(run, cards, sorted, idOf)
    ensures Unique(run.queries, QueryId) && Unique(run.hits, HitId) && Unique(run.passages, PassageId)
  {
  }

  lemma PlannedRules(n: Inputs, run: Run, cards: seq<Card>, c: Card, p: Passage, idOf: CardKey -> string)
    requires FromPipeline(n, run, cards) && Unique(run.queries, QueryId) && Unique(run.hits, HitId) && Unique(run.passages, PassageId)
    requires CardFrom(run, c, p, idOf)
    ensures RuleIds(RunOf(n), HitOf(run, p).value) == RuleIds(run, HitOf(run, p).value)
  {
    SameLookups(n, run, cards);
    var h := HitOf(run, p).value;
    assert HitClosed(run, h);
    hide Lookup, MechanismSet, CardOf, Unique, FromPipeline;
  }
}
