/**
 * Promoting evidence-closed rules to SEARCH_SUPPORTED packets (`inspiration/bridge.py`), with the
 * complete evidence-closure check every packet has to pass (`inspiration/validation.py`).
 */
module BridgePackets {
  import opened EvidenceCards
  import opened EvidenceModels
  import Normalizing
  import opened Ordering
  import opened Wrappers

  const MAX_CARDS := 32
  const MAX_QUERIES := 12

  // ---- lineage of arbitrary cards -----------------------------------------------------------------

  function PassageOf(run: Run, id: string): Option<Passage> { Lookup(run.passages, PassageId, id) }

  predicate PassageClosed(run: Run, id: string) {
    && PassageOf(run, id).Some?
    && HitOf(run, PassageOf(run, id).value).Some?
    && HitClosed(run, HitOf(run, PassageOf(run, id).value).value)
  }

  predicate CardClosed(run: Run, c: Card) { forall id :: id in c.passageIds ==> PassageClosed(run, id) }

  /** The rules of all bridge and counter queries behind a card. */
  function CardRules(run: Run, c: Card): set<string>
    requires CardClosed(run, c)
  {
    set id, r | id in c.passageIds && r in RuleIds(run, HitOf(run, PassageOf(run, id).value).value) :: r
  }

  ghost predicate BridgeAccepts(run: Run, cards: seq<Card>) {
    && Unique(run.hits, HitId) && Unique(run.queries, QueryId) && Unique(cards, CardId) && Unique(run.passages, PassageId)
    && (forall q :: q in run.queries && q.rule.Some? ==> Lookup(run.graph.rules, RuleId, q.rule.value).Some?)
    && forall c :: c in cards ==> CardClosed(run, c) && |CardRules(run, c)| <= 1
  }

  function CardIdsFor(run: Run, cards: seq<Card>, rule: string): set<string>
    requires forall c :: c in cards ==> CardClosed(run, c)
  {
    set c | c in cards && rule in CardRules(run, c) :: c.id
  }

  function QueryTexts(run: Run, rule: string): set<string> { set q | q in run.queries && q.rule == Some(rule) :: q.text }

  function SupportTags(run: Run, cards: seq<Card>, rule: string): set<string>
    requires forall c :: c in cards ==> CardClosed(run, c)
  {
    set c, t | c in cards && c.relation.Support? && rule in CardRules(run, c) && t in c.mechanismTagIds :: t
  }

  /** The SUPPORT cards of a rule cover all the tags it requires. */
  predicate Supported(run: Run, cards: seq<Card>, rule: Rule)
    requires forall c :: c in cards ==> CardClosed(run, c)
  {
    forall t :: t in rule.requiredTagIds ==> t in SupportTags(run, cards, rule.id)
  }

  datatype PacketKey = PacketKey(ruleId: string, cardIds: seq<string>, queries: seq<string>)

  function PacketFor(run: Run, cards: seq<Card>, rule: Rule, idOf: PacketKey -> string): Packet
    requires forall c :: c in cards ==> CardClosed(run, c)
  {
    var ids, texts := Sorted(CardIdsFor(run, cards, rule.id)), Sorted(QueryTexts(run, rule.id));
    Packet(idOf(PacketKey(rule.id, ids, texts)), rule.id, rule, texts, ids)
  }

  // ---- the check of a finished packet ---------------------------------------------------------------

  predicate KindIs(graph: Graph, id: string, kind: TagKind) {
    Lookup(graph.tags, TagId, id).Some? && Lookup(graph.tags, TagId, id).value.kind == kind
  }

  predicate RuleTagsValid(graph: Graph, rule: Rule) {
    && TagsKnown(graph, rule.sourceTagIds) && TagsKnown(graph, rule.targetTagIds)
    && TagsKnown(graph, rule.requiredTagIds) && TagsKnown(graph, rule.suggestedTagIds)
    && (forall t :: t in rule.sourceTagIds ==> KindIs(graph, t, AnalogyDomain))
    && (forall t :: t in rule.requiredTagIds ==> KindIs(graph, t, Mechanism))
  }

  predicate HitValidFor(run: Run, h: Hit, rule: Rule) {
    forall q :: q in h.queryIds ==>
      && Lookup(run.queries, QueryId, q).Some?
      && TagsKnown(run.graph, Lookup(run.queries, QueryId, q).value.tagIds)
      && (!Lookup(run.queries, QueryId, q).value.kind.Direct? ==> Lookup(run.queries, QueryId, q).value.rule == Some(rule.id))
  }

  predicate PassageValidFor(run: Run, id: string, rule: Rule) {
    && PassageOf(run, id).Some? && TagsKnown(run.graph, PassageOf(run, id).value.matchedTagIds)
    && HitOf(run, PassageOf(run, id).value).Some?
    && PassageOf(run, id).value.documentId == HitOf(run, PassageOf(run, id).value).value.documentId
    && HitValidFor(run, HitOf(run, PassageOf(run, id).value).value, rule)
  }

  predicate CardValidFor(run: Run, c: Card, rule: Rule) {
    && (forall t :: t in c.mechanismTagIds ==> KindIs(run.graph, t, Mechanism))
    && forall id :: id in c.passageIds ==> PassageValidFor(run, id, rule)
  }

  predicate FoundByBridge(run: Run, id: string) {
    PassageClosed(run, id) && Bridge in Kinds(run, HitOf(run, PassageOf(run, id).value).value)
  }

  /** A SUPPORT card with a passage found by a bridge query. */
  predicate ReachedByBridge(run: Run, c: Card) {
    c.relation.Support? && exists id :: id in c.passageIds && FoundByBridge(run, id)
  }

  function PacketCards(cards: seq<Card>, p: Packet): set<Card> { set c | c in cards && c.id in p.cardIds }

  /** `validate_search_supported_bridge` */
  predicate PacketValid(run: Run, cards: seq<Card>, p: Packet) {
    && Lookup(run.graph.rules, RuleId, p.ruleId) == Some(p.rule)
    && RuleTagsValid(run.graph, p.rule)
    && (forall id :: id in p.cardIds ==> Lookup(cards, CardId, id).Some?)
    && (forall c :: c in PacketCards(cards, p) ==> CardValidFor(run, c, p.rule))
    && (exists c :: c in PacketCards(cards, p) && c.relation.Support?)
    && (forall t :: t in p.rule.requiredTagIds ==>
          exists c :: c in PacketCards(cards, p) && c.relation.Support? && t in c.mechanismTagIds)
    && exists c :: c in PacketCards(cards, p) && ReachedByBridge(run, c)
  }

  predicate PacketAccepted(run: Run, cards: seq<Card>, p: Packet) {
    0 < |p.queries| <= MAX_QUERIES && 0 < |p.cardIds| <= MAX_CARDS && PacketValid(run, cards, p)
  }

  // ---- the builder ------------------------------------------------------------------------------------

  predicate WantsPacket(run: Run, cards: seq<Card>, rule: Rule)
    requires forall c :: c in cards ==> CardClosed(run, c)
  {
    Supported(run, cards, rule) && QueryTexts(run, rule.id) != {}
  }

  /** The packets of a list of rules, in order. */
  function PacketsOf(run: Run, cards: seq<Card>, rules: seq<Rule>, idOf: PacketKey -> string): seq<Packet>
    requires forall c :: c in cards ==> CardClosed(run, c)
  {
    if rules == [] then []
    else
      var rule := rules[|rules| - 1];
      PacketsOf(run, cards, rules[..|rules| - 1], idOf)
      + (if WantsPacket(run, cards, rule) then [PacketFor(run, cards, rule, idOf)] else [])
  }

  function RuleKey(r: Rule): Normalizing.Key { (r.id, 0) }

  ghost predicate BuildSucceeds(run: Run, cards: seq<Card>, idOf: PacketKey -> string) {
    && BridgeAccepts(run, cards)
    && forall rule :: rule in run.graph.rules && WantsPacket(run, cards, rule) ==>
         PacketAccepted(run, cards, PacketFor(run, cards, rule, idOf))
  }

  /** A packet is built exactly for the rules that are supported and were queried. */
  lemma {:induction false} PacketsMembers(run: Run, cards: seq<Card>, rules: seq<Rule>, idOf: PacketKey -> string)
    requires forall c :: c in cards ==> CardClosed(run, c)
    ensures forall p :: p in PacketsOf(run, cards, rules, idOf) <==>
              exists rule :: rule in rules && WantsPacket(run, cards, rule) && p == PacketFor(run, cards, rule, idOf)
  {
    hide CardClosed, WantsPacket, PacketFor;
    if rules != [] {
      var init, last := rules[..|rules| - 1], rules[|rules| - 1];
      assert rules == init + [last];
      PacketsMembers(run, cards, init, idOf);
      forall p ensures p in PacketsOf(run, cards, rules, idOf) <==>
        exists rule :: rule in rules && WantsPacket(run, cards, rule) && p == PacketFor(run, cards, rule, idOf)
      {
        if p in PacketsOf(run, cards, init, idOf) {
          var rule :| rule in init && WantsPacket(run, cards, rule) && p == PacketFor(run, cards, rule, idOf);
          assert rule in rules;
        }
        if rule :| rule in rules && WantsPacket(run, cards, rule) && p == PacketFor(run, cards, rule, idOf) {
          assert rule in init || rule == last;
        }
      }
    }
  }

  // ---- pipeline closure ---------------------------------------------------------------------------------

  /** The cards the evidence stage builds from its passages. */
  ghost predicate FromEvidence(run: Run, cards: seq<Card>, sorted: seq<Passage>, idOf: CardKey -> string) {
    && run.graph.Valid() && InjectiveIds(idOf)
    && (forall q :: q in run.queries ==> q.Valid())
    && EvidenceAccepts(run)
    && (forall p :: p in sorted <==> p in run.passages) && Unique(sorted, PassageId)
    && cards == CardsOf(run, sorted, idOf)
  }

  /** The passage of an evidence-stage card. */
  ghost predicate CardFrom(run: Run, c: Card, p: Passage, idOf: CardKey -> string) {
    && p in run.passages && PassageAccepted(run, p) && MechanismSet(run.graph, p) != {} && c == CardOf(run, p, idOf)
    && PassageOf(run, p.id) == Some(p)
  }

  lemma CardHasPassage(run: Run, cards: seq<Card>, sorted: seq<Passage>, idOf: CardKey -> string, c: Card)
    requires FromEvidence(run, cards, sorted, idOf) && c in cards
    ensures exists p :: CardFrom(run, c, p, idOf)
  {
    hide PassageAccepted, CardOf, MechanismSet, InjectiveIds;
    CardsMembers(run, sorted, idOf);
    var p :| p in sorted && MechanismSet(run.graph, p) != {} && c == CardOf(run, p, idOf);
    LookupOwn(run.passages, PassageId, p);
    assert CardFrom(run, c, p, idOf);
  }

  /** Such a card reaches exactly the rules of its one passage. */
  lemma CardRulesAre(run: Run, c: Card, p: Passage, idOf: CardKey -> string)
    requires CardFrom(run, c, p, idOf)
    ensures CardClosed(run, c) && CardRules(run, c) == RuleIds(run, HitOf(run, p).value) && |CardRules(run, c)| <= 1
    ensures forall r :: r in CardRules(run, c) ==> Lookup(run.graph.rules, RuleId, r).Some?
  {
    hide RuleIds, Kinds, Sorted, MechanismSet;
    assert c.passageIds == [p.id];
    assert CardRules(run, c) == RuleIds(run, HitOf(run, p).value);
  }

  ghost predicate RulesKnown(run: Run) {
    forall q :: q in run.queries && q.rule.Some? ==> Lookup(run.graph.rules, RuleId, q.rule.value).Some?
  }

  /** The queries behind the cards of a rule carry known tags only. */
  ghost predicate QueryTagsKnown(run: Run, cards: seq<Card>, rule: Rule)
    requires forall c :: c in cards ==> CardClosed(run, c)
  {
    forall c :: c in cards && rule.id in CardRules(run, c) ==> CardTagsKnown(run, c)
  }

  predicate CardTagsKnown(run: Run, c: Card)
    requires CardClosed(run, c)
  {
    forall id :: id in c.passageIds ==> PassageClosed(run, id) && HitTagsKnown(run, HitOf(run, PassageOf(run, id).value).value)
  }

  predicate HitTagsKnown(run: Run, h: Hit)
    requires HitClosed(run, h)
  {
    forall q :: q in h.queryIds ==> TagsKnown(run.graph, Lookup(run.queries, QueryId, q).value.tagIds)
  }

  /** The conditions a packet has to meet beyond its rule being supported. */
  ghost predicate PacketFits(run: Run, cards: seq<Card>, rule: Rule)
    requires forall c :: c in cards ==> CardClosed(run, c)
  {
    && |QueryTexts(run, rule.id)| <= 12 && |CardIdsFor(run, cards, rule.id)| <= 32
    && (forall t :: t in rule.sourceTagIds ==> KindIs(run.graph, t, AnalogyDomain))
    && QueryTagsKnown(run, cards, rule)
  }

  /** Cards of the evidence stage never span rules, so the builder accepts them as soon as every query names a known rule. */
  lemma EvidenceNeverSpans(run: Run, cards: seq<Card>, sorted: seq<Passage>, idOf: CardKey -> string)
    requires FromEvidence(run, cards, sorted, idOf)
    ensures forall c :: c in cards ==> CardClosed(run, c) && |CardRules(run, c)| <= 1
    ensures BridgeAccepts(run, cards) <==> RulesKnown(run)
  {
    hide PassageAccepted, CardOf, CardClosed, CardRules, InjectiveIds, MechanismSet, Unique, CardFrom;
    forall c | c in cards ensures CardClosed(run, c) && |CardRules(run, c)| <= 1 {
      CardHasPassage(run, cards, sorted, idOf, c);
      var p :| CardFrom(run, c, p, idOf);
      CardRulesAre(run, c, p, idOf);
    }
    CardsAreUnique(run, sorted, idOf);
  }

  /** A SUPPORT card of the evidence stage was found by a bridge query of its rule, which was therefore executed. */
  lemma SupportIsReached(run: Run, c: Card, p: Passage, idOf: CardKey -> string, rule: string)
    requires CardFrom(run, c, p, idOf) && (forall q :: q in run.queries ==> q.Valid())
    requires c.relation.Support? && CardClosed(run, c) && rule in CardRules(run, c)
    ensures ReachedByBridge(run, c)
    ensures QueryTexts(run, rule) != {}
  {
    CardIsGrounded(run, p, idOf);
    CardRulesAre(run, c, p, idOf);
    var h := HitOf(run, p).value;
    var q :| q in h.queryIds && Lookup(run.queries, QueryId, q).Some? && Lookup(run.queries, QueryId, q).value.rule == Some(rule);
    var query := Lookup(run.queries, QueryId, q).value;
    assert query.text in QueryTexts(run, rule);
    hide CardRules, CardOf, MechanismSet;
    assert p.id in c.passageIds && FoundByBridge(run, p.id);
  }

  /** The evidence of one card is in order for the packet of its rule exactly when the tags of its queries are known. */
  lemma CardValidIff(run: Run, c: Card, p: Passage, idOf: CardKey -> string, rule: Rule)
    requires CardFrom(run, c, p, idOf) && (forall q :: q in run.queries ==> q.Valid())
    requires CardClosed(run, c) && rule.id in CardRules(run, c)
    ensures CardValidFor(run, c, rule) <==> CardTagsKnown(run, c)
  {
    CardRulesAre(run, c, p, idOf);
    CardTags(run, p, idOf);
    var h := HitOf(run, p).value;
    OnlyRule(RuleIds(run, h), rule.id);
    forall q | q in h.queryIds && !Lookup(run.queries, QueryId, q).value.kind.Direct?
      ensures Lookup(run.queries, QueryId, q).value.rule == Some(rule.id)
    {
      var query := Lookup(run.queries, QueryId, q).value;
      assert query.Valid() && query.rule.value in RuleIds(run, h);
    }
    hide CardRules, RuleIds, Kinds, Lookup, CardOf, MechanismSet;
    assert CardValidFor(run, c, rule) <==> PassageValidFor(run, p.id, rule) by { OnePassage(run, c, p, idOf); }
  }

  lemma OnePassage(run: Run, c: Card, p: Passage, idOf: CardKey -> string)
    requires CardFrom(run, c, p, idOf)
    ensures c.passageIds == [p.id]
  {
  }

  /** For evidence-stage cards a supported rule always has an executed query: that skip is unreachable. */
  lemma SupportedIsQueried(run: Run, cards: seq<Card>, sorted: seq<Passage>, idOf: CardKey -> string, rule: Rule)
    requires FromEvidence(run, cards, sorted, idOf) && rule in run.graph.rules
    requires forall c :: c in cards ==> CardClosed(run, c)
    requires Supported(run, cards, rule)
    ensures QueryTexts(run, rule.id) != {}
    ensures exists c :: c in cards && c.relation.Support? && rule.id in CardRules(run, c) && ReachedByBridge(run, c)
  {
    hide PassageAccepted, CardOf, CardClosed, CardRules, InjectiveIds, MechanismSet, Unique, CardFrom, QueryTexts, ReachedByBridge;
    assert rule.requiredTagIds != [];
    var t := rule.requiredTagIds[0];
    assert t in SupportTags(run, cards, rule.id);
    var c :| c in cards && c.relation.Support? && rule.id in CardRules(run, c) && t in c.mechanismTagIds;
    CardHasPassage(run, cards, sorted, idOf, c);
    var p :| CardFrom(run, c, p, idOf);
    SupportIsReached(run, c, p, idOf, rule.id);
  }

  lemma PacketCardsAre(run: Run, cards: seq<Card>, rule: Rule, idOf: PacketKey -> string)
    requires (forall c :: c in cards ==> CardClosed(run, c)) && Unique(cards, CardId)
    ensures var p := PacketFor(run, cards, rule, idOf);
            && (forall c :: c in PacketCards(cards, p) <==> c in cards && rule.id in CardRules(run, c))
            && (forall id :: id in p.cardIds ==> Lookup(cards, CardId, id).Some?)
            && |p.cardIds| == |CardIdsFor(run, cards, rule.id)| && |p.queries| == |QueryTexts(run, rule.id)|
  {
    hide CardClosed, CardRules;
    var p := PacketFor(run, cards, rule, idOf);
    forall c ensures c in PacketCards(cards, p) <==> c in cards && rule.id in CardRules(run, c) {
      if c in PacketCards(cards, p) {
        var d :| d in cards && rule.id in CardRules(run, d) && d.id == c.id;
        LookupOwn(cards, CardId, c);
        LookupOwn(cards, CardId, d);
      }
    }
    forall id | id in p.cardIds ensures Lookup(cards, CardId, id).Some? {
      var d :| d in cards && rule.id in CardRules(run, d) && d.id == id;
    }
  }

  lemma RuleTagsIff(run: Run, cards: seq<Card>, sorted: seq<Passage>, idOf: CardKey -> string, rule: Rule)
    requires FromEvidence(run, cards, sorted, idOf) && rule in run.graph.rules
    requires forall c :: c in cards ==> CardClosed(run, c)
    requires Supported(run, cards, rule)
    ensures RuleTagsValid(run.graph, rule) <==> forall t :: t in rule.sourceTagIds ==> KindIs(run.graph, t, AnalogyDomain)
  {
    hide PassageAccepted, CardOf, CardClosed, CardRules, InjectiveIds, MechanismSet, Unique, CardFrom;
    forall t | t in rule.requiredTagIds ensures KindIs(run.graph, t, Mechanism) {
      assert t in SupportTags(run, cards, rule.id);
      var c :| c in cards && c.relation.Support? && rule.id in CardRules(run, c) && t in c.mechanismTagIds;
      CardHasPassage(run, cards, sorted, idOf, c);
      var p :| CardFrom(run, c, p, idOf);
      MechanismKind(run, c, p, idOf, t);
    }
  }

  lemma MechanismKind(run: Run, c: Card, p: Passage, idOf: CardKey -> string, t: string)
    requires CardFrom(run, c, p, idOf) && t in c.mechanismTagIds
    ensures KindIs(run.graph, t, Mechanism)
  {
    CardTags(run, p, idOf);
  }

  lemma CardsValidIff(run: Run, cards: seq<Card>, sorted: seq<Passage>, idOf: CardKey -> string, rule: Rule)
    requires FromEvidence(run, cards, sorted, idOf)
    requires forall c :: c in cards ==> CardClosed(run, c)
    ensures (forall c :: c in cards && rule.id in CardRules(run, c) ==> CardValidFor(run, c, rule)) <==> QueryTagsKnown(run, cards, rule)
  {
    hide PassageAccepted, CardOf, CardClosed, CardRules, InjectiveIds, MechanismSet, Unique, CardFrom, CardValidFor, CardTagsKnown, FromEvidence;
    forall c | c in cards && rule.id in CardRules(run, c) ensures CardValidFor(run, c, rule) <==> CardTagsKnown(run, c) {
      CardHasPassage(run, cards, sorted, idOf, c);
      var p :| CardFrom(run, c, p, idOf);
      CardValidIff(run, c, p, idOf, rule) by { QueriesValid(run, cards, sorted, idOf); }
    }
  }

  lemma QueriesValid(run: Run, cards: seq<Card>, sorted: seq<Passage>, idOf: CardKey -> string)
    requires FromEvidence(run, cards, sorted, idOf)
    ensures forall q :: q in run.queries ==> q.Valid()
  {
  }

  /**
   * Pipeline closure: a packet built from evidence-stage cards for a supported rule passes the whole
   * evidence-closure check exactly when it fits its two size limits, its source tags are analogy
   * domains, and the queries behind its cards carry known tags.
   */
  lemma PacketAcceptedIff(run: Run, cards: seq<Card>, sorted: seq<Passage>, idOf: CardKey -> string, packetId: PacketKey -> string, rule: Rule)
    requires FromEvidence(run, cards, sorted, idOf) && rule in run.graph.rules
    requires forall c :: c in cards ==> CardClosed(run, c)
    requires Supported(run, cards, rule)
    ensures PacketAccepted(run, cards, PacketFor(run, cards, rule, packetId)) <==> PacketFits(run, cards, rule)
  {
    hide PassageAccepted, CardOf, CardClosed, CardRules, InjectiveIds, MechanismSet, Unique, CardFrom, CardValidFor;
    hide RuleTagsValid, ReachedByBridge, QueryTagsKnown, QueryTexts, FromEvidence, CardIdsFor, PacketFor, PacketCards, Lookup, KindIs;
    hide PacketAccepted, PacketFits, Supported;
    CardsUnique(run, cards, sorted, idOf);
    PacketCardsAre(run, cards, rule, packetId);
    SupportedIsQueried(run, cards, sorted, idOf, rule);
    RuleTagsIff(run, cards, sorted, idOf, rule);
    CardsValidIff(run, cards, sorted, idOf, rule);
    GraphOk(run, cards, sorted, idOf);
    RuleIsOwn(run, rule);
    PacketNamesRule(run, cards, rule, packetId);
    CardIdsNonEmpty(run, cards, rule);
    AcceptedIffFits(run, cards, rule, PacketFor(run, cards, rule, packetId));
  }

  /** The clauses of the check that always hold for such a packet, set aside. */
  lemma AcceptedIffFits(run: Run, cards: seq<Card>, rule: Rule, p: Packet)
    requires forall c :: c in cards ==> CardClosed(run, c)
    requires Supported(run, cards, rule) && p.rule == rule && p.ruleId == rule.id
    requires Lookup(run.graph.rules, RuleId, rule.id) == Some(rule)
    requires forall c :: c in PacketCards(cards, p) <==> c in cards && rule.id in CardRules(run, c)
    requires forall id :: id in p.cardIds ==> Lookup(cards, CardId, id).Some?
    requires |p.cardIds| == |CardIdsFor(run, cards, rule.id)| > 0 && |p.queries| == |QueryTexts(run, rule.id)| > 0
    requires exists c :: c in cards && c.relation.Support? && rule.id in CardRules(run, c) && ReachedByBridge(run, c)
    requires RuleTagsValid(run.graph, rule) <==> forall t :: t in rule.sourceTagIds ==> KindIs(run.graph, t, AnalogyDomain)
    requires (forall c :: c in cards && rule.id in CardRules(run, c) ==> CardValidFor(run, c, rule)) <==> QueryTagsKnown(run, cards, rule)
    ensures PacketAccepted(run, cards, p) <==> PacketFits(run, cards, rule)
  {
    hide CardClosed, CardRules, CardValidFor, RuleTagsValid, ReachedByBridge, QueryTagsKnown, QueryTexts, CardIdsFor, PacketCards, Lookup, KindIs;
    forall t | t in rule.requiredTagIds
      ensures exists c :: c in PacketCards(cards, p) && c.relation.Support? && t in c.mechanismTagIds
    {
      assert t in SupportTags(run, cards, rule.id);
    }
  }

  lemma CardsUnique(run: Run, cards: seq<Card>, sorted: seq<Passage>, idOf: CardKey -> string)
    requires FromEvidence(run, cards, sorted, idOf)
    ensures Unique(cards, CardId)
  {
    CardsAreUnique(run, sorted, idOf);
  }

  lemma GraphOk(run: Run, cards: seq<Card>, sorted: seq<Passage>, idOf: CardKey -> string)
    requires FromEvidence(run, cards, sorted, idOf)
    ensures run.graph.Valid()
  {
  }

  lemma RuleIsOwn(run: Run, rule: Rule)
    requires run.graph.Valid() && rule in run.graph.rules
    ensures Lookup(run.graph.rules, RuleId, rule.id) == Some(rule)
  {
    LookupOwn(run.graph.rules, RuleId, rule);
  }

  lemma PacketNamesRule(run: Run, cards: seq<Card>, rule: Rule, idOf: PacketKey -> string)
    requires forall c :: c in cards ==> CardClosed(run, c)
    ensures PacketFor(run, cards, rule, idOf).rule == rule && PacketFor(run, cards, rule, idOf).ruleId == rule.id
  {
  }

  lemma CardIdsNonEmpty(run: Run, cards: seq<Card>, rule: Rule)
    requires forall c :: c in cards ==> CardClosed(run, c)
    requires exists c :: c in cards && rule.id in CardRules(run, c)
    ensures |CardIdsFor(run, cards, rule.id)| > 0
  {
    hide CardClosed, CardRules;
    var c :| c in cards && rule.id in CardRules(run, c);
    assert c.id in CardIdsFor(run, cards, rule.id);
  }

  /** Fed with the evidence stage's cards, the builder fails only for one of these reasons, and builds exactly the supported rules. */
  lemma PipelineCloses(run: Run, cards: seq<Card>, sorted: seq<Passage>, idOf: CardKey -> string, packetId: PacketKey -> string)
    requires FromEvidence(run, cards, sorted, idOf)
    ensures forall c :: c in cards ==> CardClosed(run, c)
    ensures BuildSucceeds(run, cards, packetId) <==>
              RulesKnown(run) && forall rule :: rule in run.graph.rules && Supported(run, cards, rule) ==> PacketFits(run, cards, rule)
    ensures forall rule :: rule in run.graph.rules ==> (WantsPacket(run, cards, rule) <==> Supported(run, cards, rule))
  {
    EvidenceNeverSpans(run, cards, sorted, idOf);
    hide FromEvidence, CardClosed, BridgeAccepts, RulesKnown, PacketAccepted, PacketFits, PacketFor, QueryTexts, Supported;
    forall rule | rule in run.graph.rules
      ensures WantsPacket(run, cards, rule) <==> Supported(run, cards, rule)
      ensures WantsPacket(run, cards, rule) ==>
                (PacketAccepted(run, cards, PacketFor(run, cards, rule, packetId)) <==> PacketFits(run, cards, rule))
    {
      if Supported(run, cards, rule) {
        SupportedIsQueried(run, cards, sorted, idOf, rule);
        PacketAcceptedIff(run, cards, sorted, idOf, packetId, rule);
      }
    }
  }

  // ---- the loops ----------------------------------------------------------------------------------------

  datatype Skipped = MissingSupport(ruleId: string, missing: seq<string>) | NotQueried(ruleId: string)

  function SkipOf(run: Run, cards: seq<Card>, rule: Rule): Skipped
    requires forall c :: c in cards ==> CardClosed(run, c)
  {
    if Supported(run, cards, rule) then NotQueried(rule.id)
    else MissingSupport(rule.id, Sorted((set t | t in rule.requiredTagIds) - SupportTags(run, cards, rule.id)))
  }

  function SkipsOf(run: Run, cards: seq<Card>, rules: seq<Rule>): seq<Skipped>
    requires forall c :: c in cards ==> CardClosed(run, c)
  {
    if rules == [] then []
    else
      var rule := rules[|rules| - 1];
      SkipsOf(run, cards, rules[..|rules| - 1]) + (if WantsPacket(run, cards, rule) then [] else [SkipOf(run, cards, rule)])
  }

  /** Every rule becomes a packet or is reported as skipped, never both; the skipped ones are those that want none. */
  lemma {:induction false} SkipsMembers(run: Run, cards: seq<Card>, rules: seq<Rule>, idOf: PacketKey -> string)
    requires forall c :: c in cards ==> CardClosed(run, c)
    ensures |PacketsOf(run, cards, rules, idOf)| + |SkipsOf(run, cards, rules)| == |rules|
    ensures forall s :: s in SkipsOf(run, cards, rules) <==>
              exists rule :: rule in rules && !WantsPacket(run, cards, rule) && s == SkipOf(run, cards, rule)
  {
    hide CardClosed, WantsPacket, PacketFor, SkipOf;
    if rules != [] {
      var init, last := rules[..|rules| - 1], rules[|rules| - 1];
      assert rules == init + [last];
      SkipsMembers(run, cards, init, idOf);
      forall s ensures s in SkipsOf(run, cards, rules) <==>
        exists rule :: rule in rules && !WantsPacket(run, cards, rule) && s == SkipOf(run, cards, rule)
      {
        if s in SkipsOf(run, cards, init) {
          var rule :| rule in init && !WantsPacket(run, cards, rule) && s == SkipOf(run, cards, rule);
          assert rule in rules;
        }
        if rule :| rule in rules && !WantsPacket(run, cards, rule) && s == SkipOf(run, cards, rule) {
          assert rule in init || rule == last;
        }
      }
    }
  }

  /** `build_search_supported_bridges`: every rule, in order, becomes a packet or is reported as skipped. */
  method BuildBridges(run: Run, cards: seq<Card>, idOf: PacketKey -> string)
    returns (r: Result<(seq<Packet>, seq<Skipped>), string>, ghost order: seq<Rule>)
    requires run.graph.Valid()
    ensures r.Ok? <==> BuildSucceeds(run, cards, idOf)
    ensures r.Ok? ==> Normalizing.Normalized(order, RuleKey) && forall x :: x in order <==> x in run.graph.rules
    ensures r.Ok? ==> r.value.0 == PacketsOf(run, cards, order, idOf) && r.value.1 == SkipsOf(run, cards, order)
  {
    hide CardClosed, CardRules, WantsPacket, PacketFor, PacketAccepted, SkipOf, Unique, Lookup;
    order := [];
    var hits := UniqueIndex(run.hits, HitId);
    if hits.Err? { return Err(hits.error), order; }
    var queries := UniqueIndex(run.queries, QueryId);
    if queries.Err? { return Err(queries.error), order; }
    var byId := UniqueIndex(cards, CardId);
    if byId.Err? { return Err(byId.error), order; }
    var passages := UniqueIndex(run.passages, PassageId);
    if passages.Err? { return Err(passages.error), order; }
    for i := 0 to |run.queries|
      invariant forall q :: q in run.queries[..i] && q.rule.Some? ==> Lookup(run.graph.rules, RuleId, q.rule.value).Some?
    {
      var q := run.queries[i];
      assert q in run.queries && run.queries[..i + 1] == run.queries[..i] + [q];
      if q.rule.Some? && Lookup(run.graph.rules, RuleId, q.rule.value).None? { return Err("unknown bridge rule"), order; }
    }
    assert run.queries[..|run.queries|] == run.queries;
    for i := 0 to |cards|
      invariant forall c :: c in cards[..i] ==> CardClosed(run, c) && |CardRules(run, c)| <= 1
    {
      var c := cards[i];
      assert c in cards && cards[..i + 1] == cards[..i] + [c];
      if !CardClosed(run, c) { return Err("card does not close over the run"), order; }
      if |CardRules(run, c)| > 1 { return Err("evidence card spans bridge rules"), order; }
    }
    assert cards[..|cards|] == cards;
    r, order := BuildPackets(run, cards, idOf);
  }

  method BuildPackets(run: Run, cards: seq<Card>, idOf: PacketKey -> string)
    returns (r: Result<(seq<Packet>, seq<Skipped>), string>, ghost order: seq<Rule>)
    requires run.graph.Valid() && forall c :: c in cards ==> CardClosed(run, c)
    ensures r.Ok? <==> forall rule :: rule in run.graph.rules && WantsPacket(run, cards, rule) ==>
                         PacketAccepted(run, cards, PacketFor(run, cards, rule, idOf))
    ensures r.Ok? ==> Normalizing.Normalized(order, RuleKey) && forall x :: x in order <==> x in run.graph.rules
    ensures r.Ok? ==> r.value.0 == PacketsOf(run, cards, order, idOf) && r.value.1 == SkipsOf(run, cards, order)
  {
    hide CardClosed, CardRules, WantsPacket, PacketFor, PacketAccepted, SkipOf, Lookup;
    var rules := SortRules(run.graph.rules);
    order := rules;
    var packets: seq<Packet> := [];
    var skipped: seq<Skipped> := [];
    for i := 0 to |rules|
      invariant packets == PacketsOf(run, cards, rules[..i], idOf) && skipped == SkipsOf(run, cards, rules[..i])
      invariant forall rule :: rule in rules[..i] && WantsPacket(run, cards, rule) ==>
                  PacketAccepted(run, cards, PacketFor(run, cards, rule, idOf))
    {
      var rule := rules[i];
      assert rule in run.graph.rules && rules[..i + 1] == rules[..i] + [rule] && rules[..i + 1][..i] == rules[..i];
      if WantsPacket(run, cards, rule) {
        var packet := PacketFor(run, cards, rule, idOf);
        if !PacketAccepted(run, cards, packet) { return Err("packet fails its evidence closure"), order; }
        packets := packets + [packet];
      } else {
        skipped := skipped + [SkipOf(run, cards, rule)];
      }
    }
    assert rules[..|rules|] == rules;
    return Ok((packets, skipped)), order;
  }

  method SortRules(rules: seq<Rule>) returns (r: seq<Rule>)
    requires Unique(rules, RuleId)
    ensures Normalizing.Normalized(r, RuleKey) && forall x :: x in r <==> x in rules
  {
    assert Normalizing.Consistent(rules, RuleKey) by {
      forall x, y | x in rules && y in rules && RuleKey(x) == RuleKey(y) ensures x == y {
        LookupOwn(rules, RuleId, x);
        LookupOwn(rules, RuleId, y);
      }
    }
    var sorted := Normalizing.Normalize(rules, RuleKey);
    return sorted.value;
  }
}
